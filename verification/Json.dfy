/** The compact JSON text that json.Marshal writes for log records, and a parser for it.
    Texts are lists here, so that printing can prepend to whatever follows. */
module Json {
  import opened Core

  /** A char stands for one byte of the file. */
  datatype Text = End | Cons(head: char, tail: Text)

  datatype Json =
    | Null
    | Num(n: int)
    | Str(text: Text)
    | Arr(items: Items)
    | Obj(fields: Fields)

  datatype Items = NoItems | Item(value: Json, rest: Items)

  datatype Fields = NoFields | Field(name: Text, value: Json, rest: Fields)

  /** A failed parse, or what was parsed and the text after it. */
  datatype Parsed<+T> = Bad | Good(value: T, rest: Text)

  const QUOTE := '"'
  const BACKSLASH := '\\'

  // ---------------------------------------------------------------- printing

  function HexDigit(n: nat): char
    requires n < 16
  {
    if n < 10 then (48 + n) as char else (87 + n) as char
  }

  function Digit(n: nat): char
    requires n < 10
  {
    (48 + n) as char
  }

  function Escaped(c: char, mark: char, t: Text): Text {
    Cons(BACKSLASH, Cons(mark, t))
  }

  /** One byte inside a JSON string (section 7 of RFC 8259). */
  function PrintChar(c: char, t: Text): Text {
    if c == QUOTE || c == BACKSLASH then Escaped(c, c, t)
    else if c == '\U{8}' then Escaped(c, 'b', t)
    else if c == '\U{c}' then Escaped(c, 'f', t)
    else if c == '\n' then Escaped(c, 'n', t)
    else if c == '\r' then Escaped(c, 'r', t)
    else if c == '\t' then Escaped(c, 't', t)
    else if c < ' ' || c == '&' || c == '<' || c == '>' then
      Escaped(c, 'u', Cons('0', Cons('0', Cons(HexDigit(c as nat / 16), Cons(HexDigit(c as nat % 16), t)))))
    else Cons(c, t)
  }

  function PrintChars(s: Text, t: Text): Text {
    match s
    case End => Cons(QUOTE, t)
    case Cons(c, s') => PrintChar(c, PrintChars(s', t))
  }

  function PrintNat(n: nat, t: Text): Text {
    if n < 10 then Cons(Digit(n), t) else PrintNat(n / 10, Cons(Digit(n % 10), t))
  }

  /** j in front of t. */
  function Print(j: Json, t: Text): Text {
    match j
    case Null => Cons('n', Cons('u', Cons('l', Cons('l', t))))
    case Num(n) => if n < 0 then Cons('-', PrintNat(-n, t)) else PrintNat(n, t)
    case Str(s) => Cons(QUOTE, PrintChars(s, t))
    case Arr(items) =>
      Cons('[', match items
                case NoItems => Cons(']', t)
                case Item(_, _) => PrintItems(items, t))
    case Obj(fields) =>
      Cons('{', match fields
                case NoFields => Cons('}', t)
                case Field(_, _, _) => PrintFields(fields, t))
  }

  function PrintItems(items: Items, t: Text): Text
    requires items.Item?
  {
    Print(items.value, match items.rest
                       case NoItems => Cons(']', t)
                       case Item(_, _) => Cons(',', PrintItems(items.rest, t)))
  }

  function PrintFields(fields: Fields, t: Text): Text
    requires fields.Field?
  {
    Cons(QUOTE, PrintChars(fields.name,
      Cons(':', Print(fields.value,
        match fields.rest
        case NoFields => Cons('}', t)
        case Field(_, _, _) => Cons(',', PrintFields(fields.rest, t))))))
  }

  // ---------------------------------------------------------------- parsing

  predicate IsDigit(c: char) { '0' <= c <= '9' }

  function Length(t: Text): nat {
    match t
    case End => 0
    case Cons(_, t') => 1 + Length(t')
  }

  function ParseDigits(t: Text, acc: nat): (r: (nat, Text))
    ensures Length(r.1) <= Length(t)
  {
    if t.Cons? && IsDigit(t.head) then ParseDigits(t.tail, acc * 10 + (t.head as nat - 48)) else (acc, t)
  }

  function HexValue(c: char): Option<nat> {
    if IsDigit(c) then Some(c as nat - 48)
    else if 'a' <= c <= 'f' then Some(c as nat - 87)
    else None
  }

  /** What follows a backslash. */
  function ParseEscape(t: Text): (r: Parsed<char>)
    ensures r.Good? ==> Length(r.rest) < Length(t)
  {
    match t
    case End => Bad
    case Cons(c, t') =>
      if c == QUOTE || c == BACKSLASH || c == '/' then Good(c, t')
      else if c == 'b' then Good('\U{8}', t')
      else if c == 'f' then Good('\U{c}', t')
      else if c == 'n' then Good('\n', t')
      else if c == 'r' then Good('\r', t')
      else if c == 't' then Good('\t', t')
      else if c == 'u' then ParseHex(t')
      else Bad
  }

  /** The four digits of a \u00xx escape below U+0080, the only ones the log writes. */
  function ParseHex(t: Text): (r: Parsed<char>)
    ensures r.Good? ==> Length(r.rest) < Length(t)
  {
    match t
    case Cons('0', Cons('0', Cons(h, Cons(l, t')))) =>
      assert Length(t) == 2 + Length(Cons(h, Cons(l, t')));
      (match (HexValue(h), HexValue(l))
       case (Some(x), Some(y)) => if x < 8 then Good((x * 16 + y) as char, t') else Bad
       case _ => Bad)
    case _ => Bad
  }

  /** The rest of a string literal, up to its closing quote. */
  function ParseChars(t: Text): (r: Parsed<Text>)
    ensures r.Good? ==> Length(r.rest) < Length(t)
    decreases Length(t)
  {
    match t
    case End => Bad
    case Cons(c, t') =>
      if c == QUOTE then Good(End, t')
      else if c < ' ' then Bad
      else if c == BACKSLASH then
        match ParseEscape(t')
        case Bad => Bad
        case Good(e, t'') => MoreChars(e, ParseChars(t''))
      else MoreChars(c, ParseChars(t'))
  }

  function MoreChars(c: char, p: Parsed<Text>): Parsed<Text> {
    match p
    case Bad => Bad
    case Good(s, t) => Good(Cons(c, s), t)
  }

  function ParseNum(t: Text): (r: Parsed<Json>)
    ensures r.Good? ==> Length(r.rest) < Length(t)
  {
    match t
    case End => Bad
    case Cons(c, t') =>
      if IsDigit(c) then var (n, t'') := ParseDigits(t', c as nat - 48); Good(Num(n), t'')
      else if c == '-' && t'.Cons? && IsDigit(t'.head) then
        var (n, t'') := ParseDigits(t'.tail, t'.head as nat - 48); Good(Num(0 - n), t'')
      else Bad
  }

  function ParseValue(t: Text): (r: Parsed<Json>)
    ensures r.Good? ==> Length(r.rest) < Length(t)
    decreases Length(t), 0
  {
    match t
    case End => Bad
    case Cons(c, t') =>
      if c == QUOTE then
        match ParseChars(t')
        case Bad => Bad
        case Good(s, t'') => Good(Str(s), t'')
      else if c == '{' then
        if t'.Cons? && t'.head == '}' then Good(Obj(NoFields), t'.tail)
        else
          match ParseFields(t')
          case Bad => Bad
          case Good(fields, t'') => Good(Obj(fields), t'')
      else if c == '[' then
        if t'.Cons? && t'.head == ']' then Good(Arr(NoItems), t'.tail)
        else
          match ParseItems(t')
          case Bad => Bad
          case Good(items, t'') => Good(Arr(items), t'')
      else if c == 'n' then
        match t'
        case Cons('u', Cons('l', Cons('l', t''))) =>
          assert Length(t') == 2 + Length(Cons('l', t''));
          Good(Null, t'')
        case _ => Bad
      else ParseNum(t)
  }

  function ParseItems(t: Text): (r: Parsed<Items>)
    ensures r.Good? ==> Length(r.rest) < Length(t)
    decreases Length(t), 1
  {
    match ParseValue(t)
    case Bad => Bad
    case Good(j, t') =>
      if t'.Cons? && t'.head == ']' then Good(Item(j, NoItems), t'.tail)
      else if t'.Cons? && t'.head == ',' then
        match ParseItems(t'.tail)
        case Bad => Bad
        case Good(items, t'') => Good(Item(j, items), t'')
      else Bad
  }

  function ParseFields(t: Text): (r: Parsed<Fields>)
    ensures r.Good? ==> Length(r.rest) < Length(t)
    decreases Length(t), 2
  {
    if !t.Cons? || t.head != QUOTE then Bad
    else
      match ParseChars(t.tail)
      case Bad => Bad
      case Good(name, u) =>
        if !u.Cons? || u.head != ':' then Bad
        else
          match ParseValue(u.tail)
          case Bad => Bad
          case Good(j, t') =>
            if t'.Cons? && t'.head == '}' then Good(Field(name, j, NoFields), t'.tail)
            else if t'.Cons? && t'.head == ',' then
              match ParseFields(t'.tail)
              case Bad => Bad
              case Good(fields, t'') => Good(Field(name, j, fields), t'')
            else Bad
  }

  // ---------------------------------------------------------------- parsing what was printed

  lemma CharParses(c: char, t: Text)
    requires ParseChars(t).Good?
    ensures ParseChars(PrintChar(c, t)) == MoreChars(c, ParseChars(t))
  {
    var p := PrintChar(c, t);
    if p.head == BACKSLASH {
      assert ParseEscape(p.tail) == Good(c, t);
    }
  }

  lemma {:induction false} CharsParse(s: Text, t: Text)
    ensures ParseChars(PrintChars(s, t)) == Good(s, t)
  {
    if s.Cons? {
      CharsParse(s.tail, t);
      CharParses(s.head, PrintChars(s.tail, t));
    }
  }

  lemma {:induction false} DigitsParse(n: nat, t: Text)
    ensures PrintNat(n, t).Cons? && IsDigit(PrintNat(n, t).head)
    ensures ParseDigits(PrintNat(n, t), 0) == ParseDigits(t, n)
    ensures ParseDigits(PrintNat(n, t).tail, PrintNat(n, t).head as nat - 48) == ParseDigits(t, n)
    decreases n
  {
    if n >= 10 {
      DigitsParse(n / 10, Cons(Digit(n % 10), t));
    }
  }

  predicate EndsNumber(t: Text) {
    t.Cons? ==> !IsDigit(t.head)
  }

  /** The parser undoes the printer, whatever follows; after a number no digit may. */
  lemma {:induction false} ValueParses(j: Json, t: Text)
    requires j.Num? ==> EndsNumber(t)
    ensures ParseValue(Print(j, t)) == Good(j, t)
  {
    match j
    case Null =>
    case Num(n) => DigitsParse(if n < 0 then -n else n, t);
    case Str(s) => CharsParse(s, t);
    case Arr(items) => if items.Item? { ItemsParse(items, t); }
    case Obj(fields) => if fields.Field? { FieldsParse(fields, t); }
  }

  lemma FirstChar(j: Json, t: Text)
    ensures Print(j, t).Cons? && Print(j, t).head != ']'
  {
    if j.Num? {
      DigitsParse(if j.n < 0 then -j.n else j.n, t);
    }
  }

  lemma {:induction false} ItemsParse(items: Items, t: Text)
    requires items.Item?
    ensures ParseItems(PrintItems(items, t)) == Good(items, t)
    ensures PrintItems(items, t).Cons? && PrintItems(items, t).head != ']'
  {
    var more := match items.rest
                case NoItems => Cons(']', t)
                case Item(_, _) => Cons(',', PrintItems(items.rest, t));
    FirstChar(items.value, more);
    ValueParses(items.value, more);
    if items.rest.Item? {
      ItemsParse(items.rest, t);
    }
  }

  lemma {:induction false} FieldsParse(fields: Fields, t: Text)
    requires fields.Field?
    ensures ParseFields(PrintFields(fields, t)) == Good(fields, t)
  {
    var more := match fields.rest
                case NoFields => Cons('}', t)
                case Field(_, _, _) => Cons(',', PrintFields(fields.rest, t));
    CharsParse(fields.name, Cons(':', Print(fields.value, more)));
    ValueParses(fields.value, more);
    if fields.rest.Field? {
      FieldsParse(fields.rest, t);
    }
  }

  // ---------------------------------------------------------------- longer texts

  function Append(s: Text, t: Text): Text {
    match s
    case End => t
    case Cons(c, s') => Cons(c, Append(s', t))
  }

  lemma {:induction false} DigitsExtend(s: Text, acc: nat, t: Text)
    requires ParseDigits(s, acc).1.Cons?
    ensures ParseDigits(Append(s, t), acc) == (ParseDigits(s, acc).0, Append(ParseDigits(s, acc).1, t))
  {
    if s.Cons? && IsDigit(s.head) {
      DigitsExtend(s.tail, acc * 10 + (s.head as nat - 48), t);
    }
  }

  lemma EscapeExtends(s: Text, t: Text)
    requires ParseEscape(s).Good?
    ensures ParseEscape(Append(s, t)) == Good(ParseEscape(s).value, Append(ParseEscape(s).rest, t))
  {
    if s.head == 'u' {
      var h := s.tail;
      assert h.Cons? && h.tail.Cons? && h.tail.tail.Cons? && h.tail.tail.tail.Cons?;
      assert Append(h, t) == Cons(h.head, Append(h.tail, t));
      assert Append(h.tail, t) == Cons(h.tail.head, Append(h.tail.tail, t));
      assert Append(h.tail.tail, t) == Cons(h.tail.tail.head, Append(h.tail.tail.tail, t));
    }
  }

  lemma {:induction false} CharsExtend(s: Text, t: Text)
    requires ParseChars(s).Good?
    ensures ParseChars(Append(s, t)) == Good(ParseChars(s).value, Append(ParseChars(s).rest, t))
    decreases Length(s)
  {
    if s.head == QUOTE {
    } else if s.head == BACKSLASH {
      EscapeExtends(s.tail, t);
      CharsExtend(ParseEscape(s.tail).rest, t);
    } else {
      CharsExtend(s.tail, t);
    }
  }

  /** A value that is complete in a text is the same value in every longer text; only a number can
      still grow at the very end. */
  lemma {:induction false} ValueExtends(s: Text, t: Text)
    requires ParseValue(s).Good? && (ParseValue(s).value.Num? ==> ParseValue(s).rest.Cons?)
    ensures ParseValue(Append(s, t)) == Good(ParseValue(s).value, Append(ParseValue(s).rest, t))
    decreases Length(s), 0
  {
    var u := s.tail;
    if s.head == QUOTE {
      CharsExtend(u, t);
    } else if s.head == '{' {
      if u.Cons? && u.head != '}' { FieldsExtend(u, t); }
    } else if s.head == '[' {
      if u.Cons? && u.head != ']' { ItemsExtend(u, t); }
    } else if s.head == 'n' {
      assert Append(u, t) == Cons('u', Append(u.tail, t));
      assert Append(u.tail, t) == Cons('l', Append(u.tail.tail, t));
    } else if IsDigit(s.head) {
      DigitsExtend(u, s.head as nat - 48, t);
    } else {
      DigitsExtend(u.tail, u.head as nat - 48, t);
    }
  }

  lemma {:induction false} ItemsExtend(s: Text, t: Text)
    requires ParseItems(s).Good?
    ensures ParseItems(Append(s, t)) == Good(ParseItems(s).value, Append(ParseItems(s).rest, t))
    decreases Length(s), 1
  {
    ValueExtends(s, t);
    var more := ParseValue(s).rest;
    if more.head == ',' {
      ItemsExtend(more.tail, t);
    }
  }

  lemma {:induction false} FieldsExtend(s: Text, t: Text)
    requires ParseFields(s).Good?
    ensures ParseFields(Append(s, t)) == Good(ParseFields(s).value, Append(ParseFields(s).rest, t))
    decreases Length(s), 2
  {
    CharsExtend(s.tail, t);
    var u := ParseChars(s.tail).rest;
    ValueExtends(u.tail, t);
    var more := ParseValue(u.tail).rest;
    if more.head == ',' {
      FieldsExtend(more.tail, t);
    }
  }

  // ---------------------------------------------------------------- what a log line rests on

  predicate Printable(t: Text) {
    t.Cons? ==> t.head >= ' ' && Printable(t.tail)
  }

  lemma {:induction false} CharsArePrintable(s: Text, t: Text)
    requires Printable(t)
    ensures Printable(PrintChars(s, t))
  {
    if s.Cons? {
      CharsArePrintable(s.tail, t);
      CharIsPrintable(s.head, PrintChars(s.tail, t));
    }
  }

  lemma CharIsPrintable(c: char, t: Text)
    requires Printable(t)
    ensures Printable(PrintChar(c, t))
  {
    var p := PrintChar(c, t);
    if p.head == BACKSLASH && p.tail.head == 'u' {
      var h := p.tail.tail;
      assert Printable(h.tail.tail.tail);
      assert Printable(h.tail.tail);
      assert Printable(h.tail);
    }
  }

  lemma {:induction false} NatIsPrintable(n: nat, t: Text)
    requires Printable(t)
    ensures Printable(PrintNat(n, t))
    decreases n
  {
    if n >= 10 { NatIsPrintable(n / 10, Cons(Digit(n % 10), t)); }
  }

  /** Printed JSON holds no raw control character, so no line break (section 7 of RFC 8259). */
  lemma {:induction false} PrintedIsPrintable(j: Json, t: Text)
    requires Printable(t)
    ensures Printable(Print(j, t))
  {
    match j
    case Null => assert Printable(Cons('u', Cons('l', Cons('l', t)))) by { assert Printable(Cons('l', Cons('l', t))); }
    case Num(n) => NatIsPrintable(if n < 0 then -n else n, t);
    case Str(s) => CharsArePrintable(s, t);
    case Arr(items) => if items.Item? { ItemsArePrintable(items, t); }
    case Obj(fields) => if fields.Field? { FieldsArePrintable(fields, t); }
  }

  lemma {:induction false} ItemsArePrintable(items: Items, t: Text)
    requires items.Item? && Printable(t)
    ensures Printable(PrintItems(items, t))
  {
    if items.rest.Item? {
      ItemsArePrintable(items.rest, t);
      PrintedIsPrintable(items.value, Cons(',', PrintItems(items.rest, t)));
    } else {
      PrintedIsPrintable(items.value, Cons(']', t));
    }
  }

  lemma {:induction false} FieldsArePrintable(fields: Fields, t: Text)
    requires fields.Field? && Printable(t)
    ensures Printable(PrintFields(fields, t))
  {
    var more := match fields.rest
                case NoFields => Cons('}', t)
                case Field(_, _, _) => Cons(',', PrintFields(fields.rest, t));
    if fields.rest.Field? {
      FieldsArePrintable(fields.rest, t);
    }
    PrintedIsPrintable(fields.value, more);
    CharsArePrintable(fields.name, Cons(':', Print(fields.value, more)));
  }

  /** The whole text is one value. */
  function ParseWhole(t: Text): Option<Json> {
    match ParseValue(t)
    case Good(j, End) => Some(j)
    case _ => None
  }

  lemma WholeParses(j: Json)
    ensures ParseWhole(Print(j, End)) == Some(j)
  {
    ValueParses(j, End);
  }

  /** No proper prefix of a printed object is a JSON text (section 4 of RFC 8259). */
  lemma PrefixDoesNotParse(j: Json, s: Text, t: Text)
    requires j.Obj? && Print(j, End) == Append(s, t) && t.Cons?
    ensures ParseWhole(s) == None
  {
    if s.Cons? && ParseValue(s).Good? && ParseValue(s).rest == End {
      ValueParses(j, End);
      ValueExtends(s, t);
    }
  }

  // ---------------------------------------------------------------- texts and strings

  function ToString(t: Text): string {
    match t
    case End => ""
    case Cons(c, t') => [c] + ToString(t')
  }

  function FromString(s: string): Text {
    if s == "" then End else Cons(s[0], FromString(s[1..]))
  }

  lemma {:induction false} FromStringConcat(a: string, b: string)
    ensures FromString(a + b) == Append(FromString(a), FromString(b))
  {
    if a == "" {
      assert a + b == b;
    } else {
      assert (a + b)[1..] == a[1..] + b;
      FromStringConcat(a[1..], b);
    }
  }

  lemma {:induction false} FromToString(t: Text)
    ensures FromString(ToString(t)) == t
  {
    if t.Cons? {
      FromToString(t.tail);
      assert ToString(t)[1..] == ToString(t.tail);
    }
  }

  lemma {:induction false} PrintableString(t: Text)
    requires Printable(t)
    ensures forall k :: 0 <= k < |ToString(t)| ==> ToString(t)[k] >= ' '
  {
    if t.Cons? {
      PrintableString(t.tail);
    }
  }
}
