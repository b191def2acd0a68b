/** The order in which lists of tasks are handed out. */
module Sorting {
  import opened Core
  import opened Objects

  /** Byte by byte, as Go compares strings. */
  predicate TextLess(a: string, b: string) {
    if b == "" then false
    else if a == "" then true
    else a[0] < b[0] || (a[0] == b[0] && TextLess(a[1..], b[1..]))
  }

  /** The comparator: by creation time, tasks without one last and by id among themselves. */
  predicate Less(a: TaskObject, b: TaskObject) {
    match (a.createdAt, b.createdAt)
    case (None, None) => TextLess(a.id, b.id)
    case (None, Some(_)) => false
    case (Some(_), None) => true
    case (Some(s), Some(t)) => s < t
  }

  lemma {:induction false} TextLessIsOrder(a: string, b: string, c: string)
    ensures TextLess(a, b) ==> !TextLess(b, a)
    ensures !TextLess(a, b) && !TextLess(b, c) ==> !TextLess(a, c)
    decreases |a|
  {
    if a != "" && b != "" && c != "" {
      TextLessIsOrder(a[1..], b[1..], c[1..]);
    } else if a != "" && b != "" {
      TextLessIsOrder(a[1..], b[1..], "");
    }
  }

  /** Less is a strict weak order. */
  lemma LessIsOrder(a: TaskObject, b: TaskObject, c: TaskObject)
    ensures Less(a, b) ==> !Less(b, a)
    ensures !Less(a, b) && !Less(b, c) ==> !Less(a, c)
  {
    TextLessIsOrder(a.id, b.id, c.id);
  }

  predicate Sorted(s: seq<TaskObject>) {
    forall i, j :: 0 <= i < j < |s| ==> !Less(s[j], s[i])
  }

  /** The texts agree up to k, and there a ends or has the smaller byte. */
  predicate FirstDifference(a: string, b: string, k: nat) {
    k <= |a| && k < |b| && a[..k] == b[..k] && (k == |a| || a[k] < b[k])
  }

  lemma {:induction false} TextLessIff(a: string, b: string)
    ensures TextLess(a, b) <==> exists k: nat :: FirstDifference(a, b, k)
    decreases |a|
  {
    if a == "" && b != "" {
      assert FirstDifference(a, b, 0);
    } else if a != "" && b != "" {
      TextLessIff(a[1..], b[1..]);
      if a[0] < b[0] {
        assert FirstDifference(a, b, 0);
      } else if TextLess(a, b) {
        var k: nat :| FirstDifference(a[1..], b[1..], k);
        assert a[..k + 1] == [a[0]] + a[1..][..k] && b[..k + 1] == [b[0]] + b[1..][..k];
        assert FirstDifference(a, b, k + 1);
      }
      if k: nat :| FirstDifference(a, b, k) {
        if k > 0 {
          assert a[..k][0] == b[..k][0];
          assert a[..k][1..] == a[1..][..k - 1] && b[..k][1..] == b[1..][..k - 1];
          assert FirstDifference(a[1..], b[1..], k - 1);
        }
      }
    }
  }

  /** A list is sorted exactly if older tasks come before newer ones, tasks without a creation time after all
      others, and these so that no later id is smaller. */
  lemma SortedIff(s: seq<TaskObject>)
    ensures
      Sorted(s)
      <==>
        forall i, j :: 0 <= i < j < |s| ==>
          var (a, b) := (s[i], s[j]);
          && (a.createdAt == None ==> b.createdAt == None && !exists k: nat :: FirstDifference(b.id, a.id, k))
          && (a.createdAt.Some? && b.createdAt.Some? ==> a.createdAt.value <= b.createdAt.value)
  {
    forall i, j | 0 <= i < j < |s|
      ensures TextLess(s[j].id, s[i].id) <==> exists k: nat :: FirstDifference(s[j].id, s[i].id, k)
    {
      TextLessIff(s[j].id, s[i].id);
    }
  }

  function Elements(s: seq<TaskObject>): set<TaskObject> {
    set t | t in s
  }

  /** s lists exactly the tasks of m, each once. */
  predicate Lists(s: seq<TaskObject>, m: TaskObjects) {
    |s| == |m| && Elements(s) == m.Values
  }

  /** Puts a task behind the last one it is not less than. */
  method Insert(s: seq<TaskObject>, t: TaskObject) returns (r: seq<TaskObject>, ghost k: nat)
    requires Sorted(s)
    ensures k <= |s| && r == s[..k] + [t] + s[k..] && Sorted(r)
  {
    var i := |s|;
    while i > 0 && Less(t, s[i - 1])
      invariant 0 <= i <= |s| && forall j :: i <= j < |s| ==> Less(t, s[j])
    {
      i := i - 1;
    }
    k := i;
    r := s[..i] + [t] + s[i..];
    forall j | 0 <= j < i ensures !Less(t, s[j]) {
      LessIsOrder(t, s[i - 1], s[j]);
    }
    forall j | i <= j < |s| ensures !Less(s[j], t) {
      LessIsOrder(t, s[j], t);
    }
  }

  lemma OneMoreElement(s: seq<TaskObject>, t: TaskObject, k: nat)
    requires k <= |s|
    ensures
      var r := s[..k] + [t] + s[k..];
      Elements(r) == Elements(s) + {t} && |r| == |s| + 1
  {
    assert s == s[..k] + s[k..];
  }

  lemma OneMoreKey(m: TaskObjects, t: TaskObject)
    requires t.id !in m
    ensures |m[t.id := t]| == |m| + 1
  {
    var n := m[t.id := t];
    assert n.Keys == m.Keys + {t.id};
    assert |n.Keys| == |m.Keys| + 1;
  }

  lemma ValueStays(m: TaskObjects, t: TaskObject, x: TaskObject)
    requires t.id !in m && x in m.Values
    ensures x in m[t.id := t].Values
  {
    var id :| id in m && m[id] == x;
    assert m[t.id := t][id] == x;
  }

  lemma OneMoreValue(m: TaskObjects, t: TaskObject)
    requires t.id !in m
    ensures m[t.id := t].Values == m.Values + {t}
  {
    forall x | x in m.Values ensures x in m[t.id := t].Values {
      ValueStays(m, t, x);
    }
    assert m[t.id := t][t.id] == t;
  }

  lemma InsertLists(s: seq<TaskObject>, m: TaskObjects, t: TaskObject, k: nat, r: seq<TaskObject>)
    requires Lists(s, m) && k <= |s| && t.id !in m && r == s[..k] + [t] + s[k..]
    ensures Lists(r, m[t.id := t])
  {
    OneMoreKey(m, t);
    OneMoreValue(m, t);
    OneMoreElement(s, t, k);
  }

  lemma OneFewer(m: TaskObjects, left: set<string>, id: string)
    requires id in left && left <= m.Keys
    ensures (m - left)[id := m[id]] == m - (left - {id})
  {
  }

  /** The tasks of a map as a sorted list. */
  method SortTasks(m: TaskObjects) returns (s: seq<TaskObject>)
    requires forall id :: id in m ==> m[id].id == id
    ensures Sorted(s) && Lists(s, m)
  {
    s := [];
    var left := m.Keys;
    ghost var seen: TaskObjects := map[];
    while left != {}
      invariant left <= m.Keys && seen == m - left
      invariant Sorted(s) && Lists(s, seen)
    {
      var id :| id in left;
      ghost var k;
      ghost var was := s;
      s, k := Insert(s, m[id]);
      InsertLists(was, seen, m[id], k, s);
      OneFewer(m, left, id);
      seen := seen[id := m[id]];
      left := left - {id};
    }
    assert m - {} == m;
  }
}
