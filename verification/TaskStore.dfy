/** What the two task stores have in common. */
module TaskStores {
  import opened Core
  import opened Recovery

  datatype StoreError =
    | NoLog | AlreadyExists | NotFound | LogAppend | LogFlush | Unrecoverable(why: RecoverError) | Cancelled | NotCommitted

  /** Whether the store stopped before it logged anything, for want of a task or for having it. */
  predicate Unlogged(err: Option<StoreError>) {
    err == Some(AlreadyExists) || err == Some(StoreError.NotFound)
  }
}
