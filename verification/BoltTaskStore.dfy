/** The task store on an embedded database: each call is one transaction on one bucket. */
module BoltTaskStores {
  import opened Core
  import opened Replay
  import opened Objects
  import opened Sorting
  import opened TaskStores

  /** What a lookup of an unknown id gives: a task with nothing in it, and no error. */
  const EmptyTask: Task := Task("", [], TaskOther(""), [], None, None)

  class BoltTaskStore {
    /** The bucket: id to encoded task. Encoding copies, so no object is shared with callers. */
    var bucket: Tasks

    constructor ()
      ensures bucket == map[]
    {
      bucket := map[];
    }

    ghost predicate Valid()
      reads this
    {
      forall id :: id in bucket ==> bucket[id].id == id
    }

    method CreateTask(task: TaskObject, live: bool, commits: bool) returns (err: Option<StoreError>)
      requires Valid()
      modifies this
      ensures Valid()
      ensures bucket == if err == None then old(bucket)[task.id := task.View()] else old(bucket)
      ensures !live ==> err == Some(Cancelled)
      ensures live && task.id in old(bucket) ==> err == Some(AlreadyExists)
      ensures live && task.id !in old(bucket) ==> err == if commits then None else Some(NotCommitted)
    {
      if !live {
        return Some(Cancelled);
      }
      var p := task.View();
      if task.id in bucket {
        return Some(AlreadyExists);
      }
      if !commits {
        return Some(NotCommitted);
      }
      bucket := bucket[task.id := p];
      return None;
    }

    method UpdateTask(task: TaskObject, live: bool, commits: bool) returns (err: Option<StoreError>)
      requires Valid()
      modifies this
      ensures Valid()
      ensures bucket == if err == None then old(bucket)[task.id := task.View()] else old(bucket)
      ensures !live ==> err == Some(Cancelled)
      ensures live && task.id !in old(bucket) ==> err == Some(NotFound)
      ensures live && task.id in old(bucket) ==> err == if commits then None else Some(NotCommitted)
    {
      if !live {
        return Some(Cancelled);
      }
      var p := task.View();
      if task.id !in bucket {
        return Some(NotFound);
      }
      if !commits {
        return Some(NotCommitted);
      }
      bucket := bucket[task.id := p];
      return None;
    }

    method GetTaskByID(id: string, live: bool) returns (err: Option<StoreError>, t: TaskObject)
      requires Valid()
      ensures t.Valid() && fresh(t.Footprint())
      ensures err == if live then None else Some(Cancelled)
      ensures live ==> t.View() == if id in bucket then bucket[id] else EmptyTask
    {
      var v := EmptyTask;
      if !live {
        t := FromValue(v);
        return Some(Cancelled), t;
      }
      if id in bucket {
        v := bucket[id];
      }
      t := FromValue(v);
      return None, t;
    }

    /** Copies of all tasks, sorted; m is the same by id. */
    method ListTasks(live: bool) returns (err: Option<StoreError>, ts: seq<TaskObject>, ghost m: TaskObjects)
      requires Valid()
      ensures err == if live then None else Some(Cancelled)
      ensures live ==>
                && Sorted(ts) && Lists(ts, m)
                && Separate(m) && fresh(ObjectsOf(m)) && ViewAll(m) == bucket
    {
      if !live {
        return Some(Cancelled), [], map[];
      }
      var res := ReadAllTasks();
      ts := SortTasks(res);
      err, m := None, res;
      assert ViewAll(m) == bucket by {
        assert forall id :: id in m ==> m[id].View() == bucket[id];
        EqualTasks(ViewAll(m), bucket);
      }
    }

    method ReadAllTasks() returns (res: TaskObjects)
      requires Valid()
      ensures Separate(res) && fresh(ObjectsOf(res)) && ViewAll(res) == bucket
    {
      res := map[];
      var left := bucket.Keys;
      while left != {}
        invariant left <= bucket.Keys
        invariant Separate(res) && fresh(ObjectsOf(res)) && ViewAll(res) == bucket - left
      {
        var id :| id in left;
        OneLess(bucket, left, id);
        res := AddDecoded(res, bucket[id]);
        left := left - {id};
      }
      NothingLess(bucket);
    }
  }
}
