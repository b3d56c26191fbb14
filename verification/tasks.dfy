/** The task registry: a flat, ordered list of standalone tasks, unrelated to
    the tasks a device owns. Tasks are appended as given, with no check that
    their ids are distinct, and a status update goes to the first task whose
    id matches. */
module Tasks {

  /** A standalone task. Only `id` (for lookup) and `status` (for updates)
      are used by the registry; the other fields are carried along. */
  datatype Task = Task(
    id: int,
    name: string,
    tasktype: string,
    status: string,
    startDate: string,
    endDate: string,
    description: string)

  predicate HasTask(ts: seq<Task>, id: int) {
    exists j :: 0 <= j < |ts| && ts[j].id == id
  }

  /** The position of the first task whose id is `id`, or -1 when there is
      none: the element `find` selects. */
  function FindTask(ts: seq<Task>, id: int): (r: int)
    ensures -1 <= r < |ts|
    ensures r == -1 <==> !HasTask(ts, id)
    ensures r != -1 ==> ts[r].id == id && forall j :: 0 <= j < r ==> ts[j].id != id
  {
    if |ts| == 0 then -1
    else if ts[0].id == id then 0
    else
      var k := FindTask(ts[1..], id);
      assert forall j :: 1 <= j < |ts| ==> ts[j] == ts[1..][j - 1];
      if k == -1 then -1 else k + 1
  }

  /** The list after `updateTaskStatus(id, s)`: the first task with that id
      has status `s` and is otherwise the same record; every other task,
      later ones with the same id included, is untouched; no match, no
      change. */
  function WithStatus(ts: seq<Task>, id: int, s: string): (r: seq<Task>)
    ensures |r| == |ts|
    ensures !HasTask(ts, id) ==> r == ts
    ensures HasTask(ts, id) ==>
      var i := FindTask(ts, id);
      && r[i].status == s
      && r[i].(status := ts[i].status) == ts[i]
      && (forall j :: 0 <= j < |ts| && j != i ==> r[j] == ts[j])
  {
    var i := FindTask(ts, id);
    if i == -1 then ts else ts[i := ts[i].(status := s)]
  }

  /** Two lists with the same ids at the same positions. */
  predicate SameIds(ts: seq<Task>, us: seq<Task>) {
    |ts| == |us| && forall j :: 0 <= j < |ts| ==> ts[j].id == us[j].id
  }

  /** Lookup by id depends on the ids alone. */
  lemma {:induction false} FindTaskSameIds(ts: seq<Task>, us: seq<Task>, id: int)
    requires SameIds(ts, us)
    ensures FindTask(ts, id) == FindTask(us, id)
  {
    if |ts| > 0 && ts[0].id != id {
      FindTaskSameIds(ts[1..], us[1..], id);
    }
  }

  /** A status update never moves or changes ids. */
  lemma WithStatusKeepsIds(ts: seq<Task>, id: int, s: string)
    ensures SameIds(ts, WithStatus(ts, id, s))
  {
  }

  /** Updating twice with the same arguments is updating once. */
  lemma UpdateStatusIdempotent(ts: seq<Task>, id: int, s: string)
    ensures WithStatus(WithStatus(ts, id, s), id, s) == WithStatus(ts, id, s)
  {
    var once := WithStatus(ts, id, s);
    WithStatusKeepsIds(ts, id, s);
    FindTaskSameIds(ts, once, id);
  }

  /** After an update the task a lookup finds carries the new status. */
  lemma UpdatedStatusIsFound(ts: seq<Task>, id: int, s: string)
    requires HasTask(ts, id)
    ensures var r := WithStatus(ts, id, s);
      HasTask(r, id) && r[FindTask(r, id)].status == s
  {
    var r := WithStatus(ts, id, s);
    WithStatusKeepsIds(ts, id, s);
    FindTaskSameIds(ts, r, id);
  }

  /** Appending keeps every earlier first match where it was. */
  lemma {:induction false} FindTaskAppend(ts: seq<Task>, t: Task, id: int)
    requires HasTask(ts, id)
    ensures FindTask(ts + [t], id) == FindTask(ts, id)
  {
    if ts[0].id != id {
      assert (ts + [t])[1..] == ts[1..] + [t];
      assert HasTask(ts[1..], id) by {
        var j := FindTask(ts, id);
        assert ts[1..][j - 1].id == id;
      }
      FindTaskAppend(ts[1..], t, id);
    }
  }

  /** `addTask` does not check ids: a task added with an id already present
      is shadowed, and a status update for that id goes to the older task
      and leaves the new one as it was. */
  lemma AddedDuplicateIsShadowed(ts: seq<Task>, t: Task, s: string)
    requires HasTask(ts, t.id)
    ensures WithStatus(ts + [t], t.id, s) == WithStatus(ts, t.id, s) + [t]
  {
    FindTaskAppend(ts, t, t.id);
  }

  class TaskStore {
    var tasks: seq<Task>

    constructor ()
      ensures tasks == []
    {
      tasks := [];
    }

    method AddTask(task: Task)
      modifies this
      ensures tasks == old(tasks) + [task]
    {
      tasks := tasks + [task];
    }

    method UpdateTaskStatus(id: int, status: string)
      modifies this
      ensures tasks == WithStatus(old(tasks), id, status)
    {
      var index := FindTask(tasks, id);
      if index != -1 {
        tasks := tasks[index := tasks[index].(status := status)];
      }
    }
  }

  /** A session with two tasks sharing an id: the update reaches only the
      first of them. */
  method DuplicateSession() {
    var store := new TaskStore();
    var a := Task(7, "Calibrate", "Maintenance", "pending", "", "", "");
    var b := Task(7, "Reboot", "Maintenance", "pending", "", "", "");
    store.AddTask(a);
    store.AddTask(b);
    store.UpdateTaskStatus(7, "done");
    assert store.tasks[0].status == "done";
    assert store.tasks[1] == b;
    store.UpdateTaskStatus(8, "done");
    assert store.tasks == [a.(status := "done"), b];
  }
}
