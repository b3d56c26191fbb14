/** The device registry: an ordered list of devices, each owning an ordered
    list of tasks, and an append-only list of log entries beside it.

    The store's actions mutate its lists in place; here the store is a class
    whose two fields are sequences that each action reassigns. What each
    action does to the lists is given by a pure function of the old list, and
    the lemmas below state what the registry promises about those functions:
    first-match lookup by id, order-preserving removal, the id policy
    `last id + 1`, and the invariant that keeps ids strictly increasing. */
module Devices {

  /** A task attached to a device. Its fields are carried along and never
      interpreted by the registry; a task has no id and is addressed by its
      position in its device's list. */
  datatype DeviceTask = DeviceTask(
    name: string,
    tasktype: string,
    status: string,
    startDate: string,
    endDate: string,
    description: string)

  datatype Device = Device(id: int, name: string, status: string, tasks: seq<DeviceTask>)

  /** Log entries are opaque: nothing in the registry reads them back. */
  type LogEntry = string

  const Online: string := "online"
  const Offline: string := "offline"

  // ---------------------------------------------------------------------------
  // Lookup by id

  predicate HasDevice(ds: seq<Device>, id: int) {
    exists j :: 0 <= j < |ds| && ds[j].id == id
  }

  /** The position of the first device whose id is `id`, or -1 when there is
      none: what both `findIndex` and `find` select. */
  function FindIndex(ds: seq<Device>, id: int): (r: int)
    ensures -1 <= r < |ds|
    ensures r == -1 <==> !HasDevice(ds, id)
    ensures r != -1 ==> ds[r].id == id && forall j :: 0 <= j < r ==> ds[j].id != id
  {
    if |ds| == 0 then -1
    else if ds[0].id == id then 0
    else
      var k := FindIndex(ds[1..], id);
      assert forall j :: 1 <= j < |ds| ==> ds[j] == ds[1..][j - 1];
      if k == -1 then -1 else k + 1
  }

  // ---------------------------------------------------------------------------
  // What each action does to the device list

  /** The id a newly added device receives: one more than the id of the LAST
      device in the list, or 1 for an empty list. */
  function NextId(ds: seq<Device>): int {
    if |ds| > 0 then ds[|ds| - 1].id + 1 else 1
  }

  /** The record `addDevice(name)` appends. */
  function NewDevice(ds: seq<Device>, name: string): Device {
    Device(NextId(ds), name, Online, [])
  }

  /** The list after `removeDevice(id)`: the first device with that id is
      taken out and the others keep their order; no match, no change. */
  function WithoutDevice(ds: seq<Device>, id: int): (r: seq<Device>)
    ensures !HasDevice(ds, id) ==> r == ds
    ensures HasDevice(ds, id) ==>
      var i := FindIndex(ds, id);
      && |r| == |ds| - 1
      && (forall j :: 0 <= j < i ==> r[j] == ds[j])
      && (forall j :: i <= j < |r| ==> r[j] == ds[j + 1])
  {
    var i := FindIndex(ds, id);
    if i == -1 then ds else ds[..i] + ds[i + 1..]
  }

  /** The list after `addTask(id, t)` (and after `assignTask(id, t)`): `t`
      goes to the end of the task list of the first device with that id;
      every other device, and every other field of that device, stays. */
  function WithTaskAdded(ds: seq<Device>, id: int, t: DeviceTask): (r: seq<Device>)
    ensures |r| == |ds|
    ensures !HasDevice(ds, id) ==> r == ds
    ensures HasDevice(ds, id) ==>
      var i := FindIndex(ds, id);
      && r[i].id == ds[i].id && r[i].name == ds[i].name && r[i].status == ds[i].status
      && |r[i].tasks| == |ds[i].tasks| + 1
      && r[i].tasks[..|ds[i].tasks|] == ds[i].tasks
      && r[i].tasks[|ds[i].tasks|] == t
      && (forall j :: 0 <= j < |ds| && j != i ==> r[j] == ds[j])
  {
    var i := FindIndex(ds, id);
    if i == -1 then ds
    else ds[i := ds[i].(tasks := ds[i].tasks + [t])]
  }

  /** Whether `removeTask(id, k)` succeeds: a device with that id exists and
      `k` is a position in its task list. Tasks are taken to be records,
      which are never falsy, so under that assumption the truthiness test of
      `tasks[k]` in the source is exactly this bounds test. */
  predicate CanRemoveTask(ds: seq<Device>, id: int, k: int) {
    var i := FindIndex(ds, id);
    i != -1 && 0 <= k < |ds[i].tasks|
  }

  /** The list after `removeTask(id, k)`: position `k` is taken out of that
      device's tasks, the rest keep their order; otherwise no change. */
  function WithTaskRemoved(ds: seq<Device>, id: int, k: int): (r: seq<Device>)
    ensures |r| == |ds|
    ensures !CanRemoveTask(ds, id, k) ==> r == ds
    ensures CanRemoveTask(ds, id, k) ==>
      var i := FindIndex(ds, id);
      && r[i].id == ds[i].id && r[i].name == ds[i].name && r[i].status == ds[i].status
      && |r[i].tasks| == |ds[i].tasks| - 1
      && (forall j :: 0 <= j < k ==> r[i].tasks[j] == ds[i].tasks[j])
      && (forall j :: k <= j < |r[i].tasks| ==> r[i].tasks[j] == ds[i].tasks[j + 1])
      && (forall j :: 0 <= j < |ds| && j != i ==> r[j] == ds[j])
  {
    if !CanRemoveTask(ds, id, k) then ds
    else
      var i := FindIndex(ds, id);
      var ts := ds[i].tasks;
      ds[i := ds[i].(tasks := ts[..k] + ts[k + 1..])]
  }

  // ---------------------------------------------------------------------------
  // Ids

  /** Ids strictly increase along the list. The seed state has it, and every
      action keeps it (the lemmas below), so it holds in every state the
      registry can reach while ids are exact integers (in the source, below
      2^53). */
  predicate OrderedIds(ds: seq<Device>) {
    forall i, j :: 0 <= i < j < |ds| ==> ds[i].id < ds[j].id
  }

  /** Two lists with the same ids at the same positions. */
  predicate SameIds(ds: seq<Device>, es: seq<Device>) {
    |ds| == |es| && forall j :: 0 <= j < |ds| ==> ds[j].id == es[j].id
  }

  /** With ordered ids, `last id + 1` is `maximum id + 1`: the new id is
      above every id present, and 1 when the list is empty. */
  lemma NextIdAboveAll(ds: seq<Device>)
    requires OrderedIds(ds)
    ensures forall j :: 0 <= j < |ds| ==> ds[j].id < NextId(ds)
    ensures |ds| > 0 ==> exists j :: 0 <= j < |ds| && ds[j].id == NextId(ds) - 1
    ensures |ds| == 0 ==> NextId(ds) == 1
  {
    if |ds| > 0 {
      assert ds[|ds| - 1].id == NextId(ds) - 1;
    }
  }

  /** With ordered ids, a present id occurs exactly once, at the found position. */
  lemma OrderedIdsUnique(ds: seq<Device>, id: int)
    requires OrderedIds(ds) && HasDevice(ds, id)
    ensures forall j :: 0 <= j < |ds| && ds[j].id == id ==> j == FindIndex(ds, id)
  {
  }

  lemma AddDeviceKeepsOrderedIds(ds: seq<Device>, name: string)
    requires OrderedIds(ds)
    ensures OrderedIds(ds + [NewDevice(ds, name)])
  {
    NextIdAboveAll(ds);
  }

  lemma RemoveDeviceKeepsOrderedIds(ds: seq<Device>, id: int)
    requires OrderedIds(ds)
    ensures OrderedIds(WithoutDevice(ds, id))
  {
    var r := WithoutDevice(ds, id);
    if HasDevice(ds, id) {
      var i := FindIndex(ds, id);
      forall a, b | 0 <= a < b < |r| ensures r[a].id < r[b].id {
        var a' := if a < i then a else a + 1;
        var b' := if b < i then b else b + 1;
        assert r[a] == ds[a'] && r[b] == ds[b'];
      }
    }
  }

  /** Adding a task never changes which ids sit where. */
  lemma TaskAddedKeepsIds(ds: seq<Device>, id: int, t: DeviceTask)
    ensures SameIds(ds, WithTaskAdded(ds, id, t))
  {
  }

  /** Removing a task never changes which ids sit where. */
  lemma TaskRemovedKeepsIds(ds: seq<Device>, id: int, k: int)
    ensures SameIds(ds, WithTaskRemoved(ds, id, k))
  {
  }

  lemma SameIdsKeepOrder(ds: seq<Device>, es: seq<Device>)
    requires SameIds(ds, es) && OrderedIds(ds)
    ensures OrderedIds(es)
  {
  }

  /** Lookup by id depends on the ids alone, so task actions leave every
      lookup where it was. */
  lemma {:induction false} FindIndexSameIds(ds: seq<Device>, es: seq<Device>, id: int)
    requires SameIds(ds, es)
    ensures FindIndex(ds, id) == FindIndex(es, id)
  {
    if |ds| > 0 && ds[0].id != id {
      FindIndexSameIds(ds[1..], es[1..], id);
    }
  }

  /** With ordered ids, the id removed is gone afterwards: removal by id
      succeeds at most once. */
  lemma RemovedIdIsGone(ds: seq<Device>, id: int)
    requires OrderedIds(ds)
    ensures !HasDevice(WithoutDevice(ds, id), id)
  {
    var r := WithoutDevice(ds, id);
    if HasDevice(ds, id) {
      var i := FindIndex(ds, id);
      forall j | 0 <= j < |r| ensures r[j].id != id {
        if j < i { assert r[j] == ds[j]; } else { assert r[j] == ds[j + 1]; }
      }
    }
  }

  /** Without ordered ids only the first match is removed: any later device
      with the same id survives, one position down, and is still found. */
  lemma DuplicateIdSurvivesRemoval(ds: seq<Device>, i: int, j: int)
    requires 0 <= i < j < |ds| && ds[i].id == ds[j].id
    ensures var r := WithoutDevice(ds, ds[i].id);
      |r| == |ds| - 1 && r[j - 1] == ds[j] && HasDevice(r, ds[i].id)
  {
    assert WithoutDevice(ds, ds[i].id)[j - 1] == ds[j];
  }

  /** Ids are reused: the newest device, once removed, leaves its id to the
      next device added. */
  lemma IdReusedAfterRemovingNewest(ds: seq<Device>, first: string, second: string)
    requires OrderedIds(ds)
    ensures var k := NextId(ds);
      var added := ds + [NewDevice(ds, first)];
      && WithoutDevice(added, k) == ds
      && NewDevice(WithoutDevice(added, k), second).id == k
  {
    var k := NextId(ds);
    var added := ds + [NewDevice(ds, first)];
    NextIdAboveAll(ds);
    assert added[|ds|].id == k;
    assert FindIndex(added, k) == |ds|;
    assert added[..|ds|] == ds;
  }

  /** Removing the task just added restores the list: `removeTask` at the old
      length undoes `addTask`. */
  lemma AddTaskThenRemoveTask(ds: seq<Device>, id: int, t: DeviceTask)
    requires HasDevice(ds, id)
    ensures var i := FindIndex(ds, id);
      WithTaskRemoved(WithTaskAdded(ds, id, t), id, |ds[i].tasks|) == ds
  {
    var i := FindIndex(ds, id);
    var added := WithTaskAdded(ds, id, t);
    FindIndexSameIds(ds, added, id);
    var n := |ds[i].tasks|;
    assert CanRemoveTask(added, id, n);
    var r := WithTaskRemoved(added, id, n);
    assert r[i].tasks == ds[i].tasks;
    assert r[i] == ds[i];
  }

  // ---------------------------------------------------------------------------
  // The store

  /** The demonstration data the store starts with. */
  function Seed(): seq<Device> {
    [ Device(1, "Factory's Smart Sensor", Online, [
        DeviceTask("Collect-temperature", "Collect-data", "in-progress",
                   "2024-11-30T10:27", "2024-11-30T13:27",
                   "Collect temperature data from the device at regular intervals"),
        DeviceTask("Collect-light", "Collect-data", "in-progress",
                   "2024-11-30T10:27", "2024-11-30T13:27",
                   "Collect light data from the device at regular intervals"),
        DeviceTask("Collect-co2", "Collect-data", "in-progress",
                   "2024-11-30T10:27", "2024-11-30T13:27",
                   "Collect co2 data from the device at regular intervals")]),
      Device(2, "Camera Module", Offline, []),
      Device(3, "Light Controller", Online, []) ]
  }

  class DeviceStore {
    var devices: seq<Device>
    var logs: seq<LogEntry>

    /** The invariant every reachable state has: ids strictly increase. */
    ghost predicate Valid()
      reads this
    {
      OrderedIds(devices)
    }

    constructor ()
      ensures devices == Seed() && logs == []
      ensures Valid()
    {
      devices := Seed();
      logs := [];
    }

    method AddDevice(name: string)
      modifies this
      ensures devices == old(devices) + [NewDevice(old(devices), name)]
      ensures logs == old(logs)
      ensures old(Valid()) ==> Valid()
      ensures old(Valid()) ==> !HasDevice(old(devices), devices[|devices| - 1].id)
    {
      if OrderedIds(devices) {
        AddDeviceKeepsOrderedIds(devices, name);
        NextIdAboveAll(devices);
      }
      devices := devices + [NewDevice(devices, name)];
    }

    method RemoveDevice(id: int) returns (removed: bool)
      modifies this
      ensures removed == HasDevice(old(devices), id)
      ensures devices == WithoutDevice(old(devices), id)
      ensures logs == old(logs)
      ensures old(Valid()) ==> Valid()
    {
      if OrderedIds(devices) {
        RemoveDeviceKeepsOrderedIds(devices, id);
      }
      var index := FindIndex(devices, id);
      if index != -1 {
        devices := devices[..index] + devices[index + 1..];
        return true;
      }
      return false;
    }

    method AddTask(id: int, task: DeviceTask)
      modifies this
      ensures devices == WithTaskAdded(old(devices), id, task)
      ensures logs == old(logs)
      ensures old(Valid()) ==> Valid()
    {
      TaskAddedKeepsIds(devices, id, task);
      if OrderedIds(devices) {
        SameIdsKeepOrder(devices, WithTaskAdded(devices, id, task));
      }
      var index := FindIndex(devices, id);
      if index != -1 {
        var device := devices[index];
        devices := devices[index := device.(tasks := device.tasks + [task])];
      }
    }

    method RemoveTask(id: int, taskIndex: int) returns (removed: bool)
      modifies this
      ensures removed == CanRemoveTask(old(devices), id, taskIndex)
      ensures devices == WithTaskRemoved(old(devices), id, taskIndex)
      ensures logs == old(logs)
      ensures old(Valid()) ==> Valid()
    {
      TaskRemovedKeepsIds(devices, id, taskIndex);
      if OrderedIds(devices) {
        SameIdsKeepOrder(devices, WithTaskRemoved(devices, id, taskIndex));
      }
      var index := FindIndex(devices, id);
      if index != -1 && 0 <= taskIndex < |devices[index].tasks| {
        var device := devices[index];
        var ts := device.tasks;
        devices := devices[index := device.(tasks := ts[..taskIndex] + ts[taskIndex + 1..])];
        return true;
      }
      return false;
    }

    /** Same change to the device list as `AddTask`; a miss is reported as
        a warning instead of passing silently. */
    method AssignTask(id: int, task: DeviceTask) returns (warned: bool)
      modifies this
      ensures warned == !HasDevice(old(devices), id)
      ensures devices == WithTaskAdded(old(devices), id, task)
      ensures logs == old(logs)
      ensures old(Valid()) ==> Valid()
    {
      TaskAddedKeepsIds(devices, id, task);
      if OrderedIds(devices) {
        SameIdsKeepOrder(devices, WithTaskAdded(devices, id, task));
      }
      var index := FindIndex(devices, id);
      if index != -1 {
        var device := devices[index];
        devices := devices[index := device.(tasks := device.tasks + [task])];
        warned := false;
      } else {
        warned := true;
      }
    }

    method AddLog(entry: LogEntry)
      modifies this
      ensures logs == old(logs) + [entry]
      ensures devices == old(devices)
    {
      logs := logs + [entry];
    }
  }

  /** A session on the seeded store: the first id-3 device goes, and the
      next device added takes id 3 again. */
  method SeedSession() {
    var store := new DeviceStore();
    ghost var first := store.devices[0];
    assert store.devices[2].id == 3;
    var removed := store.RemoveDevice(3);
    assert removed;
    store.AddDevice("Door Lock");
    assert store.devices[|store.devices| - 1].id == 3;
    removed := store.RemoveDevice(99);
    assert !removed;
    var task := DeviceTask("Snapshot", "Capture", "pending", "", "", "");
    var warned := store.AssignTask(99, task);
    assert warned;
    assert store.devices[0] == first && |first.tasks| == 3;
    assert FindIndex(store.devices, 1) == 0;
    removed := store.RemoveTask(1, 3);
    assert !removed;
    removed := store.RemoveTask(1, 0);
    assert removed;
  }
}
