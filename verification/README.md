# Device and task registries of the IoT device-management dashboard

The dashboard keeps its state in two in-memory stores.

- The **device store** holds an ordered list of devices. Each device has an
  id, a name, a status and its own ordered list of tasks. An append-only
  list of log entries sits beside it. Its actions add a device (id = last
  id + 1, or 1), remove a device by id, add or assign a task to a device,
  remove a task from a device by position, and append a log entry.
- The **task store** holds a flat list of standalone tasks. Its actions
  append a task and set the status of the first task with a given id.

Each store is a class whose fields are the store's lists (`seq` values that
each method reassigns):

- `devices.dfy`: module `Devices`, class `DeviceStore`.
- `tasks.dfy`: module `Tasks`, class `TaskStore`.

Every method's postcondition states the whole new state as a pure function
of the old one. Examples are `WithoutDevice`, `WithTaskAdded`,
`WithTaskRemoved` and `WithStatus`. The contracts of those functions, and
the lemmas about them, state what the stores promise:

- first-match lookup by id;
- order-preserving removal;
- "nothing else changes";
- the round trip from adding a task to removing it;
- idempotent status updates;
- what duplicate ids do.

Lookup (`find`/`findIndex`) is the recursive function `FindIndex` or
`FindTask`. Its contract says it returns the first match, or -1 when there
is none.

The device store assigns ids as "id of the last device + 1", not "maximum
id + 1", and it never checks that ids are unique. The model follows that
code. It also proves the invariant `OrderedIds`: the seed ids (1, 2, 3) are
strictly increasing, and every action keeps them so. That invariant is
`DeviceStore.Valid()`. Under it, two facts hold: "last + 1" equals
"maximum + 1" (`NextIdAboveAll`), and, since the ids strictly increase,
each id present occurs exactly once (`OrderedIdsUnique`). So `AddDevice`
never hands out an id already in use. Removed ids are still reused: remove the newest
device, add another, and the new one gets the old id
(`IdReusedAfterRemovingNewest`). Without the invariant, only the first of
two equal ids is removed (`DuplicateIdSurvivesRemoval`). The methods do not
require `Valid()`. They work on any list and ensure `old(Valid()) ==>
Valid()`.

`removeTask` tests whether `device.tasks[taskIndex]` is truthy. The model
assumes every task is a record (an object), and objects are always truthy.
Under that assumption the test is exactly `0 <= taskIndex < |tasks|`, which
is what `CanRemoveTask` states. What falsy task values would do is listed
under "Left out".

## Model

| member | source | states |
|---|---|---|
| `Devices.FindIndex` | src/stores/deviceStore.js:53 | returns -1 exactly when no device has the id; otherwise returns a position holding that id with no earlier position holding it (the first match `findIndex`/`find` select) |
| `Devices.NextId` | src/stores/deviceStore.js:45 | the id rule: the last device's id + 1, or 1 for an empty list; what it means in reachable states is proved by `NextIdAboveAll` and `IdReusedAfterRemovingNewest` |
| `Devices.NewDevice` | src/stores/deviceStore.js:44-49 | the record `addDevice` appends: id `NextId`, the given name, status "online", no tasks; its place in the list is stated by `DeviceStore.AddDevice` |
| `Devices.CanRemoveTask` | src/stores/deviceStore.js:70 | the success test of `removeTask`: a device with the id exists and the index is a position in its tasks; `DeviceStore.RemoveTask` returns exactly this |
| `Devices.WithoutDevice` | src/stores/deviceStore.js:52-58 | with no matching device the list is unchanged; otherwise it is one shorter, devices before the first match stay in place and those after it move down by one, in order |
| `Devices.WithTaskAdded` | src/stores/deviceStore.js:61-66 | length unchanged; with no match the list is unchanged; otherwise the first matching device keeps its id, name and status, and its tasks are the old tasks followed by `t`; every other device is unchanged |
| `Devices.WithTaskRemoved` | src/stores/deviceStore.js:68-75 | length unchanged; unless a device matches and the index is within its task list, nothing changes; otherwise that device keeps id, name and status, its tasks lose exactly position k with the rest in order, and all other devices are unchanged |
| `Devices.NextIdAboveAll` | src/stores/deviceStore.js:45 | with strictly increasing ids, the new id is above every id present and is one more than an id present (the maximum), and it is 1 for an empty list |
| `Devices.OrderedIdsUnique` | src/stores/deviceStore.js:52-55 | with strictly increasing ids, a present id occurs at exactly one position, the one lookup finds |
| `Devices.AddDeviceKeepsOrderedIds` | src/stores/deviceStore.js:43-51 | appending the new device keeps ids strictly increasing |
| `Devices.RemoveDeviceKeepsOrderedIds` | src/stores/deviceStore.js:52-58 | removing a device keeps ids strictly increasing |
| `Devices.TaskAddedKeepsIds` | src/stores/deviceStore.js:61-66 | adding a task leaves the same ids at the same positions |
| `Devices.TaskRemovedKeepsIds` | src/stores/deviceStore.js:68-75 | removing a task leaves the same ids at the same positions |
| `Devices.FindIndexSameIds` | src/stores/deviceStore.js:62 | two lists with the same ids at the same positions give the same lookup result |
| `Devices.RemovedIdIsGone` | src/stores/deviceStore.js:52-58 | with strictly increasing ids, no device with the removed id is left afterwards |
| `Devices.DuplicateIdSurvivesRemoval` | src/stores/deviceStore.js:53-55 | when two positions hold the same id, removal by that id takes out only the first match; the later device moves one position down and is still found |
| `Devices.IdReusedAfterRemovingNewest` | src/stores/deviceStore.js:45 | adding a device and then removing it by its id restores the list, and the next device added receives the same id again |
| `Devices.AddTaskThenRemoveTask` | src/stores/deviceStore.js:61-75 | when the device exists, removing the task at the old task count undoes adding a task |
| `Devices.DeviceStore.constructor` | src/stores/deviceStore.js:4-41 | the store starts with the three seed devices and no logs, and the seed satisfies the ids invariant |
| `Devices.DeviceStore.AddDevice` | src/stores/deviceStore.js:43-51 | devices become the old devices plus one device at the end, with id `NextId`, the given name, status "online" and no tasks; logs unchanged; invariant kept, and under it the new id is not already in use |
| `Devices.DeviceStore.RemoveDevice` | src/stores/deviceStore.js:52-59 | returns true exactly when some device has the id; devices become `WithoutDevice` of the old devices; logs unchanged; invariant kept |
| `Devices.DeviceStore.AddTask` | src/stores/deviceStore.js:61-66 | devices become `WithTaskAdded` of the old devices; logs unchanged; invariant kept |
| `Devices.DeviceStore.RemoveTask` | src/stores/deviceStore.js:68-75 | returns true exactly when the device exists and the index is a position in its tasks; devices become `WithTaskRemoved` of the old devices; logs unchanged; invariant kept |
| `Devices.DeviceStore.AssignTask` | src/stores/deviceStore.js:77-84 | devices become exactly what `AddTask` makes them; the warning is raised exactly when no device has the id; logs unchanged |
| `Devices.DeviceStore.AddLog` | src/stores/deviceStore.js:85-87 | logs gain the entry at the end; devices unchanged |
| `Tasks.FindTask` | src/stores/taskStore.js:12 | returns -1 exactly when no task has the id; otherwise returns the first position holding that id |
| `Tasks.WithStatus` | src/stores/taskStore.js:11-16 | length unchanged; with no match the list is unchanged; otherwise the first matching task has the new status and is otherwise the same record, and every other task, later ones with the same id included, is unchanged (positions are independent values; see "Left out" for one object added twice) |
| `Tasks.FindTaskSameIds` | src/stores/taskStore.js:12 | two lists with the same ids at the same positions give the same lookup result |
| `Tasks.WithStatusKeepsIds` | src/stores/taskStore.js:14 | a status update leaves the same ids at the same positions |
| `Tasks.UpdateStatusIdempotent` | src/stores/taskStore.js:11-16 | applying the same update twice gives the same list as applying it once |
| `Tasks.UpdatedStatusIsFound` | src/stores/taskStore.js:11-16 | after updating an id that is present, the task lookup finds for that id carries the new status |
| `Tasks.FindTaskAppend` | src/stores/taskStore.js:8-12 | appending a task does not move the first match of an id that was already present |
| `Tasks.AddedDuplicateIsShadowed` | src/stores/taskStore.js:8-15 | after adding a task whose id is already present, updating that id changes the older task and leaves the added one as it was (when the two are distinct objects; see "Left out") |
| `Tasks.TaskStore.constructor` | src/stores/taskStore.js:4-6 | the store starts with no tasks |
| `Tasks.TaskStore.AddTask` | src/stores/taskStore.js:8-10 | tasks become the old tasks with the new one at the end, with no id check |
| `Tasks.TaskStore.UpdateTaskStatus` | src/stores/taskStore.js:11-16 | tasks become `WithStatus` of the old tasks |

Ids are assigned as the last device's id + 1
(src/stores/deviceStore.js:45), not the maximum id + 1. `NextIdAboveAll`
proves the two coincide in every state reachable from the seed, where the
ids present are also unique, as long as ids stay below 2^53 (see "Left
out").

## Left out

- Router (src/router/index.js): a table of three paths to view components, handled by a library outside this model; it has no logic.
- Store wrapper and reactivity: the stores' singleton registration and re-rendering are left out; each store is a plain class.
- Object aliasing: the source pushes and finds the caller's own objects, so a caller holding one sees later in-place changes (for example a status update). The model stores records as values, so only the store's own lists are modelled.
- Tasks.WithStatus: the same task object added twice (src/stores/taskStore.js:9) is one record at two positions, so the status write at src/stores/taskStore.js:14 shows at both. The model treats the two positions as independent values and changes only the first; its "every other task is unchanged" and `Tasks.AddedDuplicateIsShadowed`'s "the added one is left as it was" hold for distinct objects only.
- Falsy tasks: task values are assumed to be records (objects). The source accepts any value in `addTask`/`assignTask` (src/stores/deviceStore.js:61-64, 77-80). A falsy value (null, undefined, 0, "") at position k makes `removeTask(id, k)` return false and remove nothing (src/stores/deviceStore.js:70), where `CanRemoveTask` holds. A null element in the task store makes the lookup at src/stores/taskStore.js:12 throw a TypeError on `task.id`. Neither is modelled.
- Devices.DeviceStore.AssignTask: the console warning is modelled as the returned flag `warned`. Its text and the console itself are output and are left out.
- Log entries: the source accepts any value. The model uses strings, which nothing reads back.
- Devices.NextIdAboveAll: ids are JavaScript numbers, and `last.id + 1` (src/stores/deviceStore.js:45) is exact only below 2^53. Beyond that the new id equals the last one, so ids stop increasing. The model's `int` is unbounded. `OrderedIds`, `NextIdAboveAll` and the other id lemmas describe the source only while ids stay below 2^53; reaching that bound from the seed takes about 9 x 10^15 `addDevice` calls.
- Loose typing: ids and task indices are integers. The source compares with `===`, so a string id from a route never matches a numeric id, and a non-integer or negative index reads `undefined`. Neither case is modelled beyond "no match" and "out of range".
- Seed data: the constructor starts from the demonstration devices (src/stores/deviceStore.js:5-39). The session method `SeedSession` uses it as one concrete starting state.
