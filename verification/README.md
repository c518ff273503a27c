# Task store model

A Dafny model of the task store of a small personal task tracker. The store
(`TaskService`) keeps an in-memory list of task records. It loads the list once
from a key-value store and writes the whole list back after every change. It
answers lookups by id, by UTC day and by a seven-day window. It schedules a
reminder notification 30 minutes before a task is due, and cancels it when the
task's reminder fields change or the task is deleted.

Modules:

- `Tasks` (`tasks.dfy`): the `Task` record and `CreateNewTask` (src/models/Task.ts).
  A task id is the decimal text of the clock reading at creation. `Decimal` and
  `DecimalValue` are proved to round-trip, so two ids collide exactly when the
  clock readings are equal.
- `Platform` (`platform.dfy`): the two device services the store calls, reduced
  to their state. `Preferences` is a map from key to stored value. A stored value
  is the task list it encodes, or `Malformed` for data that cannot be read back.
  `LocalNotifications` is a map from numeric id to pending notification.
- `TaskLists` (`task_lists.dfy`): the pure `find` / `findIndex` / `filter`
  expressions of the store, as functions over `seq<Task>`, with their lemmas.
- `Services` (`task_service.dfy`): the class `TaskService`. Its fields are `tasks`
  and `initialized`, plus the two device services. It has one method per
  operation, and each public method runs `Init` first. Contracts are stated
  against the ghost `Current()`: the list an operation works on once `Init` has
  run.

Timestamps are integer milliseconds. The UTC day of `t` is `t / 86400000`
(Dafny's division floors for a positive divisor). The weekly window is
`[start, start + 6 * 86400000]`, both ends included. A reminder fires at
`due - 30 * 60000` and is scheduled only if that instant is strictly after `now`.
The clock is a parameter `now`. It also serves as the notification id, as
`Date.now()` does in the source.

Behaviours of the code that the model keeps as they are:

- `AddTask` stores the list before it schedules the reminder. The stored copy of
  the new task therefore has no notification id, while the in-memory task and the
  returned task have one. `AddTask` ensures `Mirrored() <==> t.notificationId.None?`.
- `UpdateTask` never clears `notificationId`. When the reminder is switched off,
  the old notification is cancelled, but the task is stored with whatever id the
  update carried.
- `DeleteTask` cancels only the first match's notification. It removes every
  task with the id, and it stores the list even when nothing matched.
- Ids are not unique by construction. Two tasks added in the same millisecond
  share an id (`CreatedIdsCollideIffSameClock`). Lookups then find the older one
  (`FindAfterAppend`).

Further behaviours of the code:

- The weekly window ends at `start + 6 days` at the start's own time of day
  (src/services/TaskService.ts:89-94). So a week starting at midnight misses
  every task on its last day after 00:00:00.000 (`WeeklyExcludesRestOfLastDay`).
- The code keeps ids unique only through the clock. It can also keep a stale
  `notificationId` (see `UpdateTask` above).
- `getAllTasks` copies only the array (src/services/TaskService.ts:60), and
  `getTaskById` returns the stored object itself (src/services/TaskService.ts:65).
  In this value model that sharing cannot be seen.

## Model

| member | source | states |
|---|---|---|
| `Tasks.Decimal` | src/models/Task.ts:13 | the id text is a non-empty string of decimal digits, with no leading zero except for 0 |
| `Tasks.DecimalRoundTrip` | src/models/Task.ts:13 | reading back the decimal text of a clock value gives that value |
| `Tasks.DecimalInjective` | src/models/Task.ts:13 | two clock values have the same decimal text iff they are equal |
| `Tasks.CreateNewTask` | src/models/Task.ts:11-20 | the new task's id is the clock's decimal text; title, description and due date are copied; `completed` and `reminderSet` are false; `notificationId` is absent |
| `Tasks.CreatedIdsCollideIffSameClock` | src/models/Task.ts:13 | two created tasks get the same id iff they were created at the same millisecond, so ids are not unique by construction |
| `Platform.Preferences.Get` | src/services/TaskService.ts:30 | the lookup yields a value iff the key is present, and then the stored value |
| `Platform.Preferences.Set` | src/services/TaskService.ts:48-51 | the value under the key is overwritten and every other key is kept |
| `Platform.LocalNotifications.Schedule` | src/services/TaskService.ts:175-187 | the notification is pending under its id; scheduling an id again replaces it |
| `Platform.LocalNotifications.Cancel` | src/services/TaskService.ts:195-197 | the id is no longer pending, and cancelling an unknown id is harmless |
| `TaskLists.FirstIndexOf` | src/services/TaskService.ts:117 | `findIndex`: the index of the first task with the id (none before it matches), or none iff no task has the id |
| `TaskLists.FindTask` | src/services/TaskService.ts:63-66 | `find`: the first task with the id, or none iff no task has that id |
| `TaskLists.FirstIndexOfDependsOnIdsOnly` | src/services/TaskService.ts:156 | lists with the same ids at each position have their first match at the same index |
| `TaskLists.FindAfterAppend` | src/services/TaskService.ts:105 | after a task is appended, lookup by its id succeeds, and it returns the new task unless an older task has the same id |
| `TaskLists.Filter` | src/services/TaskService.ts:150 | `filter`: the result is no longer than the input and holds exactly the input elements that pass the test |
| `TaskLists.FilterAppend` | src/services/TaskService.ts:92-95 | filtering distributes over concatenation, so kept elements stay in list order |
| `TaskLists.FilterKeepsAll` | src/services/TaskService.ts:76-81 | filtering a list whose every element passes returns the list unchanged |
| `TaskLists.FilterIdempotent` | src/services/TaskService.ts:150 | filtering twice with the same test is filtering once |
| `TaskLists.FilterCongruent` | src/services/TaskService.ts:76-81 | two tests that agree on every element select the same list |
| `TaskLists.UtcDayOfTimeOfDay` | src/services/TaskService.ts:72-73 | every instant of a UTC day has that day as its date part, so truncation drops the time of day |
| `TaskLists.UtcDay` | src/services/TaskService.ts:73 | the UTC day of an instant is the day whose 86400000 ms span contains it, as the date part of the ISO text gives it |
| `TaskLists.SameUtcDay` | src/services/TaskService.ts:77-78 | two instants share a UTC date iff the second lies within the first one's UTC day |
| `TaskLists.DailyTasks` | src/services/TaskService.ts:68-85 | a task is in the daily list iff it is in the store and is due on the query's UTC day |
| `TaskLists.DailyIgnoresTimeOfDay` | src/services/TaskService.ts:73-78 | two query instants on the same UTC day give the same daily list, order included |
| `TaskLists.InWeekFrom` | src/services/TaskService.ts:94 | a due instant is in the window iff it is 0 to 6 days after the start, both ends included; such a task falls on one of the seven UTC days from the start's day |
| `TaskLists.WeeklyTasks` | src/services/TaskService.ts:87-96 | a task is in the weekly list iff it is in the store and `start <= due <= start + 6 days`, both ends included |
| `TaskLists.WeeklyExcludesRestOfLastDay` | src/services/TaskService.ts:89-94 | for a week starting at UTC midnight, a task due 1 ms after midnight of the seventh day is in that day's list but not in the week |
| `TaskLists.ToggleFirst` | src/services/TaskService.ts:154-162 | the list keeps its length; each task differs from before at most in `completed`, and `completed` changes exactly at the first index with the id |
| `TaskLists.ToggleTwiceRestores` | src/services/TaskService.ts:159 | toggling the same id twice restores the original list |
| `TaskLists.RemoveId` | src/services/TaskService.ts:150 | no task with the id remains, every other task remains, and lookup by the id then finds nothing |
| `TaskLists.RemoveUnknownId` | src/services/TaskService.ts:150 | removing an id no task has leaves the list as it is |
| `TaskLists.RemoveIdIdempotent` | src/services/TaskService.ts:150 | deleting the same id twice has the effect of deleting it once |
| `Services.LoadedTasks` | src/services/TaskService.ts:32-40 | loading yields either exactly the stored list or the empty list, and a stored list always loads as itself |
| `Services.ReminderInFuture` | src/services/TaskService.ts:168-172 | a reminder is scheduled iff the task is due more than 30 minutes after now, so only for tasks due in the future |
| `Services.ReminderFor` | src/services/TaskService.ts:175-187 | the notification fires 30 minutes before the due time, is titled "Task Reminder", names the task's title in its body and carries the task's id |
| `Services.WithoutReminder` | src/services/TaskService.ts:127-129 | cancelling removes exactly the task's notification id from the pending set, if the task has one, and keeps every other entry |
| `Services.WithReminder` | src/services/TaskService.ts:168-191 | a notification is added under the clock reading iff its firing time is after now; no other entry changes |
| `Services.ReminderBodyInjective` | src/services/TaskService.ts:180 | two titles give the same notification body iff they are equal |
| `Services.ReminderFieldsChanged` | src/services/TaskService.ts:122-124 | for the same task id, the update test holds iff the reminder is switched on or off or the notification request would differ |
| `Services.TaskService.constructor` | src/services/TaskService.ts:9-12 | a new store has an empty list and is not initialized |
| `Services.TaskService.Init` | src/services/TaskService.ts:21-26 | afterwards the store is initialized; if it already was, the list is unchanged, otherwise it is the loaded list |
| `Services.TaskService.LoadTasks` | src/services/TaskService.ts:28-42 | the list becomes the stored list, or empty when nothing is stored or the value is unreadable |
| `Services.TaskService.SaveTasks` | src/services/TaskService.ts:44-56 | the whole list is written under the key "tasks", and the store then mirrors memory |
| `Services.TaskService.GetAllTasks` | src/services/TaskService.ts:58-61 | returns the whole list after init, and the list is unchanged |
| `Services.TaskService.GetTaskById` | src/services/TaskService.ts:63-66 | returns the first task with the id, or none, and the list is unchanged |
| `Services.TaskService.GetDailyTasks` | src/services/TaskService.ts:68-85 | returns the tasks due on the query's UTC day, in list order, and the list is unchanged |
| `Services.TaskService.GetWeeklyTasks` | src/services/TaskService.ts:87-96 | returns the tasks in the inclusive six-day window, in list order, and the list is unchanged |
| `Services.TaskService.ScheduleNotification` | src/services/TaskService.ts:164-192 | if the reminder instant is after now, the notification is pending under the clock reading and the task carries that id; otherwise nothing changes |
| `Services.TaskService.CancelNotification` | src/services/TaskService.ts:194-198 | the id is removed from the pending notifications |
| `Services.TaskService.AddTask` | src/services/TaskService.ts:98-113 | the list grows by one task at the end with the given fields and `completed` false; it has a notification id iff the reminder is set and fires after now; the stored snapshot holds the new task without that id, so the store mirrors memory iff no reminder was scheduled |
| `Services.TaskService.UpdateTask` | src/services/TaskService.ts:115-140 | an unknown id changes neither the list, the store nor the notifications; otherwise only the first match is replaced; cancel and reschedule happen only when reminderSet, dueDate or title differ; a notification id changes only when one is scheduled |
| `Services.TaskService.DeleteTask` | src/services/TaskService.ts:142-152 | every task with the id is removed and the others keep their order; the first match's notification is cancelled if it has one; the list is stored either way |
| `Services.TaskService.ToggleTaskCompletion` | src/services/TaskService.ts:154-162 | `completed` flips on the first match only; an unknown id changes nothing and stores nothing; notifications are not touched |
| `Services.SaveThenReloadScenario` | src/services/TaskService.ts:21-48 | a store that has not loaded yet reads back, on its first operation, exactly the list another store saved to the same key-value store |
| `Services.DescriptionOnlyUpdateScenario` | src/services/TaskService.ts:115-140 | storing a looked-up task back with only a new description replaces that task and leaves all pending notifications unchanged |
| `Services.AddToggleDeleteScenario` | src/services/TaskService.ts:98-162 | a caller can rely on these contracts: a just-added task is found by its id, two toggles restore the list, and after deletion the id is not found |

## Left out

- JSON serialisation: the stored value is the list itself, or `Malformed` for a
  value that cannot be read back, and `Malformed` loads as the empty list. The
  source behaves differently for a value that parses but is not an array
  (`"null"`, a number): `JSON.parse` does not throw, so it keeps that value as its
  list (src/services/TaskService.ts:33) and still sets `initialized`
  (src/services/TaskService.ts:25). Every later operation then fails with a type
  error. The model does not capture that failure.
- Failure modes of the device services: a failed write (caught and logged in
  `saveTasks`) and a failed schedule or cancel (not caught in the source, so it
  ends the calling operation) are not modelled. Only a failed or unreadable load
  is modelled, and it gives the empty list.
- JavaScript `Date`: ISO text parsing, invalid dates (NaN due dates, and the
  error `toISOString` raises on them) and local-time `setDate` / `setMinutes`
  with daylight-saving shifts. The model uses integer milliseconds and fixed
  offsets of six days and 30 minutes.
- Services.TaskService.UpdateTask: the source compares due dates as ISO text
  (src/services/TaskService.ts:123), the model as instants. Two different texts
  for the same instant (`"2025-01-01T10:00:00.000Z"` and `"2025-01-01T10:00:00Z"`)
  count as a change in the source, which then cancels and reschedules the
  reminder. In the model they are no change, and no notification is touched.
- Clock readings before 1970: `now` is a `nat`, so the negative clock values
  whose decimal text starts with "-" are not modelled. Due dates are any integer.
- The clock: the source reads it up to three times in one operation (task id,
  the "in the future" test, the notification id). The model uses one reading,
  `now`, for all of them.
- `parseInt` on the notification id text: the id is kept as the integer it was
  generated from, so an id text supplied by a caller that is not a number is not
  modelled.
- Object identity: tasks are values. The source shares task objects between the
  list, its callers and `updateTask`'s argument. So a caller that edits the object
  `getTaskById` returned and passes it back to `updateTask` makes the old/new
  comparison see no change. That sharing is not captured.
- `async` / `await` interleaving: operations are atomic and sequential.
- The process-wide singleton `getInstance`: the model constructs one explicit instance.
- Logging through `console.log` / `console.error`.
- src/router/index.ts and capacitor.config.ts: routing and packaging constants,
  with no logic to verify.
