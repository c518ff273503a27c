/**
 * The task store of src/services/TaskService.ts: an in-memory task list loaded
 * once from the key-value store, written back whole after every change, with
 * reminder notifications scheduled and cancelled as tasks change.
 */
module Services {
  import opened Tasks
  import opened Platform
  import opened TaskLists

  /** The key the whole task list is stored under. */
  const TasksStorageKey: string := "tasks"

  /** A reminder fires this long before the due time. */
  const ReminderLeadMs: int := 30 * MinuteMs

  const ReminderTitle: string := "Task Reminder"
  const ReminderSound: string := "beep.wav"

  /**
   * The list loading yields: either exactly the list that was stored, or the empty
   * list (nothing stored, or a value that cannot be read back).
   */
  function LoadedTasks(value: Option<StoredValue>): (r: seq<Task>)
    ensures value == Some(Encoded(r)) || r == []
    ensures value.Some? && value.value.Encoded? ==> r == value.value.tasks
  {
    match value
    case Some(Encoded(stored)) => stored
    case Some(Malformed) => []
    case None => []
  }

  /**
   * A reminder is scheduled only if it would fire strictly after the current time,
   * that is, only for a task due more than 30 minutes from now.
   */
  predicate ReminderInFuture(due: int, now: int)
    ensures ReminderInFuture(due, now) <==> due - now > 30 * MinuteMs
    ensures ReminderInFuture(due, now) ==> due > now
  {
    due - ReminderLeadMs > now
  }

  /** The notification requested for a task. */
  function ReminderFor(task: Task): (n: Notification)
    ensures n.at + ReminderLeadMs == task.dueDate && n.taskId == task.id
    ensures n.title == ReminderTitle && n.body == "Reminder: " + task.title + " is due soon"
  {
    Notification(ReminderTitle, "Reminder: " + task.title + " is due soon",
                 task.dueDate - ReminderLeadMs, ReminderSound, "", task.id)
  }

  /** The pending notifications after a cancel for the task's notification id, if it has one. */
  function WithoutReminder(pending: map<nat, Notification>, notificationId: Option<nat>): (r: map<nat, Notification>)
    ensures notificationId.Some? ==> r.Keys == pending.Keys - {notificationId.value}
    ensures notificationId.None? ==> r == pending
    ensures forall k :: k in r ==> k in pending && r[k] == pending[k]
  {
    match notificationId
    case None => pending
    case Some(n) => pending - {n}
  }

  /** The pending notifications after a scheduling attempt at `now` (the id is the clock reading). */
  function WithReminder(pending: map<nat, Notification>, task: Task, now: nat): (r: map<nat, Notification>)
    ensures ReminderInFuture(task.dueDate, now) ==> now in r && r[now] == ReminderFor(task)
    ensures ReminderInFuture(task.dueDate, now) ==> r.Keys == pending.Keys + {now}
    ensures !ReminderInFuture(task.dueDate, now) ==> r == pending
    ensures forall k :: k in r && k != now ==> k in pending && r[k] == pending[k]
  {
    if ReminderInFuture(task.dueDate, now) then pending[now := ReminderFor(task)] else pending
  }

  /** Two titles give the same notification body exactly when they are equal. */
  lemma ReminderBodyInjective(title1: string, title2: string)
    ensures "Reminder: " + title1 + " is due soon" == "Reminder: " + title2 + " is due soon"
            <==> title1 == title2
  {
    var body1, body2 := "Reminder: " + title1 + " is due soon", "Reminder: " + title2 + " is due soon";
    if body1 == body2 {
      assert |title1| == |title2|;
      assert title1 == body1[10..10 + |title1|];
      assert title2 == body2[10..10 + |title2|];
    }
  }

  /**
   * The test updateTask uses to decide whether to cancel and reschedule: for the
   * same task id it holds exactly when the reminder is switched on or off, or when
   * the notification request the task would get differs (a new due time or title).
   */
  predicate ReminderFieldsChanged(previous: Task, updated: Task)
    ensures previous.id == updated.id ==>
              (ReminderFieldsChanged(previous, updated) <==>
                 previous.reminderSet != updated.reminderSet || ReminderFor(previous) != ReminderFor(updated))
  {
    ReminderBodyInjective(previous.title, updated.title);
    previous.reminderSet != updated.reminderSet
    || previous.dueDate != updated.dueDate
    || previous.title != updated.title
  }

  class TaskService {
    var tasks: seq<Task>
    var initialized: bool
    const prefs: Preferences
    const notifications: LocalNotifications

    /** One explicitly constructed store, empty and not yet loaded. */
    constructor (prefs: Preferences, notifications: LocalNotifications)
      ensures this.prefs == prefs && this.notifications == notifications
      ensures tasks == [] && !initialized
    {
      this.prefs := prefs;
      this.notifications := notifications;
      tasks := [];
      initialized := false;
    }

    /** The list a public operation works on once it has run init. */
    ghost function Current(): seq<Task>
      reads this, prefs
    {
      if initialized then tasks else LoadedTasks(prefs.Get(TasksStorageKey))
    }

    /** The stored value is exactly the in-memory list. */
    ghost predicate Mirrored()
      reads this, prefs
    {
      prefs.Get(TasksStorageKey) == Some(Encoded(tasks))
    }

    /** Loads the list once; later calls change nothing. */
    method Init()
      modifies this
      ensures initialized
      ensures tasks == old(Current())
      ensures old(initialized) ==> tasks == old(tasks)
      ensures !old(initialized) ==> tasks == LoadedTasks(prefs.Get(TasksStorageKey))
    {
      if initialized {
        return;
      }
      LoadTasks();
      initialized := true;
    }

    /** Replaces the list by the stored one; nothing stored or unreadable data gives the empty list. */
    method LoadTasks()
      modifies this
      ensures initialized == old(initialized)
      ensures tasks == LoadedTasks(prefs.Get(TasksStorageKey))
    {
      var value := prefs.Get(TasksStorageKey);
      match value
      case Some(Encoded(stored)) =>
        tasks := stored;
      case Some(Malformed) =>
        tasks := [];
      case None =>
        tasks := [];
    }

    /** Writes the whole list under the storage key, overwriting what was there. */
    method SaveTasks()
      modifies prefs
      ensures prefs.store == old(prefs.store)[TasksStorageKey := Encoded(tasks)]
      ensures Mirrored()
    {
      prefs.Set(TasksStorageKey, Encoded(tasks));
    }

    method GetAllTasks() returns (r: seq<Task>)
      modifies this
      ensures initialized && tasks == old(Current())
      ensures r == tasks
    {
      Init();
      r := tasks;
    }

    method GetTaskById(id: string) returns (r: Option<Task>)
      modifies this
      ensures initialized && tasks == old(Current())
      ensures r == FindTask(tasks, id)
    {
      Init();
      r := FindTask(tasks, id);
    }

    method GetDailyTasks(date: int) returns (r: seq<Task>)
      modifies this
      ensures initialized && tasks == old(Current())
      ensures r == DailyTasks(tasks, date)
    {
      Init();
      r := DailyTasks(tasks, date);
    }

    method GetWeeklyTasks(start: int) returns (r: seq<Task>)
      modifies this
      ensures initialized && tasks == old(Current())
      ensures r == WeeklyTasks(tasks, start)
    {
      Init();
      r := WeeklyTasks(tasks, start);
    }

    /**
     * Schedules the task's reminder if it fires after `now`, with the clock reading
     * as its id, and returns the task with that id recorded; otherwise returns the
     * task as it is.
     */
    method ScheduleNotification(task: Task, now: nat) returns (scheduled: Task)
      modifies notifications
      ensures notifications.pending == WithReminder(old(notifications.pending), task, now)
      ensures scheduled == if ReminderInFuture(task.dueDate, now)
                           then task.(notificationId := Some(now)) else task
    {
      scheduled := task;
      if ReminderInFuture(task.dueDate, now) {
        var notificationId := now;
        notifications.Schedule(notificationId, ReminderFor(task));
        scheduled := task.(notificationId := Some(notificationId));
      }
    }

    method CancelNotification(notificationId: nat)
      modifies notifications
      ensures notifications.pending == old(notifications.pending) - {notificationId}
    {
      notifications.Cancel(notificationId);
    }

    /**
     * Appends a new task and stores the list, then schedules its reminder. The list
     * is stored before the notification id is recorded, so the stored copy of the
     * new task lacks the id the in-memory one carries.
     */
    method AddTask(title: string, description: string, dueDate: int, reminderSet: bool, now: nat)
      returns (t: Task)
      modifies this, prefs, notifications
      ensures initialized
      ensures t.id == Decimal(now)
      ensures t.title == title && t.description == description && t.dueDate == dueDate
      ensures !t.completed && t.reminderSet == reminderSet
      ensures t.notificationId.Some? <==> reminderSet && ReminderInFuture(dueDate, now)
      ensures t.notificationId.Some? ==> t.notificationId == Some(now)
      ensures tasks == old(Current()) + [t]
      ensures prefs.store == old(prefs.store)[TasksStorageKey :=
                Encoded(old(Current()) + [t.(notificationId := None)])]
      ensures notifications.pending == if reminderSet
                                       then WithReminder(old(notifications.pending), t, now)
                                       else old(notifications.pending)
      ensures Mirrored() <==> t.notificationId.None?
    {
      Init();
      var newTask := CreateNewTask(now, title, description, dueDate);
      newTask := newTask.(reminderSet := reminderSet);
      tasks := tasks + [newTask];
      SaveTasks();
      ghost var saved := tasks;
      if newTask.reminderSet {
        newTask := ScheduleNotification(newTask, now);
        // the notification id is written to the very object that was appended
        tasks := tasks[|tasks| - 1 := newTask];
        if newTask.notificationId.Some? {
          assert tasks[|tasks| - 1] != saved[|saved| - 1];
        }
      }
      t := newTask;
    }

    /**
     * Replaces the first task with the updated one's id. If the reminder fields
     * changed, the old notification (if any) is cancelled and, when the reminder is
     * on, a new one is scheduled; otherwise no notification is touched. The stored
     * task is the updated one, with a new notification id only when one was
     * scheduled: a reminder switched off keeps whatever id the update carried.
     * An unknown id changes nothing.
     */
    method UpdateTask(updated: Task, now: nat)
      modifies this, prefs, notifications
      ensures initialized
      ensures match FirstIndexOf(old(Current()), updated.id)
        case None =>
          && tasks == old(Current())
          && prefs.store == old(prefs.store)
          && notifications.pending == old(notifications.pending)
        case Some(i) =>
          var previous := old(Current())[i];
          var changed := ReminderFieldsChanged(previous, updated);
          var rescheduled := changed && updated.reminderSet && ReminderInFuture(updated.dueDate, now);
          var cancelled := if changed then WithoutReminder(old(notifications.pending), previous.notificationId)
                           else old(notifications.pending);
          && tasks == old(Current())[i := if rescheduled then updated.(notificationId := Some(now)) else updated]
          && prefs.store == old(prefs.store)[TasksStorageKey := Encoded(tasks)]
          && notifications.pending == if changed && updated.reminderSet
                                      then WithReminder(cancelled, updated, now)
                                      else cancelled
    {
      Init();
      var index := FirstIndexOf(tasks, updated.id);
      if index.Some? {
        var i := index.value;
        var oldTask := tasks[i];
        var updatedTask := updated;
        if ReminderFieldsChanged(oldTask, updatedTask) {
          if oldTask.notificationId.Some? {
            CancelNotification(oldTask.notificationId.value);
          }
          if updatedTask.reminderSet {
            updatedTask := ScheduleNotification(updatedTask, now);
          }
        }
        tasks := tasks[i := updatedTask];
        SaveTasks();
      }
    }

    /**
     * Cancels the notification of the first task with the id, if it has one, then
     * removes every task with that id and stores the list, even when none matched.
     */
    method DeleteTask(id: string)
      modifies this, prefs, notifications
      ensures initialized
      ensures tasks == RemoveId(old(Current()), id)
      ensures prefs.store == old(prefs.store)[TasksStorageKey := Encoded(tasks)]
      ensures notifications.pending == match FindTask(old(Current()), id)
                                       case None => old(notifications.pending)
                                       case Some(t) => WithoutReminder(old(notifications.pending), t.notificationId)
    {
      Init();
      var taskToDelete := FindTask(tasks, id);
      if taskToDelete.Some? && taskToDelete.value.notificationId.Some? {
        CancelNotification(taskToDelete.value.notificationId.value);
      }
      tasks := RemoveId(tasks, id);
      SaveTasks();
    }

    /**
     * Flips `completed` on the first task with the id and stores the list; an
     * unknown id changes nothing and stores nothing. Notifications are untouched.
     */
    method ToggleTaskCompletion(id: string)
      modifies this, prefs
      ensures initialized
      ensures tasks == ToggleFirst(old(Current()), id)
      ensures FindTask(old(Current()), id).None? ==> prefs.store == old(prefs.store)
      ensures FindTask(old(Current()), id).Some? ==>
                prefs.store == old(prefs.store)[TasksStorageKey := Encoded(tasks)]
    {
      Init();
      var index := FirstIndexOf(tasks, id);
      if index.Some? {
        var task := tasks[index.value];
        tasks := tasks[index.value := task.(completed := !task.completed)];
        SaveTasks();
      }
    }
  }

  /**
   * A client: a task that was just added is found by its id, two toggles leave the
   * list as it was, and after deleting the id it is not found any more.
   */
  method AddToggleDeleteScenario(service: TaskService, title: string, description: string,
                                 dueDate: int, now: nat)
    returns (added: Task, found: Option<Task>, gone: Option<Task>)
    modifies service, service.prefs, service.notifications
    ensures found.Some? && found.value.id == added.id
    ensures gone == None
    ensures service.tasks == RemoveId(old(service.Current()) + [added], added.id)
  {
    added := service.AddTask(title, description, dueDate, true, now);
    found := service.GetTaskById(added.id);
    FindAfterAppend(old(service.Current()), added);
    ghost var beforeToggles := service.tasks;
    service.ToggleTaskCompletion(added.id);
    service.ToggleTaskCompletion(added.id);
    ToggleTwiceRestores(beforeToggles, added.id);
    service.DeleteTask(added.id);
    gone := service.GetTaskById(added.id);
  }

  /**
   * A client: what one store writes, a second store over the same key-value store
   * that has not loaded yet reads back on its first operation, list for list.
   */
  method SaveThenReloadScenario(writer: TaskService, reader: TaskService)
    returns (loaded: seq<Task>)
    requires writer != reader && writer.prefs == reader.prefs && !reader.initialized
    modifies writer.prefs, reader
    ensures loaded == writer.tasks
  {
    writer.SaveTasks();
    loaded := reader.GetAllTasks();
  }

  /**
   * A client: looking a task up and storing it back with only a new description
   * replaces that task and leaves every pending notification as it was.
   */
  method DescriptionOnlyUpdateScenario(service: TaskService, id: string, description: string, now: nat)
    returns (found: Option<Task>)
    modifies service, service.prefs, service.notifications
    ensures service.notifications.pending == old(service.notifications.pending)
    ensures found == FindTask(old(service.Current()), id)
    ensures found.None? ==> service.tasks == old(service.Current())
    ensures found.Some? ==> FindTask(service.tasks, id) == Some(found.value.(description := description))
  {
    found := service.GetTaskById(id);
    if found.Some? {
      ghost var before := service.tasks;
      var edited := found.value.(description := description);
      service.UpdateTask(edited, now);
      var i := FirstIndexOf(before, id).value;
      assert service.tasks == before[i := edited];
      FirstIndexOfDependsOnIdsOnly(before, service.tasks, id);
    }
  }
}
