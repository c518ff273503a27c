/**
 * The two device services the task store calls: a key-value store (Capacitor
 * Preferences) and a local notification scheduler (Capacitor LocalNotifications).
 * Their implementations are outside this model; each is reduced to the state it keeps.
 */
module Platform {
  import opened Tasks

  /**
   * What the key-value store holds under a key. The JSON text of a task list is
   * abstracted to the list it encodes; `Malformed` stands for a value that cannot
   * be read back as a task list.
   */
  datatype StoredValue = Encoded(tasks: seq<Task>) | Malformed

  /** A local notification request, with the fields the task store fills in. */
  datatype Notification = Notification(
    title: string,
    body: string,
    at: int,
    sound: string,
    actionTypeId: string,
    taskId: string
  )

  class Preferences {
    var store: map<string, StoredValue>

    constructor (initial: map<string, StoredValue>)
      ensures store == initial
    {
      store := initial;
    }

    /** The value under `key`, or None when there is none. */
    function Get(key: string): (v: Option<StoredValue>)
      reads this
      ensures v.Some? <==> key in store
      ensures v.Some? ==> v.value == store[key]
    {
      if key in store then Some(store[key]) else None
    }

    /** Overwrites the value under `key`. */
    method Set(key: string, value: StoredValue)
      modifies this
      ensures store == old(store)[key := value]
    {
      store := store[key := value];
    }
  }

  class LocalNotifications {
    /** The notifications scheduled and not cancelled, by numeric id. */
    var pending: map<nat, Notification>

    constructor ()
      ensures pending == map[]
    {
      pending := map[];
    }

    /** Scheduling under an id that is already pending replaces that notification. */
    method Schedule(id: nat, n: Notification)
      modifies this
      ensures pending == old(pending)[id := n]
    {
      pending := pending[id := n];
    }

    /** Cancelling an id that is not pending is not an error. */
    method Cancel(id: nat)
      modifies this
      ensures pending == old(pending) - {id}
    {
      pending := pending - {id};
    }
  }
}
