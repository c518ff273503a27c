/** The task record (src/models/Task.ts) and the function that creates a fresh one. */
module Tasks {

  datatype Option<+T> = None | Some(value: T)

  /** Timestamps are integer milliseconds since the epoch. */
  const MinuteMs: int := 60_000
  const DayMs: int := 86_400_000

  /**
   * A task. `dueDate` is the instant its ISO text denotes. `notificationId` is the
   * optional field: None when it is absent, otherwise the integer the notification
   * id was generated from.
   */
  datatype Task = Task(
    id: string,
    title: string,
    description: string,
    dueDate: int,
    completed: bool,
    reminderSet: bool,
    notificationId: Option<nat>
  )

  predicate IsDigit(c: char) {
    '0' <= c <= '9'
  }

  predicate AllDigits(s: string) {
    forall i :: 0 <= i < |s| ==> IsDigit(s[i])
  }

  function DigitChar(d: nat): (c: char)
    requires d < 10
    ensures IsDigit(c) && c as int - '0' as int == d
  {
    ('0' as int + d) as char
  }

  /** The decimal text of a natural number, without leading zeros, as `toString()` writes it. */
  function Decimal(n: nat): (s: string)
    ensures |s| >= 1 && AllDigits(s)
    ensures s[0] == '0' ==> n == 0
    decreases n
  {
    if n < 10 then [DigitChar(n)] else Decimal(n / 10) + [DigitChar(n % 10)]
  }

  /** The number a string of decimal digits denotes. */
  function DecimalValue(s: string): nat
    requires AllDigits(s)
  {
    if s == [] then 0 else DecimalValue(s[..|s| - 1]) * 10 + (s[|s| - 1] as int - '0' as int)
  }

  /** Reading back the decimal text of `n` gives `n`. */
  lemma {:induction false} DecimalRoundTrip(n: nat)
    ensures DecimalValue(Decimal(n)) == n
    decreases n
  {
    if n >= 10 {
      var s := Decimal(n);
      assert s[..|s| - 1] == Decimal(n / 10);
      DecimalRoundTrip(n / 10);
    }
  }

  /** Two clock values have the same decimal text exactly when they are equal. */
  lemma DecimalInjective(m: nat, n: nat)
    ensures Decimal(m) == Decimal(n) <==> m == n
  {
    DecimalRoundTrip(m);
    DecimalRoundTrip(n);
  }

  /**
   * createNewTask: the id is the decimal text of the clock reading `now`; the rest
   * comes from the arguments, with completion and reminder off and no notification.
   */
  function CreateNewTask(now: nat, title: string, description: string, dueDate: int): (t: Task)
    ensures t.id == Decimal(now) && AllDigits(t.id)
    ensures t.title == title && t.description == description && t.dueDate == dueDate
    ensures !t.completed && !t.reminderSet && t.notificationId == None
  {
    Task(Decimal(now), title, description, dueDate, false, false, None)
  }

  /**
   * Ids are not unique by construction: two tasks created at the same millisecond
   * share an id, and tasks created at different milliseconds never do.
   */
  lemma CreatedIdsCollideIffSameClock(now1: nat, now2: nat, title1: string, title2: string,
                                      description1: string, description2: string,
                                      due1: int, due2: int)
    ensures CreateNewTask(now1, title1, description1, due1).id == CreateNewTask(now2, title2, description2, due2).id
            <==> now1 == now2
  {
    DecimalInjective(now1, now2);
  }
}
