/** The rows of the five tables the route handlers read and write. A habit
    carries its tracker buckets, as `lib/models/habit.ts` shapes it; creation
    and update timestamps are not modelled. */
module Records {
  import opened Common

  /** The default of a counter column a create leaves out. */
  const DefaultCount := 0

  /** One `(month, year)` bucket of a habit. */
  datatype Bucket = Bucket(month: int, year: int, goal: int, achieved: int)

  datatype Habit = Habit(id: RecordId, userId: UserId, title: string, trackers: seq<Bucket>)

  datatype Attendance = Attendance(id: RecordId, userId: UserId, title: string,
                                   totalClass: int, classAttended: int, completed: bool)

  datatype Budget = Budget(id: RecordId, userId: UserId, title: string, goal: int, saving: int)

  datatype Expense = Expense(id: RecordId, userId: UserId, title: string, amount: int,
                             month: int, year: int)

  datatype User = User(id: UserId, name: string, email: string, emailVerified: bool,
                       image: Option<string>)

  /** At most one bucket per `(month, year)`. */
  predicate OneBucketPerPeriod(bs: seq<Bucket>)
  {
    forall i, j :: 0 <= i < j < |bs| ==> bs[i].month != bs[j].month || bs[i].year != bs[j].year
  }

  function HabitId(h: Habit): RecordId { h.id }
  function AttendanceId(t: Attendance): RecordId { t.id }
  function BudgetId(b: Budget): RecordId { b.id }
  function ExpenseId(e: Expense): RecordId { e.id }

  predicate UniqueHabitIds(hs: seq<Habit>) { DistinctKeys(hs, HabitId) }
  predicate UniqueAttendanceIds(ts: seq<Attendance>) { DistinctKeys(ts, AttendanceId) }
  predicate UniqueBudgetIds(bs: seq<Budget>) { DistinctKeys(bs, BudgetId) }
  predicate UniqueExpenseIds(es: seq<Expense>) { DistinctKeys(es, ExpenseId) }
}
