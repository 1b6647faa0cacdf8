/** The attendance card: its percentage, the enable state of its four counter
    buttons, and the bodies its buttons post to the attendance route. */
module AttendanceCard {
  import opened Common
  import opened Records
  import opened AttendanceRoute

  /** `classAttended / totalClass * 100`, with no cap. */
  function AttendancePercentage(t: Attendance): (p: real)
    requires t.totalClass > 0
    ensures p * (t.totalClass as real) == (t.classAttended as real) * 100.0
    ensures t.classAttended <= t.totalClass ==> p <= 100.0
    ensures t.classAttended >= t.totalClass ==> p >= 100.0
  {
    Percent(t.classAttended, t.totalClass)
  }

  /** Attending more classes than were held shows more than 100 percent. */
  lemma PercentageUncapped(t: Attendance)
    requires 0 < t.totalClass < t.classAttended
    ensures AttendancePercentage(t) > 100.0
  {
    var p, d := AttendancePercentage(t), t.totalClass as real;
    assert p >= 100.0 && p * d == (t.classAttended as real) * 100.0;
    assert 100.0 * d != (t.classAttended as real) * 100.0;
    assert p * d != 100.0 * d;
  }

  // The disabled conditions of the four counter buttons; `pending` is the
  // in-flight state of the button's request.
  predicate AttendedMinusDisabled(t: Attendance, pending: bool) { pending || t.classAttended <= 0 }
  predicate AttendedPlusDisabled(t: Attendance, pending: bool) { pending || t.classAttended >= t.totalClass }
  predicate TotalMinusDisabled(t: Attendance, pending: bool) { pending || t.totalClass <= 1 }
  predicate TotalPlusDisabled(t: Attendance, pending: bool) { pending }

  /** The attended buttons keep `0 <= classAttended <= totalClass`, and the
      total buttons keep `totalClass >= 1`. */
  lemma CounterGuards(t: Attendance)
    requires 0 <= t.classAttended <= t.totalClass && 1 <= t.totalClass
    ensures !AttendedPlusDisabled(t, false) ==> 0 <= t.classAttended + 1 <= t.totalClass
    ensures !AttendedMinusDisabled(t, false) ==> 0 <= t.classAttended - 1 <= t.totalClass
    ensures !TotalMinusDisabled(t, false) ==> 1 <= t.totalClass - 1
    ensures !TotalPlusDisabled(t, false)
  {
  }

  /** The guards do not keep `classAttended <= totalClass`: with every class
      attended and more than one held, lowering the total is enabled and
      leaves fewer classes held than attended. */
  lemma TotalMinusBreaksBound(t: Attendance)
    requires 1 < t.totalClass && t.classAttended == t.totalClass
    ensures !TotalMinusDisabled(t, false)
    ensures t.classAttended > t.totalClass + TotalMinusRequest(t).incrementTotalClass.n
  {
  }

  /** The four counter requests: one counter, a delta of exactly one. */
  function AttendedMinusRequest(t: Attendance): (b: AttendanceBody)
    ensures EntryPoint(b.action) == 2 && b.incrementClassAttended == Num(-1) && b.habitId == Str(t.id)
  {
    AttendanceBody(Str("updateClassAttended"), Absent, Str(t.id), Absent, Absent, Absent, Absent, Num(-1))
  }

  function AttendedPlusRequest(t: Attendance): (b: AttendanceBody)
    ensures EntryPoint(b.action) == 2 && b.incrementClassAttended == Num(1) && b.habitId == Str(t.id)
  {
    AttendanceBody(Str("updateClassAttended"), Absent, Str(t.id), Absent, Absent, Absent, Absent, Num(1))
  }

  function TotalMinusRequest(t: Attendance): (b: AttendanceBody)
    ensures EntryPoint(b.action) == 1 && b.incrementTotalClass == Num(-1) && b.habitId == Str(t.id)
  {
    AttendanceBody(Str("updateTotalClass"), Absent, Str(t.id), Absent, Absent, Absent, Num(-1), Absent)
  }

  function TotalPlusRequest(t: Attendance): (b: AttendanceBody)
    ensures EntryPoint(b.action) == 1 && b.incrementTotalClass == Num(1) && b.habitId == Str(t.id)
  {
    AttendanceBody(Str("updateTotalClass"), Absent, Str(t.id), Absent, Absent, Absent, Num(1), Absent)
  }

  /** The complete dialog sends the negation of the flag the card shows. */
  function CompleteRequest(t: Attendance): (b: AttendanceBody)
    ensures b.action == Str("completed") && b.habitId == Str(t.id) && b.completed == Bool(!t.completed)
  {
    AttendanceBody(Str("completed"), Absent, Str(t.id), Bool(!t.completed), Absent, Absent, Absent, Absent)
  }

  /** Every counter request carries a delta of exactly +1 or -1 in the one
      increment field its action reads, and leaves the other absent. */
  lemma RequestsCarryUnitDeltas(t: Attendance)
    ensures forall b :: b in {AttendedMinusRequest(t), AttendedPlusRequest(t)} ==>
              EntryPoint(b.action) == 2 && b.incrementClassAttended in {Num(1), Num(-1)}
              && b.incrementTotalClass == Absent && b.habitId == Str(t.id)
    ensures forall b :: b in {TotalMinusRequest(t), TotalPlusRequest(t)} ==>
              EntryPoint(b.action) == 1 && b.incrementTotalClass in {Num(1), Num(-1)}
              && b.incrementClassAttended == Absent && b.habitId == Str(t.id)
  {
  }

  /** The route stores `!completed` of the request, and the card sent
      `!tracker.completed`: the table the route writes for the complete
      dialog is the table it had. */
  lemma CompleteKeepsFlag(ts: seq<Attendance>, k: nat)
    requires k < |ts| && UniqueAttendanceIds(ts)
    ensures var b := CompleteRequest(ts[k]);
            EntryPoint(b.action) == 3
            && SetCompleted(ts, ts[k].userId, b.habitId, !Truthy(b.completed)) == ts
  {
    var t := ts[k];
    forall i | 0 <= i < |ts| && i != k
      ensures !Addressed(t.userId, Str(t.id), ts[i])
    {
      if i < k { assert ts[i].id != ts[k].id; } else { assert ts[k].id != ts[i].id; }
    }
    var after := SetCompleted(ts, t.userId, Str(t.id), t.completed);
    assert forall i :: 0 <= i < |ts| ==> after[i] == ts[i];
  }

  /** An attended request goes on into `completed` with no `completed` field,
      which the route stores as `true`: pressing attended-plus or -minus marks
      the tracker completed, and the route answers 400. */
  lemma AttendedRequestCompletes(ts: seq<Attendance>, k: nat, plus: bool)
    requires k < |ts| && UniqueAttendanceIds(ts)
    ensures var b := if plus then AttendedPlusRequest(ts[k]) else AttendedMinusRequest(ts[k]);
            var after := SetCompleted(AddAttended(ts, ts[k].userId, b.habitId, b.incrementClassAttended.n),
                                      ts[k].userId, b.habitId, !Truthy(b.completed));
            EntryPoint(b.action) == 2 && Truthy(b.incrementClassAttended) && b.incrementClassAttended.Num?
            && after[k] == ts[k].(classAttended := ts[k].classAttended + (if plus then 1 else -1), completed := true)
            && forall i :: 0 <= i < |ts| && i != k ==> after[i] == ts[i]
  {
    var t := ts[k];
    forall i | 0 <= i < |ts| && i != k
      ensures !Addressed(t.userId, Str(t.id), ts[i])
    {
      if i < k { assert ts[i].id != ts[k].id; } else { assert ts[k].id != ts[i].id; }
    }
  }

  /** A total request changes `totalClass` and then stops at the missing
      attended increment: `AttendanceStore.Post` answers 400 with the total
      write kept, which moves only the addressed row's total by one. */
  lemma TotalRequestStopsAtAttended(ts: seq<Attendance>, k: nat, plus: bool)
    requires k < |ts| && UniqueAttendanceIds(ts)
    ensures var b := if plus then TotalPlusRequest(ts[k]) else TotalMinusRequest(ts[k]);
            var after := AddTotal(ts, ts[k].userId, b.habitId, b.incrementTotalClass.n);
            EntryPoint(b.action) == 1 && Truthy(b.incrementTotalClass) && b.incrementTotalClass.Num?
            && !Truthy(b.incrementClassAttended)
            && after[k] == ts[k].(totalClass := ts[k].totalClass + (if plus then 1 else -1))
            && forall i :: 0 <= i < |ts| && i != k ==> after[i] == ts[i]
  {
    var t := ts[k];
    forall i | 0 <= i < |ts| && i != k
      ensures !Addressed(t.userId, Str(t.id), ts[i])
    {
      if i < k { assert ts[i].id != ts[k].id; } else { assert ts[k].id != ts[i].id; }
    }
  }
}
