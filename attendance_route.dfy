/** The attendance route: POST (`create`, `updateTotalClass`,
    `updateClassAttended`, `completed`), GET and DELETE over the attendance
    table. The `switch` of POST has no `return` after a successful write, so
    control falls from one case into the next. */
module AttendanceRoute {
  import opened Common
  import opened Records

  /** The fields POST destructures from the request body. */
  datatype AttendanceBody = AttendanceBody(action: Field, title: Field, habitId: Field, completed: Field,
                                           totalClass: Field, classAttended: Field,
                                           incrementTotalClass: Field, incrementClassAttended: Field)

  datatype AttendanceData = TrackerRow(tracker: Attendance) | TrackerList(trackers: seq<Attendance>)

  /** The `where: { userId, id: habitId }` filter every update and DELETE use. */
  predicate Addressed(userId: UserId, habitId: Field, t: Attendance)
  {
    t.userId == userId && habitId == Str(t.id)
  }

  /** The `case` clause control enters: 0 `create`, 1 `updateTotalClass`,
      2 `updateClassAttended`, 3 `completed`, 4 `default`. From a clause whose
      write succeeded, control runs on into the clause after it. */
  function EntryPoint(action: Field): (k: nat)
    ensures k <= 4
    ensures k == 4 <==> action !in {Str("create"), Str("updateTotalClass"), Str("updateClassAttended"), Str("completed")}
  {
    if action == Str("create") then 0
    else if action == Str("updateTotalClass") then 1
    else if action == Str("updateClassAttended") then 2
    else if action == Str("completed") then 3
    else 4
  }

  /** The row `create` stores: the body's title and counters, owned by the
      session user, not yet completed. */
  function NewTracker(id: RecordId, userId: UserId, body: AttendanceBody): (r: Option<Attendance>)
    ensures r.Some? <==> body.title.Str? && IntColumn(body.totalClass, DefaultCount).Some?
                         && IntColumn(body.classAttended, DefaultCount).Some?
    ensures r.Some? ==> r.value.id == id && r.value.userId == userId && r.value.title == body.title.s
                        && r.value.totalClass == IntColumn(body.totalClass, DefaultCount).value
                        && r.value.classAttended == IntColumn(body.classAttended, DefaultCount).value
                        && !r.value.completed
  {
    match (TextOf(body.title), IntColumn(body.totalClass, DefaultCount), IntColumn(body.classAttended, DefaultCount))
    case (Some(title), Some(total), Some(attended)) => Some(Attendance(id, userId, title, total, attended, false))
    case _ => None
  }

  /** `updateMany` with `totalClass: { increment }`, unclamped. */
  function AddTotal(ts: seq<Attendance>, userId: UserId, habitId: Field, n: int): (r: seq<Attendance>)
    ensures |r| == |ts|
    ensures forall i :: 0 <= i < |ts| ==>
              r[i] == if Addressed(userId, habitId, ts[i]) then ts[i].(totalClass := ts[i].totalClass + n) else ts[i]
    ensures UniqueAttendanceIds(ts) ==> UniqueAttendanceIds(r)
  {
    MapWhere(ts, (t: Attendance) => Addressed(userId, habitId, t),
             (t: Attendance) => t.(totalClass := t.totalClass + n))
  }

  /** `updateMany` with `classAttended: { increment }`, unclamped. */
  function AddAttended(ts: seq<Attendance>, userId: UserId, habitId: Field, n: int): (r: seq<Attendance>)
    ensures |r| == |ts|
    ensures forall i :: 0 <= i < |ts| ==>
              r[i] == if Addressed(userId, habitId, ts[i]) then ts[i].(classAttended := ts[i].classAttended + n) else ts[i]
    ensures UniqueAttendanceIds(ts) ==> UniqueAttendanceIds(r)
  {
    MapWhere(ts, (t: Attendance) => Addressed(userId, habitId, t),
             (t: Attendance) => t.(classAttended := t.classAttended + n))
  }

  /** `updateMany` with `completed: !completed`: the flag is set to the value
      given, whatever the stored one was. */
  function SetCompleted(ts: seq<Attendance>, userId: UserId, habitId: Field, c: bool): (r: seq<Attendance>)
    ensures |r| == |ts|
    ensures forall i :: 0 <= i < |ts| ==>
              r[i] == if Addressed(userId, habitId, ts[i]) then ts[i].(completed := c) else ts[i]
    ensures UniqueAttendanceIds(ts) ==> UniqueAttendanceIds(r)
  {
    MapWhere(ts, (t: Attendance) => Addressed(userId, habitId, t), (t: Attendance) => t.(completed := c))
  }

  /** `attendance.findMany({ where: { userId } })`. */
  function OwnedTrackers(ts: seq<Attendance>, userId: UserId): (r: seq<Attendance>)
    ensures forall t :: t in r <==> t in ts && t.userId == userId
  {
    Keep(ts, (t: Attendance) => t.userId == userId)
  }

  /** The row `attendance.delete({ where: { userId, id: habitId } })` removes. */
  function FindTracker(ts: seq<Attendance>, userId: UserId, habitId: Field): (k: Option<nat>)
    ensures k.Some? ==> k.value < |ts| && Addressed(userId, habitId, ts[k.value])
    ensures k.None? <==> forall i :: 0 <= i < |ts| ==> !Addressed(userId, habitId, ts[i])
  {
    FindWhere(ts, (t: Attendance) => Addressed(userId, habitId, t))
  }

  const InvalidActionType := "Invalid action type"
  const TotalRequired := "Increment value is required"
  const AttendedRequired := "Increment value is required to update class attended"
  /** Both counter writes report this message on failure. */
  const CounterFailed := "Failed to update total class value"

  class AttendanceStore {
    var trackers: seq<Attendance>

    ghost predicate Valid()
      reads this
    {
      UniqueAttendanceIds(trackers)
    }

    constructor ()
      ensures Valid() && trackers == []
    {
      trackers := [];
    }

    /** POST, with the fall-through of the source's `switch`: a request that
        enters at `updateTotalClass` with every value present performs three
        writes and still answers 400 "Invalid action type". */
    method Post(session: Option<UserId>, body: AttendanceBody, newId: RecordId, storeFails: bool)
      returns (r: Response<AttendanceData>)
      requires Valid()
      requires forall t :: t in trackers ==> t.id != newId
      modifies this
      ensures Valid()
      ensures session.None? ==> r == Unauthorized() && trackers == old(trackers)
      ensures session.Some? && EntryPoint(body.action) == 4 ==>
                r == Rejected(InvalidActionType) && trackers == old(trackers)
      ensures session.Some? && EntryPoint(body.action) == 0 ==>
                var created := NewTracker(newId, session.value, body);
                if !Truthy(body.title) then
                  r == Rejected("Title is required to create attendance tracker") && trackers == old(trackers)
                else if storeFails || created.None? then
                  r == Failed("Failed to create attendance tracker") && trackers == old(trackers)
                else
                  r == Answer(Success, TrackerRow(created.value), "Attendance tracker created successfully")
                  && trackers == old(trackers) + [created.value]
      ensures session.Some? && EntryPoint(body.action) == 1 ==>
                var u, id := session.value, body.habitId;
                if !Truthy(body.incrementTotalClass) then
                  r == Rejected(TotalRequired) && trackers == old(trackers)
                else if storeFails || IdRefused(body.habitId) || !body.incrementTotalClass.Num? then
                  r == Failed(CounterFailed) && trackers == old(trackers)
                else
                  var afterTotal := AddTotal(old(trackers), u, id, body.incrementTotalClass.n);
                  if !Truthy(body.incrementClassAttended) then
                    r == Rejected(AttendedRequired) && trackers == afterTotal
                  else if !body.incrementClassAttended.Num? then
                    r == Failed(CounterFailed) && trackers == afterTotal
                  else
                    r == Rejected(InvalidActionType)
                    && trackers == SetCompleted(AddAttended(afterTotal, u, id, body.incrementClassAttended.n),
                                                u, id, !Truthy(body.completed))
      ensures session.Some? && EntryPoint(body.action) == 2 ==>
                var u, id := session.value, body.habitId;
                if !Truthy(body.incrementClassAttended) then
                  r == Rejected(AttendedRequired) && trackers == old(trackers)
                else if storeFails || IdRefused(body.habitId) || !body.incrementClassAttended.Num? then
                  r == Failed(CounterFailed) && trackers == old(trackers)
                else
                  r == Rejected(InvalidActionType)
                  && trackers == SetCompleted(AddAttended(old(trackers), u, id, body.incrementClassAttended.n),
                                              u, id, !Truthy(body.completed))
      ensures session.Some? && EntryPoint(body.action) == 3 ==>
                if storeFails || IdRefused(body.habitId) then
                  r == Failed("Failed to update completed") && trackers == old(trackers)
                else
                  r == Rejected(InvalidActionType)
                  && trackers == SetCompleted(old(trackers), session.value, body.habitId, !Truthy(body.completed))
    {
      if session.None? {
        return Unauthorized();
      }
      var userId := session.value;
      var entry := EntryPoint(body.action);
      if entry == 0 {
        if !Truthy(body.title) {
          return Rejected("Title is required to create attendance tracker");
        }
        var created := NewTracker(newId, userId, body);
        if storeFails || created.None? {
          return Failed("Failed to create attendance tracker");
        }
        AppendKeepsDistinct(trackers, AttendanceId, created.value);
        trackers := trackers + [created.value];
        return Answer(Success, TrackerRow(created.value), "Attendance tracker created successfully");
      }
      if entry <= 1 {
        if !Truthy(body.incrementTotalClass) {
          return Rejected(TotalRequired);
        }
        if storeFails || IdRefused(body.habitId) || !body.incrementTotalClass.Num? {
          return Failed(CounterFailed);
        }
        trackers := AddTotal(trackers, userId, body.habitId, body.incrementTotalClass.n);
      }
      if entry <= 2 {
        if !Truthy(body.incrementClassAttended) {
          return Rejected(AttendedRequired);
        }
        if storeFails || IdRefused(body.habitId) || !body.incrementClassAttended.Num? {
          return Failed(CounterFailed);
        }
        trackers := AddAttended(trackers, userId, body.habitId, body.incrementClassAttended.n);
      }
      if entry <= 3 {
        if storeFails || IdRefused(body.habitId) {
          return Failed("Failed to update completed");
        }
        trackers := SetCompleted(trackers, userId, body.habitId, !Truthy(body.completed));
      }
      return Rejected(InvalidActionType);
    }

    /** GET: exactly the caller's trackers. */
    method Get(session: Option<UserId>, storeFails: bool) returns (r: Response<AttendanceData>)
      ensures session.None? ==> r == Unauthorized()
      ensures session.Some? && storeFails ==> r == Failed("Failed to fetch attendance trackers, please refresh")
      ensures session.Some? && !storeFails ==>
                r == Answer(Success, TrackerList(OwnedTrackers(trackers, session.value)), "All attendance tracker fetched")
    {
      if session.None? {
        return Unauthorized();
      }
      if storeFails {
        return Failed("Failed to fetch attendance trackers, please refresh");
      }
      return Answer(Success, TrackerList(OwnedTrackers(trackers, session.value)), "All attendance tracker fetched");
    }

    /** DELETE of the caller's tracker `habitId`; the success envelope has no
        `error` member. */
    method Delete(session: Option<UserId>, habitId: Field, storeFails: bool) returns (r: Response<AttendanceData>)
      requires Valid()
      modifies this
      ensures Valid()
      ensures session.None? ==> r == Unauthorized() && trackers == old(trackers)
      ensures session.Some? ==>
                var k := FindTracker(old(trackers), session.value, habitId);
                if storeFails || k.None? then
                  r == Failed("Failed to delete attendance tracker") && trackers == old(trackers)
                else
                  r == Response(NoContent, None, "Attendance tracker deleted successfully", NoErrorKey)
                  && trackers == RemoveAt(old(trackers), k.value)
    {
      if session.None? {
        return Unauthorized();
      }
      var k := FindTracker(trackers, session.value, habitId);
      if storeFails || k.None? {
        return Failed("Failed to delete attendance tracker");
      }
      RemoveKeepsDistinct(trackers, AttendanceId, k.value);
      trackers := RemoveAt(trackers, k.value);
      return Response(NoContent, None, "Attendance tracker deleted successfully", NoErrorKey);
    }
  }

  /** An id that names no tracker of the caller leaves every update without
      effect. For another user's id this is the program's behaviour; for an
      absent id it holds of the model's filter, which does not drop an
      `undefined` value as the store does. */
  lemma UnaddressedUnchanged(ts: seq<Attendance>, userId: UserId, habitId: Field, n: int, c: bool)
    requires forall i :: 0 <= i < |ts| ==> !Addressed(userId, habitId, ts[i])
    ensures AddTotal(ts, userId, habitId, n) == ts
    ensures AddAttended(ts, userId, habitId, n) == ts
    ensures SetCompleted(ts, userId, habitId, c) == ts
  {
    var a, b, d := AddTotal(ts, userId, habitId, n), AddAttended(ts, userId, habitId, n), SetCompleted(ts, userId, habitId, c);
    assert forall i :: 0 <= i < |ts| ==> a[i] == ts[i] && b[i] == ts[i] && d[i] == ts[i];
  }

  /** The three writes of a request entering at `updateTotalClass`, seen on the
      addressed row: both counters move and the flag becomes `c`. */
  lemma FallThroughWrites(ts: seq<Attendance>, k: nat, userId: UserId, n1: int, n2: int, c: bool)
    requires k < |ts| && ts[k].userId == userId && UniqueAttendanceIds(ts)
    ensures var after := SetCompleted(AddAttended(AddTotal(ts, userId, Str(ts[k].id), n1),
                                                  userId, Str(ts[k].id), n2), userId, Str(ts[k].id), c);
            |after| == |ts|
            && after[k] == ts[k].(totalClass := ts[k].totalClass + n1,
                                  classAttended := ts[k].classAttended + n2, completed := c)
            && forall i :: 0 <= i < |ts| && i != k ==> after[i] == ts[i]
  {
    var id := Str(ts[k].id);
    var t1 := AddTotal(ts, userId, id, n1);
    var t2 := AddAttended(t1, userId, id, n2);
    forall i | 0 <= i < |ts| && i != k
      ensures !Addressed(userId, id, ts[i])
    {
      if i < k { assert ts[i].id != ts[k].id; } else { assert ts[k].id != ts[i].id; }
    }
  }
}
