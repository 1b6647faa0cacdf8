/** The habit route: POST (`create`, `updateGoal`, `updateAchieved`), GET and
    DELETE over the habit table and the tracker buckets each habit owns. */
module HabitRoute {
  import opened Common
  import opened Records

  /** The fields POST destructures from the request body. */
  datatype HabitBody = HabitBody(action: Field, title: Field, goal: Field, achieved: Field,
                                 updateGoalValue: Field, achievedIncrementValue: Field,
                                 habitId: Field)

  /** What the envelope's `data` carries on success. */
  datatype HabitData = HabitRow(habit: Habit) | BatchCount(count: nat) | HabitList(habits: seq<Habit>)

  /** The `where: { habitId }` filter of the two tracker updates and of DELETE:
      it names the habit only, never its owner. */
  predicate Targets(habitId: Field, h: Habit)
  {
    habitId == Str(h.id)
  }

  /** The habit `create` asks the store for: owned by the session user, with one
      tracker for the server's current month and year. `None` when the store
      refuses the body's values for the columns. */
  function NewHabit(id: RecordId, userId: UserId, body: HabitBody, now: Period): (r: Option<Habit>)
    ensures r.Some? <==> body.title.Str? && IntColumn(body.goal, DefaultCount).Some?
                         && IntColumn(body.achieved, DefaultCount).Some?
    ensures r.Some? ==> r.value.id == id && r.value.userId == userId && r.value.title == body.title.s
    ensures r.Some? ==> |r.value.trackers| == 1
                        && r.value.trackers[0].month == now.month && r.value.trackers[0].year == now.year
                        && r.value.trackers[0].goal == IntColumn(body.goal, DefaultCount).value
                        && r.value.trackers[0].achieved == IntColumn(body.achieved, DefaultCount).value
  {
    match (TextOf(body.title), IntColumn(body.goal, DefaultCount), IntColumn(body.achieved, DefaultCount))
    case (Some(title), Some(goal), Some(achieved)) =>
      Some(Habit(id, userId, title, [Bucket(now.month, now.year, goal, achieved)]))
    case _ => None
  }

  /** One habit with every bucket's goal replaced. */
  function WithGoal(h: Habit, goal: int): (r: Habit)
    ensures r.id == h.id && r.userId == h.userId && r.title == h.title && |r.trackers| == |h.trackers|
    ensures forall j :: 0 <= j < |h.trackers| ==> r.trackers[j] == h.trackers[j].(goal := goal)
  {
    h.(trackers := MapWhere(h.trackers, (b: Bucket) => true, (b: Bucket) => b.(goal := goal)))
  }

  /** One habit with `increment` added to every bucket's achieved count. */
  function WithIncrement(h: Habit, increment: int): (r: Habit)
    ensures r.id == h.id && r.userId == h.userId && r.title == h.title && |r.trackers| == |h.trackers|
    ensures forall j :: 0 <= j < |h.trackers| ==>
              r.trackers[j] == h.trackers[j].(achieved := h.trackers[j].achieved + increment)
  {
    h.(trackers := MapWhere(h.trackers, (b: Bucket) => true, (b: Bucket) => b.(achieved := b.achieved + increment)))
  }

  /** `habitTracker.updateMany({ where: { habitId }, data: { goal } })`: every
      bucket of the addressed habit, whatever its period, gets the new goal. */
  function SetGoal(hs: seq<Habit>, habitId: Field, goal: int): (r: seq<Habit>)
    ensures |r| == |hs|
    ensures forall i :: 0 <= i < |hs| ==>
              r[i].id == hs[i].id && r[i].userId == hs[i].userId && r[i].title == hs[i].title
              && |r[i].trackers| == |hs[i].trackers|
    ensures forall i, j :: 0 <= i < |hs| && 0 <= j < |hs[i].trackers| ==>
              r[i].trackers[j] == if Targets(habitId, hs[i]) then hs[i].trackers[j].(goal := goal)
                                  else hs[i].trackers[j]
    ensures UniqueHabitIds(hs) ==> UniqueHabitIds(r)
    ensures BucketsPerPeriod(hs) ==> BucketsPerPeriod(r)
  {
    var r := MapWhere(hs, (h: Habit) => Targets(habitId, h), (h: Habit) => WithGoal(h, goal));
    BucketsKeepPeriods(hs, r);
    r
  }

  /** `updateMany` with `achieved: { increment }`: the increment is added to
      every bucket of the addressed habit, with no clamp to `[0, goal]`. */
  function AddAchieved(hs: seq<Habit>, habitId: Field, increment: int): (r: seq<Habit>)
    ensures |r| == |hs|
    ensures forall i :: 0 <= i < |hs| ==>
              r[i].id == hs[i].id && r[i].userId == hs[i].userId && r[i].title == hs[i].title
              && |r[i].trackers| == |hs[i].trackers|
    ensures forall i, j :: 0 <= i < |hs| && 0 <= j < |hs[i].trackers| ==>
              r[i].trackers[j] == if Targets(habitId, hs[i])
                                  then hs[i].trackers[j].(achieved := hs[i].trackers[j].achieved + increment)
                                  else hs[i].trackers[j]
    ensures UniqueHabitIds(hs) ==> UniqueHabitIds(r)
    ensures BucketsPerPeriod(hs) ==> BucketsPerPeriod(r)
  {
    var r := MapWhere(hs, (h: Habit) => Targets(habitId, h), (h: Habit) => WithIncrement(h, increment));
    BucketsKeepPeriods(hs, r);
    r
  }

  /** The `count` a tracker `updateMany` reports: the buckets it rewrote. */
  function TrackerCount(hs: seq<Habit>, habitId: Field): (n: nat)
    ensures n == 0 <==> forall i :: 0 <= i < |hs| && Targets(habitId, hs[i]) ==> hs[i].trackers == []
    ensures UniqueHabitIds(hs) ==>
              forall i :: 0 <= i < |hs| && Targets(habitId, hs[i]) ==> n == |hs[i].trackers|
  {
    if hs == [] then 0
    else
      var rest := TrackerCount(hs[1..], habitId);
      assert forall i :: 1 <= i < |hs| ==> hs[i] == hs[1..][i - 1];
      if Targets(habitId, hs[0]) then
        assert UniqueHabitIds(hs) ==> forall i :: 1 <= i < |hs| ==> !Targets(habitId, hs[i]);
        |hs[0].trackers| + rest
      else rest
  }

  /** `habit.findMany({ where: { userId } })`: the caller's habits, each with all
      of its buckets. */
  function OwnedHabits(hs: seq<Habit>, userId: UserId): (r: seq<Habit>)
    ensures forall h :: h in r <==> h in hs && h.userId == userId
  {
    Keep(hs, (h: Habit) => h.userId == userId)
  }

  /** The row `habit.delete({ where: { id: habitId } })` removes. */
  function FindHabit(hs: seq<Habit>, habitId: Field): (k: Option<nat>)
    ensures k.Some? ==> k.value < |hs| && habitId.Str? && hs[k.value].id == habitId.s
    ensures k.None? <==> forall i :: 0 <= i < |hs| ==> !Targets(habitId, hs[i])
  {
    FindWhere(hs, (h: Habit) => Targets(habitId, h))
  }

  /** Every habit has at most one bucket per period. */
  predicate BucketsPerPeriod(hs: seq<Habit>)
  {
    forall i :: 0 <= i < |hs| ==> OneBucketPerPeriod(hs[i].trackers)
  }

  class HabitStore {
    var habits: seq<Habit>

    /** Ids are unique and each habit has at most one bucket per period. */
    ghost predicate Valid()
      reads this
    {
      UniqueHabitIds(habits) && BucketsPerPeriod(habits)
    }

    constructor ()
      ensures Valid() && habits == []
    {
      habits := [];
    }

    /** POST. `newId` is the id the store would give a created habit, `now`
        the server clock, `storeFails` that every store call throws. */
    method Post(session: Option<UserId>, body: HabitBody, now: Period, newId: RecordId, storeFails: bool)
      returns (r: Response<HabitData>)
      requires Valid()
      requires forall h :: h in habits ==> h.id != newId
      modifies this
      ensures Valid()
      ensures session.None? ==> r == Unauthorized() && habits == old(habits)
      ensures session.Some? && body.action !in {Str("create"), Str("updateGoal"), Str("updateAchieved")} ==>
                r == Rejected("Invalid request") && habits == old(habits)
      ensures session.Some? && body.action == Str("create") ==>
                var created := NewHabit(newId, session.value, body, now);
                if !Truthy(body.title) then
                  r == Rejected("Title is required to create a habit.") && habits == old(habits)
                else if storeFails || created.None? then
                  r == Failed("Failed to create habit, please try again") && habits == old(habits)
                else
                  r == Answer(Create, HabitRow(created.value), "Habit created successfully")
                  && habits == old(habits) + [created.value]
      ensures session.Some? && body.action == Str("updateGoal") ==>
                if !Truthy(body.updateGoalValue) || !Truthy(body.habitId) then
                  r == Rejected("Missing required fields") && habits == old(habits)
                else if storeFails || IdRefused(body.habitId) || !body.updateGoalValue.Num? then
                  r == Failed("Failed to update goal, please try again") && habits == old(habits)
                else
                  r == Answer(Success, BatchCount(TrackerCount(old(habits), body.habitId)), "Goal updated successfully")
                  && habits == SetGoal(old(habits), body.habitId, body.updateGoalValue.n)
      ensures session.Some? && body.action == Str("updateAchieved") ==>
                if !Truthy(body.achievedIncrementValue) then
                  r == Rejected("Missing required fields") && habits == old(habits)
                else if storeFails || IdRefused(body.habitId) || !body.achievedIncrementValue.Num? then
                  r == Failed("Failed to update achieved, please try again") && habits == old(habits)
                else
                  r == Answer(Success, BatchCount(TrackerCount(old(habits), body.habitId)), "Updated achieved successfully")
                  && habits == AddAchieved(old(habits), body.habitId, body.achievedIncrementValue.n)
    {
      if session.None? {
        return Unauthorized();
      }
      if body.action == Str("create") {
        r := PostCreate(session.value, body, now, newId, storeFails);
      } else if body.action == Str("updateGoal") {
        r := PostUpdateGoal(body, storeFails);
      } else if body.action == Str("updateAchieved") {
        r := PostUpdateAchieved(body, storeFails);
      } else {
        r := Rejected("Invalid request");
      }
    }

    /** The `create` branch of POST: a habit with one bucket for `now`. */
    method PostCreate(userId: UserId, body: HabitBody, now: Period, newId: RecordId, storeFails: bool)
      returns (r: Response<HabitData>)
      requires Valid()
      requires forall h :: h in habits ==> h.id != newId
      modifies this
      ensures Valid()
      ensures var created := NewHabit(newId, userId, body, now);
              if !Truthy(body.title) then
                r == Rejected("Title is required to create a habit.") && habits == old(habits)
              else if storeFails || created.None? then
                r == Failed("Failed to create habit, please try again") && habits == old(habits)
              else
                r == Answer(Create, HabitRow(created.value), "Habit created successfully")
                && habits == old(habits) + [created.value]
    {
      if !Truthy(body.title) {
        return Rejected("Title is required to create a habit.");
      }
      var created := NewHabit(newId, userId, body, now);
      if storeFails || created.None? {
        return Failed("Failed to create habit, please try again");
      }
      AppendKeepsDistinct(habits, HabitId, created.value);
      AppendKeepsBuckets(habits, created.value);
      habits := habits + [created.value];
      return Answer(Create, HabitRow(created.value), "Habit created successfully");
    }

    /** The `updateGoal` branch of POST: every bucket of the named habit. */
    method PostUpdateGoal(body: HabitBody, storeFails: bool) returns (r: Response<HabitData>)
      requires Valid()
      modifies this
      ensures Valid()
      ensures if !Truthy(body.updateGoalValue) || !Truthy(body.habitId) then
                r == Rejected("Missing required fields") && habits == old(habits)
              else if storeFails || IdRefused(body.habitId) || !body.updateGoalValue.Num? then
                r == Failed("Failed to update goal, please try again") && habits == old(habits)
              else
                r == Answer(Success, BatchCount(TrackerCount(old(habits), body.habitId)), "Goal updated successfully")
                && habits == SetGoal(old(habits), body.habitId, body.updateGoalValue.n)
    {
      if !Truthy(body.updateGoalValue) || !Truthy(body.habitId) {
        return Rejected("Missing required fields");
      }
      if storeFails || IdRefused(body.habitId) || !body.updateGoalValue.Num? {
        return Failed("Failed to update goal, please try again");
      }
      var count := TrackerCount(habits, body.habitId);
      habits := SetGoal(habits, body.habitId, body.updateGoalValue.n);
      return Answer(Success, BatchCount(count), "Goal updated successfully");
    }

    /** The `updateAchieved` branch of POST: the increment on every bucket of
        the named habit. */
    method PostUpdateAchieved(body: HabitBody, storeFails: bool) returns (r: Response<HabitData>)
      requires Valid()
      modifies this
      ensures Valid()
      ensures if !Truthy(body.achievedIncrementValue) then
                r == Rejected("Missing required fields") && habits == old(habits)
              else if storeFails || IdRefused(body.habitId) || !body.achievedIncrementValue.Num? then
                r == Failed("Failed to update achieved, please try again") && habits == old(habits)
              else
                r == Answer(Success, BatchCount(TrackerCount(old(habits), body.habitId)), "Updated achieved successfully")
                && habits == AddAchieved(old(habits), body.habitId, body.achievedIncrementValue.n)
    {
      if !Truthy(body.achievedIncrementValue) {
        return Rejected("Missing required fields");
      }
      if storeFails || IdRefused(body.habitId) || !body.achievedIncrementValue.Num? {
        return Failed("Failed to update achieved, please try again");
      }
      var count := TrackerCount(habits, body.habitId);
      habits := AddAchieved(habits, body.habitId, body.achievedIncrementValue.n);
      return Answer(Success, BatchCount(count), "Updated achieved successfully");
    }

    /** GET: the caller's habits with all of their buckets. */
    method Get(session: Option<UserId>, storeFails: bool) returns (r: Response<HabitData>)
      ensures session.None? ==> r == Unauthorized()
      ensures session.Some? && storeFails ==> r == Failed("Failed to fetch habits, please refresh")
      ensures session.Some? && !storeFails ==>
                r == Answer(Success, HabitList(OwnedHabits(habits, session.value)), "Habits fetched successfully")
    {
      if session.None? {
        return Unauthorized();
      }
      if storeFails {
        return Failed("Failed to fetch habits, please refresh");
      }
      return Answer(Success, HabitList(OwnedHabits(habits, session.value)), "Habits fetched successfully");
    }

    /** DELETE: removes the habit whose id is `habitId`, whoever owns it. */
    method Delete(session: Option<UserId>, habitId: Field, storeFails: bool) returns (r: Response<HabitData>)
      requires Valid()
      modifies this
      ensures Valid()
      ensures session.None? ==> r == Unauthorized() && habits == old(habits)
      ensures session.Some? ==>
                var k := FindHabit(old(habits), habitId);
                if storeFails || k.None? then
                  r == Failed("Failed to delete the habit, please try again") && habits == old(habits)
                else
                  r == Response(NoContent, None, "Habit deleted successfully", EmptyError)
                  && habits == RemoveAt(old(habits), k.value)
    {
      if session.None? {
        return Unauthorized();
      }
      var k := FindHabit(habits, habitId);
      if storeFails || k.None? {
        return Failed("Failed to delete the habit, please try again");
      }
      RemoveKeepsDistinct(habits, HabitId, k.value);
      RemoveKeepsBuckets(habits, k.value);
      habits := RemoveAt(habits, k.value);
      return Response(NoContent, None, "Habit deleted successfully", EmptyError);
    }
  }

  /** A rewrite that keeps every habit's id and every bucket's period keeps
      the store's invariant. */
  lemma BucketsKeepPeriods(hs: seq<Habit>, r: seq<Habit>)
    requires |r| == |hs|
    requires forall i :: 0 <= i < |hs| ==> r[i].id == hs[i].id && |r[i].trackers| == |hs[i].trackers|
    requires forall i, j :: 0 <= i < |hs| && 0 <= j < |hs[i].trackers| ==>
               r[i].trackers[j].month == hs[i].trackers[j].month && r[i].trackers[j].year == hs[i].trackers[j].year
    ensures UniqueHabitIds(hs) ==> UniqueHabitIds(r)
    ensures BucketsPerPeriod(hs) ==> BucketsPerPeriod(r)
  {
    if BucketsPerPeriod(hs) {
      forall i | 0 <= i < |r|
        ensures OneBucketPerPeriod(r[i].trackers)
      {
        assert OneBucketPerPeriod(hs[i].trackers);
      }
    }
  }

  lemma AppendKeepsBuckets(hs: seq<Habit>, h: Habit)
    requires BucketsPerPeriod(hs) && OneBucketPerPeriod(h.trackers)
    ensures BucketsPerPeriod(hs + [h])
  {
  }

  lemma RemoveKeepsBuckets(hs: seq<Habit>, k: nat)
    requires BucketsPerPeriod(hs) && k < |hs|
    ensures BucketsPerPeriod(RemoveAt(hs, k))
  {
    var r := RemoveAt(hs, k);
    forall i | 0 <= i < |r|
      ensures OneBucketPerPeriod(r[i].trackers)
    {
      assert r[i] == if i < k then hs[i] else hs[i + 1];
    }
  }

  /** The increment is not clamped: a bucket already at its goal goes past it. */
  lemma AchievedPassesGoal()
    ensures var hs := [Habit("h1", "u1", "Read", [Bucket(0, 2025, 10, 10)])];
            AddAchieved(hs, Str("h1"), 1)[0].trackers[0].achieved == 11
  {
    var hs := [Habit("h1", "u1", "Read", [Bucket(0, 2025, 10, 10)])];
    assert Targets(Str("h1"), hs[0]);
  }

  /** Neither tracker update looks at the owner: another user's habit is
      rewritten whenever its id is named. */
  lemma UpdatesIgnoreOwner(hs: seq<Habit>, i: nat, goal: int, increment: int)
    requires i < |hs| && |hs[i].trackers| > 0
    ensures SetGoal(hs, Str(hs[i].id), goal)[i].trackers[0].goal == goal
    ensures AddAchieved(hs, Str(hs[i].id), increment)[i].trackers[0].achieved
            == hs[i].trackers[0].achieved + increment
  {
  }
}
