/** The habit card: which bucket it shows, its progress bar, the enable state
    of its two buttons, and the requests those buttons and the goal dialog
    send. */
module HabitCard {
  import opened Common
  import opened Records

  /** `trackers.find(...)`: the first bucket of the current month and year. */
  function CurrentTracker(h: Habit, now: Period): (r: Option<Bucket>)
    ensures r.Some? ==> r.value in h.trackers && r.value.month == now.month && r.value.year == now.year
    ensures r.Some? ==> exists i :: 0 <= i < |h.trackers| && h.trackers[i] == r.value
                          && forall j :: 0 <= j < i ==> h.trackers[j].month != now.month || h.trackers[j].year != now.year
    ensures r.None? <==> forall b :: b in h.trackers ==> b.month != now.month || b.year != now.year
  {
    match FindWhere(h.trackers, (b: Bucket) => b.month == now.month && b.year == now.year)
    case None => None
    case Some(i) => Some(h.trackers[i])
  }

  /** The card's progress needs a positive goal on the bucket it shows. */
  predicate HasPositiveGoal(h: Habit, now: Period)
  {
    var t := CurrentTracker(h, now);
    t.Some? ==> t.value.goal > 0
  }

  /** `min(achieved / goal * 100, 100)`, or 0 with no bucket for this period. */
  function Progress(h: Habit, now: Period): (p: real)
    requires HasPositiveGoal(h, now)
    ensures p <= 100.0
    ensures CurrentTracker(h, now).None? ==> p == 0.0
    ensures CurrentTracker(h, now).Some? ==>
              var t := CurrentTracker(h, now).value;
              (t.achieved >= t.goal ==> p == 100.0)
              && (t.achieved <= t.goal ==> p * (t.goal as real) == (t.achieved as real) * 100.0)
              && (0 <= t.achieved ==> 0.0 <= p)
  {
    match CurrentTracker(h, now)
    case None => 0.0
    case Some(t) => CappedPercent(t.achieved, t.goal)
  }

  /** More achieved in the shown bucket never shows less progress. */
  lemma ProgressMonotone(h: Habit, now: Period, k: nat, more: int)
    requires k < |h.trackers| && CurrentTracker(h, now) == Some(h.trackers[k])
    requires HasPositiveGoal(h, now) && more >= h.trackers[k].achieved
    ensures var h2 := h.(trackers := h.trackers[k := h.trackers[k].(achieved := more)]);
            HasPositiveGoal(h2, now) && Progress(h, now) <= Progress(h2, now)
  {
    var h2 := h.(trackers := h.trackers[k := h.trackers[k].(achieved := more)]);
    var i :| 0 <= i < |h.trackers| && h.trackers[i] == h.trackers[k]
             && forall j :: 0 <= j < i ==> h.trackers[j].month != now.month || h.trackers[j].year != now.year;
    if i < k {
      assert h2.trackers[i] == h.trackers[i];
    }
    ShownBucket(h2, now, if i < k then i else k);
    CappedPercentMonotone(h.trackers[k].achieved, more, h.trackers[k].goal);
  }

  /** The bucket at `k`, when it is the first of the period, is the one shown. */
  lemma ShownBucket(h: Habit, now: Period, k: nat)
    requires k < |h.trackers| && h.trackers[k].month == now.month && h.trackers[k].year == now.year
    requires forall j :: 0 <= j < k ==> h.trackers[j].month != now.month || h.trackers[j].year != now.year
    ensures CurrentTracker(h, now) == Some(h.trackers[k])
  {
    var p := (b: Bucket) => b.month == now.month && b.year == now.year;
    var f := FindWhere(h.trackers, p);
    assert f.Some?;
    assert !(f.value < k) && !(k < f.value);
  }

  /** `!currentTracker?.achieved || pending`. */
  predicate MinusDisabled(h: Habit, now: Period, pending: bool)
  {
    pending || CurrentTracker(h, now).None? || CurrentTracker(h, now).value.achieved == 0
  }

  /** `currentTracker?.achieved === currentTracker?.goal || pending`; with no
      bucket both sides are `undefined`, so the button is disabled. */
  predicate PlusDisabled(h: Habit, now: Period, pending: bool)
  {
    pending || CurrentTracker(h, now).None? || CurrentTracker(h, now).value.achieved == CurrentTracker(h, now).value.goal
  }

  /** Only equality with the goal disables plus: above the goal it stays
      enabled, so the guard does not keep `achieved <= goal`. */
  lemma PlusIgnoresOvershoot(h: Habit, now: Period)
    requires CurrentTracker(h, now).Some? && CurrentTracker(h, now).value.achieved > CurrentTracker(h, now).value.goal
    ensures !PlusDisabled(h, now, false)
  {
  }

  /** Pressing an enabled button from inside `[0, goal]` lands inside it. */
  lemma ButtonsKeepRange(h: Habit, now: Period)
    requires CurrentTracker(h, now).Some?
    requires var t := CurrentTracker(h, now).value; 0 <= t.achieved <= t.goal
    ensures var t := CurrentTracker(h, now).value;
            (!PlusDisabled(h, now, false) ==> 0 <= t.achieved + PlusDelta <= t.goal)
            && (!MinusDisabled(h, now, false) ==> 0 <= t.achieved + MinusDelta <= t.goal)
  {
  }

  /** The deltas the buttons send as `achievedIncrementValue`. */
  const MinusDelta := -1
  const PlusDelta := 1

  /** The body of an `updateAchieved` or `updateGoal` request; the route the
      card posts to is not modelled. */
  datatype CardRequest = UpdateAchieved(habitId: RecordId, achievedIncrementValue: int)
                       | UpdateGoal(habitId: RecordId, updateGoalValue: int)

  function MinusRequest(h: Habit): (q: CardRequest)
    ensures q.UpdateAchieved? && q.habitId == h.id && q.achievedIncrementValue == -1
  {
    UpdateAchieved(h.id, MinusDelta)
  }

  function PlusRequest(h: Habit): (q: CardRequest)
    ensures q.UpdateAchieved? && q.habitId == h.id && q.achievedIncrementValue == 1
  {
    UpdateAchieved(h.id, PlusDelta)
  }

  function GoalRequest(h: Habit, newGoal: int): (q: CardRequest)
    ensures q.UpdateGoal? && q.habitId == h.id && q.updateGoalValue == newGoal
  {
    UpdateGoal(h.id, newGoal)
  }

  /** `currentTracker?.achieved || 0`. */
  function ShownAchieved(h: Habit, now: Period): (n: int)
    ensures CurrentTracker(h, now).None? ==> n == 0
    ensures CurrentTracker(h, now).Some? ==> n == CurrentTracker(h, now).value.achieved
  {
    match CurrentTracker(h, now)
    case None => 0
    case Some(t) => if t.achieved != 0 then t.achieved else 0
  }

  /** `currentTracker?.goal || 0`: the shown goal and the dialog's initial
      new-goal value. */
  function ShownGoal(h: Habit, now: Period): (n: int)
    ensures CurrentTracker(h, now).None? ==> n == 0
    ensures CurrentTracker(h, now).Some? ==> n == CurrentTracker(h, now).value.goal
  {
    match CurrentTracker(h, now)
    case None => 0
    case Some(t) => if t.goal != 0 then t.goal else 0
  }

  /** A habit with no bucket this period shows `0 / 0`, no progress, and both
      buttons disabled. */
  lemma NoBucketView(h: Habit, now: Period)
    requires forall b :: b in h.trackers ==> b.month != now.month || b.year != now.year
    ensures ShownAchieved(h, now) == 0 && ShownGoal(h, now) == 0 && Progress(h, now) == 0.0
    ensures MinusDisabled(h, now, false) && PlusDisabled(h, now, false)
  {
  }
}
