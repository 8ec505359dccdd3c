/**
 * The achievement threshold scan `checkAchievements`
 * (src/hooks/useGamification.ts:111-207) and the table helpers the two event
 * handlers use for their one-shot unlocks (`find` and `map` by id).
 */
module AchievementScan {
  import opened Common
  import opened GamificationTypes
  import opened Days

  /** The quantity an achievement is measured on. */
  datatype Metric =
    | BottlesCreated
    | BottlesOpened
    | LongestWait
    | LongestStreak
    | TotalAttachments
    | LongestMessage
    | DaysSinceFirstBottle

  datatype Rule = Rule(metric: Metric, threshold: int)

  /**
   * The `switch` on the achievement id: what it is measured on and the
   * threshold it is compared with. `early-bird`, `night-owl` and any id the
   * switch does not name (`variety-pack` among them) have no rule.
   */
  /** The ids the `switch` names: every catalog id except the three one-shot and unwired ones. */
  const RuledIds: set<string> := {
    FirstBottleId, FirstUnlockId, Bottles5Id, Bottles25Id, Bottles100Id,
    Wait30Id, Wait100Id, Wait365Id, Streak3Id, Streak7Id, Streak30Id,
    MediaMasterId, StorytellerId, AnniversaryId }

  function RuleFor(id: string): (r: Option<Rule>)
    ensures r.Some? <==> id in RuledIds
    ensures r.Some? ==> r.value.threshold >= 1
    ensures r.Some? && r.value.metric == DaysSinceFirstBottle <==> id == AnniversaryId
  {
    if id == FirstBottleId then Some(Rule(BottlesCreated, 1))
    else if id == FirstUnlockId then Some(Rule(BottlesOpened, 1))
    else if id == Bottles5Id then Some(Rule(BottlesCreated, 5))
    else if id == Bottles25Id then Some(Rule(BottlesCreated, 25))
    else if id == Bottles100Id then Some(Rule(BottlesCreated, 100))
    else if id == Wait30Id then Some(Rule(LongestWait, 30))
    else if id == Wait100Id then Some(Rule(LongestWait, 100))
    else if id == Wait365Id then Some(Rule(LongestWait, 365))
    else if id == Streak3Id then Some(Rule(LongestStreak, 3))
    else if id == Streak7Id then Some(Rule(LongestStreak, 7))
    else if id == Streak30Id then Some(Rule(LongestStreak, 30))
    else if id == MediaMasterId then Some(Rule(TotalAttachments, 10))
    else if id == StorytellerId then Some(Rule(LongestMessage, 1000))
    else if id == AnniversaryId then Some(Rule(DaysSinceFirstBottle, 365))
    else None
  }

  /**
   * The current value of a metric. The days since the first bottle are only
   * known once a first bottle exists; the scan reads the clock for them, here
   * the instant `now` of the event.
   */
  function MetricValue(m: Metric, stats: UserStats, streak: StreakData, now: int): Option<int> {
    match m
    case BottlesCreated => Some(stats.bottlesCreated)
    case BottlesOpened => Some(stats.bottlesOpened)
    case LongestWait => Some(stats.longestWait)
    case LongestStreak => Some(streak.longest)
    case TotalAttachments => Some(stats.totalAttachments)
    case LongestMessage => Some(stats.averageMessageLength)
    case DaysSinceFirstBottle =>
      if stats.firstBottleDate.Some? then Some(DaysBetween(stats.firstBottleDate.value, now)) else None
  }

  /** The measured progress of an achievement, when the scan can measure it. */
  function Measure(id: string, stats: UserStats, streak: StreakData, now: int): (r: Option<int>)
    ensures r.None? <==> id !in RuledIds || (id == AnniversaryId && stats.firstBottleDate.None?)
  {
    match RuleFor(id)
    case None => None
    case Some(rule) => MetricValue(rule.metric, stats, streak, now)
  }

  /** The measured progress of `id` has reached its threshold. */
  predicate Reached(id: string, stats: UserStats, streak: StreakData, now: int) {
    RuleFor(id).Some? && Measure(id, stats, streak, now).Some? &&
    Measure(id, stats, streak, now).value >= RuleFor(id).value.threshold
  }

  /**
   * One state of the measured quantities is at least another: every metric
   * known in the first is known in the second with a value no smaller.
   */
  predicate Dominates(stats: UserStats, streak: StreakData, now: int,
                      stats2: UserStats, streak2: StreakData, now2: int) {
    forall m: Metric :: MetricValue(m, stats, streak, now).Some? ==>
      MetricValue(m, stats2, streak2, now2).Some? &&
      MetricValue(m, stats2, streak2, now2).value >= MetricValue(m, stats, streak, now).value
  }

  /**
   * Thresholds are one-way: an id whose threshold is reached stays reached
   * once every measured quantity has grown or stayed put.
   */
  lemma ReachedMonotone(id: string, stats: UserStats, streak: StreakData, now: int,
                        stats2: UserStats, streak2: StreakData, now2: int)
    requires Dominates(stats, streak, now, stats2, streak2, now2)
    requires Reached(id, stats, streak, now)
    ensures Reached(id, stats2, streak2, now2)
  {
    var m := RuleFor(id).value.metric;
    assert MetricValue(m, stats, streak, now).Some?;
  }

  /**
   * The scan of one achievement (lines 115-202). An unlocked one is returned
   * as it is; a locked one unlocks when its measure reaches the threshold,
   * and otherwise takes the measure as its progress.
   */
  function Step(a: Achievement, stats: UserStats, streak: StreakData, now: int): (r: Achievement)
    ensures SameDefinition(r, a)
    ensures a.isUnlocked ==> r == a
    ensures !a.isUnlocked ==> (r.isUnlocked <==> Reached(a.id, stats, streak, now))
    ensures !a.isUnlocked && r.isUnlocked ==>
      r.unlockedAt == Some(now) && (a.maxProgress != 0 ==> r.progress == a.maxProgress)
    ensures !r.isUnlocked ==> r.unlockedAt == a.unlockedAt
    ensures Measure(a.id, stats, streak, now).None? ==> r == a
  {
    if a.isUnlocked then a
    else
      var newProgress := match Measure(a.id, stats, streak, now)
        case Some(v) => v
        case None => a.progress;
      var shouldUnlock := Reached(a.id, stats, streak, now);
      if shouldUnlock then
        a.(isUnlocked := true, unlockedAt := Some(now),
           progress := if a.maxProgress != 0 then a.maxProgress else newProgress)
      else
        a.(progress := newProgress)
  }

  datatype ScanResult = ScanResult(updated: seq<Achievement>, newlyUnlocked: seq<Achievement>)

  /**
   * `checkAchievements` as a value: the table mapped through `Step`, and the
   * entries unlocked on the way, in table order.
   */
  function Scan(achs: seq<Achievement>, stats: UserStats, streak: StreakData, now: int): (r: ScanResult)
    ensures |r.updated| == |achs|
    ensures forall i :: 0 <= i < |achs| ==> r.updated[i] == Step(achs[i], stats, streak, now)
  {
    if achs == [] then ScanResult([], [])
    else
      var head := Step(achs[0], stats, streak, now);
      var rest := Scan(achs[1..], stats, streak, now);
      ScanResult([head] + rest.updated,
                 (if !achs[0].isUnlocked && head.isUnlocked then [head] else []) + rest.newlyUnlocked)
  }

  /** The entries of `after` whose counterpart in `before` was locked and which are unlocked. */
  function Transitions(before: seq<Achievement>, after: seq<Achievement>): seq<Achievement>
    requires |before| == |after|
  {
    if before == [] then []
    else
      (if !before[0].isUnlocked && after[0].isUnlocked then [after[0]] else [])
      + Transitions(before[1..], after[1..])
  }

  function LockedCount(achs: seq<Achievement>): nat {
    if achs == [] then 0 else (if achs[0].isUnlocked then 0 else 1) + LockedCount(achs[1..])
  }

  /** The notifications of a scan are exactly the entries it unlocked, in table order. */
  lemma {:induction false} ScanReportsTransitions(achs: seq<Achievement>, stats: UserStats, streak: StreakData, now: int)
    ensures Scan(achs, stats, streak, now).newlyUnlocked == Transitions(achs, Scan(achs, stats, streak, now).updated)
  {
    if achs != [] {
      ScanReportsTransitions(achs[1..], stats, streak, now);
      assert Scan(achs, stats, streak, now).updated[1..] == Scan(achs[1..], stats, streak, now).updated;
    }
  }

  /** Where only the first entry changes from locked to unlocked, it is the only transition. */
  lemma {:induction false} TransitionsOfHeadOnly(before: seq<Achievement>, after: seq<Achievement>)
    requires |before| == |after| > 0
    requires forall i :: 1 <= i < |before| ==> before[i].isUnlocked || !after[i].isUnlocked
    ensures Transitions(before, after) ==
      if !before[0].isUnlocked && after[0].isUnlocked then [after[0]] else []
  {
    if |before| > 1 {
      TransitionsOfHeadOnly(before[1..], after[1..]);
      assert !(!before[1].isUnlocked && after[1].isUnlocked);
    }
  }

  /** Every entry a scan unlocks leaves the locked count: nothing is counted twice or lost. */
  lemma {:induction false} ScanUnlockCount(achs: seq<Achievement>, stats: UserStats, streak: StreakData, now: int)
    ensures LockedCount(Scan(achs, stats, streak, now).updated) + |Scan(achs, stats, streak, now).newlyUnlocked|
            == LockedCount(achs)
  {
    if achs != [] {
      ScanUnlockCount(achs[1..], stats, streak, now);
      assert Scan(achs, stats, streak, now).updated[1..] == Scan(achs[1..], stats, streak, now).updated;
    }
  }

  /** Each notification is an entry of the new table that was locked in the old one, unlocked at `now`. */
  lemma {:induction false} NewlyUnlockedWereLocked(achs: seq<Achievement>, stats: UserStats, streak: StreakData, now: int, x: Achievement)
    requires x in Scan(achs, stats, streak, now).newlyUnlocked
    ensures exists i :: 0 <= i < |achs| && !achs[i].isUnlocked && x == Scan(achs, stats, streak, now).updated[i]
    ensures x.isUnlocked && x.unlockedAt == Some(now)
  {
    var head := Step(achs[0], stats, streak, now);
    var rest := Scan(achs[1..], stats, streak, now);
    if !achs[0].isUnlocked && head.isUnlocked && x == head {
      assert Scan(achs, stats, streak, now).updated[0] == head;
    } else {
      assert x in rest.newlyUnlocked;
      NewlyUnlockedWereLocked(achs[1..], stats, streak, now, x);
      var j :| 0 <= j < |achs[1..]| && !achs[1..][j].isUnlocked && x == rest.updated[j];
      assert Scan(achs, stats, streak, now).updated[j + 1] == x;
    }
  }

  /** The scan never locks an entry again and never touches an unlocked one. */
  lemma ScanMonotone(achs: seq<Achievement>, stats: UserStats, streak: StreakData, now: int, i: int)
    requires 0 <= i < |achs| && achs[i].isUnlocked
    ensures Scan(achs, stats, streak, now).updated[i] == achs[i]
  {
  }

  /**
   * The rules of the catalog: every entry but `variety-pack`, `early-bird`
   * and `night-owl` has one, and its threshold is the entry's `maxProgress`.
   */
  lemma CatalogRules(i: int)
    requires 0 <= i < |Catalog()|
    ensures RuleFor(Catalog()[i].id).None? <==> i in {VarietyPackIndex, EarlyBirdIndex, NightOwlIndex}
    ensures RuleFor(Catalog()[i].id).Some? ==> RuleFor(Catalog()[i].id).value.threshold == Catalog()[i].maxProgress
  {
    CatalogFingerprintsAt(i);
  }

  /**
   * For an entry defined as in the catalog and measurable now, the threshold
   * rule reads: it unlocks exactly when the measure reaches its `maxProgress`,
   * and its progress becomes `maxProgress` on unlock and the measure otherwise.
   */
  lemma CounterThreshold(a: Achievement, i: int, stats: UserStats, streak: StreakData, now: int)
    requires 0 <= i < |Catalog()| && SameDefinition(a, Catalog()[i]) && !a.isUnlocked
    requires Measure(a.id, stats, streak, now).Some?
    ensures var v := Measure(a.id, stats, streak, now).value;
      && (Step(a, stats, streak, now).isUnlocked <==> v >= a.maxProgress)
      && Step(a, stats, streak, now).progress == (if v >= a.maxProgress then a.maxProgress else v)
  {
    CatalogRules(i);
  }

  /**
   * The index of the first entry with the given id: `find` by id
   * (useGamification.ts:225 and :266).
   */
  function FindIndex(achs: seq<Achievement>, id: string): (r: Option<nat>)
    ensures r.Some? ==> r.value < |achs| && achs[r.value].id == id
    ensures r.Some? ==> forall j :: 0 <= j < r.value ==> achs[j].id != id
    ensures r.None? ==> forall j :: 0 <= j < |achs| ==> achs[j].id != id
  {
    if achs == [] then None
    else if achs[0].id == id then Some(0)
    else match FindIndex(achs[1..], id)
      case None => None
      case Some(k) => Some(k + 1)
  }

  /**
   * The one-shot unlock map of lines 227-231 and 268-272: every entry with
   * the id is unlocked at `now` with progress 1; the others are kept.
   */
  function UnlockById(achs: seq<Achievement>, id: string, now: int): (r: seq<Achievement>)
    ensures |r| == |achs|
    ensures forall i :: 0 <= i < |achs| ==>
      r[i] == if achs[i].id == id then achs[i].(isUnlocked := true, unlockedAt := Some(now), progress := 1) else achs[i]
  {
    if achs == [] then []
    else
      [if achs[0].id == id then achs[0].(isUnlocked := true, unlockedAt := Some(now), progress := 1) else achs[0]]
      + UnlockById(achs[1..], id, now)
  }

  /**
   * As written, the handlers write the one-shot unlock (lines 232 and 273) and
   * then the scan's result (line 205), computed from the table as it was before
   * the event. The scan has no rule for the one-shot id, so the entry the first
   * write unlocked is locked again by the second.
   */
  lemma OneShotUnlockOverwritten(achs: seq<Achievement>, id: string, k: int,
                                 stats: UserStats, streak: StreakData, now: int)
    requires RuleFor(id).None?
    requires 0 <= k < |achs| && achs[k].id == id && !achs[k].isUnlocked
    ensures UnlockById(achs, id, now)[k].isUnlocked
    ensures !Scan(achs, stats, streak, now).updated[k].isUnlocked
  {
  }

  /** The table after a one-shot unlock that fires on an entry still locked. */
  function WithOneShot(achs: seq<Achievement>, id: string, fires: bool, now: int): seq<Achievement> {
    match FindIndex(achs, id)
    case Some(k) => if fires && !achs[k].isUnlocked then UnlockById(achs, id, now) else achs
    case None => achs
  }

  /**
   * The evidently intended outcome: the scan runs over the table that already
   * holds the one-shot unlock. The one-shot entry then stays unlocked with
   * the event's instant, and the scan does not report it a second time.
   */
  lemma IntendedOneShotPersists(achs: seq<Achievement>, id: string, k: int,
                                stats: UserStats, streak: StreakData, now: int)
    requires RuleFor(id).None?
    requires FindIndex(achs, id) == Some(k) && !achs[k].isUnlocked
    ensures var r := Scan(WithOneShot(achs, id, true, now), stats, streak, now);
      && r.updated[k].isUnlocked && r.updated[k].unlockedAt == Some(now)
      && forall x :: x in r.newlyUnlocked ==> x.id != id
  {
    var base := WithOneShot(achs, id, true, now);
    var r := Scan(base, stats, streak, now);
    forall x | x in r.newlyUnlocked ensures x.id != id {
      NewlyUnlockedWereLocked(base, stats, streak, now, x);
    }
  }
}
