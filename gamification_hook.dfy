/**
 * The `useGamification` hook (src/hooks/useGamification.ts): the event
 * handlers `onBottleCreated` and `onBottleOpened`, the streak update they
 * share, the dismissal of notifications and the streak message.
 *
 * The hook's four React state cells are the fields of `Hook`. A handler reads
 * the cells as they were when it was created (its closure), which here is
 * their value on entry; each setter call is an assignment to the field, so the
 * last write of a cell wins. Storage writes (`saveData`) are recorded in the
 * ghost field `persisted`; loading from storage is not modelled. The clock
 * and the local hour are parameters: one instant `now` serves every reading
 * of the clock within an event.
 */
module GamificationHook {
  import opened Common
  import opened GamificationTypes
  import opened Days
  import opened Streak
  import opened AchievementScan
  import opened BottleTypes
  import opened Decimal

  /** The statistics the hook starts from (useGamification.ts:10-19). */
  const InitialStats := UserStats(0, 0, 0, 0, 0, 0, None, None, 0, 0)

  /**
   * The statistics after a bottle is created at `now`: one more bottle, its
   * attachments added, the longest message so far kept in the field named
   * `averageMessageLength`, and the first-bottle instant written only once.
   */
  function StatsAfterCreated(s: UserStats, bottle: Bottle, now: int): (r: UserStats)
    ensures r.bottlesCreated == s.bottlesCreated + 1
    ensures r.totalAttachments == s.totalAttachments + |bottle.attachments|
    ensures r.averageMessageLength >= s.averageMessageLength && r.averageMessageLength >= |bottle.message|
    ensures r.averageMessageLength == s.averageMessageLength || r.averageMessageLength == |bottle.message|
    ensures s.firstBottleDate.Some? ==> r.firstBottleDate == s.firstBottleDate
    ensures s.firstBottleDate.None? ==> r.firstBottleDate == Some(now)
    ensures r.(bottlesCreated := s.bottlesCreated, firstBottleDate := s.firstBottleDate,
               totalAttachments := s.totalAttachments, averageMessageLength := s.averageMessageLength) == s
  {
    s.(bottlesCreated := s.bottlesCreated + 1,
       firstBottleDate := if s.firstBottleDate.Some? then s.firstBottleDate else Some(now),
       totalAttachments := s.totalAttachments + |bottle.attachments|,
       averageMessageLength := Max(s.averageMessageLength, |bottle.message|))
  }

  /**
   * The statistics after a bottle is opened at `now`, given the streak after
   * the opening: one more opening, the whole days waited since the bottle was
   * created added to the total and to the running maximum, the opening
   * instant recorded, and the streak figures copied.
   */
  function StatsAfterOpened(s: UserStats, bottle: Bottle, now: int, streak: StreakData): (r: UserStats)
    ensures r.bottlesOpened == s.bottlesOpened + 1
    ensures var w := r.totalDaysWaited - s.totalDaysWaited;
      && w * DayMs <= now - bottle.createdAt < w * DayMs + DayMs
      && r.longestWait >= s.longestWait && r.longestWait >= w
      && (r.longestWait == s.longestWait || r.longestWait == w)
    ensures r.lastOpenedDate == Some(now)
    ensures r.currentStreak == streak.current && r.longestStreak == streak.longest
    ensures r.(bottlesOpened := s.bottlesOpened, totalDaysWaited := s.totalDaysWaited, longestWait := s.longestWait,
               lastOpenedDate := s.lastOpenedDate, currentStreak := s.currentStreak, longestStreak := s.longestStreak) == s
  {
    var waitDays := DaysBetween(bottle.createdAt, now);
    s.(bottlesOpened := s.bottlesOpened + 1,
       totalDaysWaited := s.totalDaysWaited + waitDays,
       longestWait := Max(s.longestWait, waitDays),
       lastOpenedDate := Some(now),
       currentStreak := streak.current,
       longestStreak := streak.longest)
  }

  /** Bottle creations, each with its instant, applied in order to the statistics. */
  function StatsAfterCreations(s: UserStats, events: seq<(Bottle, int)>): UserStats
    decreases events
  {
    if events == [] then s else StatsAfterCreations(StatsAfterCreated(s, events[0].0, events[0].1), events[1..])
  }

  /**
   * Over any run of creations the count grows by the number of bottles and
   * the first-bottle instant, once written, never changes; when none was
   * written yet it becomes the instant of the first creation of the run.
   */
  lemma {:induction false} CreationsCountAndFirstDate(s: UserStats, events: seq<(Bottle, int)>)
    ensures StatsAfterCreations(s, events).bottlesCreated == s.bottlesCreated + |events|
    ensures s.firstBottleDate.Some? ==> StatsAfterCreations(s, events).firstBottleDate == s.firstBottleDate
    ensures s.firstBottleDate.None? && events != [] ==>
      StatsAfterCreations(s, events).firstBottleDate == Some(events[0].1)
    decreases events
  {
    if events != [] {
      CreationsCountAndFirstDate(StatsAfterCreated(s, events[0].0, events[0].1), events[1..]);
    }
  }

  /**
   * Threshold exactness: starting from the initial statistics, a locked
   * `bottles-5` entry unlocks on the fifth creation and not before.
   */
  lemma Bottles5OnFifthCreation(a: Achievement, events: seq<(Bottle, int)>, streak: StreakData, now: int)
    requires a.id == Bottles5Id && !a.isUnlocked
    ensures Step(a, StatsAfterCreations(InitialStats, events), streak, now).isUnlocked <==> |events| >= 5
  {
    CreationsCountAndFirstDate(InitialStats, events);
  }

  /**
   * A creation takes no measured quantity back: from any earlier instant,
   * every metric the scan reads is at least what it was.
   */
  lemma CreationDominates(s: UserStats, streak: StreakData, before: int, bottle: Bottle, now: int)
    requires before <= now
    ensures Dominates(s, streak, before, StatsAfterCreated(s, bottle, now), streak, now)
  {
    var r := StatsAfterCreated(s, bottle, now);
    forall m: Metric | MetricValue(m, s, streak, before).Some?
      ensures MetricValue(m, r, streak, now).Some?
      ensures MetricValue(m, r, streak, now).value >= MetricValue(m, s, streak, before).value
    {
      if m == DaysSinceFirstBottle {
        DaysBetweenMonotone(s.firstBottleDate.value, before, now);
      }
    }
  }

  /** An opening takes no measured quantity back either, the streak included. */
  lemma OpeningDominates(s: UserStats, streak: StreakData, before: int, bottle: Bottle, now: int)
    requires before <= now
    ensures var next := NextStreak(streak, now);
      Dominates(s, streak, before, StatsAfterOpened(s, bottle, now, next), next, now)
  {
    var next := NextStreak(streak, now);
    var r := StatsAfterOpened(s, bottle, now, next);
    forall m: Metric | MetricValue(m, s, streak, before).Some?
      ensures MetricValue(m, r, next, now).Some?
      ensures MetricValue(m, r, next, now).value >= MetricValue(m, s, streak, before).value
    {
      if m == DaysSinceFirstBottle {
        DaysBetweenMonotone(s.firstBottleDate.value, before, now);
      }
    }
  }

  /** Whole days since an instant never decrease as the clock moves on. */
  lemma DaysBetweenMonotone(from: int, t1: int, t2: int)
    requires t1 <= t2
    ensures DaysBetween(from, t1) <= DaysBetween(from, t2)
  {
  }

  /**
   * The `media-master` text asks for media on 10 different bottles, but the
   * rule counts attachments: a single first bottle carrying ten attachments
   * unlocks it.
   */
  lemma MediaMasterFromOneBottle(a: Achievement, bottle: Bottle, streak: StreakData, now: int)
    requires a.id == MediaMasterId && !a.isUnlocked && |bottle.attachments| == 10
    ensures StatsAfterCreated(InitialStats, bottle, now).bottlesCreated == 1
    ensures Step(a, StatsAfterCreated(InitialStats, bottle, now), streak, now).isUnlocked
  {
  }

  /**
   * The `storyteller` text asks for a message over 1000 characters, but the
   * rule compares with `>=`: a first message of exactly 1000 characters
   * unlocks it, one of 999 does not.
   */
  lemma StorytellerAtThousand(a: Achievement, bottle: Bottle, streak: StreakData, now: int)
    requires a.id == StorytellerId && !a.isUnlocked
    ensures |bottle.message| == 1000 ==> Step(a, StatsAfterCreated(InitialStats, bottle, now), streak, now).isUnlocked
    ensures |bottle.message| == 999 ==> !Step(a, StatsAfterCreated(InitialStats, bottle, now), streak, now).isUnlocked
  {
  }

  /** `getHours()` in [0, 6): the night-owl window (line 211). */
  predicate IsNightOwlHour(hour: int) {
    hour >= 0 && hour < 6
  }

  /**
   * `getHours()`: the hour of the local day an instant falls in, for a time
   * zone `offsetMs` milliseconds ahead of UTC.
   */
  function LocalHour(ms: int, offsetMs: int): (h: int)
    ensures 0 <= h < 24
    ensures var local := ms + offsetMs;
      h * HourMs <= local - DayKey(local) * DayMs < h * HourMs + HourMs
  {
    ((ms + offsetMs) % DayMs) / HourMs
  }

  /** The night-owl hours are the first six hours after local midnight. */
  lemma NightOwlWindow(ms: int, offsetMs: int)
    ensures var local := ms + offsetMs;
      IsNightOwlHour(LocalHour(ms, offsetMs)) <==> local - DayKey(local) * DayMs < 6 * HourMs
  {
    var h := LocalHour(ms, offsetMs);
    if h >= 6 {
      assert h * HourMs >= 6 * HourMs;
    }
  }

  /** Opened within an hour of its unlock instant, before or after (line 248). */
  predicate IsEarlyBird(now: int, unlockDate: int) {
    Abs(now - unlockDate) <= HourMs
  }

  /**
   * The early-bird window is the two hours centred on the unlock instant,
   * both ends included: as early before the instant as late after it.
   */
  lemma EarlyBirdWindow(now: int, unlockDate: int, d: int)
    ensures IsEarlyBird(now, unlockDate) <==> unlockDate - HourMs <= now <= unlockDate + HourMs
    ensures IsEarlyBird(unlockDate + d, unlockDate) <==> IsEarlyBird(unlockDate - d, unlockDate)
  {
    assert Abs(d) == Abs(-d);
  }

  /**
   * The notification queue after a one-shot check (lines 225-234 and
   * 266-275): when the check fires and the table's first entry with the id
   * is locked, the queue is replaced by that entry marked unlocked at `now`
   * (its progress left as it was); otherwise the queue is kept.
   */
  function OneShotQueue(queue: seq<Achievement>, achs: seq<Achievement>, id: string,
                        fires: bool, now: int): seq<Achievement>
  {
    if OneShotFires(achs, id, fires) then
      var k := FindIndex(achs, id).value;
      [achs[k].(isUnlocked := true, unlockedAt := Some(now))]
    else queue
  }

  /** The one-shot check fires and the table's first entry with the id is still locked. */
  predicate OneShotFires(achs: seq<Achievement>, id: string, fires: bool) {
    fires && FindIndex(achs, id).Some? && !achs[FindIndex(achs, id).value].isUnlocked
  }

  /**
   * The one-shot check fires exactly when its condition holds and the first
   * entry with the id exists and is locked. It then replaces the queue with
   * one notice: that entry marked unlocked at `now`, its progress left as it
   * was. Otherwise the queue is kept.
   */
  lemma OneShotNotice(queue: seq<Achievement>, achs: seq<Achievement>, id: string, fires: bool, now: int)
    ensures OneShotFires(achs, id, fires) <==>
      fires && exists k :: 0 <= k < |achs| && achs[k].id == id && !achs[k].isUnlocked
                          && forall j :: 0 <= j < k ==> achs[j].id != id
    ensures !OneShotFires(achs, id, fires) ==> OneShotQueue(queue, achs, id, fires, now) == queue
    ensures OneShotFires(achs, id, fires) ==>
      var r := OneShotQueue(queue, achs, id, fires, now);
      && |r| == 1 && r[0].id == id && r[0].isUnlocked && r[0].unlockedAt == Some(now)
      && exists k :: 0 <= k < |achs| && !achs[k].isUnlocked
           && r[0] == achs[k].(isUnlocked := true, unlockedAt := Some(now))
  {
    if fires && exists k :: 0 <= k < |achs| && achs[k].id == id && !achs[k].isUnlocked
                          && forall j :: 0 <= j < k ==> achs[j].id != id {
      var k :| 0 <= k < |achs| && achs[k].id == id && !achs[k].isUnlocked
               && forall j :: 0 <= j < k ==> achs[j].id != id;
      assert FindIndex(achs, id) == Some(k);
    }
  }

  /** What `saveData` is handed: statistics, achievement table and streak. */
  datatype Snapshot = Snapshot(stats: UserStats, achievements: seq<Achievement>, streak: StreakData)

  predicate StatsValid(s: UserStats) {
    && s.bottlesCreated >= 0 && s.bottlesOpened >= 0 && s.longestWait >= 0
    && s.totalAttachments >= 0 && s.averageMessageLength >= 0
  }

  /**
   * An achievement entry keeps its catalog definition, carries an unlock
   * instant exactly when it is unlocked, never shows more progress than its
   * maximum, and, as the handlers are written, is never unlocked when the
   * scan has no rule for it.
   */
  predicate EntryValid(a: Achievement, definition: Achievement) {
    && SameDefinition(a, definition)
    && (a.isUnlocked <==> a.unlockedAt.Some?)
    && a.progress <= a.maxProgress
    && (RuleFor(a.id).None? ==> !a.isUnlocked)
  }

  /**
   * A table of definitions the scan can keep valid: every maximum is
   * positive, and every id with a rule has the rule's threshold as its
   * maximum.
   */
  predicate DefinitionsSound(defs: seq<Achievement>) {
    forall i :: 0 <= i < |defs| ==>
      && defs[i].maxProgress > 0
      && (RuleFor(defs[i].id).Some? ==> RuleFor(defs[i].id).value.threshold == defs[i].maxProgress)
  }

  /** Every entry is valid against the definition at its position. */
  predicate AchievementsValid(achs: seq<Achievement>, defs: seq<Achievement>) {
    |achs| == |defs| && forall i :: 0 <= i < |achs| ==> EntryValid(achs[i], defs[i])
  }

  /** The catalog is a sound table of definitions, and valid against itself. */
  lemma CatalogValid()
    ensures DefinitionsSound(Catalog())
    ensures AchievementsValid(Catalog(), Catalog())
  {
    forall i | 0 <= i < |Catalog()|
      ensures Catalog()[i].maxProgress > 0
      ensures RuleFor(Catalog()[i].id).Some? ==> RuleFor(Catalog()[i].id).value.threshold == Catalog()[i].maxProgress
      ensures EntryValid(Catalog()[i], Catalog()[i])
    {
      CatalogRules(i);
    }
  }

  /** The scan keeps every entry valid. */
  lemma ScanKeepsValid(achs: seq<Achievement>, defs: seq<Achievement>,
                       stats: UserStats, streak: StreakData, now: int)
    requires DefinitionsSound(defs) && AchievementsValid(achs, defs)
    ensures AchievementsValid(Scan(achs, stats, streak, now).updated, defs)
  {
    var r := Scan(achs, stats, streak, now).updated;
    forall i | 0 <= i < |r| ensures EntryValid(r[i], defs[i]) {
      assert EntryValid(achs[i], defs[i]);
    }
  }

  /**
   * The hook invariant on the three aggregates: valid statistics, streak and
   * achievement table, and statistics that mirror the streak figures.
   */
  predicate StateValid(stats: UserStats, achs: seq<Achievement>, streak: StreakData, defs: seq<Achievement>) {
    && StatsValid(stats)
    && StreakValid(streak)
    && DefinitionsSound(defs)
    && AchievementsValid(achs, defs)
    && stats.currentStreak == streak.current
    && stats.longestStreak == streak.longest
  }

  /** Creating a bottle keeps the hook invariant. */
  lemma CreatedKeepsValid(stats: UserStats, achs: seq<Achievement>, streak: StreakData, defs: seq<Achievement>,
                          bottle: Bottle, now: int)
    requires StateValid(stats, achs, streak, defs)
    ensures StateValid(StatsAfterCreated(stats, bottle, now),
                       Scan(achs, StatsAfterCreated(stats, bottle, now), streak, now).updated, streak, defs)
  {
    ScanKeepsValid(achs, defs, StatsAfterCreated(stats, bottle, now), streak, now);
  }

  /** Opening a bottle keeps the hook invariant. */
  lemma OpenedKeepsValid(stats: UserStats, achs: seq<Achievement>, streak: StreakData, defs: seq<Achievement>,
                         bottle: Bottle, now: int)
    requires StateValid(stats, achs, streak, defs)
    ensures var next := NextStreak(streak, now);
      var newStats := StatsAfterOpened(stats, bottle, now, next);
      StateValid(newStats, Scan(achs, newStats, next, now).updated, next, defs)
  {
    var next := NextStreak(streak, now);
    NextStreakValid(streak, now);
    ScanKeepsValid(achs, defs, StatsAfterOpened(stats, bottle, now, next), next, now);
  }

  /**
   * After the first creation on a fresh hook, with fewer than ten attachments
   * and a message under a thousand characters, `first-bottle` is the only
   * threshold reached.
   */
  lemma OnlyFirstBottleReached(id: string, bottle: Bottle, now: int)
    requires |bottle.attachments| < 10 && |bottle.message| < 1000
    ensures Reached(id, StatsAfterCreated(InitialStats, bottle, now), InitialStreak, now) <==> id == FirstBottleId
  {
    assert DaysBetween(now, now) == 0;
  }

  /** The table's first entry with the night-owl id is the catalog's night-owl entry. */
  lemma NightOwlFound()
    ensures FindIndex(Catalog(), NightOwlId) == Some(NightOwlIndex)
  {
    CatalogIdsDistinct();
    OneShotEntries();
    FindIndexDistinct(Catalog(), NightOwlIndex);
  }

  /** In a table with distinct ids, `find` locates each entry by its own id. */
  lemma FindIndexDistinct(achs: seq<Achievement>, k: nat)
    requires k < |achs| && DistinctIds(achs)
    ensures FindIndex(achs, achs[k].id) == Some(k)
  {
    var r := FindIndex(achs, achs[k].id);
    assert r.Some?;
  }

  /**
   * The first creation at night on a table of seeded entries with distinct
   * ids that starts with `first-bottle`: the night-owl notice is queued
   * before `first-bottle`, and the night-owl entry is locked in the scan's
   * table.
   */
  lemma NightCreationOnFreshTable(achs: seq<Achievement>, k: nat, bottle: Bottle, now: int, fires: bool)
    requires fires
    requires |achs| > 0 && achs[0].id == FirstBottleId && DistinctIds(achs)
    requires forall i :: 0 <= i < |achs| ==> Seeded(achs[i])
    requires FindIndex(achs, NightOwlId) == Some(k)
    requires |bottle.attachments| < 10 && |bottle.message| < 1000
    ensures var r := Scan(achs, StatsAfterCreated(InitialStats, bottle, now), InitialStreak, now);
      var queue := OneShotQueue([], achs, NightOwlId, fires, now) + r.newlyUnlocked;
      && |queue| == 2 && queue[0].id == NightOwlId && queue[1].id == FirstBottleId
      && r.updated[0].isUnlocked && !r.updated[k].isUnlocked
  {
    var stats := StatsAfterCreated(InitialStats, bottle, now);
    var r := Scan(achs, stats, InitialStreak, now);
    forall i | 0 <= i < |achs| ensures r.updated[i].isUnlocked <==> i == 0 {
      OnlyFirstBottleReached(achs[i].id, bottle, now);
    }
    ScanReportsTransitions(achs, stats, InitialStreak, now);
    TransitionsOfHeadOnly(achs, r.updated);
  }

  /** The seeded catalog is a fresh table in the sense of `NightCreationOnFreshTable`. */
  lemma FreshCatalog()
    ensures var c := Catalog();
      && |c| > 0 && c[0].id == FirstBottleId && DistinctIds(c)
      && (forall i :: 0 <= i < |c| ==> Seeded(c[i]))
      && FindIndex(c, NightOwlId) == Some(NightOwlIndex)
  {
    CatalogIdsDistinct();
    OneShotEntries();
    NightOwlFound();
  }

  /**
   * The first bottle, created at night on a fresh hook: the queue holds the
   * night-owl notice and then `first-bottle`, but only `first-bottle` is
   * unlocked in the table the handler writes last; night-owl stays locked.
   */
  lemma FirstBottleAtNight(bottle: Bottle, now: int, localHour: int)
    requires IsNightOwlHour(localHour)
    requires |bottle.attachments| < 10 && |bottle.message| < 1000
    ensures var r := Scan(Catalog(), StatsAfterCreated(InitialStats, bottle, now), InitialStreak, now);
      var queue := OneShotQueue([], Catalog(), NightOwlId, IsNightOwlHour(localHour), now) + r.newlyUnlocked;
      && |queue| == 2 && queue[0].id == NightOwlId && queue[1].id == FirstBottleId
      && r.updated[0].isUnlocked && !r.updated[NightOwlIndex].isUnlocked
  {
    FreshCatalog();
    NightCreationOnFreshTable(Catalog(), NightOwlIndex, bottle, now, IsNightOwlHour(localHour));
  }

  const StartMessage := "Start your streak by opening a bottle!"
  const GreatStartMessage := "Great start! Keep it going!"
  const MomentumSuffix := " day streak! You're building momentum!"
  const OnFireSuffix := " day streak! You're on fire! \U{1F525}"
  const LegendSuffix := " day streak! You're a legend! \U{1F451}"

  /** `getStreakMessage` for a current streak of `current` days (lines 290-297). */
  function StreakMessage(current: int): (m: string)
    ensures |m| > 0
    ensures current != 0 && current != 1 ==> IntToString(current) <= m
  {
    if current == 0 then StartMessage
    else if current == 1 then GreatStartMessage
    else if current < 7 then IntToString(current) + MomentumSuffix
    else if current < 30 then IntToString(current) + OnFireSuffix
    else IntToString(current) + LegendSuffix
  }

  /**
   * The message bands: 0 and 1 have fixed messages and no other streak gets
   * them; every other streak is reported by its number followed by the text
   * of its band (up to 6, 7 to 29, 30 and over).
   */
  lemma StreakMessageBands(current: int)
    ensures current == 0 <==> StreakMessage(current) == StartMessage
    ensures current == 1 <==> StreakMessage(current) == GreatStartMessage
    ensures current != 0 && current != 1 && current < 7 ==> StreakMessage(current) == IntToString(current) + MomentumSuffix
    ensures 7 <= current < 30 ==> StreakMessage(current) == IntToString(current) + OnFireSuffix
    ensures 30 <= current ==> StreakMessage(current) == IntToString(current) + LegendSuffix
  {
    var m := StreakMessage(current);
    assert |StartMessage| == 38 && |GreatStartMessage| == 27;
    if current != 0 && current != 1 && current < 7 {
      assert |MomentumSuffix| == 38;
    } else if current >= 7 {
      assert StartMessage[37] == '!' && GreatStartMessage[26] == '!';
      assert m[|m| - 1] != '!';
    }
  }

  /** The text after the number in the message for `current`, when it is neither 0 nor 1. */
  function BandSuffix(current: int): string {
    if current < 7 then MomentumSuffix else if current < 30 then OnFireSuffix else LegendSuffix
  }

  /** Equal messages for two streaks other than 0 and 1 come from the same band. */
  lemma SameBand(a: int, b: int)
    requires a != 0 && a != 1 && b != 0 && b != 1
    requires StreakMessage(a) == StreakMessage(b)
    ensures BandSuffix(a) == BandSuffix(b)
  {
    StreakMessageBands(a);
    StreakMessageBands(b);
    var m := StreakMessage(a);
    var sa, sb := BandSuffix(a), BandSuffix(b);
    assert m == IntToString(a) + sa && m == IntToString(b) + sb;
    assert m[|m| - 1] == sa[|sa| - 1] && m[|m| - 1] == sb[|sb| - 1];
    assert MomentumSuffix[|MomentumSuffix| - 1] == '!';
    assert OnFireSuffix[|OnFireSuffix| - 1] == '\U{1F525}';
    assert LegendSuffix[|LegendSuffix| - 1] == '\U{1F451}';
  }

  /** The message tells the streak exactly: different streaks give different messages. */
  lemma StreakMessageInjective(a: int, b: int)
    requires StreakMessage(a) == StreakMessage(b)
    ensures a == b
  {
    StreakMessageBands(a);
    StreakMessageBands(b);
    if a != 0 && a != 1 && b != 0 && b != 1 {
      SameBand(a, b);
      var m := StreakMessage(a);
      var suffix := BandSuffix(a);
      assert m == IntToString(a) + suffix && m == IntToString(b) + suffix;
      assert IntToString(a) == m[..|m| - |suffix|] == IntToString(b);
      IntToStringInjective(a, b);
    }
  }

  class Hook {
    var userStats: UserStats
    var achievements: seq<Achievement>
    var streakData: StreakData
    var newAchievements: seq<Achievement>
    ghost var persisted: Option<Snapshot>
    /** The definitions the table was seeded from; every entry keeps its own. */
    ghost const definitions: seq<Achievement>

    ghost predicate Valid()
      reads this
    {
      StateValid(userStats, achievements, streakData, definitions)
    }

    /** The initial state of the four cells (lines 10-27). */
    constructor ()
      ensures Valid()
      ensures userStats == InitialStats && achievements == Catalog() && definitions == Catalog()
      ensures streakData == InitialStreak && newAchievements == []
      ensures persisted == None
    {
      definitions := Catalog();
      userStats := InitialStats;
      achievements := Catalog();
      streakData := InitialStreak;
      newAchievements := [];
      persisted := None;
      CatalogValid();
    }

    /**
     * `updateStreak` (lines 80-109): a shallow copy of the streak is updated
     * field by field. Its `push` appends to the day array the copy shares with
     * the state cell, and the setter then replaces the cell with the copy.
     */
    method UpdateStreak(now: int) returns (s: StreakData)
      modifies this`streakData
      ensures s == NextStreak(old(streakData), now)
      ensures streakData == s
    {
      var today := DayKey(now);
      var yesterday := DayKey(now - DayMs);
      var newStreak := streakData;
      if today !in newStreak.streakDates {
        newStreak := newStreak.(streakDates := newStreak.streakDates + [today]);
        streakData := streakData.(streakDates := newStreak.streakDates);
        if newStreak.lastOpenedDate.Some? {
          var lastDate := DayKey(newStreak.lastOpenedDate.value);
          if lastDate == yesterday {
            newStreak := newStreak.(current := newStreak.current + 1);
          } else if lastDate != today {
            newStreak := newStreak.(current := 1);
          }
        } else {
          newStreak := newStreak.(current := 1);
        }
        newStreak := newStreak.(longest := Max(newStreak.longest, newStreak.current));
        newStreak := newStreak.(lastOpenedDate := Some(now));
        streakData := newStreak;
      }
      s := newStreak;
    }

    /**
     * `checkAchievements` (lines 111-207): maps the table the handler closed
     * over, writes the result to the achievements cell, and returns the
     * entries it unlocked.
     */
    method CheckAchievements(closure: seq<Achievement>, stats: UserStats, streak: StreakData, now: int)
      returns (newlyUnlocked: seq<Achievement>)
      modifies this`achievements
      ensures achievements == Scan(closure, stats, streak, now).updated
      ensures newlyUnlocked == Scan(closure, stats, streak, now).newlyUnlocked
    {
      var result := Scan(closure, stats, streak, now);
      achievements := result.updated;
      newlyUnlocked := result.newlyUnlocked;
    }

    /**
     * The one-shot check of lines 224-235 and 265-276 for the achievement
     * `id`, on the table the handler closed over: when it fires and the first
     * entry with the id is locked, the achievements cell is set to the table
     * with that entry unlocked, and the notification queue is replaced by it.
     */
    method UnlockOneShot(closure: seq<Achievement>, id: string, fires: bool, now: int)
      modifies this`achievements, this`newAchievements
      ensures newAchievements == OneShotQueue(old(newAchievements), closure, id, fires, now)
      ensures achievements == if OneShotFires(closure, id, fires) then UnlockById(closure, id, now)
                              else old(achievements)
    {
      if fires {
        var found := FindIndex(closure, id);
        if found.Some? && !closure[found.value].isUnlocked {
          achievements := UnlockById(closure, id, now);
          newAchievements := [closure[found.value].(isUnlocked := true, unlockedAt := Some(now))];
        }
      }
    }

    /**
     * The functional update of lines 238-240 and 279-281: the scan's unlocks,
     * if any, are appended to the notification queue.
     */
    method QueueUnlocks(newlyUnlocked: seq<Achievement>)
      modifies this`newAchievements
      ensures newAchievements == old(newAchievements) + newlyUnlocked
    {
      if |newlyUnlocked| > 0 {
        newAchievements := newAchievements + newlyUnlocked;
      }
    }

    /**
     * The steps both handlers end with (lines 223-242 and 264-283): the
     * one-shot check on the table of entry, the scan of that same table,
     * the scan's unlocks appended to the queue, and the new statistics and
     * streak handed to storage with the table of entry.
     */
    method FinishEvent(closure: seq<Achievement>, stats: UserStats, streak: StreakData,
                       oneShotId: string, fires: bool, now: int)
      modifies this`achievements, this`newAchievements, this`persisted
      ensures achievements == Scan(closure, stats, streak, now).updated
      ensures newAchievements ==
        OneShotQueue(old(newAchievements), closure, oneShotId, fires, now)
        + Scan(closure, stats, streak, now).newlyUnlocked
      ensures persisted == Some(Snapshot(stats, closure, streak))
    {
      UnlockOneShot(closure, oneShotId, fires, now);
      var newlyUnlocked := CheckAchievements(closure, stats, streak, now);
      QueueUnlocks(newlyUnlocked);
      persisted := Some(Snapshot(stats, closure, streak));
    }

    /**
     * `onBottleCreated` (lines 209-243), at instant `now` and local hour
     * `localHour`, which stands for `LocalHour(now, offsetMs)` with the
     * device's offset from UTC (`getHours()` at line 211). The achievements cell ends as the scan of the table on
     * entry, so the night-owl write is overwritten; the notification queue is
     * the night-owl notice (or the old queue) followed by the scan's unlocks;
     * storage receives the new statistics with the table and streak of entry.
     */
    method OnBottleCreated(bottle: Bottle, now: int, localHour: int)
      requires 0 <= localHour < 24
      modifies this
      ensures userStats == StatsAfterCreated(old(userStats), bottle, now)
      ensures streakData == old(streakData)
      ensures achievements == Scan(old(achievements), userStats, old(streakData), now).updated
      ensures newAchievements ==
        OneShotQueue(old(newAchievements), old(achievements), NightOwlId, IsNightOwlHour(localHour), now)
        + Scan(old(achievements), userStats, old(streakData), now).newlyUnlocked
      ensures persisted == Some(Snapshot(userStats, old(achievements), old(streakData)))
      ensures old(Valid()) ==> Valid()
    {
      var achievementsAtEntry := achievements;
      var streakAtEntry := streakData;
      var isNightOwl := IsNightOwlHour(localHour);

      var newStats := userStats.(
        bottlesCreated := userStats.bottlesCreated + 1,
        firstBottleDate := if userStats.firstBottleDate.Some? then userStats.firstBottleDate else Some(now),
        totalAttachments := userStats.totalAttachments + |bottle.attachments|,
        averageMessageLength := Max(userStats.averageMessageLength, |bottle.message|));
      assert newStats == StatsAfterCreated(userStats, bottle, now);
      userStats := newStats;

      FinishEvent(achievementsAtEntry, newStats, streakAtEntry, NightOwlId, isNightOwl, now);
      if old(Valid()) {
        CreatedKeepsValid(old(userStats), achievementsAtEntry, streakAtEntry, definitions, bottle, now);
      }
    }

    /**
     * `onBottleOpened` (lines 245-284), at instant `now`. The streak cell is
     * ratcheted, the statistics record the wait and copy the new streak, the
     * achievements cell ends as the scan of the table on entry (so the
     * early-bird write is overwritten), and storage receives the new
     * statistics and streak with the table of entry.
     */
    method OnBottleOpened(bottle: Bottle, now: int)
      modifies this
      ensures streakData == NextStreak(old(streakData), now)
      ensures userStats == StatsAfterOpened(old(userStats), bottle, now, streakData)
      ensures achievements == Scan(old(achievements), userStats, streakData, now).updated
      ensures newAchievements ==
        OneShotQueue(old(newAchievements), old(achievements), EarlyBirdId, IsEarlyBird(now, bottle.unlockDate), now)
        + Scan(old(achievements), userStats, streakData, now).newlyUnlocked
      ensures persisted == Some(Snapshot(userStats, old(achievements), streakData))
      ensures old(Valid()) ==> Valid()
    {
      var achievementsAtEntry := achievements;
      var waitDays := DaysBetween(bottle.createdAt, now);
      var isEarlyBird := IsEarlyBird(now, bottle.unlockDate);

      var newStats := userStats.(
        bottlesOpened := userStats.bottlesOpened + 1,
        totalDaysWaited := userStats.totalDaysWaited + waitDays,
        longestWait := Max(userStats.longestWait, waitDays),
        lastOpenedDate := Some(now));

      ghost var streakAtEntry := streakData;
      var newStreak := UpdateStreak(now);
      newStats := newStats.(currentStreak := newStreak.current, longestStreak := newStreak.longest);
      assert newStats == StatsAfterOpened(old(userStats), bottle, now, newStreak);
      userStats := newStats;

      FinishEvent(achievementsAtEntry, newStats, newStreak, EarlyBirdId, isEarlyBird, now);
      if old(Valid()) {
        OpenedKeepsValid(old(userStats), achievementsAtEntry, streakAtEntry, definitions, bottle, now);
      }
    }

    /** `dismissNewAchievements` (lines 286-288): the notification queue is emptied. */
    method DismissNewAchievements()
      modifies this`newAchievements
      ensures newAchievements == []
    {
      newAchievements := [];
    }

    /** `getStreakMessage` on the current streak cell. */
    function GetStreakMessage(): string
      reads this
    {
      StreakMessage(streakData.current)
    }
  }
}
