/**
 * The day-streak ratchet of `updateStreak` (src/hooks/useGamification.ts:80-109),
 * as a function from the streak record before an opening to the record after it.
 * The hook's method `UpdateStreak` performs it on the hook state.
 */
module Streak {
  import opened Common
  import opened GamificationTypes
  import opened Days

  /** The streak the hook starts from (useGamification.ts:22-26). */
  const InitialStreak := StreakData(0, 0, None, [])

  predicate NoDuplicates(s: seq<int>) {
    forall i, j :: 0 <= i < j < |s| ==> s[i] != s[j]
  }

  /** The last opening fell on the UTC day just before the day of `now`. */
  predicate ContinuesFromYesterday(s: StreakData, now: int) {
    s.lastOpenedDate.Some? && DayKey(s.lastOpenedDate.value) + 1 == DayKey(now)
  }

  /**
   * One opening at instant `now`. A day already recorded changes nothing;
   * otherwise the day is recorded, the streak grows by one when the last
   * opening was yesterday and restarts at 1 when there was none or it was
   * on any other earlier or later day, and `longest` ratchets up to it.
   */
  function NextStreak(s: StreakData, now: int): (r: StreakData)
    ensures DayKey(now) in s.streakDates ==> r == s
    ensures DayKey(now) !in s.streakDates ==>
      && r.streakDates == s.streakDates + [DayKey(now)]
      && r.lastOpenedDate == Some(now)
      && r.longest == Max(s.longest, r.current)
    ensures DayKey(now) !in s.streakDates && ContinuesFromYesterday(s, now) ==>
      r.current == s.current + 1
    ensures DayKey(now) !in s.streakDates && !ContinuesFromYesterday(s, now) ==>
      r.current == (if s.lastOpenedDate.Some? && DayKey(s.lastOpenedDate.value) == DayKey(now) then s.current else 1)
    ensures r.longest >= s.longest
  {
    var today := DayKey(now);
    var yesterday := DayKey(now - DayMs);
    YesterdayKey(now);
    if today in s.streakDates then s
    else
      var current :=
        if s.lastOpenedDate.Some? then
          var lastDate := DayKey(s.lastOpenedDate.value);
          if lastDate == yesterday then s.current + 1
          else if lastDate != today then 1
          else s.current
        else 1;
      StreakData(current, Max(s.longest, current), Some(now), s.streakDates + [today])
  }

  /**
   * What every streak the hook builds satisfies: no day recorded twice, the
   * day of the last opening recorded, and `0 <= current <= longest`, neither
   * exceeding the number of recorded days.
   */
  predicate StreakValid(s: StreakData) {
    && NoDuplicates(s.streakDates)
    && 0 <= s.current <= s.longest <= |s.streakDates|
    && (s.lastOpenedDate.Some? ==> DayKey(s.lastOpenedDate.value) in s.streakDates && s.current >= 1)
  }

  lemma InitialStreakValid()
    ensures StreakValid(InitialStreak)
  {
  }

  /** The ratchet keeps the streak invariant. */
  lemma NextStreakValid(s: StreakData, now: int)
    requires StreakValid(s)
    ensures StreakValid(NextStreak(s, now))
  {
    var r := NextStreak(s, now);
    if DayKey(now) !in s.streakDates {
      forall i, j | 0 <= i < j < |r.streakDates| ensures r.streakDates[i] != r.streakDates[j] {
        if j == |s.streakDates| {
          assert r.streakDates[i] == s.streakDates[i];
        }
      }
    }
  }

  /**
   * On a valid streak, the branch at line 94 that keeps `current` when the
   * last opening was on the same day as `now` is never taken: that day would
   * already have been recorded.
   */
  lemma SameDayBranchUnreachable(s: StreakData, now: int)
    requires StreakValid(s)
    requires DayKey(now) !in s.streakDates
    ensures NextStreak(s, now).current == if ContinuesFromYesterday(s, now) then s.current + 1 else 1
  {
  }

  /** A second opening on the same UTC day leaves the streak as the first left it. */
  lemma SameDayIdempotent(s: StreakData, first: int, second: int)
    requires DayKey(first) == DayKey(second)
    ensures NextStreak(NextStreak(s, first), second) == NextStreak(s, first)
  {
    var r := NextStreak(s, first);
    if DayKey(first) !in s.streakDates {
      assert r.streakDates[|s.streakDates|] == DayKey(second);
    }
  }

  /** The streak after opening once a day, on `n` consecutive days, from the first streak. */
  function OpenDaily(start: int, n: nat): StreakData {
    if n == 0 then InitialStreak else NextStreak(OpenDaily(start, n - 1), start + (n - 1) * DayMs)
  }

  /**
   * Opening on `n` consecutive days yields a streak of `n`, which is also the
   * longest, and records exactly those days in order.
   */
  lemma {:induction false} ConsecutiveDays(start: int, n: nat)
    requires n >= 1
    ensures OpenDaily(start, n).current == n && OpenDaily(start, n).longest == n
    ensures OpenDaily(start, n).lastOpenedDate == Some(start + (n - 1) * DayMs)
    ensures OpenDaily(start, n).streakDates == seq(n, i => DayKey(start) + i)
  {
    if n == 1 {
      assert OpenDaily(start, 0) == InitialStreak;
    } else {
      ConsecutiveDays(start, n - 1);
      var prev := OpenDaily(start, n - 1);
      var now := start + (n - 1) * DayMs;
      DayKeyShift(start, n - 1);
      DayKeyShift(start, n - 2);
      assert DayKey(now) !in prev.streakDates;
      assert start + (n - 2) * DayMs + DayMs == now;
      assert ContinuesFromYesterday(prev, now);
    }
  }

  /**
   * Missing a day breaks the streak: the next opening restarts it at 1 and
   * `longest` keeps the best streak reached before.
   */
  lemma GapRestarts(s: StreakData, now: int)
    requires StreakValid(s)
    requires DayKey(now) !in s.streakDates
    requires s.lastOpenedDate.Some? && DayKey(s.lastOpenedDate.value) < DayKey(now) - 1
    ensures NextStreak(s, now).current == 1
    ensures NextStreak(s, now).longest == s.longest
  {
  }

  /** 2024-03-01T00:00:00Z in milliseconds. */
  const March1st2024 := 1709251200000

  /**
   * Opening on 1, 2 and 3 March, skipping the 4th and opening on the 5th
   * leaves a current streak of 1 and a longest streak of 3.
   */
  lemma MarchScenario()
    ensures NextStreak(OpenDaily(March1st2024, 3), March1st2024 + 4 * DayMs).current == 1
    ensures NextStreak(OpenDaily(March1st2024, 3), March1st2024 + 4 * DayMs).longest == 3
  {
    ConsecutiveDays(March1st2024, 3);
    DayKeyShift(March1st2024, 4);
    DayKeyShift(March1st2024, 2);
  }
}
