# Message in a Bottle: the gamification engine and the bottle store, in Dafny

Message in a Bottle is a browser app for writing time-capsule messages
("bottles") that stay locked until their unlock date. This project models
its logic core and proves properties of the model:

- **The gamification engine** (`src/hooks/useGamification.ts`,
  `src/types/Gamification.ts`). It covers the 17-entry achievement catalog,
  the daily-opening streak ratchet `updateStreak`, the threshold scan
  `checkAchievements`, and the two event handlers `onBottleCreated` and
  `onBottleOpened` with their one-shot `night-owl` and `early-bird` checks.
  It also covers `dismissNewAchievements` and `getStreakMessage`.
- **The bottle store** (`src/hooks/useBottles.ts`). It covers add, delete,
  unlock, the periodic refresh that writes only when a flag changed, the
  reload that recomputes every flag from the clock, and the save rule: the
  in-memory list changes only when the storage write succeeded.
- **The attachment icon** `getFileTypeIcon` (`src/utils/fileUtils.ts`).

How the model is laid out:

- Each React hook is a `class` whose fields are its state cells.
  - `GamificationHook.Hook` has `userStats`, `achievements`, `streakData` and
    `newAchievements`, plus a ghost `persisted` field for what was last handed
    to storage and a ghost `definitions` constant, the catalog the table was
    seeded from, which the hook invariant checks every entry against.
  - `BottleStore.Store` has `bottles` and `storage`.
- A handler reads the cells as they were when it was called (its closure),
  and each `set…` call is an assignment to a field. The handler methods say
  so in their `ensures` through `old(…)`.
- The pure parts are functions with lemmas beside them. These include the
  streak step `Streak.NextStreak`, the scan `AchievementScan.Scan`, the
  statistic updates and the list maps of the bottle store.

Time is modelled as follows:

- An instant is an integer number of milliseconds since the epoch.
- A calendar day is `Days.DayKey(ms) = ms / 86400000`, the UTC day that the
  source's `toISOString().split('T')[0]` names.
- The clock reading `new Date()` is the parameter `now`. The local hour that
  `getHours()` returns is the parameter `localHour`.
- Whether a `localStorage` write succeeds is the parameter `writeOk`.

Modules:

| file | module | models |
|---|---|---|
| `common.dfy` | `Common` | `Option`, `Math.max`, `Math.abs` |
| `gamification_types.dfy` | `GamificationTypes` | records and the catalog of `src/types/Gamification.ts` |
| `days.dfy` | `Days` | day keys and whole-day differences |
| `streak.dfy` | `Streak` | `updateStreak` as a function, and the streak invariant |
| `achievement_scan.dfy` | `AchievementScan` | `checkAchievements` as a function, and the one-shot unlock by id |
| `bottle_types.dfy` | `BottleTypes` | records of `src/types/Bottle.ts` |
| `decimal.dfy` | `Decimal` | decimal rendering of the streak count in a message |
| `gamification_hook.dfy` | `GamificationHook` | statistic updates, the hook invariant, streak messages, the `Hook` class |
| `bottle_store.dfy` | `BottleStore` | list operations of `useBottles` and the `Store` class |
| `file_utils.dfy` | `FileUtils` | `getFileTypeIcon` |

Facts about the code that the model keeps:

- The catalog has 17 entries.
- Day keys are UTC days, because `toISOString` renders in UTC. The
  night-owl check alone uses the local hour.
- A one-shot unlock sets `progress` to 1. For both one-shot entries this
  equals `maxProgress`.
- The bottle store keeps its in-memory list unchanged when a storage write
  fails. The gamification hook updates its cells whatever happens to the
  write.
- Both gamification handlers hand storage the achievement table from
  entry, not the new one (`src/hooks/useGamification.ts:242` and `:283`
  pass the closure's `achievements`), so the stored table lags one event
  behind the cell. The handler contracts state this through `persisted`.
- The night-owl check reads the device's local hour; `LocalHour` models
  `getHours()` for a fixed offset from UTC, and the creation handler takes
  that hour as its `localHour` argument.
- Two catalog descriptions promise more than their rules check:
  - `media-master` says "Attach media to 10 different bottles"
    (`src/types/Gamification.ts:154`), but the rule counts attachments, so
    one bottle with ten attachments unlocks it (`MediaMasterFromOneBottle`).
  - `storyteller` says "over 1000 characters" (`:164`), but the rule is
    `>= 1000`, so a message of exactly 1000 characters unlocks it
    (`StorytellerAtThousand`).

  The model follows the rules. The code alone does not say whether the
  text or the rule is the intended one.

## Model

| member | source | states |
|---|---|---|
| GamificationTypes.Catalog | src/types/Gamification.ts:33-212 | the catalog has 17 entries and each starts locked, without an unlock instant, at progress 0, with a positive `maxProgress` |
| GamificationTypes.CatalogIdsDistinct | src/types/Gamification.ts:33-212 | no two catalog entries share an id |
| GamificationTypes.OneShotEntries | src/types/Gamification.ts:172-203 | where `variety-pack`, `early-bird` and `night-owl` sit in the catalog; both one-shot entries have `maxProgress` 1 |
| Days.DayKey | src/hooks/useGamification.ts:81 | the day key is the whole UTC day containing the instant (floor division) |
| Days.DaysBetween | src/hooks/useGamification.ts:247 | the whole days waited, floored, between two instants |
| Days.DayKeyShift | src/hooks/useGamification.ts:82 | moving an instant by n days moves its day key by n |
| Days.YesterdayKey | src/hooks/useGamification.ts:82 | the instant 24 hours earlier lies on the previous day key |
| Streak.NextStreak | src/hooks/useGamification.ts:80-109 | if today is recorded, the streak is unchanged. Otherwise today is appended, the opening instant is recorded, and `current` grows by one after yesterday's opening or restarts at 1. `longest` is the maximum of the old `longest` and the new `current`, so it never shrinks |
| Streak.InitialStreakValid | src/hooks/useGamification.ts:22-26 | the initial streak satisfies the streak invariant: dates are distinct, 0 <= current <= longest <= number of dates, and the last opening's day is recorded |
| Streak.NextStreakValid | src/hooks/useGamification.ts:80-109 | every streak update keeps the streak invariant |
| Streak.SameDayBranchUnreachable | src/hooks/useGamification.ts:94-96 | on a valid streak, the branch that keeps `current` for a same-day opening is never taken: the new `current` is the old one plus 1 after yesterday's opening, and 1 otherwise |
| Streak.SameDayIdempotent | src/hooks/useGamification.ts:86 | a second opening on the same UTC day changes nothing |
| Streak.ConsecutiveDays | src/hooks/useGamification.ts:80-109 | opening once a day on n consecutive days from a fresh streak gives current = longest = n, records exactly those n days in order, and records the last instant |
| Streak.GapRestarts | src/hooks/useGamification.ts:94-96 | after a missed day, the next opening restarts `current` at 1 and keeps `longest` |
| Streak.MarchScenario | src/hooks/useGamification.ts:80-109 | openings on 1, 2, 3 and 5 March 2024 leave current 1 and longest 3 |
| AchievementScan.Step | src/hooks/useGamification.ts:114-202 | an unlocked entry is returned unchanged. A locked entry unlocks exactly when its measure reaches its rule's threshold; it is then stamped `now`, and its progress becomes `maxProgress` if that is nonzero. A locked entry that stays locked keeps its unlock instant. The entry's definition never changes |
| AchievementScan.Scan | src/hooks/useGamification.ts:111-207 | the new table has the same length and is the old table mapped entry by entry through `Step` |
| AchievementScan.ScanReportsTransitions | src/hooks/useGamification.ts:187-196 | the returned list is exactly the entries that went from locked to unlocked, in table order |
| AchievementScan.ScanUnlockCount | src/hooks/useGamification.ts:111-207 | locked entries after the scan plus reported unlocks equals locked entries before it |
| AchievementScan.NewlyUnlockedWereLocked | src/hooks/useGamification.ts:187-196 | every reported entry is an entry of the new table that was locked in the old one, now unlocked and stamped `now` |
| AchievementScan.ScanMonotone | src/hooks/useGamification.ts:115 | the scan never relocks an entry and leaves unlocked entries untouched |
| AchievementScan.CatalogRules | src/hooks/useGamification.ts:120-186 | every catalog entry except `variety-pack`, `early-bird` and `night-owl` has a rule, and its threshold equals the entry's `maxProgress` |
| AchievementScan.RuleFor | src/hooks/useGamification.ts:120-186 | each of the 14 ids the switch names has a rule with a positive threshold; `variety-pack`, `early-bird`, `night-owl` and any unknown id have none; only `anniversary` is measured in days since the first bottle |
| AchievementScan.Measure | src/hooks/useGamification.ts:120-186 | the scan can measure an id exactly when it has a rule, except `anniversary` before any bottle exists (the guard at :180) |
| AchievementScan.ReachedMonotone | src/hooks/useGamification.ts:120-186 | a reached threshold stays reached once every measured quantity has grown or stayed put |
| AchievementScan.CounterThreshold | src/hooks/useGamification.ts:120-186 | for a catalog entry that can be measured, it unlocks if and only if the measure is at least `maxProgress`, and its progress is the measure capped at `maxProgress` |
| AchievementScan.TransitionsOfHeadOnly | src/hooks/useGamification.ts:187-196 | when only the first entry can go from locked to unlocked, the reported list is that entry alone, or empty |
| AchievementScan.FindIndex | src/hooks/useGamification.ts:225 | `find` by id returns the first entry with the id, or none when no entry has it |
| AchievementScan.UnlockById | src/hooks/useGamification.ts:227-231 | every entry with the id is unlocked at `now` with progress 1; every other entry is unchanged |
| AchievementScan.OneShotUnlockOverwritten | src/hooks/useGamification.ts:225-242 | as written: the one-shot write unlocks the entry, but the later write of the scan (computed from the table at entry) leaves it locked |
| AchievementScan.IntendedOneShotPersists | src/hooks/useGamification.ts:225-242 | corrected: scanning the table that already holds the one-shot unlock keeps the entry unlocked at `now`, and the scan does not report it a second time |
| Decimal.NatToString | src/hooks/useGamification.ts:293-296 | the decimal form of a natural number is non-empty and all digits, one digit exactly when the number is below 10 |
| Decimal.NatToStringValue | src/hooks/useGamification.ts:293-296 | the digits written for a natural number denote that number (`DigitsValue`, read most significant digit first) |
| Decimal.IntToStringValue | src/hooks/useGamification.ts:293-296 | a negative integer renders as a minus sign before the digits of its absolute value; any other integer as its own digits |
| Decimal.IntToStringInjective | src/hooks/useGamification.ts:293-296 | different integers render differently |
| GamificationHook.StatsAfterCreated | src/hooks/useGamification.ts:213-219 | one more bottle; its attachments are added to the total; `averageMessageLength` becomes the running maximum message length; the first-bottle instant is written only once; the other statistics are unchanged |
| GamificationHook.StatsAfterOpened | src/hooks/useGamification.ts:250-260 | one more opening; the floored days waited are added to the total and to the running maximum; the opening instant is recorded; the new streak figures are copied; the other statistics are unchanged |
| GamificationHook.CreationsCountAndFirstDate | src/hooks/useGamification.ts:213-219 | after n creations the bottle count has grown by n, and the first-bottle instant is the first creation's instant if none was set |
| GamificationHook.Bottles5OnFifthCreation | src/hooks/useGamification.ts:129-132 | from the initial statistics, a locked `bottles-5` entry unlocks exactly from the fifth creation on |
| GamificationHook.CatalogValid | src/hooks/useGamification.ts:21 | the catalog is a sound definitions table (every `maxProgress` positive, and equal to the threshold of the entry's rule where it has one), and the seeded table satisfies the entry invariant against it: definition as in the catalog, unlocked exactly when stamped, progress at most `maxProgress`, entries without a rule locked |
| GamificationHook.ScanKeepsValid | src/hooks/useGamification.ts:111-207 | against a sound definitions table, the scan keeps the entry invariant |
| GamificationHook.CreatedKeepsValid | src/hooks/useGamification.ts:209-243 | the state the creation handler leaves keeps the hook invariant, against the same definitions table |
| GamificationHook.OpenedKeepsValid | src/hooks/useGamification.ts:245-284 | the state the opening handler leaves keeps the hook invariant against the same definitions table, including statistics that mirror the streak |
| GamificationHook.OnlyFirstBottleReached | src/hooks/useGamification.ts:120-186 | after the first creation (fewer than 10 attachments, message under 1000 characters), `first-bottle` is the only threshold reached |
| GamificationHook.NightOwlFound | src/hooks/useGamification.ts:225 | `find` locates the catalog's `night-owl` entry |
| GamificationHook.NightCreationOnFreshTable | src/hooks/useGamification.ts:209-243 | a first creation at night on a fresh table queues the night-owl notice, then `first-bottle`; `first-bottle` is unlocked in the final table and `night-owl` is not |
| GamificationHook.FirstBottleAtNight | src/hooks/useGamification.ts:209-243 | the same for the seeded catalog |
| GamificationHook.CreationDominates | src/hooks/useGamification.ts:213-219 | a creation takes back none of the quantities the scan measures, whatever earlier instant it is compared with |
| GamificationHook.OpeningDominates | src/hooks/useGamification.ts:250-260 | an opening takes back none of the quantities the scan measures, the streak included |
| GamificationHook.DaysBetweenMonotone | src/hooks/useGamification.ts:181 | the days since a fixed instant never decrease as the clock moves on |
| GamificationHook.MediaMasterFromOneBottle | src/hooks/useGamification.ts:165-168 | a single first bottle with ten attachments unlocks `media-master`, although its text asks for ten different bottles |
| GamificationHook.StorytellerAtThousand | src/hooks/useGamification.ts:169-172 | a first message of exactly 1000 characters unlocks `storyteller`, and one of 999 does not, although its text says "over 1000" |
| GamificationHook.LocalHour | src/hooks/useGamification.ts:211 | `getHours()` lies in 0..23 and is the hour of the local day that contains the instant |
| GamificationHook.NightOwlWindow | src/hooks/useGamification.ts:211 | the night-owl hours (`IsNightOwlHour`) are exactly the first six hours after local midnight |
| GamificationHook.EarlyBirdWindow | src/hooks/useGamification.ts:248 | `IsEarlyBird` holds exactly for openings from one hour before to one hour after the unlock instant, both ends included, so the window is symmetric |
| GamificationHook.OneShotNotice | src/hooks/useGamification.ts:223-233 | the one-shot check (`OneShotFires`) fires exactly when its condition holds and the first entry with the id exists and is locked; then the queue (`OneShotQueue`) becomes one notice: a locked table entry with the id, marked unlocked at `now`, its progress left as it was; otherwise the queue is kept |
| GamificationHook.StreakMessage | src/hooks/useGamification.ts:290-297 | the message is never empty, and every streak other than 0 and 1 is reported starting with its decimal number |
| GamificationHook.StreakMessageBands | src/hooks/useGamification.ts:290-297 | streak 0 and streak 1 each get a fixed message that no other streak gets. Other streaks are reported as their number plus the text of their band (below 7, 7 to 29, 30 and over) |
| GamificationHook.StreakMessageInjective | src/hooks/useGamification.ts:290-297 | different streaks give different messages |
| GamificationHook.Hook.constructor | src/hooks/useGamification.ts:10-27 | the initial statistics, the seeded catalog (also the definitions table the invariant checks entries against), an empty streak and an empty queue; the hook invariant holds |
| GamificationHook.Hook.UpdateStreak | src/hooks/useGamification.ts:80-109 | the streak cell and the result are `NextStreak` of the cell at entry |
| GamificationHook.Hook.CheckAchievements | src/hooks/useGamification.ts:111-207 | the achievements cell becomes the scan of the table from entry; the result is the scan's unlock list |
| GamificationHook.Hook.UnlockOneShot | src/hooks/useGamification.ts:224-235 | when the check fires and the first entry with the id is locked, the table with that entry unlocked is written and the queue is replaced by its notice; otherwise nothing changes |
| GamificationHook.Hook.QueueUnlocks | src/hooks/useGamification.ts:238-240 | the scan's unlocks are appended to the notification queue, in order, and nothing else changes |
| GamificationHook.Hook.FinishEvent | src/hooks/useGamification.ts:223-242 | the steps both handlers end with: the achievements cell ends as the scan of the table of entry; the queue is the one-shot notice (or the old queue) followed by the scan's unlocks; storage receives the given statistics and streak with the table of entry |
| GamificationHook.Hook.OnBottleCreated | src/hooks/useGamification.ts:209-243 | new statistics; streak unchanged; achievements end as the scan of the entry table; the queue is the night-owl notice (or the old queue) plus the scan's unlocks; storage receives the new statistics with the entry table and streak; the invariant is kept |
| GamificationHook.Hook.OnBottleOpened | src/hooks/useGamification.ts:245-284 | the streak is ratcheted; statistics record the wait and copy the streak; achievements end as the scan of the entry table; the queue is the early-bird notice (or the old queue) plus the scan's unlocks; storage receives the new statistics and streak with the entry table; the invariant is kept |
| GamificationHook.Hook.DismissNewAchievements | src/hooks/useGamification.ts:286-288 | the notification queue is emptied and nothing else changes |
| BottleStore.Without | src/hooks/useBottles.ts:45 | a bottle is kept if and only if it was in the list and has another id; the list does not grow |
| BottleStore.WithoutConcat | src/hooks/useBottles.ts:44-47 | deleting from a concatenation deletes from each part, so the kept bottles keep their order |
| BottleStore.WithoutAbsent | src/hooks/useBottles.ts:44-47 | deleting an id no bottle has leaves the list unchanged |
| BottleStore.WithoutIdempotent | src/hooks/useBottles.ts:44-47 | deleting twice equals deleting once |
| BottleStore.DeleteAfterAdd | src/hooks/useBottles.ts:39-47 | adding a bottle and then deleting its id equals deleting that id from the original list |
| BottleStore.WithUnlocked | src/hooks/useBottles.ts:49-54 | same length; each bottle is unlocked if and only if it was unlocked or has the id; nothing but the flag changes |
| BottleStore.WithUnlockedIdempotent | src/hooks/useBottles.ts:49-54 | unlocking twice equals unlocking once |
| BottleStore.Refreshed | src/hooks/useBottles.ts:58-61 | same length; each bottle is unlocked if and only if it was unlocked or its unlock instant has come; nothing but the flag changes |
| BottleStore.HasChanges | src/hooks/useBottles.ts:63-65 | true exactly when some index has a different unlock flag in the two lists |
| BottleStore.RefreshChangesIffDue | src/hooks/useBottles.ts:56-70 | the refresh reports a change if and only if some locked bottle is due, and if and only if the refreshed list differs from the old one |
| BottleStore.RefreshMonotoneAndIdempotent | src/hooks/useBottles.ts:58-61 | the refresh never relocks a bottle, and a second refresh at the same instant changes nothing |
| BottleStore.Reloaded | src/hooks/useBottles.ts:17-22 | same length; each flag is recomputed as "the unlock instant has come", ignoring the stored flag; nothing else changes |
| BottleStore.ReloadForgetsEarlyUnlock | src/hooks/useBottles.ts:17-22 | a bottle unlocked before its instant comes back locked after a reload, and a refresh at the reload instant finds nothing to change |
| BottleStore.Store.constructor | src/hooks/useBottles.ts:7 | the list starts empty, and storage is whatever the browser already holds |
| BottleStore.Store.LoadBottles | src/hooks/useBottles.ts:13-28 | with a stored list, the cell becomes it, reloaded at `now`; without one, the cell is unchanged |
| BottleStore.Store.SaveBottles | src/hooks/useBottles.ts:30-37 | a successful write replaces both storage and the cell; a failed one changes neither |
| BottleStore.Store.AddBottle | src/hooks/useBottles.ts:39-42 | the bottle is appended at the end, subject to the save rule |
| BottleStore.Store.DeleteBottle | src/hooks/useBottles.ts:44-47 | the list without the id, subject to the save rule |
| BottleStore.Store.UnlockBottle | src/hooks/useBottles.ts:49-54 | the list with the id unlocked, subject to the save rule |
| BottleStore.Store.RefreshBottleStatus | src/hooks/useBottles.ts:56-70 | the refreshed list is saved only when some flag changed and the write succeeded; otherwise the cell and storage are untouched |
| FileUtils.PrefixesExclusive | src/utils/fileUtils.ts:49-54 | a MIME type has at most one of the prefixes `image/`, `audio/`, `video/` |
| FileUtils.FileTypeIcon | src/utils/fileUtils.ts:49-54 | each media icon is returned if and only if the type has that prefix; the document icon is returned if and only if it has none |

## Left out

- Persistence through `localStorage` (`loadData`, `saveData`, and the JSON and `Date` round trip) is not modelled as I/O.
  - The gamification hook records in the ghost field `persisted` what it hands to storage.
  - The bottle store keeps `storage` as a field. Whether a write succeeds is the parameter `writeOk`.
  - Parse errors on load are not modelled: the stored list is taken as well formed.
- The wall clock and the time zone are parameters (`now`, `localHour`). `LocalHour` ties the hour to an instant for a fixed offset; daylight-saving changes are not modelled.
  - The scan reads the clock again for `anniversary`, and its stamps are `new Date()` calls. Here a handler uses one instant throughout.
  - Invalid `Date` values, and the `RangeError` that `toISOString` raises for them, are not modelled.
- JavaScript numbers are doubles. The model uses unbounded integers, so rounding above 2^53 is not modelled.
- `bottle.message.length` counts UTF-16 code units. The model counts the characters of a Dafny string, so a message with characters outside the Basic Multilingual Plane measures shorter here.
- An absent `progress` or `maxProgress` is represented as 0. The source's `x || y` treats 0 and `undefined` alike, so nothing is lost.
- React scheduling is not modelled. Handlers run one after another to completion, and a functional update (`prev => …`) sees the value set earlier in the same handler. Re-rendering and effects (`useEffect`) are not modelled.
- Mutating the shared `streakDates` array in place is modelled as a write to the streak cell, which the handler's later write replaces. Other aliasing through shared objects is not modelled.
- `variety-pack` has no rule in the scan, so it can never unlock. The model keeps it locked, as the code does.
- The components, `formatFileSize`, `processFiles`, `crypto.randomUUID` and the date helpers are not part of this model.
- GamificationHook.Hook.GetStreakMessage: it carries no contract of its own. Its message is `StreakMessage` of the current streak, whose properties are stated by `StreakMessageBands` and `StreakMessageInjective`.

## Findings

| source | as written | input that shows it | evidently intended | confidence | as-written member | corrected member |
|---|---|---|---|---|---|---|
| src/hooks/useGamification.ts:232 and :205 (likewise :273) | the handler writes the `night-owl` (or `early-bird`) unlock, then `checkAchievements` maps the table it closed over on entry and writes that result last. The scan has no rule for the one-shot id, so the entry is locked again, although the notice was queued | on a fresh hook, create a first bottle at local hour 3: the queue holds `night-owl` and `first-bottle`, but the final table has `night-owl` locked (`GamificationHook.FirstBottleAtNight`) | the scan runs over the table that already holds the one-shot unlock, so the entry stays unlocked at `now` and is not reported twice | not executed | AchievementScan.OneShotUnlockOverwritten | AchievementScan.IntendedOneShotPersists |
