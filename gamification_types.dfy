/**
 * The records of the gamification layer and the fixed achievement catalog
 * (src/types/Gamification.ts).
 *
 * Instants are milliseconds since the Unix epoch. An optional `progress` or
 * `maxProgress` that is absent is represented by 0: the engine only ever reads
 * them through `x || y`, which treats `undefined` and `0` alike.
 */
module GamificationTypes {
  import opened Common

  datatype Category = Milestone | Streak | Creativity | Patience | Dedication

  datatype Achievement = Achievement(
    id: string,
    title: string,
    description: string,
    icon: string,
    category: Category,
    unlockedAt: Option<int>,
    isUnlocked: bool,
    progress: int,
    maxProgress: int)

  datatype UserStats = UserStats(
    bottlesCreated: int,
    bottlesOpened: int,
    totalDaysWaited: int,
    longestWait: int,
    currentStreak: int,
    longestStreak: int,
    lastOpenedDate: Option<int>,
    firstBottleDate: Option<int>,
    totalAttachments: int,
    averageMessageLength: int)

  /** `streakDates` holds UTC day numbers, one per ISO `YYYY-MM-DD` key. */
  datatype StreakData = StreakData(
    current: int,
    longest: int,
    lastOpenedDate: Option<int>,
    streakDates: seq<int>)

  const FirstBottleId := "first-bottle"
  const FirstUnlockId := "first-unlock"
  const Bottles5Id := "bottles-5"
  const Bottles25Id := "bottles-25"
  const Bottles100Id := "bottles-100"
  const Wait30Id := "wait-30"
  const Wait100Id := "wait-100"
  const Wait365Id := "wait-365"
  const Streak3Id := "streak-3"
  const Streak7Id := "streak-7"
  const Streak30Id := "streak-30"
  const MediaMasterId := "media-master"
  const StorytellerId := "storyteller"
  const VarietyPackId := "variety-pack"
  const EarlyBirdId := "early-bird"
  const NightOwlId := "night-owl"
  const AnniversaryId := "anniversary"

  /** A catalog entry as it is seeded: locked, no progress, never unlocked. */
  function Entry(id: string, title: string, description: string, icon: string,
                 category: Category, maxProgress: int): Achievement
  {
    Achievement(id, title, description, icon, category, None, false, 0, maxProgress)
  }

  predicate Seeded(a: Achievement) {
    !a.isUnlocked && a.progress == 0 && a.unlockedAt == None && a.maxProgress > 0
  }

  predicate DistinctIds(achs: seq<Achievement>) {
    forall i, j :: 0 <= i < j < |achs| ==> achs[i].id != achs[j].id
  }

  /** The seventeen achievements, in the order the engine scans them. */
  function Catalog(): (c: seq<Achievement>)
    ensures |c| == 17
    ensures forall i :: 0 <= i < |c| ==> Seeded(c[i])
  {
    [ Entry(FirstBottleId, "Message in a Bottle", "Create your very first bottle", "\U{1F37E}", Milestone, 1),
      Entry(FirstUnlockId, "Time Traveler", "Open your first bottle from the past", "\U{23F0}", Milestone, 1),
      Entry(Bottles5Id, "Bottle Collector", "Create 5 bottles", "\U{1F5C2}\U{FE0F}", Milestone, 5),
      Entry(Bottles25Id, "Message Master", "Create 25 bottles", "\U{1F4DA}", Milestone, 25),
      Entry(Bottles100Id, "Ocean of Memories", "Create 100 bottles", "\U{1F30A}", Milestone, 100),
      Entry(Wait30Id, "Patient Soul", "Wait 30 days for a bottle to unlock", "\U{1F9D8}", Patience, 30),
      Entry(Wait100Id, "Zen Master", "Wait 100 days for a bottle to unlock", "\U{1F56F}\U{FE0F}", Patience, 100),
      Entry(Wait365Id, "Time Keeper", "Wait a full year for a bottle to unlock", "\U{1F4C5}", Patience, 365),
      Entry(Streak3Id, "Getting Started", "Open bottles for 3 days in a row", "\U{1F525}", Streak, 3),
      Entry(Streak7Id, "Weekly Warrior", "Open bottles for 7 days in a row", "\U{26A1}", Streak, 7),
      Entry(Streak30Id, "Dedication Champion", "Open bottles for 30 days in a row", "\U{1F451}", Streak, 30),
      Entry(MediaMasterId, "Media Master", "Attach media to 10 different bottles", "\U{1F3A8}", Creativity, 10),
      Entry(StorytellerId, "Storyteller", "Write a message over 1000 characters", "\U{1F4D6}", Creativity, 1000),
      Entry(VarietyPackId, "Variety Pack", "Create bottles with 5 different delay periods", "\U{1F3AD}", Creativity, 5),
      Entry(EarlyBirdId, "Early Bird", "Open a bottle within an hour of it unlocking", "\U{1F426}", Dedication, 1),
      Entry(NightOwlId, "Night Owl", "Create a bottle between midnight and 6 AM", "\U{1F989}", Dedication, 1),
      Entry(AnniversaryId, "Anniversary", "Use the app for 365 days", "\U{1F382}", Dedication, 365)
    ]
  }

  /** A cheap fingerprint of an id: its length and its first and last characters. */
  function Fingerprint(id: string): (int, char, char) {
    if id == [] then (0, ' ', ' ') else (|id|, id[0], id[|id| - 1])
  }

  /** The fingerprints of the catalog ids, in catalog order. */
  const CatalogFingerprints: seq<(int, char, char)> :=
    [(12, 'f', 'e'), (12, 'f', 'k'), (9, 'b', '5'), (10, 'b', '5'), (11, 'b', '0'),
     (7, 'w', '0'), (8, 'w', '0'), (8, 'w', '5'), (8, 's', '3'), (8, 's', '7'),
     (9, 's', '0'), (12, 'm', 'r'), (11, 's', 'r'), (12, 'v', 'k'), (10, 'e', 'd'),
     (9, 'n', 'l'), (11, 'a', 'y')]

  lemma CatalogFingerprintsAt(k: int)
    requires 0 <= k < 17
    ensures Fingerprint(Catalog()[k].id) == CatalogFingerprints[k]
  {
  }

  lemma CatalogFingerprintsDistinct()
    ensures forall i, j :: 0 <= i < j < 17 ==> CatalogFingerprints[i] != CatalogFingerprints[j]
  {
  }

  /** The catalog ids are pairwise distinct; their fingerprints already are. */
  lemma CatalogIdsDistinct()
    ensures DistinctIds(Catalog())
  {
    CatalogFingerprintsDistinct();
    forall i, j | 0 <= i < j < 17 ensures Catalog()[i].id != Catalog()[j].id {
      CatalogFingerprintsAt(i);
      CatalogFingerprintsAt(j);
    }
  }

  /** Where `variety-pack` and the two one-shot achievements sit in the catalog. */
  const VarietyPackIndex := 13
  const EarlyBirdIndex := 14
  const NightOwlIndex := 15

  lemma OneShotEntries()
    ensures Catalog()[0].id == FirstBottleId
    ensures Catalog()[VarietyPackIndex].id == VarietyPackId
    ensures Catalog()[EarlyBirdIndex].id == EarlyBirdId && Catalog()[EarlyBirdIndex].maxProgress == 1
    ensures Catalog()[NightOwlIndex].id == NightOwlId && Catalog()[NightOwlIndex].maxProgress == 1
  {
  }

  /** Two achievements agree on everything the catalog fixes. */
  predicate SameDefinition(a: Achievement, b: Achievement) {
    a.id == b.id && a.title == b.title && a.description == b.description &&
    a.icon == b.icon && a.category == b.category && a.maxProgress == b.maxProgress
  }
}
