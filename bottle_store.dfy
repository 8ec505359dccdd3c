/**
 * The `useBottles` hook (src/hooks/useBottles.ts): the list of bottles held in
 * a state cell and mirrored in browser storage.
 *
 * Each operation builds a new list and hands it to `saveBottles`, which writes
 * storage first and replaces the list only when the write succeeded. Whether a
 * write succeeds is the parameter `writeOk`; the storage record is the field
 * `storage`. The clock is the parameter `now`, in milliseconds.
 */
module BottleStore {
  import opened Common
  import opened BottleTypes

  /** `bottles.filter(bottle => bottle.id !== id)` (line 45). */
  function Without(bs: seq<Bottle>, id: string): (r: seq<Bottle>)
    ensures |r| <= |bs|
    ensures forall b :: b in r <==> b in bs && b.id != id
  {
    if bs == [] then []
    else (if bs[0].id != id then [bs[0]] else []) + Without(bs[1..], id)
  }

  /** Filtering a concatenation filters each part, so the kept bottles keep their order. */
  lemma {:induction false} WithoutConcat(xs: seq<Bottle>, ys: seq<Bottle>, id: string)
    ensures Without(xs + ys, id) == Without(xs, id) + Without(ys, id)
  {
    if xs == [] {
      assert xs + ys == ys;
    } else {
      var head := if xs[0].id != id then [xs[0]] else [];
      calc {
        Without(xs + ys, id);
        { assert (xs + ys)[0] == xs[0]; assert (xs + ys)[1..] == xs[1..] + ys; }
        head + Without(xs[1..] + ys, id);
        { WithoutConcat(xs[1..], ys, id); }
        head + (Without(xs[1..], id) + Without(ys, id));
        (head + Without(xs[1..], id)) + Without(ys, id);
      }
    }
  }

  /** Nothing is removed when no bottle has the id. */
  lemma {:induction false} WithoutAbsent(bs: seq<Bottle>, id: string)
    requires forall i :: 0 <= i < |bs| ==> bs[i].id != id
    ensures Without(bs, id) == bs
  {
    if bs != [] {
      WithoutAbsent(bs[1..], id);
    }
  }

  /** Deleting twice deletes nothing more. */
  lemma WithoutIdempotent(bs: seq<Bottle>, id: string)
    ensures Without(Without(bs, id), id) == Without(bs, id)
  {
    var r := Without(bs, id);
    forall i | 0 <= i < |r| ensures r[i].id != id {
      assert r[i] in r;
    }
    WithoutAbsent(r, id);
  }

  /** Deleting an id from a list with one bottle added removes it from both parts. */
  lemma DeleteAfterAdd(bs: seq<Bottle>, b: Bottle)
    ensures Without(bs + [b], b.id) == Without(bs, b.id)
  {
    WithoutConcat(bs, [b], b.id);
    assert Without([b], b.id) == [];
  }

  /** The bottle with its flag set when its id matches (line 51). */
  function UnlockIfMatch(b: Bottle, id: string): Bottle {
    if b.id == id then b.(isUnlocked := true) else b
  }

  /** `bottles.map(...)` of `unlockBottle` (lines 50-52). */
  function WithUnlocked(bs: seq<Bottle>, id: string): (r: seq<Bottle>)
    ensures |r| == |bs|
    ensures forall i :: 0 <= i < |bs| ==> r[i].(isUnlocked := bs[i].isUnlocked) == bs[i]
    ensures forall i :: 0 <= i < |bs| ==> r[i].isUnlocked == (bs[i].isUnlocked || bs[i].id == id)
  {
    if bs == [] then [] else [UnlockIfMatch(bs[0], id)] + WithUnlocked(bs[1..], id)
  }

  /** Unlocking the same id twice changes nothing more. */
  lemma WithUnlockedIdempotent(bs: seq<Bottle>, id: string)
    ensures WithUnlocked(WithUnlocked(bs, id), id) == WithUnlocked(bs, id)
  {
    var once := WithUnlocked(bs, id);
    var twice := WithUnlocked(once, id);
    forall i | 0 <= i < |bs| ensures twice[i] == once[i] {
      assert twice[i].(isUnlocked := once[i].isUnlocked) == once[i];
    }
  }

  /** The bottle with its flag set once its unlock instant has come (line 59). */
  function RefreshOne(b: Bottle, now: int): Bottle {
    b.(isUnlocked := b.isUnlocked || now >= b.unlockDate)
  }

  /** `bottles.map(...)` of `refreshBottleStatus` (lines 58-61). */
  function Refreshed(bs: seq<Bottle>, now: int): (r: seq<Bottle>)
    ensures |r| == |bs|
    ensures forall i :: 0 <= i < |bs| ==> r[i].(isUnlocked := bs[i].isUnlocked) == bs[i]
    ensures forall i :: 0 <= i < |bs| ==> r[i].isUnlocked == (bs[i].isUnlocked || now >= bs[i].unlockDate)
  {
    if bs == [] then [] else [RefreshOne(bs[0], now)] + Refreshed(bs[1..], now)
  }

  /**
   * `updatedBottles.some((bottle, index) => bottle.isUnlocked !== bottles[index].isUnlocked)`
   * (lines 63-65).
   */
  function HasChanges(updated: seq<Bottle>, bs: seq<Bottle>): (r: bool)
    requires |updated| == |bs|
    ensures r <==> exists i :: 0 <= i < |bs| && updated[i].isUnlocked != bs[i].isUnlocked
  {
    if updated == [] then false
    else updated[0].isUnlocked != bs[0].isUnlocked || HasChanges(updated[1..], bs[1..])
  }

  /** Some bottle is still locked although its unlock instant has come. */
  predicate SomeDue(bs: seq<Bottle>, now: int) {
    exists i :: 0 <= i < |bs| && !bs[i].isUnlocked && now >= bs[i].unlockDate
  }

  /**
   * A refresh changes something exactly when some locked bottle is due, and
   * exactly then is the refreshed list different from the old one.
   */
  lemma RefreshChangesIffDue(bs: seq<Bottle>, now: int)
    ensures HasChanges(Refreshed(bs, now), bs) <==> SomeDue(bs, now)
    ensures HasChanges(Refreshed(bs, now), bs) <==> Refreshed(bs, now) != bs
  {
    var r := Refreshed(bs, now);
    if r != bs {
      assert exists i :: 0 <= i < |bs| && r[i] != bs[i];
      var i :| 0 <= i < |bs| && r[i] != bs[i];
      assert r[i].(isUnlocked := bs[i].isUnlocked) == bs[i];
    }
    if SomeDue(bs, now) {
      var i :| 0 <= i < |bs| && !bs[i].isUnlocked && now >= bs[i].unlockDate;
      assert r[i].isUnlocked != bs[i].isUnlocked;
    }
  }

  /** Refreshing never locks a bottle, and refreshing again at the same instant changes nothing. */
  lemma RefreshMonotoneAndIdempotent(bs: seq<Bottle>, now: int)
    ensures forall i :: 0 <= i < |bs| && bs[i].isUnlocked ==> Refreshed(bs, now)[i].isUnlocked
    ensures Refreshed(Refreshed(bs, now), now) == Refreshed(bs, now)
  {
    var once := Refreshed(bs, now);
    var twice := Refreshed(once, now);
    forall i | 0 <= i < |bs| ensures twice[i] == once[i] {
      assert twice[i].(isUnlocked := once[i].isUnlocked) == once[i];
    }
  }

  /** The bottle as loading recomputes it: unlocked exactly when its instant has come (line 21). */
  function ReloadOne(b: Bottle, now: int): Bottle {
    b.(isUnlocked := now >= b.unlockDate)
  }

  /** The list as `loadBottles` rebuilds it from storage (lines 17-22). */
  function Reloaded(bs: seq<Bottle>, now: int): (r: seq<Bottle>)
    ensures |r| == |bs|
    ensures forall i :: 0 <= i < |bs| ==> r[i].(isUnlocked := bs[i].isUnlocked) == bs[i]
    ensures forall i :: 0 <= i < |bs| ==> r[i].isUnlocked == (now >= bs[i].unlockDate)
  {
    if bs == [] then [] else [ReloadOne(bs[0], now)] + Reloaded(bs[1..], now)
  }

  /**
   * Loading discards an early unlock: a bottle unlocked ahead of its instant
   * comes back locked. A list just loaded has nothing left for a refresh at
   * the same instant to change.
   */
  lemma ReloadForgetsEarlyUnlock(bs: seq<Bottle>, now: int, i: int)
    requires 0 <= i < |bs| && bs[i].isUnlocked && now < bs[i].unlockDate
    ensures !Reloaded(bs, now)[i].isUnlocked
    ensures !HasChanges(Refreshed(Reloaded(bs, now), now), Reloaded(bs, now))
  {
    RefreshChangesIffDue(Reloaded(bs, now), now);
  }

  class Store {
    var bottles: seq<Bottle>
    var storage: Option<seq<Bottle>>

    /** The state cell starts empty; `initialStorage` is what the browser already holds. */
    constructor (initialStorage: Option<seq<Bottle>>)
      ensures bottles == [] && storage == initialStorage
    {
      bottles := [];
      storage := initialStorage;
    }

    /**
     * `loadBottles` (lines 13-28): when storage holds a list, the cell is
     * replaced by it with every flag recomputed from `now`.
     */
    method LoadBottles(now: int)
      modifies this`bottles
      ensures bottles == if storage.Some? then Reloaded(storage.value, now) else old(bottles)
    {
      if storage.Some? {
        bottles := Reloaded(storage.value, now);
      }
    }

    /**
     * `saveBottles` (lines 30-37): the list is written to storage and, only
     * when that succeeded, becomes the new cell value; a failed write leaves
     * both as they were.
     */
    method SaveBottles(newBottles: seq<Bottle>, writeOk: bool)
      modifies this
      ensures writeOk ==> bottles == newBottles && storage == Some(newBottles)
      ensures !writeOk ==> bottles == old(bottles) && storage == old(storage)
    {
      if writeOk {
        storage := Some(newBottles);
        bottles := newBottles;
      }
    }

    /** `addBottle` (lines 39-42): the bottle goes at the end. */
    method AddBottle(bottle: Bottle, writeOk: bool)
      modifies this
      ensures bottles == if writeOk then old(bottles) + [bottle] else old(bottles)
      ensures storage == if writeOk then Some(old(bottles) + [bottle]) else old(storage)
    {
      SaveBottles(bottles + [bottle], writeOk);
    }

    /** `deleteBottle` (lines 44-47): every bottle with the id goes, the rest keep their order. */
    method DeleteBottle(id: string, writeOk: bool)
      modifies this
      ensures bottles == if writeOk then Without(old(bottles), id) else old(bottles)
      ensures storage == if writeOk then Some(Without(old(bottles), id)) else old(storage)
    {
      SaveBottles(Without(bottles, id), writeOk);
    }

    /** `unlockBottle` (lines 49-54): every bottle with the id is flagged unlocked. */
    method UnlockBottle(id: string, writeOk: bool)
      modifies this
      ensures bottles == if writeOk then WithUnlocked(old(bottles), id) else old(bottles)
      ensures storage == if writeOk then Some(WithUnlocked(old(bottles), id)) else old(storage)
    {
      SaveBottles(WithUnlocked(bottles, id), writeOk);
    }

    /**
     * `refreshBottleStatus` (lines 56-70): the refreshed list is saved only
     * when some flag changed; otherwise neither the cell nor storage is touched.
     */
    method RefreshBottleStatus(now: int, writeOk: bool)
      modifies this
      ensures var updated := Refreshed(old(bottles), now);
        if HasChanges(updated, old(bottles)) && writeOk
        then bottles == updated && storage == Some(updated)
        else bottles == old(bottles) && storage == old(storage)
    {
      var updatedBottles := Refreshed(bottles, now);
      var hasChanges := HasChanges(updatedBottles, bottles);
      if hasChanges {
        SaveBottles(updatedBottles, writeOk);
      }
    }
  }
}
