/** The 64-slot cache of recently read application files, against an unbounded map with expiry. */
module HotInodeCache {

  const SLOTS: nat := 64
  const TTL_NS: nat := 500_000_000
  const U64_MAX: nat := 0xffff_ffff_ffff_ffff

  datatype FileExt = Unknown | Apk | Odex | Vdex | Other

  predicate IsHot(ext: FileExt) {
    ext.Apk? || ext.Odex? || ext.Vdex?
  }

  /** A slot; inode zero marks it empty. */
  datatype Entry = Entry(inode: nat, lastSeen: nat, ext: FileExt)

  const EMPTY := Entry(0, 0, Unknown)

  predicate Expired(e: Entry, now: nat) {
    e.inode == 0 || (now >= e.lastSeen && now - e.lastSeen >= TTL_NS)
  }

  /**
   The last mark of an inode: the time it was made with, its place in the order in which the marks
   took the lock, and the extension. The clock is read before the lock is taken, so later marks may
   carry earlier times.
   */
  datatype Sighting = Sighting(time: nat, order: nat, ext: FileExt)

  /** The specification: every inode ever marked, with its last sighting. */
  type Sightings = map<nat, Sighting>

  ghost predicate Current(seen: Sightings, inode: nat, now: nat) {
    inode in seen && now < seen[inode].time + TTL_NS
  }

  /** The other inodes marked at or after the last mark of this one, by the clock or in the order of the lock. */
  ghost function Rivals(seen: Sightings, inode: nat): set<nat>
    requires inode in seen
  {
    set other | other in seen && other != inode
                && (seen[inode].time <= seen[other].time || seen[inode].order < seen[other].order)
  }

  ghost predicate Crowded(seen: Sightings, inode: nat)
    requires inode in seen
  {
    |Rivals(seen, inode)| >= SLOTS
  }

  lemma {:induction false} SubsetSize(a: set<nat>, b: set<nat>)
    requires a <= b
    ensures |a| <= |b|
  {
    assert b == a + (b - a);
  }

  /** No mark so far comes after this place in the order. */
  ghost predicate Before(seen: Sightings, order: nat) {
    forall x :: x in seen ==> seen[x].order < order
  }

  /** Later marks of other inodes never take rivals away. */
  lemma RivalsGrow(seen: Sightings, inode: nat, marked: nat, mark: Sighting)
    requires inode in seen && marked != inode && Before(seen, mark.order)
    ensures Crowded(seen, inode) ==> Crowded(seen[marked := mark], inode)
  {
    SubsetSize(Rivals(seen, inode), Rivals(seen[marked := mark], inode));
  }

  /** The inodes held in the slots. */
  ghost function Held(slots: seq<Entry>): set<nat> {
    set k | 0 <= k < |slots| :: slots[k].inode
  }

  ghost predicate NoDuplicates(slots: seq<Entry>) {
    forall j, k :: 0 <= j < k < |slots| && slots[j].inode != 0 ==> slots[j].inode != slots[k].inode
  }

  lemma {:induction false} HeldSize(slots: seq<Entry>)
    requires NoDuplicates(slots) && forall k :: 0 <= k < |slots| ==> slots[k].inode != 0
    ensures |Held(slots)| == |slots|
  {
    if slots != [] {
      var init, last := slots[..|slots| - 1], slots[|slots| - 1].inode;
      HeldSize(init);
      assert Held(slots) == Held(init) + {last};
    }
  }

  predicate Stands(e: Entry, mark: Sighting) {
    e.lastSeen == mark.time && e.ext == mark.ext
  }

  /** What the slots hold is exactly the last sighting of the inode. */
  ghost predicate SlotsAgree(slots: seq<Entry>, seen: Sightings) {
    forall k :: 0 <= k < |slots| && slots[k].inode != 0 ==>
      slots[k].inode in seen && Stands(slots[k], seen[slots[k].inode])
  }

  /** An inode that is still current is in a slot, unless 64 others pushed it out. */
  ghost predicate Covered(slots: seq<Entry>, seen: Sightings, now: nat) {
    forall inode :: inode in seen && Current(seen, inode, now) ==> inode in Held(slots) || Crowded(seen, inode)
  }

  /** If every slot is in use and the oldest entry is replaced, its inode has 64 rivals. */
  lemma EvictedIsCrowded(slots: seq<Entry>, seen: Sightings, victim: nat, inode: nat, mark: Sighting)
    requires |slots| == SLOTS && NoDuplicates(slots) && SlotsAgree(slots, seen) && victim < SLOTS
    requires forall k :: 0 <= k < SLOTS ==> slots[k].inode != 0 && slots[k].inode != inode
    requires forall k :: 0 <= k < SLOTS ==> slots[victim].lastSeen <= slots[k].lastSeen
    requires inode != 0 && Before(seen, mark.order)
    ensures Crowded(seen[inode := mark], slots[victim].inode)
  {
    var later, out := seen[inode := mark], slots[victim].inode;
    var replaced := slots[victim := Entry(inode, mark.time, mark.ext)];
    HeldSize(replaced);
    SubsetSize(Held(replaced), Rivals(later, out));
  }

  /** The slot a mark goes to: the inode's own; else the first expired one; else the first of the oldest. */
  ghost predicate Chosen(slots: seq<Entry>, inode: nat, now: nat, i: nat) {
    && i < |slots|
    && (slots[i].inode == inode ||
        ((forall k :: 0 <= k < |slots| ==> slots[k].inode != inode) &&
         if Expired(slots[i], now) then forall k :: 0 <= k < i ==> !Expired(slots[k], now)
         else
           && (forall k :: 0 <= k < |slots| ==> !Expired(slots[k], now) && slots[i].lastSeen <= slots[k].lastSeen)
           && forall k :: 0 <= k < i ==> slots[i].lastSeen < slots[k].lastSeen))
  }

  class HotInodes {
    const slots: array<Entry>
    ghost var seen: Sightings
    ghost var marks: nat
    // The latest time that any region has been entered with.
    ghost var clock: nat

    ghost predicate Valid()
      reads this, slots
    {
      && slots.Length == SLOTS
      && 0 !in seen
      && (forall x :: x in seen ==> seen[x].time < U64_MAX && IsHot(seen[x].ext)) && Before(seen, marks)
      && NoDuplicates(slots[..])
      && SlotsAgree(slots[..], seen)
      && Covered(slots[..], seen, clock)
    }

    constructor ()
      ensures Valid() && fresh(slots) && seen == map[] && clock == 0
      ensures forall k :: 0 <= k < SLOTS ==> slots[k] == EMPTY
    {
      slots := new Entry[SLOTS](_ => EMPTY);
      seen, marks, clock := map[], 0, 0;
    }

    /** Marking an inode is exactly the update of the unbounded map; everything else is ignored. */
    method Mark(inode: nat, ext: FileExt, now: nat)
      requires Valid() && now < U64_MAX
      modifies this, slots
      ensures Valid()
      ensures inode == 0 || !IsHot(ext) ==>
                seen == old(seen) && marks == old(marks) && clock == old(clock) && slots[..] == old(slots[..])
      ensures inode != 0 && (ext == Apk || ext == Odex || ext == Vdex) ==>
                && seen == old(seen)[inode := Sighting(now, old(marks), ext)] && marks == old(marks) + 1
                && clock == Later(old(clock), now)
                && exists i: nat ::
                     Chosen(old(slots[..]), inode, now, i) && slots[..] == old(slots[..])[i := Entry(inode, now, ext)]
    {
      if inode == 0 || !IsHot(ext) {
        return;
      }
      ghost var before, mark := slots[..], Sighting(now, marks, ext);
      assert forall k :: 0 <= k < SLOTS && slots[k].inode != 0 ==> slots[k].lastSeen < U64_MAX;
      hide Before, SlotsAgree, Covered, NoDuplicates;
      var i := FindSlot(inode, now);
      Stored(before, seen, i, inode, clock, mark);
      slots[i] := Entry(inode, now, ext);
      assert slots[..] == before[i := Entry(inode, now, ext)];
      seen, marks, clock := seen[inode := mark], marks + 1, Later(clock, now);
    }

    /** The search in front of the store. */
    method FindSlot(inode: nat, now: nat) returns (i: nat)
      requires slots.Length == SLOTS && now < U64_MAX
      requires forall k :: 0 <= k < SLOTS && slots[k].inode != 0 ==> slots[k].lastSeen < U64_MAX
      ensures Chosen(slots[..], inode, now, i)
    {
      var oldestNs, oldestIdx, expiredIdx := U64_MAX, 0, -1;
      for k := 0 to SLOTS
        invariant forall j :: 0 <= j < k ==> slots[j].inode != inode
        invariant -1 <= expiredIdx < k && 0 <= oldestIdx < SLOTS
        invariant expiredIdx >= 0 ==>
                    Expired(slots[expiredIdx], now) && forall j :: 0 <= j < expiredIdx ==> !Expired(slots[j], now)
        invariant expiredIdx < 0 ==> forall j :: 0 <= j < k ==> !Expired(slots[j], now) && oldestNs <= slots[j].lastSeen
        invariant expiredIdx < 0 ==> forall j :: 0 <= j < oldestIdx ==> oldestNs < slots[j].lastSeen
        invariant expiredIdx < 0 ==>
                    if oldestNs == U64_MAX then k == oldestIdx == 0
                    else oldestIdx < k && slots[oldestIdx].lastSeen == oldestNs
      {
        var entry := slots[k];
        if entry.inode == inode {
          return k;
        }
        if Expired(entry, now) {
          if expiredIdx < 0 {
            expiredIdx := k;
          }
          continue;
        }
        if entry.lastSeen < oldestNs {
          oldestNs := entry.lastSeen;
          oldestIdx := k;
        }
      }
      i := if expiredIdx < 0 then oldestIdx else expiredIdx;
    }

    /**
     Whatever time it is entered with, a hit is a current sighting with its last extension. A miss
     means that the inode is unknown, crowded out, or expired by the latest time of any region so far.
     */
    method Lookup(inode: nat, now: nat) returns (ext: FileExt)
      requires Valid()
      modifies this, slots
      ensures Valid() && seen == old(seen) && clock == if inode == 0 then old(clock) else Later(old(clock), now)
      ensures ext != Unknown ==> inode in Held(old(slots[..])) && Current(seen, inode, now) && ext == seen[inode].ext
      ensures ext == Unknown ==> !Current(seen, inode, Later(clock, now)) || Crowded(seen, inode)
      ensures ext != Unknown ==> inode in seen && now < seen[inode].time + 500_000_000
      ensures ext == Unknown && inode in seen && old(clock) <= now < seen[inode].time + 500_000_000 ==>
                |set other | other in seen && other != inode
                               && (seen[inode].time <= seen[other].time || seen[inode].order < seen[other].order)| >= 64
    {
      if inode == 0 {
        return Unknown;
      }
      ghost var before := slots[..];
      clock := Later(clock, now);
      assert inode in seen ==>
               Rivals(seen, inode)
               == (set other | other in seen && other != inode
                               && (seen[inode].time <= seen[other].time || seen[inode].order < seen[other].order));
      assert Covered(before, seen, clock) by {
        forall x | x in seen && Current(seen, x, clock)
          ensures Current(seen, x, old(clock))
        {
        }
      }
      ext := Unknown;
      for i := 0 to SLOTS
        invariant seen == old(seen) && marks == old(marks) && clock == Later(old(clock), now) && slots[..] == before
                  && ext == Unknown
        invariant forall k :: 0 <= k < i ==> before[k].inode != inode
      {
        if slots[i].inode != inode {
          continue;
        }
        if !Expired(slots[i], now) {
          ext := slots[i].ext;
        } else {
          Cleared(before, seen, i, now, clock);
          slots[i] := EMPTY;
          assert slots[..] == before[i := EMPTY];
        }
        return;
      }
      assert inode !in Held(before);
    }
  }

  function Later(a: nat, b: nat): nat {
    if a < b then b else a
  }

  /**
   Regions entered out of the order of their times can lose a current inode: one marked at 0 is
   replaced by a mark at 500 ms. A lookup that had read the clock just before then finds nothing,
   since it reports only what is held.
   */
  lemma LateReaderMisses(empty: seq<Entry>, i: nat, j: nat)
    requires |empty| == SLOTS && forall k :: 0 <= k < SLOTS ==> empty[k] == EMPTY
    requires Chosen(empty, 1, 0, i)
    requires Chosen(empty[i := Entry(1, 0, Apk)], 2, TTL_NS, j)
    ensures var after := empty[i := Entry(1, 0, Apk)][j := Entry(2, TTL_NS, Apk)];
            var seen := map[1 := Sighting(0, 0, Apk), 2 := Sighting(TTL_NS, 1, Apk)];
            Current(seen, 1, TTL_NS - 1) && !Crowded(seen, 1) && 1 !in Held(after)
  {
    assert Expired(empty[0], 0) && i == 0;
    var first := empty[0 := Entry(1, 0, Apk)];
    assert Expired(first[0], TTL_NS) && j == 0;
    var seen := map[1 := Sighting(0, 0, Apk), 2 := Sighting(TTL_NS, 1, Apk)];
    SubsetSize(Rivals(seen, 1), {2});
  }

  /** Refreshing the slot of a marked inode keeps the cache consistent with the map. */
  lemma Refreshed(slots: seq<Entry>, seen: Sightings, i: nat, inode: nat, clock: nat, mark: Sighting)
    requires i < |slots| && slots[i].inode == inode != 0 && Before(seen, mark.order)
    requires NoDuplicates(slots) && SlotsAgree(slots, seen) && Covered(slots, seen, clock)
    ensures var later, updated := seen[inode := mark], slots[i := Entry(inode, mark.time, mark.ext)];
            NoDuplicates(updated) && SlotsAgree(updated, later) && Covered(updated, later, Later(clock, mark.time))
            && Before(later, mark.order + 1)
  {
    var updated := slots[i := Entry(inode, mark.time, mark.ext)];
    assert Held(updated) == Held(slots) by {
      forall k | 0 <= k < |slots|
        ensures updated[k].inode == slots[k].inode
      {
      }
      HeldEqual(slots, updated);
    }
    CoverageKept(slots, updated, seen, inode, clock, mark);
  }

  lemma HeldEqual(a: seq<Entry>, b: seq<Entry>)
    requires |a| == |b| && forall k :: 0 <= k < |a| ==> a[k].inode == b[k].inode
    ensures Held(a) == Held(b)
  {
    forall x
      ensures x in Held(a) <==> x in Held(b)
    {
      if x in Held(a) {
        var k :| 0 <= k < |a| && a[k].inode == x;
        assert b[k].inode == x;
      }
      if x in Held(b) {
        var k :| 0 <= k < |b| && b[k].inode == x;
        assert a[k].inode == x;
      }
    }
  }

  /** If every inode that left the slots is expired or crowded, the rest stays covered. */
  lemma CoverageKept(slots: seq<Entry>, updated: seq<Entry>, seen: Sightings, inode: nat, clock: nat, mark: Sighting)
    requires Covered(slots, seen, clock) && inode in Held(updated) && Before(seen, mark.order)
    requires var later := seen[inode := mark];
             forall x :: x in Held(slots) && x in seen && x !in Held(updated) ==>
               !Current(later, x, Later(clock, mark.time)) || Crowded(later, x)
    ensures Covered(updated, seen[inode := mark], Later(clock, mark.time))
  {
    var later, latest := seen[inode := mark], Later(clock, mark.time);
    forall x | x in later && Current(later, x, latest)
      ensures x in Held(updated) || Crowded(later, x)
    {
      if x != inode {
        assert Current(seen, x, clock);
        RivalsGrow(seen, x, inode, mark);
      }
    }
  }

  /** Replacing an expired entry, or the oldest one of a full cache, keeps it consistent. */
  lemma Replaced(slots: seq<Entry>, seen: Sightings, i: nat, inode: nat, clock: nat, mark: Sighting)
    requires i < |slots| && inode != 0 && 0 !in seen && Before(seen, mark.order)
    requires forall k :: 0 <= k < |slots| ==> slots[k].inode != inode
    requires NoDuplicates(slots) && SlotsAgree(slots, seen) && Covered(slots, seen, clock)
    requires Expired(slots[i], mark.time) ||
             (slots[i].inode in seen && Crowded(seen[inode := mark], slots[i].inode))
    ensures var later, updated := seen[inode := mark], slots[i := Entry(inode, mark.time, mark.ext)];
            NoDuplicates(updated) && SlotsAgree(updated, later) && Covered(updated, later, Later(clock, mark.time))
            && Before(later, mark.order + 1)
  {
    var updated := slots[i := Entry(inode, mark.time, mark.ext)];
    assert updated[i].inode == inode;
    forall x | x in Held(slots)
      ensures x == slots[i].inode || x in Held(updated)
    {
      var k :| 0 <= k < |slots| && slots[k].inode == x;
      if k != i {
        assert updated[k].inode == x;
      }
    }
    CoverageKept(slots, updated, seen, inode, clock, mark);
  }

  /** Storing the mark in the chosen slot keeps the cache consistent. */
  lemma Stored(slots: seq<Entry>, seen: Sightings, i: nat, inode: nat, clock: nat, mark: Sighting)
    requires |slots| == SLOTS && inode != 0 && 0 !in seen && Before(seen, mark.order)
             && Chosen(slots, inode, mark.time, i)
    requires NoDuplicates(slots) && SlotsAgree(slots, seen) && Covered(slots, seen, clock)
    ensures var later, updated := seen[inode := mark], slots[i := Entry(inode, mark.time, mark.ext)];
            NoDuplicates(updated) && SlotsAgree(updated, later) && Covered(updated, later, Later(clock, mark.time))
            && Before(later, mark.order + 1)
  {
    if slots[i].inode == inode {
      Refreshed(slots, seen, i, inode, clock, mark);
    } else {
      if !Expired(slots[i], mark.time) {
        EvictedIsCrowded(slots, seen, i, inode, mark);
        assert slots[i].inode in seen;
      }
      Replaced(slots, seen, i, inode, clock, mark);
    }
  }

  /** Clearing an expired entry keeps the cache consistent. */
  lemma Cleared(slots: seq<Entry>, seen: Sightings, i: nat, now: nat, clock: nat)
    requires i < |slots| && Expired(slots[i], now) && 0 !in seen && now <= clock
    requires NoDuplicates(slots) && SlotsAgree(slots, seen) && Covered(slots, seen, clock)
    ensures NoDuplicates(slots[i := EMPTY]) && SlotsAgree(slots[i := EMPTY], seen)
            && Covered(slots[i := EMPTY], seen, clock)
  {
    var updated := slots[i := EMPTY];
    forall x | x in seen && Current(seen, x, clock) && x in Held(slots)
      ensures x in Held(updated)
    {
      var k :| 0 <= k < |slots| && slots[k].inode == x;
      assert k != i;
      assert updated[k].inode == x;
    }
  }
}
