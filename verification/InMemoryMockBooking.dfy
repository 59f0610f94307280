/** The one-process mock provider store (backend/db/repositories/mock_booking.py:144-347).
    Dictionary iteration order is left open, so every tie it could break is covered. */
module InMemoryMockBooking {
  import opened Wrappers
  import opened Watches
  import opened MockCache
  import opened SortedSets

  class Store {
    const limits: Limits
    var slots: map<string, Entry>
    var tombstones: map<string, Tombstone>
    var bookings: map<string, Record>
    var pins: map<string, Pin>

    ghost function State(): Cache
      reads this
    {
      Cache(slots, tombstones, bookings, pins)
    }

    constructor (limits: Limits)
      ensures this.limits == limits && State() == NOTHING
    {
      this.limits := limits;
      slots, tombstones, bookings, pins := map[], map[], map[], map[];
    }

    method ExpirePins(now: nat)
      modifies this
      ensures State() == MockCache.ExpirePins(old(State()), now)
    {
      pins := map s | s in pins && pins[s].expiresAt > now :: pins[s];
    }

    /** Remove the oldest evictable unbooked slot; `victim` names the one that went. */
    method EvictOne(now: nat, keep: set<string>) returns (evicted: bool, ghost victim: string)
      modifies this`slots
      ensures !evicted ==> slots == old(slots) && forall s :: s in slots ==> s in keep
      ensures evicted ==>
                    && victim in old(slots) && victim !in keep
                    && slots == old(slots) - {victim}
                    && forall s :: s in old(slots) && s !in keep ==> old(slots)[victim].lastTouch <= old(slots)[s].lastTouch
    {
      var oldest: Option<string> := None;
      var pending := slots.Keys;
      while pending != {}
        invariant pending <= slots.Keys
        invariant oldest.None? ==> forall s :: s in slots && s !in pending ==> s in keep
        invariant oldest.Some? ==> oldest.value in slots && oldest.value !in keep
        invariant oldest.Some? ==> forall s :: s in slots && s !in pending && s !in keep ==>
                                     slots[oldest.value].lastTouch <= slots[s].lastTouch
        decreases pending
      {
        var s :| s in pending;
        pending := pending - {s};
        if s !in keep && (oldest.None? || slots[s].lastTouch < slots[oldest.value].lastTouch) {
          oldest := Some(s);
        }
      }
      victim := "";
      if oldest.None? {
        return false, victim;
      }
      victim := oldest.value;
      slots := slots - {oldest.value};
      return true, victim;
    }

    method AdmitCandidate(slot: Slot, now: nat, admitted: set<string>, found: seq<Slot>)
      returns (admitted': set<string>, found': seq<Slot>, ghost victim: string)
      modifies this`slots
      ensures var w := Search(old(State()), admitted, found);
              && Search(State(), admitted', found') == AdmitOne(w, slot, now, limits.capacity, victim)
              && (MustEvict(w, slot, now, limits.capacity) ==> IsOldest(w, now, victim))
    {
      var id := slot.slotId;
      victim := "";
      admitted', found' := admitted, found;
      if id in tombstones && tombstones[id].protectedUntil > now {
        return;
      }
      if id in slots {
        var entry := slots[id];
        slots := slots[id := Entry(entry.slot, now)];
        return admitted + {id}, found + [entry.slot], victim;
      }
      if |slots| >= limits.capacity {
        var keep := (set s | s in pins && pins[s].expiresAt > now) + admitted;
        ghost var w := Search(State(), admitted, found);
        assert Evictable(w, now) == set s | s in slots && s !in keep;
        var evicted;
        evicted, victim := EvictOne(now, keep);
        if !evicted {
          assert Evictable(w, now) == {};
          return;
        }
        assert victim in Evictable(w, now);
      }
      slots := slots[id := Entry(slot, now)];
      return admitted + {id}, found + [slot], victim;
    }

    method AdmitAll(candidates: seq<Slot>, now: nat, ghost start: Search)
      returns (admitted: set<string>, found: seq<Slot>, ghost victims: seq<string>)
      requires start == Search(State(), {}, [])
      modifies this`slots
      ensures |victims| == |candidates|
      ensures FairVictims(start, candidates, now, limits.capacity, victims)
      ensures Search(State(), admitted, found) == Admit(start, candidates, now, limits.capacity, victims)
    {
      admitted, found, victims := {}, [], [];
      for i := 0 to |candidates|
        invariant |victims| == i
        invariant FairVictims(start, candidates[..i], now, limits.capacity, victims)
        invariant Search(State(), admitted, found) == Admit(start, candidates[..i], now, limits.capacity, victims)
      {
        ghost var before := Search(State(), admitted, found);
        ghost var victim;
        admitted, found, victim := AdmitCandidate(candidates[i], now, admitted, found);
        ghost var after := Search(State(), admitted, found);
        AppendAdmit(start, candidates, i, now, limits.capacity, victims, victim, before, after);
        victims := victims + [victim];
      }
      assert candidates[..|candidates|] == candidates;
    }

    method PublishAndFilter(candidates: seq<Slot>, operation: string, now: nat)
      returns (found: seq<Slot>, ghost victims: seq<string>)
      modifies this
      ensures |victims| == |candidates|
      ensures FairVictims(Start(old(State()), now), candidates, now, limits.capacity, victims)
      ensures var (next, result) := Publish(old(State()), candidates, operation, now, limits.capacity, limits.pinTtl, victims);
              State() == next && found == result
    {
      hide Admit, FairVictims, Publish, PinsFor;
      ghost var start := Start(State(), now);
      ExpirePins(now);
      var admitted;
      admitted, found, victims := AdmitAll(candidates, now, start);
      ghost var w := Search(State(), admitted, found);
      ghost var c := old(State());
      pins := pins + PinsFor(admitted, operation, now + limits.pinTtl);
      ClosePublish(c, candidates, operation, now, limits, victims, w, State());
    }

    method GetBooking(key: string, now: nat) returns (r: Option<Confirmation>)
      ensures r == MockCache.GetBooking(State(), key, now)
    {
      if key !in bookings || bookings[key].protectedUntil <= now {
        return None;
      }
      return Some(bookings[key].confirmation);
    }

    method BookSlot(slotId: string, key: string, now: nat) returns (r: BookResult)
      modifies this
      ensures (State(), r) == MockCache.BookSlot(old(State()), slotId, key, now, limits.retention)
    {
      if key in bookings && bookings[key].protectedUntil > now {
        return Reservation(bookings[key].confirmation);
      }
      if slotId in tombstones && tombstones[slotId].protectedUntil > now && tombstones[slotId].key != key {
        return Unavailable;
      }
      if slotId !in slots {
        return NotFound;
      }
      var until := now + limits.retention;
      var confirmation := Confirmation(BookingIdFor(key), slots[slotId].slot, now);
      bookings := bookings[key := Record(confirmation, until)];
      tombstones := tombstones[slotId := Tombstone(key, until)];
      slots := slots - {slotId};
      pins := pins - {slotId};
      r := Reservation(confirmation);
    }

    method ReleaseOperation(operation: string)
      modifies this
      ensures State() == Release(old(State()), operation)
    {
      pins := map s | s in pins && pins[s].operation != operation :: pins[s];
    }

    method Cleanup(now: nat, batch: nat) returns (idleSlots: nat, expiredRecords: nat, ghost sweep: Sweep)
      modifies this
      ensures FairSweep(old(State()), sweep, now, limits.idleTtl, batch)
      ensures State() == MockCache.Cleanup(old(State()), sweep, now)
      ensures idleSlots == |sweep.idle| && expiredRecords == |sweep.keys|
    {
      ghost var c := State();
      ExpirePins(now);
      var idle := set s | s in slots && s !in pins && slots[s].lastTouch + limits.idleTtl <= now;
      var lapsed := set k | k in bookings && bookings[k].protectedUntil <= now;
      var entombed := set s | s in tombstones && tombstones[s].protectedUntil <= now;
      assert idle == IdleSlots(c, now, limits.idleTtl);
      assert lapsed == LapsedKeys(c, now);
      assert entombed == LapsedTombs(c, now);
      hide FillsBatch, IdleSlots, LapsedKeys, LapsedTombs;
      var goneSlots := Batch(idle, batch);
      var goneKeys := Batch(lapsed, batch);
      var goneTombs := Batch(entombed, batch);
      slots := slots - goneSlots;
      bookings := bookings - goneKeys;
      tombstones := tombstones - goneTombs;
      sweep := Sweep(goneSlots, goneKeys, goneTombs);
      return |goneSlots|, |goneKeys|, sweep;
    }
  }

  /** The first `batch` members in whatever order the dictionary lists them. */
  method Batch(due: set<string>, batch: nat) returns (taken: set<string>)
    ensures FillsBatch(taken, due, batch)
  {
    taken := {};
    var rest := due;
    while |taken| < batch && rest != {}
      invariant taken + rest == due && taken !! rest && |taken| <= batch
      decreases rest
    {
      var s :| s in rest;
      rest, taken := rest - {s}, taken + {s};
    }
    assert |due| == |taken| + |rest| by {
      assert due == taken + rest;
    }
  }
}
