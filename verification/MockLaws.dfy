/** What a caller of the mock provider can count on from one call to the next: which candidates a search returns, what
    may leave the cache, and what a booking, a release and a cleanup leave alone
    (backend/db/repositories/mock_booking.py:171-344). */
module MockLaws {
  import opened Wrappers
  import opened Watches
  import opened SortedSets
  import opened MockCache

  // -- one search ---------------------------------------------------------------------------------

  /** No room left, and nothing that could make room. */
  predicate Saturated(w: Search, now: nat, capacity: nat) {
    |w.cache.slots| >= capacity && Evictable(w, now) == {}
  }

  /** One candidate gets in if and only if it is not reserved and is stored already, or there is room, or room can be
      made; what is stored already is returned as it is stored, and nothing leaves while there is room. */
  lemma AdmitMeans(w: Search, slot: Slot, now: nat, capacity: nat, victim: string)
    requires MustEvict(w, slot, now, capacity) ==> IsOldest(w, now, victim)
    ensures var v := AdmitOne(w, slot, now, capacity, victim);
            var id := slot.slotId;
            var enters := !w.cache.Entombed(id, now) && (id in w.cache.slots || !Saturated(w, now, capacity));
            && (!enters ==> v == w)
            && (enters ==>
                  && v.admitted == w.admitted + {id} && v.found == w.found + [v.cache.slots[id].slot]
                  && v.cache.slots[id] == Entry(if id in w.cache.slots then w.cache.slots[id].slot else slot, now))
            && (forall s :: s in v.cache.slots && s != id ==> s in w.cache.slots && v.cache.slots[s] == w.cache.slots[s])
            && (forall s :: s in w.cache.slots && s !in v.cache.slots ==>
                  s == victim && |w.cache.slots| >= capacity && id !in w.cache.slots)
            && |v.cache.slots| >= |w.cache.slots|
            && v.cache.tombs == w.cache.tombs && v.cache.bookings == w.cache.bookings && v.cache.pins == w.cache.pins
  {
    var id := slot.slotId;
    var v := AdmitOne(w, slot, now, capacity, victim);
    if v != w {
      var room := if id !in w.cache.slots && |w.cache.slots| >= capacity then w.cache.slots - {victim} else w.cache.slots;
      var kept := if id in w.cache.slots then w.cache.slots[id].slot else slot;
      assert v.cache.slots == room[id := Entry(kept, now)];
      Sizes(w.cache.slots, room, id, Entry(kept, now), victim);
    }
  }

  lemma Sizes(slots: map<string, Entry>, room: map<string, Entry>, id: string, e: Entry, victim: string)
    requires room == slots || (room == slots - {victim} && id !in slots)
    ensures |room[id := e]| >= |slots|
  {
    assert room[id := e].Keys == room.Keys + {id};
    assert room == slots || room.Keys == slots.Keys - {victim};
    assert |room[id := e]| == |room[id := e].Keys| && |slots| == |slots.Keys|;
    Smaller(room.Keys, slots.Keys);
    if room == slots {
      Smaller(slots.Keys, room.Keys + {id});
    }
  }

  /** Once saturated, a search stays so. */
  lemma StaysSaturated(w: Search, slot: Slot, now: nat, capacity: nat, victim: string)
    requires Saturated(w, now, capacity)
    ensures Saturated(AdmitOne(w, slot, now, capacity, victim), now, capacity)
  {
    var v := AdmitOne(w, slot, now, capacity, victim);
    if slot.slotId in w.cache.slots {
      AdmitMeans(w, slot, now, capacity, victim);
      assert forall s :: s in Evictable(v, now) ==> s in Evictable(w, now);
    }
  }

  lemma {:induction false} AdmitsUnlessSaturated(w: Search, candidates: seq<Slot>, now: nat, capacity: nat, victims: seq<string>, i: nat)
    requires |victims| == |candidates| && i < |candidates| && FairVictims(w, candidates, now, capacity, victims)
    ensures var v := Admit(w, candidates, now, capacity, victims);
            candidates[i].slotId in v.admitted || w.cache.Entombed(candidates[i].slotId, now) || Saturated(v, now, capacity)
  {
    var n := |candidates| - 1;
    var before := Admit(w, candidates[..n], now, capacity, victims[..n]);
    AdmitFrame(w, candidates[..n], now, capacity, victims[..n]);
    AdmitMeans(before, candidates[n], now, capacity, victims[n]);
    if i < n {
      AdmitsUnlessSaturated(w, candidates[..n], now, capacity, victims[..n], i);
      if Saturated(before, now, capacity) {
        StaysSaturated(before, candidates[n], now, capacity, victims[n]);
      }
    }
    hide AdmitOne, Evictable, IsOldest;
    if i == n && Saturated(before, now, capacity) {
      StaysSaturated(before, candidates[n], now, capacity, victims[n]);
    }
  }

  predicate Returns(found: seq<Slot>, id: string) {
    exists j :: 0 <= j < |found| && found[j].slotId == id
  }

  lemma {:induction false} AdmittedAreFound(w: Search, candidates: seq<Slot>, now: nat, capacity: nat, victims: seq<string>, id: string)
    requires |victims| == |candidates| && FairVictims(w, candidates, now, capacity, victims)
    requires SearchOK(w, w.cache, now, capacity) && w.admitted == {} && w.found == []
    ensures var v := Admit(w, candidates, now, capacity, victims);
            (id in v.admitted <==> Returns(v.found, id)) && (id in v.admitted ==> !w.cache.Entombed(id, now))
  {
    if candidates != [] {
      var n := |candidates| - 1;
      var before := Admit(w, candidates[..n], now, capacity, victims[..n]);
      AdmittedAreFound(w, candidates[..n], now, capacity, victims[..n], id);
      AdmitKeeps(w, candidates[..n], now, capacity, victims[..n]);
      AdmitFrame(w, candidates[..n], now, capacity, victims[..n]);
      AdmitMeans(before, candidates[n], now, capacity, victims[n]);
      var v := AdmitOne(before, candidates[n], now, capacity, victims[n]);
      AppendReturns(w, before, v, candidates[n].slotId, id, now, capacity);
    }
  }

  lemma AppendReturns(start: Search, w: Search, v: Search, entered: string, id: string, now: nat, capacity: nat)
    requires SearchOK(w, start.cache, now, capacity)
    requires v != w ==>
               && v.admitted == w.admitted + {entered} && entered in v.cache.slots
               && v.found == w.found + [v.cache.slots[entered].slot] && v.cache.slots[entered].slot.slotId == entered
    requires id in w.admitted <==> Returns(w.found, id)
    ensures id in v.admitted <==> Returns(v.found, id)
  {
    if v != w {
      var last := |w.found|;
      assert v.found[last].slotId == entered;
      if Returns(w.found, id) {
        var j :| 0 <= j < |w.found| && w.found[j].slotId == id;
        assert v.found[j].slotId == id;
      }
      if Returns(v.found, id) && id != entered {
        var j :| 0 <= j < |v.found| && v.found[j].slotId == id;
        assert j < last && w.found[j].slotId == id;
      }
    }
  }

  /** A search returns every candidate that is not reserved, unless it ends with a full cache of nothing but pinned slots. */
  lemma SearchFindsAll(c: Cache, candidates: seq<Slot>, operation: string, now: nat, lim: Limits, victims: seq<string>, i: nat)
    requires CacheOK(c, now, lim.capacity) && |victims| == |candidates| && i < |candidates| && lim.pinTtl > 0
    requires FairVictims(Start(c, now), candidates, now, lim.capacity, victims)
    ensures var (d, found) := Publish(c, candidates, operation, now, lim.capacity, lim.pinTtl, victims);
            var id := candidates[i].slotId;
            && (c.Entombed(id, now) ==> !Returns(found, id))
            && (!Returns(found, id) && !c.Entombed(id, now) ==>
                  |d.slots| == lim.capacity && forall s :: s in d.slots ==> d.Pinned(s, now))
  {
    var w := Start(c, now);
    StartOK(c, now, lim.capacity);
    AdmitsUnlessSaturated(w, candidates, now, lim.capacity, victims, i);
    AdmittedAreFound(w, candidates, now, lim.capacity, victims, candidates[i].slotId);
    AdmitKeeps(w, candidates, now, lim.capacity, victims);
    var v := Admit(w, candidates, now, lim.capacity, victims);
    hide Admit, FairVictims, Returns, CacheOK;
    if Saturated(v, now, lim.capacity) {
      SaturatedIsPinned(v, w.cache, operation, now, lim);
    }
  }

  lemma SaturatedIsPinned(v: Search, start: Cache, operation: string, now: nat, lim: Limits)
    requires SearchOK(v, start, now, lim.capacity) && Saturated(v, now, lim.capacity) && lim.pinTtl > 0
    ensures var d := PinAll(v, operation, now + lim.pinTtl);
            |d.slots| == lim.capacity && forall s :: s in d.slots ==> d.Pinned(s, now)
  {
    var d := PinAll(v, operation, now + lim.pinTtl);
    forall s | s in d.slots
      ensures d.Pinned(s, now)
    {
      assert s !in Evictable(v, now);
    }
  }

  /** Nothing leaves the cache in a search that does not fill it. */
  lemma {:induction false} NothingLeavesWithRoom(w: Search, candidates: seq<Slot>, now: nat, capacity: nat, victims: seq<string>, s: string)
    requires |victims| == |candidates| && FairVictims(w, candidates, now, capacity, victims) && s in w.cache.slots
    ensures var v := Admit(w, candidates, now, capacity, victims);
            |v.cache.slots| >= |w.cache.slots|
            && (|v.cache.slots| < capacity ==> s in v.cache.slots && v.cache.slots[s].slot == w.cache.slots[s].slot)
  {
    if candidates != [] {
      var n := |candidates| - 1;
      NothingLeavesWithRoom(w, candidates[..n], now, capacity, victims[..n], s);
      AdmitMeans(Admit(w, candidates[..n], now, capacity, victims[..n]), candidates[n], now, capacity, victims[n]);
      hide AdmitOne, Evictable;
    }
  }

  /** The cache after a search holds a pin for what it returned, and every other pin that is still live. */
  lemma SearchPins(c: Cache, candidates: seq<Slot>, operation: string, now: nat, lim: Limits, victims: seq<string>, s: string)
    requires CacheOK(c, now, lim.capacity) && |victims| == |candidates| && lim.pinTtl > 0
    requires FairVictims(Start(c, now), candidates, now, lim.capacity, victims)
    ensures var (d, found) := Publish(c, candidates, operation, now, lim.capacity, lim.pinTtl, victims);
            s in d.pins <==> Returns(found, s) || c.Pinned(s, now)
    ensures var (d, found) := Publish(c, candidates, operation, now, lim.capacity, lim.pinTtl, victims);
            s in d.pins ==> d.pins[s] == if Returns(found, s) then Pin(operation, now + lim.pinTtl) else c.pins[s]
  {
    var w := Start(c, now);
    StartOK(c, now, lim.capacity);
    AdmittedAreFound(w, candidates, now, lim.capacity, victims, s);
    AdmitFrame(w, candidates, now, lim.capacity, victims);
    hide Admit, FairVictims, Returns, CacheOK;
  }

  // -- the other calls ------------------------------------------------------------------------------

  /** A booking is refused as taken exactly when another key holds its slot, and as unknown exactly when the slot is not
      stored; made, it takes the slot out of the search for its retention and touches nothing else. */
  lemma BookMeans(c: Cache, s: string, key: string, now: nat, retention: nat)
    ensures var (d, r) := BookSlot(c, s, key, now, retention);
            var held := c.Entombed(s, now) && c.tombs[s].key != key;
            && (r.Unavailable? <==> !c.Reserved(key, now) && held)
            && (r.NotFound? <==> !c.Reserved(key, now) && !held && s !in c.slots)
            && (!c.Reserved(key, now) && !held && s in c.slots ==>
                  && r == Reservation(Confirmation(BookingIdFor(key), c.slots[s].slot, now))
                  && d.bookings == c.bookings[key := Record(r.confirmation, now + retention)]
                  && d.tombs == c.tombs[s := Tombstone(key, now + retention)]
                  && s !in d.slots && d.slots == c.slots - {s} && d.pins == c.pins - {s})
            && (c.Reserved(key, now) ==> r == Reservation(c.bookings[key].confirmation))
  {
  }

  /** Every key has a booking id of its own. */
  lemma BookingIdsDiffer(a: string, b: string)
    requires BookingIdFor(a) == BookingIdFor(b)
    ensures a == b
  {
    assert BookingIdFor(a)[13..] == a && BookingIdFor(b)[13..] == b;
  }

  /** A release drops the operation's pins and no other, and nothing else. */
  lemma ReleaseMeans(c: Cache, operation: string, s: string)
    ensures var d := Release(c, operation);
            && (s in d.pins <==> s in c.pins && c.pins[s].operation != operation)
            && (s in d.pins ==> d.pins[s] == c.pins[s])
            && d.slots == c.slots && d.tombs == c.tombs && d.bookings == c.bookings
  {
  }

  lemma WholeBatch(taken: set<string>, due: set<string>, batch: nat)
    requires FillsBatch(taken, due, batch) && |due| <= batch
    ensures taken == due
  {
    if taken != due {
      var x :| x in due && x !in taken;
      Smaller(taken, due - {x});
    }
  }

  /** Cleanup takes nothing that is pinned, recently touched or still protected; and given a batch large enough it leaves
      nothing that is none of these. */
  lemma CleanupMeans(c: Cache, sweep: Sweep, now: nat, lim: Limits, batch: nat, s: string, key: string)
    requires FairSweep(c, sweep, now, lim.idleTtl, batch)
    ensures var d := Cleanup(c, sweep, now);
            && (s in c.slots && s !in d.slots ==> !c.Pinned(s, now) && c.slots[s].lastTouch + lim.idleTtl <= now)
            && (key in c.bookings && key !in d.bookings ==> !c.Reserved(key, now))
            && (s in c.tombs && s !in d.tombs ==> !c.Entombed(s, now))
            && (s in d.slots ==> s in c.slots && d.slots[s] == c.slots[s])
            && (key in d.bookings ==> key in c.bookings && d.bookings[key] == c.bookings[key])
            && (s in d.tombs ==> s in c.tombs && d.tombs[s] == c.tombs[s])
            && (s in d.pins <==> c.Pinned(s, now)) && (s in d.pins ==> d.pins[s] == c.pins[s])
            && (batch >= |c.slots| && s in d.slots ==> c.Pinned(s, now) || c.slots[s].lastTouch + lim.idleTtl > now)
            && (batch >= |c.bookings| && key in d.bookings ==> d.Reserved(key, now))
            && (batch >= |c.tombs| && s in d.tombs ==> d.Entombed(s, now))
  {
    Smaller(IdleSlots(c, now, lim.idleTtl), c.slots.Keys);
    Smaller(LapsedKeys(c, now), c.bookings.Keys);
    Smaller(LapsedTombs(c, now), c.tombs.Keys);
    if batch >= |c.slots| {
      WholeBatch(sweep.idle, IdleSlots(c, now, lim.idleTtl), batch);
    }
    if batch >= |c.bookings| {
      WholeBatch(sweep.keys, LapsedKeys(c, now), batch);
    }
    if batch >= |c.tombs| {
      WholeBatch(sweep.tombs, LapsedTombs(c, now), batch);
    }
  }
}
