/** The mock provider's shared state and its decisions: published slots under a capacity,
    pins, bookings and tombstones (backend/db/repositories/mock_booking.py:117-344).
    Where the stores may break a tie differently, the tie is an explicit choice. */
module MockCache {
  import opened Wrappers
  import opened Watches
  import opened SortedSets

  datatype Entry = Entry(slot: Slot, lastTouch: nat)
  datatype Record = Record(confirmation: Confirmation, protectedUntil: nat)
  datatype Tombstone = Tombstone(key: string, protectedUntil: nat)
  datatype Pin = Pin(operation: string, expiresAt: nat)

  datatype Cache = Cache(
    slots: map<string, Entry>,
    tombs: map<string, Tombstone>,
    bookings: map<string, Record>,
    pins: map<string, Pin>)
  {
    predicate Pinned(s: string, now: nat) {
      s in pins && pins[s].expiresAt > now
    }

    predicate Entombed(s: string, now: nat) {
      s in tombs && tombs[s].protectedUntil > now
    }

    /** The key holds a booking still inside its retention. */
    predicate Reserved(key: string, now: nat) {
      key in bookings && bookings[key].protectedUntil > now
    }
  }

  /** A provider that has seen nothing yet. */
  const NOTHING := Cache(map[], map[], map[], map[])

  datatype BookResult = Reservation(confirmation: Confirmation) | Unavailable | NotFound

  // -- publishing under a capacity ------------------------------------------------

  /** A search in progress: the cache, the slots it admitted, what it will return. */
  datatype Search = Search(cache: Cache, admitted: set<string>, found: seq<Slot>)

  function Evictable(w: Search, now: nat): set<string> {
    set s | s in w.cache.slots && !w.cache.Pinned(s, now) && s !in w.admitted
  }

  predicate IsOldest(w: Search, now: nat, victim: string) {
    && victim in Evictable(w, now)
    && forall s :: s in Evictable(w, now) ==> w.cache.slots[victim].lastTouch <= w.cache.slots[s].lastTouch
  }

  function ExpirePins(c: Cache, now: nat): Cache {
    c.(pins := map s | s in c.pins && c.pins[s].expiresAt > now :: c.pins[s])
  }

  predicate MustEvict(w: Search, slot: Slot, now: nat, capacity: nat) {
    && !w.cache.Entombed(slot.slotId, now)
    && slot.slotId !in w.cache.slots
    && |w.cache.slots| >= capacity
    && Evictable(w, now) != {}
  }

  /** One candidate; `victim` is the oldest evictable slot chosen if one must go. */
  function AdmitOne(w: Search, slot: Slot, now: nat, capacity: nat, victim: string): Search {
    var id := slot.slotId;
    if w.cache.Entombed(id, now) then w
    else if id in w.cache.slots then
      var entry := w.cache.slots[id];
      Search(w.cache.(slots := w.cache.slots[id := Entry(entry.slot, now)]), w.admitted + {id}, w.found + [entry.slot])
    else if |w.cache.slots| >= capacity && Evictable(w, now) == {} then w
    else
      var room := if |w.cache.slots| >= capacity then w.cache.slots - {victim} else w.cache.slots;
      Search(w.cache.(slots := room[id := Entry(slot, now)]), w.admitted + {id}, w.found + [slot])
  }

  function Admit(w: Search, candidates: seq<Slot>, now: nat, capacity: nat, victims: seq<string>): Search
    requires |victims| == |candidates|
  {
    if candidates == [] then w
    else
      var n := |candidates| - 1;
      AdmitOne(Admit(w, candidates[..n], now, capacity, victims[..n]), candidates[n], now, capacity, victims[n])
  }

  /** Every victim was an oldest evictable slot at the moment it was needed. */
  predicate FairVictims(w: Search, candidates: seq<Slot>, now: nat, capacity: nat, victims: seq<string>)
    requires |victims| == |candidates|
  {
    if candidates == [] then true
    else
      var n := |candidates| - 1;
      var before := Admit(w, candidates[..n], now, capacity, victims[..n]);
      && FairVictims(w, candidates[..n], now, capacity, victims[..n])
      && (MustEvict(before, candidates[n], now, capacity) ==> IsOldest(before, now, victims[n]))
  }

  function Start(c: Cache, now: nat): Search {
    Search(ExpirePins(c, now), {}, [])
  }

  function PinsFor(admitted: set<string>, operation: string, expiresAt: nat): map<string, Pin> {
    map s | s in admitted :: Pin(operation, expiresAt)
  }

  function PinAll(w: Search, operation: string, expiresAt: nat): Cache {
    w.cache.(pins := w.cache.pins + PinsFor(w.admitted, operation, expiresAt))
  }

  /** publish_and_filter: admit in order, then pin everything admitted to this operation. */
  function Publish(c: Cache, candidates: seq<Slot>, operation: string, now: nat, capacity: nat, pinTtl: nat,
                   victims: seq<string>): (Cache, seq<Slot>)
    requires |victims| == |candidates|
  {
    var w := Admit(Start(c, now), candidates, now, capacity, victims);
    (PinAll(w, operation, now + pinTtl), w.found)
  }

  function Release(c: Cache, operation: string): Cache {
    c.(pins := map s | s in c.pins && c.pins[s].operation != operation :: c.pins[s])
  }

  // -- booking ----------------------------------------------------------------------

  function BookingIdFor(key: string): string {
    "mock_booking_" + key
  }

  function GetBooking(c: Cache, key: string, now: nat): Option<Confirmation> {
    if c.Reserved(key, now) then Some(c.bookings[key].confirmation) else None
  }

  function BookSlot(c: Cache, s: string, key: string, now: nat, retention: nat): (Cache, BookResult) {
    if c.Reserved(key, now) then (c, Reservation(c.bookings[key].confirmation))
    else if c.Entombed(s, now) && c.tombs[s].key != key then (c, Unavailable)
    else if s !in c.slots then (c, NotFound)
    else
      var confirmation := Confirmation(BookingIdFor(key), c.slots[s].slot, now);
      var until := now + retention;
      (Cache(c.slots - {s}, c.tombs[s := Tombstone(key, until)], c.bookings[key := Record(confirmation, until)], c.pins - {s}),
       Reservation(confirmation))
  }

  // -- cleanup ------------------------------------------------------------------------

  datatype Sweep = Sweep(idle: set<string>, keys: set<string>, tombs: set<string>)

  function IdleSlots(c: Cache, now: nat, idleTtl: nat): set<string> {
    set s | s in c.slots && !c.Pinned(s, now) && c.slots[s].lastTouch + idleTtl <= now
  }

  function LapsedKeys(c: Cache, now: nat): set<string> {
    set k | k in c.bookings && c.bookings[k].protectedUntil <= now
  }

  function LapsedTombs(c: Cache, now: nat): set<string> {
    set s | s in c.tombs && c.tombs[s].protectedUntil <= now
  }

  /** The sweep removes only due entries, and as many of each kind as the batch allows. */
  predicate FairSweep(c: Cache, sweep: Sweep, now: nat, idleTtl: nat, batch: nat) {
    && FillsBatch(sweep.idle, IdleSlots(c, now, idleTtl), batch)
    && FillsBatch(sweep.keys, LapsedKeys(c, now), batch)
    && FillsBatch(sweep.tombs, LapsedTombs(c, now), batch)
  }

  function Cleanup(c: Cache, sweep: Sweep, now: nat): Cache {
    ExpirePins(c, now).(slots := c.slots - sweep.idle, bookings := c.bookings - sweep.keys, tombs := c.tombs - sweep.tombs)
  }

  // -- what every reachable cache keeps ---------------------------------------------

  /** A protected booking and a protected tombstone are two views of one reservation. */
  predicate Linked(c: Cache, key: string, s: string, now: nat) {
    && c.Reserved(key, now) && c.Entombed(s, now)
    && c.tombs[s] == Tombstone(key, c.bookings[key].protectedUntil)
    && c.bookings[key].confirmation.slot.slotId == s
    && c.bookings[key].confirmation.bookingId == BookingIdFor(key)
  }

  ghost predicate SlotsOK(c: Cache, now: nat, capacity: nat) {
    && |c.slots| <= capacity
    && c.pins.Keys <= c.slots.Keys
    && forall s :: s in c.slots ==> c.slots[s].slot.slotId == s && !c.Entombed(s, now)
  }

  ghost predicate BookingsOK(c: Cache, now: nat) {
    && (forall k :: c.Reserved(k, now) ==> Linked(c, k, c.bookings[k].confirmation.slot.slotId, now))
    && (forall s :: c.Entombed(s, now) ==> Linked(c, c.tombs[s].key, s, now))
  }

  ghost predicate CacheOK(c: Cache, now: nat, capacity: nat) {
    SlotsOK(c, now, capacity) && BookingsOK(c, now)
  }

  /** Two keys never hold one protected slot, and one key never holds two. */
  lemma Exclusive(c: Cache, now: nat, k1: string, s1: string, k2: string, s2: string)
    requires BookingsOK(c, now)
    requires c.Entombed(s1, now) && c.tombs[s1].key == k1
    requires c.Entombed(s2, now) && c.tombs[s2].key == k2
    ensures k1 == k2 <==> s1 == s2
  {
    assert Linked(c, k1, s1, now) && Linked(c, k2, s2, now);
  }

  lemma CacheLater(c: Cache, now: nat, later: nat, capacity: nat)
    requires CacheOK(c, now, capacity) && now <= later
    ensures CacheOK(c, later, capacity)
  {
    forall k | c.Reserved(k, later)
      ensures Linked(c, k, c.bookings[k].confirmation.slot.slotId, later)
    {
      assert Linked(c, k, c.bookings[k].confirmation.slot.slotId, now);
    }
    forall s | c.Entombed(s, later)
      ensures Linked(c, c.tombs[s].key, s, later)
    {
      assert Linked(c, c.tombs[s].key, s, now);
    }
  }

  lemma BookKeepsBookings(c: Cache, s: string, key: string, now: nat, retention: nat, capacity: nat)
    requires CacheOK(c, now, capacity)
    ensures BookingsOK(BookSlot(c, s, key, now, retention).0, now)
  {
    var d := BookSlot(c, s, key, now, retention).0;
    if d != c {
      forall k | d.Reserved(k, now)
        ensures Linked(d, k, d.bookings[k].confirmation.slot.slotId, now)
      {
        if k != key {
          assert Linked(c, k, c.bookings[k].confirmation.slot.slotId, now);
        }
      }
      forall t | d.Entombed(t, now)
        ensures Linked(d, d.tombs[t].key, t, now)
      {
        if t != s {
          assert Linked(c, c.tombs[t].key, t, now);
        }
      }
    }
  }

  lemma BookKeeps(c: Cache, s: string, key: string, now: nat, retention: nat, capacity: nat)
    requires CacheOK(c, now, capacity)
    ensures CacheOK(BookSlot(c, s, key, now, retention).0, now, capacity)
  {
    BookKeepsBookings(c, s, key, now, retention, capacity);
    var d := BookSlot(c, s, key, now, retention).0;
    if d != c {
      assert d.slots.Keys == c.slots.Keys - {s};
    }
  }

  /** What a booking answers is what the provider then holds: a confirmed key is protected with that very
      confirmation on its slot, a refused slot is protected for someone else, and a refusal changes nothing. */
  lemma BookOutcome(c: Cache, s: string, key: string, now: nat, retention: nat)
    requires retention > 0
    ensures var (d, result) := BookSlot(c, s, key, now, retention);
            && (result.Reservation? <==> d.Reserved(key, now))
            && (result.Reservation? ==> d.bookings[key].confirmation == result.confirmation)
            && (result.Reservation? && !c.Reserved(key, now) ==>
                  && s in c.slots && s !in d.slots && result.confirmation.slot == c.slots[s].slot
                  && d.Entombed(s, now) && d.tombs[s] == Tombstone(key, now + retention))
            && (result.Unavailable? ==> c.Entombed(s, now) && c.tombs[s].key != key)
            && (!result.Reservation? || c.Reserved(key, now) ==> d == c)
  {
  }

  /** Until its retention ends a booking replays: any later attempt under the key, for any slot, gets the
      first confirmation and changes nothing, and no other key gets the slot. */
  lemma BookReplays(c: Cache, s: string, key: string, now: nat, retention: nat, other: string, t: string, later: nat)
    requires now <= later < now + retention && !c.Reserved(key, now)
    ensures var (d, result) := BookSlot(c, s, key, now, retention);
            result.Reservation? ==>
              && BookSlot(d, t, key, later, retention) == (d, result)
              && (other != key && !d.Reserved(other, later) ==>
                    BookSlot(d, s, other, later, retention) == (d, Unavailable))
  {
  }

  // -- one search --------------------------------------------------------------------

  /** What a search in progress keeps: bounds, and everything admitted or pinned still stored. */
  ghost predicate SearchOK(w: Search, start: Cache, now: nat, capacity: nat) {
    && SlotsOK(w.cache, now, capacity)
    && w.cache.tombs == start.tombs && w.cache.bookings == start.bookings && w.cache.pins == start.pins
    && (forall s :: s in w.cache.pins ==> w.cache.pins[s].expiresAt > now)
    && (forall s :: s in w.admitted ==> s in w.cache.slots && w.cache.slots[s].lastTouch == now)
    && (forall slot :: slot in w.found ==> slot.slotId in w.admitted && w.cache.slots[slot.slotId].slot == slot)
  }

  lemma AdmitOneKeeps(w: Search, start: Cache, slot: Slot, now: nat, capacity: nat, victim: string)
    requires SearchOK(w, start, now, capacity)
    requires MustEvict(w, slot, now, capacity) ==> IsOldest(w, now, victim)
    ensures SearchOK(AdmitOne(w, slot, now, capacity, victim), start, now, capacity)
  {
    var v := AdmitOne(w, slot, now, capacity, victim);
    var id := slot.slotId;
    if v != w {
      var room := if id !in w.cache.slots && |w.cache.slots| >= capacity then w.cache.slots - {victim} else w.cache.slots;
      assert room.Keys == w.cache.slots.Keys || room.Keys == w.cache.slots.Keys - {victim};
      var kept := if id in w.cache.slots then w.cache.slots[id].slot else slot;
      assert v.cache.slots == room[id := Entry(kept, now)];
      StoreKeeps(w.(cache := w.cache.(slots := room)), start, id, kept, now, capacity);
    }
  }

  lemma StoreKeeps(w: Search, start: Cache, id: string, slot: Slot, now: nat, capacity: nat)
    requires SearchOK(w, start, now, capacity) && slot.slotId == id && !w.cache.Entombed(id, now)
    requires id in w.cache.slots ==> w.cache.slots[id].slot == slot
    requires id !in w.cache.slots ==> |w.cache.slots| < capacity
    ensures SearchOK(Search(w.cache.(slots := w.cache.slots[id := Entry(slot, now)]), w.admitted + {id}, w.found + [slot]),
                     start, now, capacity)
  {
    StoreKeepsSlots(w.cache, id, slot, now, capacity);
    var v := w.cache.(slots := w.cache.slots[id := Entry(slot, now)]);
    forall other | other in w.found + [slot]
      ensures other.slotId in w.admitted + {id} && v.slots[other.slotId].slot == other
    {
      assert other in w.found || other == slot;
    }
  }

  lemma StoreKeepsSlots(c: Cache, id: string, slot: Slot, now: nat, capacity: nat)
    requires SlotsOK(c, now, capacity) && slot.slotId == id && !c.Entombed(id, now)
    requires id !in c.slots ==> |c.slots| < capacity
    ensures SlotsOK(c.(slots := c.slots[id := Entry(slot, now)]), now, capacity)
  {
    assert c.slots[id := Entry(slot, now)].Keys == c.slots.Keys + {id};
  }

  predicate IsSubsequence(a: seq<string>, b: seq<string>) {
    if a == [] then true
    else if b == [] then false
    else if a[|a| - 1] == b[|b| - 1] then IsSubsequence(a[..|a| - 1], b[..|b| - 1])
    else IsSubsequence(a, b[..|b| - 1])
  }

  function Ids(slots: seq<Slot>): (ids: seq<string>)
    ensures |ids| == |slots|
  {
    seq(|slots|, i requires 0 <= i < |slots| => slots[i].slotId)
  }

  lemma {:induction false} AdmitKeeps(w: Search, candidates: seq<Slot>, now: nat, capacity: nat, victims: seq<string>)
    requires |victims| == |candidates|
    requires SearchOK(w, w.cache, now, capacity) && FairVictims(w, candidates, now, capacity, victims)
    ensures SearchOK(Admit(w, candidates, now, capacity, victims), w.cache, now, capacity)
  {
    if candidates != [] {
      var n := |candidates| - 1;
      AdmitKeeps(w, candidates[..n], now, capacity, victims[..n]);
      AdmitOneKeeps(Admit(w, candidates[..n], now, capacity, victims[..n]), w.cache, candidates[n], now, capacity, victims[n]);
    }
  }

  lemma IdsAppend(slots: seq<Slot>, slot: Slot)
    ensures Ids(slots + [slot]) == Ids(slots) + [slot.slotId]
  {
  }

  lemma AdmitOneFinds(w: Search, start: Cache, slot: Slot, now: nat, capacity: nat, victim: string)
    requires SearchOK(w, start, now, capacity)
    ensures var v := AdmitOne(w, slot, now, capacity, victim);
            v.found == w.found || Ids(v.found) == Ids(w.found) + [slot.slotId]
  {
  }

  lemma {:induction false} FoundInOrder(w: Search, candidates: seq<Slot>, now: nat, capacity: nat, victims: seq<string>)
    requires |victims| == |candidates| && w.found == []
    requires SearchOK(w, w.cache, now, capacity) && FairVictims(w, candidates, now, capacity, victims)
    ensures IsSubsequence(Ids(Admit(w, candidates, now, capacity, victims).found), Ids(candidates))
  {
    hide SearchOK, IsOldest, Evictable;
    if candidates != [] {
      var n := |candidates| - 1;
      FoundInOrder(w, candidates[..n], now, capacity, victims[..n]);
      AdmitKeeps(w, candidates[..n], now, capacity, victims[..n]);
      var before := Admit(w, candidates[..n], now, capacity, victims[..n]);
      var v := AdmitOne(before, candidates[n], now, capacity, victims[n]);
      var id := candidates[n].slotId;
      IdsAppend(candidates[..n], candidates[n]);
      assert candidates == candidates[..n] + [candidates[n]];
      hide Admit, AdmitOne, Ids, IsSubsequence;
      AdmitOneFinds(before, w.cache, candidates[n], now, capacity, victims[n]);
      Extend(Ids(before.found), Ids(candidates[..n]), id);
    }
  }

  lemma Extend(a: seq<string>, b: seq<string>, x: string)
    requires IsSubsequence(a, b)
    ensures IsSubsequence(a, b + [x]) && IsSubsequence(a + [x], b + [x])
  {
    Widen(a, b, x);
    assert (b + [x])[..|b|] == b && (a + [x])[..|a|] == a;
  }

  lemma {:induction false} Widen(a: seq<string>, b: seq<string>, x: string)
    requires IsSubsequence(a, b)
    ensures IsSubsequence(a, b + [x])
    decreases |b|, 1
  {
    assert (b + [x])[..|b|] == b;
    if a != [] && a[|a| - 1] == x {
      Shorten(a, b);
    }
  }

  lemma {:induction false} Shorten(a: seq<string>, b: seq<string>)
    requires a != [] && IsSubsequence(a, b)
    ensures IsSubsequence(a[..|a| - 1], b)
    decreases |b|, 0
  {
    var n := |b| - 1;
    if a[|a| - 1] != b[n] {
      Shorten(a, b[..n]);
    }
    Widen(a[..|a| - 1], b[..n], b[n]);
    assert b[..n] + [b[n]] == b;
  }

  /** A finished search: bounded, in candidate order, every returned slot stored as returned,
      pinned to this operation and free of any reservation; no reservation was touched. */
  lemma PublishKeeps(c: Cache, candidates: seq<Slot>, operation: string, now: nat, capacity: nat, pinTtl: nat,
                     victims: seq<string>)
    requires CacheOK(c, now, capacity) && |victims| == |candidates|
    requires FairVictims(Start(c, now), candidates, now, capacity, victims)
    ensures var (d, found) := Publish(c, candidates, operation, now, capacity, pinTtl, victims);
            && CacheOK(d, now, capacity)
            && d.tombs == c.tombs && d.bookings == c.bookings
            && IsSubsequence(Ids(found), Ids(candidates))
            && (forall slot :: slot in found ==>
                  && slot.slotId in d.slots && d.slots[slot.slotId] == Entry(slot, now)
                  && slot.slotId in d.pins && d.pins[slot.slotId] == Pin(operation, now + pinTtl)
                  && !d.Entombed(slot.slotId, now))
  {
    hide Admit, FairVictims, IsSubsequence, Ids, SearchOK, SlotsOK, BookingsOK;
    var w := Start(c, now);
    StartOK(c, now, capacity);
    AdmitKeeps(w, candidates, now, capacity, victims);
    FoundInOrder(w, candidates, now, capacity, victims);
    var v := Admit(w, candidates, now, capacity, victims);
    PinAllKeeps(v, w.cache, operation, now, capacity, now + pinTtl);
    SameReservations(c, PinAll(v, operation, now + pinTtl), now);
  }

  lemma StartOK(c: Cache, now: nat, capacity: nat)
    requires SlotsOK(c, now, capacity)
    ensures SearchOK(Start(c, now), Start(c, now).cache, now, capacity)
  {
  }

  lemma PinAllKeeps(w: Search, start: Cache, operation: string, now: nat, capacity: nat, expiresAt: nat)
    requires SearchOK(w, start, now, capacity)
    ensures var d := PinAll(w, operation, expiresAt);
            && SlotsOK(d, now, capacity) && d.tombs == start.tombs && d.bookings == start.bookings
            && (forall slot :: slot in w.found ==>
                  && slot.slotId in d.slots && d.slots[slot.slotId] == Entry(slot, now)
                  && slot.slotId in d.pins && d.pins[slot.slotId] == Pin(operation, expiresAt)
                  && !d.Entombed(slot.slotId, now))
  {
    forall slot | slot in w.found
      ensures w.cache.slots[slot.slotId] == Entry(slot, now)
    {
      assert slot.slotId in w.admitted;
    }
  }

  lemma SameReservations(c: Cache, d: Cache, now: nat)
    requires BookingsOK(c, now) && d.tombs == c.tombs && d.bookings == c.bookings
    ensures BookingsOK(d, now)
  {
    forall k | d.Reserved(k, now)
      ensures Linked(d, k, d.bookings[k].confirmation.slot.slotId, now)
    {
      assert Linked(c, k, c.bookings[k].confirmation.slot.slotId, now);
    }
    forall s | d.Entombed(s, now)
      ensures Linked(d, d.tombs[s].key, s, now)
    {
      assert Linked(c, c.tombs[s].key, s, now);
    }
  }

  /** Only slots that were unpinned, not admitted by this search and oldest can leave. */
  lemma {:induction false} EvictionIsFair(w: Search, candidates: seq<Slot>, now: nat, capacity: nat, victims: seq<string>, s: string)
    requires |victims| == |candidates|
    requires FairVictims(w, candidates, now, capacity, victims)
    requires s in w.cache.slots && (w.cache.Pinned(s, now) || s in w.admitted || s !in victims)
    ensures var v := Admit(w, candidates, now, capacity, victims);
            s in v.cache.slots && v.cache.pins == w.cache.pins && w.admitted <= v.admitted
  {
    if candidates != [] {
      var n := |candidates| - 1;
      EvictionIsFair(w, candidates[..n], now, capacity, victims[..n], s);
      assert victims[n] in victims;
    }
  }

  // -- the fold, one candidate at a time -----------------------------------------------

  lemma AppendAdmit(w: Search, candidates: seq<Slot>, i: nat, now: nat, capacity: nat, victims: seq<string>,
                    victim: string, before: Search, after: Search)
    requires |victims| == i < |candidates| && FairVictims(w, candidates[..i], now, capacity, victims)
    requires before == Admit(w, candidates[..i], now, capacity, victims)
    requires after == AdmitOne(before, candidates[i], now, capacity, victim)
    requires MustEvict(before, candidates[i], now, capacity) ==> IsOldest(before, now, victim)
    ensures Admit(w, candidates[..i + 1], now, capacity, victims + [victim]) == after
    ensures FairVictims(w, candidates[..i + 1], now, capacity, victims + [victim])
  {
    assert candidates[..i + 1][..i] == candidates[..i];
    assert (victims + [victim])[..i] == victims;
  }

  lemma {:induction false} AdmitFrame(w: Search, candidates: seq<Slot>, now: nat, capacity: nat, victims: seq<string>)
    requires |victims| == |candidates|
    ensures var v := Admit(w, candidates, now, capacity, victims);
            v.cache.tombs == w.cache.tombs && v.cache.bookings == w.cache.bookings && v.cache.pins == w.cache.pins
  {
    if candidates != [] {
      var n := |candidates| - 1;
      AdmitFrame(w, candidates[..n], now, capacity, victims[..n]);
    }
  }

  lemma ClosePublish(c: Cache, candidates: seq<Slot>, operation: string, now: nat, lim: Limits, victims: seq<string>,
                     w: Search, d: Cache)
    requires |victims| == |candidates|
    requires w == Admit(Start(c, now), candidates, now, lim.capacity, victims)
    requires d == PinAll(w, operation, now + lim.pinTtl)
    ensures Publish(c, candidates, operation, now, lim.capacity, lim.pinTtl, victims) == (d, w.found)
  {
    hide Admit, Start, PinAll;
  }

  // -- whole runs ---------------------------------------------------------------------

  datatype Limits = Limits(capacity: nat, idleTtl: nat, retention: nat, pinTtl: nat)

  datatype CacheOp =
    | Look(candidates: seq<Slot>, operation: string, victims: seq<string>)
    | Take(slotId: string, key: string)
    | Drop(operation: string)
    | Clean(sweep: Sweep, batch: nat)
    | Ask(key: string)

  datatype Timed = Timed(now: nat, op: CacheOp)

  predicate Fair(c: Cache, now: nat, op: CacheOp, lim: Limits) {
    match op
    case Look(candidates, _, victims) =>
      |victims| == |candidates| && FairVictims(Start(c, now), candidates, now, lim.capacity, victims)
    case Take(_, _) => true
    case Drop(_) => true
    case Clean(sweep, batch) => FairSweep(c, sweep, now, lim.idleTtl, batch)
    case Ask(_) => true
  }

  function Do(c: Cache, now: nat, op: CacheOp, lim: Limits): Cache
    requires Fair(c, now, op, lim)
  {
    match op
    case Look(candidates, operation, victims) =>
      Publish(c, candidates, operation, now, lim.capacity, lim.pinTtl, victims).0
    case Take(s, key) => BookSlot(c, s, key, now, lim.retention).0
    case Drop(operation) => Release(c, operation)
    case Clean(sweep, _) => Cleanup(c, sweep, now)
    case Ask(_) => c
  }

  lemma CleanupKeeps(c: Cache, sweep: Sweep, now: nat, lim: Limits, batch: nat)
    requires CacheOK(c, now, lim.capacity) && FairSweep(c, sweep, now, lim.idleTtl, batch)
    ensures CacheOK(Cleanup(c, sweep, now), now, lim.capacity)
  {
    var d := Cleanup(c, sweep, now);
    assert d.slots.Keys == c.slots.Keys - sweep.idle;
    assert |d.slots.Keys| <= |c.slots.Keys| by {
      Smaller(d.slots.Keys, c.slots.Keys);
    }
    assert forall s :: s in d.pins ==> c.Pinned(s, now);
    forall k | d.Reserved(k, now)
      ensures Linked(d, k, d.bookings[k].confirmation.slot.slotId, now)
    {
      assert Linked(c, k, c.bookings[k].confirmation.slot.slotId, now);
    }
    forall s | d.Entombed(s, now)
      ensures Linked(d, d.tombs[s].key, s, now)
    {
      assert Linked(c, c.tombs[s].key, s, now);
    }
  }

  lemma DoKeeps(c: Cache, now: nat, op: CacheOp, lim: Limits)
    requires CacheOK(c, now, lim.capacity) && Fair(c, now, op, lim)
    ensures CacheOK(Do(c, now, op, lim), now, lim.capacity)
  {
    match op
    case Look(candidates, operation, victims) =>
      PublishKeeps(c, candidates, operation, now, lim.capacity, lim.pinTtl, victims);
    case Take(s, key) => BookKeeps(c, s, key, now, lim.retention, lim.capacity);
    case Drop(operation) => SameReservations(c, Release(c, operation), now);
    case Clean(sweep, batch) => CleanupKeeps(c, sweep, now, lim, batch);
    case Ask(_) =>
  }

  /** A run is a chain of fair operations on a clock that never goes back. */
  predicate IsRun(c: Cache, start: nat, ops: seq<Timed>, lim: Limits)
    decreases |ops|
  {
    ops != [] ==>
      && start <= ops[0].now
      && Fair(c, ops[0].now, ops[0].op, lim)
      && IsRun(Do(c, ops[0].now, ops[0].op, lim), ops[0].now, ops[1..], lim)
  }

  function Run(c: Cache, start: nat, ops: seq<Timed>, lim: Limits): (Cache, nat)
    requires IsRun(c, start, ops, lim)
    decreases |ops|
  {
    if ops == [] then (c, start) else Run(Do(c, ops[0].now, ops[0].op, lim), ops[0].now, ops[1..], lim)
  }

  /** Over any run: the capacity holds, reservations stay exclusive, and a reservation made
      is found unchanged under its key until its retention ends. */
  lemma {:induction false} RunKeeps(c: Cache, start: nat, ops: seq<Timed>, lim: Limits, key: string)
    requires CacheOK(c, start, lim.capacity) && IsRun(c, start, ops, lim)
    ensures var (d, end) := Run(c, start, ops, lim);
            && CacheOK(d, end, lim.capacity)
            && (c.Reserved(key, start) && c.bookings[key].protectedUntil > end ==>
                  d.Reserved(key, end) && d.bookings[key] == c.bookings[key])
    decreases |ops|
  {
    if ops != [] {
      var now, op := ops[0].now, ops[0].op;
      CacheLater(c, start, now, lim.capacity);
      DoKeeps(c, now, op, lim);
      DoHolds(c, now, op, lim, key);
      RunKeeps(Do(c, now, op, lim), now, ops[1..], lim, key);
      TimeForward(Do(c, now, op, lim), now, ops[1..], lim);
    }
  }

  lemma {:induction false} TimeForward(c: Cache, start: nat, ops: seq<Timed>, lim: Limits)
    requires IsRun(c, start, ops, lim)
    ensures start <= Run(c, start, ops, lim).1
    decreases |ops|
  {
    if ops != [] {
      TimeForward(Do(c, ops[0].now, ops[0].op, lim), ops[0].now, ops[1..], lim);
    }
  }

  lemma DoHolds(c: Cache, now: nat, op: CacheOp, lim: Limits, key: string)
    requires CacheOK(c, now, lim.capacity) && Fair(c, now, op, lim)
    ensures var d := Do(c, now, op, lim);
            c.Reserved(key, now) ==> d.Reserved(key, now) && d.bookings[key] == c.bookings[key]
  {
    if op.Look? {
      PublishKeeps(c, op.candidates, op.operation, now, lim.capacity, lim.pinTtl, op.victims);
    }
  }
}
