/** The Redis mock provider store: five coupled slot indexes, tombstone and booking keys,
    one method per Lua script (backend/db/repositories/mock_booking_scripts.py,
    backend/db/repositories/mock_booking.py:350-485). `model` is the in-memory cache the
    keys stand for; every script moves it by the in-memory decision. */
module RedisMockBooking {
  import opened Wrappers
  import opened ClaimText
  import opened Watches
  import opened MockCache
  import opened SortedSets

  // -- how the keys stand for the cache ---------------------------------------------

  /** `all` scores every stored slot; `lru` is exactly `all` without the pinned ones. */
  predicate SlotIndex(slots: map<string, Entry>, docs: map<string, Slot>, all: map<string, nat>,
                      lru: map<string, nat>, pin: map<string, nat>)
  {
    && docs.Keys == slots.Keys && all.Keys == slots.Keys
    && pin.Keys <= slots.Keys
    && lru.Keys == slots.Keys - pin.Keys
    && (forall s :: s in slots ==> docs[s] == slots[s].slot && all[s] == slots[s].lastTouch)
    && (forall s :: s in lru ==> lru[s] == all[s])
  }

  /** `pinop` inverts `pinowner`, but for operations whose pins have all run out. */
  predicate PinIndex(pins: map<string, Pin>, pin: map<string, nat>, owner: map<string, string>,
                     pinOp: map<string, set<string>>, now: nat)
  {
    && pin.Keys == owner.Keys
    && (forall s :: s in pin && pin[s] > now ==> s in pins && pins[s] == Pin(owner[s], pin[s]))
    && (forall s :: s in pins && pins[s].expiresAt > now ==> s in pin && pin[s] > now)
    && (forall o :: o in pinOp ==> forall s :: s in pinOp[o] ==> s in owner && owner[s] == o)
    && (forall s :: s in pin && pin[s] > now ==> owner[s] in pinOp && s in pinOp[owner[s]])
  }

  function PrintTomb(key: string, until: nat): string {
    key + "|" + Print(until)
  }

  predicate TombIndex(tombs: map<string, Tombstone>, booked: map<string, string>, tombExp: map<string, nat>, now: nat) {
    && tombExp.Keys == tombs.Keys && booked.Keys <= tombs.Keys
    && (forall s :: s in tombs ==>
          && tombExp[s] == tombs[s].protectedUntil
          && '|' !in tombs[s].key
          && (s in booked ==> booked[s] == PrintTomb(tombs[s].key, tombs[s].protectedUntil))
          && (s !in booked ==> tombs[s].protectedUntil <= now))
  }

  predicate BookIndex(bookings: map<string, Record>, docs: map<string, Confirmation>, bookExp: map<string, nat>, now: nat) {
    && bookExp.Keys == bookings.Keys && docs.Keys <= bookings.Keys
    && (forall k :: k in bookings ==>
          && bookExp[k] == bookings[k].protectedUntil
          && (k in docs ==> docs[k] == bookings[k].confirmation)
          && (k !in docs ==> bookings[k].protectedUntil <= now))
  }

  /** A tombstone cut at its first bar reads back as the key and deadline it was written with if and only
      if the key holds no bar. */
  lemma ReadTomb(key: string, until: nat)
    ensures var v := PrintTomb(key, until);
            var bar := Find(v, '|', 0);
            bar.Some? && (v[..bar.value] == key && Parse(v[bar.value + 1..]) == Some(until) <==> '|' !in key)
  {
    var v := PrintTomb(key, until);
    FirstBar([], key, Print(until));
    assert v == [] + key + ['|'] + Print(until);
    if '|' !in key {
      assert v[..|key|] == key && v[|key| + 1..] == Print(until);
      ParsePrint(until);
    }
  }

  // -- what one script step does to one index ----------------------------------------

  function UnpinOp(pinOp: map<string, set<string>>, owner: map<string, string>, s: string): map<string, set<string>> {
    if s in owner && owner[s] in pinOp then pinOp[owner[s] := pinOp[owner[s]] - {s}] else pinOp
  }

  lemma PinDropped(pins: map<string, Pin>, pins': map<string, Pin>, pin: map<string, nat>, owner: map<string, string>,
                   pinOp: map<string, set<string>>, now: nat, s: string)
    requires PinIndex(pins, pin, owner, pinOp, now)
    requires pins' == pins - {s} || (pins' == pins && s in pin && pin[s] <= now)
    ensures PinIndex(pins', pin - {s}, owner - {s}, UnpinOp(pinOp, owner, s), now)
  {
  }

  lemma SlotUnpinned(slots: map<string, Entry>, docs: map<string, Slot>, all: map<string, nat>,
                     lru: map<string, nat>, pin: map<string, nat>, s: string)
    requires SlotIndex(slots, docs, all, lru, pin) && s in pin
    ensures SlotIndex(slots, docs, all, lru[s := all[s]], pin - {s})
  {
  }

  lemma SlotsGone(slots: map<string, Entry>, docs: map<string, Slot>, all: map<string, nat>,
                  lru: map<string, nat>, pin: map<string, nat>, gone: set<string>)
    requires SlotIndex(slots, docs, all, lru, pin)
    ensures SlotIndex(slots - gone, docs - gone, all - gone, lru - gone, pin - gone)
  {
  }

  lemma UnpinnedGone(slots: map<string, Entry>, docs: map<string, Slot>, all: map<string, nat>,
                     lru: map<string, nat>, pin: map<string, nat>, gone: set<string>)
    requires SlotIndex(slots, docs, all, lru, pin) && gone <= lru.Keys
    ensures SlotIndex(slots - gone, docs - gone, all - gone, lru - gone, pin)
  {
    SlotsGone(slots, docs, all, lru, pin, gone);
    assert pin - gone == pin;
  }

  function PinOpSet(pinOp: map<string, set<string>>, owner: map<string, string>, s: string, operation: string)
    : map<string, set<string>>
  {
    var freed := if s in owner && owner[s] != operation && owner[s] in pinOp
                 then pinOp[owner[s] := pinOp[owner[s]] - {s}] else pinOp;
    freed[operation := (if operation in freed then freed[operation] else {}) + {s}]
  }

  lemma PinSet(pins: map<string, Pin>, pin: map<string, nat>, owner: map<string, string>,
               pinOp: map<string, set<string>>, now: nat, s: string, operation: string, expires: nat)
    requires PinIndex(pins, pin, owner, pinOp, now) && expires > now
    ensures PinIndex(pins[s := Pin(operation, expires)], pin[s := expires], owner[s := operation],
                     PinOpSet(pinOp, owner, s, operation), now)
  {
  }

  lemma SlotStored(slots: map<string, Entry>, docs: map<string, Slot>, all: map<string, nat>,
                   lru: map<string, nat>, pin: map<string, nat>, s: string, slot: Slot, now: nat, expires: nat)
    requires SlotIndex(slots, docs, all, lru, pin)
    ensures SlotIndex(slots[s := Entry(slot, now)], docs[s := slot], all[s := now], lru - {s}, pin[s := expires])
  {
  }

  lemma OneMorePinned(w: Search, admitted: set<string>, s: string, operation: string, expires: nat, slots: map<string, Entry>, found: seq<Slot>)
    requires admitted == w.admitted + {s}
    ensures PinAll(Search(w.cache.(slots := slots), admitted, found), operation, expires).pins
            == PinAll(w, operation, expires).pins[s := Pin(operation, expires)]
  {
  }

  lemma StoredAndPinned(w: Search, after: Search, docs: map<string, Slot>, all: map<string, nat>, lru: map<string, nat>,
                        pin: map<string, nat>, owner: map<string, string>, pinOp: map<string, set<string>>,
                        s: string, slot: Slot, operation: string, now: nat, expires: nat)
    requires SlotIndex(w.cache.slots, docs, all, lru, pin) && expires > now
    requires PinIndex(PinAll(w, operation, expires).pins, pin, owner, pinOp, now)
    requires after == Stored(w, s, slot, now)
    ensures SlotIndex(after.cache.slots, docs[s := slot], all[s := now], lru - {s}, pin[s := expires])
    ensures PinIndex(PinAll(after, operation, expires).pins, pin[s := expires], owner[s := operation],
                     PinOpSet(pinOp, owner, s, operation), now)
  {
    hide SlotIndex, PinIndex, PinAll, PinOpSet;
    SlotStored(w.cache.slots, docs, all, lru, pin, s, slot, now, expires);
    PinSet(PinAll(w, operation, expires).pins, pin, owner, pinOp, now, s, operation, expires);
    OneMorePinned(w, after.admitted, s, operation, expires, after.cache.slots, after.found);
  }

  /** Mid-search, the pinned slots are those pinned before and those admitted. */
  lemma PinnedOrAdmitted(w: Search, operation: string, now: nat, expires: nat, pin: map<string, nat>,
                         owner: map<string, string>, pinOp: map<string, set<string>>, s: string)
    requires PinIndex(PinAll(w, operation, expires).pins, pin, owner, pinOp, now) && expires > now
    requires s in pin ==> pin[s] > now
    ensures s in pin <==> w.cache.Pinned(s, now) || s in w.admitted
  {
    var pins := PinAll(w, operation, expires).pins;
    assert s in pin ==> s in pins && pins[s] == Pin(owner[s], pin[s]);
    assert s in pins && pins[s].expiresAt > now ==> s in pin;
  }

  /** Mid-search, the eviction index holds exactly the slots the search may evict. */
  lemma EvictableIsLru(w: Search, operation: string, now: nat, expires: nat, docs: map<string, Slot>, all: map<string, nat>,
                       lru: map<string, nat>, pin: map<string, nat>, owner: map<string, string>, pinOp: map<string, set<string>>)
    requires SlotIndex(w.cache.slots, docs, all, lru, pin) && expires > now
    requires PinIndex(PinAll(w, operation, expires).pins, pin, owner, pinOp, now)
    requires forall s :: s in pin ==> pin[s] > now
    ensures Evictable(w, now) == lru.Keys && |all| == |w.cache.slots|
    ensures forall s :: s in lru ==> s in w.cache.slots && lru[s] == w.cache.slots[s].lastTouch
  {
    SlotSets(w.cache.slots, docs, all, lru, pin);
    hide PinIndex, SlotIndex, PinAll, Evictable;
    forall s | s in w.cache.slots
      ensures s in pin <==> w.cache.Pinned(s, now) || s in w.admitted
    {
      PinnedOrAdmitted(w, operation, now, expires, pin, owner, pinOp, s);
    }
    UnpinnedAreEvictable(w, now, lru.Keys, pin.Keys);
  }

  lemma UnpinnedAreEvictable(w: Search, now: nat, lru: set<string>, pin: set<string>)
    requires lru == w.cache.slots.Keys - pin
    requires forall s :: s in w.cache.slots ==> (s in pin <==> w.cache.Pinned(s, now) || s in w.admitted)
    ensures Evictable(w, now) == lru
  {
  }

  lemma SlotSets(slots: map<string, Entry>, docs: map<string, Slot>, all: map<string, nat>,
                 lru: map<string, nat>, pin: map<string, nat>)
    requires SlotIndex(slots, docs, all, lru, pin)
    ensures lru.Keys == slots.Keys - pin.Keys && |all| == |slots|
    ensures forall s :: s in lru ==> s in slots && lru[s] == slots[s].lastTouch
  {
    SameSize(all, slots);
  }

  lemma SameSize<U, V>(a: map<string, U>, b: map<string, V>)
    requires a.Keys == b.Keys
    ensures |a| == |b|
  {
    assert |a| == |a.Keys| && |b| == |b.Keys|;
  }

  lemma LowestIsOldest(w: Search, now: nat, lru: map<string, nat>, victim: string)
    requires Evictable(w, now) == lru.Keys && IsLowest(lru, lru.Keys, victim)
    requires forall s :: s in lru ==> s in w.cache.slots && lru[s] == w.cache.slots[s].lastTouch
    ensures IsOldest(w, now, victim) && {victim} <= lru.Keys
  {
  }

  lemma SlotFacts(slots: map<string, Entry>, docs: map<string, Slot>, all: map<string, nat>, lru: map<string, nat>, pin: map<string, nat>)
    requires SlotIndex(slots, docs, all, lru, pin)
    ensures docs.Keys == slots.Keys && forall s :: s in docs ==> docs[s] == slots[s].slot
  {
  }

  /** What admitting one unprotected candidate comes to in each case of the script. */
  lemma AdmitCase(w: Search, slot: Slot, now: nat, capacity: nat, v: string)
    requires !w.cache.Entombed(slot.slotId, now)
    ensures var s := slot.slotId;
            var full := |w.cache.slots| >= capacity;
            AdmitOne(w, slot, now, capacity, v) ==
              if s in w.cache.slots then Stored(w, s, w.cache.slots[s].slot, now)
              else if !full then Stored(w, s, slot, now)
              else if Evictable(w, now) == {} then w
              else Stored(w.(cache := w.cache.(slots := w.cache.slots - {v})), s, slot, now)
    ensures MustEvict(w, slot, now, capacity) ==>
              slot.slotId !in w.cache.slots && |w.cache.slots| >= capacity && Evictable(w, now) != {}
  {
  }

  function Stored(w: Search, s: string, slot: Slot, now: nat): Search {
    Search(w.cache.(slots := w.cache.slots[s := Entry(slot, now)]), w.admitted + {s}, w.found + [slot])
  }

  lemma StoredFound(w: Search, s: string, slot: Slot, now: nat)
    ensures Stored(w, s, slot, now).found == w.found + [slot]
  {
  }

  lemma SamePins(w: Search, slots: map<string, Entry>, operation: string, expires: nat)
    ensures PinAll(w.(cache := w.cache.(slots := slots)), operation, expires).pins == PinAll(w, operation, expires).pins
  {
  }

  lemma PinAllFrame(w: Search, operation: string, expires: nat)
    ensures var d := PinAll(w, operation, expires);
            d.slots == w.cache.slots && d.tombs == w.cache.tombs && d.bookings == w.cache.bookings
  {
  }

  lemma StartSearch(c: Cache, operation: string, now: nat, pinTtl: nat, pin: map<string, nat>, owner: map<string, string>,
                    pinOp: map<string, set<string>>)
    requires PinIndex(c.pins, pin, owner, pinOp, now)
    ensures PinIndex(PinAll(Start(c, now), operation, now + pinTtl).pins, pin, owner, pinOp, now)
  {
    PinsExpired(c.pins, pin, owner, pinOp, now);
    var start := Start(c, now);
    assert PinAll(start, operation, now + pinTtl).pins == start.cache.pins;
  }

  lemma RemoveOneMore<V>(m: map<string, V>, members: set<string>, pending: set<string>, s: string)
    requires s in pending && pending <= members
    ensures m - (members - (pending - {s})) == m - (members - pending) - {s}
  {
  }

  lemma TombWritten(tombs: map<string, Tombstone>, booked: map<string, string>, tombExp: map<string, nat>, now: nat,
                    s: string, key: string, until: nat)
    requires TombIndex(tombs, booked, tombExp, now) && '|' !in key
    ensures TombIndex(tombs[s := Tombstone(key, until)], booked[s := PrintTomb(key, until)], tombExp[s := until], now)
  {
  }

  lemma TombsGone(tombs: map<string, Tombstone>, booked: map<string, string>, tombExp: map<string, nat>, now: nat, gone: set<string>)
    requires TombIndex(tombs, booked, tombExp, now)
    ensures TombIndex(tombs - gone, booked - gone, tombExp - gone, now)
  {
  }

  lemma BookFacts(bookings: map<string, Record>, docs: map<string, Confirmation>, bookExp: map<string, nat>, now: nat, key: string)
    requires BookIndex(bookings, docs, bookExp, now)
    ensures key in docs && key in bookExp && bookExp[key] > now <==> key in bookings && bookings[key].protectedUntil > now
    ensures key in docs && key in bookings ==> docs[key] == bookings[key].confirmation
  {
  }

  lemma BookingWritten(bookings: map<string, Record>, docs: map<string, Confirmation>, bookExp: map<string, nat>, now: nat,
                       key: string, confirmation: Confirmation, until: nat)
    requires BookIndex(bookings, docs, bookExp, now)
    ensures BookIndex(bookings[key := Record(confirmation, until)], docs[key := confirmation], bookExp[key := until], now)
  {
  }

  lemma BookingsGone(bookings: map<string, Record>, docs: map<string, Confirmation>, bookExp: map<string, nat>, now: nat, gone: set<string>)
    requires BookIndex(bookings, docs, bookExp, now)
    ensures BookIndex(bookings - gone, docs - gone, bookExp - gone, now)
  {
  }

  lemma OperationReleased(c: Cache, pin: map<string, nat>, owner: map<string, string>, pin0: map<string, nat>,
                          owner0: map<string, string>, pinOp: map<string, set<string>>, operation: string, now: nat)
    requires PinIndex(c.pins, pin0, owner0, pinOp, now)
    requires var members := if operation in pinOp then pinOp[operation] else {};
             pin == pin0 - members && owner == owner0 - members
    ensures PinIndex(Release(c, operation).pins, pin, owner, pinOp - {operation}, now)
  {
  }

  /** With every pin live, the idle slots of the eviction index are the cache's idle slots. */
  lemma IdleInLru(c: Cache, docs: map<string, Slot>, all: map<string, nat>, lru: map<string, nat>, pin: map<string, nat>,
                  owner: map<string, string>, pinOp: map<string, set<string>>, now: nat, idleTtl: nat)
    requires SlotIndex(c.slots, docs, all, lru, pin) && PinIndex(c.pins, pin, owner, pinOp, now)
    requires forall s :: s in pin ==> pin[s] > now
    ensures (set s | s in lru && lru[s] <= now as int - idleTtl as int) == IdleSlots(c, now, idleTtl)
  {
  }

  lemma PinsExpired(pins: map<string, Pin>, pin: map<string, nat>, owner: map<string, string>,
                    pinOp: map<string, set<string>>, now: nat)
    requires PinIndex(pins, pin, owner, pinOp, now)
    ensures PinIndex(map s | s in pins && pins[s].expiresAt > now :: pins[s], pin, owner, pinOp, now)
  {
  }

  class Store {
    const limits: Limits
    var slotDocs: map<string, Slot>
    var all: map<string, nat>
    var lru: map<string, nat>
    var pin: map<string, nat>
    var pinOwner: map<string, string>
    var pinOp: map<string, set<string>>
    var booked: map<string, string>
    var tombExp: map<string, nat>
    var bookingDocs: map<string, Confirmation>
    var bookExp: map<string, nat>
    ghost var model: Cache

    ghost predicate Valid(now: nat)
      reads this
    {
      && limits.pinTtl > 0
      && SlotIndex(model.slots, slotDocs, all, lru, pin)
      && PinIndex(model.pins, pin, pinOwner, pinOp, now)
      && TombIndex(model.tombs, booked, tombExp, now)
      && BookIndex(model.bookings, bookingDocs, bookExp, now)
    }

    constructor (limits: Limits)
      requires limits.pinTtl > 0
      ensures this.limits == limits && model == NOTHING
      ensures forall now :: Valid(now)
    {
      this.limits := limits;
      slotDocs, all, lru, pin, pinOwner, pinOp := map[], map[], map[], map[], map[], map[];
      booked, tombExp, bookingDocs, bookExp := map[], map[], map[], map[];
      model := NOTHING;
    }

    lemma Later(now: nat, later: nat)
      requires Valid(now) && now <= later
      ensures Valid(later)
    {
    }

    /** A native TTL removes a reservation document exactly when its protection is over. */
    method ExpireRecord(key: string, now: nat)
      requires Valid(now)
      modifies this`bookingDocs
      ensures Valid(now)
      ensures bookingDocs == if key in model.bookings && model.bookings[key].protectedUntil <= now
                             then old(bookingDocs) - {key} else old(bookingDocs)
    {
      if key in bookExp && bookExp[key] <= now {
        bookingDocs := bookingDocs - {key};
      }
    }

    /** And a tombstone exactly when it protects its slot no longer. */
    method ExpireTomb(slotId: string, now: nat)
      requires Valid(now)
      modifies this`booked
      ensures Valid(now)
      ensures booked == if model.Entombed(slotId, now) then old(booked) else old(booked) - {slotId}
    {
      if slotId in tombExp && tombExp[slotId] <= now {
        booked := booked - {slotId};
      }
    }

    /** Drop one pin from pin, pinowner and pinop. */
    method Unpin(s: string)
      modifies this`pin, this`pinOwner, this`pinOp
      ensures pin == old(pin) - {s} && pinOwner == old(pinOwner) - {s}
      ensures pinOp == UnpinOp(old(pinOp), old(pinOwner), s)
    {
      pin := pin - {s};
      if s in pinOwner {
        var owner := pinOwner[s];
        if owner in pinOp {
          pinOp := pinOp[owner := pinOp[owner] - {s}];
        }
      }
      pinOwner := pinOwner - {s};
    }

    /** reconcile_pins: lapsed pins go, and their slots return to the eviction index. */
    method ReconcilePins(now: nat)
      requires SlotIndex(model.slots, slotDocs, all, lru, pin) && PinIndex(model.pins, pin, pinOwner, pinOp, now)
      modifies this`pin, this`pinOwner, this`pinOp, this`lru
      ensures SlotIndex(model.slots, slotDocs, all, lru, pin) && PinIndex(model.pins, pin, pinOwner, pinOp, now)
      ensures forall s :: s in pin ==> pin[s] > now
    {
      var stale := set s | s in pin && pin[s] <= now;
      while stale != {}
        invariant SlotIndex(model.slots, slotDocs, all, lru, pin)
        invariant PinIndex(model.pins, pin, pinOwner, pinOp, now)
        invariant stale <= pin.Keys && forall s :: s in pin && s !in stale ==> pin[s] > now
        invariant forall s :: s in stale ==> pin[s] <= now
        decreases stale
      {
        var s :| s in stale;
        stale := stale - {s};
        PinDropped(model.pins, model.pins, pin, pinOwner, pinOp, now, s);
        Unlist(s);
      }
    }

    /** One pin goes and its slot, if still stored, returns to the eviction index. */
    method Unlist(s: string)
      requires SlotIndex(model.slots, slotDocs, all, lru, pin) && s in pin
      modifies this`pin, this`pinOwner, this`pinOp, this`lru
      ensures pin == old(pin) - {s} && pinOwner == old(pinOwner) - {s}
      ensures pinOp == UnpinOp(old(pinOp), old(pinOwner), s)
      ensures SlotIndex(model.slots, slotDocs, all, lru, pin)
    {
      SlotUnpinned(model.slots, slotDocs, all, lru, pin, s);
      Unpin(s);
      if s in slotDocs && s in all {
        lru := lru[s := all[s]];
      }
    }

    /** Mid-search, the keys stand for the search so far with its admissions already pinned. */
    ghost predicate Searching(w: Search, operation: string, now: nat)
      reads this
    {
      && limits.pinTtl > 0
      && SlotIndex(w.cache.slots, slotDocs, all, lru, pin)
      && PinIndex(PinAll(w, operation, now + limits.pinTtl).pins, pin, pinOwner, pinOp, now)
      && TombIndex(w.cache.tombs, booked, tombExp, now)
      && forall s :: s in pin ==> pin[s] > now
    }

    /** The script's local pin(sid), after SET slot and ZADD all. */
    method StoreAndPin(s: string, slot: Slot, operation: string, now: nat, ghost w: Search, ghost after: Search)
      requires Searching(w, operation, now)
      requires after == Stored(w, s, slot, now)
      modifies this`slotDocs, this`all, this`lru, this`pin, this`pinOwner, this`pinOp
      ensures Searching(after, operation, now)
    {
      hide SlotIndex, PinIndex, TombIndex, PinAll, PinOpSet;
      var expires := now + limits.pinTtl;
      StoredAndPinned(w, after, slotDocs, all, lru, pin, pinOwner, pinOp, s, slot, operation, now, expires);
      slotDocs := slotDocs[s := slot];
      all := all[s := now];
      lru := lru - {s};
      pinOp := PinOpSet(pinOp, pinOwner, s, operation);
      pinOwner := pinOwner[s := operation];
      pin := pin[s := expires];
    }

    /** ZREM lru, ZREM all, DEL slot of the oldest evictable slot. */
    method EvictOldest(operation: string, now: nat, ghost w: Search) returns (victim: string)
      requires Searching(w, operation, now) && lru.Keys != {}
      modifies this`slotDocs, this`all, this`lru
      ensures IsOldest(w, now, victim)
      ensures Searching(w.(cache := w.cache.(slots := w.cache.slots - {victim})), operation, now)
    {
      hide SlotIndex, PinIndex, TombIndex, PinAll, Evictable, IsOldest;
      victim := PickVictim(operation, now, w);
      UnpinnedGone(w.cache.slots, slotDocs, all, lru, pin, {victim});
      SamePins(w, w.cache.slots - {victim}, operation, now + limits.pinTtl);
      lru, all, slotDocs := lru - {victim}, all - {victim}, slotDocs - {victim};
    }

    method PickVictim(operation: string, now: nat, ghost w: Search) returns (victim: string)
      requires Searching(w, operation, now) && lru.Keys != {}
      ensures IsOldest(w, now, victim) && {victim} <= lru.Keys
    {
      hide SlotIndex, PinIndex, TombIndex, PinAll, Evictable, IsOldest, IsLowest;
      EvictableIsLru(w, operation, now, now + limits.pinTtl, slotDocs, all, lru, pin, pinOwner, pinOp);
      victim := Lowest(lru, lru.Keys);
      LowestIsOldest(w, now, lru, victim);
    }

    /** Capacity check: a stored or fitting candidate goes in, else the oldest evictable slot goes out. */
    method MakeRoom(slot: Slot, operation: string, now: nat, ghost w: Search)
      returns (admit: bool, ghost victim: string, ghost room: Search)
      requires Searching(w, operation, now) && !w.cache.Entombed(slot.slotId, now)
      modifies this`slotDocs, this`all, this`lru
      ensures Searching(room, operation, now)
      ensures MustEvict(w, slot, now, limits.capacity) ==> IsOldest(w, now, victim)
      ensures var s := slot.slotId;
              var kept := if s in w.cache.slots then w.cache.slots[s].slot else slot;
              AdmitOne(w, slot, now, limits.capacity, victim) == if admit then Stored(room, s, kept, now) else room
      ensures slot.slotId in w.cache.slots ==> room == w
      ensures room.found == w.found
    {
      hide SlotIndex, PinIndex, TombIndex, AdmitOne, Evictable, IsOldest, MustEvict, PinAll, Stored;
      admit, victim, room := true, "", w;
      EvictableIsLru(w, operation, now, now + limits.pinTtl, slotDocs, all, lru, pin, pinOwner, pinOp);
      SlotFacts(w.cache.slots, slotDocs, all, lru, pin);
      if slot.slotId !in slotDocs && |all| >= limits.capacity {
        if lru.Keys == {} {
          admit := false;
        } else {
          var gone := EvictOldest(operation, now, w);
          victim := gone;
          room := w.(cache := w.cache.(slots := w.cache.slots - {victim}));
        }
      }
      AdmitCase(w, slot, now, limits.capacity, victim);
    }

    method AdmitCandidate(slot: Slot, operation: string, now: nat, ghost w: Search)
      returns (found: seq<Slot>, ghost victim: string, ghost after: Search)
      requires Searching(w, operation, now)
      modifies this`slotDocs, this`all, this`lru, this`pin, this`pinOwner, this`pinOp
      ensures after == AdmitOne(w, slot, now, limits.capacity, victim) && after.found == w.found + found
      ensures MustEvict(w, slot, now, limits.capacity) ==> IsOldest(w, now, victim)
      ensures Searching(after, operation, now)
    {
      var s := slot.slotId;
      found, victim, after := [], "", w;
      var skip := Entombed(s, now, w.cache);
      if skip {
        return;
      }
      SlotFacts(w.cache.slots, slotDocs, all, lru, pin);
      hide SlotIndex, PinIndex, TombIndex, AdmitOne, IsOldest, MustEvict, Stored;
      var kept := if s in slotDocs then slotDocs[s] else slot;
      var admit;
      admit, victim, after := MakeRoom(slot, operation, now, w);
      if admit {
        ghost var room := after;
        after := Stored(room, s, kept, now);
        found := [kept];
        StoredFound(room, s, kept, now);
        StoreAndPin(s, kept, operation, now, room, after);
      }
    }

    /** Whether the slot's tombstone is still protected, read back from its text. */
    method Entombed(s: string, now: nat, ghost c: Cache) returns (entombed: bool)
      requires TombIndex(c.tombs, booked, tombExp, now)
      ensures entombed == c.Entombed(s, now)
    {
      if s !in booked {
        return false;
      }
      ReadTomb(c.tombs[s].key, c.tombs[s].protectedUntil);
      var bar := Find(booked[s], '|', 0).value;
      return Parse(booked[s][bar + 1..]).value > now;
    }

    method AdmitAll(candidates: seq<Slot>, operation: string, now: nat, ghost start: Search)
      returns (found: seq<Slot>, ghost victims: seq<string>, ghost w: Search)
      requires Searching(start, operation, now) && start.found == []
      modifies this`slotDocs, this`all, this`lru, this`pin, this`pinOwner, this`pinOp
      ensures |victims| == |candidates| && FairVictims(start, candidates, now, limits.capacity, victims)
      ensures w == Admit(start, candidates, now, limits.capacity, victims) && found == w.found
      ensures Searching(w, operation, now)
    {
      found, victims, w := [], [], start;
      hide AdmitOne, MustEvict, IsOldest, SlotIndex, PinIndex, TombIndex;
      for i := 0 to |candidates|
        invariant |victims| == i && FairVictims(start, candidates[..i], now, limits.capacity, victims)
        invariant w == Admit(start, candidates[..i], now, limits.capacity, victims) && found == w.found
        invariant Searching(w, operation, now)
      {
        ghost var victim, after;
        var more;
        more, victim, after := AdmitCandidate(candidates[i], operation, now, w);
        AppendAdmit(start, candidates, i, now, limits.capacity, victims, victim, w, after);
        found, victims, w := found + more, victims + [victim], after;
      }
      assert candidates[..|candidates|] == candidates;
    }

    method PublishAndFilter(candidates: seq<Slot>, operation: string, now: nat)
      returns (found: seq<Slot>, ghost victims: seq<string>)
      requires Valid(now)
      modifies this
      ensures Valid(now)
      ensures |victims| == |candidates|
      ensures FairVictims(Start(old(model), now), candidates, now, limits.capacity, victims)
      ensures var (next, result) := Publish(old(model), candidates, operation, now, limits.capacity, limits.pinTtl, victims);
              model == next && found == result
    {
      hide SlotIndex, PinIndex, TombIndex, BookIndex, Admit, FairVictims, Publish, PinAll;
      ghost var c := model;
      ReconcilePins(now);
      StartSearch(c, operation, now, limits.pinTtl, pin, pinOwner, pinOp);
      ghost var w;
      found, victims, w := AdmitAll(candidates, operation, now, Start(c, now));
      model := PinAll(w, operation, now + limits.pinTtl);
      ClosePublish(c, candidates, operation, now, limits, victims, w, model);
      AdmitFrame(Start(c, now), candidates, now, limits.capacity, victims);
      PinAllFrame(w, operation, now + limits.pinTtl);
    }

    method GetBooking(key: string, now: nat) returns (r: Option<Confirmation>)
      requires Valid(now)
      ensures r == MockCache.GetBooking(model, key, now)
    {
      if key !in bookingDocs || key !in bookExp || bookExp[key] <= now {
        return None;
      }
      return Some(bookingDocs[key]);
    }

    method BookSlot(slotId: string, key: string, now: nat) returns (r: BookResult)
      requires Valid(now) && '|' !in key
      modifies this
      ensures Valid(now)
      ensures (model, r) == MockCache.BookSlot(old(model), slotId, key, now, limits.retention)
    {
      hide SlotIndex, PinIndex, TombIndex, BookIndex;
      BookFacts(model.bookings, bookingDocs, bookExp, now, key);
      SlotFacts(model.slots, slotDocs, all, lru, pin);
      if key in bookingDocs && key in bookExp && bookExp[key] > now {
        return Reservation(bookingDocs[key]);
      }
      var blocked := HeldByAnother(slotId, key, now);
      if blocked {
        return Unavailable;
      }
      if slotId !in slotDocs {
        return NotFound;
      }
      var confirmation := Confirmation(BookingIdFor(key), slotDocs[slotId], now);
      WriteBooking(slotId, key, confirmation, now);
      r := Reservation(confirmation);
    }

    /** Whether the slot's tombstone is protected for a different key. */
    method HeldByAnother(slotId: string, key: string, now: nat) returns (held: bool)
      requires TombIndex(model.tombs, booked, tombExp, now)
      ensures held == (model.Entombed(slotId, now) && model.tombs[slotId].key != key)
    {
      if slotId !in booked {
        return false;
      }
      ReadTomb(model.tombs[slotId].key, model.tombs[slotId].protectedUntil);
      var tomb := booked[slotId];
      var bar := Find(tomb, '|', 0).value;
      return Parse(tomb[bar + 1..]).value > now && tomb[..bar] != key;
    }

    method WriteBooking(slotId: string, key: string, confirmation: Confirmation, now: nat)
      requires Valid(now) && '|' !in key
      modifies this
      ensures Valid(now)
      ensures var c, until := old(model), now + limits.retention;
              model == Cache(c.slots - {slotId}, c.tombs[slotId := Tombstone(key, until)],
                             c.bookings[key := Record(confirmation, until)], c.pins - {slotId})
    {
      hide SlotIndex, PinIndex, TombIndex, BookIndex;
      ghost var c := model;
      var until := now + limits.retention;
      WriteRecord(slotId, key, confirmation, until, now);
      DropSlot(slotId, now);
      model := Cache(c.slots - {slotId}, c.tombs[slotId := Tombstone(key, until)],
                     c.bookings[key := Record(confirmation, until)], c.pins - {slotId});
    }

    /** SET booking, ZADD bookexp, SET booked, ZADD tombexp. */
    method WriteRecord(slotId: string, key: string, confirmation: Confirmation, until: nat, now: nat)
      requires TombIndex(model.tombs, booked, tombExp, now) && BookIndex(model.bookings, bookingDocs, bookExp, now)
      requires '|' !in key
      modifies this`booked, this`tombExp, this`bookingDocs, this`bookExp
      ensures TombIndex(model.tombs[slotId := Tombstone(key, until)], booked, tombExp, now)
      ensures BookIndex(model.bookings[key := Record(confirmation, until)], bookingDocs, bookExp, now)
    {
      TombWritten(model.tombs, booked, tombExp, now, slotId, key, until);
      BookingWritten(model.bookings, bookingDocs, bookExp, now, key, confirmation, until);
      bookingDocs := bookingDocs[key := confirmation];
      bookExp := bookExp[key := until];
      booked := booked[slotId := PrintTomb(key, until)];
      tombExp := tombExp[slotId := until];
    }

    /** DEL slot, ZREM all, ZREM lru, ZREM pin, and the pin's owner. */
    method DropSlot(s: string, now: nat)
      requires SlotIndex(model.slots, slotDocs, all, lru, pin) && PinIndex(model.pins, pin, pinOwner, pinOp, now)
      modifies this`slotDocs, this`all, this`lru, this`pin, this`pinOwner, this`pinOp
      ensures SlotIndex(model.slots - {s}, slotDocs, all, lru, pin)
      ensures PinIndex(model.pins - {s}, pin, pinOwner, pinOp, now)
    {
      SlotsGone(model.slots, slotDocs, all, lru, pin, {s});
      PinDropped(model.pins, model.pins - {s}, pin, pinOwner, pinOp, now, s);
      slotDocs, all, lru := slotDocs - {s}, all - {s}, lru - {s};
      Unpin(s);
    }

    method ReleaseOperation(operation: string, now: nat)
      requires Valid(now)
      modifies this
      ensures Valid(now) && model == Release(old(model), operation)
    {
      hide SlotIndex, PinIndex, TombIndex, BookIndex;
      ReleasePins(operation, now);
      model := Release(model, operation);
    }

    method ReleasePins(operation: string, now: nat)
      requires SlotIndex(model.slots, slotDocs, all, lru, pin) && PinIndex(model.pins, pin, pinOwner, pinOp, now)
      modifies this`pin, this`pinOwner, this`pinOp, this`lru
      ensures SlotIndex(model.slots, slotDocs, all, lru, pin)
      ensures PinIndex(Release(model, operation).pins, pin, pinOwner, pinOp, now)
    {
      ghost var pin0, owner0 := pin, pinOwner;
      var members := if operation in pinOp then pinOp[operation] else {};
      assert forall s :: s in members ==> s in pin && s in pinOwner && pinOwner[s] == operation;
      hide SlotIndex, PinIndex;
      var pending := members;
      while pending != {}
        invariant pending <= members && pinOp == old(pinOp)
        invariant pin == pin0 - (members - pending) && pinOwner == owner0 - (members - pending)
        invariant SlotIndex(model.slots, slotDocs, all, lru, pin)
        decreases pending
      {
        var s :| s in pending;
        RemoveOneMore(pin0, members, pending, s);
        RemoveOneMore(owner0, members, pending, s);
        pending := pending - {s};
        if s in pinOwner && pinOwner[s] == operation {
          ReleaseOne(s);
        }
      }
      OperationReleased(model, pin, pinOwner, pin0, owner0, pinOp, operation, now);
      pinOp := pinOp - {operation};
    }

    /** ZREM pin, HDEL pinowner, and the slot returns to the eviction index. */
    method ReleaseOne(s: string)
      requires SlotIndex(model.slots, slotDocs, all, lru, pin) && s in pin
      modifies this`pin, this`pinOwner, this`lru
      ensures pin == old(pin) - {s} && pinOwner == old(pinOwner) - {s}
      ensures SlotIndex(model.slots, slotDocs, all, lru, pin)
    {
      SlotUnpinned(model.slots, slotDocs, all, lru, pin, s);
      pin := pin - {s};
      pinOwner := pinOwner - {s};
      if s in slotDocs && s in all {
        lru := lru[s := all[s]];
      }
    }

    method Cleanup(now: nat, batch: nat) returns (idleSlots: nat, expiredRecords: nat, ghost sweep: Sweep)
      requires Valid(now)
      modifies this
      ensures Valid(now)
      ensures FairSweep(old(model), sweep, now, limits.idleTtl, batch)
      ensures model == MockCache.Cleanup(old(model), sweep, now)
      ensures idleSlots == |sweep.idle| && expiredRecords == |sweep.keys|
    {
      hide SlotIndex, PinIndex, TombIndex, BookIndex;
      ReconcilePins(now);
      var idle := CleanIdle(now, batch);
      var keys := CleanBookings(now, batch);
      var tombs := CleanTombs(now, batch);
      PinsExpired(model.pins, pin, pinOwner, pinOp, now);
      sweep := Sweep(idle, keys, tombs);
      model := MockCache.Cleanup(model, sweep, now);
      return |idle|, |keys|, sweep;
    }

    method CleanIdle(now: nat, batch: nat) returns (idle: set<string>)
      requires SlotIndex(model.slots, slotDocs, all, lru, pin) && PinIndex(model.pins, pin, pinOwner, pinOp, now)
      requires forall s :: s in pin ==> pin[s] > now
      modifies this`slotDocs, this`all, this`lru
      ensures FillsBatch(idle, IdleSlots(model, now, limits.idleTtl), batch)
      ensures SlotIndex(model.slots - idle, slotDocs, all, lru, pin)
    {
      IdleInLru(model, slotDocs, all, lru, pin, pinOwner, pinOp, now, limits.idleTtl);
      hide SlotIndex, PinIndex;
      idle := RangeByScore(lru, now as int - limits.idleTtl as int, batch);
      UnpinnedGone(model.slots, slotDocs, all, lru, pin, idle);
      lru, all, slotDocs := lru - idle, all - idle, slotDocs - idle;
    }

    method CleanBookings(now: nat, batch: nat) returns (keys: set<string>)
      requires BookIndex(model.bookings, bookingDocs, bookExp, now)
      modifies this`bookingDocs, this`bookExp
      ensures FillsBatch(keys, LapsedKeys(model, now), batch)
      ensures BookIndex(model.bookings - keys, bookingDocs, bookExp, now)
    {
      keys := RangeByScore(bookExp, now, batch);
      assert (set k | k in bookExp && bookExp[k] <= now) == LapsedKeys(model, now);
      BookingsGone(model.bookings, bookingDocs, bookExp, now, keys);
      bookingDocs, bookExp := bookingDocs - keys, bookExp - keys;
    }

    method CleanTombs(now: nat, batch: nat) returns (tombs: set<string>)
      requires TombIndex(model.tombs, booked, tombExp, now)
      modifies this`booked, this`tombExp
      ensures FillsBatch(tombs, LapsedTombs(model, now), batch)
      ensures TombIndex(model.tombs - tombs, booked, tombExp, now)
    {
      tombs := RangeByScore(tombExp, now, batch);
      assert (set s | s in tombExp && tombExp[s] <= now) == LapsedTombs(model, now);
      TombsGone(model.tombs, booked, tombExp, now, tombs);
      booked, tombExp := booked - tombs, tombExp - tombs;
    }
  }
}
