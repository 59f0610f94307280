/** What one undisturbed poll achieves, from any state a history can reach
    (backend/services/watch_service.py:408-542, 885-897). */
module PollSuccess {
  import opened Wrappers
  import opened Watches
  import opened WatchCells
  import opened MockCache
  import opened PollTiming
  import opened PollPlans
  import opened PollProtocol
  import opened PollSafety
  import opened PollGuarantees

  /** A poller that has just claimed the current window of a watch with lifetime and attempts left. */
  predicate Starts(k: Setup, w: World, p: nat) {
    && At(w, p) && PcOf(w, p).Fresh? && Owns(w.cell, w.pollers[p].claim, w.now)
    && w.now < w.pollers[p].claim.leaseExpiresAt
    && w.cell.IsActive() && !w.pollers[p].claim.watch.IsExhausted(w.now)
  }

  function Search(k: Setup, w: World, candidates: seq<Slot>, operation: string, victims: seq<string>): (Cache, seq<Slot>)
    requires |victims| == |candidates|
  {
    Publish(w.cache, candidates, operation, w.now, k.limits.capacity, k.limits.pinTtl, victims)
  }

  predicate CanSearch(k: Setup, w: World, candidates: seq<Slot>, victims: seq<string>) {
    |victims| == |candidates| && candidates != []
    && FairVictims(Start(w.cache, w.now), candidates, w.now, k.limits.capacity, victims)
  }

  /** The world with this poller moved on to `pc`, its clock read now, and the provider as given. */
  function Later(w: World, p: nat, cell: Cell, cache: Cache, pc: Pc): World
    requires At(w, p)
  {
    w.(cell := cell, cache := cache, pollers := w.pollers[p := Working(w.pollers[p].claim, w.now, pc)])
  }

  lemma Checks(k: Setup, w: World, p: nat)
    requires Starts(k, w, p)
    ensures Follows(k, w, Check(p), Later(w, p, w.cell, w.cache, Asking))
  {
  }

  lemma Recalls(k: Setup, w: World, p: nat)
    requires At(w, p) && k.autoBook && !w.cache.Reserved(k.Key(), w.now)
    ensures Follows(k, Later(w, p, w.cell, w.cache, Asking), Recall(p), Later(w, p, w.cell, w.cache, Cleared))
  {
    var v := Later(w, p, w.cell, w.cache, Asking);
    assert v.pollers[p := v.pollers[p].(pc := Cleared)] == w.pollers[p := Working(w.pollers[p].claim, w.now, Cleared)];
  }

  lemma Looks(k: Setup, w: World, p: nat, candidates: seq<Slot>, operation: string, victims: seq<string>)
    requires At(w, p) && CanSearch(k, w, candidates, victims) && Search(k, w, candidates, operation, victims).1 != []
    ensures var (cache, found) := Search(k, w, candidates, operation, victims);
            Follows(k, Later(w, p, w.cell, w.cache, if k.autoBook then Cleared else Asking),
                    Step.Look(p, candidates, operation, victims),
                    Later(w, p, w.cell, cache, if k.autoBook then Holding(found) else Decided(Offer(found))))
  {
    var (cache, found) := Search(k, w, candidates, operation, victims);
    var before, pc := if k.autoBook then Cleared else Asking, if k.autoBook then Holding(found) else Decided(Offer(found));
    var v := Later(w, p, w.cell, w.cache, before);
    assert v.pollers[p := v.pollers[p].(pc := pc)] == w.pollers[p := Working(w.pollers[p].claim, w.now, pc)];
    hide Publish, FairVictims;
  }

  lemma Permits(k: Setup, w: World, p: nat, cache: Cache, slots: seq<Slot>)
    requires At(w, p) && w.cell.IsActive() && Owns(w.cell, w.pollers[p].claim, w.now) && !w.cell.runtime.value.cancelRequested
    ensures var cell := w.cell.(runtime := Some(w.cell.runtime.value.(phase := Some(Phase.Booking))));
            && Follows(k, Later(w, p, w.cell, cache, Holding(slots)), AskPermit(p), Later(w, p, cell, cache, Placing(slots)))
            && Owns(cell, w.pollers[p].claim, w.now) && cell.IsActive()
  {
    var v := Later(w, p, w.cell, cache, Holding(slots));
    assert v.pollers[p := v.pollers[p].(pc := Placing(slots))] == w.pollers[p := Working(w.pollers[p].claim, w.now, Placing(slots))];
  }

  /** A slot the provider has just published is there to be booked. */
  lemma Books(k: Setup, w: World, p: nat, cell: Cell, cache: Cache, slots: seq<Slot>)
    requires At(w, p) && w.now < w.pollers[p].claim.leaseExpiresAt && slots != [] && k.limits.retention > 0
    requires !cache.Reserved(k.Key(), w.now) && !cache.Entombed(slots[0].slotId, w.now)
    requires slots[0].slotId in cache.slots && cache.slots[slots[0].slotId].slot == slots[0]
    ensures var confirmation := Confirmation(BookingIdFor(k.Key()), slots[0], w.now);
            var booked := BookSlot(cache, slots[0].slotId, k.Key(), w.now, k.limits.retention).0;
            && Follows(k, Later(w, p, cell, cache, Placing(slots)), Place(p, Answered),
                       Later(w, p, cell, booked, Decided(Reserve(confirmation, true))))
            && booked.Entombed(slots[0].slotId, w.now) && booked.tombs[slots[0].slotId].key == k.Key()
            && GetBooking(booked, k.Key(), w.now) == Some(confirmation)
  {
    var confirmation := Confirmation(BookingIdFor(k.Key()), slots[0], w.now);
    var v, pc := Later(w, p, cell, cache, Placing(slots)), Decided(Reserve(confirmation, true));
    assert v.pollers[p := v.pollers[p].(pc := pc)] == w.pollers[p := Working(w.pollers[p].claim, w.now, pc)];
  }

  lemma Commits(k: Setup, w: World, p: nat, cell: Cell, cache: Cache, plan: Plan, offset: int)
    requires At(w, p) && cell.IsActive() && Owns(cell, w.pollers[p].claim, w.now) && k.pacing.Valid() && k.pacing.Draws(offset)
    requires plan.Offer? || plan.Reserve?
    ensures var u := Later(w, p, cell, cache, Decided(plan));
            var v := DoCommit(k, u, p, offset);
            && Follows(k, u, Step.Commit(p, offset), v)
            && v.cache == cache && v.now == w.now && v.cell.IsFinished()
            && v.cell.watch == Some(Decide(k.pacing, w.pollers[p].claim, w.now, plan, offset).0)
            && p in v.pollers && v.pollers[p] == Announcing(if plan.Offer? then Found else Booked)
  {
  }

  lemma ThreeSteps(k: Setup, w0: World, a: Step, w1: World, b: Step, w2: World, c: Step, w3: World)
    requires Follows(k, w0, a, w1) && Follows(k, w1, b, w2) && Follows(k, w2, c, w3)
    ensures IsTrace(k, w0, [a, b, c]) && Reached(k, w0, [a, b, c]) == w3
  {
    hide *;
    var worlds, steps := [w0, w1, w2, w3], [a, b, c];
    assert |worlds| == 4 && worlds[0] == w0 && worlds[1] == w1 && worlds[2] == w2 && worlds[3] == w3;
    TraceOf(k, worlds, steps);
  }

  lemma {:induction false} Joined(k: Setup, w: World, a: seq<Step>, b: seq<Step>)
    requires IsTrace(k, w, a) && IsTrace(k, Reached(k, w, a), b)
    ensures IsTrace(k, w, a + b) && Reached(k, w, a + b) == Reached(k, Reached(k, w, a), b)
    decreases |a|
  {
    if a == [] {
      assert a + b == b;
    } else {
      assert (a + b)[0] == a[0] && (a + b)[1..] == a[1..] + b;
      hide Enabled, Next;
      Joined(k, Next(k, w, a[0]), a[1..], b);
    }
  }

  lemma Facts(k: Setup, w: World, p: nat)
    requires WorldOK(k, w) && Starts(k, w, p)
    ensures k.Valid() && k.pacing.Valid() && At(w, p) && w.cell.IsActive() && Owns(w.cell, w.pollers[p].claim, w.now)
    ensures w.now < w.pollers[p].claim.leaseExpiresAt
  {
    hide CellOK, CacheOK, OutcomeOK, LogOK, PollersOK, TokensDistinct, NoticesOK;
  }

  lemma FirstPublished(k: Setup, w: World, candidates: seq<Slot>, operation: string, victims: seq<string>)
    requires WorldOK(k, w) && !w.cache.Reserved(k.Key(), w.now)
    requires CanSearch(k, w, candidates, victims) && Search(k, w, candidates, operation, victims).1 != []
    ensures var (cache, found) := Search(k, w, candidates, operation, victims);
            && !cache.Reserved(k.Key(), w.now) && !cache.Entombed(found[0].slotId, w.now)
            && found[0].slotId in cache.slots && cache.slots[found[0].slotId].slot == found[0]
  {
    PublishKeeps(w.cache, candidates, operation, w.now, k.limits.capacity, k.limits.pinTtl, victims);
    assert Search(k, w, candidates, operation, victims).1[0] in Search(k, w, candidates, operation, victims).1;
    hide CellOK, CacheOK, OutcomeOK, LogOK, PollersOK, TokensDistinct, NoticesOK, Publish, FairVictims;
  }

  lemma FoundDocument(k: Setup, claim: WindowClaim, now: nat, found: seq<Slot>, offset: int)
    requires k.pacing.Valid() && k.pacing.Draws(offset)
    ensures var watch := Decide(k.pacing, claim, now, Offer(found), offset).0;
            && watch.status == Found && watch.foundSlots <= found && |watch.foundSlots| == Min(|found|, MAX_RECORDED_SLOTS)
  {
  }

  lemma BookedDocument(k: Setup, claim: WindowClaim, now: nat, plan: Plan, offset: int)
    requires k.pacing.Valid() && k.pacing.Draws(offset) && plan.Reserve?
    ensures var watch := Decide(k.pacing, claim, now, plan, offset).0;
            watch.status == Booked && watch.booking == Some(plan.confirmation)
  {
  }

  /** An undisturbed notify-only poll ends FOUND with what its search published, and announces it. */
  lemma NotifyPollFinds(k: Setup, w: World, p: nat, candidates: seq<Slot>, operation: string, victims: seq<string>, offset: int)
    requires WorldOK(k, w) && Starts(k, w, p) && !k.autoBook && k.pacing.Draws(offset)
    requires CanSearch(k, w, candidates, victims) && Search(k, w, candidates, operation, victims).1 != []
    ensures var steps := [Check(p), Step.Look(p, candidates, operation, victims), Step.Commit(p, offset)];
            var found := Search(k, w, candidates, operation, victims).1;
            && IsTrace(k, w, steps)
            && var v := Reached(k, w, steps);
               && v.cell.watch.Some? && v.cell.watch.value.status == Found
               && v.cell.watch.value.foundSlots <= found
               && |v.cell.watch.value.foundSlots| == Min(|found|, MAX_RECORDED_SLOTS)
               && p in v.pollers && v.pollers[p] == Announcing(Found)
  {
    var (cache, found) := Search(k, w, candidates, operation, victims);
    var steps := [Check(p), Step.Look(p, candidates, operation, victims), Step.Commit(p, offset)];
    var w1, w2 := Later(w, p, w.cell, w.cache, Asking), Later(w, p, w.cell, cache, Decided(Offer(found)));
    var w3 := DoCommit(k, w2, p, offset);
    Facts(k, w, p);
    hide *;
    Checks(k, w, p);
    Looks(k, w, p, candidates, operation, victims);
    Commits(k, w, p, w.cell, cache, Offer(found), offset);
    ThreeSteps(k, w, steps[0], w1, steps[1], w2, steps[2], w3);
    assert steps == [steps[0], steps[1], steps[2]];
    FoundDocument(k, w.pollers[p].claim, w.now, found, offset);
  }

  lemma FindsSlots(k: Setup, w: World, p: nat, candidates: seq<Slot>, operation: string, victims: seq<string>)
    requires Starts(k, w, p) && k.autoBook && !w.cache.Reserved(k.Key(), w.now)
    requires CanSearch(k, w, candidates, victims) && Search(k, w, candidates, operation, victims).1 != []
    ensures var steps := [Check(p), Recall(p), Step.Look(p, candidates, operation, victims)];
            var (cache, found) := Search(k, w, candidates, operation, victims);
            IsTrace(k, w, steps) && Reached(k, w, steps) == Later(w, p, w.cell, cache, Holding(found))
  {
    var (cache, found) := Search(k, w, candidates, operation, victims);
    assert At(w, p);
    hide *;
    Checks(k, w, p);
    Recalls(k, w, p);
    Looks(k, w, p, candidates, operation, victims);
    ThreeSteps(k, w, Check(p), Later(w, p, w.cell, w.cache, Asking), Recall(p), Later(w, p, w.cell, w.cache, Cleared),
               Step.Look(p, candidates, operation, victims), Later(w, p, w.cell, cache, Holding(found)));
  }

  lemma BooksFirst(k: Setup, w: World, p: nat, cache: Cache, found: seq<Slot>, offset: int) returns (v: World)
    requires Starts(k, w, p) && k.pacing.Valid() && k.pacing.Draws(offset) && k.limits.retention > 0 && found != []
    requires !w.cell.runtime.value.cancelRequested
    requires !cache.Reserved(k.Key(), w.now) && !cache.Entombed(found[0].slotId, w.now)
    requires found[0].slotId in cache.slots && cache.slots[found[0].slotId].slot == found[0]
    ensures var steps := [AskPermit(p), Place(p, Answered), Step.Commit(p, offset)];
            IsTrace(k, Later(w, p, w.cell, cache, Holding(found)), steps)
            && Reached(k, Later(w, p, w.cell, cache, Holding(found)), steps) == v
    ensures BookedWith(k, v, p, found[0], w.now)
  {
    var cell := w.cell.(runtime := Some(w.cell.runtime.value.(phase := Some(Phase.Booking))));
    var booked := BookSlot(cache, found[0].slotId, k.Key(), w.now, k.limits.retention).0;
    var plan := Reserve(Confirmation(BookingIdFor(k.Key()), found[0], w.now), true);
    var w3, w4 := Later(w, p, w.cell, cache, Holding(found)), Later(w, p, cell, cache, Placing(found));
    var w5 := Later(w, p, cell, booked, Decided(plan));
    v := DoCommit(k, w5, p, offset);
    Permits(k, w, p, cache, found);
    Books(k, w, p, cell, cache, found);
    Commits(k, w, p, cell, booked, plan, offset);
    BookedDocument(k, w.pollers[p].claim, w.now, plan, offset);
    hide Follows, IsTrace, Reached, DoCommit, Later, BookSlot, Decide, Owns;
    ThreeSteps(k, w3, AskPermit(p), w4, Place(p, Answered), w5, Step.Commit(p, offset), v);
  }

  /** Booked on this slot, with the confirmation the provider made at that instant and protects, and announcing it. */
  predicate BookedWith(k: Setup, v: World, p: nat, slot: Slot, at: nat) {
    && v.cell.watch.Some? && v.cell.watch.value.status == Booked
    && v.cell.watch.value.booking == Some(Confirmation(BookingIdFor(k.Key()), slot, at))
    && GetBooking(v.cache, k.Key(), v.now) == v.cell.watch.value.booking
    && v.cache.Entombed(slot.slotId, v.now) && v.cache.tombs[slot.slotId].key == k.Key()
    && p in v.pollers && v.pollers[p] == Announcing(Booked)
  }

  /** The calls of an auto-book poll whose every call is answered and whose first booking succeeds. */
  function BookingPoll(p: nat, candidates: seq<Slot>, operation: string, victims: seq<string>, offset: int): (steps: seq<Step>)
    ensures steps == [Check(p), Recall(p), Step.Look(p, candidates, operation, victims)]
                     + [AskPermit(p), Place(p, Answered), Step.Commit(p, offset)]
  {
    [Check(p), Recall(p), Step.Look(p, candidates, operation, victims), AskPermit(p), Place(p, Answered), Step.Commit(p, offset)]
  }

  /** An undisturbed auto-book poll ends BOOKED with the first slot its search published, which the provider
      then protects under the watch's key. */
  lemma AutoPollBooks(k: Setup, w: World, p: nat, candidates: seq<Slot>, operation: string, victims: seq<string>, offset: int)
    requires WorldOK(k, w) && Starts(k, w, p) && k.autoBook && k.pacing.Draws(offset) && k.limits.retention > 0
    requires !w.cache.Reserved(k.Key(), w.now) && !w.cell.runtime.value.cancelRequested
    requires CanSearch(k, w, candidates, victims) && Search(k, w, candidates, operation, victims).1 != []
    ensures var steps := BookingPoll(p, candidates, operation, victims, offset);
            IsTrace(k, w, steps)
            && BookedWith(k, Reached(k, w, steps), p, Search(k, w, candidates, operation, victims).1[0], w.now)
  {
    var (cache, found) := Search(k, w, candidates, operation, victims);
    var first := [Check(p), Recall(p), Step.Look(p, candidates, operation, victims)];
    var second := [AskPermit(p), Place(p, Answered), Step.Commit(p, offset)];
    Facts(k, w, p);
    FirstPublished(k, w, candidates, operation, victims);
    FindsSlots(k, w, p, candidates, operation, victims);
    hide *;
    var v := BooksFirst(k, w, p, cache, found, offset);
    Joined(k, w, first, second);
    assert BookingPoll(p, candidates, operation, victims, offset) == first + second;
  }
}
