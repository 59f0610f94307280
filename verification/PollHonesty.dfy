/** When a cancellation tells the truth: which cancelled watches can never show a reservation
    (backend/services/watch_service.py:308-319, 487-547, 713-736). */
module PollHonesty {
  import opened Wrappers
  import opened Watches
  import opened WatchCells
  import opened MockCache
  import opened PollTiming
  import opened PollPlans
  import opened PollProtocol
  import opened PollSafety
  import opened PollGuarantees

  predicate IsCancelled(w: World) {
    w.cell.watch.Some? && w.cell.watch.value.status == Status.Cancelled
  }

  predicate Unreserved(k: Setup, w: World) {
    !w.cache.Reserved(k.Key(), w.now)
  }

  /** No booking call takes effect after its poller has stopped waiting for it. */
  predicate NoneLate(steps: seq<Step>) {
    forall i :: 0 <= i < |steps| ==> !steps[i].Land?
  }

  lemma {:induction false} StaysInTime(k: Setup, w: World, steps: seq<Step>)
    requires IsTrace(k, w, steps) && NoneLate(steps) && !w.late
    ensures !Reached(k, w, steps).late
    decreases |steps|
  {
    if steps != [] {
      OneStepInTime(k, w, steps[0]);
      assert NoneLate(steps[1..]);
      hide Enabled, Next;
      StaysInTime(k, Next(k, w, steps[0]), steps[1..]);
    }
  }

  lemma OneStepInTime(k: Setup, w: World, step: Step)
    requires Enabled(k, w, step) && !step.Land?
    ensures Next(k, w, step).late == w.late
  {
    hide Fair, Publish, BookSlot, Decide, GetBooking, Do, ClaimWindow, BeginBooking, CommitWindow, CancelIfActive,
      ExpireIfEligible, ReleaseClaim;
  }

  /** If every booking call takes effect before its poller gives up on it or not at all, a watch whose
      poll committed CANCELLED has no reservation under its key, then or later. */
  lemma CancellationIsHonest(k: Setup, start: World, steps: seq<Step>)
    requires History(k, start, steps) && NoneLate(steps)
    ensures var w := Reached(k, start, steps);
            IsCancelled(w) && w.route == Some(ByPoll) ==> Unreserved(k, w)
  {
    Reaches(k, start, steps);
    StaysInTime(k, start, steps);
    hide Reached, History, CellOK, CacheOK, RecordOK, LogOK, PollersOK, TokensDistinct, NoticesOK;
  }

  // -- what a pending call can still do -----------------------------------------------------

  /** The call has lease left, and no one else's reservation keeps its slot until that lease is over. */
  predicate Landable(k: Setup, w: World, call: Call) {
    && call in w.calls && w.now < call.until
    && !w.cache.Entombed(call.slotId, call.until - 1)
    && k.limits.capacity > 0 && k.limits.retention > 0
  }

  predicate NoneLandable(k: Setup, w: World) {
    forall call :: call in w.calls ==> !Landable(k, w, call)
  }

  /** No run from here ever shows a reservation under the watch's key. */
  ghost predicate StaysHonest(k: Setup, w: World) {
    forall steps :: IsTrace(k, w, steps) ==> Unreserved(k, Reached(k, w, steps))
  }

  // -- nothing can land: honest for good -------------------------------------------------------

  lemma CannotPlace(k: Setup, w: World, p: nat)
    requires WorldOK(k, w) && At(w, p) && PcOf(w, p).Placing? && w.now < w.pollers[p].claim.leaseExpiresAt
    ensures !IsCancelled(w)
  {
    Knowing(k, w, p);
    hide WorldOK, Absent;
  }

  /** A protected tombstone outlives every use of the provider until its deadline. */
  lemma TombKept(c: Cache, now: nat, use: CacheOp, lim: Limits, s: string, t: nat)
    requires CacheOK(c, now, lim.capacity) && Fair(c, now, use, lim) && c.Entombed(s, t) && now <= t
    ensures Do(c, now, use, lim).Entombed(s, t)
  {
    if use.Look? {
      PublishKeeps(c, use.candidates, use.operation, now, lim.capacity, lim.pinTtl, use.victims);
    }
    hide FairVictims, Publish, BookingsOK;
  }

  lemma UseKeepsHonest(k: Setup, w: World, use: CacheOp)
    requires WorldOK(k, w) && Fair(w.cache, w.now, use, k.limits) && (use.Take? ==> use.key != k.Key())
    requires Unreserved(k, w) && NoneLandable(k, w)
    ensures var v := w.(cache := Do(w.cache, w.now, use, k.limits)); Unreserved(k, v) && NoneLandable(k, v)
  {
    UseSameHold(k, w.cache, w.now, use);
    var v := w.(cache := Do(w.cache, w.now, use, k.limits));
    forall call | call in v.calls
      ensures !Landable(k, v, call)
    {
      assert !Landable(k, w, call);
      if w.now < call.until && w.cache.Entombed(call.slotId, call.until - 1) {
        TombKept(w.cache, w.now, use, k.limits, call.slotId, call.until - 1);
      }
    }
  }

  lemma LandKeepsHonest(k: Setup, w: World, call: Call)
    requires WorldOK(k, w) && call in w.calls && w.now < call.until
    requires Unreserved(k, w) && NoneLandable(k, w)
    ensures var v := DoLand(k, w, call); Unreserved(k, v) && NoneLandable(k, v)
  {
    var (cache, result) := BookSlot(w.cache, call.slotId, k.Key(), w.now, k.limits.retention);
    assert !Landable(k, w, call);
    assert k.limits.retention > 0 ==> cache == w.cache by {
      RefusedHere(k, w, call);
    }
    hide CellOK, BookingsOK, RecordOK, OutcomeOK, LogOK, PollersOK, TokensDistinct, NoticesOK;
    var v := DoLand(k, w, call);
    forall other | other in v.calls
      ensures !Landable(k, v, other)
    {
      assert !Landable(k, w, other);
    }
  }

  /** A call that cannot land is refused whenever it arrives: its slot is another's, or not stored. */
  lemma RefusedHere(k: Setup, w: World, call: Call)
    requires WorldOK(k, w) && call in w.calls && w.now < call.until && Unreserved(k, w) && !Landable(k, w, call)
    ensures k.limits.retention > 0 ==> BookSlot(w.cache, call.slotId, k.Key(), w.now, k.limits.retention).0 == w.cache
  {
    var c := w.cache;
    if c.Entombed(call.slotId, call.until - 1) {
      assert c.Entombed(call.slotId, w.now);
      assert Linked(c, c.tombs[call.slotId].key, call.slotId, w.now);
    } else if k.limits.capacity == 0 {
      assert c.slots == map[];
    }
    hide CellOK, RecordOK, OutcomeOK, LogOK, PollersOK, TokensDistinct, NoticesOK;
  }

  lemma LookIsUse(k: Setup, w: World, p: nat, candidates: seq<Slot>, operation: string, victims: seq<string>)
    requires At(w, p) && Fair(w.cache, w.now, Use(operation, candidates, victims), k.limits)
    ensures var v := DoLook(k, w, p, candidates, operation, victims);
            && v.now == w.now && v.calls == w.calls
            && v.cache == if candidates == [] then w.cache
                          else Do(w.cache, w.now, Use(operation, candidates, victims), k.limits)
  {
    hide Publish, FairVictims;
  }

  lemma HonestStep(k: Setup, w: World, step: Step)
    requires WorldOK(k, w) && Enabled(k, w, step) && IsCancelled(w)
    requires Unreserved(k, w) && NoneLandable(k, w)
    ensures Unreserved(k, Next(k, w, step)) && NoneLandable(k, Next(k, w, step))
  {
    match step
    case Place(p, _) => CannotPlace(k, w, p);
    case Land(call) => LandKeepsHonest(k, w, call);
    case Look(p, candidates, operation, victims) =>
      UseKeepsHonest(k, w, Use(operation, candidates, victims));
      LookIsUse(k, w, p, candidates, operation, victims);
      hide WorldOK, Do, Fair, DoLook;
    case Others(use) => UseKeepsHonest(k, w, use);
    case Tick(to) => LaterHonest(k, w, to);
    case _ => NothingNew(k, w, step);
  }

  lemma LaterHonest(k: Setup, w: World, to: nat)
    requires w.now <= to && Unreserved(k, w) && NoneLandable(k, w)
    ensures Unreserved(k, w.(now := to)) && NoneLandable(k, w.(now := to))
  {
    forall call | call in w.calls
      ensures !Landable(k, w.(now := to), call)
    {
      assert !Landable(k, w, call);
    }
  }

  lemma NothingNew(k: Setup, w: World, step: Step)
    requires Enabled(k, w, step) && Unreserved(k, w) && NoneLandable(k, w)
    requires !step.Place? && !step.Land? && !step.Look? && !step.Others? && !step.Tick?
    ensures Unreserved(k, Next(k, w, step)) && NoneLandable(k, Next(k, w, step))
  {
    var v := Next(k, w, step);
    assert v.now == w.now && v.cache == w.cache && v.calls == w.calls by {
      hide Decide, GetBooking, Do, Fair, ClaimWindow, BeginBooking, CommitWindow, CancelIfActive, ExpireIfEligible, ReleaseClaim;
    }
    forall call | call in v.calls
      ensures !Landable(k, v, call)
    {
      assert !Landable(k, w, call);
    }
  }

  lemma {:induction false} HonestOnwards(k: Setup, w: World, steps: seq<Step>)
    requires WorldOK(k, w) && IsTrace(k, w, steps) && IsCancelled(w)
    requires Unreserved(k, w) && NoneLandable(k, w)
    ensures Unreserved(k, Reached(k, w, steps))
    decreases |steps|
  {
    if steps != [] {
      HonestStep(k, w, steps[0]);
      StepKeeps(k, w, steps[0]);
      FinishedOneStep(k, w, steps[0]);
      hide WorldOK, Enabled, Next, Unreserved, NoneLandable;
      HonestOnwards(k, Next(k, w, steps[0]), steps[1..]);
    }
  }

  // -- a call can land: a run shows it -----------------------------------------------------------

  /** Among finitely many slots one was touched longest ago. */
  lemma {:induction false} OldestExists(slots: map<string, Entry>, among: set<string>) returns (s: string)
    requires among != {} && among <= slots.Keys
    ensures s in among && forall t :: t in among ==> slots[s].lastTouch <= slots[t].lastTouch
    decreases among
  {
    s :| s in among;
    if among != {s} {
      var t := OldestExists(slots, among - {s});
      if slots[t].lastTouch < slots[s].lastTouch {
        s := t;
      }
    }
  }

  /** Some operation whose release leaves the provider room for one more slot. */
  lemma MakesRoom(c: Cache, now: nat, capacity: nat) returns (operation: string)
    requires capacity > 0
    ensures var w := Start(Release(c, operation), now);
            |w.cache.slots| >= capacity ==> Evictable(w, now) != {}
  {
    operation := "";
    if |c.slots| >= capacity {
      assert c.slots != map[];
      var s :| s in c.slots;
      operation := if s in c.pins then c.pins[s].operation else "";
      assert s in Evictable(Start(Release(c, operation), now), now);
    }
  }

  /** With room, a search for one slot that is not withheld gets it stored. */
  lemma GetsStored(c: Cache, slot: Slot, now: nat, lim: Limits) returns (victim: string)
    requires !c.Entombed(slot.slotId, now)
    requires var w := Start(c, now); |w.cache.slots| >= lim.capacity ==> Evictable(w, now) != {}
    ensures Fair(c, now, Use("search", [slot], [victim]), lim)
    ensures var d := Do(c, now, Use("search", [slot], [victim]), lim);
            slot.slotId in d.slots && d.tombs == c.tombs && d.bookings == c.bookings
  {
    var begin := Start(c, now);
    victim := "";
    if Evictable(begin, now) != {} {
      victim := OldestExists(begin.cache.slots, Evictable(begin, now));
    }
    assert [slot][..0] == [] && [victim][..0] == [];
    assert Admit(begin, [], now, lim.capacity, []) == begin;
    assert Admit(begin, [slot], now, lim.capacity, [victim]) == AdmitOne(begin, slot, now, lim.capacity, victim);
  }

  /** The first instant, still inside its lease, at which nobody withholds the call's slot. */
  function LandingTime(w: World, call: Call): nat {
    if w.cache.Entombed(call.slotId, w.now) then w.cache.tombs[call.slotId].protectedUntil else w.now
  }

  /** The call is pending with lease left, and its slot is not withheld from it now. */
  predicate Free(k: Setup, w: World, call: Call) {
    && call in w.calls && w.now < call.until && Unreserved(k, w) && !w.cache.Entombed(call.slotId, w.now)
    && k.limits.capacity > 0 && k.limits.retention > 0
  }

  lemma Waits(k: Setup, w: World, call: Call) returns (to: nat, v: World)
    requires Unreserved(k, w) && Landable(k, w, call)
    ensures Follows(k, w, Tick(to), v) && Free(k, v, call)
  {
    to := LandingTime(w, call);
    v := w.(now := to);
  }

  lemma Clears(k: Setup, w: World, call: Call) returns (operation: string, v: World)
    requires Free(k, w, call)
    ensures Follows(k, w, Others(Drop(operation)), v) && Free(k, v, call)
    ensures var begin := Start(v.cache, v.now); |begin.cache.slots| >= k.limits.capacity ==> Evictable(begin, v.now) != {}
  {
    operation := MakesRoom(w.cache, w.now, k.limits.capacity);
    v := w.(cache := Release(w.cache, operation));
    hide Start, Evictable;
  }

  lemma Publishes(k: Setup, w: World, call: Call) returns (use: CacheOp, v: World)
    requires Free(k, w, call)
    requires var begin := Start(w.cache, w.now); |begin.cache.slots| >= k.limits.capacity ==> Evictable(begin, w.now) != {}
    ensures Follows(k, w, Others(use), v) && Free(k, v, call) && call.slotId in v.cache.slots
  {
    assert !w.cache.Entombed(call.slotId, w.now);
    hide *;
    var victim := GetsStored(w.cache, Slot(call.slotId, ""), w.now, k.limits);
    use := SearchFor(call, victim);
    SearchFollows(k, w, call, victim);
    v := w.(cache := Do(w.cache, w.now, use, k.limits));
    StaysFree(k, w, v.cache, call);
  }

  function SearchFor(call: Call, victim: string): (use: CacheOp)
    ensures use == Use("search", [Slot(call.slotId, "")], [victim])
  {
    Use("search", [Slot(call.slotId, "")], [victim])
  }

  lemma SearchFollows(k: Setup, w: World, call: Call, victim: string)
    requires Fair(w.cache, w.now, SearchFor(call, victim), k.limits)
    ensures var use := SearchFor(call, victim);
            Follows(k, w, Others(use), w.(cache := Do(w.cache, w.now, use, k.limits)))
  {
    hide FairVictims, Publish;
  }

  lemma StaysFree(k: Setup, w: World, cache: Cache, call: Call)
    requires Free(k, w, call) && cache.tombs == w.cache.tombs && cache.bookings == w.cache.bookings
    ensures Free(k, w.(cache := cache), call)
  {
  }

  lemma TakesEffect(k: Setup, w: World, call: Call) returns (v: World)
    requires Free(k, w, call) && call.slotId in w.cache.slots
    ensures Follows(k, w, Land(call), v) && !Unreserved(k, v)
  {
    v := DoLand(k, w, call);
  }

  /** Wait until the slot is free, let another watch's search publish it, and the call takes effect. */
  lemma CanLand(k: Setup, w: World, call: Call) returns (steps: seq<Step>)
    requires Unreserved(k, w) && Landable(k, w, call)
    ensures IsTrace(k, w, steps) && !Unreserved(k, Reached(k, w, steps))
  {
    hide *;
    var to, w1 := Waits(k, w, call);
    var operation, w2 := Clears(k, w1, call);
    var use, w3 := Publishes(k, w2, call);
    var w4 := TakesEffect(k, w3, call);
    steps := [Tick(to), Others(Drop(operation)), Others(use), Land(call)];
    TraceOf(k, [w, w1, w2, w3, w4], steps);
  }

  // -- the exact condition --------------------------------------------------------------------------

  /** A cancelled watch can never show a reservation, whatever still runs, exactly when the provider
      knows no booking for it and no pending call can still take effect. */
  lemma HonestIff(k: Setup, w: World)
    requires WorldOK(k, w) && IsCancelled(w)
    ensures StaysHonest(k, w) <==> Unreserved(k, w) && NoneLandable(k, w)
  {
    assert IsTrace(k, w, []) && Reached(k, w, []) == w;
    hide WorldOK, Unreserved, Landable;
    if Unreserved(k, w) && NoneLandable(k, w) {
      forall steps | IsTrace(k, w, steps)
        ensures Unreserved(k, Reached(k, w, steps))
      {
        HonestOnwards(k, w, steps);
      }
    } else if Unreserved(k, w) {
      var call :| call in w.calls && Landable(k, w, call);
      var steps := CanLand(k, w, call);
      assert IsTrace(k, w, steps) && !Unreserved(k, Reached(k, w, steps));
    }
  }

  /** What can be read before a cancellation: no booking under the key, no call that can still land. */
  predicate NothingBooked(k: Setup, w: World) {
    GetBooking(w.cache, k.Key(), w.now).None? && NoneLandable(k, w)
  }

  lemma SameProvider(k: Setup, w: World, v: World)
    requires v.cache == w.cache && v.calls == w.calls && v.now == w.now
    ensures NothingBooked(k, w) <==> Unreserved(k, v) && NoneLandable(k, v)
  {
    assert forall call :: Landable(k, w, call) <==> Landable(k, v, call);
  }

  /** A direct cancellation that goes through is honest for good exactly when, at that moment, the
      provider knows no booking for the watch and no pending call can still take effect. */
  lemma DirectCancelIsHonestIff(k: Setup, start: World, before: seq<Step>)
    requires History(k, start, before)
    requires CancelIfActive(Reached(k, start, before).cell, Reached(k, start, before).now, k.retention).1.status == Applied
    ensures var w := Reached(k, start, before);
            StaysHonest(k, DoCancel(k, w)) <==> NothingBooked(k, w)
  {
    var w := Reached(k, start, before);
    var v := DoCancel(k, w);
    Reaches(k, start, before);
    CancelKeeps(k, w);
    assert IsCancelled(v) && v.cache == w.cache && v.calls == w.calls && v.now == w.now;
    hide *;
    SameProvider(k, w, v);
    HonestIff(k, v);
  }

  /** The same condition decides whether a cancellation committed by a poll is honest for good. */
  lemma PollCancelIsHonestIff(k: Setup, start: World, before: seq<Step>, p: nat, offset: int)
    requires History(k, start, before)
    ensures var w := Reached(k, start, before);
            MayCommit(k, w, p, offset) && PcOf(w, p) == Decided(Withdraw) && Owns(w.cell, w.pollers[p].claim, w.now) ==>
              (StaysHonest(k, DoCommit(k, w, p, offset)) <==> NothingBooked(k, w))
  {
    var w := Reached(k, start, before);
    Reaches(k, start, before);
    hide History, Reached;
    if MayCommit(k, w, p, offset) && PcOf(w, p) == Decided(Withdraw) && Owns(w.cell, w.pollers[p].claim, w.now) {
      var v := DoCommit(k, w, p, offset);
      CommitKeeps(k, w, p, offset);
      Withdraws(k, w, p, offset);
      hide *;
      SameProvider(k, w, v);
      HonestIff(k, v);
    }
  }

  lemma Withdraws(k: Setup, w: World, p: nat, offset: int)
    requires WorldOK(k, w) && MayCommit(k, w, p, offset) && PcOf(w, p) == Decided(Withdraw)
    requires Owns(w.cell, w.pollers[p].claim, w.now)
    ensures var v := DoCommit(k, w, p, offset);
            IsCancelled(v) && v.cache == w.cache && v.calls == w.calls && v.now == w.now
  {
    hide CacheOK, RecordOK, OutcomeOK, LogOK, PollersOK, TokensDistinct, NoticesOK, Open, Closed;
  }
}
