/** What the poll protocol does not promise, each shown by a run. */
module PollLimits {
  import opened Wrappers
  import opened Watches
  import opened WatchCells
  import opened MockCache
  import opened PollTiming
  import opened PollPlans
  import opened PollProtocol
  import opened PollSafety
  import opened PollGuarantees
  import opened PollHonesty

  /** An auto-book watch with room, retention and more lifetime than the delay floor, over a provider
      that has seen nothing yet. */
  predicate Ordinary(k: Setup, start: World) {
    && k.Valid() && k.autoBook && IsStart(k, start) && start.cache == NOTHING
    && k.limits.capacity > 0 && k.limits.retention > 0 && k.expiresAt >= k.createdAt + MIN_DELAY
  }

  /** Poll up to a booking call that times out, commit the outage, and cancel. */
  function TimedOutBooking(k: Setup, slot: Slot, fate: Fate): (steps: seq<Step>)
    ensures |steps| == 8
  {
    [Deliver(0, WindowIdFor(k.id, 0), "poller", false), Check(0), Recall(0), Step.Look(0, [slot], "search", [""]),
     AskPermit(0), Place(0, TimedOut(fate, "timed out")), Step.Commit(0, 0), Cancel]
  }

  // -- building a run ---------------------------------------------------------------------

  predicate Leads(k: Setup, start: World, steps: seq<Step>, w: World) {
    IsTrace(k, start, steps) && Reached(k, start, steps) == w
  }

  lemma {:induction false} OneLonger(k: Setup, start: World, steps: seq<Step>, w: World, step: Step, v: World)
    requires Leads(k, start, steps, w) && Follows(k, w, step, v)
    ensures Leads(k, start, steps + [step], v)
    decreases |steps|
  {
    var all := steps + [step];
    if steps == [] {
      assert all == [step] && all[1..] == [];
      assert IsTrace(k, v, []) && Reached(k, v, []) == v;
    } else {
      assert all[0] == steps[0] && all[1..] == steps[1..] + [step];
      OneLonger(k, Next(k, start, steps[0]), steps[1..], w, step, v);
    }
    hide Enabled, Next;
  }

  /** The next of a run's steps leads one state further. */
  lemma Onto(k: Setup, start: World, all: seq<Step>, i: nat, w: World, v: World)
    requires i < |all| && Leads(k, start, all[..i], w) && Follows(k, w, all[i], v)
    ensures Leads(k, start, all[..i + 1], v)
  {
    assert all[..i + 1] == all[..i] + [all[i]];
    hide *;
    OneLonger(k, start, all[..i], w, all[i], v);
  }

  lemma NoStepYet(k: Setup, start: World, all: seq<Step>)
    ensures Leads(k, start, all[..0], start)
  {
    assert all[..0] == [];
  }

  lemma AllSteps(k: Setup, start: World, all: seq<Step>, n: nat, w: World)
    requires n == |all| && Leads(k, start, all[..n], w)
    ensures Leads(k, start, all, w)
  {
    assert all[..n] == all;
  }

  // -- the states of this run ----------------------------------------------------------------

  function Claimed(k: Setup): WindowClaim {
    WindowClaim(k.FirstWatch(), k.FirstRuntime(), "poller", WindowIdFor(k.id, 0), 1, k.createdAt + POLL_LEASE)
  }

  /** The one poller, alone with the claimed first window. */
  function Standing(k: Setup, w: World, pc: Pc): World {
    w.(pollers := map[0 := Working(Claimed(k), k.createdAt, pc)])
  }

  /** What holds until the commit: the poller owns the window of an active watch. */
  predicate Owning(k: Setup, w: World) {
    && w.now == k.createdAt && Owns(w.cell, Claimed(k), w.now) && w.cell.IsActive()
    && !w.cell.runtime.value.cancelRequested
  }

  lemma Claims(k: Setup, start: World, slot: Slot, fate: Fate) returns (w: World)
    requires Ordinary(k, start)
    ensures var all := TimedOutBooking(k, slot, fate);
            && Follows(k, start, all[0], w)
            && Follows(k, w, all[1], Standing(k, w, Asking))
            && Follows(k, Standing(k, w, Asking), all[2], Standing(k, w, Cleared))
    ensures Owning(k, w) && w.cache == NOTHING
  {
    w := DoDeliver(start, 0, WindowIdFor(k.id, 0), "poller", false);
    assert k.FirstWatch().maxAttempts > 0;
    hide Derive;
    assert w == Standing(k, w, Fresh);
    assert DoCheck(w, 0) == Standing(k, w, Asking);
    assert DoRecall(k, Standing(k, w, Asking), 0) == Standing(k, w, Cleared);
  }

  lemma NothingToEvict(c: Cache, slot: Slot, now: nat, lim: Limits)
    requires c == NOTHING && lim.capacity > 0
    ensures FairVictims(Start(c, now), [slot], now, lim.capacity, [""])
    ensures var (d, found) := Publish(c, [slot], "search", now, lim.capacity, lim.pinTtl, [""]);
            && found == [slot] && d.slots == map[slot.slotId := MockCache.Entry(slot, now)]
            && d.tombs == map[] && d.bookings == map[]
  {
    var begin := Start(c, now);
    assert begin.cache.slots == map[] && begin.cache.tombs == map[] && begin.cache.pins == map[];
    assert |begin.cache.slots| == 0;
    assert [slot][..0] == [] && [""][..0] == [];
    assert Admit(begin, [], now, lim.capacity, []) == begin;
    var done := AdmitOne(begin, slot, now, lim.capacity, "");
    assert Admit(begin, [slot], now, lim.capacity, [""]) == done && done.found == [] + [slot] == [slot];
  }

  lemma LookFollows(k: Setup, w: World, slot: Slot)
    requires At(w, 0) && PcOf(w, 0).Cleared? && FairVictims(Start(w.cache, w.now), [slot], w.now, k.limits.capacity, [""])
    ensures Follows(k, w, Step.Look(0, [slot], "search", [""]), DoLook(k, w, 0, [slot], "search", [""]))
  {
    hide DoLook, FairVictims, Start;
  }

  lemma Searches(k: Setup, w: World, slot: Slot, fate: Fate) returns (v: World)
    requires w == Standing(k, w, Cleared) && w.cache == NOTHING && k.limits.capacity > 0 && k.autoBook && Owning(k, w)
    ensures v == Standing(k, v, Holding([slot])) && Owning(k, v)
    ensures Follows(k, w, TimedOutBooking(k, slot, fate)[3], v)
    ensures slot.slotId in v.cache.slots && v.cache.tombs == map[] && v.cache.bookings == map[]
  {
    StandsThere(k, w, Cleared);
    FourthStep(k, slot, fate);
    NothingToEvict(w.cache, slot, w.now, k.limits);
    hide *;
    v := DoLook(k, w, 0, [slot], "search", [""]);
    FindsSlot(k, w, slot);
    LookFollows(k, w, slot);
    SameOwner(k, w, v);
  }

  lemma StandsThere(k: Setup, w: World, pc: Pc)
    requires w == Standing(k, w, pc)
    ensures At(w, 0) && PcOf(w, 0) == pc
  {
  }

  lemma FourthStep(k: Setup, slot: Slot, fate: Fate)
    ensures TimedOutBooking(k, slot, fate)[3] == Step.Look(0, [slot], "search", [""])
  {
  }

  lemma Stands(k: Setup, w: World, pc: Pc)
    requires Owning(k, w)
    ensures var v := Standing(k, w, pc); v == Standing(k, v, pc) && v.cache == w.cache && Owning(k, v)
  {
  }

  lemma FindsSlot(k: Setup, u: World, slot: Slot)
    requires u == Standing(k, u, Cleared) && k.autoBook
    requires Publish(u.cache, [slot], "search", u.now, k.limits.capacity, k.limits.pinTtl, [""]).1 == [slot]
    ensures var v := DoLook(k, u, 0, [slot], "search", [""]);
            && v == Standing(k, v, Holding([slot])) && v.now == u.now && v.cell == u.cell
            && v.cache == Publish(u.cache, [slot], "search", u.now, k.limits.capacity, k.limits.pinTtl, [""]).0
  {
    hide Publish, Claimed;
    var v := DoLook(k, u, 0, [slot], "search", [""]);
    assert v.pollers == map[0 := Working(Claimed(k), k.createdAt, Holding([slot]))];
  }

  lemma SameOwner(k: Setup, w: World, v: World)
    requires Owning(k, w) && v.now == w.now && v.cell == w.cell
    ensures Owning(k, v)
  {
  }

  lemma Permits(k: Setup, w: World, slot: Slot, fate: Fate) returns (v: World)
    requires w == Standing(k, w, Holding([slot])) && Owning(k, w)
    ensures v == Standing(k, v, Placing([slot])) && Owning(k, v) && v.cache == w.cache
    ensures Follows(k, w, TimedOutBooking(k, slot, fate)[4], v)
  {
    v := DoAskPermit(w, 0);
    assert v.pollers == map[0 := Working(Claimed(k), k.createdAt, Placing([slot]))];
    hide Setup.FirstWatch, Setup.FirstRuntime;
  }

  /** Someone may yet see a reservation: a pending call can still take effect. */
  predicate SomeLandable(k: Setup, w: World) {
    exists call :: call in w.calls && Landable(k, w, call)
  }

  lemma TimesOut(k: Setup, w: World, slot: Slot, fate: Fate) returns (v: World)
    requires w == Standing(k, w, Placing([slot])) && Owning(k, w) && k.limits.capacity > 0 && k.limits.retention > 0
    requires slot.slotId in w.cache.slots && w.cache.tombs == map[] && w.cache.bookings == map[]
    ensures v == Standing(k, v, Decided(Outage("timed out"))) && Owning(k, v)
    ensures Follows(k, w, TimedOutBooking(k, slot, fate)[5], v)
    ensures fate.Landed? ==> !Unreserved(k, v)
    ensures fate.Pending? ==> Unreserved(k, v) && SomeLandable(k, v)
  {
    v := DoPlace(k, w, 0, TimedOut(fate, "timed out"));
    assert v.pollers == map[0 := Working(Claimed(k), k.createdAt, Decided(Outage("timed out")))];
    if fate.Pending? {
      assert Landable(k, v, Call(slot.slotId, 1, k.createdAt + POLL_LEASE));
    }
    hide Setup.FirstWatch, Setup.FirstRuntime;
  }

  /** The outage commit leaves an active watch whose phase no longer refuses a cancellation. */
  lemma Forgets(k: Setup, w: World, slot: Slot, fate: Fate) returns (v: World)
    requires k.Valid() && k.expiresAt >= k.createdAt + MIN_DELAY
    requires w == Standing(k, w, Decided(Outage("timed out"))) && Owning(k, w)
    ensures v.cell.IsActive() && v.cell.runtime.Some? && v.cell.runtime.value.phase.None?
    ensures v.cache == w.cache && v.now == w.now && v.calls == w.calls
    ensures Follows(k, w, TimedOutBooking(k, slot, fate)[6], v)
  {
    v := DoCommit(k, w, 0, 0);
    OutageDelayBounds(k.pacing, SaturatingOutages(k.pacing, 1), k.createdAt, k.expiresAt, 0);
    hide OutageDelay, SaturatingOutages, Derive;
  }

  lemma Cancels(k: Setup, w: World, slot: Slot, fate: Fate) returns (v: World)
    requires w.cell.IsActive() && w.cell.runtime.Some? && w.cell.runtime.value.phase.None?
    ensures IsCancelled(v) && v.cache == w.cache && v.now == w.now && v.calls == w.calls
    ensures Follows(k, w, TimedOutBooking(k, slot, fate)[7], v)
  {
    v := DoCancel(k, w);
  }

  lemma SameProspects(k: Setup, w: World, v: World)
    requires v.cache == w.cache && v.now == w.now && v.calls == w.calls
    ensures Unreserved(k, v) <==> Unreserved(k, w)
    ensures SomeLandable(k, w) ==> SomeLandable(k, v)
  {
    if SomeLandable(k, w) {
      var call :| call in w.calls && Landable(k, w, call);
      assert Landable(k, v, call);
    }
  }

  lemma Means(k: Setup, start: World)
    requires Ordinary(k, start)
    ensures start.cache == NOTHING && k.limits.capacity > 0 && k.autoBook && k.limits.retention > 0 && k.Valid()
    ensures k.expiresAt >= k.createdAt + MIN_DELAY
  {
  }

  /** The run itself, whatever becomes of the call that timed out. */
  lemma TheRun(k: Setup, start: World, slot: Slot, fate: Fate) returns (w: World)
    requires Ordinary(k, start)
    ensures Leads(k, start, TimedOutBooking(k, slot, fate), w) && IsCancelled(w)
    ensures fate.Landed? ==> !Unreserved(k, w)
    ensures fate.Pending? ==> Unreserved(k, w) && SomeLandable(k, w)
  {
    hide *;
    var all := TimedOutBooking(k, slot, fate);
    Means(k, start);
    var w1 := Claims(k, start, slot, fate);
    var w2, w3 := Standing(k, w1, Asking), Standing(k, w1, Cleared);
    Stands(k, w1, Cleared);
    var w4 := Searches(k, w3, slot, fate);
    var w5 := Permits(k, w4, slot, fate);
    var w6 := TimesOut(k, w5, slot, fate);
    var w7 := Forgets(k, w6, slot, fate);
    w := Cancels(k, w7, slot, fate);
    SameProspects(k, w6, w);
    NoStepYet(k, start, all);
    Onto(k, start, all, 0, start, w1);
    Onto(k, start, all, 1, w1, w2);
    Onto(k, start, all, 2, w2, w3);
    Onto(k, start, all, 3, w3, w4);
    Onto(k, start, all, 4, w4, w5);
    Onto(k, start, all, 5, w5, w6);
    Onto(k, start, all, 6, w6, w7);
    Onto(k, start, all, 7, w7, w);
    AllSteps(k, start, all, 8, w);
  }

  /** A direct cancellation can succeed while the provider holds a reservation for the watch: the
      outage commit that follows a lost booking answer clears the phase that would have refused it. */
  lemma DirectCancelCanStrand(k: Setup, start: World, slot: Slot)
    requires Ordinary(k, start)
    ensures IsTrace(k, start, TimedOutBooking(k, slot, Landed))
    ensures var w := Reached(k, start, TimedOutBooking(k, slot, Landed)); IsCancelled(w) && !Unreserved(k, w)
  {
    var w := TheRun(k, start, slot, Landed);
    hide IsTrace, Reached, IsCancelled, Unreserved;
  }

  /** Finding no booking is not enough: the same cancellation, with the timed-out call still pending,
      sees none, and a reservation appears under the cancelled watch later. */
  lemma LateCallCanStrand(k: Setup, start: World, slot: Slot) returns (more: seq<Step>)
    requires Ordinary(k, start)
    ensures IsTrace(k, start, TimedOutBooking(k, slot, Pending))
    ensures var w := Reached(k, start, TimedOutBooking(k, slot, Pending));
            && IsCancelled(w) && Unreserved(k, w)
            && IsTrace(k, w, more) && !Unreserved(k, Reached(k, w, more))
  {
    var w := TheRun(k, start, slot, Pending);
    var call :| call in w.calls && Landable(k, w, call);
    hide *;
    more := CanLand(k, w, call);
  }
}
