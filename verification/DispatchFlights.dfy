/** Publishing rights over whole histories: generations only grow, and a window marked as
    dispatched is not published again before its redispatch time
    (backend/db/repositories/watches.py:353-427, backend/workers/dispatcher.py:117-164). */
module DispatchFlights {
  import opened Wrappers
  import opened Watches
  import opened WatchCells
  import opened CellRuns
  import opened MockCache
  import opened PollPlans
  import opened PollProtocol
  import opened PollSafety
  import opened PollGuarantees
  import opened PollDeadline

  lemma {:induction false} FencesGrow(c: Cell, id: string, retention: nat, ops: seq<CellRuns.Timed>)
    ensures c.dispatchFence <= CellRuns.Run(c, id, retention, ops).dispatchFence
    decreases |ops|
  {
    if ops != [] {
      FencesGrow(Apply(c, id, ops[0].now, retention, ops[0].op), id, retention, ops[1..]);
    }
  }

  /** Whatever happens in between, a later publishing right carries a strictly newer generation. */
  lemma GenerationsIncrease(c: Cell, id: string, retention: nat, ops: seq<CellRuns.Timed>, t: nat, u: nat,
                            w1: string, w2: string, o1: string, o2: string, lease: nat)
    ensures var (c1, r1) := ClaimDispatch(c, id, t, w1, o1, lease);
            var r2 := ClaimDispatch(CellRuns.Run(c1, id, retention, ops), id, u, w2, o2, lease).1;
            r1.Dispatching? && r2.Dispatching? ==> r1.claim.generation < r2.claim.generation
  {
    FencesGrow(ClaimDispatch(c, id, t, w1, o1, lease).0, id, retention, ops);
    hide CellRuns.Run;
  }

  /** The n-th window is being published under generation g until its redispatch time, or is over. */
  predicate InFlight(k: Setup, c: Cell, n: nat, g: nat, redispatchAfter: nat) {
    && c.runtime.Some? && c.watch.Some? && n <= c.runtime.value.revision
    && (c.IsActive() && c.runtime.value.revision == n ==>
          && c.dispatch.Some? && c.dispatch.value.window == WindowIdFor(k.id, n)
          && c.dispatch.value.generation == g && c.dispatch.value.expiresAt == redispatchAfter)
  }

  /** The holder of generation g has marked its window and does not touch that lease again. */
  predicate LeavesBe(step: Step, g: nat) {
    step.Upkeep? ==>
      && (step.op.OpMark? ==> step.op.ticket.generation != g)
      && (step.op.OpUnlease? ==> step.op.ticket.generation != g)
  }

  lemma InFlightUnder(k: Setup, now: nat, c: Cell, op: CellOp, n: nat, g: nat, redispatchAfter: nat)
    requires CellOK(k, now, c) && InFlight(k, c, n, g, redispatchAfter) && now < redispatchAfter && !op.OpCreate?
    requires op.OpMark? || op.OpUnlease? ==> op.ticket.generation != g
    ensures InFlight(k, Apply(c, k.id, now, k.retention, op), n, g, redispatchAfter)
  {
    if c.IsActive() {
      OpenHasMarker(k, c);
    }
    hide Closed;
  }

  lemma InFlightStep(k: Setup, w: World, step: Step, n: nat, g: nat, redispatchAfter: nat)
    requires WorldOK(k, w) && Enabled(k, w, step) && LeavesBe(step, g)
    requires InFlight(k, w.cell, n, g, redispatchAfter) && w.now < redispatchAfter
    ensures InFlight(k, Next(k, w, step).cell, n, g, redispatchAfter)
  {
    if step.Commit? {
      CommitEffect(k, w, step.p, step.offset);
      var x := w.pollers[step.p];
      InFlightUnder(k, w.now, w.cell, CommitOp(k, x, step.offset), n, g, redispatchAfter);
      hide WorldOK, InFlight, DoCommit, Apply, CommitOp, Owns;
    } else {
      StoreMoves(k, w, step);
      var op := StoreOp(k, w, step);
      if op.Some? {
        InFlightUnder(k, w.now, w.cell, op.value, n, g, redispatchAfter);
      }
      hide WorldOK, InFlight, Apply, Next;
    }
  }

  lemma {:induction false} Onward(k: Setup, w: World, steps: seq<Step>)
    requires IsTrace(k, w, steps)
    ensures w.now <= Reached(k, w, steps).now
    decreases |steps|
  {
    if steps != [] {
      OneStepOnward(k, w, steps[0]);
      hide Enabled, Next;
      Onward(k, Next(k, w, steps[0]), steps[1..]);
    }
  }

  lemma OneStepOnward(k: Setup, w: World, step: Step)
    requires Enabled(k, w, step)
    ensures w.now <= Next(k, w, step).now
  {
    hide Fair, Publish, BookSlot, Decide, GetBooking, Do, Apply, ClaimWindow, BeginBooking, CommitWindow, CancelIfActive,
      ExpireIfEligible, ReleaseClaim;
  }

  lemma {:induction false} StaysInFlight(k: Setup, w: World, steps: seq<Step>, n: nat, g: nat, redispatchAfter: nat)
    requires WorldOK(k, w) && IsTrace(k, w, steps) && InFlight(k, w.cell, n, g, redispatchAfter)
    requires Reached(k, w, steps).now < redispatchAfter
    requires forall i :: 0 <= i < |steps| ==> LeavesBe(steps[i], g)
    ensures InFlight(k, Reached(k, w, steps).cell, n, g, redispatchAfter)
    decreases |steps|
  {
    if steps != [] {
      Onward(k, w, steps);
      StepKeeps(k, w, steps[0]);
      InFlightStep(k, w, steps[0], n, g, redispatchAfter);
      hide WorldOK, InFlight, Enabled, Next, LeavesBe;
      StaysInFlight(k, Next(k, w, steps[0]), steps[1..], n, g, redispatchAfter);
    }
  }

  /** The ticket still holds the right to publish the current window. */
  predicate MayMark(c: Cell, ticket: DispatchClaim) {
    && c.marker.Some? && c.marker.value.window == ticket.window
    && c.dispatch.Some? && c.dispatch.value.window == ticket.window
    && OwnsDispatch(c, ticket)
  }

  /** Once a window is marked as dispatched, no dispatcher gets to publish it again before its
      redispatch time, whatever polls, cancellations, sweeps and other dispatchers do meanwhile. */
  lemma SingleFlight(k: Setup, start: World, before: seq<Step>, ticket: DispatchClaim, redispatchAfter: nat,
                     steps: seq<Step>, owner: string, lease: nat)
    requires History(k, start, before) && MayMark(Reached(k, start, before).cell, ticket)
    requires var marked := Next(k, Reached(k, start, before), Upkeep(OpMark(ticket, redispatchAfter)));
             IsTrace(k, marked, steps) && Reached(k, marked, steps).now < redispatchAfter
    requires forall i :: 0 <= i < |steps| ==> LeavesBe(steps[i], ticket.generation)
    ensures var marked := Next(k, Reached(k, start, before), Upkeep(OpMark(ticket, redispatchAfter)));
            var last := Reached(k, marked, steps);
            !ClaimDispatch(last.cell, k.id, last.now, ticket.window, owner, lease).1.Dispatching?
  {
    var w := Reached(k, start, before);
    Reaches(k, start, before);
    hide *;
    MarkedFlies(k, w, ticket, redispatchAfter);
    FlightHolds(k, Next(k, w, Upkeep(OpMark(ticket, redispatchAfter))), steps, w.cell.runtime.value.revision,
                ticket.generation, redispatchAfter, owner, lease);
  }

  lemma MarkedFlies(k: Setup, w: World, ticket: DispatchClaim, redispatchAfter: nat)
    requires WorldOK(k, w) && MayMark(w.cell, ticket)
    ensures var step := Upkeep(OpMark(ticket, redispatchAfter));
            && Enabled(k, w, step)
            && WorldOK(k, Next(k, w, step))
            && w.cell.runtime.Some? && ticket.window == WindowIdFor(k.id, w.cell.runtime.value.revision)
            && InFlight(k, Next(k, w, step).cell, w.cell.runtime.value.revision, ticket.generation, redispatchAfter)
  {
    UpkeepKeeps(k, w, OpMark(ticket, redispatchAfter));
    StartsInFlight(k, w.now, w.cell, ticket, redispatchAfter);
    hide CellOK, CacheOK, LogOK, OutcomeOK, PollersOK, TokensDistinct, NoticesOK, InFlight;
  }

  lemma FlightHolds(k: Setup, w: World, steps: seq<Step>, n: nat, g: nat, redispatchAfter: nat, owner: string, lease: nat)
    requires WorldOK(k, w) && IsTrace(k, w, steps) && InFlight(k, w.cell, n, g, redispatchAfter)
    requires Reached(k, w, steps).now < redispatchAfter
    requires forall i :: 0 <= i < |steps| ==> LeavesBe(steps[i], g)
    ensures var last := Reached(k, w, steps);
            !ClaimDispatch(last.cell, k.id, last.now, WindowIdFor(k.id, n), owner, lease).1.Dispatching?
  {
    StaysInFlight(k, w, steps, n, g, redispatchAfter);
    TraceKeeps(k, w, steps);
    var last := Reached(k, w, steps);
    assert CellOK(k, last.now, last.cell);
    hide WorldOK, CellOK, InFlight, LeavesBe, Reached, ClaimDispatch;
    FlightBlocks(k, last.now, last.cell, n, g, redispatchAfter, owner, lease);
  }

  lemma StartsInFlight(k: Setup, now: nat, c: Cell, ticket: DispatchClaim, redispatchAfter: nat)
    requires CellOK(k, now, c) && MayMark(c, ticket)
    ensures c.runtime.Some? && ticket.window == WindowIdFor(k.id, c.runtime.value.revision)
    ensures InFlight(k, MarkDispatched(c, ticket, redispatchAfter).0, c.runtime.value.revision, ticket.generation, redispatchAfter)
  {
  }

  lemma FlightBlocks(k: Setup, now: nat, c: Cell, n: nat, g: nat, redispatchAfter: nat, owner: string, lease: nat)
    requires CellOK(k, now, c) && InFlight(k, c, n, g, redispatchAfter) && now < redispatchAfter
    ensures !ClaimDispatch(c, k.id, now, WindowIdFor(k.id, n), owner, lease).1.Dispatching?
  {
    if c.IsActive() {
      OpenHasMarker(k, c);
      if c.marker.value.window == WindowIdFor(k.id, n) {
        WindowIdInjective(k.id, c.runtime.value.revision, n);
      }
    }
    hide Closed;
  }
}
