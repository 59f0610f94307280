/** The attempt budget meets the calendar: how long a watch is polled and why it expires
    (backend/services/watch_policy.py:83-91, backend/services/watch_service.py:408-415, 560-681). */
module PollDeadline {
  import opened Wrappers
  import opened Watches
  import opened WatchCells
  import opened CellRuns
  import opened MockCache
  import opened PollTiming
  import opened PollPlans
  import opened PollProtocol
  import opened PollSafety
  import opened PollGuarantees

  /** Deliveries claim windows only once they are due, and the interval is at least the floor. */
  predicate Punctual(k: Setup, steps: seq<Step>) {
    && k.pacing.interval >= MIN_DELAY
    && forall i :: 0 <= i < |steps| && steps[i].Deliver? ==> !steps[i].ignoreSchedule
  }

  /** 1 + Intervals(k) is the budget a watch needs to reach its deadline. */
  function Intervals(k: Setup): nat {
    CeilDiv(Remaining(k.createdAt, k.expiresAt), k.pacing.EarliestDelay())
  }

  /** The r-th window is never due before r earliest delays have passed, unless at the deadline. */
  predicate Spaced(k: Setup, runtime: Runtime) {
    && runtime.scheduledFor.Some?
    && (runtime.scheduledFor.value >= k.expiresAt
        || runtime.scheduledFor.value >= k.createdAt + runtime.revision * k.pacing.EarliestDelay())
  }

  predicate PollerPaced(k: Setup, poller: Poller) {
    poller.Working? ==>
      && Spaced(k, poller.claim.runtime) && poller.at >= poller.claim.runtime.scheduledFor.value
      && poller.claim.runtime.revision <= Intervals(k)
      && (poller.pc == Decided(Lapse) ==> poller.claim.watch.IsExhausted(poller.at))
  }

  predicate CellPaced(k: Setup, c: Cell) {
    && c.watch.Some? && c.runtime.Some?
    && (c.IsActive() ==> Spaced(k, c.runtime.value) && c.runtime.value.revision <= Intervals(k))
    && (c.IsFinished() ==> c.runtime.value.revision <= Intervals(k) + 1)
    && (c.watch.value.status == Expired && k.Policy().supportsDeadline ==>
          c.watch.value.updatedAt + MIN_DELAY > k.expiresAt)
  }

  ghost predicate Paced(k: Setup, w: World) {
    && CellPaced(k, w.cell)
    && forall p :: p in w.pollers ==> PollerPaced(k, w.pollers[p])
  }

  /** Lifetime left when a poll reads the clock means fewer windows behind it than intervals in it. */
  lemma WindowsBehind(k: Setup, runtime: Runtime, at: nat)
    requires k.Valid() && Spaced(k, runtime) && runtime.scheduledFor.value <= at < k.expiresAt
    ensures runtime.revision < Intervals(k)
    ensures at >= k.createdAt + runtime.revision * k.pacing.EarliestDelay()
  {
    CeilDivIsLeast(Remaining(k.createdAt, k.expiresAt), k.pacing.EarliestDelay(), runtime.revision);
  }

  lemma OneMore(k: Setup, r: nat)
    ensures (r + 1) * k.pacing.EarliestDelay() == r * k.pacing.EarliestDelay() + k.pacing.EarliestDelay()
  {
  }

  /** A commit on time leaves the successor spaced, and expires a watch only near its deadline. */
  lemma CommitIsPaced(k: Setup, claim: WindowClaim, at: nat, plan: Plan, offset: int)
    requires k.Valid() && k.pacing.Draws(offset) && k.pacing.interval >= MIN_DELAY && Sensible(plan)
    requires Open(k.Terms(), claim.watch, claim.runtime)
    requires Spaced(k, claim.runtime) && at >= claim.runtime.scheduledFor.value
    requires claim.runtime.revision <= Intervals(k)
    requires plan.Lapse? ==> claim.watch.IsExhausted(at)
    requires !plan.Lapse? ==> !claim.watch.IsExhausted(at)
    ensures var (watch, runtime) := Decide(k.pacing, claim, at, plan, offset);
            var stored := runtime.(revision := claim.runtime.revision + 1, phase := None);
            && (watch.status == Active ==> Spaced(k, stored) && stored.revision <= Intervals(k))
            && (watch.status == Expired && k.Policy().supportsDeadline ==> watch.updatedAt + MIN_DELAY > k.expiresAt)
  {
    SuccessorIsSpaced(k.Terms(), k.pacing, claim, at, plan, offset);
    DecisionStatus(k.pacing, claim, at, plan, offset);
    DecisionIsValid(k.Terms(), k.pacing, claim, at, plan, offset);
    DecisionStamp(k.pacing, claim, at, plan, offset);
    OneMore(k, claim.runtime.revision);
    if at < k.expiresAt {
      WindowsBehind(k, claim.runtime, at);
    }
    hide Decide, Derive, CeilDiv;
    assert k.Policy().supportsDeadline ==> claim.watch.maxAttempts == Intervals(k) + 1 by {
      BudgetCoversIntervals(k);
    }
  }

  lemma BudgetCoversIntervals(k: Setup)
    ensures k.Policy().requiredAttempts == Intervals(k) + 1
    ensures k.Policy().supportsDeadline <==> k.Terms().maxAttempts == Intervals(k) + 1
  {
  }

  lemma DecisionStamp(p: Pacing, claim: WindowClaim, now: nat, plan: Plan, offset: int)
    requires p.Valid() && p.Draws(offset) && claim.watch.status == Active && !plan.Yield?
    ensures var watch := Decide(p, claim, now, plan, offset).0;
            watch.status == Expired ==> watch.updatedAt == now
  {
  }

  // -- every step -----------------------------------------------------------------------------

  lemma CellPacedUnder(k: Setup, now: nat, c: Cell, op: CellOp)
    requires CellOK(k, now, c) && CellPaced(k, c) && !op.OpCreate? && !op.OpCommit?
    requires op.OpExpire? ==> op.expected.None? && !op.force
    ensures CellPaced(k, Apply(c, k.id, now, k.retention, op))
  {
    BudgetCoversIntervals(k);
    if c.IsActive() {
      OpenHasMarker(k, c);
    }
    hide Derive, CeilDiv, Intervals;
  }

  /** Apart from a delivery and the reading of the clock, a poller keeps its claim and its instant. */
  predicate Continues(a: Poller, b: Poller) {
    && a.Working? && b.Working? && b.claim == a.claim && b.at == a.at
    && (b.pc == Decided(Lapse) ==> a.pc == b.pc)
  }

  lemma PollerContinues(k: Setup, w: World, step: Step, q: nat)
    requires Enabled(k, w, step) && !step.Check? && !step.Deliver?
    requires step.Weigh? ==> PcOf(w, step.p).otherwise != Lapse
    requires q in Next(k, w, step).pollers && Next(k, w, step).pollers[q].Working?
    ensures q in w.pollers && Continues(w.pollers[q], Next(k, w, step).pollers[q])
  {
    hide Fair, Publish, BookSlot, GetBooking, Do, Decide, BeginBooking, CommitWindow, ReleaseClaim, ExpireIfEligible, Apply,
      CancelIfActive;
  }

  lemma PollerDelivered(k: Setup, w: World, p: nat, window: string, owner: string)
    requires CellOK(k, w.now, w.cell) && CellPaced(k, w.cell)
    ensures var v := DoDeliver(w, p, window, owner, false);
            v.pollers == w.pollers || (v.pollers == w.pollers[p := v.pollers[p]] && PollerPaced(k, v.pollers[p]))
  {
    hide Closed, Intervals, Coherent;
  }

  lemma PollerChecked(k: Setup, w: World, p: nat)
    requires WorldOK(k, w) && At(w, p) && PollerPaced(k, w.pollers[p])
    ensures PollerPaced(k, DoCheck(w, p).pollers[p])
  {
    assert PollerOK(k, w.now, w.cell, w.cache, w.late, w.route, w.pollers[p]);
    hide WorldOK, Open, Genuine, Leased, Knows, Spaced;
  }

  lemma PollersContinue(k: Setup, w: World, step: Step)
    requires Paced(k, w) && Enabled(k, w, step) && !step.Check? && !step.Deliver?
    requires step.Weigh? ==> PcOf(w, step.p).otherwise != Lapse
    ensures forall q :: q in Next(k, w, step).pollers ==> PollerPaced(k, Next(k, w, step).pollers[q])
  {
    var v := Next(k, w, step);
    forall q | q in v.pollers
      ensures PollerPaced(k, v.pollers[q])
    {
      hide Enabled, Next, Spaced, CellPaced;
      if v.pollers[q].Working? {
        PollerContinues(k, w, step, q);
      }
    }
  }

  lemma PollersPacedUnder(k: Setup, w: World, step: Step)
    requires WorldOK(k, w) && Paced(k, w) && Enabled(k, w, step)
    requires step.Deliver? ==> !step.ignoreSchedule
    ensures forall q :: q in Next(k, w, step).pollers ==> PollerPaced(k, Next(k, w, step).pollers[q])
  {
    if step.Deliver? {
      PollerDelivered(k, w, step.p, step.window, step.owner);
      hide WorldOK, PollerPaced, CellPaced, DoDeliver;
    } else if step.Check? {
      PollerChecked(k, w, step.p);
      hide WorldOK, PollerPaced, CellPaced;
    } else {
      if step.Weigh? {
        Knowing(k, w, step.p);
      }
      hide WorldOK, Next, Paced, Owns;
      PollersContinue(k, w, step);
    }
  }

  lemma CommitPaced(k: Setup, w: World, p: nat, offset: int)
    requires WorldOK(k, w) && Paced(k, w) && k.pacing.interval >= MIN_DELAY
    requires At(w, p) && PcOf(w, p).Decided? && !PcOf(w, p).plan.Yield? && k.pacing.Draws(offset)
    ensures CellPaced(k, DoCommit(k, w, p, offset).cell)
  {
    var x := w.pollers[p];
    CommitEffect(k, w, p, offset);
    assert PollerPaced(k, x) && PollerOK(k, w.now, w.cell, w.cache, w.late, w.route, x);
    assert CellOK(k, w.now, w.cell) && CellPaced(k, w.cell);
    hide WorldOK, Paced, DoCommit;
    ProposalPaced(k, w.now, w.cell, w.cache, w.late, w.route, x, offset);
    hide CellOK, CellPaced, PollerOK, PollerPaced, ProposesPaced, Owns, CommitOp, Apply;
    if Owns(w.cell, x.claim, w.now) {
      CommittedCellPaced(k, w.now, w.cell, CommitOp(k, x, offset));
    }
  }

  predicate ProposesPaced(k: Setup, op: CellOp) {
    op.OpCommit? ==>
      var stored := op.newRuntime.(revision := op.claim.runtime.revision + 1, phase := None);
      && (op.newWatch.status == Active ==> Spaced(k, stored) && stored.revision <= Intervals(k))
      && (op.newWatch.status == Expired && k.Policy().supportsDeadline ==> op.newWatch.updatedAt + MIN_DELAY > k.expiresAt)
  }

  lemma ProposalPaced(k: Setup, now: nat, c: Cell, cache: Cache, late: bool, route: Option<Route>, x: Poller, offset: int)
    requires k.Valid() && k.pacing.Draws(offset) && k.pacing.interval >= MIN_DELAY
    requires PollerOK(k, now, c, cache, late, route, x) && PollerPaced(k, x)
    requires x.Working? && x.pc.Decided? && !x.pc.plan.Yield?
    ensures ProposesPaced(k, CommitOp(k, x, offset))
    ensures CommitOp(k, x, offset).OpCommit? && CommitOp(k, x, offset).claim == x.claim
  {
    CommitIsPaced(k, x.claim, x.at, x.pc.plan, offset);
    hide Open, Genuine, Leased, Spaced, Intervals, Decide, Derive;
  }

  lemma CommittedCellPaced(k: Setup, now: nat, c: Cell, op: CellOp)
    requires CellOK(k, now, c) && CellPaced(k, c) && op.OpCommit? && Owns(c, op.claim, now) && ProposesPaced(k, op)
    ensures CellPaced(k, Apply(c, k.id, now, k.retention, op))
  {
    hide Open, Closed, Intervals, Derive;
  }

  /** The store operation a step performs, if it performs one on its own. */
  function StoreOp(k: Setup, w: World, step: Step): Option<CellOp>
    requires Enabled(k, w, step)
  {
    match step
    case Deliver(_, window, owner, ignoreSchedule) => Some(OpClaim(window, owner, POLL_LEASE, ignoreSchedule))
    case AskPermit(p) => Some(OpPermit(w.pollers[p].claim))
    case GiveUp(p) => Some(OpRelease(w.pollers[p].claim))
    case Cancel => Some(OpCancel)
    case SweepExpire(_) => Some(OpExpire(None, false))
    case Upkeep(op) => Some(op)
    case _ => None
  }

  lemma StoreMoves(k: Setup, w: World, step: Step)
    requires Enabled(k, w, step) && !step.Commit?
    ensures var op := StoreOp(k, w, step);
            Next(k, w, step).cell == if op.Some? then Apply(w.cell, k.id, w.now, k.retention, op.value) else w.cell
  {
    hide BookSlot, Fair, Do, Publish, GetBooking, BeginBooking, ReleaseClaim, CancelIfActive;
  }

  lemma CellPacedStep(k: Setup, w: World, step: Step)
    requires WorldOK(k, w) && Paced(k, w) && Enabled(k, w, step) && k.pacing.interval >= MIN_DELAY
    ensures CellPaced(k, Next(k, w, step).cell)
  {
    if step.Commit? {
      CommitPaced(k, w, step.p, step.offset);
      hide WorldOK, CellPaced, DoCommit;
    } else {
      StoreMoves(k, w, step);
      var op := StoreOp(k, w, step);
      if op.Some? {
        hide CellPaced, Apply, Next;
        CellPacedUnder(k, w.now, w.cell, op.value);
      }
    }
  }

  lemma {:induction false} TracePaced(k: Setup, w: World, steps: seq<Step>)
    requires WorldOK(k, w) && Paced(k, w) && IsTrace(k, w, steps) && Punctual(k, steps)
    ensures Paced(k, Reached(k, w, steps))
    decreases |steps|
  {
    if steps != [] {
      StepKeeps(k, w, steps[0]);
      CellPacedStep(k, w, steps[0]);
      PollersPacedUnder(k, w, steps[0]);
      assert Punctual(k, steps[1..]);
      hide WorldOK, Enabled, Next, CellPaced, PollerPaced, Punctual;
      TracePaced(k, Next(k, w, steps[0]), steps[1..]);
    }
  }

  lemma StartPaced(k: Setup, w: World)
    requires k.Valid() && IsStart(k, w)
    ensures Paced(k, w)
  {
  }

  lemma Paces(k: Setup, start: World, steps: seq<Step>)
    requires History(k, start, steps) && Punctual(k, steps)
    ensures WorldOK(k, Reached(k, start, steps)) && Paced(k, Reached(k, start, steps))
  {
    StartPaced(k, start);
    StartKeeps(k, start);
    TraceKeeps(k, start, steps);
    TracePaced(k, start, steps);
  }

  // -- what the budget promises -----------------------------------------------------------------

  /** A watch whose budget supports its deadline expires only within the floor of that deadline, by
      whatever route; and a miss committed at `at` expires it exactly when less than the floor is
      left at `at`, never because attempts ran out. */
  lemma DeadlineKept(k: Setup, start: World, steps: seq<Step>, p: nat, offset: int)
    requires History(k, start, steps) && Punctual(k, steps) && k.Policy().supportsDeadline && k.pacing.Draws(offset)
    ensures var w := Reached(k, start, steps);
            && (w.cell.watch.Some? && w.cell.watch.value.status == Expired ==>
                  w.cell.watch.value.updatedAt + MIN_DELAY > k.expiresAt)
            && (At(w, p) && PcOf(w, p) == Decided(Miss) ==>
                  var x := w.pollers[p];
                  Decide(k.pacing, x.claim, x.at, Miss, offset).0.status == Expired <==> k.expiresAt - x.at < MIN_DELAY)
  {
    var w := Reached(k, start, steps);
    Paces(k, start, steps);
    hide Reached, History;
    if At(w, p) && PcOf(w, p) == Decided(Miss) {
      var x := w.pollers[p];
      assert PollerPaced(k, x) && PollerOK(k, w.now, w.cell, w.cache, w.late, w.route, x);
      MissOnBudget(k, x.claim, x.at, offset);
    }
    hide CellOK, CacheOK, OutcomeOK, LogOK, PollersOK, TokensDistinct, NoticesOK, Decide;
  }

  lemma MissOnBudget(k: Setup, claim: WindowClaim, at: nat, offset: int)
    requires k.Valid() && k.Policy().supportsDeadline && k.pacing.Draws(offset)
    requires Open(k.Terms(), claim.watch, claim.runtime) && !claim.watch.IsExhausted(at)
    requires Spaced(k, claim.runtime) && at >= claim.runtime.scheduledFor.value
    ensures Decide(k.pacing, claim, at, Miss, offset).0.status == Expired <==> k.expiresAt - at < MIN_DELAY
  {
    WindowsBehind(k, claim.runtime, at);
    BudgetCoversIntervals(k);
    DecisionStatus(k.pacing, claim, at, Miss, offset);
    hide Decide, Derive, CeilDiv, Intervals;
  }

  /** No punctual history holds more commits, outages included, than the required budget. */
  lemma CommitsBounded(k: Setup, start: World, steps: seq<Step>)
    requires History(k, start, steps) && Punctual(k, steps)
    ensures |Reached(k, start, steps).commits| <= k.Policy().requiredAttempts
    ensures var c := Reached(k, start, steps).cell;
            c.IsActive() && c.runtime.Some? ==> c.runtime.value.revision < k.Policy().requiredAttempts
  {
    var w := Reached(k, start, steps);
    Paces(k, start, steps);
    BudgetCoversIntervals(k);
    hide Reached, History, CellOK, CacheOK, OutcomeOK, PollersOK, TokensDistinct, NoticesOK, Derive, Intervals;
  }
}
