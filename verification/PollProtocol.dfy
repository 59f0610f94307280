/** One watch under any number of pollers, cancellations, sweeps, crashes and clock ticks, against
    one store and one provider shared with other watches (backend/services/watch_service.py:268-560,
    683-747). Every step is one atomic store or provider call; a poller between two calls is a
    program counter. A booking call is made, and takes effect, inside the lease of the claim that
    makes it; it may take effect after its poller has stopped waiting for it. */
module PollProtocol {
  import opened Wrappers
  import opened Watches
  import opened WatchCells
  import opened CellRuns
  import opened MockCache
  import opened PollTiming
  import opened PollPlans

  const POLL_LEASE: nat := 120_000_000
  const RECONCILE_ATTEMPTS: nat := 3

  /** What is fixed for a run: the watch as requested and the service's settings. */
  datatype Setup = Setup(id: string, autoBook: bool, createdAt: nat, expiresAt: nat, ceiling: nat,
                         retention: nat, pacing: Pacing, limits: Limits)
  {
    predicate Valid() {
      pacing.Valid() && ceiling > 0 && createdAt < expiresAt
    }

    function Policy(): Policy {
      Derive(pacing, createdAt, expiresAt, ceiling)
    }

    function Terms(): Terms {
      PollPlans.Terms(id, autoBook, createdAt, expiresAt, Policy().effectiveAttempts)
    }

    function Key(): string {
      "watch:" + id
    }

    function FirstWatch(): Watch {
      Watch(id, Active, autoBook, createdAt, createdAt, expiresAt, 0, Policy().effectiveAttempts,
            None, Some(createdAt), [], None, None)
    }

    function FirstRuntime(): Runtime {
      InitialRuntime(FirstWatch(), Policy().requiredAttempts, Policy().supportsDeadline)
    }
  }

  /** Where a poller stands between two calls of the provider sequence. */
  datatype Pc =
    | Fresh                      // claimed, nothing read yet
    | Asking                     // clock read, lifetime left
    | Cleared                    // the provider knew no booking under the key
    | Holding(slots: seq<Slot>)  // slots published, permit not asked
    | Placing(slots: seq<Slot>)  // permit granted, these slots not tried yet
    | Unsure(asked: nat, error: string)  // a booking call failed without an answer
    | Ruled(otherwise: Plan)     // definitely no reservation; cancellation not read yet
    | Decided(plan: Plan)        // ready for the one commit

  datatype Poller =
    | Working(claim: WindowClaim, at: nat, pc: Pc)
    | Announcing(status: Status)

  datatype Route = ByPoll | ByCancel | BySweep

  /** One committed window. */
  datatype Commitment = Commitment(window: string, revision: nat, token: nat)

  /** A booking call its poller no longer waits for; it can take effect until the lease it was made
      under ends. */
  datatype Call = Call(slotId: string, token: nat, until: nat)

  datatype World = World(
    now: nat,
    cell: Cell,
    cache: Cache,
    late: bool,                  // some call has taken effect after its poller stopped waiting
    calls: set<Call>,
    pollers: map<nat, Poller>,
    route: Option<Route>,
    commits: seq<Commitment>,
    notices: seq<Status>)

  /** What becomes of a booking call that gets no answer: it has taken effect, never will, or still may. */
  datatype Fate = Landed | Lost | Pending

  datatype Reply = Answered | Errored(fate: Fate, error: string) | TimedOut(fate: Fate, error: string)

  datatype Step =
    | Tick(to: nat)
    | Deliver(p: nat, window: string, owner: string, ignoreSchedule: bool)
    | Check(p: nat)
    | Recall(p: nat)
    | Look(p: nat, candidates: seq<Slot>, operation: string, victims: seq<string>)
    | Fail(p: nat, error: string)
    | AskPermit(p: nat)
    | Place(p: nat, reply: Reply)
    | Land(call: Call)
    | Reconcile(p: nat, answered: bool)
    | Weigh(p: nat)
    | Commit(p: nat, offset: int)
    | GiveUp(p: nat)
    | Crash(p: nat)
    | Announce(p: nat)
    | Cancel
    | SweepExpire(p: nat)
    | Upkeep(op: CellOp)
    | Others(use: CacheOp)

  predicate At(w: World, p: nat) {
    p in w.pollers && w.pollers[p].Working?
  }

  function PcOf(w: World, p: nat): Pc
    requires At(w, p)
  {
    w.pollers[p].pc
  }

  /** Dispatch leases and marker repair: store operations that are not a poll's own. */
  predicate IsUpkeep(op: CellOp) {
    op.OpDispatch? || op.OpMark? || op.OpUnlease? || op.OpSynthesize?
  }

  function Use(operation: string, candidates: seq<Slot>, victims: seq<string>): CacheOp {
    CacheOp.Look(candidates, operation, victims)
  }

  predicate Enabled(k: Setup, w: World, step: Step) {
    match step
    case Tick(to) => w.now <= to
    case Deliver(p, _, _, _) => p !in w.pollers
    case Check(p) => At(w, p) && PcOf(w, p).Fresh?
    case Recall(p) => At(w, p) && PcOf(w, p).Asking? && k.autoBook
    case Look(p, candidates, operation, victims) =>
      && At(w, p) && (PcOf(w, p).Cleared? || (PcOf(w, p).Asking? && !k.autoBook))
      && Fair(w.cache, w.now, Use(operation, candidates, victims), k.limits)
    case Fail(p, _) => At(w, p) && !PcOf(w, p).Fresh? && !PcOf(w, p).Decided?
    case AskPermit(p) => At(w, p) && PcOf(w, p).Holding?
    case Place(p, _) =>
      && At(w, p) && PcOf(w, p).Placing? && PcOf(w, p).slots != []
      && w.now < w.pollers[p].claim.leaseExpiresAt
    case Land(call) => call in w.calls && w.now < call.until
    case Reconcile(p, _) => At(w, p) && PcOf(w, p).Unsure? && PcOf(w, p).asked < RECONCILE_ATTEMPTS
    case Weigh(p) => At(w, p) && PcOf(w, p).Ruled?
    case Commit(p, offset) =>
      && At(w, p) && PcOf(w, p).Decided? && !PcOf(w, p).plan.Yield?
      && k.pacing.Valid() && k.pacing.Draws(offset)
    case GiveUp(p) => At(w, p) && PcOf(w, p) == Decided(Yield)
    case Crash(p) => p in w.pollers
    case Announce(p) => p in w.pollers && w.pollers[p].Announcing?
    case Cancel => true
    case SweepExpire(p) => p !in w.pollers
    case Upkeep(op) => IsUpkeep(op)
    case Others(op) => (op.Take? ==> op.key != k.Key()) && Fair(w.cache, w.now, op, k.limits)
  }

  // -- the steps ----------------------------------------------------------------------

  function Move(w: World, p: nat, pc: Pc): World
    requires At(w, p)
  {
    w.(pollers := w.pollers[p := w.pollers[p].(pc := pc)])
  }

  function Leave(w: World, p: nat): World {
    w.(pollers := w.pollers - {p})
  }

  function DoDeliver(w: World, p: nat, window: string, owner: string, ignoreSchedule: bool): World {
    var (cell, result) := ClaimWindow(w.cell, w.now, window, owner, POLL_LEASE, ignoreSchedule);
    if result.Owned? then w.(cell := cell, pollers := w.pollers[p := Working(result.claim, w.now, Fresh)])
    else w
  }

  function DoCheck(w: World, p: nat): World
    requires At(w, p)
  {
    var poller := w.pollers[p];
    w.(pollers := w.pollers[p := Working(poller.claim, w.now,
      if poller.claim.watch.IsExhausted(w.now) then Decided(Lapse) else Asking)])
  }

  function DoRecall(k: Setup, w: World, p: nat): World
    requires At(w, p)
  {
    match GetBooking(w.cache, k.Key(), w.now)
    case Some(confirmation) => Move(w, p, Decided(Reserve(confirmation, false)))
    case None => Move(w, p, Cleared)
  }

  function DoLook(k: Setup, w: World, p: nat, candidates: seq<Slot>, operation: string, victims: seq<string>): World
    requires At(w, p) && |victims| == |candidates|
  {
    var (cache, found) :=
      if candidates == [] then (w.cache, [])
      else Publish(w.cache, candidates, operation, w.now, k.limits.capacity, k.limits.pinTtl, victims);
    Move(w.(cache := cache), p,
         if found == [] then Decided(Miss) else if k.autoBook then Holding(found) else Decided(Offer(found)))
  }

  function AfterPermit(slots: seq<Slot>, permit: Permit): Pc {
    match permit
    case Granted => Placing(slots)
    case Withdrawn => Decided(Withdraw)
    case Fenced => Decided(Yield)
  }

  function DoAskPermit(w: World, p: nat): World
    requires At(w, p) && PcOf(w, p).Holding?
  {
    var (cell, permit) := BeginBooking(w.cell, w.now, w.pollers[p].claim);
    Move(w.(cell := cell), p, AfterPermit(PcOf(w, p).slots, permit))
  }

  predicate StillPending(reply: Reply) {
    !reply.Answered? && reply.fate.Pending?
  }

  predicate HasLanded(reply: Reply) {
    reply.Answered? || reply.fate.Landed?
  }

  /** Where one booking call for the first of `slots` leaves its poller. */
  function AfterPlace(slots: seq<Slot>, reply: Reply, result: BookResult): Pc
    requires slots != []
  {
    match reply
    case Answered =>
      if result.Reservation? then Decided(Reserve(result.confirmation, true))
      else if slots[1..] == [] then Ruled(Miss)
      else Placing(slots[1..])
    case Errored(_, error) => Unsure(0, error)
    case TimedOut(_, error) => Decided(Outage(error))
  }

  function DoPlace(k: Setup, w: World, p: nat, reply: Reply): World
    requires At(w, p) && PcOf(w, p).Placing? && PcOf(w, p).slots != []
  {
    var slots := PcOf(w, p).slots;
    var (cache, result) := BookSlot(w.cache, slots[0].slotId, k.Key(), w.now, k.limits.retention);
    var claim := w.pollers[p].claim;
    var placed :=
      if HasLanded(reply) then w.(cache := cache)
      else if StillPending(reply) then w.(calls := w.calls + {Call(slots[0].slotId, claim.token, claim.leaseExpiresAt)})
      else w;
    Move(placed, p, AfterPlace(slots, reply, result))
  }

  function DoLand(k: Setup, w: World, call: Call): World {
    w.(cache := BookSlot(w.cache, call.slotId, k.Key(), w.now, k.limits.retention).0, late := true,
       calls := w.calls - {call})
  }

  /** An answered reconciliation is authoritative; an unanswered one may follow any booking state. */
  function DoReconcile(k: Setup, w: World, p: nat, answered: bool): World
    requires At(w, p) && PcOf(w, p).Unsure?
  {
    var asked, error := PcOf(w, p).asked + 1, PcOf(w, p).error;
    if answered then
      match GetBooking(w.cache, k.Key(), w.now)
      case Some(confirmation) => Move(w, p, Decided(Reserve(confirmation, true)))
      case None => Move(w, p, Ruled(Outage(error)))
    else if asked < RECONCILE_ATTEMPTS then Move(w, p, Unsure(asked, error))
    else Move(w, p, Decided(Outage(error)))
  }

  function DoWeigh(w: World, p: nat): World
    requires At(w, p) && PcOf(w, p).Ruled?
  {
    var requested := w.cell.runtime.Some? && w.cell.runtime.value.cancelRequested;
    Move(w, p, Decided(if requested then Withdraw else PcOf(w, p).otherwise))
  }

  function DoCommit(k: Setup, w: World, p: nat, offset: int): World
    requires At(w, p) && PcOf(w, p).Decided? && k.pacing.Valid() && k.pacing.Draws(offset)
  {
    var claim := w.pollers[p].claim;
    var (watch, runtime) := Decide(k.pacing, claim, w.pollers[p].at, PcOf(w, p).plan, offset);
    var (cell, result) := CommitWindow(w.cell, w.now, k.retention, claim, watch, runtime);
    if result.status != Committed then Leave(w, p)
    else
      var entry := Commitment(claim.window, claim.runtime.revision + 1, claim.token);
      var done := w.(cell := cell, commits := w.commits + [entry],
                     route := if watch.status.IsTerminal() then Some(ByPoll) else w.route);
      if result.event.Some? then done.(pollers := w.pollers[p := Announcing(watch.status)])
      else Leave(done, p)
  }

  function DoCancel(k: Setup, w: World): World {
    var (cell, result) := CancelIfActive(w.cell, w.now, k.retention);
    w.(cell := cell, route := if result.status == Applied then Some(ByCancel) else w.route)
  }

  function DoSweep(k: Setup, w: World, p: nat): World {
    var (cell, result) := ExpireIfEligible(w.cell, k.id, w.now, k.retention, None, false);
    if result.status != Applied then w
    else
      var done := w.(cell := cell, route := Some(BySweep));
      if result.event.Some? then done.(pollers := w.pollers[p := Announcing(Expired)]) else done
  }

  function Next(k: Setup, w: World, step: Step): World
    requires Enabled(k, w, step)
  {
    match step
    case Tick(to) => w.(now := to)
    case Deliver(p, window, owner, ignoreSchedule) => DoDeliver(w, p, window, owner, ignoreSchedule)
    case Check(p) => DoCheck(w, p)
    case Recall(p) => DoRecall(k, w, p)
    case Look(p, candidates, operation, victims) => DoLook(k, w, p, candidates, operation, victims)
    case Fail(p, error) => Move(w, p, Decided(Outage(error)))
    case AskPermit(p) => DoAskPermit(w, p)
    case Place(p, reply) => DoPlace(k, w, p, reply)
    case Land(call) => DoLand(k, w, call)
    case Reconcile(p, answered) => DoReconcile(k, w, p, answered)
    case Weigh(p) => DoWeigh(w, p)
    case Commit(p, offset) => DoCommit(k, w, p, offset)
    case GiveUp(p) => Leave(w.(cell := ReleaseClaim(w.cell, w.pollers[p].claim).0), p)
    case Crash(p) => Leave(w, p)
    case Announce(p) => Leave(w.(notices := w.notices + [w.pollers[p].status]), p)
    case Cancel => DoCancel(k, w)
    case SweepExpire(p) => DoSweep(k, w, p)
    case Upkeep(op) => w.(cell := Apply(w.cell, k.id, w.now, k.retention, op))
    case Others(op) => w.(cache := Do(w.cache, w.now, op, k.limits))
  }

  /** Just after creation: the document, its sidecar and its first marker, over any sound provider
      state. The watch's id is new, so the provider has no record under its key. */
  predicate IsStart(k: Setup, w: World) {
    && w.now == k.createdAt
    && w.cell == Create(VACANT, k.FirstWatch(), k.FirstRuntime()).0
    && w.calls == {} && !w.late && k.Key() !in w.cache.bookings
    && w.pollers == map[] && w.route.None? && w.commits == [] && w.notices == []
  }

  predicate IsTrace(k: Setup, w: World, steps: seq<Step>)
    decreases |steps|
  {
    steps != [] ==> Enabled(k, w, steps[0]) && IsTrace(k, Next(k, w, steps[0]), steps[1..])
  }

  function Reached(k: Setup, w: World, steps: seq<Step>): World
    requires IsTrace(k, w, steps)
    decreases |steps|
  {
    if steps == [] then w else Reached(k, Next(k, w, steps[0]), steps[1..])
  }
}
