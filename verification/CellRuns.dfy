/** Any sequence of store operations on one watch: what each keeps and what whole runs guarantee. */
module CellRuns {
  import opened Wrappers
  import opened Watches
  import opened WatchCells

  datatype CellOp =
    | OpCreate(watch: Watch, runtime: Runtime)
    | OpClaim(window: string, owner: string, lease: nat, ignoreSchedule: bool)
    | OpPermit(claim: WindowClaim)
    | OpCommit(claim: WindowClaim, newWatch: Watch, newRuntime: Runtime)
    | OpCancel
    | OpExpire(expected: Option<nat>, force: bool)
    | OpRelease(claim: WindowClaim)
    | OpSynthesize(runtime: Runtime)
    | OpDispatch(window: string, publisher: string, lease: nat)
    | OpMark(ticket: DispatchClaim, redispatchAfter: nat)
    | OpUnlease(ticket: DispatchClaim)

  function Apply(c: Cell, id: string, now: nat, retention: nat, op: CellOp): Cell {
    match op
    case OpCreate(watch, runtime) => Create(c, watch, runtime).0
    case OpClaim(window, owner, lease, ignore) => ClaimWindow(c, now, window, owner, lease, ignore).0
    case OpPermit(claim) => BeginBooking(c, now, claim).0
    case OpCommit(claim, watch, runtime) => CommitWindow(c, now, retention, claim, watch, runtime).0
    case OpCancel => CancelIfActive(c, now, retention).0
    case OpExpire(expected, force) => ExpireIfEligible(c, id, now, retention, expected, force).0
    case OpRelease(claim) => ReleaseClaim(c, claim).0
    case OpSynthesize(runtime) => SynthesizeMarker(c, now, runtime).0
    case OpDispatch(window, publisher, lease) => ClaimDispatch(c, id, now, window, publisher, lease).0
    case OpMark(ticket, after) => MarkDispatched(c, ticket, after).0
    case OpUnlease(ticket) => ReleaseDispatch(c, ticket).0
  }

  /** A new watch is opened active; every other operation takes any arguments at all. */
  predicate Sane(op: CellOp) {
    op.OpCreate? ==> op.watch.status == Active
  }

  lemma CoherentKept(c: Cell, id: string, now: nat, retention: nat, op: CellOp)
    requires Coherent(c, now) && Sane(op)
    ensures Coherent(Apply(c, id, now, retention, op), now)
  {
  }

  lemma CoherentLater(c: Cell, now: nat, later: nat)
    requires Coherent(c, now) && now <= later
    ensures Coherent(c, later)
  {
  }

  /** The snapshot agreement survives every operation by anyone, including the holder's own. */
  lemma GenuineKept(c: Cell, id: string, now: nat, retention: nat, op: CellOp, claim: WindowClaim)
    requires Coherent(c, now) && Genuine(c, claim, now)
    ensures Genuine(Apply(c, id, now, retention, op), claim, now)
  {
  }

  lemma GenuineIssued(c: Cell, now: nat, window: string, owner: string, lease: nat, ignoreSchedule: bool)
    requires Coherent(c, now)
    ensures var (next, result) := ClaimWindow(c, now, window, owner, lease, ignoreSchedule);
            result.Owned? ==> Genuine(next, result.claim, now) && result.claim.token == next.fence > c.fence
  {
  }

  // -- whole runs ----------------------------------------------------------------

  datatype Timed = Timed(now: nat, op: CellOp)

  /** Operations arrive in the order of a clock that never goes back. */
  predicate Ordered(ops: seq<Timed>, start: nat) {
    |ops| > 0 ==> start <= ops[0].now && Ordered(ops[1..], ops[0].now)
  }

  function End(ops: seq<Timed>, start: nat): nat {
    if ops == [] then start else ops[|ops| - 1].now
  }

  function Run(c: Cell, id: string, retention: nat, ops: seq<Timed>): Cell
    decreases |ops|
  {
    if ops == [] then c else Run(Apply(c, id, ops[0].now, retention, ops[0].op), id, retention, ops[1..])
  }

  /** Over any run: coherence holds, tokens and generations never fall, a claim never outlives its snapshot. */
  lemma {:induction false} RunKeeps(c: Cell, id: string, retention: nat, ops: seq<Timed>, start: nat, claim: WindowClaim)
    requires Coherent(c, start) && Genuine(c, claim, start) && Ordered(ops, start)
    requires forall i :: 0 <= i < |ops| ==> Sane(ops[i].op)
    ensures var last := Run(c, id, retention, ops);
            && Coherent(last, End(ops, start)) && Genuine(last, claim, End(ops, start))
            && c.fence <= last.fence && c.dispatchFence <= last.dispatchFence
    decreases |ops|
  {
    if ops != [] {
      var now, op := ops[0].now, ops[0].op;
      CoherentKept(c, id, now, retention, op);
      GenuineKept(c, id, now, retention, op, claim);
      RunKeeps(Apply(c, id, now, retention, op), id, retention, ops[1..], now, claim);
    }
  }

  /** A finished watch never changes again, whoever still holds a claim or a snapshot of it. */
  lemma {:induction false} TerminalAbsorbs(c: Cell, id: string, retention: nat, ops: seq<Timed>)
    requires c.IsFinished()
    ensures Run(c, id, retention, ops).watch == c.watch
    decreases |ops|
  {
    if ops != [] {
      TerminalAbsorbs(Apply(c, id, ops[0].now, retention, ops[0].op), id, retention, ops[1..]);
    }
  }

  /** A window is granted exactly when it is current, due and free: due work is never refused. */
  lemma OwnedIff(c: Cell, now: nat, window: string, owner: string, lease: nat, ignoreSchedule: bool)
    requires Coherent(c, now)
    ensures ClaimWindow(c, now, window, owner, lease, ignoreSchedule).1.Owned? <==>
            && c.IsActive()
            && c.runtime.value.window == Some(window)
            && (ignoreSchedule || c.marker.None? || c.marker.value.scheduledFor <= now)
            && !c.HasLiveClaim(now)
  {
  }
}
