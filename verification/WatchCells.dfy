/** Everything one watch owns in the store, and the atomic decisions the in-memory
    repository takes on it (backend/db/repositories/watches.py:353-757). Both stores
    are proved against these functions. */
module WatchCells {
  import opened Wrappers
  import opened Watches

  datatype Lease = Lease(window: string, owner: string, token: nat, expiresAt: nat)
  datatype DispatchLease = DispatchLease(window: string, owner: string, generation: nat, expiresAt: nat)
  datatype Marker = Marker(window: string, scheduledFor: nat)

  datatype Cell = Cell(
    watch: Option<Watch>,
    runtime: Option<Runtime>,
    fence: nat,
    claim: Option<Lease>,
    dispatchFence: nat,
    dispatch: Option<DispatchLease>,
    marker: Option<Marker>,
    deleteAt: Option<nat>)
  {
    predicate IsActive() {
      watch.Some? && watch.value.status == Active
    }

    predicate IsFinished() {
      watch.Some? && watch.value.status.IsTerminal()
    }

    predicate HasLiveClaim(now: nat) {
      claim.Some? && claim.value.expiresAt > now
    }
  }

  const VACANT := Cell(None, None, 0, None, 0, None, None, None)

  /** Proof of ownership of one window for one lease: what the holder saw when it claimed. */
  datatype WindowClaim = WindowClaim(
    watch: Watch, runtime: Runtime, owner: string, window: string, token: nat, leaseExpiresAt: nat)

  datatype CreateResult = Created(watch: Watch, runtime: Runtime)
                        | AlreadyExists(watch: Watch, stored: Option<Runtime>)
  datatype ClaimResult = Owned(claim: WindowClaim) | Busy | Early | Stale | Finished | Unknown
  datatype Permit = Granted | Withdrawn | Fenced
  datatype CommitStatus = Committed | CommitFenced | CommitFinished | CommitUnknown
  datatype CommitResult = CommitResult(status: CommitStatus, watch: Option<Watch>, event: Option<EventId>)
  datatype TransitionStatus = Applied | Noop | NotEligible | Outrun | Missing
  datatype Transition = Transition(status: TransitionStatus, watch: Option<Watch>, event: Option<EventId>, revision: int)

  function MarkerFor(runtime: Runtime): Option<Marker> {
    if runtime.window.Some? && runtime.scheduledFor.Some?
    then Some(Marker(runtime.window.value, runtime.scheduledFor.value))
    else None
  }

  predicate Owns(c: Cell, claim: WindowClaim, now: nat) {
    && c.runtime.Some? && c.runtime.value.revision == claim.runtime.revision
    && c.claim.Some?
    && c.claim.value.token == claim.token
    && c.claim.value.owner == claim.owner
    && c.claim.value.expiresAt > now
  }

  function Create(c: Cell, watch: Watch, runtime: Runtime): (Cell, CreateResult) {
    if c.watch.Some? then (c, AlreadyExists(c.watch.value, c.runtime))
    else (c.(watch := Some(watch), runtime := Some(runtime), fence := 0, marker := MarkerFor(runtime)),
          Created(watch, runtime))
  }

  function ClaimWindow(c: Cell, now: nat, window: string, owner: string, lease: nat, ignoreSchedule: bool)
    : (Cell, ClaimResult)
  {
    if c.watch.None? || c.runtime.None? then (c, Unknown)
    else if c.IsFinished() then (c, Finished)
    else if c.runtime.value.window != Some(window) then (c, Stale)
    else if !ignoreSchedule && c.runtime.value.scheduledFor.Some? && c.runtime.value.scheduledFor.value > now then
      (c, Early)
    else if c.HasLiveClaim(now) && c.claim.value.window == window then (c, Busy)
    else
      var token := c.fence + 1;
      (c.(fence := token, claim := Some(Lease(window, owner, token, now + lease))),
       Owned(WindowClaim(c.watch.value, c.runtime.value, owner, window, token, now + lease)))
  }

  function BeginBooking(c: Cell, now: nat, claim: WindowClaim): (Cell, Permit) {
    if !c.IsActive() || !Owns(c, claim, now) then (c, Fenced)
    else if c.runtime.value.cancelRequested then (c, Withdrawn)
    else (c.(runtime := Some(c.runtime.value.(phase := Some(Booking)))), Granted)
  }

  function CommitWindow(c: Cell, now: nat, retention: nat, claim: WindowClaim, newWatch: Watch, newRuntime: Runtime)
    : (Cell, CommitResult)
  {
    if c.watch.None? || c.runtime.None? then (c, CommitResult(CommitUnknown, None, None))
    else if c.IsFinished() then (c, CommitResult(CommitFinished, c.watch, None))
    else if !Owns(c, claim, now) then (c, CommitResult(CommitFenced, None, None))
    else
      var revision := c.runtime.value.revision + 1;
      var stored := newRuntime.(revision := revision, phase := None);
      if newWatch.status.IsTerminal() then
        var kept := stored.(deleteAt := Some(now + retention));
        (c.(watch := Some(newWatch), runtime := Some(kept), claim := None, dispatch := None, marker := None,
            deleteAt := Some(now + retention)),
         CommitResult(Committed, Some(newWatch), TerminalEvent(claim.watch.id, newWatch.status, revision)))
      else
        (c.(watch := Some(newWatch), runtime := Some(stored), claim := None, marker := MarkerFor(stored)),
         CommitResult(Committed, Some(newWatch), None))
  }

  /** Store a terminal watch, bump the revision and clear everything scheduled. */
  function ApplyTerminal(c: Cell, now: nat, retention: nat, watch: Watch): (Cell, nat) {
    var revision := if c.runtime.Some? then c.runtime.value.revision + 1 else 0;
    var runtime := if c.runtime.Some? then Some(TerminalRuntime(c.runtime.value, revision, now + retention)) else None;
    (c.(watch := Some(watch), runtime := runtime, claim := None, dispatch := None, marker := None,
        deleteAt := Some(now + retention)),
     revision)
  }

  function Finish(watch: Watch, status: Status, now: nat): Watch {
    watch.(status := status, nextCheckAt := None, updatedAt := now)
  }

  function CancelIfActive(c: Cell, now: nat, retention: nat): (Cell, Transition) {
    if c.watch.None? then (c, Transition(Missing, None, None, -1))
    else if c.IsFinished() then (c, Transition(Noop, c.watch, None, -1))
    else if c.runtime.Some? && c.runtime.value.phase == Some(Booking) then
      (c.(runtime := Some(c.runtime.value.(cancelRequested := true))), Transition(NotEligible, c.watch, None, -1))
    else
      var cancelled := Finish(c.watch.value, Cancelled, now);
      var (kept, revision) := ApplyTerminal(c, now, retention, cancelled);
      (kept, Transition(Applied, Some(cancelled), None, revision))
  }

  function ExpireIfEligible(c: Cell, id: string, now: nat, retention: nat, expected: Option<nat>, force: bool)
    : (Cell, Transition)
  {
    if c.watch.None? then (c, Transition(Missing, None, None, -1))
    else if c.IsFinished() then (c, Transition(Noop, c.watch, None, -1))
    else if expected.Some? && c.runtime.Some? && c.runtime.value.revision != expected.value then
      (c, Transition(Outrun, None, None, -1))
    else if !force && !c.watch.value.IsExhausted(now) then (c, Transition(NotEligible, c.watch, None, -1))
    else
      var expired := Finish(c.watch.value, Expired, now);
      var (kept, revision) := ApplyTerminal(c, now, retention, expired);
      (kept, Transition(Applied, Some(expired), TerminalEvent(id, Expired, revision), revision))
  }

  function ReleaseClaim(c: Cell, claim: WindowClaim): (Cell, bool) {
    if c.claim.Some? && c.claim.value.token == claim.token && c.claim.value.owner == claim.owner
    then (c.(claim := None), true)
    else (c, false)
  }

  function SynthesizeMarker(c: Cell, now: nat, runtime: Runtime): (Cell, bool) {
    if !c.IsActive() || c.HasLiveClaim(now) || c.marker.Some? then (c, false)
    else (c.(runtime := Some(runtime), marker := MarkerFor(runtime)), MarkerFor(runtime).Some?)
  }

  /** One active record as the recovery scan sees it. */
  datatype Candidate = Candidate(id: string, watch: Option<Watch>, runtime: Option<Runtime>,
                                 hasMarker: bool, hasLiveClaim: bool)

  function CandidateFor(id: string, c: Cell, now: nat): Candidate {
    Candidate(id, c.watch, c.runtime, c.marker.Some?, c.HasLiveClaim(now))
  }

  predicate Lists(candidates: seq<Candidate>, id: string) {
    exists i :: 0 <= i < |candidates| && candidates[i].id == id
  }

  predicate ListedOnce(candidates: seq<Candidate>) {
    forall i, j :: 0 <= i < j < |candidates| ==> candidates[i].id != candidates[j].id
  }

  lemma ListsOneMore(candidates: seq<Candidate>, c: Candidate)
    requires ListedOnce(candidates) && !Lists(candidates, c.id)
    ensures ListedOnce(candidates + [c])
    ensures forall id :: Lists(candidates + [c], id) <==> Lists(candidates, id) || id == c.id
  {
    var more := candidates + [c];
    forall id
      ensures Lists(more, id) <==> Lists(candidates, id) || id == c.id
    {
      if Lists(candidates, id) {
        var i :| 0 <= i < |candidates| && candidates[i].id == id;
        assert more[i].id == id;
      }
      assert more[|candidates|] == c;
    }
  }

  /** A record that cannot be read is dropped whole, but for its dispatch history. */
  function Prune(c: Cell, fromAll: bool): Cell {
    if fromAll then VACANT.(dispatchFence := c.dispatchFence, dispatch := c.dispatch) else c
  }

  /** What cleanup does to one due record: a finished watch goes whole, any other entry is only dropped. */
  function Cleaned(c: Cell): Cell {
    if c.IsFinished() then VACANT else c.(deleteAt := None)
  }

  predicate AfterCleanup(before: Cell, after: Cell, taken: bool, gone: bool) {
    && after == (if taken then Cleaned(before) else before)
    && (gone <==> taken && before.IsFinished())
  }

  lemma NotCleaned(c: Cell)
    ensures AfterCleanup(c, c, false, false)
  {
  }

  lemma WasUntouched(before: Cell, c: Cell, gone: bool)
    requires AfterCleanup(before, c, false, gone)
    ensures c == before && !gone
  {
  }

  lemma IsCleaned(c: Cell)
    ensures AfterCleanup(c, Cleaned(c), true, c.IsFinished())
  {
  }

  // -- what a claim knows ------------------------------------------------------

  /** The stored sidecar is the claimed one, but for the phase and a cancellation recorded since. */
  predicate Agrees(stored: Runtime, seen: Runtime) {
    && stored.(phase := seen.phase, cancelRequested := seen.cancelRequested) == seen
    && (seen.cancelRequested ==> stored.cancelRequested)
  }

  predicate HoldsToken(c: Cell, claim: WindowClaim) {
    c.claim.Some? && c.claim.value.token == claim.token
  }

  /** While its token is the held one and its lease runs, a claim's snapshot is still the stored state. */
  predicate Genuine(c: Cell, claim: WindowClaim, now: nat) {
    && claim.token <= c.fence
    && (HoldsToken(c, claim) && c.HasLiveClaim(now) ==>
          && c.claim.value == Lease(claim.window, claim.owner, claim.token, claim.leaseExpiresAt)
          && c.watch == Some(claim.watch)
          && c.runtime.Some? && Agrees(c.runtime.value, claim.runtime))
  }

  /** What every reachable cell keeps, for a store used only through these operations. */
  predicate Coherent(c: Cell, now: nat) {
    && (c.watch.None? ==> c == VACANT)
    && (c.watch.Some? ==> c.runtime.Some?)
    && (c.IsActive() ==> c.deleteAt.None? && c.marker == MarkerFor(c.runtime.value))
    && (c.IsFinished() ==> c.claim.None? && c.marker.None? && c.deleteAt.Some?)
    && (c.claim.Some? ==> c.claim.value.token == c.fence)
    && (c.HasLiveClaim(now) ==> c.runtime.value.window == Some(c.claim.value.window))
  }

  // -- the single-flight right to publish a due window ------------------------

  datatype DispatchClaim = DispatchClaim(
    id: string, window: string, scheduledFor: nat, owner: string, generation: nat, leaseExpiresAt: nat)

  /** A marker as the dispatcher reads it from the schedule. */
  datatype DueMarker = DueMarker(id: string, marker: Marker)

  predicate DueIn(m: DueMarker, c: Cell, cutoff: nat) {
    c.marker == Some(m.marker) && m.marker.scheduledFor <= cutoff
  }

  predicate InDueOrder(due: seq<DueMarker>) {
    forall i, j :: 0 <= i < j < |due| ==>
      due[i].id != due[j].id && due[i].marker.scheduledFor <= due[j].marker.scheduledFor
  }

  datatype DispatchResult = Dispatching(claim: DispatchClaim) | DispatchBusy | DispatchStale

  function ClaimDispatch(c: Cell, id: string, now: nat, window: string, owner: string, lease: nat)
    : (Cell, DispatchResult)
  {
    if !c.IsActive() || c.marker.None? || c.marker.value.window != window then (c, DispatchStale)
    else if c.dispatch.Some? && c.dispatch.value.window == window && c.dispatch.value.expiresAt > now then
      (c, DispatchBusy)
    else
      var generation := c.dispatchFence + 1;
      (c.(dispatchFence := generation,
          dispatch := Some(DispatchLease(window, owner, generation, now + lease))),
       Dispatching(DispatchClaim(id, window, c.marker.value.scheduledFor, owner, generation, now + lease)))
  }

  predicate OwnsDispatch(c: Cell, claim: DispatchClaim) {
    c.dispatch.Some? && c.dispatch.value.generation == claim.generation && c.dispatch.value.owner == claim.owner
  }

  function MarkDispatched(c: Cell, claim: DispatchClaim, redispatchAfter: nat): (Cell, bool) {
    if OwnsDispatch(c, claim)
    then (c.(dispatch := Some(c.dispatch.value.(expiresAt := redispatchAfter))), true)
    else (c, false)
  }

  function ReleaseDispatch(c: Cell, claim: DispatchClaim): (Cell, bool) {
    if OwnsDispatch(c, claim) then (c.(dispatch := None), true) else (c, false)
  }
}
