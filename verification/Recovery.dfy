/** The recovery scan: one pass over the active records of a store in any partial state
    (backend/services/watch_recovery.py:148-282, backend/models/watch_runtime.py:101-157). */
module Recovery {
  import opened Wrappers
  import opened Watches
  import opened WatchCells
  import opened CellRuns
  import opened PollTiming
  import opened Tallies
  import opened InMemoryWatchRepository

  // -- what a repair writes -------------------------------------------------------------

  function ForwardRequired(watch: Watch, earliest: nat, now: nat): nat {
    CeilDiv(Remaining(now, watch.expiresAt), Max(1, earliest)) + 1
  }

  /** The sidecar of a record that predates sidecars; the attempt ceiling is not raised. */
  function MigrateLegacy(watch: Watch, earliest: nat, now: nat): Runtime {
    var total := watch.attempts + ForwardRequired(watch, earliest, now);
    var supports := watch.maxAttempts >= total;
    if watch.status.IsTerminal() then Runtime(0, total, supports, 0, 0, None, None, None, false, None)
    else
      Runtime(0, total, supports, 0, 0, Some(WindowIdFor(watch.id, 0)),
              Some(if watch.nextCheckAt.Some? then watch.nextCheckAt.value else now), None, false, None)
  }

  function Earlier(a: nat, b: nat): nat {
    if a <= b then a else b
  }

  function MarkerRuntime(candidate: Candidate, watch: Watch, earliest: nat, now: nat): Option<Runtime> {
    match candidate.runtime
    case Some(runtime) =>
      var window := if runtime.window.Some? && runtime.window.value != "" then runtime.window.value
                    else WindowIdFor(candidate.id, runtime.cadence);
      var base := if runtime.scheduledFor.Some? then runtime.scheduledFor.value
                  else if watch.nextCheckAt.Some? then watch.nextCheckAt.value else now;
      Some(runtime.(window := Some(window), scheduledFor := Some(Earlier(base, watch.expiresAt))))
    case None =>
      var runtime := MigrateLegacy(watch, earliest, now);
      if runtime.window.None? || runtime.scheduledFor.None? then None
      else Some(runtime.(scheduledFor := Some(Earlier(runtime.scheduledFor.value, watch.expiresAt))))
  }

  /** A migrated record requires the least total of attempts whose unspent part reaches the deadline, and its ceiling
      supports the deadline exactly when the attempts it has left reach it. */
  lemma MigrationIsHonest(watch: Watch, earliest: nat, now: nat, total: nat)
    requires earliest > 0
    ensures total >= MigrateLegacy(watch, earliest, now).requiredAttempts <==>
              watch.attempts < total && now + (total - watch.attempts - 1) * earliest >= watch.expiresAt
    ensures MigrateLegacy(watch, earliest, now).supportsDeadline <==>
              watch.attempts < watch.maxAttempts
              && now + (watch.maxAttempts - watch.attempts - 1) * earliest >= watch.expiresAt
  {
    if watch.attempts < watch.maxAttempts {
      CeilDivIsLeast(Remaining(now, watch.expiresAt), earliest, watch.maxAttempts - watch.attempts - 1);
    }
    if watch.attempts < total {
      CeilDivIsLeast(Remaining(now, watch.expiresAt), earliest, total - watch.attempts - 1);
    }
    hide CeilDiv;
  }

  // -- one candidate ----------------------------------------------------------------------

  datatype Action = Pruned | Lapsed | Repaired | Preserved | Deferred | NoAction

  /** What reconciling one record does to it; the store may read its clock later than the pass did. */
  function Reconcile(candidate: Candidate, c: Cell, now: nat, clock: nat, retention: nat, earliest: nat): (Cell, Action) {
    if candidate.watch.None? then (Prune(c, true), Pruned)
    else
      var watch := candidate.watch.value;
      if watch.status.IsTerminal() then (Prune(c, false), Pruned)
      else if watch.IsExhausted(now) then
        var (next, result) := ExpireIfEligible(c, candidate.id, clock, retention, None, false);
        (next, if result.status == Applied then Lapsed else NoAction)
      else if candidate.hasLiveClaim then (c, Deferred)
      else if candidate.hasMarker then (c, Preserved)
      else
        match MarkerRuntime(candidate, watch, earliest, now)
        case None => (c, NoAction)
        case Some(runtime) =>
          var (next, repaired) := SynthesizeMarker(c, clock, runtime);
          (next, if repaired then Repaired else NoAction)
  }

  method ReconcileOne(repo: Repository, candidate: Candidate, now: nat, clock: nat, earliest: nat) returns (action: Action)
    modifies repo
    ensures var (next, taken) := Reconcile(candidate, old(repo.At(candidate.id)), now, clock, repo.retention, earliest);
            && action == taken && repo.At(candidate.id) == next
    ensures forall other :: other != candidate.id ==> repo.At(other) == old(repo.At(other))
  {
    var id := candidate.id;
    if candidate.watch.None? {
      repo.PruneIndexMember(id, true);
      return Pruned;
    }
    var watch := candidate.watch.value;
    if watch.status.IsTerminal() {
      repo.PruneIndexMember(id, false);
      return Pruned;
    }
    if watch.IsExhausted(now) {
      var result := repo.Expire(clock, id, None, false);
      return if result.status == Applied then Lapsed else NoAction;
    }
    if candidate.hasLiveClaim {
      return Deferred;
    }
    if !candidate.hasMarker {
      var runtime := MarkerRuntime(candidate, watch, earliest, now);
      if runtime.Some? {
        var repaired := repo.Synthesize(clock, id, runtime.value);
        if repaired {
          return Repaired;
        }
      }
      return NoAction;
    }
    action := Preserved;
  }

  /** Nothing is left for recovery to do: finished, or alive with an owner or a marker. */
  predicate Settled(c: Cell, now: nat) {
    c.IsFinished() || (c.IsActive() && !c.watch.value.IsExhausted(now) && (c.HasLiveClaim(now) || c.marker.Some?))
  }

  /** A repair keeps the window and due time a record still names, and otherwise falls back to its own
      cadence, its own next check, or at worst an immediate one; only the deadline brings it forward. */
  predicate KeepsSchedule(id: string, before: Cell, after: Marker, now: nat) {
    before.watch.Some? &&
    var due := if before.runtime.Some? && before.runtime.value.scheduledFor.Some? then before.runtime.value.scheduledFor
               else before.watch.value.nextCheckAt;
    && after.scheduledFor == Earlier(if due.Some? then due.value else now, before.watch.value.expiresAt)
    && (before.runtime.Some? && before.runtime.value.window.Some? && before.runtime.value.window.value != "" ==>
          after.window == before.runtime.value.window.value)
    && (before.runtime.Some? && (before.runtime.value.window.None? || before.runtime.value.window.value == "") ==>
          after.window == WindowIdFor(id, before.runtime.value.cadence))
    && (before.runtime.None? ==> after.window == WindowIdFor(before.watch.value.id, 0))
  }

  /** A repair only adds a marker, due by the deadline: a sidecar keeps everything but the window and due time the
      marker names, and a record without one gets a fresh sidecar at revision and cadence zero. */
  predicate OnlyRepairs(before: Cell, after: Cell) {
    before.marker.None? && after.marker.Some? ==>
      && after.watch == before.watch && after.runtime.Some? && after.fence == before.fence && after.claim == before.claim
      && after.watch.Some? && after.marker.value.scheduledFor <= after.watch.value.expiresAt
      && after.marker == MarkerFor(after.runtime.value)
      && (before.runtime.Some? ==>
            && after.runtime.value.revision == before.runtime.value.revision
            && after.runtime.value.cadence == before.runtime.value.cadence)
      && (before.runtime.None? ==>
            && after.runtime.value.revision == 0 && after.runtime.value.cadence == 0 && after.runtime.value.outages == 0
            && after.runtime.value.phase.None? && !after.runtime.value.cancelRequested && after.runtime.value.deleteAt.None?)
  }

  /** Read and repaired at once, a sidecar differs only in what the marker names. */
  predicate KeepsSidecar(before: Cell, after: Cell) {
    before.marker.None? && after.marker.Some? && before.runtime.Some? ==>
      after.runtime == Some(before.runtime.value.(window := Some(after.marker.value.window),
                                                  scheduledFor := Some(after.marker.value.scheduledFor)))
  }

  lemma ReconcileSettles(id: string, c: Cell, now: nat, clock: nat, retention: nat, earliest: nat)
    requires c.IsActive() && now <= clock
    ensures var (next, action) := Reconcile(CandidateFor(id, c, now), c, now, clock, retention, earliest);
            && Settled(next, now) && OnlyRepairs(c, next) && KeepsSidecar(c, next)
            && (c.marker.None? && next.marker.Some? ==> KeepsSchedule(id, c, next.marker.value, now))
            && (action == Lapsed <==> next.IsFinished())
            && (action == Repaired <==> c.marker.None? && next.marker.Some?)
            && (action == Deferred <==> !c.watch.value.IsExhausted(now) && c.HasLiveClaim(now))
            && (action == Preserved <==> !c.watch.value.IsExhausted(now) && !c.HasLiveClaim(now) && c.marker.Some?)
            && (action == Deferred || action == Preserved ==> next == c)
  {
  }

  /** A record without a document is dropped but for its dispatch history, and a finished one is left to its retention. */
  lemma ReconcileDrops(id: string, c: Cell, now: nat, clock: nat, retention: nat, earliest: nat)
    requires !c.IsActive()
    ensures var (next, action) := Reconcile(CandidateFor(id, c, now), c, now, clock, retention, earliest);
            && action == Pruned
            && (c.IsFinished() ==> next == c)
            && (c.watch.None? ==>
                  && next.watch.None? && next.runtime.None? && next.claim.None? && next.marker.None? && next.deleteAt.None?
                  && next.dispatch == c.dispatch && next.dispatchFence == c.dispatchFence)
  {
  }

  // -- one whole pass -----------------------------------------------------------------------

  predicate Handled(before: Cell, after: Cell, now: nat) {
    before.IsActive() && Settled(after, now) && OnlyRepairs(before, after)
  }

  predicate GainedMarker(before: Cell, after: Cell) {
    before.marker.None? && after.marker.Some?
  }

  /** How far one record is through the pass, and where it is counted. */
  predicate Progress(before: Cell, after: Cell, reached: bool, lapsed: bool, repaired: bool, now: nat) {
    if reached then
      Handled(before, after, now) && (lapsed <==> after.IsFinished()) && (repaired <==> GainedMarker(before, after))
    else after == before && !lapsed && !repaired
  }

  lemma NotYet(before: Cell, after: Cell, lapsed: bool, repaired: bool, now: nat)
    requires Progress(before, after, false, lapsed, repaired, now)
    ensures after == before && !lapsed && !repaired
  {
  }

  lemma NothingListed(candidates: seq<Candidate>)
    ensures forall id :: !Lists(candidates[..0], id)
  {
  }

  lemma NotStarted(c: Cell, now: nat)
    ensures Progress(c, c, false, false, false, now)
  {
  }

  /** One record reconciled as it was listed, at some later reading of the store's clock. */
  method Visit(repo: Repository, candidate: Candidate, now: nat, earliest: nat) returns (action: Action)
    requires repo.At(candidate.id).IsActive() && candidate == CandidateFor(candidate.id, repo.At(candidate.id), now)
    modifies repo
    ensures Progress(old(repo.At(candidate.id)), repo.At(candidate.id), true, action == Lapsed, action == Repaired, now)
    ensures forall other :: other != candidate.id ==> repo.At(other) == old(repo.At(other))
  {
    var clock :| now <= clock;
    ReconcileSettles(candidate.id, repo.At(candidate.id), now, clock, repo.retention, earliest);
    hide Reconcile, Settled, OnlyRepairs;
    action := ReconcileOne(repo, candidate, now, clock, earliest);
  }

  /** An undisturbed pass settles every record that was active, touches no other, and counts what it
      did exactly. The store's own clock may run on between two records. */
  method RunPass(repo: Repository, now: nat, earliest: nat)
    returns (considered: nat, expired: nat, synthesized: nat, ghost active: set<string>, ghost lapsed: set<string>,
             ghost repaired: set<string>)
    modifies repo
    ensures forall id :: Progress(old(repo.At(id)), repo.At(id), old(repo.At(id)).IsActive(), id in lapsed, id in repaired, now)
    ensures expired == |lapsed| && synthesized == |repaired| && considered == |active|
    ensures forall id :: id in active <==> old(repo.At(id)).IsActive()
  {
    hide *;
    var candidates := repo.ListCandidates(now);
    considered, expired, synthesized, active, lapsed, repaired := |candidates|, 0, 0, {}, {}, {};
    NothingListed(candidates);
    forall id
      ensures Progress(old(repo.At(id)), repo.At(id), Lists(candidates[..0], id), id in lapsed, id in repaired, now)
    {
      NotStarted(repo.At(id), now);
    }
    for i := 0 to |candidates|
      invariant forall id :: Progress(old(repo.At(id)), repo.At(id), Lists(candidates[..i], id), id in lapsed, id in repaired, now)
      invariant expired == |lapsed| && synthesized == |repaired|
      invariant |active| == i && forall id :: id in active <==> Lists(candidates[..i], id)
    {
      var candidate := candidates[i];
      ListsNext(candidates, i);
      NotYet(old(repo.At(candidate.id)), repo.At(candidate.id), candidate.id in lapsed, candidate.id in repaired, now);
      assert candidate in candidates;
      var action := Visit(repo, candidate, now, earliest);
      expired, lapsed := Count(expired, lapsed, candidate.id, action == Lapsed);
      synthesized, repaired := Count(synthesized, repaired, candidate.id, action == Repaired);
      active := active + {candidate.id};
    }
    assert candidates[..|candidates|] == candidates;
  }

  lemma ListsNext(candidates: seq<Candidate>, i: nat)
    requires i < |candidates| && ListedOnce(candidates)
    ensures !Lists(candidates[..i], candidates[i].id) && Lists(candidates, candidates[i].id)
    ensures forall id :: Lists(candidates[..i + 1], id) <==> Lists(candidates[..i], id) || id == candidates[i].id
  {
    assert candidates[..i + 1] == candidates[..i] + [candidates[i]];
    ListsOneMore(candidates[..i], candidates[i]);
  }

  // -- repairs amid other steps -----------------------------------------------------------------

  /** What the coordinated protocol hands the store: an active successor always has a due window. */
  predicate Scheduled(op: CellOp) {
    && (op.OpCommit? && op.newWatch.status == Active ==> MarkerFor(op.newRuntime).Some?)
    && (op.OpSynthesize? ==> MarkerFor(op.runtime).Some?)
  }

  /** Still without a marker, a record has the revision and cadence it was read with. */
  predicate Untouched(read: Cell, c: Cell) {
    c.IsActive() && c.marker.None? ==>
      && read.IsActive() && read.marker.None? && c.watch == read.watch
      && (c.runtime.Some? <==> read.runtime.Some?)
      && (c.runtime.Some? ==>
            && c.runtime.value.revision == read.runtime.value.revision
            && c.runtime.value.cadence == read.runtime.value.cadence)
  }

  lemma UntouchedKept(read: Cell, c: Cell, id: string, now: nat, retention: nat, op: CellOp)
    requires Untouched(read, c) && c.watch.Some? && Scheduled(op)
    ensures Untouched(read, Apply(c, id, now, retention, op)) && Apply(c, id, now, retention, op).watch.Some?
  {
  }

  lemma {:induction false} UntouchedOver(read: Cell, c: Cell, id: string, retention: nat, ops: seq<Timed>)
    requires Untouched(read, c) && c.watch.Some?
    requires forall i :: 0 <= i < |ops| ==> Scheduled(ops[i].op)
    ensures Untouched(read, CellRuns.Run(c, id, retention, ops))
    decreases |ops|
  {
    if ops != [] {
      UntouchedKept(read, c, id, ops[0].now, retention, ops[0].op);
      UntouchedOver(read, Apply(c, id, ops[0].now, retention, ops[0].op), id, retention, ops[1..]);
    }
  }

  /** Any protocol steps may fall between reading a record and repairing it: a repair that still
      applies never lowers its revision or cadence, and schedules no check past the deadline. */
  lemma LateRepairIsSafe(read: Cell, id: string, seen: nat, ops: seq<Timed>, now: nat, clock: nat, retention: nat, earliest: nat)
    requires read.IsActive()
    requires forall i :: 0 <= i < |ops| ==> Scheduled(ops[i].op)
    ensures var c := CellRuns.Run(read, id, retention, ops);
            var (next, action) := Reconcile(CandidateFor(id, read, seen), c, now, clock, retention, earliest);
            action == Repaired ==> c.IsActive() && c.marker.None? && OnlyRepairs(c, next)
  {
    UntouchedOver(read, read, id, retention, ops);
    hide CellRuns.Run;
  }
}
