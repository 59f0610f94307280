/** The bridge from durable markers to the broker queue: one publication per window and lease
    (backend/workers/dispatcher.py:97-164). */
module Dispatcher {
  import opened Wrappers
  import opened Watches
  import opened WatchCells
  import opened InMemoryWatchRepository

  datatype Outcome = Dispatched | Postponed | Failed

  /** A publication is identified by its window and dispatch generation. */
  datatype Job = Job(id: string, window: string, generation: nat, delay: nat, dueAt: nat)

  class Queue {
    var accepted: seq<Job>

    constructor ()
      ensures accepted == []
    {
      accepted := [];
    }

    /** The broker may refuse, and a call that fails may still have been accepted. */
    method Enqueue(job: Job) returns (ok: bool)
      modifies this
      ensures accepted == old(accepted) || accepted == old(accepted) + [job]
      ensures ok ==> accepted == old(accepted) + [job]
    {
      var lost: bool := *;
      if lost {
        var landed: bool := *;
        accepted := if landed then accepted + [job] else accepted;
        return false;
      }
      accepted := accepted + [job];
      return true;
    }
  }

  function Later(a: nat, b: nat): nat {
    if a >= b then a else b
  }

  /** The job of one marker and generation: it arrives at the marker's due time, or at once if that is past. */
  function JobFor(m: DueMarker, generation: nat, now: nat): (job: Job)
    ensures job.id == m.id && job.window == m.marker.window && job.generation == generation && job.dueAt == m.marker.scheduledFor
    ensures if job.dueAt <= now then job.delay == 0 else now + job.delay == job.dueAt
  {
    Job(m.id, m.marker.window, generation, if m.marker.scheduledFor >= now then m.marker.scheduledFor - now else 0,
        m.marker.scheduledFor)
  }

  datatype Settings = Settings(owner: string, horizon: nat, lease: nat, grace: nat, batch: nat)

  /** Claim, publish, then defer or release: what it comes to for the watch. */
  function Dispatch(c: Cell, m: DueMarker, now: nat, clock: nat, s: Settings, published: bool): (Cell, Outcome) {
    var (leased, result) := ClaimDispatch(c, m.id, clock, m.marker.window, s.owner, s.lease);
    match result
    case DispatchBusy => (leased, Postponed)
    case DispatchStale => (leased, Postponed)
    case Dispatching(claim) =>
      if published then (MarkDispatched(leased, claim, Later(m.marker.scheduledFor, now) + s.grace).0, Dispatched)
      else (ReleaseDispatch(leased, claim).0, Failed)
  }

  /** Nobody holds an unexpired lease to publish this watch's current window. */
  predicate Claimable(c: Cell, window: string, clock: nat) {
    && c.IsActive() && c.marker.Some? && c.marker.value.window == window
    && !(c.dispatch.Some? && c.dispatch.value.window == window && c.dispatch.value.expiresAt > clock)
  }

  /** A dispatch publishes exactly what is claimable; success defers the window to its redispatch time,
      failure leaves the marker as it was and claimable at once, and neither touches anything else. */
  lemma DispatchCases(c: Cell, m: DueMarker, now: nat, clock: nat, s: Settings, published: bool)
    ensures var (next, outcome) := Dispatch(c, m, now, clock, s, published);
            && (outcome == Postponed <==> !Claimable(c, m.marker.window, clock))
            && (outcome == Postponed ==> next == c)
            && (outcome == Dispatched ==>
                  && published
                  && next == c.(dispatchFence := c.dispatchFence + 1, dispatch := next.dispatch)
                  && next.dispatch == Some(DispatchLease(m.marker.window, s.owner, c.dispatchFence + 1,
                                                         Later(m.marker.scheduledFor, now) + s.grace)))
            && (outcome == Failed ==>
                  && !published
                  && next == c.(dispatchFence := c.dispatchFence + 1, dispatch := None)
                  && Claimable(next, m.marker.window, clock))
  {
  }

  method DispatchOne(repo: Repository, queue: Queue, m: DueMarker, now: nat, clock: nat, s: Settings)
    returns (outcome: Outcome)
    modifies repo, queue
    ensures var (next, result) := Dispatch(old(repo.At(m.id)), m, now, clock, s, outcome == Dispatched);
            repo.At(m.id) == next && outcome == result
    ensures forall other :: other != m.id ==> repo.At(other) == old(repo.At(other))
    ensures var job := JobFor(m, old(repo.At(m.id)).dispatchFence + 1, now);
            && (outcome == Dispatched ==> queue.accepted == old(queue.accepted) + [job])
            && (outcome == Postponed ==> queue.accepted == old(queue.accepted))
            && (queue.accepted == old(queue.accepted) || queue.accepted == old(queue.accepted) + [job])
  {
    var result := repo.LeaseDispatch(clock, m.id, m.marker.window, s.owner, s.lease);
    if !result.Dispatching? {
      return Postponed;
    }
    var claim := result.claim;
    var ok := queue.Enqueue(JobFor(m, claim.generation, now));
    if !ok {
      var _ := repo.Unlease(claim);
      return Failed;
    }
    var _ := repo.Mark(claim, Later(m.marker.scheduledFor, now) + s.grace);
    outcome := Dispatched;
  }

  // -- one sweep ------------------------------------------------------------------------

  /** What a sweep has done to one watch: only its publishing right may have moved, and once its marker was
      visited without a failure that right is taken (a grace of zero takes it up to the due time only). */
  predicate Swept(before: Cell, after: Cell, visited: bool, failed: bool, now: nat, grace: nat) {
    && after == before.(dispatchFence := after.dispatchFence, dispatch := after.dispatch)
    && before.dispatchFence <= after.dispatchFence
    && (!visited ==> after == before && !failed)
    && (visited && !failed && after.marker.Some? && (grace > 0 || after.marker.value.scheduledFor > now) ==>
          !Claimable(after, after.marker.value.window, now))
  }

  predicate Visited(due: seq<DueMarker>, id: string) {
    exists i :: 0 <= i < |due| && due[i].id == id
  }

  lemma NotVisitedYet(before: Cell, after: Cell, failed: bool, now: nat, grace: nat)
    requires Swept(before, after, false, failed, now, grace)
    ensures after == before && !failed
  {
  }

  lemma Untouched(c: Cell, now: nat, grace: nat)
    ensures Swept(c, c, false, false, now, grace)
  {
  }

  lemma VisitsNext(due: seq<DueMarker>, i: nat)
    requires i < |due| && InDueOrder(due)
    ensures !Visited(due[..i], due[i].id)
    ensures forall id :: Visited(due[..i + 1], id) <==> Visited(due[..i], id) || id == due[i].id
  {
    var next := due[..i + 1];
    forall id
      ensures Visited(next, id) <==> Visited(due[..i], id) || id == due[i].id
    {
      if Visited(due[..i], id) {
        var j :| 0 <= j < i && due[j].id == id;
        assert next[j].id == id;
      }
      assert next[i] == due[i];
    }
  }

  lemma DispatchSweeps(c: Cell, m: DueMarker, now: nat, clock: nat, s: Settings, published: bool)
    requires c.marker == Some(m.marker) && now <= clock
    ensures var (next, outcome) := Dispatch(c, m, now, clock, s, published);
            Swept(c, next, true, outcome == Failed, now, s.grace)
  {
    DispatchCases(c, m, now, clock, s, published);
  }

  method VisitMarker(repo: Repository, queue: Queue, m: DueMarker, now: nat, s: Settings) returns (outcome: Outcome)
    requires repo.At(m.id).marker == Some(m.marker)
    modifies repo, queue
    ensures Swept(old(repo.At(m.id)), repo.At(m.id), true, outcome == Failed, now, s.grace)
    ensures forall other :: other != m.id ==> repo.At(other) == old(repo.At(other))
    ensures |old(queue.accepted)| + (if outcome == Dispatched then 1 else 0) <= |queue.accepted|
            <= |old(queue.accepted)| + (if outcome == Postponed then 0 else 1)
    ensures old(queue.accepted) <= queue.accepted
  {
    var clock :| now <= clock;
    ghost var c := repo.At(m.id);
    outcome := DispatchOne(repo, queue, m, now, clock, s);
    DispatchSweeps(c, m, now, clock, s, outcome == Dispatched);
  }

  /** An undisturbed sweep publishes every claimable marker inside the horizon that its batch
      reaches: without a failure none of them is left unclaimed, every publication counted as
      dispatched is in the queue, and nothing but publishing rights moved in the store. */
  method DispatchDue(repo: Repository, queue: Queue, now: nat, s: Settings)
    returns (considered: nat, dispatched: nat, deferred: nat, failed: nat, ghost due: seq<DueMarker>, ghost failures: set<string>)
    modifies repo, queue
    ensures forall id :: Swept(old(repo.At(id)), repo.At(id), Visited(due, id), id in failures, now, s.grace)
    ensures considered == |due| == dispatched + deferred + failed && failed == |failures| && considered <= s.batch
    ensures InDueOrder(due) && forall m :: m in due ==> DueIn(m, old(repo.At(m.id)), now + s.horizon)
    ensures considered < s.batch ==>
              forall id :: var c := old(repo.At(id));
                c.marker.Some? && c.marker.value.scheduledFor <= now + s.horizon ==> DueMarker(id, c.marker.value) in due
    ensures |old(queue.accepted)| + dispatched <= |queue.accepted| <= |old(queue.accepted)| + dispatched + failed
  {
    hide *;
    var markers := repo.DueScheduleMarkers(now, s.horizon, s.batch);
    considered, dispatched, deferred, failed, due, failures := |markers|, 0, 0, 0, markers, {};
    SweepStart(markers);
    forall id
      ensures Swept(old(repo.At(id)), repo.At(id), Visited(markers[..0], id), id in failures, now, s.grace)
    {
      Untouched(repo.At(id), now, s.grace);
    }
    for i := 0 to |markers|
      invariant forall id :: Swept(old(repo.At(id)), repo.At(id), Visited(markers[..i], id), id in failures, now, s.grace)
      invariant dispatched + deferred + failed == i && failed == |failures|
      invariant |old(queue.accepted)| + dispatched <= |queue.accepted| <= |old(queue.accepted)| + dispatched + failed
    {
      var m := markers[i];
      VisitsNext(markers, i);
      NotVisitedYet(old(repo.At(m.id)), repo.At(m.id), m.id in failures, now, s.grace);
      assert m in markers;
      MarkerIs(m, repo.At(m.id), now + s.horizon);
      var outcome := VisitMarker(repo, queue, m, now, s);
      match outcome
      case Dispatched => dispatched := dispatched + 1;
      case Postponed => deferred := deferred + 1;
      case Failed => failed, failures := failed + 1, failures + {m.id};
    }
    assert markers[..|markers|] == markers;
  }

  lemma SweepStart(due: seq<DueMarker>)
    ensures forall id :: !Visited(due[..0], id)
  {
  }

  lemma MarkerIs(m: DueMarker, c: Cell, cutoff: nat)
    requires DueIn(m, c, cutoff)
    ensures c.marker == Some(m.marker)
  {
  }
}
