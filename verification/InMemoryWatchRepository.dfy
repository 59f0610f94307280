/** The process-local store: one dictionary per concern, every method one critical
    section (backend/db/repositories/watches.py:226-811). Each method is proved to act
    on the one watch it names exactly as WatchCells prescribes, and on no other. */
module InMemoryWatchRepository {
  import opened Wrappers
  import opened Watches
  import opened WatchCells
  import opened SortedSets
  import opened Tallies

  class Repository {
    const retention: nat
    var watches: map<string, Watch>
    var runtimes: map<string, Runtime>
    var fence: map<string, nat>
    var claims: map<string, Lease>
    var dispatchFence: map<string, nat>
    var dispatchLeases: map<string, DispatchLease>
    var markers: map<string, Marker>
    var terminalDeleteAt: map<string, nat>
    var events: set<EventId>

    ghost function At(id: string): Cell
      reads this
    {
      Cell(Get(watches, id), Get(runtimes, id), if id in fence then fence[id] else 0, Get(claims, id),
           if id in dispatchFence then dispatchFence[id] else 0, Get(dispatchLeases, id), Get(markers, id),
           Get(terminalDeleteAt, id))
    }

    /** Only the named watch moved, to `next`, and the events gained at most `issued`. */
    twostate predicate Moved(id: string, next: Cell, issued: Option<EventId>)
      reads this
    {
      && At(id) == next
      && (forall other :: other != id ==> At(other) == old(At(other)))
      && events == old(events) + (if issued.Some? then {issued.value} else {})
    }

    constructor (retention: nat)
      ensures this.retention == retention
      ensures forall id :: At(id) == VACANT
      ensures events == {}
    {
      this.retention := retention;
      watches, runtimes, fence, claims := map[], map[], map[], map[];
      dispatchFence, dispatchLeases, markers, terminalDeleteAt, events := map[], map[], map[], map[], {};
    }

    method SetMarker(id: string, runtime: Runtime)
      modifies this`markers
      ensures Moved(id, old(At(id)).(marker := MarkerFor(runtime)), None)
    {
      if runtime.window.Some? && runtime.scheduledFor.Some? {
        markers := markers[id := Marker(runtime.window.value, runtime.scheduledFor.value)];
      } else {
        markers := markers - {id};
      }
    }

    method CreateWithSchedule(watch: Watch, runtime: Runtime) returns (r: CreateResult)
      modifies this
      ensures var (next, result) := Create(old(At(watch.id)), watch, runtime);
              Moved(watch.id, next, None) && r == result
    {
      if watch.id in watches {
        return AlreadyExists(watches[watch.id], Get(runtimes, watch.id));
      }
      watches := watches[watch.id := watch];
      runtimes := runtimes[watch.id := runtime];
      fence := fence[watch.id := 0];
      SetMarker(watch.id, runtime);
      r := Created(watch, runtime);
    }

    method Claim(now: nat, id: string, window: string, owner: string, lease: nat, ignoreSchedule: bool)
      returns (r: ClaimResult)
      modifies this
      ensures var (next, result) := ClaimWindow(old(At(id)), now, window, owner, lease, ignoreSchedule);
              Moved(id, next, None) && r == result
    {
      if id !in watches || id !in runtimes {
        return Unknown;
      }
      var watch, runtime := watches[id], runtimes[id];
      if watch.status.IsTerminal() {
        return Finished;
      }
      if runtime.window != Some(window) {
        return Stale;
      }
      if !ignoreSchedule && runtime.scheduledFor.Some? && runtime.scheduledFor.value > now {
        return Early;
      }
      if id in claims && claims[id].window == window && claims[id].expiresAt > now {
        return Busy;
      }
      var token := (if id in fence then fence[id] else 0) + 1;
      fence := fence[id := token];
      claims := claims[id := Lease(window, owner, token, now + lease)];
      r := Owned(WindowClaim(watch, runtime, owner, window, token, now + lease));
    }

    method Permit(now: nat, claim: WindowClaim) returns (r: Permit)
      modifies this
      ensures var (next, result) := BeginBooking(old(At(claim.watch.id)), now, claim);
              Moved(claim.watch.id, next, None) && r == result
    {
      var id := claim.watch.id;
      if id !in watches || id !in runtimes || watches[id].status.IsTerminal() {
        return Fenced;
      }
      var owned := OwnsNow(now, claim, runtimes[id]);
      if !owned {
        return Fenced;
      }
      if runtimes[id].cancelRequested {
        return Withdrawn;
      }
      runtimes := runtimes[id := runtimes[id].(phase := Some(Booking))];
      r := Granted;
    }

    method Commit(now: nat, claim: WindowClaim, newWatch: Watch, newRuntime: Runtime) returns (r: CommitResult)
      modifies this
      ensures var (next, result) := CommitWindow(old(At(claim.watch.id)), now, retention, claim, newWatch, newRuntime);
              Moved(claim.watch.id, next, result.event) && r == result
    {
      var id := claim.watch.id;
      if id !in watches || id !in runtimes {
        return CommitResult(CommitUnknown, None, None);
      }
      if watches[id].status.IsTerminal() {
        return CommitResult(CommitFinished, Some(watches[id]), None);
      }
      var owned := OwnsNow(now, claim, runtimes[id]);
      if !owned {
        return CommitResult(CommitFenced, None, None);
      }
      var revision := runtimes[id].revision + 1;
      var stored := newRuntime.(revision := revision, phase := None);
      if newWatch.status.IsTerminal() {
        stored := stored.(deleteAt := Some(now + retention));
      }
      StoreWindow(id, newWatch, stored);
      if newWatch.status.IsTerminal() {
        Unschedule(id, stored.deleteAt.value);
        var event := IssueEvent(id, newWatch.status, revision);
        r := CommitResult(Committed, Some(newWatch), event);
      } else {
        SetMarker(id, stored);
        r := CommitResult(Committed, Some(newWatch), None);
      }
    }

    method Cancel(now: nat, id: string) returns (r: Transition)
      modifies this
      ensures var (next, result) := CancelIfActive(old(At(id)), now, retention);
              Moved(id, next, None) && r == result
    {
      if id !in watches {
        return Transition(Missing, None, None, -1);
      }
      var watch := watches[id];
      if watch.status.IsTerminal() {
        return Transition(Noop, Some(watch), None, -1);
      }
      if id in runtimes && runtimes[id].phase == Some(Booking) {
        runtimes := runtimes[id := runtimes[id].(cancelRequested := true)];
        return Transition(NotEligible, Some(watch), None, -1);
      }
      var cancelled := watch.(status := Cancelled, nextCheckAt := None, updatedAt := now);
      var revision := StoreTerminal(now, id, cancelled);
      r := Transition(Applied, Some(cancelled), None, revision);
    }

    method Expire(now: nat, id: string, expected: Option<nat>, force: bool) returns (r: Transition)
      modifies this
      ensures var (next, result) := ExpireIfEligible(old(At(id)), id, now, retention, expected, force);
              Moved(id, next, result.event) && r == result
    {
      if id !in watches {
        return Transition(Missing, None, None, -1);
      }
      var watch := watches[id];
      if watch.status.IsTerminal() {
        return Transition(Noop, Some(watch), None, -1);
      }
      if expected.Some? && id in runtimes && runtimes[id].revision != expected.value {
        return Transition(Outrun, None, None, -1);
      }
      if !force && !watch.IsExhausted(now) {
        return Transition(NotEligible, Some(watch), None, -1);
      }
      var expired := watch.(status := Expired, nextCheckAt := None, updatedAt := now);
      var revision := StoreTerminal(now, id, expired);
      var event := IssueEvent(id, Expired, revision);
      r := Transition(Applied, Some(expired), event, revision);
    }

    method Release(claim: WindowClaim) returns (released: bool)
      modifies this
      ensures var (next, result) := ReleaseClaim(old(At(claim.watch.id)), claim);
              Moved(claim.watch.id, next, None) && released == result
    {
      var id := claim.watch.id;
      if id in claims && claims[id].token == claim.token && claims[id].owner == claim.owner {
        claims := claims - {id};
        return true;
      }
      return false;
    }

    method Synthesize(now: nat, id: string, runtime: Runtime) returns (repaired: bool)
      modifies this
      ensures var (next, result) := SynthesizeMarker(old(At(id)), now, runtime);
              Moved(id, next, None) && repaired == result
    {
      if id !in watches || watches[id].status.IsTerminal() {
        return false;
      }
      if id in claims && claims[id].expiresAt > now {
        return false;
      }
      if id in markers {
        return false;
      }
      runtimes := runtimes[id := runtime];
      if id !in fence {
        fence := fence[id := 0];
      }
      SetMarker(id, runtime);
      repaired := id in markers;
    }

    method PruneIndexMember(id: string, fromAll: bool)
      modifies this
      ensures Moved(id, Prune(old(At(id)), fromAll), None)
    {
      if fromAll {
        watches, runtimes, fence := watches - {id}, runtimes - {id}, fence - {id};
        claims, markers, terminalDeleteAt := claims - {id}, markers - {id}, terminalDeleteAt - {id};
      }
    }

    /** Every active watch, exactly once, as it stands. */
    method ListCandidates(now: nat) returns (candidates: seq<Candidate>)
      ensures ListedOnce(candidates)
      ensures forall id :: Lists(candidates, id) <==> At(id).IsActive()
      ensures forall c :: c in candidates ==> c == CandidateFor(c.id, At(c.id), now)
    {
      candidates := [];
      var rest := watches.Keys;
      while rest != {}
        invariant rest <= watches.Keys && ListedOnce(candidates)
        invariant forall id :: Lists(candidates, id) <==> id in watches && id !in rest && watches[id].status == Active
        invariant forall c :: c in candidates ==> c == CandidateFor(c.id, At(c.id), now)
        decreases rest
      {
        hide ListedOnce, Lists;
        var id :| id in rest;
        if watches[id].status == Active {
          var live := id in claims && claims[id].expiresAt > now;
          var c := Candidate(id, Some(watches[id]), Get(runtimes, id), id in markers, live);
          assert c == CandidateFor(id, At(id), now);
          ListsOneMore(candidates, c);
          candidates := candidates + [c];
        }
        rest := rest - {id};
      }
    }

    /** The earliest of the given watches' markers. */
    method EarliestMarker(ids: set<string>) returns (earliest: string)
      requires ids != {} && ids <= markers.Keys
      ensures earliest in ids && forall id :: id in ids ==> markers[earliest].scheduledFor <= markers[id].scheduledFor
    {
      earliest :| earliest in ids;
      var rest := ids - {earliest};
      while rest != {}
        invariant earliest in ids && rest <= ids
        invariant forall id :: id in ids && id !in rest ==> markers[earliest].scheduledFor <= markers[id].scheduledFor
        decreases rest
      {
        var id :| id in rest;
        rest := rest - {id};
        if markers[id].scheduledFor < markers[earliest].scheduledFor {
          earliest := id;
        }
      }
    }

    /** The markers inside the horizon, earliest first, at most `limit` of them. */
    method DueScheduleMarkers(now: nat, horizon: nat, limit: nat) returns (due: seq<DueMarker>)
      ensures |due| <= limit && InDueOrder(due)
      ensures forall m :: m in due ==> DueIn(m, At(m.id), now + horizon)
      ensures forall id :: At(id).marker.Some? && At(id).marker.value.scheduledFor <= now + horizon ==>
                DueMarker(id, At(id).marker.value) in due
                || (|due| == limit && forall m :: m in due ==> m.marker.scheduledFor <= At(id).marker.value.scheduledFor)
    {
      due := [];
      var rest := set id | id in markers && markers[id].scheduledFor <= now + horizon;
      while |due| < limit && rest != {}
        invariant |due| <= limit && InDueOrder(due) && rest <= markers.Keys
        invariant forall m :: m in due ==>
                    m.id in markers && m.id !in rest && m.marker == markers[m.id] && m.marker.scheduledFor <= now + horizon
        invariant forall m, id :: m in due && id in rest ==> m.marker.scheduledFor <= markers[id].scheduledFor
        invariant forall id :: id in markers && markers[id].scheduledFor <= now + horizon ==>
                    id in rest || DueMarker(id, markers[id]) in due
        invariant forall id :: id in rest ==> markers[id].scheduledFor <= now + horizon
        decreases rest
      {
        var id := EarliestMarker(rest);
        due := due + [DueMarker(id, markers[id])];
        rest := rest - {id};
      }
    }

    method LeaseDispatch(now: nat, id: string, window: string, owner: string, lease: nat) returns (r: DispatchResult)
      modifies this
      ensures var (next, result) := ClaimDispatch(old(At(id)), id, now, window, owner, lease);
              Moved(id, next, None) && r == result
    {
      if id !in watches || watches[id].status.IsTerminal() || id !in markers || markers[id].window != window {
        return DispatchStale;
      }
      if id in dispatchLeases && dispatchLeases[id].window == window && dispatchLeases[id].expiresAt > now {
        return DispatchBusy;
      }
      var generation := (if id in dispatchFence then dispatchFence[id] else 0) + 1;
      dispatchFence := dispatchFence[id := generation];
      dispatchLeases := dispatchLeases[id := DispatchLease(window, owner, generation, now + lease)];
      r := Dispatching(DispatchClaim(id, window, markers[id].scheduledFor, owner, generation, now + lease));
    }

    method Mark(claim: DispatchClaim, redispatchAfter: nat) returns (marked: bool)
      modifies this
      ensures var (next, result) := MarkDispatched(old(At(claim.id)), claim, redispatchAfter);
              Moved(claim.id, next, None) && marked == result
    {
      if claim.id !in dispatchLeases {
        return false;
      }
      var held := dispatchLeases[claim.id];
      if held.generation != claim.generation || held.owner != claim.owner {
        return false;
      }
      dispatchLeases := dispatchLeases[claim.id := held.(expiresAt := redispatchAfter)];
      return true;
    }

    method Unlease(claim: DispatchClaim) returns (released: bool)
      modifies this
      ensures var (next, result) := ReleaseDispatch(old(At(claim.id)), claim);
              Moved(claim.id, next, None) && released == result
    {
      if claim.id in dispatchLeases && dispatchLeases[claim.id].generation == claim.generation
         && dispatchLeases[claim.id].owner == claim.owner
      {
        dispatchLeases := dispatchLeases - {claim.id};
        return true;
      }
      return false;
    }

    /** Drop due records, earliest deadline first, at most `batch` of them. */
    method CleanupDue(now: nat, batch: nat) returns (removed: nat, remaining: bool, ghost taken: set<string>, ghost gone: set<string>)
      modifies this
      ensures FillsBatch(taken, (set id | id in old(terminalDeleteAt) && old(terminalDeleteAt)[id] <= now), batch)
      ensures LowestFirst(old(terminalDeleteAt), taken, now)
      ensures forall id :: AfterCleanup(old(At(id)), At(id), id in taken, id in gone)
      ensures removed == |gone|
      ensures remaining <==> exists id :: id in terminalDeleteAt && terminalDeleteAt[id] <= now
      ensures events == old(events)
    {
      var due := RangeByScore(terminalDeleteAt, now, batch);
      taken := due;
      removed, gone := CleanAll(due);
      remaining := exists id :: id in terminalDeleteAt && terminalDeleteAt[id] <= now;
    }

    method CleanAll(due: set<string>) returns (removed: nat, ghost gone: set<string>)
      modifies this
      ensures forall id :: AfterCleanup(old(At(id)), At(id), id in due, id in gone)
      ensures removed == |gone| && events == old(events)
    {
      hide *;
      removed, gone := 0, {};
      var rest := due;
      forall id ensures AfterCleanup(old(At(id)), At(id), id in due - rest, id in gone) {
        NotCleaned(At(id));
      }
      while rest != {}
        invariant rest <= due
        invariant forall id :: AfterCleanup(old(At(id)), At(id), id in due - rest, id in gone)
        invariant removed == |gone| && events == old(events)
        decreases rest
      {
        var id :| id in rest;
        ghost var was := At(id);
        WasUntouched(old(At(id)), was, id in gone);
        var finished := CleanOne(id);
        IsCleaned(was);
        rest := rest - {id};
        removed, gone := Count(removed, gone, id, finished);
      }
      assert due - rest == due;
    }

    method CleanOne(id: string) returns (finished: bool)
      modifies this
      ensures At(id) == Cleaned(old(At(id))) && finished == old(At(id)).IsFinished()
      ensures forall other :: other != id ==> At(other) == old(At(other))
      ensures events == old(events)
    {
      if id !in watches || watches[id].status == Active {
        terminalDeleteAt := terminalDeleteAt - {id};
        return false;
      }
      watches, runtimes, fence, claims := watches - {id}, runtimes - {id}, fence - {id}, claims - {id};
      dispatchFence, dispatchLeases := dispatchFence - {id}, dispatchLeases - {id};
      markers, terminalDeleteAt := markers - {id}, terminalDeleteAt - {id};
      return true;
    }

    method OwnsNow(now: nat, claim: WindowClaim, current: Runtime) returns (owned: bool)
      requires Get(runtimes, claim.watch.id) == Some(current)
      ensures owned == Owns(At(claim.watch.id), claim, now)
    {
      if current.revision != claim.runtime.revision {
        return false;
      }
      var id := claim.watch.id;
      owned := id in claims && claims[id].token == claim.token && claims[id].owner == claim.owner
        && claims[id].expiresAt > now;
    }

    method StoreTerminal(now: nat, id: string, terminalWatch: Watch) returns (revision: nat)
      modifies this
      ensures var (next, result) := ApplyTerminal(old(At(id)), now, retention, terminalWatch);
              Moved(id, next, None) && revision == result
    {
      revision := 0;
      var deadline := now + retention;
      watches := watches[id := terminalWatch];
      if id in runtimes {
        revision := runtimes[id].revision + 1;
        runtimes := runtimes[id := runtimes[id].(
          revision := revision, window := None, scheduledFor := None, phase := None,
          cancelRequested := false, deleteAt := Some(deadline))];
      }
      claims := claims - {id};
      Unschedule(id, deadline);
    }

    /** The three writes every committed window makes. */
    method StoreWindow(id: string, watch: Watch, runtime: Runtime)
      modifies this
      ensures Moved(id, old(At(id)).(watch := Some(watch), runtime := Some(runtime), claim := None), None)
    {
      watches := watches[id := watch];
      runtimes := runtimes[id := runtime];
      claims := claims - {id};
    }

    /** What every terminal transition drops, and the retention deadline it earns. */
    method Unschedule(id: string, deadline: nat)
      modifies this
      ensures Moved(id, old(At(id)).(dispatch := None, marker := None, deleteAt := Some(deadline)), None)
    {
      markers := markers - {id};
      dispatchLeases := dispatchLeases - {id};
      terminalDeleteAt := terminalDeleteAt[id := deadline];
    }

    method IssueEvent(id: string, status: Status, revision: nat) returns (event: Option<EventId>)
      modifies this`events
      ensures event == TerminalEvent(id, status, revision)
      ensures forall k :: At(k) == old(At(k))
      ensures events == old(events) + (if event.Some? then {event.value} else {})
    {
      if status !in {Found, Booked, Expired} {
        return None;
      }
      event := Some(EventId(id, status, revision));
      events := events + {event.value};
    }
  }
}
