/** What one store operation means for the next: the protocol a claim, a permit, a commit, a cancellation and an expiry
    follow on one watch (backend/db/repositories/watches.py:353-745). */
module CellLaws {
  import opened Wrappers
  import opened Watches
  import opened WatchCells

  /** Whose turn it is to work on the current window: nobody's, or the holder's of this claim until its lease ends. */
  predicate HeldBy(c: Cell, claim: WindowClaim, now: nat) {
    && c.IsActive() && c.runtime.Some? && Owns(c, claim, now)
    && c.claim.value.window == claim.window && c.claim.value.expiresAt == claim.leaseExpiresAt
    && c.runtime.value.window == Some(claim.window)
  }

  /** Equal but for who claims the window and how many claims there have been. */
  predicate SameButClaim(a: Cell, b: Cell) {
    b.(claim := a.claim, fence := a.fence) == a
  }

  /** A claim that is granted is held for exactly its lease, under the next token; one that is not changes nothing. */
  lemma ClaimHolds(c: Cell, now: nat, window: string, owner: string, lease: nat, ignoreSchedule: bool, later: nat)
    requires Coherent(c, now) && now <= later
    ensures var (d, r) := ClaimWindow(c, now, window, owner, lease, ignoreSchedule);
            && SameButClaim(c, d)
            && (r.Owned? ==>
                  && d.fence == c.fence + 1 && r.claim.token == d.fence && r.claim.owner == owner && r.claim.window == window
                  && c.watch == Some(r.claim.watch) && c.runtime == Some(r.claim.runtime)
                  && (HeldBy(d, r.claim, later) <==> later < now + lease)
                  && (d.HasLiveClaim(later) <==> later < now + lease))
            && (!r.Owned? ==> d == c)
  {
  }

  /** Each refusal means what it says. */
  lemma RefusalsMean(c: Cell, now: nat, window: string, owner: string, lease: nat, ignoreSchedule: bool)
    requires Coherent(c, now)
    ensures var r := ClaimWindow(c, now, window, owner, lease, ignoreSchedule).1;
            && (r.Unknown? <==> c.watch.None?)
            && (r.Finished? <==> c.IsFinished())
            && (r.Stale? <==> c.IsActive() && c.runtime.value.window != Some(window))
            && (r.Early? <==> c.IsActive() && c.runtime.value.window == Some(window) && !ignoreSchedule
                              && c.runtime.value.scheduledFor.Some? && c.runtime.value.scheduledFor.value > now)
            && (r.Busy? ==> c.HasLiveClaim(now))
  {
  }

  /** While a claim is held nobody else gets the window, and once its holder releases it anybody does, under the next
      token; a release by anyone else changes nothing. */
  lemma ReleaseFrees(c: Cell, claim: WindowClaim, now: nat, owner: string, lease: nat)
    requires Coherent(c, now) && HeldBy(c, claim, now)
    ensures ClaimWindow(c, now, claim.window, owner, lease, true).1.Busy?
    ensures var (d, released) := ReleaseClaim(c, claim);
            && released && SameButClaim(c, d) && d.fence == c.fence && !d.HasLiveClaim(now)
            && var (e, r) := ClaimWindow(d, now, claim.window, owner, lease, true);
               r.Owned? && r.claim.token == claim.token + 1 && r.claim.owner == owner && !Owns(e, claim, now)
  {
  }

  lemma ReleaseIsOwn(c: Cell, claim: WindowClaim)
    requires c.claim.None? || c.claim.value.token != claim.token || c.claim.value.owner != claim.owner
    ensures ReleaseClaim(c, claim) == (c, false)
  {
  }

  /** A permit is the holder's for the asking until a cancellation has been requested, and marks nothing but the phase. */
  lemma PermitMeans(c: Cell, claim: WindowClaim, now: nat)
    ensures var (d, r) := BeginBooking(c, now, claim);
            && (r.Granted? || r.Withdrawn? <==> c.IsActive() && Owns(c, claim, now))
            && (r.Withdrawn? ==> c.runtime.value.cancelRequested && d == c)
            && (r.Granted? ==>
                  && !c.runtime.value.cancelRequested && d.runtime.Some? && d.runtime.value.phase == Some(Booking)
                  && d.(runtime := Some(d.runtime.value.(phase := c.runtime.value.phase))) == c)
            && (r.Fenced? ==> d == c)
  {
  }

  /** A cancellation either ends the watch at once, or, while a booking is under way, is only recorded: then the watch
      stays active, a permit asked for again is withdrawn, and the holder's commit still goes through. */
  lemma CancelMeans(c: Cell, now: nat, retention: nat, claim: WindowClaim, newWatch: Watch, newRuntime: Runtime)
    requires Coherent(c, now) && c.IsActive()
    ensures var (d, r) := CancelIfActive(c, now, retention);
            var booking := c.runtime.value.phase == Some(Booking);
            && (r.status == Applied <==> !booking) && (r.status == NotEligible <==> booking) && r.event.None?
            && (booking ==>
                  && d.IsActive() && d.watch == c.watch && r.watch == c.watch && d.runtime.Some? && d.runtime.value.cancelRequested
                  && d.(runtime := Some(d.runtime.value.(cancelRequested := c.runtime.value.cancelRequested))) == c
                  && (Owns(c, claim, now) ==>
                        && BeginBooking(d, now, claim).1.Withdrawn?
                        && CommitWindow(d, now, retention, claim, newWatch, newRuntime).1.status == Committed))
            && (!booking ==>
                  && r.watch == d.watch == Some(c.watch.value.(status := Cancelled, nextCheckAt := None, updatedAt := now))
                  && r.revision == c.runtime.value.revision + 1 && Ended(d, r.revision, now + retention)
                  && CommitWindow(d, now, retention, claim, newWatch, newRuntime).1
                     == CommitResult(CommitFinished, d.watch, None))
  {
  }

  /** A finished watch: nothing scheduled or held, one retention deadline. */
  predicate Ended(c: Cell, revision: int, deadline: nat) {
    && c.IsFinished() && c.claim.None? && c.marker.None? && c.dispatch.None? && c.deleteAt == Some(deadline)
    && c.runtime.Some? && c.runtime.value.revision == revision && c.runtime.value.deleteAt == c.deleteAt
    && c.runtime.value.window.None? && c.runtime.value.scheduledFor.None? && c.runtime.value.phase.None?
  }

  /** Expiry ends a watch exactly when it is exhausted or forced, unless the caller read an older revision; the one
      event names that transition. */
  lemma ExpireMeans(c: Cell, id: string, now: nat, retention: nat, expected: Option<nat>, force: bool)
    requires Coherent(c, now) && c.IsActive()
    ensures var (d, r) := ExpireIfEligible(c, id, now, retention, expected, force);
            var stale := expected.Some? && expected.value != c.runtime.value.revision;
            && (r.status == Outrun <==> stale)
            && (r.status == NotEligible <==> !stale && !force && !c.watch.value.IsExhausted(now))
            && (r.status == Applied <==> !stale && (force || c.watch.value.IsExhausted(now)))
            && (r.status != Applied ==> d == c && r.event.None?)
            && (r.status == Applied ==>
                  && r.watch == d.watch == Some(c.watch.value.(status := Expired, nextCheckAt := None, updatedAt := now))
                  && r.revision == c.runtime.value.revision + 1 && Ended(d, r.revision, now + retention)
                  && r.event == Some(EventId(id, Expired, c.runtime.value.revision + 1)))
  {
  }

  /** Once a watch is finished every operation says so and leaves it, and only its creation is refused with it. */
  lemma FinishedRefuses(c: Cell, id: string, now: nat, retention: nat, window: string, owner: string, lease: nat,
                        claim: WindowClaim, watch: Watch, runtime: Runtime)
    requires Coherent(c, now) && c.IsFinished()
    ensures ClaimWindow(c, now, window, owner, lease, true) == (c, Finished)
    ensures BeginBooking(c, now, claim) == (c, Fenced)
    ensures CommitWindow(c, now, retention, claim, watch, runtime) == (c, CommitResult(CommitFinished, c.watch, None))
    ensures CancelIfActive(c, now, retention) == (c, Transition(Noop, c.watch, None, -1))
    ensures ExpireIfEligible(c, id, now, retention, None, true) == (c, Transition(Noop, c.watch, None, -1))
    ensures SynthesizeMarker(c, now, runtime) == (c, false)
    ensures ClaimDispatch(c, id, now, window, owner, lease) == (c, DispatchStale)
    ensures Create(c, watch, runtime) == (c, AlreadyExists(c.watch.value, c.runtime))
  {
  }

  /** The holder's commit stores its document at the next revision and gives the window up; what it stores decides
      whether the watch ends, with its one event, or goes on with the one marker its sidecar names. */
  lemma CommitMeans(c: Cell, now: nat, retention: nat, claim: WindowClaim, watch: Watch, runtime: Runtime)
    requires Coherent(c, now) && c.IsActive()
    ensures var (d, r) := CommitWindow(c, now, retention, claim, watch, runtime);
            && (r.status == Committed <==> Owns(c, claim, now))
            && (r.status != Committed ==> d == c && r == CommitResult(CommitFenced, None, None))
            && (r.status == Committed ==>
                  && r.watch == d.watch == Some(watch) && d.claim.None? && d.fence == c.fence
                  && d.runtime.Some? && d.runtime.value.revision == c.runtime.value.revision + 1 && d.runtime.value.phase.None?
                  && (watch.status == Active ==>
                        && r.event.None? && d.dispatch == c.dispatch && d.deleteAt == c.deleteAt
                        && d.runtime.value == runtime.(revision := c.runtime.value.revision + 1, phase := None)
                        && (d.marker.Some? <==> runtime.window.Some? && runtime.scheduledFor.Some?)
                        && (d.marker.Some? ==> runtime.window == Some(d.marker.value.window)
                                               && runtime.scheduledFor == Some(d.marker.value.scheduledFor)))
                  && (watch.status != Active ==>
                        && d.marker.None? && d.dispatch.None? && d.deleteAt == Some(now + retention) == d.runtime.value.deleteAt
                        && (r.event.Some? <==> watch.status != Cancelled)
                        && (r.event.Some? ==>
                              r.event.value == EventId(claim.watch.id, watch.status, c.runtime.value.revision + 1))))
  {
  }

  /** What a commit schedules is what can be claimed next, from its due time on, and no window before it. */
  lemma SuccessorIsClaimable(c: Cell, now: nat, retention: nat, claim: WindowClaim, watch: Watch, runtime: Runtime,
                             later: nat, window: string, owner: string, lease: nat)
    requires Coherent(c, now) && c.IsActive() && Owns(c, claim, now) && watch.status == Active && now <= later
    requires runtime.window.Some? && runtime.scheduledFor.Some?
    ensures var d := CommitWindow(c, now, retention, claim, watch, runtime).0;
            ClaimWindow(d, later, window, owner, lease, false).1.Owned?
            <==> window == runtime.window.value && runtime.scheduledFor.value <= later
  {
  }

  /** A new watch can be claimed as its sidecar says; creating it again changes nothing. */
  lemma CreateMeans(c: Cell, watch: Watch, runtime: Runtime, now: nat, window: string, owner: string, lease: nat)
    requires c.watch.None? && Coherent(c, now) && watch.status == Active
    ensures var (d, r) := Create(c, watch, runtime);
            && r == Created(watch, runtime) && d.watch == Some(watch) && d.runtime == Some(runtime) && d.fence == 0
            && d.claim.None? && d.dispatch.None? && d.deleteAt.None?
            && (d.marker.Some? <==> runtime.window.Some? && runtime.scheduledFor.Some?)
            && (d.marker.Some? ==> runtime.window == Some(d.marker.value.window)
                                   && runtime.scheduledFor == Some(d.marker.value.scheduledFor))
            && Create(d, watch, runtime) == (d, AlreadyExists(watch, Some(runtime)))
            && (ClaimWindow(d, now, window, owner, lease, false).1.Owned? <==>
                  runtime.window == Some(window) && (runtime.scheduledFor.None? || runtime.scheduledFor.value <= now))
  {
  }

  /** A repair gives an active, unclaimed, unmarked watch the marker its sidecar names, and nothing else moves. */
  lemma RepairMeans(c: Cell, now: nat, runtime: Runtime)
    ensures var (d, repaired) := SynthesizeMarker(c, now, runtime);
            var open := c.IsActive() && !c.HasLiveClaim(now) && c.marker.None?;
            && (repaired <==> open && runtime.window.Some? && runtime.scheduledFor.Some?)
            && (!open ==> d == c)
            && (open ==> d.runtime == Some(runtime) && d.(runtime := c.runtime, marker := None) == c)
            && (repaired ==> d.marker == Some(Marker(runtime.window.value, runtime.scheduledFor.value)))
  {
  }

  /** The right to publish a window is one holder's until its lease, or the redispatch time it was deferred to; released,
      it is free at once, and every grant carries the next generation. */
  lemma DispatchMeans(c: Cell, id: string, now: nat, window: string, owner: string, lease: nat, later: nat, other: string,
                      after: nat)
    requires Coherent(c, now) && now <= later
    ensures var (d, r) := ClaimDispatch(c, id, now, window, owner, lease);
            && d.(dispatch := c.dispatch, dispatchFence := c.dispatchFence) == c
            && (r.DispatchStale? <==> !c.IsActive() || c.marker.None? || c.marker.value.window != window)
            && (!r.Dispatching? ==> d == c)
            && (r.Dispatching? ==>
                  && r.claim.scheduledFor == c.marker.value.scheduledFor && r.claim.id == id && r.claim.window == window
                  && r.claim.generation == c.dispatchFence + 1 == d.dispatchFence
                  && (ClaimDispatch(d, id, later, window, other, lease).1.DispatchBusy? <==> later < now + lease)
                  && (later < after <==>
                        ClaimDispatch(MarkDispatched(d, r.claim, after).0, id, later, window, other, lease).1.DispatchBusy?)
                  && var next := ClaimDispatch(ReleaseDispatch(d, r.claim).0, id, later, window, other, lease).1;
                     next.Dispatching? && next.claim.generation == r.claim.generation + 1 && next.claim.owner == other)
  {
  }

  /** Nobody else's mark or release touches the right. */
  lemma DispatchIsOwn(c: Cell, claim: DispatchClaim, after: nat)
    requires c.dispatch.None? || c.dispatch.value.generation != claim.generation || c.dispatch.value.owner != claim.owner
    ensures MarkDispatched(c, claim, after) == (c, false) && ReleaseDispatch(c, claim) == (c, false)
  {
  }

  /** Pruning drops an unreadable record whole but for its dispatch history, and leaves a finished one to its retention. */
  lemma PruneMeans(c: Cell, watch: Watch, runtime: Runtime)
    ensures var d := Prune(c, true);
            && d.watch.None? && d.runtime.None? && d.claim.None? && d.marker.None? && d.fence == 0 && d.deleteAt.None?
            && d.dispatch == c.dispatch && d.dispatchFence == c.dispatchFence
            && Create(d, watch, runtime).1 == Created(watch, runtime)
    ensures Prune(c, false) == c
  {
  }

  /** Cleanup takes a finished watch whole, so that its id is free again, and nothing but the retention entry of any other. */
  lemma CleanupFrees(c: Cell, watch: Watch, runtime: Runtime)
    ensures c.IsFinished() ==> Cleaned(c).watch.None? && Create(Cleaned(c), watch, runtime).1 == Created(watch, runtime)
    ensures c.IsFinished() ==> Cleaned(c).claim.None? && Cleaned(c).marker.None? && Cleaned(c).dispatch.None? && Cleaned(c).fence == 0
    ensures !c.IsFinished() ==> Cleaned(c).deleteAt.None? && Cleaned(c).(deleteAt := c.deleteAt) == c
  {
  }
}
