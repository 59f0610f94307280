/** What one poll decides, and the document and sidecar it commits for each decision
    (backend/services/watch_service.py:408-480, 560-681, 749-846). */
module PollPlans {
  import opened Wrappers
  import opened Watches
  import opened WatchCells
  import opened PollTiming

  const MAX_RECORDED_SLOTS: nat := 16

  /** The bounded provider sequence ends in one of these; only then is anything committed. */
  datatype Plan =
    | Miss
    | Outage(error: string)
    | Offer(slots: seq<Slot>)
    | Reserve(confirmation: Confirmation, attempted: bool)
    | Withdraw
    | Lapse
    | Yield

  function Attempted(watch: Watch): nat {
    Min(watch.attempts + 1, watch.maxAttempts)
  }

  function FoundWatch(watch: Watch, slots: seq<Slot>, now: nat): Watch {
    watch.(status := Found, nextCheckAt := None, updatedAt := now, attempts := Attempted(watch),
           foundSlots := if |slots| <= MAX_RECORDED_SLOTS then slots else slots[..MAX_RECORDED_SLOTS],
           lastCheckedAt := Some(now), lastError := None)
  }

  function BookedWatch(watch: Watch, now: nat, confirmation: Confirmation, attempted: bool): Watch {
    var booked := watch.(status := Booked, foundSlots := [confirmation.slot], booking := Some(confirmation),
                         nextCheckAt := None, updatedAt := now);
    if attempted then booked.(attempts := Attempted(watch), lastCheckedAt := Some(now), lastError := None) else booked
  }

  function ExpiredWatch(watch: Watch, now: nat, attempted: bool): Watch {
    var expired := watch.(status := Expired, nextCheckAt := None, updatedAt := now);
    if attempted then expired.(lastCheckedAt := Some(now)) else expired
  }

  /** The sidecar a poll writes when it finishes a watch. */
  function ClosedRuntime(seen: Runtime): Runtime {
    seen.(window := None, scheduledFor := None, phase := None, cancelRequested := false, outages := 0)
  }

  /** The sidecar of the one successor window. */
  function NextRuntime(id: string, seen: Runtime, scheduled: nat, outages: nat): Runtime {
    seen.(cadence := seen.cadence + 1, window := Some(WindowIdFor(id, seen.cadence + 1)),
          scheduledFor := Some(scheduled), phase := None, cancelRequested := false, outages := outages)
  }

  function MissDelay(p: Pacing, watch: Watch, now: nat, offset: int): int {
    Min(p.NextDelay(offset), watch.expiresAt - now)
  }

  function CommitMiss(p: Pacing, claim: WindowClaim, now: nat, offset: int): (Watch, Runtime) {
    var watch := claim.watch;
    var attempted := watch.(attempts := Attempted(watch), lastCheckedAt := Some(now), updatedAt := now, lastError := None);
    var delay := MissDelay(p, watch, now, offset);
    if attempted.attempts >= watch.maxAttempts || delay < MIN_DELAY then
      (ExpiredWatch(attempted, now, true), ClosedRuntime(claim.runtime))
    else
      (attempted.(nextCheckAt := Some(now + delay)), NextRuntime(watch.id, claim.runtime, now + delay, 0))
  }

  function CommitOutage(p: Pacing, claim: WindowClaim, now: nat, error: string, offset: int): (Watch, Runtime)
    requires p.Valid() && p.Draws(offset)
  {
    var watch := claim.watch;
    var outages := SaturatingOutages(p, claim.runtime.outages + 1);
    OutageDelayBounds(p, outages, now, watch.expiresAt, offset);
    match OutageDelay(p, outages, now, watch.expiresAt, offset)
    case None => (ExpiredWatch(watch, now, false), ClosedRuntime(claim.runtime))
    case Some(delay) =>
      (watch.(lastCheckedAt := Some(now), updatedAt := now, lastError := Some(error), nextCheckAt := Some(now + delay)),
       NextRuntime(watch.id, claim.runtime, now + delay, outages))
  }

  /** The document and sidecar handed to the one atomic commit. */
  function Decide(p: Pacing, claim: WindowClaim, now: nat, plan: Plan, offset: int): (Watch, Runtime)
    requires p.Valid() && p.Draws(offset)
  {
    var closed := ClosedRuntime(claim.runtime);
    match plan
    case Miss => CommitMiss(p, claim, now, offset)
    case Outage(error) => CommitOutage(p, claim, now, error, offset)
    case Offer(slots) => (FoundWatch(claim.watch, slots, now), closed)
    case Reserve(confirmation, attempted) => (BookedWatch(claim.watch, now, confirmation, attempted), closed)
    case Withdraw => (Finish(claim.watch, Cancelled, now), closed)
    case Lapse => (ExpiredWatch(claim.watch, now, false), closed)
    case Yield => (claim.watch, claim.runtime)
  }

  // -- what an open watch always looks like ----------------------------------------

  /** The facts of a watch that never change. */
  datatype Terms = Terms(id: string, autoBook: bool, createdAt: nat, expiresAt: nat, maxAttempts: nat)

  predicate Keeps(t: Terms, watch: Watch) {
    && watch.id == t.id && watch.autoBook == t.autoBook && watch.createdAt == t.createdAt
    && watch.expiresAt == t.expiresAt && watch.maxAttempts == t.maxAttempts
  }

  /** Document and sidecar of an active watch agree on one current window, due by the deadline. */
  predicate Open(t: Terms, watch: Watch, runtime: Runtime) {
    && Keeps(t, watch) && watch.status == Active && watch.ValidState()
    && runtime.cadence == runtime.revision
    && runtime.window == Some(WindowIdFor(t.id, runtime.cadence))
    && watch.nextCheckAt.Some? && watch.nextCheckAt.value <= t.expiresAt
    && runtime.scheduledFor == watch.nextCheckAt
    && runtime.deleteAt.None?
    && watch.attempts <= runtime.revision
  }

  /** Document and sidecar of a finished watch have nothing left to run. */
  predicate Closed(t: Terms, watch: Watch, runtime: Runtime) {
    && Keeps(t, watch) && watch.status.IsTerminal() && watch.ValidState()
    && runtime.window.None? && runtime.scheduledFor.None? && runtime.phase.None? && !runtime.cancelRequested
  }

  predicate Sensible(plan: Plan) {
    && !plan.Yield?
    && (plan.Offer? ==> plan.slots != [])
  }

  /** Whatever a poll decides, model_copy leaves a valid document: open with exactly one later
      window due by the deadline, or closed; the cadence advances by exactly one. */
  lemma DecisionIsValid(t: Terms, p: Pacing, claim: WindowClaim, now: nat, plan: Plan, offset: int)
    requires p.Valid() && p.Draws(offset) && Sensible(plan)
    requires Open(t, claim.watch, claim.runtime)
    ensures var (watch, runtime) := Decide(p, claim, now, plan, offset);
            var stored := runtime.(revision := claim.runtime.revision + 1, phase := None);
            && (watch.status == Active ==> Open(t, watch, stored) && watch.nextCheckAt.value > now)
            && (watch.status.IsTerminal() ==> Closed(t, watch, stored))
  {
    if plan.Outage? {
      OutageDelayBounds(p, SaturatingOutages(p, claim.runtime.outages + 1), now, t.expiresAt, offset);
    }
  }

  /** Which decision finishes a watch, and how. */
  lemma DecisionStatus(p: Pacing, claim: WindowClaim, now: nat, plan: Plan, offset: int)
    requires p.Valid() && p.Draws(offset) && claim.watch.status == Active && !plan.Yield?
    ensures var status := Decide(p, claim, now, plan, offset).0.status;
            && (status == Found <==> plan.Offer?)
            && (status == Booked <==> plan.Reserve?)
            && (status == Cancelled <==> plan.Withdraw?)
            && (plan.Lapse? ==> status == Expired)
            && (plan.Outage? ==> (status == Expired <==> claim.watch.expiresAt - now < MIN_DELAY))
            && (plan.Miss? ==> (status == Expired <==> claim.watch.attempts + 1 >= claim.watch.maxAttempts
                                                       || claim.watch.expiresAt - now < MIN_DELAY))
  {
    OutageDelayBounds(p, SaturatingOutages(p, claim.runtime.outages + 1), now, claim.watch.expiresAt, offset);
  }

  /** Only a search that was answered costs an attempt; an outage is counted apart, up to the point
      where counting further could not change a delay, and any answer clears that count. */
  lemma DecisionBudget(p: Pacing, claim: WindowClaim, now: nat, plan: Plan, offset: int)
    requires p.Valid() && p.Draws(offset) && !plan.Yield? && claim.watch.attempts < claim.watch.maxAttempts
    ensures var (watch, runtime) := Decide(p, claim, now, plan, offset);
            var answered := plan.Miss? || plan.Offer? || (plan.Reserve? && plan.attempted);
            && watch.attempts == claim.watch.attempts + (if answered then 1 else 0)
            && (answered ==> watch.lastCheckedAt == Some(now) && watch.lastError.None?)
            && (watch.status == Active ==>
                  runtime.outages == if plan.Outage? then SaturatingOutages(p, claim.runtime.outages + 1) else 0)
            && (plan.Outage? && watch.status == Active ==> watch.lastError == Some(plan.error))
            && (plan.Reserve? ==> watch.booking == Some(plan.confirmation) && watch.foundSlots == [plan.confirmation.slot])
            && (plan.Offer? ==> watch.foundSlots <= plan.slots && |watch.foundSlots| <= MAX_RECORDED_SLOTS)
  {
    OutageDelayBounds(p, SaturatingOutages(p, claim.runtime.outages + 1), now, claim.watch.expiresAt, offset);
  }

  /** What a decision stamps and what it leaves as it was: the terms of the watch and the policy in its sidecar never
      move; the check is dated and the last error settled by an answer or by an outage that goes on; slots and booking
      change only with the status that reports them; and no phase and no cancellation request outlives a commit. */
  lemma DecisionStamps(p: Pacing, claim: WindowClaim, now: nat, plan: Plan, offset: int)
    requires p.Valid() && p.Draws(offset) && !plan.Yield? && claim.watch.status == Active
    ensures var (watch, runtime) := Decide(p, claim, now, plan, offset);
            var seen, was := claim.watch, claim.runtime;
            var answered := plan.Miss? || plan.Offer? || (plan.Reserve? && plan.attempted);
            var goesOn := plan.Outage? && watch.status == Active;
            && watch.id == seen.id && watch.autoBook == seen.autoBook && watch.createdAt == seen.createdAt
            && watch.expiresAt == seen.expiresAt && watch.maxAttempts == seen.maxAttempts && watch.updatedAt == now
            && watch.lastCheckedAt == (if answered || goesOn then Some(now) else seen.lastCheckedAt)
            && watch.lastError == (if answered then None else if goesOn then Some(plan.error) else seen.lastError)
            && (!plan.Offer? && !plan.Reserve? ==> watch.foundSlots == seen.foundSlots)
            && (!plan.Reserve? ==> watch.booking == seen.booking)
            && runtime.requiredAttempts == was.requiredAttempts && runtime.supportsDeadline == was.supportsDeadline
            && (watch.status != Active ==> runtime.outages == 0) && runtime.deleteAt == was.deleteAt
            && runtime.phase.None? && !runtime.cancelRequested
  {
    OutageDelayBounds(p, SaturatingOutages(p, claim.runtime.outages + 1), now, claim.watch.expiresAt, offset);
    hide OutageDelay, SaturatingOutages;
  }

  /** An open successor is scheduled no sooner than the earliest delay, unless at the deadline. */
  lemma SuccessorIsSpaced(t: Terms, p: Pacing, claim: WindowClaim, now: nat, plan: Plan, offset: int)
    requires p.Valid() && p.Draws(offset) && Sensible(plan) && p.interval >= MIN_DELAY
    requires Open(t, claim.watch, claim.runtime)
    ensures var next := Decide(p, claim, now, plan, offset).0;
            next.status == Active ==>
              next.nextCheckAt.Some? && next.nextCheckAt.value >= Min(now + p.EarliestDelay(), t.expiresAt)
  {
    EarliestIsTight(p, offset);
    OutageDelayBounds(p, SaturatingOutages(p, claim.runtime.outages + 1), now, t.expiresAt, offset);
  }

  /** Where the check after a miss may lie: from the earliest to the latest delay, ending at the deadline. */
  predicate FollowsMiss(p: Pacing, at: nat, expiresAt: nat, due: nat) {
    Min(at + p.EarliestDelay(), expiresAt) <= due <= Min(at + Max(MIN_DELAY, p.interval + p.jitter), expiresAt)
  }

  /** Where the check after the n-th outage in a row may lie: within the jitter of its backoff, inside the
      floor and the cap, ending at the deadline. */
  predicate FollowsOutage(p: Pacing, outages: nat, at: nat, expiresAt: nat, due: nat)
    requires outages > 0
  {
    && Min(at + Min(Max(MIN_DELAY, Backoff(p, outages) - p.jitter), p.maximum), expiresAt) <= due
    && due <= Min(at + Min(Max(MIN_DELAY, Backoff(p, outages) + p.jitter), p.maximum), expiresAt)
  }

  lemma MissIsPunctual(p: Pacing, claim: WindowClaim, now: nat, offset: int)
    requires p.Valid() && p.Draws(offset)
    ensures var next, aim := CommitMiss(p, claim, now, offset).0, now + Max(MIN_DELAY, p.interval + offset);
            next.status == Active ==>
              && next.nextCheckAt.Some? && next.lastCheckedAt == Some(now)
              && FollowsMiss(p, now, claim.watch.expiresAt, next.nextCheckAt.value)
              && (aim <= claim.watch.expiresAt ==> next.nextCheckAt.value == aim)
  {
    EarliestIsTight(p, offset);
  }

  lemma OutageIsPunctual(p: Pacing, claim: WindowClaim, now: nat, error: string, offset: int)
    requires p.Valid() && p.Draws(offset)
    ensures var next, outages := CommitOutage(p, claim, now, error, offset).0, claim.runtime.outages + 1;
            next.status == Active ==>
              && next.nextCheckAt.Some? && next.lastCheckedAt == Some(now)
              && FollowsOutage(p, outages, now, claim.watch.expiresAt, next.nextCheckAt.value)
              && (MIN_DELAY <= Backoff(p, outages) + offset <= Min(p.maximum, claim.watch.expiresAt - now) ==>
                    next.nextCheckAt.value == now + Backoff(p, outages) + offset)
  {
    var outages := claim.runtime.outages + 1;
    OutageDelayBounds(p, SaturatingOutages(p, outages), now, claim.watch.expiresAt, offset);
    hide OutageDelay, SaturatingOutages, Backoff;
    if claim.watch.expiresAt - now >= MIN_DELAY {
      SaturationIsInvisible(p, outages, now, claim.watch.expiresAt, offset);
      OutageDelayIs(p, outages, now, claim.watch.expiresAt, offset);
    }
  }

  /** The successor of a miss is due exactly the drawn delay after the poll, that of the n-th outage its
      jittered backoff after it, and either at the deadline where lifetime runs out first. */
  lemma SuccessorIsPunctual(p: Pacing, claim: WindowClaim, now: nat, plan: Plan, offset: int)
    requires p.Valid() && p.Draws(offset) && (plan.Miss? || plan.Outage?)
    ensures var next := Decide(p, claim, now, plan, offset).0;
            var expiresAt, outages := claim.watch.expiresAt, claim.runtime.outages + 1;
            next.status == Active ==>
              && next.nextCheckAt.Some? && next.lastCheckedAt == Some(now)
              && (plan.Miss? ==>
                    && FollowsMiss(p, now, expiresAt, next.nextCheckAt.value)
                    && (now + Max(MIN_DELAY, p.interval + offset) <= expiresAt ==>
                          next.nextCheckAt.value == now + Max(MIN_DELAY, p.interval + offset)))
              && (plan.Outage? ==>
                    && FollowsOutage(p, outages, now, expiresAt, next.nextCheckAt.value)
                    && (MIN_DELAY <= Backoff(p, outages) + offset <= Min(p.maximum, expiresAt - now) ==>
                          next.nextCheckAt.value == now + Backoff(p, outages) + offset))
  {
    hide CommitMiss, CommitOutage, Backoff, FollowsMiss, FollowsOutage;
    match plan {
      case Miss => MissIsPunctual(p, claim, now, offset);
      case Outage(error) => OutageIsPunctual(p, claim, now, error, offset);
    }
  }
}
