/** How often a watch is really checked: what its history of misses and outages says about its counters, its next
    check and its end (backend/services/watch_service.py:560-705, backend/services/watch_policy.py:83-91). */
module PollRhythm {
  import opened Wrappers
  import opened Watches
  import opened WatchCells
  import opened CellRuns
  import opened MockCache
  import opened PollTiming
  import opened PollPlans
  import opened PollProtocol
  import opened PollSafety
  import opened PollGuarantees
  import opened PollAnswers
  import opened PollDeadline

  /** What went before: how many polls committed a miss, how many an outage, and how many outages came since
      the last answer. */
  datatype Tally = Tally(misses: nat, outages: nat, streak: nat)

  function Tallied(plan: Plan, tally: Tally): Tally {
    match plan
    case Miss => Tally(tally.misses + 1, tally.outages, 0)
    case Outage(_) => Tally(tally.misses, tally.outages + 1, tally.streak + 1)
    case _ => tally
  }

  /** A commit counts when its poll still owns the window. */
  function Count(w: World, step: Step, tally: Tally): Tally {
    if step.Commit? && At(w, step.p) && PcOf(w, step.p).Decided? && Owns(w.cell, w.pollers[step.p].claim, w.now)
    then Tallied(PcOf(w, step.p).plan, tally)
    else tally
  }

  function Counted(k: Setup, w: World, steps: seq<Step>, tally: Tally): Tally
    requires IsTrace(k, w, steps)
    decreases |steps|
  {
    if steps == [] then tally else Counted(k, Next(k, w, steps[0]), steps[1..], Count(w, steps[0], tally))
  }

  const NOTHING_YET := Tally(0, 0, 0)

  /** The next check lies where the last answer, or the outages since, put it. */
  predicate Scheduled(k: Setup, watch: Watch, tally: Tally) {
    && watch.nextCheckAt.Some?
    && if tally.misses + tally.outages == 0 then watch.nextCheckAt == Some(k.createdAt)
       else
         && watch.lastCheckedAt.Some?
         && if tally.streak == 0 then FollowsMiss(k.pacing, watch.lastCheckedAt.value, k.expiresAt, watch.nextCheckAt.value)
            else FollowsOutage(k.pacing, tally.streak, watch.lastCheckedAt.value, k.expiresAt, watch.nextCheckAt.value)
  }

  predicate InRhythm(k: Setup, c: Cell, tally: Tally)
    requires k.pacing.Valid()
  {
    && c.watch.Some? && c.runtime.Some? && tally.streak <= tally.outages
    && c.runtime.value.requiredAttempts == k.Policy().requiredAttempts
    && c.runtime.value.supportsDeadline == k.Policy().supportsDeadline
    && (c.IsActive() ==>
          && c.watch.value.attempts == tally.misses
          && c.runtime.value.revision == tally.misses + tally.outages
          && c.runtime.value.outages == SaturatingOutages(k.pacing, tally.streak)
          && Scheduled(k, c.watch.value, tally))
    && (c.watch.value.status == Expired ==>
          && c.watch.value.attempts == tally.misses
          && (c.watch.value.attempts >= c.watch.value.maxAttempts || c.watch.value.updatedAt + MIN_DELAY > k.expiresAt))
  }

  /** A saturated count schedules as the full count does. */
  lemma BackoffSaturates(p: Pacing, streak: nat)
    requires p.Valid()
    ensures var kept := SaturatingOutages(p, streak);
            && Backoff(p, kept + 1) == Backoff(p, streak + 1)
            && SaturatingOutages(p, kept + 1) == SaturatingOutages(p, streak + 1)
  {
    var kept := SaturatingOutages(p, streak);
    BaseIsCappedExponential(p, kept + 1);
    BaseIsCappedExponential(p, streak + 1);
    hide ExponentLimit;
  }

  lemma DecisionInRhythm(k: Setup, watch: Watch, runtime: Runtime, claim: WindowClaim, now: nat, plan: Plan, offset: int, tally: Tally)
    requires k.Valid() && k.pacing.Draws(offset) && Sensible(plan)
    requires claim.watch == watch && claim.runtime.outages == runtime.outages
    requires watch.status == Active && watch.expiresAt == k.expiresAt && watch.attempts <= watch.maxAttempts
    requires watch.attempts == tally.misses && runtime.outages == SaturatingOutages(k.pacing, tally.streak)
    requires plan.Lapse? <==> watch.IsExhausted(now)
    ensures var (next, _) := Decide(k.pacing, claim, now, plan, offset);
            var after := Tallied(plan, tally);
            && (next.status == Active ==> (plan.Miss? || plan.Outage?) && next.attempts == after.misses && Scheduled(k, next, after))
            && (next.status == Expired ==>
                  next.attempts == after.misses
                  && (next.attempts >= next.maxAttempts || next.updatedAt + MIN_DELAY > k.expiresAt))
  {
    BackoffSaturates(k.pacing, tally.streak);
    DecisionStatus(k.pacing, claim, now, plan, offset);
    ExpiredStamp(k.pacing, claim, now, plan, offset);
    if plan.Miss? || plan.Outage? {
      SuccessorIsPunctual(k.pacing, claim, now, plan, offset);
      hide Decide, SaturatingOutages, Backoff, FollowsMiss;
    } else {
      hide Decide, SaturatingOutages, Scheduled;
    }
  }

  /** Attempts and stamp of a decision that expires a watch. */
  lemma ExpiredStamp(p: Pacing, claim: WindowClaim, now: nat, plan: Plan, offset: int)
    requires p.Valid() && p.Draws(offset) && claim.watch.attempts <= claim.watch.maxAttempts && claim.watch.status == Active
    requires plan.Lapse? <==> claim.watch.IsExhausted(now)
    ensures var next := Decide(p, claim, now, plan, offset).0;
            && next.maxAttempts == claim.watch.maxAttempts
            && (next.status == Expired ==> next.updatedAt == now)
            && (plan.Miss? ==> next.attempts == claim.watch.attempts + 1)
            && (plan.Outage? || plan.Lapse? ==> next.attempts == claim.watch.attempts)
  {
    hide OutageDelay, SaturatingOutages;
  }

  lemma OutagesKept(p: Pacing, claim: WindowClaim, now: nat, plan: Plan, offset: int)
    requires p.Valid() && p.Draws(offset) && claim.watch.status == Active && !plan.Yield?
    ensures var (next, runtime) := Decide(p, claim, now, plan, offset);
            next.status == Active ==>
              runtime.outages == if plan.Miss? then 0 else SaturatingOutages(p, claim.runtime.outages + 1)
  {
    DecisionStatus(p, claim, now, plan, offset);
    hide OutageDelay, SaturatingOutages;
  }

  // -- every step -------------------------------------------------------------------------------------------

  lemma RhythmUnder(k: Setup, now: nat, c: Cell, op: CellOp, tally: Tally)
    requires k.Valid() && CellOK(k, now, c) && InRhythm(k, c, tally) && !op.OpCreate? && !op.OpCommit?
    requires op.OpExpire? ==> op.expected.None? && !op.force
    ensures InRhythm(k, Apply(c, k.id, now, k.retention, op), tally)
  {
    if c.IsActive() {
      OpenHasMarker(k, c);
    }
    hide SaturatingOutages, Scheduled, Derive;
  }

  /** What the owner's commit stores, sidecar included. */
  lemma StoredWhole(k: Setup, w: World, p: nat, offset: int)
    requires WorldOK(k, w) && MayCommit(k, w, p, offset) && Owns(w.cell, w.pollers[p].claim, w.now)
    ensures var x, c := w.pollers[p], DoCommit(k, w, p, offset).cell;
            var (watch, runtime) := Decide(k.pacing, x.claim, x.at, x.pc.plan, offset);
            && w.cell.IsActive() && c.watch == Some(watch) && c.runtime.Some?
            && c.runtime.value.revision == w.cell.runtime.value.revision + 1
            && c.runtime.value.outages == runtime.outages
            && c.runtime.value.requiredAttempts == runtime.requiredAttempts
            && c.runtime.value.supportsDeadline == runtime.supportsDeadline
  {
    hide Decide, Open, Closed, CacheOK, OutcomeOK, LogOK, PollersOK, TokensDistinct, NoticesOK;
  }

  lemma CommitInRhythm(k: Setup, w: World, p: nat, offset: int, t: Transcript, tally: Tally)
    requires WorldOK(k, w) && MayCommit(k, w, p, offset) && StandsAt(k, w, p, t) && InRhythm(k, w.cell, tally)
    ensures InRhythm(k, DoCommit(k, w, p, offset).cell, Count(w, Step.Commit(p, offset), tally))
  {
    StoreAndPoller(k, w, p);
    if Owns(w.cell, w.pollers[p].claim, w.now) {
      hide *;
      OwnerInRhythm(k, w, p, offset, t, tally);
    } else {
      CommitEffect(k, w, p, offset);
      hide WorldOK, DoCommit, Owns, StandsAt, CellOK, PollerOK, Committing, CommitOp, InRhythm;
    }
  }

  lemma OwnerInRhythm(k: Setup, w: World, p: nat, offset: int, t: Transcript, tally: Tally)
    requires WorldOK(k, w) && MayCommit(k, w, p, offset) && StandsAt(k, w, p, t) && k.pacing.Valid() && InRhythm(k, w.cell, tally)
    requires Owns(w.cell, w.pollers[p].claim, w.now)
    ensures InRhythm(k, DoCommit(k, w, p, offset).cell, Count(w, Step.Commit(p, offset), tally))
  {
    var x, c := w.pollers[p], DoCommit(k, w, p, offset).cell;
    StoredWhole(k, w, p, offset);
    Snapshot(k, w, p);
    LapsesWhenExhausted(k, w, p, t);
    assert Count(w, Step.Commit(p, offset), tally) == Tallied(x.pc.plan, tally);
    hide WorldOK, DoCommit, Owns, StandsAt, Decide, SaturatingOutages, Scheduled, InRhythm, Count, Derive;
    RhythmOf(k, w.cell, tally);
    DecisionInRhythm(k, w.cell.watch.value, w.cell.runtime.value, x.claim, x.at, x.pc.plan, offset, tally);
    OutagesKept(k.pacing, x.claim, x.at, x.pc.plan, offset);
    DecisionStamps(k.pacing, x.claim, x.at, x.pc.plan, offset);
    BackoffSaturates(k.pacing, tally.streak);
    NoneSaturates(k.pacing);
    RhythmFrom(k, c, Tallied(x.pc.plan, tally));
  }

  lemma RhythmOf(k: Setup, c: Cell, tally: Tally)
    requires k.pacing.Valid() && InRhythm(k, c, tally) && c.IsActive()
    ensures tally.streak <= tally.outages && c.watch.value.attempts == tally.misses && c.runtime.Some?
    ensures c.runtime.value.revision == tally.misses + tally.outages
    ensures c.runtime.value.outages == SaturatingOutages(k.pacing, tally.streak)
    ensures c.runtime.value.requiredAttempts == k.Policy().requiredAttempts
    ensures c.runtime.value.supportsDeadline == k.Policy().supportsDeadline
  {
  }

  lemma RhythmFrom(k: Setup, c: Cell, tally: Tally)
    requires k.pacing.Valid() && c.watch.Some? && c.runtime.Some? && tally.streak <= tally.outages
    requires c.runtime.value.requiredAttempts == k.Policy().requiredAttempts
    requires c.runtime.value.supportsDeadline == k.Policy().supportsDeadline
    requires c.watch.value.status == Active ==>
               && c.watch.value.attempts == tally.misses && c.runtime.value.revision == tally.misses + tally.outages
               && c.runtime.value.outages == SaturatingOutages(k.pacing, tally.streak) && Scheduled(k, c.watch.value, tally)
    requires c.watch.value.status == Expired ==>
               && c.watch.value.attempts == tally.misses
               && (c.watch.value.attempts >= c.watch.value.maxAttempts || c.watch.value.updatedAt + MIN_DELAY > k.expiresAt)
    ensures InRhythm(k, c, tally)
  {
  }

  lemma NoneSaturates(p: Pacing)
    requires p.Valid()
    ensures SaturatingOutages(p, 0) == 0
  {
  }

  lemma LapsesWhenExhausted(k: Setup, w: World, p: nat, t: Transcript)
    requires At(w, p) && PcOf(w, p).Decided? && StandsAt(k, w, p, t)
    ensures PcOf(w, p).plan.Lapse? <==> w.pollers[p].claim.watch.IsExhausted(w.pollers[p].at)
    ensures Sensible(PcOf(w, p).plan) || PcOf(w, p).plan.Yield?
  {
  }

  /** The owner's snapshot is the stored document, and its sidecar but for phase and request. */
  lemma Snapshot(k: Setup, w: World, p: nat)
    requires WorldOK(k, w) && At(w, p) && Owns(w.cell, w.pollers[p].claim, w.now)
    ensures w.cell.watch == Some(w.pollers[p].claim.watch) && w.cell.runtime.Some?
    ensures w.cell.runtime.value.outages == w.pollers[p].claim.runtime.outages
    ensures w.cell.runtime.value.requiredAttempts == w.pollers[p].claim.runtime.requiredAttempts
    ensures w.cell.runtime.value.supportsDeadline == w.pollers[p].claim.runtime.supportsDeadline
    ensures w.cell.watch.value.expiresAt == k.expiresAt && w.cell.watch.value.attempts <= w.cell.watch.value.maxAttempts
    ensures k.Valid()
  {
    assert PollerOK(k, w.now, w.cell, w.cache, w.late, w.route, w.pollers[p]);
    hide CacheOK, LogOK, OutcomeOK, PollersOK, TokensDistinct, NoticesOK, Closed, Leased, Knows;
  }

  lemma StepInRhythm(k: Setup, w: World, step: Step, t: Transcript, tally: Tally)
    requires WorldOK(k, w) && Enabled(k, w, step) && InRhythm(k, w.cell, tally)
    requires step.Commit? ==> StandsAt(k, w, step.p, t)
    ensures InRhythm(k, Next(k, w, step).cell, Count(w, step, tally))
  {
    if step.Commit? {
      CommitInRhythm(k, w, step.p, step.offset, t, tally);
      hide WorldOK, InRhythm, DoCommit;
    } else {
      StoreMoves(k, w, step);
      var op := StoreOp(k, w, step);
      if op.Some? {
        hide InRhythm, Apply, Next;
        RhythmUnder(k, w.now, w.cell, op.value, tally);
      }
    }
  }

  ghost predicate HasTranscript(k: Setup, w: World, p: nat) {
    exists t :: StandsAt(k, w, p, t)
  }

  ghost predicate Explained(k: Setup, w: World) {
    forall p :: HasTranscript(k, w, p)
  }

  lemma StepExplained(k: Setup, w: World, step: Step)
    requires Enabled(k, w, step) && Explained(k, w)
    ensures Explained(k, Next(k, w, step))
  {
    hide StandsAt, Enabled, Next;
    forall p: nat
      ensures HasTranscript(k, Next(k, w, step), p)
    {
      assert HasTranscript(k, w, p);
      var t :| StandsAt(k, w, p, t);
      StepStands(k, w, step, p, t);
    }
  }

  lemma {:induction false} TraceInRhythm(k: Setup, w: World, steps: seq<Step>, tally: Tally)
    requires WorldOK(k, w) && IsTrace(k, w, steps) && Explained(k, w) && k.pacing.Valid() && InRhythm(k, w.cell, tally)
    ensures InRhythm(k, Reached(k, w, steps).cell, Counted(k, w, steps, tally))
    decreases |steps|
  {
    if steps != [] {
      var step := steps[0];
      hide WorldOK, Enabled, Next, InRhythm, StandsAt, Count;
      StepKeeps(k, w, step);
      StepExplained(k, w, step);
      var p := if step.Commit? then step.p else 0;
      assert HasTranscript(k, w, p);
      var t :| StandsAt(k, w, p, t);
      StepInRhythm(k, w, step, t, tally);
      TraceInRhythm(k, Next(k, w, step), steps[1..], Count(w, step, tally));
    }
  }

  lemma StartInRhythm(k: Setup, w: World)
    requires k.Valid() && IsStart(k, w)
    ensures Explained(k, w) && InRhythm(k, w.cell, NOTHING_YET)
  {
    forall p: nat
      ensures HasTranscript(k, w, p)
    {
      assert StandsAt(k, w, p, SILENT);
    }
    NoneSaturates(k.pacing);
    hide SaturatingOutages, Derive;
  }

  lemma Rhythm(k: Setup, start: World, steps: seq<Step>)
    requires History(k, start, steps)
    ensures k.Valid() && WorldOK(k, Reached(k, start, steps))
    ensures InRhythm(k, Reached(k, start, steps).cell, Counted(k, start, steps, NOTHING_YET))
  {
    StartInRhythm(k, start);
    Reaches(k, start, steps);
    StartKeeps(k, start);
    hide WorldOK, InRhythm, Reached, Counted;
    TraceInRhythm(k, start, steps, NOTHING_YET);
  }

  // -- what a history promises ----------------------------------------------------------------------------------

  /** In every history an active watch is next checked where its last commit puts it: right away if there was none,
      one drawn delay after the last miss, and one doubled, capped and jittered interval after the last of n outages
      in a row, or at the deadline; its counters are the misses and outages committed so far, and its
      sidecar still tells the policy it was created with. */
  lemma NextCheckFollows(k: Setup, start: World, steps: seq<Step>)
    requires History(k, start, steps)
    ensures var c, tally := Reached(k, start, steps).cell, Counted(k, start, steps, NOTHING_YET);
            && c.runtime.Some?
            && c.runtime.value.requiredAttempts == k.Policy().requiredAttempts
            && c.runtime.value.supportsDeadline == k.Policy().supportsDeadline
            && (c.IsActive() ==>
                  && Scheduled(k, c.watch.value, tally)
                  && c.watch.value.attempts == tally.misses
                  && c.runtime.value.revision == tally.misses + tally.outages
                  && c.marker == Some(Marker(WindowIdFor(k.id, tally.misses + tally.outages), c.watch.value.nextCheckAt.value)))
  {
    Rhythm(k, start, steps);
    StoreCoherent(k, start, steps);
    hide Reached, Counted, History, WorldOK, Scheduled;
  }

  /** A watch that expired with more than the last instant of its lifetime left had spent every attempt it was
      granted, each on a committed miss; if its ceiling did not support the deadline, that is the whole ceiling. */
  lemma ExpiredEarlySpentAll(k: Setup, start: World, steps: seq<Step>)
    requires History(k, start, steps)
    ensures var c, tally := Reached(k, start, steps).cell, Counted(k, start, steps, NOTHING_YET);
            c.watch.Some? && c.watch.value.status == Expired && c.watch.value.updatedAt + MIN_DELAY <= k.expiresAt ==>
              && tally.misses == c.watch.value.attempts == c.watch.value.maxAttempts
              && (!k.Policy().supportsDeadline ==> tally.misses == k.ceiling)
              && tally.misses == Min(k.ceiling, k.Policy().requiredAttempts)
  {
    Rhythm(k, start, steps);
    var w := Reached(k, start, steps);
    if w.cell.watch.Some? && w.cell.watch.value.status == Expired {
      Terms(k, w);
    }
    hide Reached, Counted, History, WorldOK;
    var policy := k.Policy();
    BudgetIsLeast(k.pacing, k.createdAt, k.expiresAt, k.ceiling, Min(k.ceiling, policy.requiredAttempts));
    BudgetIsLeast(k.pacing, k.createdAt, k.expiresAt, k.ceiling, Min(k.ceiling, policy.requiredAttempts) + 1);
    BudgetCoversIntervals(k);
    hide Derive;
  }

  lemma Terms(k: Setup, w: World)
    requires WorldOK(k, w) && w.cell.watch.Some? && w.cell.watch.value.status == Expired
    ensures w.cell.watch.value.maxAttempts == k.Policy().effectiveAttempts
    ensures w.cell.watch.value.attempts <= w.cell.watch.value.maxAttempts
  {
    hide CacheOK, LogOK, OutcomeOK, PollersOK, TokensDistinct, NoticesOK, Derive;
  }

  // -- how many checks a watch is sure to get -------------------------------------------------------------------

  /** Every poll of the run reads its clock within `slack` of its window's due time. */
  predicate Served(k: Setup, w: World, steps: seq<Step>, slack: nat)
    requires IsTrace(k, w, steps)
    decreases |steps|
  {
    steps != [] ==>
      && (steps[0].Check? ==> OnTime(w.pollers[steps[0].p].claim, w.now, slack))
      && Served(k, Next(k, w, steps[0]), steps[1..], slack)
  }

  predicate OnTime(claim: WindowClaim, at: nat, slack: nat) {
    claim.watch.nextCheckAt.Some? && at <= claim.watch.nextCheckAt.value + slack
  }

  predicate Prompt(x: Poller, slack: nat) {
    x.Working? && !x.pc.Fresh? ==> OnTime(x.claim, x.at, slack)
  }

  predicate AllPrompt(w: World, slack: nat) {
    forall p :: p in w.pollers ==> Prompt(w.pollers[p], slack)
  }

  /** The longest a watch waits between two checks. */
  function Longest(p: Pacing): nat {
    Max(Max(MIN_DELAY, p.interval + p.jitter), p.maximum)
  }

  function DueBy(k: Setup, r: nat, slack: nat): nat {
    k.createdAt + r * (Longest(k.pacing) + slack)
  }

  /** The r-th window is due within r longest delays, each late by no more than the slack. */
  predicate DueInTime(k: Setup, c: Cell, slack: nat) {
    c.IsActive() && c.runtime.Some? ==>
      && c.watch.value.nextCheckAt.Some?
      && c.watch.value.nextCheckAt.value <= DueBy(k, c.runtime.value.revision, slack)
  }

  lemma PromptUnder(k: Setup, w: World, step: Step, slack: nat, q: nat)
    requires Enabled(k, w, step) && AllPrompt(w, slack)
    requires step.Check? ==> OnTime(w.pollers[step.p].claim, w.now, slack)
    requires q in Next(k, w, step).pollers
    ensures Prompt(Next(k, w, step).pollers[q], slack)
  {
    assert q in w.pollers ==> Prompt(w.pollers[q], slack);
    if Mover(step) != Some(q) {
      NotMoved(k, w, step, q);
      hide Enabled, Next, AllPrompt, OnTime, Mover;
    } else {
      hide Fair, Publish, BookSlot, GetBooking, BeginBooking, ClaimWindow, OnTime, AllPrompt, AfterPlace, AfterPermit;
    }
  }

  lemma AllPromptUnder(k: Setup, w: World, step: Step, slack: nat)
    requires Enabled(k, w, step) && AllPrompt(w, slack)
    requires step.Check? ==> OnTime(w.pollers[step.p].claim, w.now, slack)
    ensures AllPrompt(Next(k, w, step), slack)
  {
    hide Enabled, Next, OnTime;
    forall q | q in Next(k, w, step).pollers
      ensures Prompt(Next(k, w, step).pollers[q], slack)
    {
      PromptUnder(k, w, step, slack, q);
    }
  }

  lemma SuccessorWithin(p: Pacing, claim: WindowClaim, at: nat, plan: Plan, offset: int)
    requires p.Valid() && p.Draws(offset) && claim.watch.status == Active && !plan.Yield?
    ensures var next := Decide(p, claim, at, plan, offset).0;
            next.status == Active ==> next.nextCheckAt.Some? && next.nextCheckAt.value <= at + Longest(p)
  {
    DecisionStatus(p, claim, at, plan, offset);
    if plan.Miss? || plan.Outage? {
      SuccessorIsPunctual(p, claim, at, plan, offset);
    }
    hide Decide, Backoff;
  }

  lemma OneMoreSpan(r: nat, span: nat)
    ensures (r + 1) * span == r * span + span
  {
  }

  lemma SuccessorInTime(k: Setup, claim: WindowClaim, at: nat, plan: Plan, offset: int, slack: nat)
    requires k.Valid() && k.pacing.Draws(offset) && claim.watch.status == Active && !plan.Yield? && OnTime(claim, at, slack)
    requires claim.watch.nextCheckAt.value <= DueBy(k, claim.runtime.revision, slack)
    ensures var next := Decide(k.pacing, claim, at, plan, offset).0;
            next.status == Active ==>
              next.nextCheckAt.Some? && next.nextCheckAt.value <= DueBy(k, claim.runtime.revision + 1, slack)
  {
    SuccessorWithin(k.pacing, claim, at, plan, offset);
    hide Decide, Longest;
    OneMoreSpan(claim.runtime.revision, Longest(k.pacing) + slack);
  }

  lemma DueInTimeUnder(k: Setup, now: nat, c: Cell, op: CellOp, slack: nat)
    requires CellOK(k, now, c) && DueInTime(k, c, slack) && !op.OpCreate? && !op.OpCommit?
    ensures DueInTime(k, Apply(c, k.id, now, k.retention, op), slack)
  {
    if c.IsActive() {
      OpenHasMarker(k, c);
    }
  }

  lemma CommitInTime(k: Setup, w: World, p: nat, offset: int, slack: nat)
    requires WorldOK(k, w) && MayCommit(k, w, p, offset) && AllPrompt(w, slack) && DueInTime(k, w.cell, slack)
    ensures DueInTime(k, DoCommit(k, w, p, offset).cell, slack)
  {
    StoreAndPoller(k, w, p);
    if Owns(w.cell, w.pollers[p].claim, w.now) {
      assert Prompt(w.pollers[p], slack);
      hide *;
      OwnerInTime(k, w, p, offset, slack);
    } else {
      CommitEffect(k, w, p, offset);
      hide WorldOK, DoCommit, Owns, CellOK, PollerOK, DueInTime, AllPrompt, Committing, CommitOp;
    }
  }

  lemma OwnerInTime(k: Setup, w: World, p: nat, offset: int, slack: nat)
    requires WorldOK(k, w) && MayCommit(k, w, p, offset) && Prompt(w.pollers[p], slack) && DueInTime(k, w.cell, slack)
    requires Owns(w.cell, w.pollers[p].claim, w.now) && k.Valid()
    ensures DueInTime(k, DoCommit(k, w, p, offset).cell, slack)
  {
    var x := w.pollers[p];
    StoredWhole(k, w, p, offset);
    Snapshot(k, w, p);
    OwnedRevision(k, w, p);
    hide WorldOK, DoCommit, Owns, Decide, DueBy;
    SuccessorInTime(k, x.claim, x.at, x.pc.plan, offset, slack);
  }

  lemma OwnedRevision(k: Setup, w: World, p: nat)
    requires At(w, p) && Owns(w.cell, w.pollers[p].claim, w.now)
    ensures w.cell.runtime.Some? && w.cell.runtime.value.revision == w.pollers[p].claim.runtime.revision
  {
  }

  lemma StepInTime(k: Setup, w: World, step: Step, slack: nat)
    requires WorldOK(k, w) && Enabled(k, w, step) && AllPrompt(w, slack) && DueInTime(k, w.cell, slack)
    requires step.Check? ==> OnTime(w.pollers[step.p].claim, w.now, slack)
    ensures AllPrompt(Next(k, w, step), slack) && DueInTime(k, Next(k, w, step).cell, slack)
  {
    hide *;
    AllPromptUnder(k, w, step, slack);
    CellInTime(k, w, step, slack);
  }

  lemma CellInTime(k: Setup, w: World, step: Step, slack: nat)
    requires WorldOK(k, w) && Enabled(k, w, step) && AllPrompt(w, slack) && DueInTime(k, w.cell, slack)
    ensures DueInTime(k, Next(k, w, step).cell, slack)
  {
    if step.Commit? {
      CommitInTime(k, w, step.p, step.offset, slack);
      hide WorldOK, DueInTime, DoCommit, AllPrompt;
    } else {
      StoreMoves(k, w, step);
      var op := StoreOp(k, w, step);
      if op.Some? {
        hide DueInTime, Apply, Next, AllPrompt;
        DueInTimeUnder(k, w.now, w.cell, op.value, slack);
      }
    }
  }

  lemma {:induction false} TraceInTime(k: Setup, w: World, steps: seq<Step>, slack: nat)
    requires WorldOK(k, w) && IsTrace(k, w, steps) && Served(k, w, steps, slack)
    requires AllPrompt(w, slack) && DueInTime(k, w.cell, slack)
    ensures DueInTime(k, Reached(k, w, steps).cell, slack)
    decreases |steps|
  {
    if steps != [] {
      StepKeeps(k, w, steps[0]);
      hide WorldOK, Enabled, Next, AllPrompt, DueInTime, OnTime;
      StepInTime(k, w, steps[0], slack);
      TraceInTime(k, Next(k, w, steps[0]), steps[1..], slack);
    }
  }

  lemma ServedInTime(k: Setup, start: World, steps: seq<Step>, slack: nat)
    requires History(k, start, steps) && Served(k, start, steps, slack)
    ensures DueInTime(k, Reached(k, start, steps).cell, slack)
  {
    StartKeeps(k, start);
    assert AllPrompt(start, slack) && DueInTime(k, start.cell, slack) && IsTrace(k, start, steps);
    hide *;
    TraceInTime(k, start, steps, slack);
  }

  /** If every poll starts within `slack` of its due time, an active watch that is not overdue has had, misses and
      outages together, at least one check for each longest delay and slack that has passed since its creation. */
  lemma ChecksGuaranteed(k: Setup, start: World, steps: seq<Step>, slack: nat)
    requires History(k, start, steps) && Served(k, start, steps, slack)
    ensures var w, tally := Reached(k, start, steps), Counted(k, start, steps, NOTHING_YET);
            w.cell.IsActive() ==>
              && w.cell.watch.value.nextCheckAt.Some?
              && (w.now <= w.cell.watch.value.nextCheckAt.value + slack ==>
                    w.now <= k.createdAt + slack + (tally.misses + tally.outages) * (Longest(k.pacing) + slack))
  {
    NextCheckFollows(k, start, steps);
    ServedInTime(k, start, steps, slack);
    hide Reached, Counted, History, Served, Longest, FollowsMiss, FollowsOutage;
  }
}
