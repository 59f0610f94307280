/** What a poll concludes from what it was told: each call's answer is taken down as it is given, and the
    answers alone determine what the poll decides and commits (backend/services/watch_service.py:408-558, 885-902). */
module PollAnswers {
  import opened Wrappers
  import opened Watches
  import opened WatchCells
  import opened CellRuns
  import opened MockCache
  import opened PollTiming
  import opened PollPlans
  import opened PollProtocol
  import opened PollSafety
  import opened PollGuarantees

  /** One booking call that was answered. */
  datatype Attempt = Attempt(slotId: string, result: BookResult)

  /** Everything one poll has been told so far. */
  datatype Transcript = Transcript(
    at: Option<nat>,                                    // the clock
    known: Option<Option<Confirmation>>,                // get_booking
    published: Option<seq<Slot>>,                       // search_availability
    permit: Option<Permit>,                             // begin_booking
    tried: seq<Attempt>,                                // book_slot, answered
    lost: Option<string>,                               // book_slot, failed without an answer
    reconciled: seq<Option<Option<Confirmation>>>,      // reconcile_booking; None is "still unknown"
    cancelRead: Option<bool>,                           // the recorded cancellation request
    failed: Option<string>)                             // the failure or time-out that ended the sequence

  const SILENT := Transcript(None, None, None, None, [], None, [], None, None)

  /** The answer a step gives to poller p, read off the store and the provider as they are. */
  function Hear(k: Setup, w: World, step: Step, p: nat, t: Transcript): Transcript
    requires Enabled(k, w, step)
  {
    match step
    case Deliver(q, _, _, _) => if q == p then SILENT else t
    case Check(q) => if q == p then t.(at := Some(w.now)) else t
    case Recall(q) => if q == p then t.(known := Some(GetBooking(w.cache, k.Key(), w.now))) else t
    case Look(q, candidates, operation, victims) =>
      if q != p then t
      else if candidates == [] then t.(published := Some([]))
      else t.(published := Some(Publish(w.cache, candidates, operation, w.now, k.limits.capacity, k.limits.pinTtl, victims).1))
    case Fail(q, error) => if q == p then t.(failed := Some(error)) else t
    case AskPermit(q) => if q == p then t.(permit := Some(BeginBooking(w.cell, w.now, w.pollers[p].claim).1)) else t
    case Place(q, reply) =>
      if q != p then t
      else
        var slotId := PcOf(w, p).slots[0].slotId;
        (match reply
         case Answered => t.(tried := t.tried + [Attempt(slotId, BookSlot(w.cache, slotId, k.Key(), w.now, k.limits.retention).1)])
         case Errored(_, error) => t.(lost := Some(error))
         case TimedOut(_, error) => t.(failed := Some(error)))
    case Reconcile(q, answered) =>
      if q != p then t
      else t.(reconciled := t.reconciled + [if answered then Some(GetBooking(w.cache, k.Key(), w.now)) else None])
    case Weigh(q) =>
      if q == p then t.(cancelRead := Some(w.cell.runtime.Some? && w.cell.runtime.value.cancelRequested)) else t
    case _ => t
  }

  /** What poller p has been told by the end of a run, since its last delivery. */
  function Heard(k: Setup, w: World, steps: seq<Step>, p: nat, t: Transcript): Transcript
    requires IsTrace(k, w, steps)
    decreases |steps|
  {
    if steps == [] then t else Heard(k, Next(k, w, steps[0]), steps[1..], p, Hear(k, w, steps[0], p, t))
  }

  // -- what the answers come to ---------------------------------------------------------------------

  /** Some call named a standing reservation. */
  predicate Confirms(t: Transcript, confirmation: Confirmation) {
    || t.known == Some(Some(confirmation))
    || (exists i :: 0 <= i < |t.tried| && t.tried[i].result == Reservation(confirmation))
    || (exists i :: 0 <= i < |t.reconciled| && t.reconciled[i] == Some(Some(confirmation)))
  }

  predicate Refused(a: Attempt) {
    !a.result.Reservation?
  }

  /** The published slots were tried one by one from the first, each refused but perhaps the last tried. */
  predicate TriedInOrder(t: Transcript) {
    t.tried != [] ==>
      && t.published.Some? && |t.tried| <= |t.published.value|
      && (forall i :: 0 <= i < |t.tried| ==> t.tried[i].slotId == t.published.value[i].slotId)
      && (forall i :: 0 <= i < |t.tried| - 1 ==> Refused(t.tried[i]))
  }

  predicate AllRefused(t: Transcript) {
    && t.published.Some? && |t.tried| == |t.published.value|
    && forall i :: 0 <= i < |t.tried| ==> Refused(t.tried[i])
  }

  predicate NeverAnswered(t: Transcript) {
    |t.reconciled| == RECONCILE_ATTEMPTS && forall i :: 0 <= i < |t.reconciled| ==> t.reconciled[i].None?
  }

  /** The provider said there is no reservation, after refusing every slot or after an unanswered call. */
  predicate Absence(t: Transcript) {
    if t.lost.None? then AllRefused(t)
    else t.reconciled != [] && t.reconciled[|t.reconciled| - 1] == Some(None)
  }

  // -- where a poll stands, by its transcript -----------------------------------------------------------

  /** A booking is under way: permitted, with nothing confirmed and no other failure so far. */
  predicate MidBooking(k: Setup, at: nat, t: Transcript) {
    && k.autoBook && t.at == Some(at) && t.known == Some(None) && t.permit == Some(Granted)
    && t.published.Some? && t.published.value != [] && t.failed.None?
    && TriedInOrder(t)
    && |t.reconciled| <= RECONCILE_ATTEMPTS
    && (t.lost.None? ==> t.reconciled == [])
    && (t.lost.Some? ==> |t.tried| < |t.published.value| && forall i :: 0 <= i < |t.tried| ==> Refused(t.tried[i]))
    && (forall i :: 0 <= i < |t.reconciled| - 1 ==> t.reconciled[i].None?)
  }

  predicate Concluded(k: Setup, watch: Watch, at: nat, t: Transcript, plan: Plan) {
    match plan
    case Lapse => watch.IsExhausted(at) && t == SILENT.(at := Some(at))
    case Offer(slots) => !k.autoBook && slots != [] && t == SILENT.(at := Some(at), published := Some(slots))
    case Yield =>
      && k.autoBook && t.published.Some? && t.published.value != []
      && t == SILENT.(at := Some(at), known := Some(None), published := t.published, permit := Some(Fenced))
    case Reserve(confirmation, attempted) =>
      if attempted then
        && MidBooking(k, at, t) && t.cancelRead.None?
        && (if t.lost.None? then t.tried != [] && t.tried[|t.tried| - 1].result == Reservation(confirmation)
            else t.reconciled != [] && t.reconciled[|t.reconciled| - 1] == Some(Some(confirmation)))
      else k.autoBook && t == SILENT.(at := Some(at), known := Some(Some(confirmation)))
    case Withdraw =>
      || (k.autoBook && t.published.Some? && t.published.value != []
          && t == SILENT.(at := Some(at), known := Some(None), published := t.published, permit := Some(Withdrawn)))
      || (MidBooking(k, at, t) && Absence(t) && t.cancelRead == Some(true))
    case Miss =>
      || (!k.autoBook && t == SILENT.(at := Some(at), published := Some([])))
      || (k.autoBook && t == SILENT.(at := Some(at), known := Some(None), published := Some([])))
      || (MidBooking(k, at, t) && t.lost.None? && AllRefused(t) && t.cancelRead == Some(false))
    case Outage(error) =>
      || (t.failed == Some(error) && t.cancelRead.None? && Unfinished(k, at, t.(failed := None)))
      || (MidBooking(k, at, t) && t.lost == Some(error) && Absence(t) && t.cancelRead == Some(false))
      || (MidBooking(k, at, t) && t.lost == Some(error) && NeverAnswered(t) && t.cancelRead.None?)
  }

  /** The transcript of a poll that may still make a call. */
  predicate Unfinished(k: Setup, at: nat, t: Transcript) {
    || t == SILENT.(at := Some(at))
    || (k.autoBook && t == SILENT.(at := Some(at), known := Some(None)))
    || (k.autoBook && t.published.Some? && t.published.value != []
        && t == SILENT.(at := Some(at), known := Some(None), published := t.published))
    || (MidBooking(k, at, t) && t.cancelRead.None? && !Settled(t))
  }

  /** An answer has settled the booking call. */
  predicate Settled(t: Transcript) {
    if t.lost.None? then t.tried != [] && t.tried[|t.tried| - 1].result.Reservation?
    else NeverAnswered(t) || (t.reconciled != [] && t.reconciled[|t.reconciled| - 1].Some? && t.reconciled[|t.reconciled| - 1] != Some(None))
  }

  predicate Stands(k: Setup, x: Poller, t: Transcript)
    requires x.Working?
  {
    var at := x.at;
    match x.pc
    case Fresh => t == SILENT
    case Asking => t == SILENT.(at := Some(at)) && !x.claim.watch.IsExhausted(at)
    case Cleared => k.autoBook && t == SILENT.(at := Some(at), known := Some(None)) && !x.claim.watch.IsExhausted(at)
    case Holding(slots) =>
      && k.autoBook && slots != [] && !x.claim.watch.IsExhausted(at)
      && t == SILENT.(at := Some(at), known := Some(None), published := Some(slots))
    case Placing(slots) =>
      && MidBooking(k, at, t) && t.lost.None? && t.cancelRead.None? && !x.claim.watch.IsExhausted(at)
      && (forall i :: 0 <= i < |t.tried| ==> Refused(t.tried[i]))
      && slots != [] && slots == t.published.value[|t.tried|..]
    case Unsure(asked, error) =>
      && MidBooking(k, at, t) && t.lost == Some(error) && t.cancelRead.None? && !x.claim.watch.IsExhausted(at)
      && |t.reconciled| == asked < RECONCILE_ATTEMPTS && (forall i :: 0 <= i < asked ==> t.reconciled[i].None?)
    case Ruled(otherwise) =>
      && MidBooking(k, at, t) && Absence(t) && t.cancelRead.None? && !x.claim.watch.IsExhausted(at)
      && otherwise == if t.lost.None? then Miss else Outage(t.lost.value)
    case Decided(plan) =>
      && Concluded(k, x.claim.watch, at, t, plan)
      && (plan.Lapse? <==> x.claim.watch.IsExhausted(at))
  }

  // -- every step keeps it --------------------------------------------------------------------------------

  predicate StandsAt(k: Setup, w: World, p: nat, t: Transcript) {
    At(w, p) ==> Stands(k, w.pollers[p], t)
  }

  /** Whose program counter a step moves, if any. */
  function Mover(step: Step): Option<nat> {
    match step
    case Deliver(p, _, _, _) => Some(p)
    case Check(p) => Some(p)
    case Recall(p) => Some(p)
    case Look(p, _, _, _) => Some(p)
    case Fail(p, _) => Some(p)
    case AskPermit(p) => Some(p)
    case Place(p, _) => Some(p)
    case Reconcile(p, _) => Some(p)
    case Weigh(p) => Some(p)
    case _ => None
  }

  lemma NotMoved(k: Setup, w: World, step: Step, p: nat)
    requires Enabled(k, w, step) && Mover(step) != Some(p)
    ensures At(Next(k, w, step), p) ==> At(w, p) && Next(k, w, step).pollers[p] == w.pollers[p]
  {
    hide Fair, Publish, BookSlot, Decide, GetBooking, Do, ClaimWindow, BeginBooking, CommitWindow, CancelIfActive,
      ExpireIfEligible, ReleaseClaim;
  }

  lemma NotHeard(k: Setup, w: World, step: Step, p: nat, t: Transcript)
    requires Enabled(k, w, step) && Mover(step) != Some(p)
    ensures Hear(k, w, step, p, t) == t
  {
    hide Fair, Publish, BookSlot, GetBooking, BeginBooking;
  }

  lemma CheckStands(k: Setup, w: World, p: nat, t: Transcript)
    requires Enabled(k, w, Check(p)) && StandsAt(k, w, p, t)
    ensures StandsAt(k, DoCheck(w, p), p, Hear(k, w, Check(p), p, t))
  {
  }

  lemma RecallStands(k: Setup, w: World, p: nat, t: Transcript)
    requires Enabled(k, w, Recall(p)) && StandsAt(k, w, p, t)
    ensures StandsAt(k, DoRecall(k, w, p), p, Hear(k, w, Recall(p), p, t))
  {
    hide GetBooking;
  }

  lemma LookStands(k: Setup, w: World, p: nat, candidates: seq<Slot>, operation: string, victims: seq<string>, t: Transcript)
    requires Enabled(k, w, Step.Look(p, candidates, operation, victims)) && StandsAt(k, w, p, t)
    ensures StandsAt(k, DoLook(k, w, p, candidates, operation, victims), p, Hear(k, w, Step.Look(p, candidates, operation, victims), p, t))
  {
    hide Publish, FairVictims;
  }

  lemma FailStands(k: Setup, w: World, p: nat, error: string, t: Transcript)
    requires Enabled(k, w, Fail(p, error)) && StandsAt(k, w, p, t)
    ensures StandsAt(k, Move(w, p, Decided(Outage(error))), p, Hear(k, w, Fail(p, error), p, t))
  {
    var u := t.(failed := Some(error));
    assert u.(failed := None) == t;
  }

  lemma AskPermitStands(k: Setup, w: World, p: nat, t: Transcript)
    requires Enabled(k, w, AskPermit(p)) && StandsAt(k, w, p, t)
    ensures StandsAt(k, DoAskPermit(w, p), p, Hear(k, w, AskPermit(p), p, t))
  {
    hide BeginBooking;
  }

  lemma UntriedSlots(slots: seq<Slot>, n: nat)
    requires n < |slots|
    ensures slots[n..][0] == slots[n] && slots[n..][1..] == slots[n + 1..]
    ensures slots[n + 1..] == [] <==> n + 1 == |slots|
  {
  }

  lemma PlaceStands(k: Setup, w: World, p: nat, reply: Reply, t: Transcript)
    requires Enabled(k, w, Place(p, reply)) && StandsAt(k, w, p, t)
    ensures StandsAt(k, DoPlace(k, w, p, reply), p, Hear(k, w, Place(p, reply), p, t))
  {
    hide BookSlot, Watch.IsExhausted;
    UntriedSlots(t.published.value, |t.tried|);
    if reply.TimedOut? {
      assert t.(failed := Some(reply.error)).(failed := None) == t;
    } else if reply.Answered? {
      hide Unfinished;
    }
  }

  lemma ReconcileStands(k: Setup, w: World, p: nat, answered: bool, t: Transcript)
    requires Enabled(k, w, Reconcile(p, answered)) && StandsAt(k, w, p, t)
    ensures StandsAt(k, DoReconcile(k, w, p, answered), p, Hear(k, w, Reconcile(p, answered), p, t))
  {
    hide GetBooking;
  }

  lemma WeighStands(k: Setup, w: World, p: nat, t: Transcript)
    requires Enabled(k, w, Weigh(p)) && StandsAt(k, w, p, t)
    ensures StandsAt(k, DoWeigh(w, p), p, Hear(k, w, Weigh(p), p, t))
  {
  }

  lemma StepStands(k: Setup, w: World, step: Step, p: nat, t: Transcript)
    requires Enabled(k, w, step) && StandsAt(k, w, p, t)
    ensures StandsAt(k, Next(k, w, step), p, Hear(k, w, step, p, t))
  {
    if Mover(step) != Some(p) {
      NotMoved(k, w, step, p);
      NotHeard(k, w, step, p, t);
      hide Enabled, Next, Stands, Hear;
    } else {
      hide Stands, Hear, DoCheck, DoRecall, DoLook, DoAskPermit, DoPlace, DoReconcile, DoWeigh, Fair;
      match step
      case Deliver(_, _, _, _) => Delivered(k, w, step, p, t);
      case Check(_) => CheckStands(k, w, p, t);
      case Recall(_) => RecallStands(k, w, p, t);
      case Look(_, candidates, operation, victims) => LookStands(k, w, p, candidates, operation, victims, t);
      case Fail(_, error) => FailStands(k, w, p, error, t);
      case AskPermit(_) => AskPermitStands(k, w, p, t);
      case Place(_, reply) => PlaceStands(k, w, p, reply, t);
      case Reconcile(_, answered) => ReconcileStands(k, w, p, answered, t);
      case Weigh(_) => WeighStands(k, w, p, t);
    }
  }

  lemma Delivered(k: Setup, w: World, step: Step, p: nat, t: Transcript)
    requires Enabled(k, w, step) && step.Deliver? && step.p == p
    ensures StandsAt(k, Next(k, w, step), p, Hear(k, w, step, p, t))
  {
    hide ClaimWindow;
  }

  lemma {:induction false} StandsThroughout(k: Setup, w: World, steps: seq<Step>, p: nat, t: Transcript)
    requires IsTrace(k, w, steps) && StandsAt(k, w, p, t)
    ensures StandsAt(k, Reached(k, w, steps), p, Heard(k, w, steps, p, t))
    decreases |steps|
  {
    if steps != [] {
      StepStands(k, w, steps[0], p, t);
      hide StandsAt, Enabled, Next, Hear;
      StandsThroughout(k, Next(k, w, steps[0]), steps[1..], p, Hear(k, w, steps[0], p, t));
    }
  }

  // -- what a poll decides -----------------------------------------------------------------------------------

  /** Which calls may have been made, and in which order. */
  predicate InSequence(k: Setup, t: Transcript) {
    && (t.known.Some? ==> k.autoBook && t.at.Some?)
    && (t.published.Some? ==> t.at.Some? && (k.autoBook ==> t.known == Some(None)))
    && (t.permit.Some? ==> k.autoBook && t.published.Some? && t.published.value != [])
    && (t.tried != [] || t.lost.Some? ==> t.permit == Some(Granted))
    && TriedInOrder(t)
    && (t.lost.Some? ==> |t.tried| < |t.published.value| && forall i :: 0 <= i < |t.tried| ==> Refused(t.tried[i]))
    && (t.reconciled != [] ==> t.lost.Some? && |t.reconciled| <= RECONCILE_ATTEMPTS)
    && (forall i :: 0 <= i < |t.reconciled| - 1 ==> t.reconciled[i].None?)
    && (t.cancelRead.Some? ==> t.permit == Some(Granted) && Absence(t))
  }

  lemma StandsInSequence(k: Setup, x: Poller, t: Transcript)
    requires x.Working? && Stands(k, x, t)
    ensures InSequence(k, t)
  {
  }

  /** The answers alone determine the decision. */
  ghost predicate AnswersDecide(k: Setup, x: Poller, t: Transcript)
    requires x.Working?
  {
    var decided := x.pc.Decided?;
    && (decided && x.pc.plan.Lapse? <==> t.at.Some? && x.claim.watch.IsExhausted(t.at.value))
    && (decided && x.pc.plan.Offer? <==> !k.autoBook && t.published.Some? && t.published.value != [])
    && (decided && x.pc.plan.Offer? ==> t.published == Some(x.pc.plan.slots))
    && (decided && x.pc.plan.Reserve? <==> exists c :: Confirms(t, c))
    && (decided && x.pc.plan.Reserve? ==>
          Confirms(t, x.pc.plan.confirmation) && (x.pc.plan.attempted <==> t.known == Some(None)))
    && (decided && x.pc.plan.Withdraw? <==> t.permit == Some(Withdrawn) || t.cancelRead == Some(true))
    && (decided && x.pc.plan.Yield? <==> t.permit == Some(Fenced))
    && (decided && x.pc.plan.Miss? <==> t.published == Some([]) || (t.cancelRead == Some(false) && t.lost.None?))
    && (decided && x.pc.plan.Outage? <==>
          t.failed.Some? || NeverAnswered(t) || (t.cancelRead == Some(false) && t.lost.Some?))
    && (decided && x.pc.plan.Outage? ==> Some(x.pc.plan.error) == if t.failed.Some? then t.failed else t.lost)
  }

  lemma StandsDecide(k: Setup, x: Poller, t: Transcript)
    requires x.Working? && Stands(k, x, t)
    ensures AnswersDecide(k, x, t)
    ensures !x.pc.Fresh? ==> t.at == Some(x.at)
  {
    if x.pc.Decided? && x.pc.plan.Reserve? {
      assert Confirms(t, x.pc.plan.confirmation);
    } else {
      forall c
        ensures !Confirms(t, c)
      {
      }
    }
  }

  /** In every history, what a poll has decided and whether it has is determined by its answers, and its calls
      were made in order: the slots one by one, and each call only after the answer that calls for it. */
  lemma PollDecides(k: Setup, start: World, steps: seq<Step>, p: nat)
    requires History(k, start, steps)
    ensures var w, t := Reached(k, start, steps), Heard(k, start, steps, p, SILENT);
            At(w, p) ==> AnswersDecide(k, w.pollers[p], t) && InSequence(k, t)
  {
    StandsThroughout(k, start, steps, p, SILENT);
    var w, t := Reached(k, start, steps), Heard(k, start, steps, p, SILENT);
    hide History, Reached, Heard, Stands, AnswersDecide, InSequence;
    if At(w, p) {
      StandsInSequence(k, w.pollers[p], t);
      StandsDecide(k, w.pollers[p], t);
    }
  }

  // -- no poll gets stuck --------------------------------------------------------------------------------------

  /** The call the answers so far call for can be made, whatever it will be told. */
  ghost predicate NextCallReady(k: Setup, w: World, p: nat, t: Transcript)
    requires At(w, p)
  {
    if PcOf(w, p).Decided? then
      if PcOf(w, p).plan.Yield? then Enabled(k, w, GiveUp(p))
      else forall offset :: k.pacing.Valid() && k.pacing.Draws(offset) ==> Enabled(k, w, Step.Commit(p, offset))
    else if t.at.None? then Enabled(k, w, Check(p))
    else if k.autoBook && t.known.None? then Enabled(k, w, Recall(p))
    else if t.published.None? then
      forall candidates, operation, victims :: Fair(w.cache, w.now, Use(operation, candidates, victims), k.limits) ==>
        Enabled(k, w, Step.Look(p, candidates, operation, victims))
    else if t.permit.None? then Enabled(k, w, AskPermit(p))
    else if Absence(t) then Enabled(k, w, Weigh(p))
    else if t.lost.Some? then forall answered :: Enabled(k, w, Reconcile(p, answered))
    else w.now < w.pollers[p].claim.leaseExpiresAt ==> forall reply :: Enabled(k, w, Place(p, reply))
  }

  lemma StandsReady(k: Setup, w: World, p: nat, t: Transcript)
    requires At(w, p) && Stands(k, w.pollers[p], t)
    ensures NextCallReady(k, w, p, t)
  {
    hide Fair;
  }

  /** The next booking call is for the first published slot not tried yet. */
  lemma NextSlot(k: Setup, w: World, p: nat, t: Transcript)
    requires At(w, p) && Stands(k, w.pollers[p], t) && PcOf(w, p).Placing?
    ensures t.published.Some? && |t.tried| < |t.published.value| && PcOf(w, p).slots[0] == t.published.value[|t.tried|]
  {
  }

  /** A poll can make its next call, or commit or give up once it has decided; it waits for nothing but its own calls. */
  lemma PollGoesOn(k: Setup, start: World, steps: seq<Step>, p: nat)
    requires History(k, start, steps)
    ensures var w, t := Reached(k, start, steps), Heard(k, start, steps, p, SILENT);
            At(w, p) ==> NextCallReady(k, w, p, t)
  {
    StandsThroughout(k, start, steps, p, SILENT);
    var w, t := Reached(k, start, steps), Heard(k, start, steps, p, SILENT);
    hide History, Reached, Heard, Stands, NextCallReady;
    if At(w, p) {
      StandsReady(k, w, p, t);
    }
  }

  /** A delivery puts a poller to work exactly when it names the current window, that is due or the schedule
      is waived, and no live claim holds it; the work starts under the newest token with a whole lease. */
  lemma DeliveryStarts(k: Setup, start: World, steps: seq<Step>, p: nat, window: string, owner: string, ignoreSchedule: bool)
    requires History(k, start, steps)
    ensures var w := Reached(k, start, steps);
            p !in w.pollers ==>
              var v := Next(k, w, Deliver(p, window, owner, ignoreSchedule));
              && (At(v, p) <==>
                    && w.cell.IsActive() && !w.cell.HasLiveClaim(w.now)
                    && w.cell.marker.Some? && w.cell.marker.value.window == window
                    && (ignoreSchedule || w.cell.marker.value.scheduledFor <= w.now))
              && (At(v, p) ==>
                    && PcOf(v, p).Fresh? && Owns(v.cell, v.pollers[p].claim, v.now)
                    && v.pollers[p].claim.leaseExpiresAt == w.now + POLL_LEASE
                    && v.pollers[p].claim.token > w.cell.fence
                    && Some(v.pollers[p].claim.watch) == w.cell.watch && Some(v.pollers[p].claim.runtime) == w.cell.runtime)
              && (!At(v, p) ==> v == w)
  {
    Reaches(k, start, steps);
    hide Reached, History, CacheOK, LogOK, OutcomeOK, PollersOK, TokensDistinct, NoticesOK;
  }

  /** Everything else may happen at any time: the clock runs on, pollers crash, are delivered and fail, the watch is
      cancelled or swept, pending calls land, other watches use the provider. */
  lemma AnythingMayHappen(k: Setup, w: World, p: nat, later: nat, window: string, owner: string, waived: bool, error: string,
                          call: Call, use: CacheOp)
    ensures later >= w.now ==> Enabled(k, w, Tick(later)) && Next(k, w, Tick(later)) == w.(now := later)
    ensures p in w.pollers ==> Enabled(k, w, Crash(p)) && Next(k, w, Crash(p)) == w.(pollers := w.pollers - {p})
    ensures p !in w.pollers ==> Enabled(k, w, Deliver(p, window, owner, waived)) && Enabled(k, w, SweepExpire(p))
    ensures At(w, p) && !PcOf(w, p).Fresh? && !PcOf(w, p).Decided? ==> Enabled(k, w, Fail(p, error))
    ensures p in w.pollers && w.pollers[p].Announcing? ==>
              Enabled(k, w, Announce(p)) && Next(k, w, Announce(p)).notices == w.notices + [w.pollers[p].status]
    ensures Enabled(k, w, Cancel)
    ensures call in w.calls && w.now < call.until ==>
              Enabled(k, w, Land(call)) && Next(k, w, Land(call)).calls == w.calls - {call}
    ensures Fair(w.cache, w.now, use, k.limits) && (use.Take? ==> use.key != k.Key()) ==>
              Enabled(k, w, Others(use)) && Next(k, w, Others(use)).cache == Do(w.cache, w.now, use, k.limits)
  {
    hide Fair, Do;
  }

  /** Watches book under keys of their own. */
  lemma KeysDiffer(a: Setup, b: Setup)
    requires a.Key() == b.Key()
    ensures a.id == b.id
  {
    assert a.Key()[6..] == a.id && b.Key()[6..] == b.id;
  }

  // -- what a poll leaves behind ---------------------------------------------------------------------------------

  /** A commit by the owner stores the decided document, and the poller goes on to announce it if it is owed. */
  lemma Stored(k: Setup, w: World, p: nat, offset: int)
    requires WorldOK(k, w) && MayCommit(k, w, p, offset) && Owns(w.cell, w.pollers[p].claim, w.now)
    ensures var x, v := w.pollers[p], Next(k, w, Step.Commit(p, offset));
            var watch := Decide(k.pacing, x.claim, x.at, x.pc.plan, offset).0;
            && v.cell.watch == Some(watch) && v.now == w.now && v.cache == w.cache && v.calls == w.calls
            && (if Announces(watch.status) then p in v.pollers && v.pollers[p] == Announcing(watch.status) else p !in v.pollers)
  {
    hide Decide, Open, Closed, CacheOK, OutcomeOK, LogOK, PollersOK, TokensDistinct, NoticesOK;
  }

  /** An answered search spends an attempt, unless a cancellation or a failure took its result. */
  predicate Spends(k: Setup, t: Transcript) {
    && t.published.Some? && t.failed.None?
    && t.permit != Some(Withdrawn) && t.cancelRead != Some(true) && !NeverAnswered(t)
    && !(t.cancelRead == Some(false) && t.lost.Some?)
  }

  /** The committed document in terms of the answers alone. */
  ghost predicate TellsTruth(k: Setup, seen: Watch, watch: Watch, t: Transcript) {
    && (watch.status == Found <==> !k.autoBook && t.published.Some? && t.published.value != [])
    && (watch.status == Found ==>
          watch.foundSlots <= t.published.value && |watch.foundSlots| == Min(|t.published.value|, MAX_RECORDED_SLOTS))
    && (watch.status == Booked <==> exists c :: Confirms(t, c))
    && (watch.status == Booked ==>
          watch.booking.Some? && Confirms(t, watch.booking.value) && watch.foundSlots == [watch.booking.value.slot])
    && (watch.status == Status.Cancelled <==> t.permit == Some(Withdrawn) || t.cancelRead == Some(true))
    && watch.attempts == seen.attempts + (if Spends(k, t) then 1 else 0)
    && (watch.status == Active ==>
          && t.at.Some? && watch.lastCheckedAt == t.at
          && watch.lastError == if Spends(k, t) then None else if t.failed.Some? then t.failed else t.lost)
  }

  lemma DecisionTellsTruth(k: Setup, x: Poller, t: Transcript, offset: int)
    requires k.Valid() && k.pacing.Draws(offset) && x.Working? && x.pc.Decided? && !x.pc.plan.Yield?
    requires Stands(k, x, t) && x.claim.watch.status == Active && (x.pc.plan.Lapse? || !x.claim.watch.IsExhausted(x.at))
    ensures TellsTruth(k, x.claim.watch, Decide(k.pacing, x.claim, x.at, x.pc.plan, offset).0, t)
  {
    StandsDecide(k, x, t);
    StandsInSequence(k, x, t);
    DecisionStatus(k.pacing, x.claim, x.at, x.pc.plan, offset);
    SpendsIffAnswered(k, x, t);
    hide Stands, InSequence;
    if !x.pc.plan.Lapse? {
      DecisionBudget(k.pacing, x.claim, x.at, x.pc.plan, offset);
    }
    OutageDelayBounds(k.pacing, SaturatingOutages(k.pacing, x.claim.runtime.outages + 1), x.at, x.claim.watch.expiresAt, offset);
    hide OutageDelay, SaturatingOutages, Confirms, Spends;
  }

  lemma SpendsIffAnswered(k: Setup, x: Poller, t: Transcript)
    requires x.Working? && x.pc.Decided? && Stands(k, x, t)
    ensures Spends(k, t) <==> x.pc.plan.Miss? || x.pc.plan.Offer? || x.pc.plan.Yield? || (x.pc.plan.Reserve? && x.pc.plan.attempted)
  {
  }

  /** What a poll that still owns its window stores is what its answers say: FOUND with the published slots if and
      only if a notify-only search published some, BOOKED if and only if a call confirmed a reservation, CANCELLED
      if and only if nothing was booked and a request was read; and it is announced accordingly. */
  lemma PollEnds(k: Setup, start: World, steps: seq<Step>, p: nat, offset: int)
    requires History(k, start, steps)
    ensures var w, t := Reached(k, start, steps), Heard(k, start, steps, p, SILENT);
            MayCommit(k, w, p, offset) && Owns(w.cell, w.pollers[p].claim, w.now) ==>
              var v := Next(k, w, Step.Commit(p, offset));
              && w.cell.watch.Some? && v.cell.watch.Some?
              && TellsTruth(k, w.cell.watch.value, v.cell.watch.value, t)
              && (if v.cell.watch.value.status in {Found, Booked, Expired}
                  then p in v.pollers && v.pollers[p] == Announcing(v.cell.watch.value.status) else p !in v.pollers)
  {
    StandsThroughout(k, start, steps, p, SILENT);
    Reaches(k, start, steps);
    OneOwner(k, start, steps, p, p);
    var w, t := Reached(k, start, steps), Heard(k, start, steps, p, SILENT);
    hide History, Reached, Heard, Stands, TellsTruth, Next, WorldOK, Owns, Decide;
    if MayCommit(k, w, p, offset) && Owns(w.cell, w.pollers[p].claim, w.now) {
      Working(k, w, p);
      Stored(k, w, p, offset);
      DecisionTellsTruth(k, w.pollers[p], t, offset);
    }
  }

  lemma Working(k: Setup, w: World, p: nat)
    requires WorldOK(k, w) && At(w, p)
    ensures var x := w.pollers[p];
            && k.Valid() && x.claim.watch.status == Active
            && (x.pc.Fresh? || x.pc == Decided(Lapse) || !x.claim.watch.IsExhausted(x.at))
  {
    assert PollerOK(k, w.now, w.cell, w.cache, w.late, w.route, w.pollers[p]);
    hide CellOK, CacheOK, OutcomeOK, LogOK, PollersOK, TokensDistinct, NoticesOK;
  }

  // -- nobody is left waiting ------------------------------------------------------------------------------------

  /** Someone is about to announce this ending. */
  predicate Announcer(w: World, p: nat, status: Status) {
    p in w.pollers && w.pollers[p] == Announcing(status)
  }

  /** A watch that has ended, but for a cancellation, is announced or about to be. */
  ghost predicate NoticeOwed(w: World) {
    w.cell.IsFinished() && w.cell.watch.value.status != Status.Cancelled ==>
      w.notices == [w.cell.watch.value.status] || exists p :: Announcer(w, p, w.cell.watch.value.status)
  }

  /** Only an announcement ends an announcer's work. */
  lemma AnnouncerStays(k: Setup, w: World, step: Step, p: nat, status: Status)
    requires Enabled(k, w, step) && Announcer(w, p, status) && !step.Crash? && step != Announce(p)
    ensures Announcer(Next(k, w, step), p, status)
  {
    hide Fair, Publish, BookSlot, Decide, GetBooking, Do, ClaimWindow, BeginBooking, CommitWindow, CancelIfActive,
      ExpireIfEligible, ReleaseClaim;
  }

  /** A step that ends the watch otherwise than by cancelling it leaves someone to announce it. */
  lemma EndingIsOwed(k: Setup, w: World, step: Step)
    requires WorldOK(k, w) && Enabled(k, w, step) && w.cell.IsActive() && Next(k, w, step).cell.IsFinished()
    ensures NoticeOwed(Next(k, w, step))
  {
    var v := Next(k, w, step);
    if step.Commit? {
      CommitEffect(k, w, step.p, step.offset);
      hide CellOK, CacheOK, OutcomeOK, LogOK, PollersOK, TokensDistinct, NoticesOK, CommitOp, Apply, Owns;
      assert v.cell.watch.value.status != Status.Cancelled ==> Announcer(v, step.p, v.cell.watch.value.status);
    } else {
      OtherEndings(k, w, step);
      if v.cell.watch.value.status != Status.Cancelled {
        assert Announcer(v, step.p, Expired);
      }
    }
  }

  lemma OtherEndings(k: Setup, w: World, step: Step)
    requires WorldOK(k, w) && Enabled(k, w, step) && !step.Commit? && w.cell.IsActive() && Next(k, w, step).cell.IsFinished()
    ensures var v := Next(k, w, step);
            if step.Cancel? then v.cell.watch.value.status == Status.Cancelled
            else step.SweepExpire? && v.cell.watch.value.status == Expired && Announcer(v, step.p, Expired)
  {
    hide BookSlot, Fair, Do, Publish, GetBooking, CacheOK, OutcomeOK, LogOK, PollersOK, TokensDistinct, NoticesOK, Open, Closed;
  }

  lemma OwedOneStep(k: Setup, w: World, step: Step)
    requires WorldOK(k, w) && Enabled(k, w, step) && !step.Crash? && NoticeOwed(w)
    ensures NoticeOwed(Next(k, w, step))
  {
    var v := Next(k, w, step);
    if w.cell.IsActive() {
      if v.cell.IsFinished() {
        EndingIsOwed(k, w, step);
      }
      hide WorldOK, Enabled, Next;
    } else {
      assert w.cell.watch.Some?;
      FinishedOneStep(k, w, step);
      StepKeeps(k, w, step);
      assert NoticesOK(w.cell, w.pollers, w.notices) && NoticesOK(v.cell, v.pollers, v.notices);
      NoticesGrow(k, w, step);
      var status := w.cell.watch.value.status;
      if status != Status.Cancelled && w.notices != [status] {
        var p :| Announcer(w, p, status);
        AnnouncedBy(k, w, step, p, status);
      }
      hide WorldOK, Enabled, Next;
    }
  }

  lemma AnnouncedBy(k: Setup, w: World, step: Step, p: nat, status: Status)
    requires Enabled(k, w, step) && !step.Crash? && Announcer(w, p, status) && NoticesOK(w.cell, w.pollers, w.notices)
    ensures step == Announce(p) ==> Next(k, w, step).notices == [status]
    ensures step != Announce(p) ==> Announcer(Next(k, w, step), p, status)
  {
    if step != Announce(p) {
      AnnouncerStays(k, w, step, p, status);
      hide Next, Enabled;
    } else {
      assert w.notices == [];
    }
  }

  lemma NoticesGrow(k: Setup, w: World, step: Step)
    requires Enabled(k, w, step)
    ensures w.notices <= Next(k, w, step).notices
  {
    hide Fair, Publish, BookSlot, Decide, GetBooking, Do, ClaimWindow, BeginBooking, CommitWindow, CancelIfActive,
      ExpireIfEligible, ReleaseClaim, Apply;
  }

  lemma {:induction false} OwedThroughout(k: Setup, w: World, steps: seq<Step>)
    requires WorldOK(k, w) && IsTrace(k, w, steps) && NoticeOwed(w)
    requires forall i :: 0 <= i < |steps| ==> !steps[i].Crash?
    ensures NoticeOwed(Reached(k, w, steps))
    decreases |steps|
  {
    if steps != [] {
      StepKeeps(k, w, steps[0]);
      OwedOneStep(k, w, steps[0]);
      hide WorldOK, Enabled, Next, NoticeOwed;
      OwedThroughout(k, Next(k, w, steps[0]), steps[1..]);
    }
  }

  /** Where nobody crashes, a watch that was found, booked or has expired is announced, or someone is about to. */
  lemma EndingsAreAnnounced(k: Setup, start: World, steps: seq<Step>)
    requires History(k, start, steps) && forall i :: 0 <= i < |steps| ==> !steps[i].Crash?
    ensures NoticeOwed(Reached(k, start, steps))
  {
    StartKeeps(k, start);
    assert NoticeOwed(start);
    hide WorldOK, NoticeOwed, Reached;
    OwedThroughout(k, start, steps);
  }
}
