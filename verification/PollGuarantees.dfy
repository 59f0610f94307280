/** What the poll protocol promises over whole runs. */
module PollGuarantees {
  import opened Wrappers
  import opened Watches
  import opened WatchCells
  import opened CellRuns
  import opened MockCache
  import opened PollTiming
  import opened PollPlans
  import opened PollProtocol
  import opened PollSafety

  /** `steps` is a history of one watch from its creation, over any sound provider state. */
  ghost predicate History(k: Setup, start: World, steps: seq<Step>) {
    && k.Valid() && IsStart(k, start) && CacheOK(start.cache, start.now, k.limits.capacity)
    && IsTrace(k, start, steps)
  }

  lemma Reaches(k: Setup, start: World, steps: seq<Step>)
    requires History(k, start, steps)
    ensures WorldOK(k, Reached(k, start, steps))
  {
    StartKeeps(k, start);
    TraceKeeps(k, start, steps);
  }

  // -- fencing --------------------------------------------------------------------------

  /** However polls overlap, crash and outlive their leases, at most one passes as owner; it holds
      the newest token and its snapshot is still the stored document and sidecar. */
  lemma OneOwner(k: Setup, start: World, steps: seq<Step>, p: nat, q: nat)
    requires History(k, start, steps)
    ensures var w := Reached(k, start, steps);
            At(w, p) && Owns(w.cell, w.pollers[p].claim, w.now) ==>
              && w.pollers[p].claim.token == w.cell.fence
              && w.cell.watch == Some(w.pollers[p].claim.watch)
              && Agrees(w.cell.runtime.value, w.pollers[p].claim.runtime)
              && (At(w, q) && q != p ==> !Owns(w.cell, w.pollers[q].claim, w.now))
  {
    Reaches(k, start, steps);
    var w := Reached(k, start, steps);
    hide Reached, History;
    if At(w, p) {
      assert PollerOK(k, w.now, w.cell, w.cache, w.late, w.route, w.pollers[p]);
    }
    hide CacheOK, LogOK, OutcomeOK, PollersOK, NoticesOK, Open, Closed, Leased, Knows;
  }

  /** No window and no revision is ever committed twice, and commits come under ever newer tokens. */
  lemma CommittedOnce(k: Setup, start: World, steps: seq<Step>, i: nat, j: nat)
    requires History(k, start, steps)
    ensures var log := Reached(k, start, steps).commits;
            i < j < |log| ==>
              log[i].window != log[j].window && log[i].revision < log[j].revision && log[i].token < log[j].token
  {
    Reaches(k, start, steps);
    var w := Reached(k, start, steps);
    hide Reached, History, CellOK, CacheOK, OutcomeOK, PollersOK, TokensDistinct, NoticesOK;
    if i < j < |w.commits| {
      if w.commits[i].window == w.commits[j].window {
        WindowIdInjective(k.id, i, j);
      }
    }
  }

  /** A commit either comes from the owner and advances revision and cadence by exactly one,
      or leaves the store and the provider as they were. */
  lemma CommitIsFenced(k: Setup, start: World, steps: seq<Step>, p: nat, offset: int)
    requires History(k, start, steps)
    ensures var w := Reached(k, start, steps);
            MayCommit(k, w, p, offset) ==>
              if Owns(w.cell, w.pollers[p].claim, w.now) then
                AdvancesByOne(w, DoCommit(k, w, p, offset), w.pollers[p].claim)
              else DoCommit(k, w, p, offset) == Leave(w, p)
  {
    var w := Reached(k, start, steps);
    Reaches(k, start, steps);
    OneOwner(k, start, steps, p, p);
    hide *;
    if MayCommit(k, w, p, offset) {
      Fencing(k, w, p, offset);
    }
  }

  predicate MayCommit(k: Setup, w: World, p: nat, offset: int) {
    && At(w, p) && PcOf(w, p).Decided? && !PcOf(w, p).plan.Yield? && k.pacing.Valid() && k.pacing.Draws(offset)
  }

  lemma Fencing(k: Setup, w: World, p: nat, offset: int)
    requires WorldOK(k, w) && MayCommit(k, w, p, offset)
    requires Owns(w.cell, w.pollers[p].claim, w.now) ==>
               w.pollers[p].claim.token == w.cell.fence && Agrees(w.cell.runtime.value, w.pollers[p].claim.runtime)
    ensures if Owns(w.cell, w.pollers[p].claim, w.now) then
              AdvancesByOne(w, DoCommit(k, w, p, offset), w.pollers[p].claim)
            else DoCommit(k, w, p, offset) == Leave(w, p)
  {
    hide WorldOK, DoCommit, Owns, Agrees, AdvancesByOne, CommitOp, Apply, PollerOK, CellOK, Leave;
    var x, v := w.pollers[p], DoCommit(k, w, p, offset);
    CommitKeeps(k, w, p, offset);
    StoreAndPoller(k, w, p);
    StoreIsOK(k, v);
    CommitWrites(k, w, p, offset);
    if Owns(w.cell, x.claim, w.now) {
      CommitAdvances(k, w, v, x, offset);
    }
  }

  lemma StoreIsOK(k: Setup, w: World)
    requires WorldOK(k, w)
    ensures CellOK(k, w.now, w.cell) && k.Valid()
  {
  }

  lemma StoreAndPoller(k: Setup, w: World, p: nat)
    requires WorldOK(k, w) && At(w, p)
    ensures CellOK(k, w.now, w.cell) && k.Valid() && PollerOK(k, w.now, w.cell, w.cache, w.late, w.route, w.pollers[p])
  {
    hide CellOK, CacheOK, OutcomeOK, LogOK, PollerOK, TokensDistinct, NoticesOK;
  }

  lemma CommitWrites(k: Setup, w: World, p: nat, offset: int)
    requires CellOK(k, w.now, w.cell) && MayCommit(k, w, p, offset)
    ensures var x, v := w.pollers[p], DoCommit(k, w, p, offset);
            if Owns(w.cell, x.claim, w.now) then
              && v.cell == Apply(w.cell, k.id, w.now, k.retention, CommitOp(k, x, offset))
              && v.commits == w.commits + [Commitment(x.claim.window, x.claim.runtime.revision + 1, x.claim.token)]
            else v == Leave(w, p)
  {
    CommitEffect(k, w, p, offset);
    hide CellOK, DoCommit, Owns, Apply, CommitOp, Announces;
  }

  predicate AdvancesByOne(w: World, v: World, claim: WindowClaim) {
    && w.cell.runtime.Some? && v.cell.runtime.Some?
    && w.cell.runtime.value.window == Some(claim.window)
    && v.cell.runtime.value.revision == w.cell.runtime.value.revision + 1
    && (v.cell.IsActive() ==> v.cell.runtime.value.cadence == w.cell.runtime.value.cadence + 1)
    && v.commits == w.commits + [Commitment(claim.window, v.cell.runtime.value.revision, w.cell.fence)]
  }

  lemma CommitAdvances(k: Setup, w: World, v: World, x: Poller, offset: int)
    requires CellOK(k, w.now, w.cell) && CellOK(k, v.now, v.cell) && k.Valid() && k.pacing.Draws(offset)
    requires PollerOK(k, w.now, w.cell, w.cache, w.late, w.route, x) && x.Working? && x.pc.Decided?
    requires Owns(w.cell, x.claim, w.now) && x.claim.token == w.cell.fence && Agrees(w.cell.runtime.value, x.claim.runtime)
    requires v.cell == Apply(w.cell, k.id, w.now, k.retention, CommitOp(k, x, offset))
    requires v.commits == w.commits + [Commitment(x.claim.window, x.claim.runtime.revision + 1, x.claim.token)]
    ensures AdvancesByOne(w, v, x.claim)
  {
    assert x.claim.runtime.window == Some(x.claim.window) by {
      hide CellOK, Open, Genuine, Leased, Knows;
    }
    hide PollerOK, CellOK, Decide, Apply;
    CellAdvances(k, w.now, v.now, w.cell, CommitOp(k, x, offset));
  }

  lemma CellAdvances(k: Setup, now: nat, later: nat, c: Cell, op: CellOp)
    requires CellOK(k, now, c) && op.OpCommit? && Owns(c, op.claim, now)
    requires CellOK(k, later, Apply(c, k.id, now, k.retention, op))
    ensures var next := Apply(c, k.id, now, k.retention, op);
            && c.runtime.Some? && next.runtime.Some? && next.runtime.value.revision == c.runtime.value.revision + 1
            && (next.IsActive() ==> next.runtime.value.cadence == c.runtime.value.cadence + 1)
  {
    hide Closed;
  }

  // -- the store --------------------------------------------------------------------------

  /** Document, sidecar and marker never disagree: active means one current window whose marker, due
      time and next check agree and do not pass the deadline; finished means nothing left but the
      retention deadline. The document is always valid, though no step validates it. */
  lemma StoreCoherent(k: Setup, start: World, steps: seq<Step>)
    requires History(k, start, steps)
    ensures var c := Reached(k, start, steps).cell;
            && c.watch.Some? && c.runtime.Some? && c.watch.value.ValidState()
            && (c.IsActive() ==>
                  && c.watch.value.nextCheckAt.Some? && c.watch.value.nextCheckAt.value <= k.expiresAt
                  && c.marker == Some(Marker(WindowIdFor(k.id, c.runtime.value.revision), c.watch.value.nextCheckAt.value))
                  && c.runtime.value.window == Some(c.marker.value.window)
                  && c.runtime.value.scheduledFor == c.watch.value.nextCheckAt
                  && c.deleteAt.None?)
            && (c.IsFinished() ==>
                  && c.marker.None? && c.claim.None? && c.dispatch.None? && c.watch.value.nextCheckAt.None?
                  && c.deleteAt.Some? && c.runtime.value.deleteAt == c.deleteAt)
  {
    Reaches(k, start, steps);
    hide Reached, History, CacheOK, LogOK, OutcomeOK, PollersOK, TokensDistinct, NoticesOK;
  }

  /** Once the current window is due and no live claim holds it, a delivery of it is always owned. */
  lemma NoLostWork(k: Setup, start: World, steps: seq<Step>, p: nat, owner: string, ignoreSchedule: bool)
    requires History(k, start, steps)
    ensures var w := Reached(k, start, steps);
            w.cell.IsActive() ==>
              w.cell.marker.Some? &&
              var result := ClaimWindow(w.cell, w.now, w.cell.marker.value.window, owner, POLL_LEASE, ignoreSchedule).1;
              result.Owned? <==> !w.cell.HasLiveClaim(w.now) && (ignoreSchedule || w.cell.marker.value.scheduledFor <= w.now)
  {
    Reaches(k, start, steps);
    hide Reached, History, CacheOK, LogOK, OutcomeOK, PollersOK, TokensDistinct, NoticesOK;
  }

  // -- the reservation ----------------------------------------------------------------------

  /** The slot is withheld from everyone else, under this watch's key. */
  predicate ProtectsFor(k: Setup, w: World, s: string) {
    w.cache.Entombed(s, w.now) && w.cache.tombs[s].key == k.Key()
  }

  /** Any number of redelivered, crashed and overlapping polls leaves at most one protected slot. */
  lemma OneReservation(k: Setup, start: World, steps: seq<Step>, s: string, t: string)
    requires History(k, start, steps)
    ensures var w := Reached(k, start, steps);
            ProtectsFor(k, w, s) && ProtectsFor(k, w, t) ==> s == t
  {
    Reaches(k, start, steps);
    var w := Reached(k, start, steps);
    hide Reached, History, CellOK, LogOK, OutcomeOK, PollersOK, TokensDistinct, NoticesOK;
    if ProtectsFor(k, w, s) && ProtectsFor(k, w, t) {
      Exclusive(w.cache, w.now, k.Key(), s, k.Key(), t);
    }
  }

  /** A booked watch carries the provider's own confirmation: until the end of its retention the
      provider protects exactly that, under the watch's key and for its slot; and if no call has taken
      effect behind a poller's back, it never protects anything else. */
  lemma BookedIsReal(k: Setup, start: World, steps: seq<Step>)
    requires History(k, start, steps)
    ensures var w := Reached(k, start, steps);
            w.cell.watch.Some? && w.cell.watch.value.status == Booked ==>
              w.cell.watch.value.booking.Some? &&
              var booking := w.cell.watch.value.booking.value;
              && (w.now < booking.createdAt + k.limits.retention ==>
                    && GetBooking(w.cache, k.Key(), w.now) == Some(booking)
                    && ProtectsFor(k, w, booking.slot.slotId))
              && (!w.late && w.cache.Reserved(k.Key(), w.now) ==> GetBooking(w.cache, k.Key(), w.now) == Some(booking))
  {
    Reaches(k, start, steps);
    var w := Reached(k, start, steps);
    hide Reached, History, LogOK, PollersOK, TokensDistinct, NoticesOK, SlotsOK, Open, Closed, Coherent;
    if w.cache.Reserved(k.Key(), w.now) {
      assert Linked(w.cache, k.Key(), w.cache.bookings[k.Key()].confirmation.slot.slotId, w.now);
    }
  }

  // -- announcements --------------------------------------------------------------------------

  /** At most one announcement, naming the status the watch ended with, and none for a cancellation. */
  lemma OneAnnouncement(k: Setup, start: World, steps: seq<Step>)
    requires History(k, start, steps)
    ensures var w := Reached(k, start, steps);
            w.notices == [] ||
            (w.cell.IsFinished() && w.notices == [w.cell.watch.value.status] && w.notices[0] != Status.Cancelled)
  {
    Reaches(k, start, steps);
    hide Reached, History, CellOK, CacheOK, LogOK, OutcomeOK, PollersOK, TokensDistinct;
  }

  /** A finished watch never changes again, whatever still runs. */
  lemma {:induction false} FinishedForGood(k: Setup, w: World, steps: seq<Step>)
    requires IsTrace(k, w, steps) && w.cell.IsFinished()
    ensures Reached(k, w, steps).cell.watch == w.cell.watch
    decreases |steps|
  {
    if steps != [] {
      FinishedOneStep(k, w, steps[0]);
      hide Enabled, Next;
      FinishedForGood(k, Next(k, w, steps[0]), steps[1..]);
    }
  }

  lemma FinishedOneStep(k: Setup, w: World, step: Step)
    requires Enabled(k, w, step) && w.cell.IsFinished()
    ensures Next(k, w, step).cell.watch == w.cell.watch
  {
    hide Fair, Publish, BookSlot, Decide, GetBooking, Do;
  }
}
