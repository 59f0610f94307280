/** What every reachable state of the poll protocol keeps. */
module PollSafety {
  import opened Wrappers
  import opened Watches
  import opened WatchCells
  import opened CellRuns
  import opened MockCache
  import opened PollTiming
  import opened PollPlans
  import opened PollProtocol

  // -- the invariant ------------------------------------------------------------------

  /** The store: one current window with one agreeing marker while active, nothing but a
      retention deadline once finished. */
  predicate CellOK(k: Setup, now: nat, c: Cell) {
    && Coherent(c, now) && c.watch.Some? && c.runtime.Some?
    && (c.IsActive() ==> Open(k.Terms(), c.watch.value, c.runtime.value))
    && (c.IsFinished() ==>
          && Closed(k.Terms(), c.watch.value, c.runtime.value)
          && c.dispatch.None? && c.runtime.value.deleteAt == c.deleteAt)
  }

  /** A running lease is the stored one, until its holder commits. */
  predicate Leased(c: Cell, route: Option<Route>, claim: WindowClaim, now: nat) {
    now < claim.leaseExpiresAt ==>
      && (c.IsActive() ==> c.claim == Some(Lease(claim.window, claim.owner, claim.token, claim.leaseExpiresAt)))
      && route != Some(ByPoll)
  }

  /** Unless a call has taken effect behind its poller's back, an owner that saw no booking is right. */
  predicate Absent(k: Setup, c: Cell, cache: Cache, late: bool, claim: WindowClaim, now: nat) {
    !late && Owns(c, claim, now) ==> !cache.Reserved(k.Key(), now)
  }

  /** Until the confirmation's own retention ends, it is what the provider holds under the key. */
  predicate Holds(k: Setup, cache: Cache, now: nat, confirmation: Confirmation) {
    now < confirmation.createdAt + k.limits.retention ==>
      cache.Reserved(k.Key(), now) && cache.bookings[k.Key()].confirmation == confirmation
  }

  predicate Confirmed(k: Setup, c: Cell, cache: Cache, late: bool, claim: WindowClaim, now: nat, confirmation: Confirmation) {
    && Holds(k, cache, now, confirmation)
    && (!late && Owns(c, claim, now) && cache.Reserved(k.Key(), now) ==>
          cache.bookings[k.Key()].confirmation == confirmation)
  }

  /** The key's record is protected for exactly its confirmation's retention. */
  predicate RecordOK(k: Setup, cache: Cache) {
    k.Key() in cache.bookings ==>
      cache.bookings[k.Key()].protectedUntil == cache.bookings[k.Key()].confirmation.createdAt + k.limits.retention
  }

  /** While a permit may still be used, the store refuses to cancel under it. */
  predicate MayBook(c: Cell, claim: WindowClaim, now: nat) {
    now < claim.leaseExpiresAt ==>
      && c.watch.Some? && c.runtime.Some?
      && (if c.IsActive() then c.runtime.value.phase == Some(Booking) else c.watch.value.status != Status.Cancelled)
  }

  /** What a poller standing at `pc` knows about the provider, for as long as it owns the window. */
  predicate Knows(k: Setup, c: Cell, cache: Cache, late: bool, claim: WindowClaim, now: nat, pc: Pc) {
    match pc
    case Fresh => true
    case Asking => true
    case Cleared => Absent(k, c, cache, late, claim, now)
    case Holding(slots) => slots != [] && Absent(k, c, cache, late, claim, now)
    case Placing(slots) => slots != [] && Absent(k, c, cache, late, claim, now) && MayBook(c, claim, now)
    case Unsure(_, _) => true
    case Ruled(otherwise) => (otherwise.Miss? || otherwise.Outage?) && Absent(k, c, cache, late, claim, now)
    case Decided(plan) =>
      && (plan.Withdraw? ==> Absent(k, c, cache, late, claim, now))
      && (plan.Reserve? ==> Confirmed(k, c, cache, late, claim, now, plan.confirmation))
      && (plan.Offer? ==> plan.slots != [])
  }

  predicate WorkingOK(k: Setup, now: nat, c: Cell, cache: Cache, late: bool, route: Option<Route>,
                      claim: WindowClaim, at: nat, pc: Pc)
  {
    && Open(k.Terms(), claim.watch, claim.runtime) && claim.runtime.window == Some(claim.window)
    && Genuine(c, claim, now)
    && Leased(c, route, claim, now)
    && Knows(k, c, cache, late, claim, now, pc)
    && at <= now
    && (pc.Fresh? || pc == Decided(Lapse) || !claim.watch.IsExhausted(at))
  }

  predicate PollerOK(k: Setup, now: nat, c: Cell, cache: Cache, late: bool, route: Option<Route>, poller: Poller) {
    poller.Working? ==> WorkingOK(k, now, c, cache, late, route, poller.claim, poller.at, poller.pc)
  }

  /** How the watch ended, and what the provider then holds for it. */
  predicate OutcomeOK(k: Setup, now: nat, c: Cell, cache: Cache, late: bool, route: Option<Route>) {
    && (c.IsFinished() <==> route.Some?)
    && (c.IsFinished() ==>
          var watch := c.watch.value;
          && (route == Some(ByCancel) ==> watch.status == Status.Cancelled)
          && (route == Some(BySweep) ==> watch.status == Expired)
          && (watch.status == Booked ==> watch.booking.Some? && Holds(k, cache, now, watch.booking.value))
          && (watch.status == Booked && !late && cache.Reserved(k.Key(), now) ==>
                watch.booking == Some(cache.bookings[k.Key()].confirmation))
          && (watch.status == Status.Cancelled && route == Some(ByPoll) && !late ==> !cache.Reserved(k.Key(), now)))
  }

  /** The i-th commit consumed the i-th window, under an ever newer token. */
  predicate LogOK(id: string, c: Cell, route: Option<Route>, commits: seq<Commitment>) {
    && c.runtime.Some?
    && c.runtime.value.revision == |commits| + (if route.Some? && route != Some(ByPoll) then 1 else 0)
    && (forall i :: 0 <= i < |commits| ==>
          commits[i].window == WindowIdFor(id, i) && commits[i].revision == i + 1 && commits[i].token <= c.fence)
    && (forall i, j :: 0 <= i < j < |commits| ==> commits[i].token < commits[j].token)
    && (forall i :: 0 <= i < |commits| && c.claim.Some? ==> commits[i].token < c.claim.value.token)
  }

  predicate Announces(status: Status) {
    status in {Found, Booked, Expired}
  }

  /** At most one announcement, made or pending, and it names the status the watch ended with. */
  ghost predicate NoticesOK(c: Cell, pollers: map<nat, Poller>, notices: seq<Status>) {
    && (notices != [] ==>
          c.IsFinished() && notices == [c.watch.value.status] && Announces(c.watch.value.status))
    && (forall p :: p in pollers && pollers[p].Announcing? ==>
          && c.IsFinished() && c.watch.value.status == pollers[p].status && Announces(pollers[p].status)
          && notices == [])
    && (forall p, q :: p in pollers && q in pollers && pollers[p].Announcing? && pollers[q].Announcing? ==> p == q)
  }

  ghost predicate TokensDistinct(pollers: map<nat, Poller>) {
    forall p, q :: p in pollers && q in pollers && p != q && pollers[p].Working? && pollers[q].Working? ==>
      pollers[p].claim.token != pollers[q].claim.token
  }

  ghost predicate PollersOK(k: Setup, now: nat, c: Cell, cache: Cache, late: bool, route: Option<Route>, pollers: map<nat, Poller>) {
    forall p :: p in pollers ==> PollerOK(k, now, c, cache, late, route, pollers[p])
  }

  ghost predicate WorldOK(k: Setup, w: World) {
    && k.Valid()
    && CellOK(k, w.now, w.cell)
    && CacheOK(w.cache, w.now, k.limits.capacity)
    && RecordOK(k, w.cache)
    && OutcomeOK(k, w.now, w.cell, w.cache, w.late, w.route)
    && LogOK(k.id, w.cell, w.route, w.commits)
    && PollersOK(k, w.now, w.cell, w.cache, w.late, w.route, w.pollers)
    && TokensDistinct(w.pollers)
    && NoticesOK(w.cell, w.pollers, w.notices)
  }

  // -- the store ----------------------------------------------------------------------

  /** A commit is only ever handed a valid successor of its claim. */
  predicate Proposes(k: Setup, c: Cell, now: nat, op: CellOp) {
    op.OpCommit? && Owns(c, op.claim, now) ==>
      var stored := op.newRuntime.(revision := op.claim.runtime.revision + 1, phase := None);
      && (op.newWatch.status == Active ==> Open(k.Terms(), op.newWatch, stored))
      && (op.newWatch.status.IsTerminal() ==> Closed(k.Terms(), op.newWatch, stored))
  }

  lemma CellKept(k: Setup, now: nat, c: Cell, op: CellOp)
    requires CellOK(k, now, c) && !op.OpCreate? && Proposes(k, c, now, op)
    ensures CellOK(k, now, Apply(c, k.id, now, k.retention, op))
  {
    CoherentKept(c, k.id, now, k.retention, op);
    hide Coherent;
    assert c.IsActive() ==> c.marker.Some? by {
      assert Coherent(c, now);
    }
  }

  // -- a poller while others act ---------------------------------------------------------

  /** Not the commit or release of this claim's own holder. */
  predicate Foreign(op: CellOp, claim: WindowClaim) {
    && !op.OpCreate?
    && (op.OpCommit? ==> op.claim.token != claim.token)
    && (op.OpRelease? ==> op.claim.token != claim.token)
  }

  predicate RouteAfter(c: Cell, now: nat, op: CellOp, route: Option<Route>, after: Option<Route>) {
    after == Some(ByPoll) ==> route == Some(ByPoll) || (op.OpCommit? && Owns(c, op.claim, now))
  }

  lemma LeasedKept(k: Setup, now: nat, c: Cell, route: Option<Route>, after: Option<Route>, op: CellOp, claim: WindowClaim)
    requires CellOK(k, now, c) && Leased(c, route, claim, now) && Foreign(op, claim)
    requires OutcomeRoute(c, route) && RouteAfter(c, now, op, route, after)
    ensures Leased(Apply(c, k.id, now, k.retention, op), after, claim, now)
  {
    hide Open, Closed;
  }

  predicate OutcomeRoute(c: Cell, route: Option<Route>) {
    c.IsFinished() <==> route.Some?
  }

  /** Nothing anyone does to the store can make a claim pass the ownership test again. */
  lemma OwnsBefore(k: Setup, now: nat, c: Cell, op: CellOp, claim: WindowClaim)
    requires CellOK(k, now, c) && !op.OpCreate? && claim.token <= c.fence
    requires Owns(Apply(c, k.id, now, k.retention, op), claim, now)
    ensures Owns(c, claim, now)
  {
    if c.IsActive() {
      OpenHasMarker(k, c);
    }
    hide Open, Closed;
  }

  lemma OpenHasMarker(k: Setup, c: Cell)
    requires c.IsActive() && c.runtime.Some? && Open(k.Terms(), c.watch.value, c.runtime.value)
    ensures MarkerFor(c.runtime.value).Some?
  {
  }

  lemma MayBookKept(k: Setup, now: nat, c: Cell, route: Option<Route>, op: CellOp, claim: WindowClaim)
    requires CellOK(k, now, c) && Leased(c, route, claim, now) && Foreign(op, claim) && MayBook(c, claim, now)
    ensures MayBook(Apply(c, k.id, now, k.retention, op), claim, now)
  {
    if c.IsActive() {
      OpenHasMarker(k, c);
    }
    hide Open, Closed;
  }

  lemma OtherKept(k: Setup, now: nat, c: Cell, cache: Cache, late: bool, route: Option<Route>, after: Option<Route>,
                  op: CellOp, claim: WindowClaim, at: nat, pc: Pc)
    requires CellOK(k, now, c) && OutcomeRoute(c, route)
    requires WorkingOK(k, now, c, cache, late, route, claim, at, pc)
    requires Foreign(op, claim) && RouteAfter(c, now, op, route, after)
    ensures WorkingOK(k, now, Apply(c, k.id, now, k.retention, op), cache, late, after, claim, at, pc)
  {
    var next := Apply(c, k.id, now, k.retention, op);
    GenuineKept(c, k.id, now, k.retention, op, claim);
    LeasedKept(k, now, c, route, after, op, claim);
    if pc.Placing? {
      MayBookKept(k, now, c, route, op, claim);
    }
    assert Owns(next, claim, now) ==> Owns(c, claim, now) by {
      if Owns(next, claim, now) {
        OwnsBefore(k, now, c, op, claim);
      }
    }
    hide Apply, Open, Genuine, Leased, Owns, CellOK, MayBook;
  }

  /** The provider's answer for this watch's key is unchanged. */
  predicate SameHold(k: Setup, a: Cache, b: Cache, now: nat) {
    && (a.Reserved(k.Key(), now) <==> b.Reserved(k.Key(), now))
    && (a.Reserved(k.Key(), now) ==> a.bookings[k.Key()] == b.bookings[k.Key()])
  }

  /** A reservation under this watch's key, if any, is unchanged. */
  predicate StillHolds(k: Setup, a: Cache, b: Cache, now: nat) {
    a.Reserved(k.Key(), now) ==> b.Reserved(k.Key(), now) && a.bookings[k.Key()] == b.bookings[k.Key()]
  }

  lemma OtherSees(k: Setup, now: nat, c: Cell, a: Cache, b: Cache, late: bool, after: bool, route: Option<Route>, poller: Poller)
    requires PollerOK(k, now, c, a, late, route, poller) && StillHolds(k, a, b, now) && (late ==> after)
    requires !after && poller.Working? && Owns(c, poller.claim, now) ==> SameHold(k, a, b, now)
    ensures PollerOK(k, now, c, b, after, route, poller)
  {
    hide Open, Genuine, Leased, Owns, MayBook;
  }

  lemma CleanSameHold(k: Setup, a: Cache, now: nat, sweep: Sweep, batch: nat)
    requires FairSweep(a, sweep, now, k.limits.idleTtl, batch)
    ensures SameHold(k, a, Cleanup(a, sweep, now), now)
  {
    assert sweep.keys <= LapsedKeys(a, now);
    hide FairSweep, Setup.Key;
  }

  lemma UseSameHold(k: Setup, a: Cache, now: nat, use: CacheOp)
    requires CacheOK(a, now, k.limits.capacity) && Fair(a, now, use, k.limits)
    requires use.Take? ==> use.key != k.Key()
    ensures SameHold(k, a, Do(a, now, use, k.limits), now)
  {
    if use.Look? {
      PublishKeeps(a, use.candidates, use.operation, now, k.limits.capacity, k.limits.pinTtl, use.victims);
      hide CacheOK, Fair, Publish;
    } else if use.Clean? {
      CleanSameHold(k, a, now, use.sweep, use.batch);
      hide CacheOK, Fair, Cleanup, SameHold;
    } else {
      hide CacheOK, Fair, Setup.Key;
    }
  }

  lemma UseKeepsRecord(k: Setup, a: Cache, now: nat, use: CacheOp)
    requires CacheOK(a, now, k.limits.capacity) && Fair(a, now, use, k.limits) && RecordOK(k, a)
    requires use.Take? ==> use.key != k.Key()
    ensures RecordOK(k, Do(a, now, use, k.limits))
  {
    if use.Look? {
      PublishKeeps(a, use.candidates, use.operation, now, k.limits.capacity, k.limits.pinTtl, use.victims);
      hide CacheOK, Fair, Publish;
    } else {
      hide CacheOK, FairVictims, Publish, FairSweep, Setup.Key;
    }
  }

  lemma PollerLater(k: Setup, now: nat, later: nat, c: Cell, cache: Cache, late: bool, route: Option<Route>, poller: Poller)
    requires PollerOK(k, now, c, cache, late, route, poller) && now <= later && RecordOK(k, cache)
    ensures PollerOK(k, later, c, cache, late, route, poller)
  {
    hide Open;
  }

  // -- the set of pollers ----------------------------------------------------------------

  ghost predicate AllForeign(op: CellOp, pollers: map<nat, Poller>) {
    forall q :: q in pollers && pollers[q].Working? ==> Foreign(op, pollers[q].claim)
  }

  lemma OthersUnderOp(k: Setup, w: World, op: CellOp, after: Option<Route>)
    requires WorldOK(k, w) && RouteAfter(w.cell, w.now, op, w.route, after) && AllForeign(op, w.pollers)
    ensures PollersOK(k, w.now, Apply(w.cell, k.id, w.now, k.retention, op), w.cache, w.late, after, w.pollers)
  {
    hide CellOK, CacheOK, LogOK, NoticesOK, WorkingOK, Apply, Owns, Foreign;
    var next := Apply(w.cell, k.id, w.now, k.retention, op);
    forall q | q in w.pollers
      ensures PollerOK(k, w.now, next, w.cache, w.late, after, w.pollers[q])
    {
      var x := w.pollers[q];
      assert PollerOK(k, w.now, w.cell, w.cache, w.late, w.route, x);
      if x.Working? {
        OtherKept(k, w.now, w.cell, w.cache, w.late, w.route, after, op, x.claim, x.at, x.pc);
      }
    }
  }

  /** Announcements survive any step that leaves a finished watch as it ended. */
  lemma NoticesUnder(c: Cell, next: Cell, pollers: map<nat, Poller>, notices: seq<Status>)
    requires NoticesOK(c, pollers, notices)
    requires c.IsFinished() ==> next.watch == c.watch
    ensures NoticesOK(next, pollers, notices)
  {
  }

  lemma NoticesMoved(c: Cell, pollers: map<nat, Poller>, notices: seq<Status>, p: nat, poller: Poller)
    requires NoticesOK(c, pollers, notices) && poller.Working?
    ensures NoticesOK(c, pollers[p := poller], notices)
  {
  }

  lemma NoticesLeft(c: Cell, pollers: map<nat, Poller>, notices: seq<Status>, p: nat)
    requires NoticesOK(c, pollers, notices)
    ensures NoticesOK(c, pollers - {p}, notices)
  {
  }

  lemma NoticeQueued(c: Cell, next: Cell, pollers: map<nat, Poller>, notices: seq<Status>, p: nat)
    requires NoticesOK(c, pollers, notices) && c.IsActive()
    requires next.IsFinished() && Announces(next.watch.value.status)
    ensures NoticesOK(next, pollers[p := Announcing(next.watch.value.status)], notices)
  {
  }

  lemma NoticeMade(c: Cell, pollers: map<nat, Poller>, notices: seq<Status>, p: nat)
    requires NoticesOK(c, pollers, notices) && p in pollers && pollers[p].Announcing?
    ensures NoticesOK(c, pollers - {p}, notices + [pollers[p].status])
  {
  }

  lemma TokensMoved(pollers: map<nat, Poller>, p: nat, poller: Poller)
    requires TokensDistinct(pollers) && p in pollers && pollers[p].Working?
    requires poller.Working? ==> poller.claim == pollers[p].claim
    ensures TokensDistinct(pollers[p := poller]) && TokensDistinct(pollers - {p})
  {
  }

  lemma TokensAnnouncer(pollers: map<nat, Poller>, p: nat, poller: Poller)
    requires TokensDistinct(pollers) && poller.Announcing?
    ensures TokensDistinct(pollers[p := poller]) && TokensDistinct(pollers - {p})
  {
  }

  lemma TokensIssued(k: Setup, w: World, p: nat, poller: Poller)
    requires WorldOK(k, w) && poller.Working? && poller.claim.token > w.cell.fence
    ensures TokensDistinct(w.pollers[p := poller])
  {
    hide CellOK, CacheOK, OutcomeOK, LogOK, NoticesOK, Open, Leased, Knows;
    forall q | q in w.pollers && w.pollers[q].Working?
      ensures w.pollers[q].claim.token != poller.claim.token
    {
      assert PollerOK(k, w.now, w.cell, w.cache, w.late, w.route, w.pollers[q]);
    }
  }

  // -- the log of commits -------------------------------------------------------------------

  lemma LogKept(k: Setup, now: nat, c: Cell, op: CellOp, route: Option<Route>, after: Option<Route>, commits: seq<Commitment>)
    requires CellOK(k, now, c) && OutcomeRoute(c, route) && LogOK(k.id, c, route, commits)
    requires !op.OpCreate? && !op.OpCommit?
    requires var next := Apply(c, k.id, now, k.retention, op);
             if c.IsActive() && next.IsFinished() then after.Some? && after != Some(ByPoll) else after == route
    ensures LogOK(k.id, Apply(c, k.id, now, k.retention, op), after, commits)
  {
    if c.IsActive() {
      OpenHasMarker(k, c);
    }
    hide Open, Closed;
  }

  lemma LogExtended(k: Setup, now: nat, c: Cell, op: CellOp, route: Option<Route>, commits: seq<Commitment>)
    requires CellOK(k, now, c) && LogOK(k.id, c, route, commits) && OutcomeRoute(c, route)
    requires op.OpCommit? && Owns(c, op.claim, now)
    requires op.claim.window == WindowIdFor(k.id, op.claim.runtime.revision)
    ensures var next := Apply(c, k.id, now, k.retention, op);
            var entry := Commitment(op.claim.window, op.claim.runtime.revision + 1, op.claim.token);
            c.IsActive() && LogOK(k.id, next, if next.IsFinished() then Some(ByPoll) else route, commits + [entry])
  {
    hide Open, Closed;
  }

  // -- moves the steps are made of ------------------------------------------------------------

  lemma PcMoved(k: Setup, w: World, p: nat, poller: Poller)
    requires WorldOK(k, w) && At(w, p) && poller.Working? && poller.claim == w.pollers[p].claim
    requires PollerOK(k, w.now, w.cell, w.cache, w.late, w.route, poller)
    ensures WorldOK(k, w.(pollers := w.pollers[p := poller]))
  {
    TokensMoved(w.pollers, p, poller);
    NoticesMoved(w.cell, w.pollers, w.notices, p, poller);
    hide CellOK, CacheOK, OutcomeOK, LogOK, PollerOK, TokensDistinct, NoticesOK;
  }

  lemma Left(k: Setup, w: World, p: nat)
    requires WorldOK(k, w)
    ensures WorldOK(k, Leave(w, p))
  {
    NoticesLeft(w.cell, w.pollers, w.notices, p);
    hide CellOK, CacheOK, OutcomeOK, LogOK, PollerOK, NoticesOK;
  }

  lemma CacheMoved(k: Setup, w: World, cache: Cache, after: bool)
    requires WorldOK(k, w) && CacheOK(cache, w.now, k.limits.capacity) && RecordOK(k, cache)
    requires StillHolds(k, w.cache, cache, w.now) && (w.late ==> after)
    requires !after ==> SameHold(k, w.cache, cache, w.now)
    ensures WorldOK(k, w.(cache := cache, late := after))
  {
    forall q | q in w.pollers
      ensures PollerOK(k, w.now, w.cell, cache, after, w.route, w.pollers[q])
    {
      assert PollerOK(k, w.now, w.cell, w.cache, w.late, w.route, w.pollers[q]);
      OtherSees(k, w.now, w.cell, w.cache, cache, w.late, after, w.route, w.pollers[q]);
    }
    OutcomeSees(k, w.now, w.cell, w.cache, cache, w.late, after, w.route);
    hide CellOK, CacheOK, RecordOK, LogOK, OutcomeOK, PollerOK, TokensDistinct, NoticesOK;
  }

  lemma OutcomeSees(k: Setup, now: nat, c: Cell, a: Cache, b: Cache, late: bool, after: bool, route: Option<Route>)
    requires OutcomeOK(k, now, c, a, late, route) && StillHolds(k, a, b, now) && (late ==> after)
    requires !after ==> SameHold(k, a, b, now)
    ensures OutcomeOK(k, now, c, b, after, route)
  {
  }

  /** The calls still pending are no part of what the store, the provider and the pollers keep. */
  lemma CallsMoved(k: Setup, w: World, calls: set<Call>)
    requires WorldOK(k, w)
    ensures WorldOK(k, w.(calls := calls))
  {
    hide CellOK, CacheOK, RecordOK, LogOK, OutcomeOK, PollersOK, TokensDistinct, NoticesOK;
  }

  /** How a step that is not a commit may finish the watch. */
  predicate Ends(k: Setup, w: World, op: CellOp, after: Option<Route>) {
    var next := Apply(w.cell, k.id, w.now, k.retention, op);
    if w.cell.IsActive() && next.IsFinished() then
      || (after == Some(ByCancel) && next.watch.value.status == Status.Cancelled)
      || (after == Some(BySweep) && next.watch.value.status == Expired)
    else after == w.route
  }

  lemma FinishedStays(c: Cell, id: string, now: nat, retention: nat, op: CellOp)
    requires c.IsFinished()
    ensures Apply(c, id, now, retention, op).watch == c.watch
  {
  }

  lemma OutcomeUnder(k: Setup, w: World, op: CellOp, after: Option<Route>)
    requires WorldOK(k, w) && !op.OpCreate? && !op.OpCommit? && Ends(k, w, op, after)
    ensures OutcomeOK(k, w.now, Apply(w.cell, k.id, w.now, k.retention, op), w.cache, w.late, after)
  {
    hide CacheOK, LogOK, PollersOK, TokensDistinct, NoticesOK, Open, Closed;
  }

  /** The in-place part of a step: one store operation, everyone and everything else as it was. */
  lemma OpMoved(k: Setup, w: World, op: CellOp, after: Option<Route>)
    requires WorldOK(k, w) && !op.OpCreate? && !op.OpCommit? && AllForeign(op, w.pollers) && Ends(k, w, op, after)
    ensures WorldOK(k, w.(cell := Apply(w.cell, k.id, w.now, k.retention, op), route := after))
  {
    var next := Apply(w.cell, k.id, w.now, k.retention, op);
    CellKept(k, w.now, w.cell, op);
    OthersUnderOp(k, w, op, after);
    OutcomeUnder(k, w, op, after);
    LogKept(k, w.now, w.cell, op, w.route, after, w.commits);
    if w.cell.IsFinished() {
      FinishedStays(w.cell, k.id, w.now, k.retention, op);
    }
    NoticesUnder(w.cell, next, w.pollers, w.notices);
    hide CellOK, CacheOK, OutcomeOK, LogOK, PollersOK, TokensDistinct, NoticesOK, Apply;
  }

  // -- every step -----------------------------------------------------------------------------

  lemma TickKeeps(k: Setup, w: World, to: nat)
    requires WorldOK(k, w) && w.now <= to
    ensures WorldOK(k, w.(now := to))
  {
    CoherentLater(w.cell, w.now, to);
    CacheLater(w.cache, w.now, to, k.limits.capacity);
    forall q | q in w.pollers
      ensures PollerOK(k, to, w.cell, w.cache, w.late, w.route, w.pollers[q])
    {
      assert PollerOK(k, w.now, w.cell, w.cache, w.late, w.route, w.pollers[q]);
      PollerLater(k, w.now, to, w.cell, w.cache, w.late, w.route, w.pollers[q]);
    }
    hide Coherent, CacheOK, LogOK, PollerOK, TokensDistinct, NoticesOK, Open, Closed;
  }

  lemma DeliverKeeps(k: Setup, w: World, p: nat, window: string, owner: string, ignoreSchedule: bool)
    requires WorldOK(k, w) && p !in w.pollers
    ensures WorldOK(k, DoDeliver(w, p, window, owner, ignoreSchedule))
  {
    var op := OpClaim(window, owner, POLL_LEASE, ignoreSchedule);
    var (cell, result) := ClaimWindow(w.cell, w.now, window, owner, POLL_LEASE, ignoreSchedule);
    ClaimLeavesActive(k, w, op);
    OpMoved(k, w, op, w.route);
    if result.Owned? {
      var poller := Working(result.claim, w.now, Fresh);
      ClaimIsOK(k, w, window, owner, ignoreSchedule);
      TokensIssued(k, w, p, poller);
      NoticesMoved(cell, w.pollers, w.notices, p, poller);
      hide CellOK, CacheOK, OutcomeOK, LogOK, PollerOK, TokensDistinct, NoticesOK, ClaimWindow;
    }
  }

  lemma ClaimLeavesActive(k: Setup, w: World, op: CellOp)
    requires WorldOK(k, w) && (op.OpClaim? || op.OpPermit? || IsUpkeep(op))
    ensures Ends(k, w, op, w.route) && AllForeign(op, w.pollers)
  {
    hide CacheOK, OutcomeOK, LogOK, PollersOK, TokensDistinct, NoticesOK, Open, Closed, Coherent;
  }

  lemma ClaimIsOK(k: Setup, w: World, window: string, owner: string, ignoreSchedule: bool)
    requires WorldOK(k, w)
    ensures var (cell, result) := ClaimWindow(w.cell, w.now, window, owner, POLL_LEASE, ignoreSchedule);
            result.Owned? ==>
              && WorkingOK(k, w.now, cell, w.cache, w.late, w.route, result.claim, w.now, Fresh)
              && result.claim.token > w.cell.fence
  {
    GenuineIssued(w.cell, w.now, window, owner, POLL_LEASE, ignoreSchedule);
    hide CacheOK, LogOK, PollersOK, TokensDistinct, NoticesOK, Open, Closed, Genuine, Coherent;
  }

  /** One poller moves on, knowing what its new place requires. */
  lemma Advances(k: Setup, w: World, p: nat, pc: Pc)
    requires WorldOK(k, w) && At(w, p) && !PcOf(w, p).Fresh? && !PcOf(w, p).Decided? && !pc.Fresh?
    requires Knows(k, w.cell, w.cache, w.late, w.pollers[p].claim, w.now, pc)
    ensures WorldOK(k, Move(w, p, pc))
  {
    var x := w.pollers[p];
    assert PollerOK(k, w.now, w.cell, w.cache, w.late, w.route, x);
    assert PollerOK(k, w.now, w.cell, w.cache, w.late, w.route, x.(pc := pc)) by {
      hide WorldOK, Knows, Open, Genuine, Leased;
    }
    PcMoved(k, w, p, x.(pc := pc));
    hide WorldOK, Knows, PollerOK;
  }

  lemma Knowing(k: Setup, w: World, p: nat)
    requires WorldOK(k, w) && At(w, p)
    ensures Knows(k, w.cell, w.cache, w.late, w.pollers[p].claim, w.now, PcOf(w, p))
  {
    assert PollerOK(k, w.now, w.cell, w.cache, w.late, w.route, w.pollers[p]);
    hide CellOK, CacheOK, LogOK, OutcomeOK, TokensDistinct, NoticesOK, Open, Genuine, Leased, Knows;
  }

  lemma CheckKeeps(k: Setup, w: World, p: nat)
    requires WorldOK(k, w) && At(w, p)
    ensures WorldOK(k, DoCheck(w, p))
  {
    var x := w.pollers[p];
    assert PollerOK(k, w.now, w.cell, w.cache, w.late, w.route, x);
    var y := Working(x.claim, w.now, if x.claim.watch.IsExhausted(w.now) then Decided(Lapse) else Asking);
    assert PollerOK(k, w.now, w.cell, w.cache, w.late, w.route, y) by {
      hide WorldOK, Open, Genuine, Leased;
    }
    PcMoved(k, w, p, y);
    hide WorldOK, PollerOK;
  }

  lemma RecallKeeps(k: Setup, w: World, p: nat)
    requires WorldOK(k, w) && At(w, p) && PcOf(w, p).Asking?
    ensures WorldOK(k, DoRecall(k, w, p))
  {
    hide WorldOK, Owns;
    Advances(k, w, p, PcOf(DoRecall(k, w, p), p));
  }

  lemma ReconcileKeeps(k: Setup, w: World, p: nat, answered: bool)
    requires WorldOK(k, w) && At(w, p) && PcOf(w, p).Unsure?
    ensures WorldOK(k, DoReconcile(k, w, p, answered))
  {
    hide WorldOK, Owns;
    Advances(k, w, p, PcOf(DoReconcile(k, w, p, answered), p));
  }

  lemma WeighKeeps(k: Setup, w: World, p: nat)
    requires WorldOK(k, w) && At(w, p) && PcOf(w, p).Ruled?
    ensures WorldOK(k, DoWeigh(w, p))
  {
    Knowing(k, w, p);
    hide WorldOK, Absent, Confirmed, MayBook;
    Advances(k, w, p, PcOf(DoWeigh(w, p), p));
  }

  lemma LookKeeps(k: Setup, w: World, p: nat, candidates: seq<Slot>, operation: string, victims: seq<string>)
    requires WorldOK(k, w) && At(w, p) && (PcOf(w, p).Cleared? || (PcOf(w, p).Asking? && !k.autoBook))
    requires Fair(w.cache, w.now, Use(operation, candidates, victims), k.limits)
    ensures WorldOK(k, DoLook(k, w, p, candidates, operation, victims))
  {
    var v := DoLook(k, w, p, candidates, operation, victims);
    Looked(k, w, p, candidates, operation, victims);
    hide DoLook;
    hide WorldOK, Absent;
    Knowing(k, w.(cache := v.cache), p);
    Advances(k, w.(cache := v.cache), p, PcOf(v, p));
  }

  /** A search moves the shared cache like any other search, and its poller by what it found. */
  lemma Looked(k: Setup, w: World, p: nat, candidates: seq<Slot>, operation: string, victims: seq<string>)
    requires WorldOK(k, w) && At(w, p) && (PcOf(w, p).Cleared? || (PcOf(w, p).Asking? && !k.autoBook))
    requires Fair(w.cache, w.now, Use(operation, candidates, victims), k.limits)
    ensures var v := DoLook(k, w, p, candidates, operation, victims);
            && WorldOK(k, w.(cache := v.cache))
            && At(v, p) && v == Move(w.(cache := v.cache), p, PcOf(v, p))
            && match PcOf(v, p)
               case Holding(slots) => k.autoBook && slots != []
               case Decided(plan) => plan.Miss? || (plan.Offer? && plan.slots != [] && !k.autoBook)
               case _ => false
  {
    if candidates != [] {
      OthersMoved(k, w, Use(operation, candidates, victims));
    }
    hide WorldOK, FairVictims;
  }

  lemma AskPermitKeeps(k: Setup, w: World, p: nat)
    requires WorldOK(k, w) && At(w, p) && PcOf(w, p).Holding?
    ensures WorldOK(k, DoAskPermit(w, p))
  {
    var op := OpPermit(w.pollers[p].claim);
    var (cell, permit) := BeginBooking(w.cell, w.now, w.pollers[p].claim);
    ClaimLeavesActive(k, w, op);
    OpMoved(k, w, op, w.route);
    assert permit.Granted? ==> MayBook(cell, w.pollers[p].claim, w.now);
    hide WorldOK, Ends, AllForeign, BeginBooking, Absent, Confirmed, MayBook;
    Knowing(k, w.(cell := cell), p);
    Advances(k, w.(cell := cell), p, AfterPermit(PcOf(w, p).slots, permit));
  }

  lemma UpkeepKeeps(k: Setup, w: World, op: CellOp)
    requires WorldOK(k, w) && IsUpkeep(op)
    ensures WorldOK(k, w.(cell := Apply(w.cell, k.id, w.now, k.retention, op)))
  {
    ClaimLeavesActive(k, w, op);
    OpMoved(k, w, op, w.route);
  }

  lemma OthersMoved(k: Setup, w: World, use: CacheOp)
    requires WorldOK(k, w) && Fair(w.cache, w.now, use, k.limits) && (use.Take? ==> use.key != k.Key())
    ensures WorldOK(k, w.(cache := Do(w.cache, w.now, use, k.limits)))
  {
    DoKeeps(w.cache, w.now, use, k.limits);
    UseSameHold(k, w.cache, w.now, use);
    UseKeepsRecord(k, w.cache, w.now, use);
    var cache := Do(w.cache, w.now, use, k.limits);
    hide CellOK, CacheOK, RecordOK, LogOK, OutcomeOK, PollersOK, TokensDistinct, NoticesOK, Fair, Do;
    CacheMoved(k, w, cache, w.late);
  }

  /** Whoever may still call the provider is the only one who may: no other claim passes as owner,
      and no poll has finished the watch. */
  lemma SoleCaller(k: Setup, w: World, p: nat, q: nat)
    requires WorldOK(k, w) && At(w, p) && w.now < w.pollers[p].claim.leaseExpiresAt
    ensures w.route != Some(ByPoll)
    ensures At(w, q) && q != p ==> !Owns(w.cell, w.pollers[q].claim, w.now)
  {
    assert PollerOK(k, w.now, w.cell, w.cache, w.late, w.route, w.pollers[p]);
    hide CacheOK, LogOK, OutcomeOK, PollersOK, NoticesOK, Open, Closed, Knows, Genuine;
  }

  lemma BookingKeepsOutcome(k: Setup, now: nat, c: Cell, a: Cache, b: Cache, late: bool, route: Option<Route>)
    requires OutcomeOK(k, now, c, a, late, route) && route != Some(ByPoll)
    ensures OutcomeOK(k, now, c, b, late, route)
  {
    if route.Some? {
      match route.value
      case ByPoll => assert false;
      case ByCancel =>
      case BySweep =>
    }
  }

  /** A booking under the key replays a standing reservation, and is recorded with its retention. */
  lemma BookStillHolds(k: Setup, a: Cache, now: nat, slotId: string)
    requires RecordOK(k, a)
    ensures var b := BookSlot(a, slotId, k.Key(), now, k.limits.retention).0;
            StillHolds(k, a, b, now) && RecordOK(k, b)
  {
  }

  lemma LandedForOthers(k: Setup, w: World, p: nat, cache: Cache)
    requires WorldOK(k, w) && At(w, p) && w.now < w.pollers[p].claim.leaseExpiresAt && StillHolds(k, w.cache, cache, w.now)
    ensures forall q :: q in w.pollers && q != p ==> PollerOK(k, w.now, w.cell, cache, w.late, w.route, w.pollers[q])
  {
    forall q | q in w.pollers && q != p
      ensures PollerOK(k, w.now, w.cell, cache, w.late, w.route, w.pollers[q])
    {
      SoleCaller(k, w, p, q);
      assert PollerOK(k, w.now, w.cell, w.cache, w.late, w.route, w.pollers[q]);
      hide WorldOK, PollerOK, Owns, StillHolds;
      OtherSees(k, w.now, w.cell, w.cache, cache, w.late, w.late, w.route, w.pollers[q]);
    }
  }

  /** A booking under the watch's key takes effect while its poller waits: only it may learn of it. */
  lemma LandedInTime(k: Setup, w: World, p: nat, slotId: string, pc: Pc)
    requires WorldOK(k, w) && At(w, p) && PcOf(w, p).Placing? && w.now < w.pollers[p].claim.leaseExpiresAt
    requires !pc.Fresh?
    requires Knows(k, w.cell, BookSlot(w.cache, slotId, k.Key(), w.now, k.limits.retention).0, w.late, w.pollers[p].claim, w.now, pc)
    ensures WorldOK(k, Move(w.(cache := BookSlot(w.cache, slotId, k.Key(), w.now, k.limits.retention).0), p, pc))
  {
    var cache := BookSlot(w.cache, slotId, k.Key(), w.now, k.limits.retention).0;
    var x := w.pollers[p];
    var y := x.(pc := pc);
    BookKeeps(w.cache, slotId, k.Key(), w.now, k.limits.retention, k.limits.capacity);
    BookStillHolds(k, w.cache, w.now, slotId);
    SoleCaller(k, w, p, p);
    LandedForOthers(k, w, p, cache);
    BookingKeepsOutcome(k, w.now, w.cell, w.cache, cache, w.late, w.route);
    assert PollerOK(k, w.now, w.cell, w.cache, w.late, w.route, x);
    Learns(k, w.now, w.cell, w.cache, cache, w.late, w.route, x, pc);
    TokensMoved(w.pollers, p, y);
    NoticesMoved(w.cell, w.pollers, w.notices, p, y);
    hide CellOK, CacheOK, RecordOK, LogOK, OutcomeOK, TokensDistinct, NoticesOK, PollerOK, BookSlot, Knows;
  }

  lemma Learns(k: Setup, now: nat, c: Cell, a: Cache, b: Cache, late: bool, route: Option<Route>, x: Poller, pc: Pc)
    requires x.Working? && PollerOK(k, now, c, a, late, route, x) && x.pc.Placing? && !pc.Fresh?
    requires Knows(k, c, b, late, x.claim, now, pc)
    ensures PollerOK(k, now, c, b, late, route, x.(pc := pc))
  {
    hide Open, Genuine, Leased, Knows;
  }

  /** What the provider said about one slot settles what the key holds. */
  lemma PlaceIsKnown(k: Setup, c: Cell, a: Cache, late: bool, now: nat, claim: WindowClaim, slots: seq<Slot>, reply: Reply)
    requires slots != [] && Absent(k, c, a, late, claim, now) && MayBook(c, claim, now) && RecordOK(k, a)
    ensures var (b, result) := BookSlot(a, slots[0].slotId, k.Key(), now, k.limits.retention);
            Knows(k, c, if HasLanded(reply) then b else a, late, claim, now, AfterPlace(slots, reply, result))
  {
    hide Owns, MayBook;
  }

  lemma PlaceKeeps(k: Setup, w: World, p: nat, reply: Reply)
    requires WorldOK(k, w) && At(w, p) && PcOf(w, p).Placing? && PcOf(w, p).slots != []
    requires w.now < w.pollers[p].claim.leaseExpiresAt
    ensures WorldOK(k, DoPlace(k, w, p, reply))
  {
    var slots, claim := PcOf(w, p).slots, w.pollers[p].claim;
    var (cache, result) := BookSlot(w.cache, slots[0].slotId, k.Key(), w.now, k.limits.retention);
    Knowing(k, w, p);
    PlaceIsKnown(k, w.cell, w.cache, w.late, w.now, claim, slots, reply);
    var pc := AfterPlace(slots, reply, result);
    assert !pc.Fresh?;
    var calls := if StillPending(reply) then w.calls + {Call(slots[0].slotId, claim.token, claim.leaseExpiresAt)} else w.calls;
    CallsMoved(k, w, calls);
    hide WorldOK, Knows, AfterPlace, BookSlot, StillPending;
    if HasLanded(reply) {
      LandedInTime(k, w, p, slots[0].slotId, pc);
    } else {
      Advances(k, w.(calls := calls), p, pc);
    }
  }

  /** A call that takes effect after its poller stopped waiting leaves everything in order but what
      owners believe to be absent. */
  lemma LandKeeps(k: Setup, w: World, call: Call)
    requires WorldOK(k, w)
    ensures WorldOK(k, DoLand(k, w, call))
  {
    var cache := BookSlot(w.cache, call.slotId, k.Key(), w.now, k.limits.retention).0;
    BookKeeps(w.cache, call.slotId, k.Key(), w.now, k.limits.retention, k.limits.capacity);
    BookStillHolds(k, w.cache, w.now, call.slotId);
    assert RecordOK(k, w.cache);
    hide WorldOK, CacheOK, RecordOK, BookSlot, StillHolds;
    CacheMoved(k, w, cache, true);
    CallsMoved(k, w.(cache := cache, late := true), w.calls - {call});
  }

  // -- finishing ------------------------------------------------------------------------------

  lemma OthersAreForeign(k: Setup, w: World, p: nat, op: CellOp)
    requires WorldOK(k, w) && At(w, p) && !op.OpCreate?
    requires op.OpCommit? || op.OpRelease? ==> op.claim == w.pollers[p].claim
    ensures AllForeign(op, Leave(w, p).pollers)
  {
    hide CellOK, CacheOK, LogOK, OutcomeOK, PollersOK, NoticesOK;
  }

  lemma GiveUpKeeps(k: Setup, w: World, p: nat)
    requires WorldOK(k, w) && At(w, p)
    ensures WorldOK(k, Leave(w.(cell := ReleaseClaim(w.cell, w.pollers[p].claim).0), p))
  {
    var op := OpRelease(w.pollers[p].claim);
    Left(k, w, p);
    OthersAreForeign(k, w, p, op);
    var v := Leave(w, p);
    assert Ends(k, v, op, v.route);
    hide WorldOK, AllForeign, Ends;
    OpMoved(k, v, op, v.route);
  }

  lemma CancelKeeps(k: Setup, w: World)
    requires WorldOK(k, w)
    ensures WorldOK(k, DoCancel(k, w))
  {
    var v := DoCancel(k, w);
    assert Ends(k, w, OpCancel, v.route) && AllForeign(OpCancel, w.pollers) by {
      hide CacheOK, OutcomeOK, LogOK, PollersOK, TokensDistinct, NoticesOK, Open, Closed, Coherent;
    }
    hide WorldOK, AllForeign, Ends;
    OpMoved(k, w, OpCancel, v.route);
  }

  lemma SweepKeeps(k: Setup, w: World, p: nat)
    requires WorldOK(k, w) && p !in w.pollers
    ensures WorldOK(k, DoSweep(k, w, p))
  {
    var op := OpExpire(None, false);
    var (cell, result) := ExpireIfEligible(w.cell, k.id, w.now, k.retention, None, false);
    if result.status == Applied {
      assert w.cell.IsActive() && cell.IsFinished() && cell.watch.value.status == Expired && result.event.Some?;
      assert Ends(k, w, op, Some(BySweep)) && AllForeign(op, w.pollers);
      assert w.cell.IsActive() && NoticesOK(w.cell, w.pollers, w.notices);
      hide CacheOK, PollersOK, Open, Closed, Coherent;
      OpMoved(k, w, op, Some(BySweep));
      NoticeQueued(w.cell, cell, w.pollers, w.notices, p);
      TokensAnnouncer(w.pollers, p, Announcing(Expired));
      hide CellOK, CacheOK, LogOK, OutcomeOK, TokensDistinct, NoticesOK, ExpireIfEligible;
    }
  }

  lemma AnnounceKeeps(k: Setup, w: World, p: nat)
    requires WorldOK(k, w) && p in w.pollers && w.pollers[p].Announcing?
    ensures WorldOK(k, Leave(w.(notices := w.notices + [w.pollers[p].status]), p))
  {
    Left(k, w, p);
    NoticeMade(w.cell, w.pollers, w.notices, p);
    hide CellOK, CacheOK, LogOK, OutcomeOK, PollersOK, TokensDistinct, NoticesOK;
  }

  /** A poll finishes a watch only as the provider has it. */
  lemma CommitOutcome(k: Setup, now: nat, c: Cell, cache: Cache, late: bool, route: Option<Route>, x: Poller, offset: int)
    requires k.Valid() && k.pacing.Draws(offset)
    requires OutcomeOK(k, now, c, cache, late, route) && c.IsActive()
    requires x.Working? && x.pc.Decided? && !x.pc.plan.Yield? && x.claim.watch.status == Active
    requires Knows(k, c, cache, late, x.claim, now, x.pc) && Owns(c, x.claim, now)
    ensures var (watch, runtime) := Decide(k.pacing, x.claim, x.at, x.pc.plan, offset);
            var next := CommitWindow(c, now, k.retention, x.claim, watch, runtime).0;
            OutcomeOK(k, now, next, cache, late, if watch.status.IsTerminal() then Some(ByPoll) else route)
  {
    DecisionStatus(k.pacing, x.claim, x.at, x.pc.plan, offset);
    hide CommitMiss, CommitOutage, ClosedRuntime, NextRuntime;
  }

  function CommitOp(k: Setup, x: Poller, offset: int): CellOp
    requires x.Working? && x.pc.Decided? && k.pacing.Valid() && k.pacing.Draws(offset)
  {
    var (watch, runtime) := Decide(k.pacing, x.claim, x.at, x.pc.plan, offset);
    OpCommit(x.claim, watch, runtime)
  }

  /** The world after a commit by the poller that has just left `w`. */
  function Committing(k: Setup, w: World, x: Poller, offset: int): World
    requires x.Working? && x.pc.Decided? && k.pacing.Valid() && k.pacing.Draws(offset)
  {
    var op := CommitOp(k, x, offset);
    w.(cell := Apply(w.cell, k.id, w.now, k.retention, op),
       commits := w.commits + [Commitment(x.claim.window, x.claim.runtime.revision + 1, x.claim.token)],
       route := if op.newWatch.status.IsTerminal() then Some(ByPoll) else w.route)
  }

  lemma CommittingFrame(k: Setup, w: World, x: Poller, offset: int)
    requires x.Working? && x.pc.Decided? && k.pacing.Valid() && k.pacing.Draws(offset)
    ensures var done := Committing(k, w, x, offset);
            done.pollers == w.pollers && done.notices == w.notices
  {
    hide CommitOp, Apply;
  }

  /** Everyone else, once the committing poller has left, under a commit that goes through. */
  lemma CommitMoved(k: Setup, w: World, x: Poller, offset: int)
    requires WorldOK(k, w) && k.pacing.Draws(offset)
    requires PollerOK(k, w.now, w.cell, w.cache, w.late, w.route, x)
    requires x.Working? && x.pc.Decided? && !x.pc.plan.Yield? && Owns(w.cell, x.claim, w.now)
    requires AllForeign(CommitOp(k, x, offset), w.pollers)
    ensures w.cell.IsActive() && WorldOK(k, Committing(k, w, x, offset))
    ensures Committing(k, w, x, offset).cell.IsFinished() <==> CommitOp(k, x, offset).newWatch.status.IsTerminal()
  {
    var op := CommitOp(k, x, offset);
    var cell := Apply(w.cell, k.id, w.now, k.retention, op);
    LogExtended(k, w.now, w.cell, op, w.route, w.commits);
    assert cell.IsFinished() <==> op.newWatch.status.IsTerminal();
    var after := if cell.IsFinished() then Some(ByPoll) else w.route;
    CommitOutcome(k, w.now, w.cell, w.cache, w.late, w.route, x, offset);
    DecisionIsValid(k.Terms(), k.pacing, x.claim, x.at, x.pc.plan, offset);
    CellKept(k, w.now, w.cell, op);
    OthersUnderOp(k, w, op, after);
    NoticesUnder(w.cell, cell, w.pollers, w.notices);
    hide CellOK, CacheOK, OutcomeOK, LogOK, PollersOK, TokensDistinct, NoticesOK, Decide, Closed, Open;
  }

  lemma Queued(k: Setup, w: World, before: Cell, p: nat)
    requires WorldOK(k, w) && NoticesOK(before, w.pollers, w.notices) && before.IsActive()
    requires w.cell.IsFinished() && Announces(w.cell.watch.value.status)
    ensures WorldOK(k, w.(pollers := w.pollers[p := Announcing(w.cell.watch.value.status)]))
  {
    NoticeQueued(before, w.cell, w.pollers, w.notices, p);
    TokensAnnouncer(w.pollers, p, Announcing(w.cell.watch.value.status));
    hide CellOK, CacheOK, OutcomeOK, LogOK, TokensDistinct, NoticesOK, WorkingOK;
  }

  /** The commit goes through exactly for the owner; then it takes effect whole. */
  lemma CommitEffect(k: Setup, w: World, p: nat, offset: int)
    requires CellOK(k, w.now, w.cell) && At(w, p) && PcOf(w, p).Decided? && !PcOf(w, p).plan.Yield?
    requires k.pacing.Valid() && k.pacing.Draws(offset)
    ensures var x, v := w.pollers[p], DoCommit(k, w, p, offset);
            var done := Committing(k, Leave(w, p), x, offset);
            var status := CommitOp(k, x, offset).newWatch.status;
            if !Owns(w.cell, x.claim, w.now) then v == Leave(w, p)
            else
              && done.cell.watch.Some? && done.cell.watch.value.status == status
              && v == if Announces(status) then done.(pollers := done.pollers[p := Announcing(status)]) else done
  {
    hide Decide, Open, Closed;
    assert w.pollers[p := Announcing(Expired)] == (w.pollers - {p})[p := Announcing(Expired)];
    assert w.pollers[p := Announcing(Found)] == (w.pollers - {p})[p := Announcing(Found)];
    assert w.pollers[p := Announcing(Booked)] == (w.pollers - {p})[p := Announcing(Booked)];
  }

  lemma CommitKeeps(k: Setup, w: World, p: nat, offset: int)
    requires WorldOK(k, w) && At(w, p) && PcOf(w, p).Decided? && !PcOf(w, p).plan.Yield?
    requires k.pacing.Draws(offset)
    ensures WorldOK(k, DoCommit(k, w, p, offset))
  {
    var x := w.pollers[p];
    CommitEffect(k, w, p, offset);
    Left(k, w, p);
    assert PollerOK(k, w.now, w.cell, w.cache, w.late, w.route, x);
    OthersAreForeign(k, w, p, CommitOp(k, x, offset));
    var v := Leave(w, p);
    assert NoticesOK(v.cell, v.pollers, v.notices);
    CommittingFrame(k, v, x, offset);
    hide WorldOK, DoCommit, CommitOp, Apply, AllForeign, NoticesOK, PollerOK, Owns, Committing;
    if Owns(w.cell, x.claim, w.now) {
      CommitMoved(k, v, x, offset);
      var done := Committing(k, v, x, offset);
      if Announces(CommitOp(k, x, offset).newWatch.status) {
        Queued(k, done, v.cell, p);
      }
    }
  }

  lemma StepKeeps(k: Setup, w: World, step: Step)
    requires WorldOK(k, w) && Enabled(k, w, step)
    ensures WorldOK(k, Next(k, w, step))
  {
    hide WorldOK;
    match step
    case Tick(to) => TickKeeps(k, w, to);
    case Deliver(p, window, owner, ignoreSchedule) => DeliverKeeps(k, w, p, window, owner, ignoreSchedule);
    case Check(p) => CheckKeeps(k, w, p);
    case Recall(p) => RecallKeeps(k, w, p);
    case Look(p, candidates, operation, victims) => LookKeeps(k, w, p, candidates, operation, victims);
    case Fail(p, error) => Advances(k, w, p, Decided(Outage(error)));
    case AskPermit(p) => AskPermitKeeps(k, w, p);
    case Place(p, reply) => PlaceKeeps(k, w, p, reply);
    case Land(call) => LandKeeps(k, w, call);
    case Reconcile(p, answered) => ReconcileKeeps(k, w, p, answered);
    case Weigh(p) => WeighKeeps(k, w, p);
    case Commit(p, offset) => CommitKeeps(k, w, p, offset);
    case GiveUp(p) => GiveUpKeeps(k, w, p);
    case Crash(p) => Left(k, w, p);
    case Announce(p) => AnnounceKeeps(k, w, p);
    case Cancel => CancelKeeps(k, w);
    case SweepExpire(p) => SweepKeeps(k, w, p);
    case Upkeep(op) => UpkeepKeeps(k, w, op);
    case Others(use) => OthersMoved(k, w, use);
  }

  lemma StartKeeps(k: Setup, w: World)
    requires k.Valid() && IsStart(k, w) && CacheOK(w.cache, w.now, k.limits.capacity)
    ensures WorldOK(k, w)
  {
    hide CacheOK;
  }

  /** Every state any run reaches from creation satisfies the whole invariant. */
  lemma {:induction false} TraceKeeps(k: Setup, w: World, steps: seq<Step>)
    requires WorldOK(k, w) && IsTrace(k, w, steps)
    ensures WorldOK(k, Reached(k, w, steps))
    decreases |steps|
  {
    if steps != [] {
      StepKeeps(k, w, steps[0]);
      hide WorldOK, Enabled, Next;
      TraceKeeps(k, Next(k, w, steps[0]), steps[1..]);
    }
  }

  predicate Follows(k: Setup, w: World, step: Step, next: World) {
    Enabled(k, w, step) && next == Next(k, w, step)
  }

  /** States that follow one another by enabled steps are the trace of those steps. */
  lemma {:induction false} TraceOf(k: Setup, worlds: seq<World>, steps: seq<Step>)
    requires |worlds| == |steps| + 1
    requires forall i :: 0 <= i < |steps| ==> Follows(k, worlds[i], steps[i], worlds[i + 1])
    ensures IsTrace(k, worlds[0], steps) && Reached(k, worlds[0], steps) == worlds[|steps|]
    decreases |steps|
  {
    if steps != [] {
      assert Follows(k, worlds[0], steps[0], worlds[1]);
      TraceOf(k, worlds[1..], steps[1..]);
    }
    hide Enabled, Next;
  }
}
