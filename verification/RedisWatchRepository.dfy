/** The Redis store: one method per Lua script, run to completion, over the keys, sets
    and sorted sets it really uses (backend/db/repositories/watch_scripts.py,
    backend/db/repositories/watches.py:814-1597). `model` is the in-memory state the keys
    stand for; every method takes the in-memory decision and moves `model` as the
    in-memory repository would, which is the refinement the two stores promise. */
module RedisWatchRepository {
  import opened Wrappers
  import opened ClaimText
  import opened Watches
  import opened WatchCells
  import opened SortedSets
  import opened Tallies

  /** What Redis holds about one watch id. */
  datatype Keys = Keys(
    document: Option<Watch>,
    sidecar: Option<Runtime>,
    fence: Option<nat>,
    claim: Option<string>,
    inAll: bool,
    inActive: bool,
    due: Option<nat>,
    retireAt: Option<nat>)

  /** The claim key holds the lease as text; its native expiry may only have removed a dead one. */
  predicate MirrorsClaim(held: Option<Lease>, claim: Option<string>, now: nat) {
    match held
    case None => claim.None?
    case Some(l) =>
      && '|' !in l.owner
      && (claim == Some(PrintClaim(l.owner, l.token, l.expiresAt)) || (claim.None? && l.expiresAt <= now))
  }

  predicate Mirrors(c: Cell, k: Keys, now: nat) {
    && Coherent(c, now)
    && k.document == c.watch
    && k.sidecar == c.runtime
    && c.fence == (if k.fence.Some? then k.fence.value else 0)
    && MirrorsClaim(c.claim, k.claim, now)
    && k.inAll == c.watch.Some?
    && k.inActive == c.IsActive()
    && k.due == (if c.marker.Some? then Some(c.marker.value.scheduledFor) else None)
    && k.retireAt == c.deleteAt
  }

  lemma ReadClaim(c: Cell, k: Keys, now: nat)
    requires Mirrors(c, k, now) && k.claim.Some?
    ensures c.claim.Some?
    ensures var l := c.claim.value;
            ParseClaim(k.claim.value) == Some(Parsed(l.owner, Print(l.token), Some(l.expiresAt)))
  {
    var l := c.claim.value;
    ClaimRoundTrip(l.owner, l.token, l.expiresAt);
  }

  lemma Facts(c: Cell, k: Keys, now: nat)
    requires Mirrors(c, k, now)
    ensures k.document == c.watch && k.sidecar == c.runtime && (c.watch.Some? <==> c.runtime.Some?)
    ensures k.due.Some? <==> c.marker.Some?
    ensures c.IsActive() ==> c.marker == MarkerFor(c.runtime.value)
    ensures k.due.Some? ==> k.due == Some(c.marker.value.scheduledFor)
    ensures c.fence == (if k.fence.Some? then k.fence.value else 0)
    ensures k.claim.Some? ==> c.claim.Some?
  {
  }

  lemma LiveWindow(c: Cell, k: Keys, now: nat)
    requires Mirrors(c, k, now)
    ensures c.HasLiveClaim(now) ==> c.IsActive() && c.runtime.value.window == Some(c.claim.value.window)
  {
  }

  /** A claim key that is gone stood for no lease, or for a dead one. */
  lemma GoneMirrors(c: Cell, k: Keys, now: nat)
    requires Mirrors(c, k, now) && k.claim.None?
    ensures !c.HasLiveClaim(now) && Mirrors(c.(claim := None), k, now)
  {
  }

  // -- the keys each script leaves still stand for the in-memory result ------------------

  lemma OpenMirrors(c: Cell, k: Keys, now: nat, watch: Watch, runtime: Runtime)
    requires Mirrors(c, k, now) && c.watch.None? && watch.status == Active
    ensures Mirrors(Create(c, watch, runtime).0,
                    k.(document := Some(watch), sidecar := Some(runtime), fence := Some(0), inAll := true, inActive := true,
                       due := if MarkerFor(runtime).Some? then runtime.scheduledFor else None), now)
  {
  }

  lemma GrantMirrors(c: Cell, k: Keys, now: nat, window: string, owner: string, lease: nat, ignoreSchedule: bool)
    requires Mirrors(c, k, now) && '|' !in owner
    ensures var (next, r) := ClaimWindow(c, now, window, owner, lease, ignoreSchedule);
            r.Owned? ==>
              Mirrors(next, k.(fence := Some(c.fence + 1), claim := Some(PrintClaim(owner, c.fence + 1, now + lease))), now)
  {
  }

  lemma PermitMirrors(c: Cell, k: Keys, now: nat, claim: WindowClaim)
    requires Mirrors(c, k, now) && Genuine(c, claim, now)
    ensures var (next, r) := BeginBooking(c, now, claim);
            r.Granted? ==> Mirrors(next, k.(sidecar := Some(claim.runtime.(phase := Some(Booking)))), now)
  {
  }

  lemma CommitMirrors(c: Cell, k: Keys, now: nat, retention: nat, claim: WindowClaim, newWatch: Watch, newRuntime: Runtime,
                      stored: Runtime)
    requires Mirrors(c, k, now) && c.IsActive() && Owns(c, claim, now)
    requires stored == newRuntime.(revision := claim.runtime.revision + 1, phase := None,
                                   deleteAt := if newWatch.status.IsTerminal() then Some(now + retention) else newRuntime.deleteAt)
    ensures var base := k.(document := Some(newWatch), sidecar := Some(stored), claim := None);
            Mirrors(CommitWindow(c, now, retention, claim, newWatch, newRuntime).0,
                    if newWatch.status.IsTerminal()
                    then base.(inActive := false, due := None, retireAt := Some(now + retention))
                    else base.(due := if MarkerFor(stored).Some? then stored.scheduledFor else None), now)
  {
  }

  lemma FinishMirrors(c: Cell, k: Keys, now: nat, retention: nat, watch: Watch)
    requires Mirrors(c, k, now) && c.IsActive() && watch.status.IsTerminal()
    ensures var (next, revision) := ApplyTerminal(c, now, retention, watch);
            && revision == c.runtime.value.revision + 1
            && Mirrors(next, k.(document := Some(watch), claim := None, inActive := false, due := None,
                                sidecar := Some(TerminalRuntime(c.runtime.value, revision, now + retention)),
                                retireAt := Some(now + retention)), now)
  {
  }

  lemma PendingMirrors(c: Cell, k: Keys, now: nat, retention: nat)
    requires Mirrors(c, k, now) && c.IsActive() && c.runtime.value.phase == Some(Booking)
    ensures Mirrors(CancelIfActive(c, now, retention).0,
                    k.(sidecar := Some(c.runtime.value.(cancelRequested := true))), now)
  {
  }

  lemma ReleaseMirrors(c: Cell, k: Keys, now: nat, claim: WindowClaim)
    requires Mirrors(c, k, now)
    ensures Mirrors(ReleaseClaim(c, claim).0, if ReleaseClaim(c, claim).1 then k.(claim := None) else k, now)
  {
  }

  lemma RepairMirrors(c: Cell, k: Keys, now: nat, runtime: Runtime)
    requires Mirrors(c, k, now) && MarkerFor(runtime).Some?
    ensures var (next, repaired) := SynthesizeMarker(c, now, runtime);
            Mirrors(next, if repaired
                          then k.(sidecar := Some(runtime), due := runtime.scheduledFor,
                                  fence := if k.fence.Some? then k.fence else Some(0))
                          else k, now)
  {
  }

  const NO_KEYS := Keys(None, None, None, None, false, false, None, None)

  lemma CleanMirrors(c: Cell, k: Keys, now: nat)
    requires Mirrors(c, k, now)
    ensures Mirrors(Cleaned(c), if k.document.Some? && k.document.value.status.IsTerminal() then NO_KEYS
                                else k.(retireAt := None), now)
  {
  }

  class Repository {
    const retention: nat
    var documents: map<string, Watch>
    var sidecars: map<string, Runtime>
    var fences: map<string, nat>
    var claims: map<string, string>
    var allIndex: set<string>
    var activeIndex: set<string>
    var schedule: map<string, nat>
    var terminal: map<string, nat>
    var events: set<EventId>
    ghost var model: map<string, Cell>

    ghost function KeysAt(id: string): Keys
      reads this
    {
      Keys(Get(documents, id), Get(sidecars, id), Get(fences, id), Get(claims, id),
           id in allIndex, id in activeIndex, Get(schedule, id), Get(terminal, id))
    }

    ghost function ModelAt(id: string): Cell
      reads this
    {
      if id in model then model[id] else VACANT
    }

    ghost predicate Valid(now: nat)
      reads this
    {
      forall id :: Mirrors(ModelAt(id), KeysAt(id), now)
    }

    /** The keys now stand for `next` at this id and for what they stood for everywhere else. */
    twostate predicate Moved(id: string, next: Cell, now: nat, issued: Option<EventId>)
      reads this
    {
      && Valid(now)
      && model == old(model)[id := next]
      && events == old(events) + (if issued.Some? then {issued.value} else {})
    }

    constructor (retention: nat)
      ensures this.retention == retention
      ensures forall now :: Valid(now)
      ensures model == map[] && events == {}
    {
      this.retention := retention;
      documents, sidecars, fences, claims := map[], map[], map[], map[];
      allIndex, activeIndex, schedule, terminal, events := {}, {}, map[], map[], {};
      model := map[];
    }

    /** Time passing keeps the two stores in step: a lease can only die. */
    lemma Later(now: nat, later: nat)
      requires Valid(now) && now <= later
      ensures Valid(later)
    {
      forall id ensures Mirrors(ModelAt(id), KeysAt(id), later) {
        assert Mirrors(ModelAt(id), KeysAt(id), now);
      }
    }

    /** The native PX on a claim key fires: the key goes if and only if its lease has ended. */
    method ExpireClaimKey(now: nat, id: string)
      requires Valid(now)
      modifies this`claims, this`model
      ensures Valid(now) && model == old(model)
      ensures claims == if ModelAt(id).HasLiveClaim(now) then old(claims) else old(claims) - {id}
    {
      assert Mirrors(ModelAt(id), KeysAt(id), now);
      if id in claims {
        ReadClaim(ModelAt(id), KeysAt(id), now);
        var held := ParseClaim(claims[id]).value;
        if held.expires.value <= now {
          claims := claims - {id};
          assert forall other :: other != id ==> KeysAt(other) == old(KeysAt(other));
          Settle(id, ModelAt(id), now);
        }
      }
    }

    /** Only the keys of one watch were written. */
    twostate predicate Rewrote(id: string, k: Keys)
      reads this
    {
      && KeysAt(id) == k
      && (forall other :: other != id ==> KeysAt(other) == old(KeysAt(other)))
      && model == old(model)
    }

    /** SET watch, SET runtime, DEL claim: the writes every applied transition opens with. */
    method SetDocuments(id: string, watch: Watch, runtime: Option<Runtime>)
      modifies this
      ensures Rewrote(id, old(KeysAt(id)).(
                document := Some(watch), claim := None,
                sidecar := if runtime.Some? then runtime else old(KeysAt(id)).sidecar))
      ensures events == old(events)
    {
      documents := documents[id := watch];
      if runtime.Some? {
        sidecars := sidecars[id := runtime.value];
      }
      claims := claims - {id};
    }

    /** SREM active, ZREM schedule, ZADD terminal: how every terminal transition leaves the indexes. */
    method Retire(id: string, deadline: nat, event: Option<EventId>)
      modifies this
      ensures Rewrote(id, old(KeysAt(id)).(inActive := false, due := None, retireAt := Some(deadline)))
      ensures events == old(events) + (if event.Some? then {event.value} else {})
    {
      activeIndex := activeIndex - {id};
      schedule := schedule - {id};
      terminal := terminal[id := deadline];
      if event.Some? {
        events := events + {event.value};
      }
    }

    /** SET watch, SET runtime, SET fence, SADD all, SADD active. */
    method Enlist(id: string, watch: Watch, runtime: Runtime)
      modifies this
      ensures Rewrote(id, old(KeysAt(id)).(document := Some(watch), sidecar := Some(runtime), fence := Some(0),
                                           inAll := true, inActive := true))
      ensures events == old(events)
    {
      documents := documents[id := watch];
      sidecars := sidecars[id := runtime];
      fences := fences[id := 0];
      allIndex := allIndex + {id};
      activeIndex := activeIndex + {id};
    }

    /** INCR fence, SET claim. */
    method Grant(id: string, owner: string, expires: nat) returns (token: nat)
      modifies this
      ensures token == old(if id in fences then fences[id] else 0) + 1
      ensures Rewrote(id, old(KeysAt(id)).(fence := Some(token), claim := Some(PrintClaim(owner, token, expires))))
      ensures events == old(events)
    {
      token := (if id in fences then fences[id] else 0) + 1;
      fences := fences[id := token];
      claims := claims[id := PrintClaim(owner, token, expires)];
    }

    method SetSchedule(id: string, runtime: Runtime)
      modifies this
      ensures Rewrote(id, old(KeysAt(id)).(
                due := if MarkerFor(runtime).Some? then runtime.scheduledFor else None))
      ensures events == old(events)
    {
      if runtime.window.Some? && runtime.scheduledFor.Some? {
        schedule := schedule[id := runtime.scheduledFor.value];
      } else {
        schedule := schedule - {id};
      }
    }

    /** Closing step of every script: the rewritten keys mirror `next` and no other key moved. */
    ghost method Settle(id: string, next: Cell, now: nat)
      requires Mirrors(next, KeysAt(id), now)
      requires forall other :: other != id ==> Mirrors(ModelAt(other), KeysAt(other), now)
      modifies this`model
      ensures Valid(now) && model == old(model)[id := next]
    {
      hide Mirrors;
      model := model[id := next];
      forall k ensures Mirrors(ModelAt(k), KeysAt(k), now) {
        if k != id {
          assert old(Mirrors(ModelAt(k), KeysAt(k), now));
        }
      }
    }

    method CreateWithSchedule(now: nat, watch: Watch, runtime: Runtime) returns (r: CreateResult)
      requires Valid(now) && watch.status == Active
      modifies this
      ensures var (next, result) := Create(old(ModelAt(watch.id)), watch, runtime);
              Moved(watch.id, next, now, None) && r == result
    {
      var id := watch.id;
      ghost var c, k := ModelAt(id), KeysAt(id);
      Facts(c, k, now);
      hide Mirrors;
      if id in documents {
        r := AlreadyExists(documents[id], Get(sidecars, id));
      } else {
        OpenMirrors(c, k, now, watch, runtime);
        Enlist(id, watch, runtime);
        if runtime.window.Some? && runtime.scheduledFor.Some? {
          SetSchedule(id, runtime);
        }
        r := Created(watch, runtime);
      }
      forall other | other != id ensures Mirrors(ModelAt(other), KeysAt(other), now) {
        assert old(Mirrors(ModelAt(other), KeysAt(other), now));
      }
      Settle(id, Create(c, watch, runtime).0, now);
    }

    method Claim(now: nat, id: string, window: string, owner: string, lease: nat, ignoreSchedule: bool)
      returns (r: ClaimResult)
      requires Valid(now) && '|' !in owner
      modifies this
      ensures var (next, result) := ClaimWindow(old(ModelAt(id)), now, window, owner, lease, ignoreSchedule);
              Moved(id, next, now, None) && r == result
    {
      ghost var c, k := ModelAt(id), KeysAt(id);
      Facts(c, k, now);
      GrantMirrors(c, k, now, window, owner, lease, ignoreSchedule);
      LiveWindow(c, k, now);
      hide Mirrors;
      if id !in documents {
        r := Unknown;
      } else if documents[id].status != Active {
        r := Finished;
      } else if id !in sidecars {
        r := Unknown;
      } else if sidecars[id].window != Some(window) {
        r := Stale;
      } else if !ignoreSchedule && id in schedule && schedule[id] > now {
        r := Early;
      } else {
        var busy := ClaimIsLive(id, now);
        if busy {
          r := Busy;
        } else {
          var token := Grant(id, owner, now + lease);
          r := Owned(WindowClaim(documents[id], sidecars[id], owner, window, token, now + lease));
        }
      }
      forall other | other != id ensures Mirrors(ModelAt(other), KeysAt(other), now) {
        assert old(Mirrors(ModelAt(other), KeysAt(other), now));
      }
      Settle(id, ClaimWindow(c, now, window, owner, lease, ignoreSchedule).0, now);
    }

    /** The scripts' shared test that a claim key holds an unexpired lease. */
    method ClaimIsLive(id: string, now: nat) returns (live: bool)
      requires Mirrors(ModelAt(id), KeysAt(id), now)
      ensures live == ModelAt(id).HasLiveClaim(now)
    {
      if id !in claims {
        return false;
      }
      ReadClaim(ModelAt(id), KeysAt(id), now);
      var held := ParseClaim(claims[id]).value;
      return held.expires.value > now;
    }

    /** The scripts' shared proof that a claim still owns its window. */
    method OwnsNow(id: string, now: nat, claim: WindowClaim) returns (owned: bool)
      requires Mirrors(ModelAt(id), KeysAt(id), now)
      ensures owned == Owns(ModelAt(id), claim, now)
    {
      if id !in sidecars || sidecars[id].revision != claim.runtime.revision || id !in claims {
        return false;
      }
      ReadClaim(ModelAt(id), KeysAt(id), now);
      var held := ParseClaim(claims[id]).value;
      owned := held.owner == claim.owner && held.token == Print(claim.token) && held.expires.value > now;
      if held.token == Print(claim.token) {
        PrintInjective(ModelAt(id).claim.value.token, claim.token);
      }
    }

    method Permit(now: nat, claim: WindowClaim) returns (r: Permit)
      requires Valid(now) && Genuine(ModelAt(claim.watch.id), claim, now)
      modifies this
      ensures var (next, result) := BeginBooking(old(ModelAt(claim.watch.id)), now, claim);
              Moved(claim.watch.id, next, now, None) && r == result
    {
      var id := claim.watch.id;
      ghost var c, k := ModelAt(id), KeysAt(id);
      var bookingRuntime := claim.runtime.(phase := Some(Booking));
      Facts(c, k, now);
      PermitMirrors(c, k, now, claim);
      hide Mirrors, Genuine;
      var owned := OwnsNow(id, now, claim);
      if id !in documents || documents[id].status != Active || id !in sidecars || !owned {
        r := Fenced;
      } else if sidecars[id].cancelRequested {
        r := Withdrawn;
      } else {
        SetSidecar(id, bookingRuntime);
        r := Granted;
      }
      forall other | other != id ensures Mirrors(ModelAt(other), KeysAt(other), now) {
        assert old(Mirrors(ModelAt(other), KeysAt(other), now));
      }
      Settle(id, BeginBooking(c, now, claim).0, now);
    }

    method SetSidecar(id: string, runtime: Runtime)
      modifies this
      ensures Rewrote(id, old(KeysAt(id)).(sidecar := Some(runtime))) && events == old(events)
    {
      sidecars := sidecars[id := runtime];
    }

    method Commit(now: nat, claim: WindowClaim, newWatch: Watch, newRuntime: Runtime) returns (r: CommitResult)
      requires Valid(now)
      modifies this
      ensures var (next, result) := CommitWindow(old(ModelAt(claim.watch.id)), now, retention, claim, newWatch, newRuntime);
              && Moved(claim.watch.id, next, now, result.event)
              && r.status == result.status && r.event == result.event
              && (r.status == Committed ==> r.watch == result.watch)
    {
      var id := claim.watch.id;
      ghost var c, k := ModelAt(id), KeysAt(id);
      Facts(c, k, now);
      hide Mirrors, MarkerFor;
      var isTerminal := newWatch.status.IsTerminal();
      var stored := newRuntime.(revision := claim.runtime.revision + 1, phase := None);
      if isTerminal {
        stored := stored.(deleteAt := Some(now + retention));
      }
      var event := if isTerminal then TerminalEvent(id, newWatch.status, stored.revision) else None;
      var owned := OwnsNow(id, now, claim);
      if id !in documents {
        r := CommitResult(CommitUnknown, None, None);
      } else if documents[id].status != Active {
        r := CommitResult(CommitFinished, None, None);
      } else if id !in sidecars {
        r := CommitResult(CommitUnknown, None, None);
      } else if !owned {
        r := CommitResult(CommitFenced, None, None);
      } else {
        CommitMirrors(c, k, now, retention, claim, newWatch, newRuntime, stored);
        SetDocuments(id, newWatch, Some(stored));
        if isTerminal {
          Retire(id, now + retention, event);
        } else {
          SetSchedule(id, stored);
        }
        r := CommitResult(Committed, Some(newWatch), event);
      }
      forall other | other != id ensures Mirrors(ModelAt(other), KeysAt(other), now) {
        assert old(Mirrors(ModelAt(other), KeysAt(other), now));
      }
      Settle(id, CommitWindow(c, now, retention, claim, newWatch, newRuntime).0, now);
    }

    /** The cancel and expire scripts, which differ only in mode and event: compare the revision
        read beforehand, then either record the request or apply the terminal documents. */
    method FinishScript(id: string, casRevision: Option<nat>, pending: bool, newWatch: Watch,
                        newRuntime: Option<Runtime>, deadline: nat, event: Option<EventId>)
      returns (code: TransitionStatus)
      modifies this
      ensures code == (if old(KeysAt(id)).document.None? then Missing
                       else if old(KeysAt(id)).document.value.status != Active then Noop
                       else if old(KeysAt(id)).sidecar.Some? && casRevision.Some?
                               && old(KeysAt(id)).sidecar.value.revision != casRevision.value then Outrun
                       else if pending then NotEligible else Applied)
      ensures code == Applied ==>
                && Rewrote(id, old(KeysAt(id)).(
                     document := Some(newWatch), claim := None, inActive := false, due := None, retireAt := Some(deadline),
                     sidecar := if old(KeysAt(id)).sidecar.Some? && newRuntime.Some? then newRuntime
                                else old(KeysAt(id)).sidecar))
                && events == old(events) + (if event.Some? then {event.value} else {})
      ensures code == NotEligible ==>
                && Rewrote(id, old(KeysAt(id)).(
                     sidecar := if old(KeysAt(id)).sidecar.Some? && newRuntime.Some? then newRuntime
                                else old(KeysAt(id)).sidecar))
                && events == old(events)
      ensures code in {Missing, Noop, Outrun} ==> Rewrote(id, old(KeysAt(id))) && events == old(events)
    {
      if id !in documents {
        return Missing;
      }
      if documents[id].status != Active {
        return Noop;
      }
      if id in sidecars && casRevision.Some? && sidecars[id].revision != casRevision.value {
        return Outrun;
      }
      if pending {
        if id in sidecars && newRuntime.Some? {
          sidecars := sidecars[id := newRuntime.value];
        }
        return NotEligible;
      }
      SetDocuments(id, newWatch, if id in sidecars then newRuntime else None);
      Retire(id, deadline, event);
      return Applied;
    }

    method Cancel(now: nat, id: string) returns (r: Transition)
      requires Valid(now)
      modifies this
      ensures var (next, result) := CancelIfActive(old(ModelAt(id)), now, retention);
              Moved(id, next, now, None) && r == result
    {
      ghost var c, k := ModelAt(id), KeysAt(id);
      ghost var (next, result) := CancelIfActive(c, now, retention);
      r := Transition(Outrun, None, None, -1);
      var attempt, settled := 0, false;
      hide Mirrors;
      while attempt < 5 && !settled
        invariant events == old(events)
        invariant !settled ==> attempt == 0 && Rewrote(id, k)
        invariant settled ==> r == result && model == old(model) && Mirrors(next, KeysAt(id), now)
        invariant forall other :: other != id ==> KeysAt(other) == old(KeysAt(other))
      {
        settled, r := TryCancel(now, id, c, k);
        attempt := attempt + 1;
      }
      forall other | other != id ensures Mirrors(ModelAt(other), KeysAt(other), now) {
        assert old(Mirrors(ModelAt(other), KeysAt(other), now));
      }
      Settle(id, next, now);
    }

    /** One read-then-script round; run to completion it is never outrun. */
    method TryCancel(now: nat, id: string, ghost c: Cell, ghost k: Keys) returns (settled: bool, r: Transition)
      requires Mirrors(c, k, now) && k == KeysAt(id)
      modifies this
      ensures settled && r == CancelIfActive(c, now, retention).1 && events == old(events)
      ensures exists after :: Rewrote(id, after) && Mirrors(CancelIfActive(c, now, retention).0, after, now)
    {
      Facts(c, k, now);
      hide Mirrors;
      if id !in documents {
        assert Rewrote(id, k);
        return true, Transition(Missing, None, None, -1);
      }
      if documents[id].status.IsTerminal() {
        assert Rewrote(id, k);
        return true, Transition(Noop, Some(documents[id]), None, -1);
      }
      var watch, runtime := documents[id], Get(sidecars, id);
      var cas := if runtime.Some? then Some(runtime.value.revision) else None;
      if runtime.Some? && runtime.value.phase == Some(Booking) {
        PendingMirrors(c, k, now, retention);
        var code := FinishScript(id, cas, true, watch, Some(runtime.value.(cancelRequested := true)), 0, None);
        return code != Outrun, Transition(code, Some(watch), None, -1);
      }
      var cancelled := watch.(status := Cancelled, nextCheckAt := None, updatedAt := now);
      var newRuntime := if runtime.Some?
        then Some(TerminalRuntime(runtime.value, runtime.value.revision + 1, now + retention)) else None;
      FinishMirrors(c, k, now, retention, cancelled);
      var code := FinishScript(id, cas, false, cancelled, newRuntime, now + retention, None);
      r := Transition(code, Some(cancelled), None, if runtime.Some? then runtime.value.revision + 1 else 0);
      return code != Outrun, r;
    }

    method Expire(now: nat, id: string, expected: Option<nat>, force: bool) returns (r: Transition)
      requires Valid(now)
      modifies this
      ensures var (next, result) := ExpireIfEligible(old(ModelAt(id)), id, now, retention, expected, force);
              Moved(id, next, now, result.event) && r == result
    {
      ghost var c, k := ModelAt(id), KeysAt(id);
      Facts(c, k, now);
      hide Mirrors;
      if id !in documents {
        r := Transition(Missing, None, None, -1);
      } else if documents[id].status.IsTerminal() {
        r := Transition(Noop, Some(documents[id]), None, -1);
      } else {
        var watch, runtime := documents[id], Get(sidecars, id);
        if expected.Some? && runtime.Some? && runtime.value.revision != expected.value {
          r := Transition(Outrun, None, None, -1);
        } else if !force && !watch.IsExhausted(now) {
          r := Transition(NotEligible, Some(watch), None, -1);
        } else {
          var revision := if runtime.Some? then runtime.value.revision + 1 else 0;
          var expired := watch.(status := Expired, nextCheckAt := None, updatedAt := now);
          var newRuntime := if runtime.Some? then Some(TerminalRuntime(runtime.value, revision, now + retention)) else None;
          var event := TerminalEvent(id, Expired, revision);
          var cas := if runtime.Some? then Some(runtime.value.revision) else None;
          FinishMirrors(c, k, now, retention, expired);
          var code := FinishScript(id, cas, false, expired, newRuntime, now + retention, event);
          r := Transition(code, Some(expired), event, revision);
        }
      }
      forall other | other != id ensures Mirrors(ModelAt(other), KeysAt(other), now) {
        assert old(Mirrors(ModelAt(other), KeysAt(other), now));
      }
      Settle(id, ExpireIfEligible(c, id, now, retention, expected, force).0, now);
    }

    /** The state is the in-memory one; the reply as well, unless the key of a lease that has ended is gone. */
    method Release(now: nat, claim: WindowClaim) returns (released: bool)
      requires Valid(now)
      modifies this
      ensures var (next, result) := ReleaseClaim(old(ModelAt(claim.watch.id)), claim);
              && Moved(claim.watch.id, next, now, None)
              && (released <==> result && claim.watch.id in old(claims))
              && (claim.watch.id !in old(claims) ==> !old(ModelAt(claim.watch.id)).HasLiveClaim(now))
    {
      var id := claim.watch.id;
      ghost var c, k := ModelAt(id), KeysAt(id);
      ReleaseMirrors(c, k, now, claim);
      released := false;
      if id in claims {
        ReadClaim(c, k, now);
        var held := ParseClaim(claims[id]).value;
        if held.owner == claim.owner && held.token == Print(claim.token) {
          PrintInjective(c.claim.value.token, claim.token);
          released := true;
        }
      } else {
        GoneMirrors(c, k, now);
      }
      hide Mirrors, ParseClaim, Print;
      if released {
        DeleteClaim(id);
      }
      forall other | other != id ensures Mirrors(ModelAt(other), KeysAt(other), now) {
        assert old(Mirrors(ModelAt(other), KeysAt(other), now));
      }
      Settle(id, ReleaseClaim(c, claim).0, now);
    }

    method DeleteClaim(id: string)
      modifies this
      ensures Rewrote(id, old(KeysAt(id)).(claim := None)) && events == old(events)
    {
      claims := claims - {id};
    }

    /** Only a sidecar that names a window and a due time is ever stored. */
    method Synthesize(now: nat, id: string, runtime: Runtime) returns (repaired: bool)
      requires Valid(now)
      modifies this
      ensures MarkerFor(runtime).None? ==> !repaired && Moved(id, old(ModelAt(id)), now, None)
      ensures MarkerFor(runtime).Some? ==>
                var (next, result) := SynthesizeMarker(old(ModelAt(id)), now, runtime);
                Moved(id, next, now, None) && repaired == result
    {
      ghost var c, k := ModelAt(id), KeysAt(id);
      Facts(c, k, now);
      ghost var next := c;
      repaired := false;
      if runtime.window.Some? && runtime.scheduledFor.Some? {
        RepairMirrors(c, k, now, runtime);
        next := SynthesizeMarker(c, now, runtime).0;
        hide Mirrors;
        if id in documents && documents[id].status == Active {
          var live := ClaimIsLive(id, now);
          if !live && id !in schedule {
            StoreRepair(id, runtime);
            repaired := true;
          }
        }
      }
      hide Mirrors;
      forall other | other != id ensures Mirrors(ModelAt(other), KeysAt(other), now) {
        assert old(Mirrors(ModelAt(other), KeysAt(other), now));
      }
      Settle(id, next, now);
    }

    /** SET runtime, SET fence if absent, ZADD schedule. */
    method StoreRepair(id: string, runtime: Runtime)
      requires runtime.scheduledFor.Some?
      modifies this
      ensures Rewrote(id, old(KeysAt(id)).(sidecar := Some(runtime), due := runtime.scheduledFor,
                                           fence := if id in old(fences) then Some(old(fences)[id]) else Some(0)))
      ensures events == old(events)
    {
      sidecars := sidecars[id := runtime];
      if id !in fences {
        fences := fences[id := 0];
      }
      schedule := schedule[id := runtime.scheduledFor.value];
    }

    /** CLEANUP_DUE: the earliest retention deadlines first, each watch revalidated before it goes. */
    method CleanupDue(now: nat, batch: nat) returns (removed: nat, remaining: bool, ghost taken: set<string>, ghost gone: set<string>)
      requires Valid(now)
      modifies this
      ensures Valid(now) && events == old(events)
      ensures FillsBatch(taken, (set id | id in old(terminal) && old(terminal)[id] <= now), batch)
      ensures LowestFirst(old(terminal), taken, now)
      ensures forall id :: AfterCleanup(old(ModelAt(id)), ModelAt(id), id in taken, id in gone)
      ensures removed == |gone|
      ensures remaining <==> exists id :: id in terminal && terminal[id] <= now
    {
      var due := RangeByScore(terminal, now, batch);
      taken := due;
      removed, gone := CleanAll(now, due);
      remaining := exists id :: id in terminal && terminal[id] <= now;
    }

    method CleanAll(now: nat, due: set<string>) returns (removed: nat, ghost gone: set<string>)
      requires Valid(now)
      modifies this
      ensures Valid(now) && events == old(events)
      ensures forall id :: AfterCleanup(old(ModelAt(id)), ModelAt(id), id in due, id in gone)
      ensures removed == |gone|
    {
      hide *;
      removed, gone := 0, {};
      var rest := due;
      forall id ensures AfterCleanup(old(ModelAt(id)), ModelAt(id), id in due - rest, id in gone) {
        NotCleaned(ModelAt(id));
      }
      while rest != {}
        invariant rest <= due && Valid(now)
        invariant forall id :: AfterCleanup(old(ModelAt(id)), ModelAt(id), id in due - rest, id in gone)
        invariant removed == |gone| && events == old(events)
        decreases rest
      {
        var id :| id in rest;
        ghost var was := ModelAt(id);
        WasUntouched(old(ModelAt(id)), was, id in gone);
        var finished := CleanOne(now, id);
        IsCleaned(was);
        rest := rest - {id};
        removed, gone := Count(removed, gone, id, finished);
      }
      assert due - rest == due;
    }

    method CleanOne(now: nat, id: string) returns (finished: bool)
      requires Valid(now)
      modifies this
      ensures Valid(now) && events == old(events)
      ensures ModelAt(id) == Cleaned(old(ModelAt(id))) && finished == old(ModelAt(id)).IsFinished()
      ensures forall other :: other != id ==> ModelAt(other) == old(ModelAt(other))
    {
      ghost var c := ModelAt(id);
      assert Mirrors(c, KeysAt(id), now);
      CleanMirrors(c, KeysAt(id), now);
      Facts(c, KeysAt(id), now);
      hide Mirrors, Cleaned;
      finished := id in documents && documents[id].status.IsTerminal();
      DeleteKeys(id, finished);
      forall other | other != id ensures Mirrors(ModelAt(other), KeysAt(other), now) {
        assert old(Mirrors(ModelAt(other), KeysAt(other), now));
      }
      Settle(id, Cleaned(c), now);
    }

    method DeleteKeys(id: string, whole: bool)
      modifies this
      ensures Rewrote(id, if whole then NO_KEYS else old(KeysAt(id)).(retireAt := None))
      ensures events == old(events)
    {
      if whole {
        documents, sidecars, fences, claims := documents - {id}, sidecars - {id}, fences - {id}, claims - {id};
        allIndex, activeIndex, schedule := allIndex - {id}, activeIndex - {id}, schedule - {id};
      }
      terminal := terminal - {id};
    }
  }
}
