/** The differential oracle between the two stores (tests/test_watch_repository_oracle.py:1-10):
    one trace of operations replayed against both under one clock, every decision compared. */
module WatchOracle {
  import opened Wrappers
  import opened Watches
  import opened WatchCells
  import opened CellRuns
  import Memory = InMemoryWatchRepository
  import Redis = RedisWatchRepository

  /** A claim or permit is used by its position among those issued so far. */
  datatype Op =
    | Advance(elapsed: nat)
    | Open(watch: Watch, runtime: Runtime)
    | Claim(id: string, window: string, owner: string, lease: nat, ignoreSchedule: bool)
    | Begin(held: nat)
    | Commit(held: nat, newWatch: Watch, newRuntime: Runtime)
    | Cancel(id: string)
    | Expire(id: string, expected: Option<nat>, force: bool)
    | Release(held: nat)
    | Repair(id: string, runtime: Runtime)
    | KeyExpiry(id: string)

  datatype Reply =
    | NoReply
    | OpenReply(created: CreateResult)
    | ClaimReply(claimed: ClaimResult)
    | BeginReply(permit: Permit)
    | CommitReply(status: CommitStatus, event: Option<EventId>)
    | TransitionReply(transition: Transition)
    | ReleaseReply(released: bool)
    | RepairReply(repaired: bool)

  /** What the service respects: new watches are active, owners carry no bar, repairs name a window and a time. */
  predicate Disciplined(op: Op) {
    match op
    case Open(watch, _) => watch.status == Active
    case Claim(_, _, owner, _, _) => '|' !in owner
    case Repair(_, runtime) => MarkerFor(runtime).Some?
    case _ => true
  }

  /** The reference run both stores are held to: the clock, every watch's cell, the claims handed out so
      far and the events issued so far. */
  datatype Reference = Reference(now: nat, model: map<string, Cell>, issued: seq<WindowClaim>, events: set<EventId>)

  function With(s: Reference, id: string, c: Cell, event: Option<EventId>): Reference {
    s.(model := s.model[id := c], events := s.events + (if event.Some? then {event.value} else {}))
  }

  /** What one operation does to the reference, and what it answers. A release is answered only while the
      claim lives: Redis cannot tell a dead claim from one that was never there. */
  function Answer(s: Reference, retention: nat, op: Op): (Reference, Reply) {
    match op
    case Advance(elapsed) => (s.(now := s.now + elapsed), NoReply)
    case Open(watch, runtime) =>
      var (c, r) := Create(CellAt(s.model, watch.id), watch, runtime);
      (With(s, watch.id, c, None), OpenReply(r))
    case Claim(id, window, owner, lease, ignoreSchedule) =>
      var (c, r) := ClaimWindow(CellAt(s.model, id), s.now, window, owner, lease, ignoreSchedule);
      (With(s, id, c, None).(issued := if r.Owned? then s.issued + [r.claim] else s.issued), ClaimReply(r))
    case Begin(held) =>
      if held >= |s.issued| then (s, NoReply)
      else
        var claim := s.issued[held];
        var (c, r) := BeginBooking(CellAt(s.model, claim.watch.id), s.now, claim);
        (With(s, claim.watch.id, c, None), BeginReply(r))
    case Commit(held, newWatch, newRuntime) =>
      if held >= |s.issued| then (s, NoReply)
      else
        var claim := s.issued[held];
        var id := claim.watch.id;
        var (c, r) := CommitWindow(CellAt(s.model, id), s.now, retention, claim, newWatch.(id := id), newRuntime);
        (With(s, id, c, r.event), CommitReply(r.status, r.event))
    case Cancel(id) =>
      var (c, r) := CancelIfActive(CellAt(s.model, id), s.now, retention);
      (With(s, id, c, None), TransitionReply(r))
    case Expire(id, expected, force) =>
      var (c, r) := ExpireIfEligible(CellAt(s.model, id), id, s.now, retention, expected, force);
      (With(s, id, c, r.event), TransitionReply(r))
    case Release(held) =>
      if held >= |s.issued| then (s, NoReply)
      else
        var claim := s.issued[held];
        var c := CellAt(s.model, claim.watch.id);
        var (next, r) := ReleaseClaim(c, claim);
        (With(s, claim.watch.id, next, None), if c.HasLiveClaim(s.now) then ReleaseReply(r) else NoReply)
    case Repair(id, runtime) =>
      var (c, r) := SynthesizeMarker(CellAt(s.model, id), s.now, runtime);
      (With(s, id, c, None), RepairReply(r))
    case KeyExpiry(_) => (s, NoReply)
  }

  /** The reference after a whole trace, and everything it answered on the way. */
  function Answers(s: Reference, retention: nat, ops: seq<Op>): (Reference, seq<Reply>) {
    if ops == [] then (s, [])
    else
      var n := |ops| - 1;
      var (before, replies) := Answers(s, retention, ops[..n]);
      var (after, reply) := Answer(before, retention, ops[n]);
      (after, replies + [reply])
  }

  lemma OneMoreAnswer(s: Reference, retention: nat, ops: seq<Op>, i: nat)
    requires i < |ops|
    ensures var (before, replies) := Answers(s, retention, ops[..i]);
            var (after, reply) := Answer(before, retention, ops[i]);
            Answers(s, retention, ops[..i + 1]) == (after, replies + [reply])
  {
    assert ops[..i + 1][..i] == ops[..i];
    hide Answer;
  }

  ghost predicate InStep(mem: Memory.Repository, redis: Redis.Repository, s: Reference)
    reads mem, redis
  {
    && mem.retention == redis.retention
    && mem.events == redis.events == s.events
    && redis.Valid(s.now)
    && redis.model == s.model
    && (forall id :: mem.At(id) == CellAt(s.model, id))
    && Tidy(s.model, s.now, s.issued)
  }

  lemma CoherentAt(redis: Redis.Repository, id: string, now: nat)
    requires redis.Valid(now)
    ensures Coherent(CellAt(redis.model, id), now)
  {
    assert Redis.Mirrors(redis.ModelAt(id), redis.KeysAt(id), now);
  }

  function CellAt(model: map<string, Cell>, id: string): Cell {
    if id in model then model[id] else VACANT
  }

  predicate OwnId(model: map<string, Cell>, id: string) {
    CellAt(model, id).watch.Some? ==> CellAt(model, id).watch.value.id == id
  }

  /** Every cell carries its own id, and every claim issued so far is still truthful. */
  ghost predicate Tidy(model: map<string, Cell>, now: nat, issued: seq<WindowClaim>) {
    && (forall id :: OwnId(model, id))
    && (forall k :: 0 <= k < |issued| ==> Genuine(CellAt(model, issued[k].watch.id), issued[k], now))
  }

  /** One operation on one watch keeps the whole trace tidy. */
  lemma StaysTidy(model: map<string, Cell>, id: string, now: nat, retention: nat, op: CellOp, issued: seq<WindowClaim>)
    requires Tidy(model, now, issued) && Coherent(CellAt(model, id), now)
    requires op.OpCreate? ==> op.watch.id == id
    requires op.OpCommit? ==> op.newWatch.id == id
    ensures Tidy(model[id := Apply(CellAt(model, id), id, now, retention, op)], now, issued)
  {
    var c := CellAt(model, id);
    var after := model[id := Apply(c, id, now, retention, op)];
    assert OwnId(model, id);
    SameId(c, id, now, retention, op);
    hide Apply;
    forall k | 0 <= k < |issued|
      ensures Genuine(CellAt(after, issued[k].watch.id), issued[k], now)
    {
      assert Genuine(CellAt(model, issued[k].watch.id), issued[k], now);
      if issued[k].watch.id == id {
        GenuineKept(c, id, now, retention, op, issued[k]);
      }
    }
    forall other
      ensures OwnId(after, other)
    {
      assert OwnId(model, other);
    }
  }

  lemma IssuedHere(model: map<string, Cell>, id: string, now: nat, window: string, owner: string, lease: nat,
                   ignoreSchedule: bool, issued: seq<WindowClaim>)
    requires Tidy(model, now, issued) && Coherent(CellAt(model, id), now)
    ensures var (next, result) := ClaimWindow(CellAt(model, id), now, window, owner, lease, ignoreSchedule);
            result.Owned? ==> Genuine(next, result.claim, now) && result.claim.watch.id == id
  {
    assert OwnId(model, id);
    GenuineIssued(CellAt(model, id), now, window, owner, lease, ignoreSchedule);
  }

  lemma TidyAppend(model: map<string, Cell>, now: nat, issued: seq<WindowClaim>, claim: WindowClaim)
    requires Tidy(model, now, issued) && Genuine(CellAt(model, claim.watch.id), claim, now)
    ensures Tidy(model, now, issued + [claim])
  {
  }

  lemma SameId(c: Cell, id: string, now: nat, retention: nat, op: CellOp)
    requires c.watch.Some? ==> c.watch.value.id == id
    requires op.OpCreate? ==> op.watch.id == id
    requires op.OpCommit? ==> op.newWatch.id == id
    ensures var next := Apply(c, id, now, retention, op).watch; next.Some? ==> next.value.id == id
  {
  }

  /** On every trace both stores give the reference's answers, issue its events and end in its state. */
  method Replay(ops: seq<Op>, mem: Memory.Repository, redis: Redis.Repository)
    returns (fromMemory: seq<Reply>, fromRedis: seq<Reply>)
    requires InStep(mem, redis, Reference(0, redis.model, [], mem.events))
    requires forall i :: 0 <= i < |ops| ==> Disciplined(ops[i])
    modifies mem, redis
    ensures var (end, replies) := Answers(Reference(0, old(redis.model), [], old(mem.events)), redis.retention, ops);
            && fromMemory == replies && fromRedis == replies
            && InStep(mem, redis, end)
  {
    fromMemory, fromRedis := [], [];
    var now, issued: seq<WindowClaim> := 0, [];
    ghost var start := Reference(0, redis.model, [], mem.events);
    ghost var s := start;
    hide *;
    NoAnswersYet(start, redis.retention, ops);
    for i := 0 to |ops|
      invariant now == s.now && issued == s.issued && InStep(mem, redis, s)
      invariant Answers(start, redis.retention, ops[..i]) == (s, fromMemory) && fromRedis == fromMemory
    {
      var a, b;
      OneMoreAnswer(start, redis.retention, ops, i);
      ghost var next;
      now, issued, a, b, next := Step(ops[i], now, issued, mem, redis, s);
      s := next;
      fromMemory, fromRedis := fromMemory + [a], fromRedis + [b];
    }
    assert ops[..|ops|] == ops;
  }

  lemma NoAnswersYet(s: Reference, retention: nat, ops: seq<Op>)
    ensures Answers(s, retention, ops[..0]) == (s, [])
  {
  }

  /** One operation against both stores. */
  method Step(op: Op, now: nat, issued: seq<WindowClaim>,
              mem: Memory.Repository, redis: Redis.Repository, ghost s: Reference)
    returns (clock: nat, held: seq<WindowClaim>, a: Reply, b: Reply, ghost next: Reference)
    requires InStep(mem, redis, s) && now == s.now && issued == s.issued && Disciplined(op)
    modifies mem, redis
    ensures (next, a) == Answer(s, redis.retention, op) && b == a
    ensures InStep(mem, redis, next) && clock == next.now && held == next.issued
  {
    next := Answer(s, redis.retention, op).0;
    clock, held, a, b := now, issued, NoReply, NoReply;
    match op {
      case Advance(elapsed) =>
        redis.Later(now, now + elapsed);
        clock := now + elapsed;
        TidyLater(s.model, now, clock, issued);
      case Open(_, _) => a, b := OpenBoth(op, now, mem, redis, s);
      case Claim(_, _, _, _, _) => held, a, b := ClaimBoth(op, now, issued, mem, redis, s);
      case Begin(_) => a, b := BeginBoth(op, now, issued, mem, redis, s);
      case Commit(_, _, _) => a, b := CommitBoth(op, now, issued, mem, redis, s);
      case Cancel(_) => a, b := CancelBoth(op, now, mem, redis, s);
      case Expire(_, _, _) => a, b := ExpireBoth(op, now, mem, redis, s);
      case Release(_) => a, b := ReleaseBoth(op, now, issued, mem, redis, s);
      case Repair(_, _) => a, b := RepairBoth(op, now, mem, redis, s);
      case KeyExpiry(id) => redis.ExpireClaimKey(now, id);
    }
  }

  lemma TidyLater(model: map<string, Cell>, now: nat, later: nat, issued: seq<WindowClaim>)
    requires Tidy(model, now, issued) && now <= later
    ensures Tidy(model, later, issued)
  {
  }

  method OpenBoth(op: Op, now: nat, mem: Memory.Repository, redis: Redis.Repository, ghost s: Reference)
    returns (a: Reply, b: Reply)
    requires InStep(mem, redis, s) && now == s.now && op.Open? && Disciplined(op)
    modifies mem, redis
    ensures var (next, reply) := Answer(s, redis.retention, op);
            InStep(mem, redis, next) && a == reply && b == reply
  {
    var id := op.watch.id;
    ghost var c := CellAt(s.model, id);
    CoherentAt(redis, id, now);
    StaysTidy(s.model, id, now, redis.retention, OpCreate(op.watch, op.runtime), s.issued);
    assert Apply(c, id, now, redis.retention, OpCreate(op.watch, op.runtime)) == Create(c, op.watch, op.runtime).0;
    hide Tidy, Genuine, Coherent, ClaimWindow, BeginBooking, CommitWindow, CancelIfActive, ExpireIfEligible, ReleaseClaim,
      SynthesizeMarker, Create, Apply;
    var fromMemory := mem.CreateWithSchedule(op.watch, op.runtime);
    var fromRedis := redis.CreateWithSchedule(now, op.watch, op.runtime);
    a, b := OpenReply(fromMemory), OpenReply(fromRedis);
  }

  lemma ClaimAnswered(s: Reference, retention: nat, op: Op)
    requires op.Claim? && Tidy(s.model, s.now, s.issued) && Coherent(CellAt(s.model, op.id), s.now)
    ensures var (c, r) := ClaimWindow(CellAt(s.model, op.id), s.now, op.window, op.owner, op.lease, op.ignoreSchedule);
            var issued := if r.Owned? then s.issued + [r.claim] else s.issued;
            && Answer(s, retention, op) == (With(s, op.id, c, None).(issued := issued), ClaimReply(r))
            && Tidy(s.model[op.id := c], s.now, issued)
  {
    var c := CellAt(s.model, op.id);
    var cellOp := OpClaim(op.window, op.owner, op.lease, op.ignoreSchedule);
    IssuedHere(s.model, op.id, s.now, op.window, op.owner, op.lease, op.ignoreSchedule, s.issued);
    StaysTidy(s.model, op.id, s.now, retention, cellOp, s.issued);
    var (next, r) := ClaimWindow(c, s.now, op.window, op.owner, op.lease, op.ignoreSchedule);
    assert Apply(c, op.id, s.now, retention, cellOp) == next;
    hide Tidy, Genuine, Coherent, ClaimWindow, Apply;
    if r.Owned? {
      TidyAppend(s.model[op.id := next], s.now, s.issued, r.claim);
    }
  }

  method ClaimBoth(op: Op, now: nat, issued: seq<WindowClaim>,
                   mem: Memory.Repository, redis: Redis.Repository, ghost s: Reference)
    returns (held: seq<WindowClaim>, a: Reply, b: Reply)
    requires InStep(mem, redis, s) && now == s.now && issued == s.issued && op.Claim? && Disciplined(op)
    modifies mem, redis
    ensures var (next, reply) := Answer(s, redis.retention, op);
            InStep(mem, redis, next) && a == reply && b == reply && held == next.issued
  {
    CoherentAt(redis, op.id, now);
    ClaimAnswered(s, redis.retention, op);
    hide Tidy, Genuine, Coherent, ClaimWindow, Answer;
    var fromMemory := mem.Claim(now, op.id, op.window, op.owner, op.lease, op.ignoreSchedule);
    var fromRedis := redis.Claim(now, op.id, op.window, op.owner, op.lease, op.ignoreSchedule);
    a, b := ClaimReply(fromMemory), ClaimReply(fromRedis);
    held := if fromMemory.Owned? then issued + [fromMemory.claim] else issued;
  }

  method BeginBoth(op: Op, now: nat, issued: seq<WindowClaim>,
                   mem: Memory.Repository, redis: Redis.Repository, ghost s: Reference)
    returns (a: Reply, b: Reply)
    requires InStep(mem, redis, s) && now == s.now && issued == s.issued && op.Begin?
    modifies mem, redis
    ensures var (next, reply) := Answer(s, redis.retention, op);
            InStep(mem, redis, next) && a == reply && b == reply
  {
    a, b := NoReply, NoReply;
    if op.held >= |issued| {
      return;
    }
    var claim := issued[op.held];
    var id := claim.watch.id;
    ghost var c := CellAt(s.model, id);
    CoherentAt(redis, id, now);
    assert Genuine(c, claim, now);
    StaysTidy(s.model, id, now, redis.retention, OpPermit(claim), s.issued);
    assert Apply(c, id, now, redis.retention, OpPermit(claim)) == BeginBooking(c, now, claim).0;
    hide Tidy, Genuine, Coherent, ClaimWindow, BeginBooking, CommitWindow, CancelIfActive, ExpireIfEligible, ReleaseClaim,
      SynthesizeMarker, Create, Apply;
    var fromMemory := mem.Permit(now, claim);
    var fromRedis := redis.Permit(now, claim);
    a, b := BeginReply(fromMemory), BeginReply(fromRedis);
  }

  method CommitBoth(op: Op, now: nat, issued: seq<WindowClaim>,
                    mem: Memory.Repository, redis: Redis.Repository, ghost s: Reference)
    returns (a: Reply, b: Reply)
    requires InStep(mem, redis, s) && now == s.now && issued == s.issued && op.Commit?
    modifies mem, redis
    ensures var (next, reply) := Answer(s, redis.retention, op);
            InStep(mem, redis, next) && a == reply && b == reply
  {
    a, b := NoReply, NoReply;
    if op.held >= |issued| {
      return;
    }
    var claim := issued[op.held];
    var id := claim.watch.id;
    ghost var c := CellAt(s.model, id);
    CoherentAt(redis, id, now);
    assert Genuine(c, claim, now);
    StaysTidy(s.model, id, now, redis.retention, OpCommit(claim, op.newWatch.(id := id), op.newRuntime), s.issued);
    assert Apply(c, id, now, redis.retention, OpCommit(claim, op.newWatch.(id := id), op.newRuntime))
           == CommitWindow(c, now, redis.retention, claim, op.newWatch.(id := id), op.newRuntime).0;
    hide Tidy, Genuine, Coherent, ClaimWindow, BeginBooking, CommitWindow, CancelIfActive, ExpireIfEligible, ReleaseClaim,
      SynthesizeMarker, Create, Apply;
    var fromMemory := mem.Commit(now, claim, op.newWatch.(id := id), op.newRuntime);
    var fromRedis := redis.Commit(now, claim, op.newWatch.(id := id), op.newRuntime);
    a, b := CommitReply(fromMemory.status, fromMemory.event), CommitReply(fromRedis.status, fromRedis.event);
  }

  method ReleaseBoth(op: Op, now: nat, issued: seq<WindowClaim>,
                     mem: Memory.Repository, redis: Redis.Repository, ghost s: Reference)
    returns (a: Reply, b: Reply)
    requires InStep(mem, redis, s) && now == s.now && issued == s.issued && op.Release?
    modifies mem, redis
    ensures var (next, reply) := Answer(s, redis.retention, op);
            InStep(mem, redis, next) && a == reply && b == reply
  {
    a, b := NoReply, NoReply;
    if op.held >= |issued| {
      return;
    }
    var claim := issued[op.held];
    var id := claim.watch.id;
    ghost var c := CellAt(s.model, id);
    CoherentAt(redis, id, now);
    assert Genuine(c, claim, now);
    StaysTidy(s.model, id, now, redis.retention, OpRelease(claim), s.issued);
    assert Apply(c, id, now, redis.retention, OpRelease(claim)) == ReleaseClaim(c, claim).0;
    hide Tidy, Genuine, Coherent, ClaimWindow, BeginBooking, CommitWindow, CancelIfActive, ExpireIfEligible, ReleaseClaim,
      SynthesizeMarker, Create, Apply;
    var live := id in mem.claims && mem.claims[id].expiresAt > now;
    var fromMemory := mem.Release(claim);
    var fromRedis := redis.Release(now, claim);
    if live {
      a, b := ReleaseReply(fromMemory), ReleaseReply(fromRedis);
    }
  }

  method CancelBoth(op: Op, now: nat, mem: Memory.Repository, redis: Redis.Repository, ghost s: Reference)
    returns (a: Reply, b: Reply)
    requires InStep(mem, redis, s) && now == s.now && op.Cancel?
    modifies mem, redis
    ensures var (next, reply) := Answer(s, redis.retention, op);
            InStep(mem, redis, next) && a == reply && b == reply
  {
    var id := op.id;
    ghost var c := CellAt(s.model, id);
    CoherentAt(redis, id, now);
    StaysTidy(s.model, id, now, redis.retention, OpCancel, s.issued);
    assert Apply(c, id, now, redis.retention, OpCancel) == CancelIfActive(c, now, redis.retention).0;
    hide Tidy, Genuine, Coherent, ClaimWindow, BeginBooking, CommitWindow, CancelIfActive, ExpireIfEligible, ReleaseClaim,
      SynthesizeMarker, Create, Apply;
    var fromMemory := mem.Cancel(now, id);
    var fromRedis := redis.Cancel(now, id);
    a, b := TransitionReply(fromMemory), TransitionReply(fromRedis);
  }

  lemma ExpireAnswered(s: Reference, retention: nat, op: Op)
    requires op.Expire? && Tidy(s.model, s.now, s.issued) && Coherent(CellAt(s.model, op.id), s.now)
    ensures var (c, r) := ExpireIfEligible(CellAt(s.model, op.id), op.id, s.now, retention, op.expected, op.force);
            && Answer(s, retention, op) == (With(s, op.id, c, r.event), TransitionReply(r))
            && Tidy(s.model[op.id := c], s.now, s.issued)
  {
    var c := CellAt(s.model, op.id);
    StaysTidy(s.model, op.id, s.now, retention, OpExpire(op.expected, op.force), s.issued);
    assert Apply(c, op.id, s.now, retention, OpExpire(op.expected, op.force))
           == ExpireIfEligible(c, op.id, s.now, retention, op.expected, op.force).0;
  }

  method ExpireBoth(op: Op, now: nat, mem: Memory.Repository, redis: Redis.Repository, ghost s: Reference)
    returns (a: Reply, b: Reply)
    requires InStep(mem, redis, s) && now == s.now && op.Expire?
    modifies mem, redis
    ensures var (next, reply) := Answer(s, redis.retention, op);
            InStep(mem, redis, next) && a == reply && b == reply
  {
    CoherentAt(redis, op.id, now);
    ExpireAnswered(s, redis.retention, op);
    hide Tidy, Genuine, Coherent, ExpireIfEligible, Answer;
    var fromMemory := mem.Expire(now, op.id, op.expected, op.force);
    var fromRedis := redis.Expire(now, op.id, op.expected, op.force);
    a, b := TransitionReply(fromMemory), TransitionReply(fromRedis);
  }

  method RepairBoth(op: Op, now: nat, mem: Memory.Repository, redis: Redis.Repository, ghost s: Reference)
    returns (a: Reply, b: Reply)
    requires InStep(mem, redis, s) && now == s.now && op.Repair? && Disciplined(op)
    modifies mem, redis
    ensures var (next, reply) := Answer(s, redis.retention, op);
            InStep(mem, redis, next) && a == reply && b == reply
  {
    var id := op.id;
    ghost var c := CellAt(s.model, id);
    CoherentAt(redis, id, now);
    StaysTidy(s.model, id, now, redis.retention, OpSynthesize(op.runtime), s.issued);
    ghost var (expected, result) := SynthesizeMarker(c, now, op.runtime);
    assert Apply(c, id, now, redis.retention, OpSynthesize(op.runtime)) == expected;
    assert Answer(s, redis.retention, op) == (With(s, id, expected, None), RepairReply(result));
    hide Answer, Tidy, Genuine, Coherent, ClaimWindow, BeginBooking, CommitWindow, CancelIfActive, ExpireIfEligible, ReleaseClaim,
      SynthesizeMarker, Create, Apply;
    var fromMemory := mem.Synthesize(now, id, op.runtime);
    var fromRedis := redis.Synthesize(now, id, op.runtime);
    a, b := RepairReply(fromMemory), RepairReply(fromRedis);
  }
}
