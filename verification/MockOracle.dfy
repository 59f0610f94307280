/** One history of provider calls driven through either mock store (backend/db/repositories/mock_booking.py:144-497):
    whatever ties a store breaks its own way, it answers as some fair run of the specified cache. */
module MockOracle {
  import opened Wrappers
  import opened Watches
  import opened MockCache
  import Memory = InMemoryMockBooking
  import Redis = RedisMockBooking

  datatype Call =
    | Find(candidates: seq<Slot>, operation: string)
    | Book(slotId: string, key: string)
    | Lookup(key: string)
    | Finish(operation: string)
    | Sweep(batch: nat)

  datatype TimedCall = TimedCall(now: nat, call: Call)

  datatype Answer =
    | Listed(slots: seq<Slot>)
    | BookReply(result: BookResult)
    | Known(confirmation: Option<Confirmation>)
    | Finished
    | Swept(idleSlots: nat, expiredRecords: nat)

  /** The operation is the call with the store's own choices filled in. */
  predicate Resolves(t: Timed, c: TimedCall) {
    t.now == c.now &&
    match c.call
    case Find(candidates, operation) =>
      t.op.Look? && t.op.candidates == candidates && t.op.operation == operation
    case Book(slotId, key) => t.op == Take(slotId, key)
    case Lookup(key) => t.op == Ask(key)
    case Finish(operation) => t.op == Drop(operation)
    case Sweep(batch) => t.op.Clean? && t.op.batch == batch
  }

  function Reply(c: Cache, t: Timed, lim: Limits): Answer
    requires Fair(c, t.now, t.op, lim)
  {
    match t.op
    case Look(candidates, operation, victims) =>
      Listed(Publish(c, candidates, operation, t.now, lim.capacity, lim.pinTtl, victims).1)
    case Take(s, key) => BookReply(BookSlot(c, s, key, t.now, lim.retention).1)
    case Drop(_) => Finished
    case Clean(sweep, _) => Swept(|sweep.idle|, |sweep.keys|)
    case Ask(key) => Known(GetBooking(c, key, t.now))
  }

  function Replies(c: Cache, start: nat, run: seq<Timed>, lim: Limits): seq<Answer>
    requires IsRun(c, start, run, lim)
    decreases |run|
  {
    if run == [] then []
    else [Reply(c, run[0], lim)] + Replies(Do(c, run[0].now, run[0].op, lim), run[0].now, run[1..], lim)
  }

  ghost predicate Explains(run: seq<Timed>, calls: seq<TimedCall>, answers: seq<Answer>, end: Cache, lim: Limits) {
    && |run| == |calls|
    && (forall i :: 0 <= i < |run| ==> Resolves(run[i], calls[i]))
    && IsRun(NOTHING, 0, run, lim)
    && Run(NOTHING, 0, run, lim).0 == end
    && Replies(NOTHING, 0, run, lim) == answers
  }

  /** Some choice among ties makes the specified cache give these answers and end in this state. */
  ghost predicate Possible(calls: seq<TimedCall>, answers: seq<Answer>, end: Cache, lim: Limits) {
    exists run :: Explains(run, calls, answers, end, lim)
  }

  predicate InOrder(calls: seq<TimedCall>) {
    forall i, j :: 0 <= i < j < |calls| ==> calls[i].now <= calls[j].now
  }

  // -- runs, one operation more and cut in two ------------------------------------------------

  lemma {:induction false} OneMore(c: Cache, start: nat, run: seq<Timed>, t: Timed, lim: Limits)
    requires IsRun(c, start, run, lim)
    requires var (d, end) := Run(c, start, run, lim); end <= t.now && Fair(d, t.now, t.op, lim)
    ensures IsRun(c, start, run + [t], lim)
    ensures var d := Run(c, start, run, lim).0;
            && Run(c, start, run + [t], lim) == (Do(d, t.now, t.op, lim), t.now)
            && Replies(c, start, run + [t], lim) == Replies(c, start, run, lim) + [Reply(d, t, lim)]
    decreases |run|
  {
    var longer := run + [t];
    if run == [] {
      assert longer[1..] == [];
      assert longer == [t];
    } else {
      var next := Do(c, run[0].now, run[0].op, lim);
      assert longer[0] == run[0] && longer[1..] == run[1..] + [t];
      hide Fair, Do, Reply;
      OneMore(next, run[0].now, run[1..], t, lim);
    }
  }

  /** A run opens with its first operation. */
  lemma Opens(c: Cache, start: nat, first: Timed, run: seq<Timed>, lim: Limits)
    requires start <= first.now && Fair(c, first.now, first.op, lim)
    requires IsRun(Do(c, first.now, first.op, lim), first.now, run, lim)
    ensures var d := Do(c, first.now, first.op, lim);
            && IsRun(c, start, [first] + run, lim)
            && Run(c, start, [first] + run, lim) == Run(d, first.now, run, lim)
            && Replies(c, start, [first] + run, lim) == [Reply(c, first, lim)] + Replies(d, first.now, run, lim)
  {
    assert ([first] + run)[1..] == run;
    hide Fair, Do, Reply;
  }

  lemma Rest(c: Cache, start: nat, run: seq<Timed>, lim: Limits)
    requires IsRun(c, start, run, lim) && run != []
    ensures start <= run[0].now && Fair(c, run[0].now, run[0].op, lim)
    ensures IsRun(Do(c, run[0].now, run[0].op, lim), run[0].now, run[1..], lim)
  {
  }

  lemma CutNowhere(c: Cache, start: nat, run: seq<Timed>, lim: Limits)
    requires IsRun(c, start, run, lim)
    ensures IsRun(c, start, run[..0], lim) && Run(c, start, run[..0], lim) == (c, start)
    ensures Replies(c, start, run[..0], lim) == [] && run[0..] == run
  {
  }

  lemma {:induction false} Cut(c: Cache, start: nat, run: seq<Timed>, k: nat, lim: Limits)
    requires IsRun(c, start, run, lim) && k <= |run|
    ensures IsRun(c, start, run[..k], lim)
    ensures var (d, mid) := Run(c, start, run[..k], lim);
            && IsRun(d, mid, run[k..], lim)
            && Run(d, mid, run[k..], lim) == Run(c, start, run, lim)
            && Replies(c, start, run, lim) == Replies(c, start, run[..k], lim) + Replies(d, mid, run[k..], lim)
    decreases |run|
  {
    hide *;
    if k == 0 {
      CutNowhere(c, start, run, lim);
    } else {
      var first, rest := run[0], run[1..];
      Rest(c, start, run, lim);
      Cut(Do(c, first.now, first.op, lim), first.now, rest, k - 1, lim);
      Opens(c, start, first, rest, lim);
      Opens(c, start, first, rest[..k - 1], lim);
      assert run == [first] + rest && run[..k] == [first] + rest[..k - 1] && run[k..] == rest[k - 1..];
    }
  }

  lemma {:induction false} OneReplyEach(c: Cache, start: nat, run: seq<Timed>, lim: Limits)
    requires IsRun(c, start, run, lim)
    ensures |Replies(c, start, run, lim)| == |run|
    decreases |run|
  {
    if run != [] {
      OneReplyEach(Do(c, run[0].now, run[0].op, lim), run[0].now, run[1..], lim);
    }
  }

  lemma ExplainsMore(run: seq<Timed>, t: Timed, calls: seq<TimedCall>, i: nat, answers: seq<Answer>, c: Cache, lim: Limits)
    requires InOrder(calls) && i < |calls| && Explains(run, calls[..i], answers, c, lim)
    requires Resolves(t, calls[i]) && Fair(c, t.now, t.op, lim)
    ensures Explains(run + [t], calls[..i + 1], answers + [Reply(c, t, lim)], Do(c, t.now, t.op, lim), lim)
  {
    if i == 0 {
      assert run == [];
    } else {
      LastInstant(NOTHING, 0, run, lim);
      assert Resolves(run[i - 1], calls[i - 1]);
    }
    hide Fair, Do, Reply, IsRun, Run, Replies;
    OneMore(NOTHING, 0, run, t, lim);
    var longer := run + [t];
    forall j | 0 <= j < |longer|
      ensures Resolves(longer[j], calls[..i + 1][j])
    {
      assert j < i ==> longer[j] == run[j] && calls[..i][j] == calls[j];
    }
  }

  lemma {:induction false} LastInstant(c: Cache, start: nat, run: seq<Timed>, lim: Limits)
    requires IsRun(c, start, run, lim) && run != []
    ensures Run(c, start, run, lim).1 == run[|run| - 1].now
    decreases |run|
  {
    if |run| > 1 {
      LastInstant(Do(c, run[0].now, run[0].op, lim), run[0].now, run[1..], lim);
    }
  }

  // -- either store, driven by the same calls ---------------------------------------------------

  method AskMemory(store: Memory.Store, c: TimedCall) returns (a: Answer, ghost t: Timed)
    modifies store
    ensures Resolves(t, c) && Fair(old(store.State()), t.now, t.op, store.limits)
    ensures store.State() == Do(old(store.State()), t.now, t.op, store.limits)
    ensures a == Reply(old(store.State()), t, store.limits)
  {
    hide FairVictims, FairSweep, Publish, MockCache.BookSlot, MockCache.Cleanup, Release;
    match c.call
    case Find(candidates, operation) =>
      var found, victims := store.PublishAndFilter(candidates, operation, c.now);
      a, t := Listed(found), Timed(c.now, Look(candidates, operation, victims));
    case Book(slotId, key) =>
      var result := store.BookSlot(slotId, key, c.now);
      a, t := BookReply(result), Timed(c.now, Take(slotId, key));
    case Lookup(key) =>
      var confirmation := store.GetBooking(key, c.now);
      a, t := Known(confirmation), Timed(c.now, Ask(key));
    case Finish(operation) =>
      store.ReleaseOperation(operation);
      a, t := Finished, Timed(c.now, Drop(operation));
    case Sweep(batch) =>
      var idle, expired, sweep := store.Cleanup(c.now, batch);
      a, t := Swept(idle, expired), Timed(c.now, Clean(sweep, batch));
  }

  method RunMemory(calls: seq<TimedCall>, limits: Limits) returns (store: Memory.Store, answers: seq<Answer>)
    requires InOrder(calls)
    ensures fresh(store) && Possible(calls, answers, store.State(), limits)
  {
    hide *;
    store := new Memory.Store(limits);
    answers := [];
    ghost var run: seq<Timed> := [];
    NothingYet(calls, limits);
    for i := 0 to |calls|
      invariant fresh(store) && store.limits == limits
      invariant Explains(run, calls[..i], answers, store.State(), limits)
    {
      ghost var c := store.State();
      var a, t := AskMemory(store, calls[i]);
      ExplainsMore(run, t, calls, i, answers, c, limits);
      run, answers := run + [t], answers + [a];
    }
    assert calls[..|calls|] == calls;
    IsPossible(run, calls, answers, store.State(), limits);
  }

  lemma NothingYet(calls: seq<TimedCall>, lim: Limits)
    ensures Explains([], calls[..0], [], NOTHING, lim)
  {
  }

  lemma IsPossible(run: seq<Timed>, calls: seq<TimedCall>, answers: seq<Answer>, end: Cache, lim: Limits)
    requires Explains(run, calls, answers, end, lim)
    ensures Possible(calls, answers, end, lim)
  {
  }

  predicate NoBar(c: TimedCall) {
    c.call.Book? ==> '|' !in c.call.key
  }

  method AskRedis(store: Redis.Store, c: TimedCall) returns (a: Answer, ghost t: Timed)
    requires store.Valid(c.now) && NoBar(c)
    modifies store
    ensures store.Valid(c.now)
    ensures Resolves(t, c) && Fair(old(store.model), t.now, t.op, store.limits)
    ensures store.model == Do(old(store.model), t.now, t.op, store.limits)
    ensures a == Reply(old(store.model), t, store.limits)
  {
    hide FairVictims, FairSweep, Publish, MockCache.BookSlot, MockCache.Cleanup, Release, Redis.SlotIndex, Redis.PinIndex,
      Redis.TombIndex, Redis.BookIndex;
    match c.call
    case Find(candidates, operation) =>
      var found, victims := store.PublishAndFilter(candidates, operation, c.now);
      a, t := Listed(found), Timed(c.now, Look(candidates, operation, victims));
    case Book(slotId, key) =>
      var result := store.BookSlot(slotId, key, c.now);
      a, t := BookReply(result), Timed(c.now, Take(slotId, key));
    case Lookup(key) =>
      var confirmation := store.GetBooking(key, c.now);
      a, t := Known(confirmation), Timed(c.now, Ask(key));
    case Finish(operation) =>
      store.ReleaseOperation(operation, c.now);
      a, t := Finished, Timed(c.now, Drop(operation));
    case Sweep(batch) =>
      var idle, expired, sweep := store.Cleanup(c.now, batch);
      a, t := Swept(idle, expired), Timed(c.now, Clean(sweep, batch));
  }

  /** Native expiry may take a document and a tombstone before any call. */
  method RunRedis(calls: seq<TimedCall>, limits: Limits, lapsedKeys: seq<string>, lapsedSlots: seq<string>)
    returns (store: Redis.Store, answers: seq<Answer>)
    requires InOrder(calls) && limits.pinTtl > 0 && |lapsedKeys| == |lapsedSlots| == |calls|
    requires forall i :: 0 <= i < |calls| ==> NoBar(calls[i])
    ensures fresh(store) && Possible(calls, answers, store.model, limits)
  {
    hide *;
    store := new Redis.Store(limits);
    answers := [];
    ghost var run: seq<Timed> := [];
    NothingYet(calls, limits);
    for i := 0 to |calls|
      invariant fresh(store) && store.limits == limits
      invariant i < |calls| ==> store.Valid(calls[i].now)
      invariant Explains(run, calls[..i], answers, store.model, limits)
    {
      ghost var c := store.model;
      store.ExpireRecord(lapsedKeys[i], calls[i].now);
      store.ExpireTomb(lapsedSlots[i], calls[i].now);
      var a, t := AskRedis(store, calls[i]);
      ExplainsMore(run, t, calls, i, answers, c, limits);
      run, answers := run + [t], answers + [a];
      if i + 1 < |calls| {
        NextInstant(calls, i);
        store.Later(calls[i].now, calls[i + 1].now);
      }
    }
    assert calls[..|calls|] == calls;
    IsPossible(run, calls, answers, store.model, limits);
  }

  lemma NextInstant(calls: seq<TimedCall>, i: nat)
    requires InOrder(calls) && i + 1 < |calls|
    ensures calls[i].now <= calls[i + 1].now
  {
  }

  // -- what every possible history keeps --------------------------------------------------------------

  /** Retention counts from the moment a booking was made. */
  predicate Stamped(c: Cache, lim: Limits) {
    forall key :: key in c.bookings ==> c.bookings[key].protectedUntil == c.bookings[key].confirmation.createdAt + lim.retention
  }

  lemma DoStamps(c: Cache, now: nat, op: CacheOp, lim: Limits)
    requires Stamped(c, lim) && Fair(c, now, op, lim)
    ensures Stamped(Do(c, now, op, lim), lim)
  {
    if op.Look? {
      AdmitFrame(Start(c, now), op.candidates, now, lim.capacity, op.victims);
      hide Admit, FairVictims;
    }
  }

  lemma {:induction false} RunStamps(c: Cache, start: nat, run: seq<Timed>, lim: Limits)
    requires IsRun(c, start, run, lim) && Stamped(c, lim)
    ensures Stamped(Run(c, start, run, lim).0, lim)
    decreases |run|
  {
    if run != [] {
      DoStamps(c, run[0].now, run[0].op, lim);
      RunStamps(Do(c, run[0].now, run[0].op, lim), run[0].now, run[1..], lim);
    }
  }

  lemma NothingIsOK(lim: Limits)
    ensures CacheOK(NOTHING, 0, lim.capacity) && Stamped(NOTHING, lim)
  {
  }

  /** The state the i-th call found, what it answered and what is left of the run. */
  lemma At(run: seq<Timed>, i: nat, lim: Limits) returns (c: Cache, d: Cache)
    requires IsRun(NOTHING, 0, run, lim) && i < |run|
    ensures Fair(c, run[i].now, run[i].op, lim) && d == Do(c, run[i].now, run[i].op, lim)
    ensures CacheOK(c, run[i].now, lim.capacity) && Stamped(c, lim)
    ensures |Replies(NOTHING, 0, run, lim)| == |run| && Replies(NOTHING, 0, run, lim)[i] == Reply(c, run[i], lim)
    ensures IsRun(d, run[i].now, run[i + 1..], lim)
    ensures Replies(NOTHING, 0, run, lim)[i + 1..] == Replies(d, run[i].now, run[i + 1..], lim)
    ensures Run(NOTHING, 0, run, lim) == Run(d, run[i].now, run[i + 1..], lim)
  {
    NothingIsOK(lim);
    Cut(NOTHING, 0, run, i, lim);
    RunKeeps(NOTHING, 0, run[..i], lim, "");
    RunStamps(NOTHING, 0, run[..i], lim);
    OneReplyEach(NOTHING, 0, run, lim);
    OneReplyEach(NOTHING, 0, run[..i], lim);
    var (before, mid) := Run(NOTHING, 0, run[..i], lim);
    var rest := run[i..];
    assert rest[0] == run[i] && rest[1..] == run[i + 1..];
    c, d := before, Do(before, run[i].now, run[i].op, lim);
    CacheLater(before, mid, run[i].now, lim.capacity);
    hide CacheOK, Stamped, Fair, Do, Reply;
    assert Replies(before, mid, rest, lim) == [Reply(c, run[i], lim)] + Replies(d, run[i].now, rest[1..], lim);
  }

  predicate Confirmed(answer: Answer, conf: Confirmation) {
    answer == BookReply(Reservation(conf))
  }

  lemma BookedNow(c: Cache, s: string, key: string, now: nat, lim: Limits, conf: Confirmation)
    requires Stamped(c, lim) && BookSlot(c, s, key, now, lim.retention).1 == Reservation(conf)
    requires now < conf.createdAt + lim.retention
    ensures var d := BookSlot(c, s, key, now, lim.retention).0;
            d.Reserved(key, now) && d.bookings[key] == Record(conf, conf.createdAt + lim.retention)
  {
  }

  /** A confirmed booking is what every later call of the same run finds under its key. */
  lemma StillThere(run: seq<Timed>, i: nat, j: nat, conf: Confirmation, lim: Limits) returns (e: Cache)
    requires IsRun(NOTHING, 0, run, lim) && i < j < |run| && run[i].op.Take? && run[i].now <= run[j].now
    requires |Replies(NOTHING, 0, run, lim)| == |run| && Confirmed(Replies(NOTHING, 0, run, lim)[i], conf)
    requires run[j].now < conf.createdAt + lim.retention
    ensures Fair(e, run[j].now, run[j].op, lim) && Replies(NOTHING, 0, run, lim)[j] == Reply(e, run[j], lim)
    ensures CacheOK(e, run[j].now, lim.capacity)
    ensures e.Reserved(run[i].op.key, run[j].now) && e.bookings[run[i].op.key].confirmation == conf
  {
    var c, d := At(run, i, lim);
    var key, now, rest, m := run[i].op.key, run[i].now, run[i + 1..], j - i - 1;
    BookedNow(c, run[i].op.slotId, key, now, lim, conf);
    DoKeeps(c, now, run[i].op, lim);
    Cut(d, now, rest, m, lim);
    RunKeeps(d, now, rest[..m], lim, key);
    OneReplyEach(d, now, rest[..m], lim);
    var end;
    var tail := rest[m..];
    e, end := Run(d, now, rest[..m], lim).0, Run(d, now, rest[..m], lim).1;
    assert tail[0] == run[j];
    hide CacheOK, Stamped, Fair, Do, Reply;
    CacheLater(e, end, run[j].now, lim.capacity);
    assert Replies(e, end, tail, lim)[0] == Reply(e, tail[0], lim);
    assert Replies(NOTHING, 0, run, lim)[i + 1..][m] == Replies(NOTHING, 0, run, lim)[j];
  }

  lemma OtherSlot(e: Cache, now: nat, key: string, conf: Confirmation, s: string, other: string, lim: Limits)
    requires CacheOK(e, now, lim.capacity) && e.Reserved(key, now) && e.bookings[key].confirmation == conf && other != key
    ensures var r := BookSlot(e, s, other, now, lim.retention).1;
            r.Reservation? ==> r.confirmation.slot.slotId != conf.slot.slotId
  {
    assert Linked(e, key, conf.slot.slotId, now);
    if e.Reserved(other, now) {
      assert Linked(e, other, e.bookings[other].confirmation.slot.slotId, now);
    }
  }

  /** In every possible history of either store, a booking confirmed once answers every later booking and
      lookup of its key until its retention ends, and meanwhile its slot is confirmed to nobody else. */
  lemma BookingsStand(calls: seq<TimedCall>, answers: seq<Answer>, end: Cache, lim: Limits, i: nat, j: nat, conf: Confirmation)
    requires InOrder(calls) && Possible(calls, answers, end, lim) && i < j < |calls|
    ensures |answers| == |calls|
    ensures calls[i].call.Book? && Confirmed(answers[i], conf) && calls[j].now < conf.createdAt + lim.retention ==>
              var key := calls[i].call.key;
              && (calls[j].call == Lookup(key) ==> answers[j] == Known(Some(conf)))
              && (calls[j].call.Book? && calls[j].call.key == key ==> answers[j] == answers[i])
              && (calls[j].call.Book? && calls[j].call.key != key ==>
                    forall other :: Confirmed(answers[j], other) ==> other.slot.slotId != conf.slot.slotId)
  {
    var run :| Explains(run, calls, answers, end, lim);
    OneReplyEach(NOTHING, 0, run, lim);
    assert Resolves(run[i], calls[i]) && Resolves(run[j], calls[j]);
    if calls[i].call.Book? && Confirmed(answers[i], conf) && calls[j].now < conf.createdAt + lim.retention {
      var e := StillThere(run, i, j, conf, lim);
      if calls[j].call.Book? && calls[j].call.key != calls[i].call.key {
        OtherSlot(e, calls[j].now, calls[i].call.key, conf, calls[j].call.slotId, calls[j].call.key, lim);
      }
      hide CacheOK;
    }
  }

  /** And the capacity and the link between bookings and tombstones hold at the end of it. */
  lemma HistoryKeeps(calls: seq<TimedCall>, answers: seq<Answer>, end: Cache, lim: Limits)
    requires Possible(calls, answers, end, lim)
    ensures CacheOK(end, if calls == [] then 0 else calls[|calls| - 1].now, lim.capacity)
  {
    var run :| Explains(run, calls, answers, end, lim);
    NothingIsOK(lim);
    RunKeeps(NOTHING, 0, run, lim, "");
    if run != [] {
      LastInstant(NOTHING, 0, run, lim);
      assert Resolves(run[|run| - 1], calls[|run| - 1]);
    }
  }
}
