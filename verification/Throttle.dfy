/** Sliding-window throttling: a lazily purged deque per key, and the same window as one Lua script,
    both against the full history of events (backend/services/throttle.py:114-273). */
module Throttle {
  import opened Wrappers
  import opened SortedSets

  const MAX_TRACKED_KEYS: nat := 10_000

  /** One counted event; the token is unique. */
  datatype Event = Event(at: nat, token: string)

  datatype Limit = Limit(maxEvents: nat, window: nat)

  predicate IsRecent(e: Event, now: nat, window: nat) {
    e.at as int > now as int - window as int
  }

  /** The events of a full history that still count at `now`. */
  function Recent(h: seq<Event>, now: nat, window: nat): seq<Event> {
    if h == [] then []
    else
      var n := |h| - 1;
      Recent(h[..n], now, window) + (if IsRecent(h[n], now, window) then [h[n]] else [])
  }

  /** The reference decision: filter everything ever counted by age. */
  predicate Limited(h: seq<Event>, now: nat, limit: Limit) {
    |Recent(h, now, limit.window)| >= limit.maxEvents
  }

  predicate InTimeOrder(h: seq<Event>) {
    forall i, j :: 0 <= i < j < |h| ==> h[i].at <= h[j].at
  }

  predicate Before(h: seq<Event>, now: nat) {
    forall i :: 0 <= i < |h| ==> h[i].at <= now
  }

  // -- filtering by age ---------------------------------------------------------------------

  lemma RecentAppend(h: seq<Event>, e: Event, now: nat, window: nat)
    ensures Recent(h + [e], now, window) == Recent(h, now, window) + (if IsRecent(e, now, window) then [e] else [])
  {
    assert (h + [e])[..|h|] == h;
  }

  lemma {:induction false} RecentConcat(a: seq<Event>, b: seq<Event>, now: nat, window: nat)
    ensures Recent(a + b, now, window) == Recent(a, now, window) + Recent(b, now, window)
  {
    if b == [] {
      assert a + b == a;
    } else {
      var n := |b| - 1;
      RecentConcat(a, b[..n], now, window);
      assert (a + b)[..|a + b| - 1] == a + b[..n];
    }
  }

  lemma {:induction false} RecentNone(h: seq<Event>, now: nat, window: nat)
    requires forall i :: 0 <= i < |h| ==> !IsRecent(h[i], now, window)
    ensures Recent(h, now, window) == []
  {
    if h != [] {
      RecentNone(h[..|h| - 1], now, window);
    }
  }

  lemma {:induction false} RecentAll(h: seq<Event>, now: nat, window: nat)
    requires forall i :: 0 <= i < |h| ==> IsRecent(h[i], now, window)
    ensures Recent(h, now, window) == h
  {
    if h != [] {
      RecentAll(h[..|h| - 1], now, window);
    }
  }

  /** What has been purged once stays out of every later decision. */
  lemma {:induction false} RecentTwice(h: seq<Event>, now: nat, later: nat, window: nat)
    requires now <= later
    ensures Recent(Recent(h, now, window), later, window) == Recent(h, later, window)
  {
    if h != [] {
      var n := |h| - 1;
      RecentTwice(h[..n], now, later, window);
      var r := Recent(h[..n], now, window);
      if IsRecent(h[n], now, window) {
        RecentAppend(r, h[n], later, window);
      } else {
        assert r + [] == r;
      }
    }
  }

  /** A purge may drop any prefix that is too old, and no decision now or later can tell. */
  lemma SameDecisionLater(h: seq<Event>, kept: seq<Event>, now: nat, later: nat, limit: Limit)
    requires Recent(h, now, limit.window) == Recent(kept, now, limit.window) && now <= later
    ensures Recent(h, later, limit.window) == Recent(kept, later, limit.window)
    ensures Limited(h, later, limit) <==> Limited(kept, later, limit)
  {
    RecentTwice(h, now, later, limit.window);
    RecentTwice(kept, now, later, limit.window);
  }

  function RemoveFirst(h: seq<Event>, token: string): seq<Event> {
    if h == [] then []
    else if h[0].token == token then h[1..]
    else [h[0]] + RemoveFirst(h[1..], token)
  }

  /** Where tokens are unique, exactly the event with that token goes. */
  lemma {:induction false} RemoveFirstIs(h: seq<Event>, token: string, e: Event)
    requires forall i, j :: 0 <= i < j < |h| ==> h[i].token != h[j].token
    ensures e in RemoveFirst(h, token) <==> e in h && e.token != token
    ensures |RemoveFirst(h, token)| == |h| - if exists x :: x in h && x.token == token then 1 else 0
  {
    if h != [] {
      RemoveFirstIs(h[1..], token, e);
      assert h == [h[0]] + h[1..];
      assert forall x :: x in h <==> x == h[0] || x in h[1..];
      if h[0].token == token {
        forall x | x in h[1..]
          ensures x.token != token
        {
          var j :| 0 <= j < |h| - 1 && h[1..][j] == x;
          assert h[j + 1] == x;
        }
      }
    }
  }

  /** Taking back one reservation that still counts. */
  function Released(h: seq<Event>, token: string, now: nat, window: nat): seq<Event> {
    RemoveFirst(Recent(h, now, window), token)
  }

  /** Of the reservations that still count, exactly the one taken back is gone. */
  lemma ReleasedIs(h: seq<Event>, token: string, now: nat, window: nat, e: Event)
    requires var live := Recent(h, now, window); forall i, j :: 0 <= i < j < |live| ==> live[i].token != live[j].token
    ensures e in Released(h, token, now, window) <==> e in Recent(h, now, window) && e.token != token
  {
    RemoveFirstIs(Recent(h, now, window), token, e);
  }

  // -- one key of the in-process throttle -------------------------------------------------------

  /** The deque kept for a key stands for its whole history: only events too old to count are gone. */
  predicate StandsFor(kept: Option<seq<Event>>, h: seq<Event>, now: nat, window: nat) {
    match kept
    case None => Recent(h, now, window) == []
    case Some(q) =>
      InTimeOrder(q) && Before(q, now) && Recent(q, now, window) == Recent(h, now, window)
  }

  function Contents(kept: Option<seq<Event>>): seq<Event> {
    if kept.Some? then kept.value else []
  }

  lemma StandsLater(kept: Option<seq<Event>>, h: seq<Event>, now: nat, later: nat, window: nat)
    requires StandsFor(kept, h, now, window) && now <= later
    ensures StandsFor(kept, h, later, window)
  {
    RecentTwice(h, now, later, window);
    if kept.Some? {
      RecentTwice(kept.value, now, later, window);
    }
  }

  /** Popping stale events off the front of a time-ordered deque is exactly filtering it. */
  lemma FrontIsFilter(gone: seq<Event>, q: seq<Event>, now: nat, window: nat)
    requires InTimeOrder(gone + q) && (q != [] ==> IsRecent(q[0], now, window))
    requires forall i :: 0 <= i < |gone| ==> !IsRecent(gone[i], now, window)
    ensures Recent(gone + q, now, window) == q && Recent(q, now, window) == q
  {
    forall i | 0 <= i < |q|
      ensures IsRecent(q[i], now, window)
    {
      assert q[0] == (gone + q)[|gone|] && q[i] == (gone + q)[|gone| + i];
    }
    RecentConcat(gone, q, now, window);
    RecentNone(gone, now, window);
    RecentAll(q, now, window);
  }

  lemma SuffixStands(kept: seq<Event>, gone: seq<Event>, q: seq<Event>, h: seq<Event>, now: nat, window: nat)
    requires StandsFor(Some(kept), h, now, window) && kept == gone + q
    requires q != [] ==> IsRecent(q[0], now, window)
    requires forall i :: 0 <= i < |gone| ==> !IsRecent(gone[i], now, window)
    ensures StandsFor(if q == [] then None else Some(q), h, now, window) && q == Recent(h, now, window)
  {
    FrontIsFilter(gone, q, now, window);
    forall i, j | 0 <= i < j < |q|
      ensures q[i].at <= q[j].at
    {
      assert q[i] == kept[|gone| + i] && q[j] == kept[|gone| + j];
    }
    forall i | 0 <= i < |q|
      ensures q[i].at <= now
    {
      assert q[i] == kept[|gone| + i];
    }
  }

  lemma AppendOrdered(q: seq<Event>, e: Event)
    requires InTimeOrder(q) && Before(q, e.at)
    ensures InTimeOrder(q + [e]) && Before(q + [e], e.at)
  {
  }

  lemma CutOrdered(q: seq<Event>, k: nat, now: nat)
    requires InTimeOrder(q) && Before(q, now) && k < |q|
    ensures InTimeOrder(q[..k] + q[k + 1..]) && Before(q[..k] + q[k + 1..], now)
  {
  }

  lemma AppendStands(kept: Option<seq<Event>>, h: seq<Event>, e: Event, window: nat)
    requires StandsFor(kept, h, e.at, window)
    ensures StandsFor(Some(Contents(kept) + [e]), h + [e], e.at, window)
  {
    RecentAppend(Contents(kept), e, e.at, window);
    RecentAppend(h, e, e.at, window);
    AppendOrdered(Contents(kept), e);
    hide InTimeOrder, Before;
  }

  /** The position the loop finds is the first one carrying the token. */
  lemma {:induction false} RemoveFirstAt(q: seq<Event>, token: string, k: nat)
    requires k < |q| && q[k].token == token && forall i :: 0 <= i < k ==> q[i].token != token
    ensures RemoveFirst(q, token) == q[..k] + q[k + 1..]
  {
    if k > 0 {
      RemoveFirstAt(q[1..], token, k - 1);
      assert q[..k] == [q[0]] + q[1..][..k - 1];
    }
  }

  lemma CutStands(h: seq<Event>, q: seq<Event>, k: nat, now: nat, window: nat)
    requires StandsFor(Some(q), h, now, window) && q == Recent(h, now, window) && k < |q|
    ensures var cut := q[..k] + q[k + 1..];
            StandsFor(Some(cut), cut, now, window)
  {
    CutOrdered(q, k, now);
    hide InTimeOrder, Before, Recent;
  }

  method DropOld(kept: seq<Event>, ghost h: seq<Event>, now: nat, window: nat) returns (q: seq<Event>)
    requires StandsFor(Some(kept), h, now, window)
    ensures StandsFor(if q == [] then None else Some(q), h, now, window) && q == Recent(h, now, window)
  {
    hide Recent, StandsFor, InTimeOrder, Before;
    q := kept;
    ghost var gone: seq<Event> := [];
    while q != [] && !IsRecent(q[0], now, window)
      invariant kept == gone + q
      invariant forall i :: 0 <= i < |gone| ==> !IsRecent(gone[i], now, window)
      decreases |q|
    {
      gone := gone + [q[0]];
      q := q[1..];
    }
    SuffixStands(kept, gone, q, h, now, window);
  }

  lemma NoneLeft(kept: Option<seq<Event>>, h: seq<Event>, now: nat, window: nat)
    requires StandsFor(kept, h, now, window)
    ensures kept.None? ==> Recent(h, now, window) == []
  {
  }

  lemma FreshStands(now: nat, window: nat)
    ensures StandsFor(None, [], now, window)
  {
  }

  lemma OneLess<V>(m: map<string, V>, key: string)
    ensures |m - {key}| <= |m|
    ensures key in m ==> |m - {key}| == |m| - 1
  {
    assert (m - {key}).Keys == m.Keys - {key};
    assert |m| == |m.Keys| && |m - {key}| == |(m - {key}).Keys|;
  }

  lemma OneMore<V>(m: map<string, V>, key: string, v: V)
    ensures |m[key := v]| == |m| + (if key in m then 0 else 1)
  {
    assert m[key := v].Keys == m.Keys + {key};
    assert |m| == |m.Keys| && |m[key := v]| == |m[key := v].Keys|;
  }

  class SlidingWindowThrottle {
    const limit: Limit
    var failures: map<string, seq<Event>>
    ghost var history: map<string, seq<Event>>

    /** Everything counted against the key so far, resets and releases taken back. */
    ghost function History(key: string): seq<Event>
      reads this
    {
      if key in history then history[key] else []
    }

    ghost function Kept(key: string): Option<seq<Event>>
      reads this
    {
      if key in failures then Some(failures[key]) else None
    }

    ghost predicate Valid(now: nat)
      reads this
    {
      && |failures| <= MAX_TRACKED_KEYS
      && forall key :: StandsFor(Kept(key), History(key), now, limit.window)
    }

    constructor (limit: Limit)
      ensures this.limit == limit && history == map[]
      ensures forall now :: Valid(now)
    {
      this.limit := limit;
      failures, history := map[], map[];
    }

    lemma Later(now: nat, later: nat)
      requires Valid(now) && now <= later
      ensures Valid(later)
    {
      forall key ensures StandsFor(Kept(key), History(key), later, limit.window) {
        StandsLater(Kept(key), History(key), now, later, limit.window);
      }
    }

    /** Purge the key's front, and forget the key once nothing of it is left. */
    method Live(key: string, now: nat) returns (live: Option<seq<Event>>)
      requires Valid(now)
      modifies this`failures
      ensures Valid(now) && failures.Keys <= old(failures.Keys)
      ensures live == Kept(key) && Contents(live) == Recent(History(key), now, limit.window)
      ensures live.Some? ==> live.value != []
      ensures forall other :: other != key ==> Kept(other) == old(Kept(other))
      ensures Busy(now) == old(Busy(now))
    {
      NoneLeft(Kept(key), History(key), now, limit.window);
      hide StandsFor, Recent;
      if key !in failures {
        return None;
      }
      var q := DropOld(failures[key], History(key), now, limit.window);
      OneLess(failures, key);
      OneMore(failures, key, q);
      failures := if q == [] then failures - {key} else failures[key := q];
      assert forall other :: other != key ==> Kept(other) == old(Kept(other));
      live := if q == [] then None else Some(q);
      assert Busy(now) == old(Busy(now)) by {
        forall k ensures k in Busy(now) <==> k in old(Busy(now)) {
          assert k != key ==> Kept(k) == old(Kept(k));
        }
      }
    }

    /** The lazily purged deque decides exactly as a filter over the full history would. */
    method Check(key: string, now: nat) returns (limited: bool)
      requires Valid(now)
      modifies this`failures
      ensures Valid(now) && Busy(now) == old(Busy(now))
      ensures limited <==> Recent(History(key), now, limit.window) != [] && Limited(History(key), now, limit)
    {
      var live := Live(key, now);
      limited := live.Some? && |live.value| >= limit.maxEvents;
    }

    /** The keys that still have an event inside the window. */
    ghost predicate IsBusy(key: string, now: nat)
      reads this
    {
      key in failures && Recent(History(key), now, limit.window) != []
    }

    ghost function Busy(now: nat): set<string>
      reads this
    {
      set key | key in failures && IsBusy(key, now)
    }

    method Sweep(now: nat)
      requires Valid(now)
      modifies this`failures
      ensures Valid(now) && failures.Keys == old(Busy(now))
    {
      hide StandsFor, Recent;
      var rest := failures.Keys;
      while rest != {}
        invariant Valid(now) && rest <= failures.Keys <= old(failures.Keys)
        invariant forall key :: key in rest ==> Kept(key) == old(Kept(key))
        invariant forall key :: key in old(failures) && key !in rest ==> (Kept(key).Some? <==> old(IsBusy(key, now)))
        decreases rest
      {
        var key :| key in rest;
        var live := Live(key, now);
        rest := rest - {key};
        assert Kept(key).Some? <==> old(IsBusy(key, now));
      }
      forall key
        ensures key in failures <==> key in old(Busy(now))
      {
        assert key in failures <==> Kept(key).Some?;
      }
    }

    /** Count one event; a key is left uncounted only while its window is empty and the ceiling is
        full of keys whose windows are not. */
    method Record(key: string, now: nat, token: string) returns (r: Option<string>)
      requires Valid(now)
      modifies this
      ensures Valid(now)
      ensures r.None? <==> Recent(old(History(key)), now, limit.window) == [] && |old(Busy(now))| >= MAX_TRACKED_KEYS
      ensures r.Some? ==> r.value == token && history == old(history)[key := old(History(key)) + [Event(now, token)]]
      ensures r.None? ==> history == old(history)
    {
      hide StandsFor, Recent;
      var live := Live(key, now);
      if live.None? {
        BusyAreKept(Busy(now), failures);
        if |failures| >= MAX_TRACKED_KEYS {
          Sweep(now);
          BusyAreKept(old(Busy(now)), failures);
        }
        if |failures| >= MAX_TRACKED_KEYS {
          return None;
        }
      }
      Append(key, Contents(live), now, token);
      return Some(token);
    }

    lemma BusyAreKept(busy: set<string>, kept: map<string, seq<Event>>)
      requires busy <= kept.Keys
      ensures |busy| <= |kept|
      ensures busy == kept.Keys ==> |busy| == |kept|
    {
      Smaller(busy, kept.Keys);
      assert |kept| == |kept.Keys|;
    }

    method Append(key: string, q: seq<Event>, now: nat, token: string)
      requires Valid(now) && Contents(Kept(key)) == q && (key !in failures ==> |failures| < MAX_TRACKED_KEYS)
      modifies this
      ensures Valid(now) && history == old(history)[key := old(History(key)) + [Event(now, token)]]
    {
      var e := Event(now, token);
      AppendStands(Kept(key), History(key), e, limit.window);
      OneMore(failures, key, q + [e]);
      hide StandsFor, Recent;
      failures := failures[key := q + [e]];
      history := history[key := History(key) + [e]];
      assert forall other :: other != key ==> Kept(other) == old(Kept(other)) && History(other) == old(History(other));
    }

    method Reset(key: string, now: nat)
      requires Valid(now)
      modifies this
      ensures Valid(now) && history == old(history) - {key}
    {
      FreshStands(now, limit.window);
      OneLess(failures, key);
      hide StandsFor;
      failures := failures - {key};
      history := history - {key};
      assert forall other :: other != key ==> Kept(other) == old(Kept(other)) && History(other) == old(History(other));
    }

    /** Take one reservation back; a window drained this way keeps its key until the next purge. */
    method Release(key: string, token: Option<string>, now: nat)
      requires Valid(now)
      modifies this
      ensures Valid(now)
      ensures history ==
                if token.Some? && (exists e :: e in Recent(old(History(key)), now, limit.window) && e.token == token.value)
                then old(history)[key := Released(old(History(key)), token.value, now, limit.window)]
                else old(history)
    {
      var live := Live(key, now);
      assert StandsFor(Kept(key), History(key), now, limit.window);
      hide StandsFor, Recent;
      if live.None? || token.None? {
        return;
      }
      var q := live.value;
      var k := 0;
      while k < |q| && q[k].token != token.value
        invariant 0 <= k <= |q| && forall i :: 0 <= i < k ==> q[i].token != token.value
      {
        k := k + 1;
      }
      if k < |q| {
        RemoveFirstAt(q, token.value, k);
        CutStands(History(key), q, k, now, limit.window);
        Replace(key, q[..k] + q[k + 1..], now);
        assert q[k] in q;
      }
    }

    method Replace(key: string, q: seq<Event>, now: nat)
      requires Valid(now) && key in failures && StandsFor(Some(q), q, now, limit.window)
      modifies this
      ensures Valid(now) && history == old(history)[key := q]
    {
      hide StandsFor;
      OneMore(failures, key, q);
      failures := failures[key := q];
      history := history[key := q];
      assert forall other :: other != key ==> Kept(other) == old(Kept(other)) && History(other) == old(History(other));
    }

    /** Check and count without a gap between the two. */
    method Consume(key: string, now: nat, token: string) returns (admitted: bool, r: Option<string>)
      requires Valid(now)
      modifies this
      ensures Valid(now)
      ensures admitted <==> Recent(old(History(key)), now, limit.window) == [] || !Limited(old(History(key)), now, limit)
      ensures if admitted && r.Some? then history == old(history)[key := old(History(key)) + [Event(now, token)]]
              else history == old(history)
      ensures r.None? <==>
                !admitted || (Recent(old(History(key)), now, limit.window) == [] && |old(Busy(now))| >= MAX_TRACKED_KEYS)
    {
      var limited := Check(key, now);
      if limited {
        return false, None;
      }
      admitted := true;
      r := Record(key, now, token);
    }
  }

  // -- what an admission quota guarantees ------------------------------------------------------

  /** One admission against the full history. */
  function Admit(h: seq<Event>, e: Event, limit: Limit): seq<Event> {
    if Limited(h, e.at, limit) then h else h + [e]
  }

  /** Any maxEvents + 1 consecutive admissions span at least one whole window. */
  predicate Spread(h: seq<Event>, limit: Limit) {
    forall i, j :: 0 <= i && i + limit.maxEvents <= j < |h| ==> h[i].at + limit.window <= h[j].at
  }

  /** In time order, once one event still counts so do all that follow it. */
  lemma RecentTail(h: seq<Event>, i: nat, now: nat, window: nat)
    requires InTimeOrder(h) && i < |h| && IsRecent(h[i], now, window)
    ensures |Recent(h, now, window)| >= |h| - i
  {
    hide Recent;
    var tail := h[i..];
    forall j | 0 <= j < |tail|
      ensures IsRecent(tail[j], now, window)
    {
      assert tail[j] == h[i + j];
    }
    RecentConcat(h[..i], tail, now, window);
    assert h == h[..i] + tail;
    RecentAll(tail, now, window);
  }

  lemma {:induction false} RecentIsNoLonger(h: seq<Event>, now: nat, window: nat)
    ensures |Recent(h, now, window)| <= |h|
  {
    if h != [] {
      RecentIsNoLonger(h[..|h| - 1], now, window);
    }
  }

  /** A key is at its limit exactly when the last event but maxEvents - 1 is still inside the window: nothing is refused
      before the allowance is spent, nor after the window of the oldest of them has passed. */
  lemma LimitedIff(h: seq<Event>, now: nat, limit: Limit)
    requires InTimeOrder(h) && limit.maxEvents > 0
    ensures Limited(h, now, limit) <==>
              |h| >= limit.maxEvents && now < h[|h| - limit.maxEvents].at + limit.window
  {
    RecentIsNoLonger(h, now, limit.window);
    if |h| >= limit.maxEvents {
      var i := |h| - limit.maxEvents;
      if IsRecent(h[i], now, limit.window) {
        RecentTail(h, i, now, limit.window);
      } else {
        RecentConcat(h[..i + 1], h[i + 1..], now, limit.window);
        assert h == h[..i + 1] + h[i + 1..];
        RecentNone(h[..i + 1], now, limit.window);
        RecentIsNoLonger(h[i + 1..], now, limit.window);
      }
    }
    hide Recent;
  }

  lemma AdmitKeepsSpread(h: seq<Event>, e: Event, limit: Limit)
    requires InTimeOrder(h) && Before(h, e.at) && Spread(h, limit)
    ensures var g := Admit(h, e, limit);
            InTimeOrder(g) && Before(g, e.at) && Spread(g, limit)
  {
    var g := Admit(h, e, limit);
    if g != h && |h| >= limit.maxEvents {
      var i := |h| - limit.maxEvents;
      if IsRecent(h[i], e.at, limit.window) {
        RecentTail(h, i, e.at, limit.window);
      }
      hide Recent;
      assert forall j :: 0 <= j <= i ==> h[j].at <= h[i].at;
    }
  }

  // -- the same window as one Lua script -----------------------------------------------------------

  function Fresh(z: map<string, nat>, now: nat, window: nat): map<string, nat> {
    map t | t in z && IsRecent(Event(z[t], t), now, window) :: z[t]
  }

  /** The sorted set that holds exactly these events. */
  function Scores(h: seq<Event>): map<string, nat> {
    if h == [] then map[] else Scores(h[..|h| - 1])[h[|h| - 1].token := h[|h| - 1].at]
  }

  predicate UniqueTokens(h: seq<Event>) {
    h != [] ==> UniqueTokens(h[..|h| - 1]) && h[|h| - 1].token !in Scores(h[..|h| - 1])
  }

  lemma ScoresAppend(h: seq<Event>, e: Event)
    ensures Scores(h + [e]) == Scores(h)[e.token := e.at]
    ensures UniqueTokens(h + [e]) <==> UniqueTokens(h) && e.token !in Scores(h)
  {
    assert (h + [e])[..|h|] == h;
  }

  /** Removing stale members from the set is filtering the events, and members count events. */
  lemma {:induction false} FreshScores(h: seq<Event>, now: nat, window: nat)
    requires UniqueTokens(h)
    ensures Fresh(Scores(h), now, window) == Scores(Recent(h, now, window))
    ensures UniqueTokens(Recent(h, now, window))
    ensures |Scores(Recent(h, now, window))| == |Recent(h, now, window)|
  {
    if h == [] {
      assert Fresh(map[], now, window) == map[];
    } else {
      var n := |h| - 1;
      var r := Recent(h[..n], now, window);
      FreshScores(h[..n], now, window);
      if IsRecent(h[n], now, window) {
        ScoresAppend(r, h[n]);
        OneMore(Scores(r), h[n].token, h[n].at);
      } else {
        assert r + [] == r;
      }
    }
  }

  /** The members kept, stale ones aside, are the events that still count. */
  predicate SetStandsFor(z: map<string, nat>, h: seq<Event>, now: nat, window: nat) {
    UniqueTokens(h) && Fresh(z, now, window) == Scores(Recent(h, now, window))
  }

  lemma SetStandsLater(z: map<string, nat>, h: seq<Event>, now: nat, later: nat, window: nat)
    requires SetStandsFor(z, h, now, window) && now <= later
    ensures SetStandsFor(z, h, later, window)
  {
    FreshScores(h, now, window);
    RecentTwice(h, now, later, window);
    FreshScores(Recent(h, now, window), later, window);
    assert Fresh(z, later, window) == Fresh(Fresh(z, now, window), later, window);
  }

  lemma SetPurged(z: map<string, nat>, h: seq<Event>, now: nat, limit: Limit)
    requires SetStandsFor(z, h, now, limit.window)
    ensures SetStandsFor(Fresh(z, now, limit.window), h, now, limit.window)
    ensures |Fresh(z, now, limit.window)| >= limit.maxEvents <==> Limited(h, now, limit)
  {
    FreshScores(h, now, limit.window);
    assert Fresh(Fresh(z, now, limit.window), now, limit.window) == Fresh(z, now, limit.window);
  }

  lemma FreshAdded(z: map<string, nat>, e: Event, window: nat)
    ensures Fresh(z[e.token := e.at], e.at, window) ==
              if IsRecent(e, e.at, window) then Fresh(z, e.at, window)[e.token := e.at] else Fresh(z, e.at, window) - {e.token}
  {
  }

  lemma SetAppended(z: map<string, nat>, h: seq<Event>, e: Event, window: nat)
    requires SetStandsFor(z, h, e.at, window) && e.token !in Scores(h)
    ensures SetStandsFor(z[e.token := e.at], h + [e], e.at, window)
  {
    var r := Recent(h, e.at, window);
    ScoresAppend(h, e);
    RecentAppend(h, e, e.at, window);
    FreshAdded(z, e, window);
    NotCounted(h, e, window);
    hide *;
    if IsRecent(e, e.at, window) {
      ScoresAppend(r, e);
    } else {
      assert r + [] == r;
    }
  }

  lemma NotCounted(h: seq<Event>, e: Event, window: nat)
    requires UniqueTokens(h) && e.token !in Scores(h)
    ensures Scores(Recent(h, e.at, window)) - {e.token} == Scores(Recent(h, e.at, window))
  {
    FreshScores(h, e.at, window);
    assert e.token !in Fresh(Scores(h), e.at, window);
  }

  lemma SetExpired(z: map<string, nat>, h: seq<Event>, now: nat, window: nat)
    requires SetStandsFor(z, h, now, window) && forall t :: t in z ==> !IsRecent(Event(z[t], t), now, window)
    ensures SetStandsFor(map[], h, now, window)
  {
    assert Fresh(z, now, window) == map[] == Fresh(map[], now, window);
  }

  /** The key's own expiry lies beyond the window of every member. */
  predicate Outlives(expiry: nat, z: map<string, nat>, now: nat, window: nat) {
    forall t :: t in z ==> z[t] <= now && z[t] + window < expiry
  }

  lemma OutlivesPurged(expiry: nat, z: map<string, nat>, now: nat, window: nat, token: string, grace: nat)
    requires Outlives(expiry, z, now, window) && grace > 0
    ensures var left := Fresh(z, now, window);
            Outlives(expiry, left, now, window) && Outlives(now + window + grace, left[token := now], now, window)
  {
  }

  class RedisSlidingWindowThrottle {
    const limit: Limit
    var sets: map<string, map<string, nat>>
    var expiry: map<string, nat>
    ghost var history: map<string, seq<Event>>

    ghost function History(key: string): seq<Event>
      reads this
    {
      if key in history then history[key] else []
    }

    function Members(key: string): map<string, nat>
      reads this
    {
      if key in sets then sets[key] else map[]
    }

    ghost predicate Valid(now: nat)
      reads this
    {
      && (forall key :: SetStandsFor(Members(key), History(key), now, limit.window))
      && (forall key :: key in sets ==> key in expiry && Outlives(expiry[key], sets[key], now, limit.window))
    }

    constructor (limit: Limit)
      ensures this.limit == limit && history == map[]
      ensures forall now :: Valid(now)
    {
      this.limit := limit;
      sets, expiry, history := map[], map[], map[];
      forall now: nat
        ensures SetStandsFor(map[], [], now, limit.window)
      {
        assert Fresh(map[], now, limit.window) == map[];
      }
    }

    lemma Later(now: nat, later: nat)
      requires Valid(now) && now <= later
      ensures Valid(later)
    {
      forall key ensures SetStandsFor(Members(key), History(key), later, limit.window) {
        SetStandsLater(Members(key), History(key), now, later, limit.window);
      }
    }

    /** The native EXPIRE fires: every member it takes is already outside the window. */
    method ExpireKey(key: string, now: nat)
      requires Valid(now)
      modifies this`sets
      ensures Valid(now)
      ensures sets == if key in old(sets) && expiry[key] <= now then old(sets) - {key} else old(sets)
    {
      if key in sets && key in expiry && expiry[key] <= now {
        SetExpired(Members(key), History(key), now, limit.window);
        hide SetStandsFor;
        sets := sets - {key};
        assert forall other :: other != key ==> Members(other) == old(Members(other));
      }
    }

    /** _CONSUME_LUA: purge, count, admit or refuse, all at once. */
    method Consume(key: string, now: nat, token: string) returns (accepted: bool)
      requires Valid(now) && token !in Scores(History(key))
      modifies this
      ensures Valid(now)
      ensures accepted <==> !Limited(old(History(key)), now, limit)
      ensures history == old(history)[key := Admit(old(History(key)), Event(now, token), limit)]
    {
      ghost var h := History(key);
      var z := Fresh(Members(key), now, limit.window);
      SetPurged(Members(key), h, now, limit);
      SetAppended(z, h, Event(now, token), limit.window);
      OutlivesPurged(if key in sets then expiry[key] else 0, Members(key), now, limit.window, token, 1_000_000);
      hide SetStandsFor, Limited, Scores, Outlives, Fresh, UniqueTokens;
      accepted := |z| < limit.maxEvents;
      if accepted {
        Write(key, z[token := now], now + limit.window + 1_000_000, now, h + [Event(now, token)]);
      } else {
        Write(key, z, if key in sets then expiry[key] else 0, now, h);
      }
    }

    /** ZREMRANGEBYSCORE, ZADD and EXPIRE as one write; an emptied set is no key at all. */
    method Write(key: string, z: map<string, nat>, ttl: nat, now: nat, ghost h: seq<Event>)
      requires Valid(now) && SetStandsFor(z, h, now, limit.window) && Outlives(ttl, z, now, limit.window)
      modifies this
      ensures Valid(now) && history == old(history)[key := h]
    {
      hide SetStandsFor, Outlives;
      sets := if z == map[] then sets - {key} else sets[key := z];
      expiry := expiry[key := ttl];
      history := history[key := h];
      assert forall other :: other != key ==> Members(other) == old(Members(other)) && History(other) == old(History(other));
    }
  }
}
