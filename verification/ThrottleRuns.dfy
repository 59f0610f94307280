/** Streams of requests through the two throttles (backend/services/throttle.py:177-224): what each
    guarantees over a whole stream, and exactly when the two decide alike. */
module ThrottleRuns {
  import ClaimText
  import opened Throttle

  /** One caller's request: its key and the event it would count. */
  datatype Request = Request(key: string, event: Event)

  type Histories = map<string, seq<Event>>

  predicate InOrder(rs: seq<Request>) {
    forall i, j :: 0 <= i < j < |rs| ==> rs[i].event.at <= rs[j].event.at
  }

  predicate OwnTokens(rs: seq<Request>) {
    forall i, j :: 0 <= i < j < |rs| ==> rs[i].event.token != rs[j].event.token
  }

  lemma LastAlone(rs: seq<Request>)
    requires InOrder(rs) && rs != []
    ensures var n := |rs| - 1; InOrder(rs[..n]) && (n > 0 ==> rs[..n][n - 1].event.at <= rs[n].event.at)
  {
  }

  function Of(hs: Histories, key: string): seq<Event> {
    if key in hs then hs[key] else []
  }

  function Counting(hs: Histories, r: Request, limit: Limit): seq<Event> {
    Recent(Of(hs, r.key), r.event.at, limit.window)
  }

  /** The keys with an event inside the window. */
  function BusyKeys(hs: Histories, now: nat, window: nat): set<string> {
    set key | key in hs && Recent(hs[key], now, window) != []
  }

  // -- one request ------------------------------------------------------------------------------

  predicate LocalAdmits(hs: Histories, r: Request, limit: Limit) {
    Counting(hs, r, limit) == [] || !Limited(Of(hs, r.key), r.event.at, limit)
  }

  /** Admitted in process but not counted: an idle key while the ceiling is full of busy ones. */
  predicate Uncounted(hs: Histories, r: Request, limit: Limit) {
    Counting(hs, r, limit) == [] && |BusyKeys(hs, r.event.at, limit.window)| >= MAX_TRACKED_KEYS
  }

  function LocalNext(hs: Histories, r: Request, limit: Limit): Histories {
    if LocalAdmits(hs, r, limit) && !Uncounted(hs, r, limit) then hs[r.key := Of(hs, r.key) + [r.event]] else hs
  }

  predicate LuaAdmits(hs: Histories, r: Request, limit: Limit) {
    !Limited(Of(hs, r.key), r.event.at, limit)
  }

  function LuaNext(hs: Histories, r: Request, limit: Limit): Histories {
    hs[r.key := Admit(Of(hs, r.key), r.event, limit)]
  }

  /** On one and the same history the two decide alike unless the limit is zero and the window empty. */
  lemma OneRequestIff(hs: Histories, r: Request, limit: Limit)
    ensures (LocalAdmits(hs, r, limit) <==> LuaAdmits(hs, r, limit)) <==> limit.maxEvents > 0 || Counting(hs, r, limit) != []
    ensures limit.maxEvents > 0 ==> (LocalNext(hs, r, limit) == LuaNext(hs, r, limit) <==> !Uncounted(hs, r, limit))
  {
    var h, g := Of(hs, r.key), Of(LuaNext(hs, r, limit), r.key);
    if limit.maxEvents > 0 && Uncounted(hs, r, limit) {
      assert g == h + [r.event] && |g| != |h|;
    }
    if limit.maxEvents > 0 && !LuaAdmits(hs, r, limit) {
      assert r.key in hs;
      assert hs[r.key := hs[r.key]] == hs;
    }
  }

  // -- whole streams ----------------------------------------------------------------------------

  /** What the in-process throttle has counted after a stream, and whether it admitted each request. */
  function LocalRun(rs: seq<Request>, limit: Limit): (Histories, seq<bool>) {
    if rs == [] then (map[], [])
    else
      var n := |rs| - 1;
      var (hs, answers) := LocalRun(rs[..n], limit);
      (LocalNext(hs, rs[n], limit), answers + [LocalAdmits(hs, rs[n], limit)])
  }

  function LuaRun(rs: seq<Request>, limit: Limit): (Histories, seq<bool>) {
    if rs == [] then (map[], [])
    else
      var n := |rs| - 1;
      var (hs, answers) := LuaRun(rs[..n], limit);
      (LuaNext(hs, rs[n], limit), answers + [LuaAdmits(hs, rs[n], limit)])
  }

  /** No request of the stream was admitted without being counted. */
  predicate AllCounted(rs: seq<Request>, limit: Limit) {
    if rs == [] then true
    else
      var n := |rs| - 1;
      AllCounted(rs[..n], limit) && !Uncounted(LocalRun(rs[..n], limit).0, rs[n], limit)
  }

  /** The events of one key that a stream's answers let through. */
  function Admitted(rs: seq<Request>, answers: seq<bool>, key: string): seq<Event>
    requires |answers| == |rs|
  {
    if rs == [] then []
    else
      var n := |rs| - 1;
      Admitted(rs[..n], answers[..n], key) + (if answers[n] && rs[n].key == key then [rs[n].event] else [])
  }

  lemma {:induction false} OneAnswerEach(rs: seq<Request>, limit: Limit)
    ensures |LocalRun(rs, limit).1| == |rs| == |LuaRun(rs, limit).1|
  {
    if rs != [] {
      OneAnswerEach(rs[..|rs| - 1], limit);
    }
  }

  // -- agreement --------------------------------------------------------------------------------

  /** While everything admitted is counted, the two throttles are one and the same. */
  lemma {:induction false} SameWhileCounted(rs: seq<Request>, limit: Limit)
    requires limit.maxEvents > 0 && AllCounted(rs, limit)
    ensures LocalRun(rs, limit) == LuaRun(rs, limit)
  {
    if rs != [] {
      var n := |rs| - 1;
      SameWhileCounted(rs[..n], limit);
      OneRequestIff(LocalRun(rs[..n], limit).0, rs[n], limit);
    }
  }

  predicate SentIn(e: Event, rs: seq<Request>) {
    exists i :: 0 <= i < |rs| && rs[i].event == e
  }

  /** Histories hold nothing but events of the stream. */
  lemma {:induction false} OnlySent(rs: seq<Request>, limit: Limit, key: string, e: Event)
    requires e in Of(LocalRun(rs, limit).0, key) || e in Of(LuaRun(rs, limit).0, key)
    ensures SentIn(e, rs)
  {
    if rs != [] {
      var n := |rs| - 1;
      if e == rs[n].event {
        assert rs[n].event == e;
      } else {
        OnlySent(rs[..n], limit, key, e);
        var i :| 0 <= i < n && rs[..n][i].event == e;
        assert rs[i].event == e;
      }
    }
  }

  lemma NotSentBefore(rs: seq<Request>, limit: Limit, key: string)
    requires rs != [] && OwnTokens(rs)
    ensures rs[|rs| - 1].event !in Of(LocalRun(rs[..|rs| - 1], limit).0, key)
  {
    var n := |rs| - 1;
    if rs[n].event in Of(LocalRun(rs[..n], limit).0, key) {
      OnlySent(rs[..n], limit, key, rs[n].event);
      assert false;
    }
  }

  /** Once a request went uncounted, the shared history has its event for good and the local one never. */
  lemma {:induction false} StaysApart(rs: seq<Request>, limit: Limit) returns (k: nat)
    requires limit.maxEvents > 0 && OwnTokens(rs) && !AllCounted(rs, limit)
    ensures k < |rs|
    ensures rs[k].event in Of(LuaRun(rs, limit).0, rs[k].key)
    ensures rs[k].event !in Of(LocalRun(rs, limit).0, rs[k].key)
  {
    var n := |rs| - 1;
    if AllCounted(rs[..n], limit) {
      SameWhileCounted(rs[..n], limit);
      NotSentBefore(rs, limit, rs[n].key);
      k := n;
    } else {
      k := StaysApart(rs[..n], limit);
      assert rs[..n][k] == rs[k];
    }
  }

  /** The two hold the same histories if and only if no request of the stream went uncounted. */
  lemma SameHistoriesIff(rs: seq<Request>, limit: Limit)
    requires limit.maxEvents > 0 && OwnTokens(rs)
    ensures LocalRun(rs, limit).0 == LuaRun(rs, limit).0 <==> AllCounted(rs, limit)
    ensures AllCounted(rs, limit) ==> LocalRun(rs, limit).1 == LuaRun(rs, limit).1
  {
    if AllCounted(rs, limit) {
      SameWhileCounted(rs, limit);
    } else {
      var k := StaysApart(rs, limit);
    }
  }

  /** A limit of zero is a limit of one in process. */
  lemma {:induction false} ZeroMeansOne(rs: seq<Request>, window: nat)
    ensures LocalRun(rs, Limit(0, window)) == LocalRun(rs, Limit(1, window))
  {
    if rs != [] {
      ZeroMeansOne(rs[..|rs| - 1], window);
    }
  }

  /** In Redis it is a closed door. */
  lemma {:induction false} ZeroAdmitsNobody(rs: seq<Request>, window: nat)
    ensures forall key :: Of(LuaRun(rs, Limit(0, window)).0, key) == []
    ensures forall answer :: answer in LuaRun(rs, Limit(0, window)).1 ==> !answer
  {
    if rs != [] {
      var n := |rs| - 1;
      ZeroAdmitsNobody(rs[..n], window);
      var hs := LuaRun(rs[..n], Limit(0, window)).0;
      assert !LuaAdmits(hs, rs[n], Limit(0, window));
      forall key
        ensures Of(LuaRun(rs, Limit(0, window)).0, key) == []
      {
        assert Of(hs, key) == [] && Of(hs, rs[n].key) == [];
        assert LuaRun(rs, Limit(0, window)).0 == LuaNext(hs, rs[n], Limit(0, window));
      }
    }
  }

  /** So at zero they agree on no request at all: the first one of a stream is already answered differently. */
  lemma ZeroDisagrees(rs: seq<Request>, window: nat)
    ensures LocalRun(rs, Limit(0, window)).1 == LuaRun(rs, Limit(0, window)).1 <==> rs == []
  {
    if rs != [] {
      FirstAdmitted(rs, Limit(0, window));
      ZeroAdmitsNobody(rs, window);
      assert LocalRun(rs, Limit(0, window)).1[0] in LocalRun(rs, Limit(0, window)).1;
    }
  }

  lemma {:induction false} FirstAdmitted(rs: seq<Request>, limit: Limit)
    requires rs != []
    ensures var answers := LocalRun(rs, limit).1; |answers| == |rs| && answers[0]
  {
    OneAnswerEach(rs, limit);
    if |rs| > 1 {
      FirstAdmitted(rs[..|rs| - 1], limit);
    } else {
      assert LocalRun(rs[..0], limit) == (map[], []);
    }
  }

  // -- what an uncounted request lets through --------------------------------------------------------

  lemma NothingRun(rs: seq<Request>, limit: Limit)
    ensures LocalRun(rs[..0], limit) == (map[], []) == LuaRun(rs[..0], limit)
  {
  }

  lemma RunAppend(rs: seq<Request>, r: Request, limit: Limit)
    ensures var (hs, answers) := LocalRun(rs, limit);
            LocalRun(rs + [r], limit) == (LocalNext(hs, r, limit), answers + [LocalAdmits(hs, r, limit)])
    ensures var (hs, answers) := LuaRun(rs, limit);
            LuaRun(rs + [r], limit) == (LuaNext(hs, r, limit), answers + [LuaAdmits(hs, r, limit)])
    ensures AllCounted(rs + [r], limit) <==> AllCounted(rs, limit) && !Uncounted(LocalRun(rs, limit).0, r, limit)
  {
    assert (rs + [r])[..|rs|] == rs;
  }

  /** More requests for the same key at the same instant, under tokens of their own. */
  predicate Burst(rs: seq<Request>, r: Request, more: seq<Request>) {
    && (forall i :: 0 <= i < |more| ==> more[i].key == r.key && more[i].event.at == r.event.at)
    && OwnTokens(rs + [r] + more)
  }

  lemma ShorterBurst(rs: seq<Request>, r: Request, more: seq<Request>)
    requires Burst(rs, r, more) && more != []
    ensures var n := |more| - 1;
            && Burst(rs, r, more[..n]) && more[n].key == r.key && more[n].event.at == r.event.at
            && rs + [r] + more == (rs + [r] + more[..n]) + [more[n]]
  {
    var n := |more| - 1;
    var shorter := rs + [r] + more[..n];
    forall i, j | 0 <= i < j < |shorter|
      ensures shorter[i].event.token != shorter[j].event.token
    {
      assert shorter[i] == (rs + [r] + more)[i] && shorter[j] == (rs + [r] + more)[j];
    }
  }

  /** With nothing inside a window of length zero, no key is ever busy. */
  lemma BusyNeedsWindow(rs: seq<Request>, r: Request, limit: Limit)
    requires InOrder(rs + [r]) && Uncounted(LocalRun(rs, limit).0, r, limit)
    ensures limit.window > 0
  {
    var hs := LocalRun(rs, limit).0;
    if limit.window == 0 {
      forall key | key in hs
        ensures Recent(hs[key], r.event.at, 0) == []
      {
        forall e: Event | e in hs[key]
          ensures e.at <= r.event.at
        {
          OnlySent(rs, limit, key, e);
          var i :| 0 <= i < |rs| && rs[i].event == e;
          assert (rs + [r])[i] == rs[i] && (rs + [r])[|rs|] == r;
        }
        RecentNone(hs[key], r.event.at, 0);
      }
      assert false;
    }
  }

  /** What was counted, or refused, keeps its window occupied for as long as the instant lasts. */
  lemma {:induction false} BurstOccupied(rs: seq<Request>, r: Request, more: seq<Request>, limit: Limit)
    requires limit.maxEvents > 0 && limit.window > 0 && Burst(rs, r, more) && AllCounted(rs + [r], limit)
    ensures Counting(LocalRun(rs + [r] + more, limit).0, r, limit) != []
    ensures AllCounted(rs + [r] + more, limit)
  {
    var hs := LocalRun(rs, limit).0;
    if more == [] {
      assert rs + [r] + more == rs + [r];
      RunAppend(rs, r, limit);
      RecentAppend(Of(hs, r.key), r.event, r.event.at, limit.window);
    } else {
      var n := |more| - 1;
      ShorterBurst(rs, r, more);
      BurstOccupied(rs, r, more[..n], limit);
      var before := rs + [r] + more[..n];
      RunAppend(before, more[n], limit);
      RecentAppend(Of(LocalRun(before, limit).0, r.key), more[n].event, r.event.at, limit.window);
    }
  }

  /** An uncounted request leaves the door as it was: the same key gets in again, uncounted again. */
  lemma {:induction false} BurstUncounted(rs: seq<Request>, r: Request, more: seq<Request>, limit: Limit)
    requires limit.window > 0 && Burst(rs, r, more) && Uncounted(LocalRun(rs, limit).0, r, limit)
    ensures LocalRun(rs + [r] + more, limit).0 == LocalRun(rs, limit).0
  {
    if more == [] {
      assert rs + [r] + more == rs + [r];
      RunAppend(rs, r, limit);
    } else {
      var n := |more| - 1;
      ShorterBurst(rs, r, more);
      BurstUncounted(rs, r, more[..n], limit);
      RunAppend(rs + [r] + more[..n], more[n], limit);
    }
  }

  /** Redis counts each of them until the limit is spent. */
  lemma {:induction false} BurstSpends(rs: seq<Request>, r: Request, more: seq<Request>, limit: Limit)
    requires |more| < limit.maxEvents && limit.window > 0 && Burst(rs, r, more)
    requires Counting(LuaRun(rs, limit).0, r, limit) == []
    ensures |Counting(LuaRun(rs + [r] + more, limit).0, r, limit)| == 1 + |more|
  {
    var before := if more == [] then rs else rs + [r] + more[..|more| - 1];
    var last := if more == [] then r else more[|more| - 1];
    if more == [] {
      assert rs + [r] + more == rs + [r];
    } else {
      ShorterBurst(rs, r, more);
      BurstSpends(rs, r, more[..|more| - 1], limit);
    }
    RunAppend(before, last, limit);
    RecentAppend(Of(LuaRun(before, limit).0, r.key), last.event, r.event.at, limit.window);
  }

  lemma {:induction false} NoWindowNoCrowd(rs: seq<Request>, limit: Limit)
    requires limit.window == 0 && InOrder(rs)
    ensures AllCounted(rs, limit)
  {
    if rs != [] {
      var n := |rs| - 1;
      LastAlone(rs);
      assert rs == rs[..n] + [rs[n]];
      RunAppend(rs[..n], rs[n], limit);
      hide *;
      NoWindowNoCrowd(rs[..n], limit);
      if Uncounted(LocalRun(rs[..n], limit).0, rs[n], limit) {
        BusyNeedsWindow(rs[..n], rs[n], limit);
      }
    }
  }

  lemma BurstInOrder(rs: seq<Request>, r: Request, more: seq<Request>)
    requires InOrder(rs + [r]) && Burst(rs, r, more)
    ensures InOrder(rs + [r] + more)
  {
    var all := rs + [r] + more;
    forall i, j | 0 <= i < j < |all|
      ensures all[i].event.at <= all[j].event.at
    {
      assert i <= |rs| ==> all[i] == (rs + [r])[i];
      assert j <= |rs| ==> all[j] == (rs + [r])[j];
      assert (rs + [r])[|rs|] == r;
      assert i > |rs| ==> all[i] == more[i - |rs| - 1];
      assert j > |rs| ==> all[j] == more[j - |rs| - 1];
    }
  }

  predicate AnsweredAlike(rs: seq<Request>, limit: Limit) {
    LocalRun(rs, limit).1 == LuaRun(rs, limit).1
  }

  /** Nothing was left uncounted, so the burst is answered alike. */
  lemma BurstAgrees(rs: seq<Request>, r: Request, more: seq<Request>, limit: Limit)
    requires limit.maxEvents > 0 && InOrder(rs + [r]) && AllCounted(rs + [r], limit) && Burst(rs, r, more)
    ensures AnsweredAlike(rs + [r] + more, limit)
  {
    if limit.window == 0 {
      BurstInOrder(rs, r, more);
      NoWindowNoCrowd(rs + [r] + more, limit);
    } else {
      BurstOccupied(rs, r, more, limit);
    }
    SameWhileCounted(rs + [r] + more, limit);
  }

  lemma BurstAgreesAtOnce(rs: seq<Request>, r: Request, limit: Limit)
    requires limit.maxEvents > 0 && AllCounted(rs + [r], limit)
    ensures AnsweredAlike(rs + [r], limit)
  {
    SameWhileCounted(rs + [r], limit);
  }

  /** One request went uncounted, and a burst of maxEvents more is answered differently. */
  lemma BurstDisagrees(rs: seq<Request>, r: Request, more: seq<Request>, limit: Limit)
    requires limit.maxEvents > 0 && InOrder(rs + [r]) && AllCounted(rs, limit)
    requires Uncounted(LocalRun(rs, limit).0, r, limit) && Burst(rs, r, more) && |more| == limit.maxEvents
    ensures AnsweredAlike(rs + [r], limit) && !AnsweredAlike(rs + [r] + more, limit)
  {
    var n := |more| - 1;
    BusyNeedsWindow(rs, r, limit);
    SameWhileCounted(rs, limit);
    RunAppend(rs, r, limit);
    ShorterBurst(rs, r, more);
    BurstUncounted(rs, r, more[..n], limit);
    BurstSpends(rs, r, more[..n], limit);
    var before := rs + [r] + more[..n];
    RunAppend(before, more[n], limit);
    OneAnswerEach(before, limit);
    var all := rs + [r] + more;
    assert Counting(LocalRun(before, limit).0, more[n], limit) == [];
    assert LocalRun(all, limit).1[|before|] && !LuaRun(all, limit).1[|before|];
  }

  // -- tokens nobody has used ------------------------------------------------------------------------

  function Stars(n: nat): (s: string)
    ensures |s| == n
  {
    if n == 0 then "" else Stars(n - 1) + "*"
  }

  function Longest(rs: seq<Request>): nat {
    if rs == [] then 0
    else
      var rest, size := Longest(rs[..|rs| - 1]), |rs[|rs| - 1].event.token|;
      if size > rest then size else rest
  }

  lemma {:induction false} LongestBounds(rs: seq<Request>, i: nat)
    requires i < |rs|
    ensures |rs[i].event.token| <= Longest(rs)
  {
    if i < |rs| - 1 {
      LongestBounds(rs[..|rs| - 1], i);
    }
  }

  /** There is always a burst of any size. */
  lemma BurstExists(rs: seq<Request>, r: Request, n: nat) returns (more: seq<Request>)
    requires OwnTokens(rs + [r])
    ensures Burst(rs, r, more) && |more| == n
  {
    var longest := Longest(rs + [r]);
    more := seq(n, i requires 0 <= i < n => Request(r.key, Event(r.event.at, Stars(longest + 1 + i))));
    assert forall i :: 0 <= i < n ==> more[i] == Request(r.key, Event(r.event.at, Stars(longest + 1 + i)));
    var all := rs + [r] + more;
    forall i, j | 0 <= i < j < |all|
      ensures all[i].event.token != all[j].event.token
    {
      if j <= |rs| {
        assert all[i] == (rs + [r])[i] && all[j] == (rs + [r])[j];
      } else {
        assert all[j] == more[j - |rs| - 1];
        assert all[j].event.token == Stars(longest + j - |rs|);
        if i <= |rs| {
          LongestBounds(rs + [r], i);
          assert all[i] == (rs + [r])[i];
        } else {
          assert all[i] == more[i - |rs| - 1];
          assert all[i].event.token == Stars(longest + i - |rs|);
        }
      }
    }
  }

  /** The first uncounted request of a stream is answered as Redis answers it, and from then on the two
      agree on whatever the same caller asks next if and only if it was counted after all. */
  lemma BurstTellsIff(rs: seq<Request>, r: Request, limit: Limit)
    requires limit.maxEvents > 0 && InOrder(rs + [r]) && OwnTokens(rs + [r]) && AllCounted(rs, limit)
    ensures AnsweredAlike(rs + [r], limit)
    ensures (forall more :: Burst(rs, r, more) ==> AnsweredAlike(rs + [r] + more, limit))
            <==> !Uncounted(LocalRun(rs, limit).0, r, limit)
  {
    hide *;
    RunAppend(rs, r, limit);
    var more := BurstExists(rs, r, limit.maxEvents);
    if Uncounted(LocalRun(rs, limit).0, r, limit) {
      BurstDisagrees(rs, r, more, limit);
    } else {
      BurstAgreesAtOnce(rs, r, limit);
      forall more | Burst(rs, r, more)
        ensures AnsweredAlike(rs + [r] + more, limit)
      {
        BurstAgrees(rs, r, more, limit);
      }
    }
  }

  /** One request from each of n callers, all at the same instant. */
  function Crowd(n: nat): (rs: seq<Request>)
    ensures |rs| == n
  {
    if n == 0 then [] else Crowd(n - 1) + [Request(ClaimText.Print(n - 1), Event(0, ClaimText.Print(n - 1)))]
  }

  lemma CrowdLast(n: nat)
    requires n > 0
    ensures Crowd(n) == Crowd(n - 1) + [Request(ClaimText.Print(n - 1), Event(0, ClaimText.Print(n - 1)))]
  {
  }

  lemma {:induction false} CrowdMember(n: nat, i: nat)
    requires i < n
    ensures Crowd(n)[i] == Request(ClaimText.Print(i), Event(0, ClaimText.Print(i)))
  {
    if i < n - 1 {
      CrowdMember(n - 1, i);
    }
  }

  lemma CrowdIsProper(n: nat)
    ensures InOrder(Crowd(n)) && OwnTokens(Crowd(n))
  {
    forall i, j | 0 <= i < j < n
      ensures Crowd(n)[i].event.at <= Crowd(n)[j].event.at
      ensures Crowd(n)[i].event.token != Crowd(n)[j].event.token
    {
      CrowdMember(n, i);
      CrowdMember(n, j);
      if ClaimText.Print(i) == ClaimText.Print(j) {
        ClaimText.PrintInjective(i, j);
      }
    }
  }

  predicate IsNumbered(key: string, n: nat) {
    exists i :: 0 <= i < n && ClaimText.Print(i) == key
  }

  predicate Filled(hs: Histories, n: nat, limit: Limit) {
    && |BusyKeys(hs, 0, limit.window)| == n && BusyKeys(hs, 0, limit.window) == hs.Keys
    && forall key :: key in hs ==> IsNumbered(key, n)
  }

  lemma NobodyYet(limit: Limit)
    ensures AllCounted(Crowd(0), limit) && Filled(LocalRun(Crowd(0), limit).0, 0, limit)
  {
    assert BusyKeys(map[], 0, limit.window) == {};
  }

  /** Up to the ceiling each of them is counted under a key of its own. */
  lemma {:induction false} CrowdFills(n: nat, limit: Limit)
    requires limit.maxEvents > 0 && limit.window > 0 && n <= MAX_TRACKED_KEYS
    ensures AllCounted(Crowd(n), limit) && Filled(LocalRun(Crowd(n), limit).0, n, limit)
  {
    hide *;
    if n == 0 {
      NobodyYet(limit);
    } else {
      var before := LocalRun(Crowd(n - 1), limit).0;
      var r := Request(ClaimText.Print(n - 1), Event(0, ClaimText.Print(n - 1)));
      CrowdLast(n);
      CrowdFills(n - 1, limit);
      RunAppend(Crowd(n - 1), r, limit);
      OneMoreFilled(before, n - 1, r, limit);
    }
  }

  lemma OneMoreFilled(hs: Histories, n: nat, r: Request, limit: Limit)
    requires limit.maxEvents > 0 && limit.window > 0 && n < MAX_TRACKED_KEYS && Filled(hs, n, limit)
    requires r.key == ClaimText.Print(n) && r.event.at == 0
    ensures !Uncounted(hs, r, limit) && Filled(LocalNext(hs, r, limit), n + 1, limit)
  {
    var after := hs[r.key := [r.event]];
    NewNumber(hs, n);
    OneMoreBusy(hs, r, limit);
    assert [] + [r.event] == [r.event];
    assert LocalNext(hs, r, limit) == after;
    hide BusyKeys;
    forall key | key in after
      ensures IsNumbered(key, n + 1)
    {
      if key != r.key {
        assert IsNumbered(key, n);
      }
    }
  }

  lemma NewNumber(hs: Histories, n: nat)
    requires forall key :: key in hs ==> IsNumbered(key, n)
    ensures ClaimText.Print(n) !in hs
  {
    if ClaimText.Print(n) in hs {
      var i :| 0 <= i < n && ClaimText.Print(i) == ClaimText.Print(n);
      ClaimText.PrintInjective(i, n);
      assert false;
    }
  }

  lemma OneMoreBusy(hs: Histories, r: Request, limit: Limit)
    requires limit.window > 0 && r.event.at == 0 && r.key !in hs && BusyKeys(hs, 0, limit.window) == hs.Keys
    ensures var after := hs[r.key := [r.event]];
            && BusyKeys(after, 0, limit.window) == after.Keys
            && |BusyKeys(after, 0, limit.window)| == |BusyKeys(hs, 0, limit.window)| + 1
  {
    var after := hs[r.key := [r.event]];
    RecentAll([r.event], 0, limit.window);
    assert after.Keys == hs.Keys + {r.key};
    assert forall key :: key in hs ==> key in BusyKeys(hs, 0, limit.window);
  }

  lemma NotNumbered(key: string, n: nat)
    requires key != "" && !ClaimText.IsDigit(key[0])
    ensures !IsNumbered(key, n)
  {
    forall i: nat
      ensures ClaimText.Print(i) != key
    {
      assert ClaimText.IsDigit(ClaimText.Print(i)[0]);
    }
  }

  /** The ceiling is reached: ten thousand callers and one more, for any positive limit and window. */
  lemma CeilingIsReached(limit: Limit)
    requires limit.maxEvents > 0 && limit.window > 0
    ensures var rs, r := Crowd(MAX_TRACKED_KEYS), Request("one more", Event(0, "one more"));
            && InOrder(rs + [r]) && OwnTokens(rs + [r]) && AllCounted(rs, limit)
            && Uncounted(LocalRun(rs, limit).0, r, limit)
            && exists more :: Burst(rs, r, more) && !AnsweredAlike(rs + [r] + more, limit)
  {
    var n := MAX_TRACKED_KEYS;
    var rs, r := Crowd(n), Request("one more", Event(0, "one more"));
    CrowdIsProper(n);
    CrowdFills(n, limit);
    NoPrintedSpace(rs, r, n);
    var hs := LocalRun(rs, limit).0;
    NotNumbered(r.key, n);
    assert r.key !in hs;
    BurstTellsIff(rs, r, limit);
  }

  lemma NoPrintedSpace(rs: seq<Request>, r: Request, n: nat)
    requires rs == Crowd(n) && r.event == Event(0, "one more")
    ensures InOrder(rs + [r]) && OwnTokens(rs + [r])
  {
    CrowdIsProper(n);
    forall i | 0 <= i < n
      ensures rs[i].event.at == 0 && rs[i].event.token != "one more"
    {
      CrowdMember(n, i);
      assert ClaimText.IsDigit(ClaimText.Print(i)[0]);
    }
  }

  // -- quotas over whole streams -----------------------------------------------------------------------

  /** In process even a limit of zero lets one event through per window. */
  function Effective(limit: Limit): Limit {
    if limit.maxEvents == 0 then limit.(maxEvents := 1) else limit
  }

  /** However requests arrive, Redis counts no more than the limit against a key inside one window. */
  lemma {:induction false} QuotaHolds(rs: seq<Request>, limit: Limit, key: string)
    requires InOrder(rs)
    ensures var h := Of(LuaRun(rs, limit).0, key);
            InTimeOrder(h) && Spread(h, limit) && (rs != [] ==> Before(h, rs[|rs| - 1].event.at))
  {
    if rs != [] {
      var n := |rs| - 1;
      LastAlone(rs);
      hide InTimeOrder, Spread, Before, Recent, InOrder, Limited, Admit;
      QuotaHolds(rs[..n], limit, key);
      BeforeLater(rs, Of(LuaRun(rs[..n], limit).0, key));
      AdmitKeepsSpread(Of(LuaRun(rs[..n], limit).0, key), rs[n].event, limit);
    }
  }

  lemma BeforeLater(rs: seq<Request>, h: seq<Event>)
    requires rs != [] && InOrder(rs)
    requires if |rs| == 1 then h == [] else Before(h, rs[|rs| - 2].event.at)
    ensures Before(h, rs[|rs| - 1].event.at)
  {
  }

  /** Nor does the in-process throttle. */
  lemma {:induction false} LocalQuotaHolds(rs: seq<Request>, limit: Limit, key: string)
    requires InOrder(rs)
    ensures var h := Of(LocalRun(rs, limit).0, key);
            InTimeOrder(h) && Spread(h, Effective(limit)) && (rs != [] ==> Before(h, rs[|rs| - 1].event.at))
  {
    if rs != [] {
      var n := |rs| - 1;
      LastAlone(rs);
      hide InTimeOrder, Spread, Before, Recent, InOrder;
      LocalQuotaHolds(rs[..n], limit, key);
      BeforeLater(rs, Of(LocalRun(rs[..n], limit).0, key));
      AdmitKeepsSpread(Of(LocalRun(rs[..n], limit).0, key), rs[n].event, Effective(limit));
    }
  }

  /** Redis counts exactly what it admits. */
  lemma {:induction false} AdmittedAreCounted(rs: seq<Request>, limit: Limit, key: string)
    ensures |LuaRun(rs, limit).1| == |rs| && Admitted(rs, LuaRun(rs, limit).1, key) == Of(LuaRun(rs, limit).0, key)
  {
    if rs != [] {
      var n := |rs| - 1;
      AdmittedAreCounted(rs[..n], limit, key);
      var answers := LuaRun(rs, limit).1;
      assert answers[..n] == LuaRun(rs[..n], limit).1;
    }
  }

  /** The in-process throttle as well, while nothing goes uncounted. */
  lemma LocalAdmittedAreCounted(rs: seq<Request>, limit: Limit, key: string)
    requires AllCounted(rs, Effective(limit))
    ensures |LocalRun(rs, limit).1| == |rs| && Admitted(rs, LocalRun(rs, limit).1, key) == Of(LocalRun(rs, limit).0, key)
  {
    ZeroMeansOne(rs, limit.window);
    SameWhileCounted(rs, Effective(limit));
    AdmittedAreCounted(rs, Effective(limit), key);
  }

  // -- the two classes run the two streams ---------------------------------------------------------------

  lemma BusyInHistory(t: SlidingWindowThrottle, now: nat)
    requires t.Valid(now)
    ensures t.Busy(now) == BusyKeys(t.history, now, t.limit.window)
  {
    hide Recent;
    forall key
      ensures key in t.Busy(now) <==> key in BusyKeys(t.history, now, t.limit.window)
    {
      assert StandsFor(t.Kept(key), t.History(key), now, t.limit.window);
      assert Recent([], now, t.limit.window) == [] by {
        RecentNone([], now, t.limit.window);
      }
    }
  }

  method ServeLocal(t: SlidingWindowThrottle, r: Request) returns (admitted: bool)
    requires t.Valid(r.event.at)
    modifies t
    ensures t.Valid(r.event.at)
    ensures t.history == LocalNext(old(t.history), r, t.limit) && admitted == LocalAdmits(old(t.history), r, t.limit)
  {
    BusyInHistory(t, r.event.at);
    hide StandsFor, Recent, Limited, BusyKeys;
    var token;
    admitted, token := t.Consume(r.key, r.event.at, r.event.token);
  }

  lemma LocalQuotas(rs: seq<Request>, limit: Limit)
    requires InOrder(rs)
    ensures |LocalRun(rs, limit).1| == |rs|
    ensures forall key :: Spread(Of(LocalRun(rs, limit).0, key), Effective(limit))
    ensures AllCounted(rs, Effective(limit)) ==>
              forall key :: Spread(Admitted(rs, LocalRun(rs, limit).1, key), Effective(limit))
  {
    OneAnswerEach(rs, limit);
    hide *;
    forall key
      ensures Spread(Of(LocalRun(rs, limit).0, key), Effective(limit))
      ensures AllCounted(rs, Effective(limit)) ==> Spread(Admitted(rs, LocalRun(rs, limit).1, key), Effective(limit))
    {
      LocalQuotaHolds(rs, limit, key);
      if AllCounted(rs, Effective(limit)) {
        LocalAdmittedAreCounted(rs, limit, key);
      }
    }
  }

  /** A stream through a new in-process throttle. */
  method RunLocal(rs: seq<Request>, limit: Limit) returns (t: SlidingWindowThrottle, answers: seq<bool>)
    requires InOrder(rs)
    ensures fresh(t) && t.limit == limit && LocalRun(rs, limit) == (t.history, answers)
    ensures |answers| == |rs| && forall key :: Spread(Of(t.history, key), Effective(limit))
    ensures AllCounted(rs, Effective(limit)) ==> forall key :: Spread(Admitted(rs, answers, key), Effective(limit))
  {
    hide *;
    NothingRun(rs, limit);
    t := new SlidingWindowThrottle(limit);
    answers := [];
    for i := 0 to |rs|
      invariant fresh(t) && t.limit == limit
      invariant LocalRun(rs[..i], limit) == (t.history, answers)
      invariant i < |rs| ==> t.Valid(rs[i].event.at)
    {
      RunAppend(rs[..i], rs[i], limit);
      assert rs[..i + 1] == rs[..i] + [rs[i]];
      var admitted := ServeLocal(t, rs[i]);
      answers := answers + [admitted];
      if i + 1 < |rs| {
        Ordered(rs, i);
        t.Later(rs[i].event.at, rs[i + 1].event.at);
      }
    }
    assert rs[..|rs|] == rs;
    LocalQuotas(rs, limit);
  }

  lemma Ordered(rs: seq<Request>, i: nat)
    requires InOrder(rs) && i + 1 < |rs|
    ensures rs[i].event.at <= rs[i + 1].event.at
  {
  }

  lemma {:induction false} ScoresAreEvents(h: seq<Event>, token: string)
    requires token in Scores(h)
    ensures exists e :: e in h && e.token == token
  {
    var n := |h| - 1;
    if token == h[n].token {
      assert h[n] in h;
    } else {
      ScoresAreEvents(h[..n], token);
    }
  }

  lemma NewToken(rs: seq<Request>, i: nat, limit: Limit, key: string)
    requires OwnTokens(rs) && i < |rs|
    ensures rs[i].event.token !in Scores(Of(LuaRun(rs[..i], limit).0, key))
  {
    var h := Of(LuaRun(rs[..i], limit).0, key);
    if rs[i].event.token in Scores(h) {
      ScoresAreEvents(h, rs[i].event.token);
      var e :| e in h && e.token == rs[i].event.token;
      OnlySent(rs[..i], limit, key, e);
      assert false;
    }
  }

  method ServeRedis(t: RedisSlidingWindowThrottle, r: Request, lapsed: string) returns (accepted: bool)
    requires t.Valid(r.event.at) && r.event.token !in Scores(Of(t.history, r.key))
    modifies t
    ensures t.Valid(r.event.at)
    ensures t.history == LuaNext(old(t.history), r, t.limit) && accepted == LuaAdmits(old(t.history), r, t.limit)
  {
    hide SetStandsFor, Scores, Outlives, Limited;
    t.ExpireKey(lapsed, r.event.at);
    accepted := t.Consume(r.key, r.event.at, r.event.token);
  }

  /** A stream through a new throttle in Redis, native expiry of keys firing wherever it may. */
  method RunRedis(rs: seq<Request>, limit: Limit, lapsed: seq<string>) returns (t: RedisSlidingWindowThrottle, answers: seq<bool>)
    requires InOrder(rs) && OwnTokens(rs) && |lapsed| == |rs|
    ensures fresh(t) && t.limit == limit && LuaRun(rs, limit) == (t.history, answers)
    ensures |answers| == |rs| && forall key :: Spread(Admitted(rs, answers, key), limit)
  {
    hide *;
    NothingRun(rs, limit);
    t := new RedisSlidingWindowThrottle(limit);
    answers := [];
    for i := 0 to |rs|
      invariant fresh(t) && t.limit == limit
      invariant LuaRun(rs[..i], limit) == (t.history, answers)
      invariant i < |rs| ==> t.Valid(rs[i].event.at)
    {
      NewToken(rs, i, limit, rs[i].key);
      RunAppend(rs[..i], rs[i], limit);
      assert rs[..i + 1] == rs[..i] + [rs[i]];
      var accepted := ServeRedis(t, rs[i], lapsed[i]);
      answers := answers + [accepted];
      if i + 1 < |rs| {
        Ordered(rs, i);
        t.Later(rs[i].event.at, rs[i + 1].event.at);
      }
    }
    assert rs[..|rs|] == rs;
    OneAnswerEach(rs, limit);
    forall key
      ensures Spread(Admitted(rs, answers, key), limit)
    {
      QuotaHolds(rs, limit, key);
      AdmittedAreCounted(rs, limit, key);
    }
  }
}
