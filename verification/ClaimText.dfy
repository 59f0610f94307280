/** The text Redis keeps under a claim key, "owner|token|expires", and the Lua
    helper that takes it apart again (backend/db/repositories/watch_scripts.py:43-51). */
module ClaimText {
  import opened Wrappers

  predicate IsDigit(c: char) {
    '0' <= c <= '9'
  }

  /** Decimal digits of a number, most significant first. */
  function Print(n: nat): (s: string)
    ensures |s| > 0
    ensures forall i :: 0 <= i < |s| ==> IsDigit(s[i])
  {
    var last := ('0' as int + n % 10) as char;
    if n < 10 then [last] else Print(n / 10) + [last]
  }

  /** Lua's tonumber on a run of digits; None stands for nil. */
  function Parse(s: string): Option<nat> {
    if s == [] || !IsDigit(s[|s| - 1]) then None
    else
      var digit := s[|s| - 1] as int - '0' as int;
      if |s| == 1 then Some(digit)
      else
        match Parse(s[..|s| - 1])
        case None => None
        case Some(n) => Some(10 * n + digit)
  }

  lemma {:induction false} ParsePrint(n: nat)
    ensures Parse(Print(n)) == Some(n)
  {
    if n >= 10 {
      ParsePrint(n / 10);
      var s := Print(n);
      assert s[..|s| - 1] == Print(n / 10);
    }
  }

  lemma PrintInjective(m: nat, n: nat)
    requires Print(m) == Print(n)
    ensures m == n
  {
    ParsePrint(m);
    ParsePrint(n);
  }

  /** Lua's string.find for one plain character: the first position at or after `from`. */
  function Find(s: string, c: char, from: nat): (r: Option<nat>)
    ensures r.Some? ==> from <= r.value < |s| && s[r.value] == c
    ensures forall i :: from <= i < (if r.Some? then r.value else |s|) ==> s[i] != c
    decreases |s| - from
  {
    if from >= |s| then None
    else if s[from] == c then Some(from)
    else Find(s, c, from + 1)
  }

  datatype Parsed = Parsed(owner: string, token: string, expires: Option<nat>)

  function PrintClaim(owner: string, token: nat, expires: nat): string {
    owner + "|" + Print(token) + "|" + Print(expires)
  }

  /** parse_claim: cut at the first two bars. None is the script error of a missing bar. */
  function ParseClaim(v: string): Option<Parsed> {
    match Find(v, '|', 0)
    case None => None
    case Some(p1) =>
      match Find(v, '|', p1 + 1)
      case None => None
      case Some(p2) => Some(Parsed(v[..p1], v[p1 + 1..p2], Parse(v[p2 + 1..])))
  }

  /** Searching past `head`, the first bar ends `word` iff the word holds none. */
  lemma FirstBar(head: string, word: string, tail: string)
    ensures var p := Find(head + word + ['|'] + tail, '|', |head|);
            if '|' in word then p.Some? && p.value < |head| + |word| else p == Some(|head| + |word|)
  {
    var v := head + word + ['|'] + tail;
    assert v[|head| + |word|] == '|';
    assert forall i :: 0 <= i < |word| ==> v[|head| + i] == word[i];
    var p := Find(v, '|', |head|);
    assert forall i :: |head| <= i < |head| + |word| ==> v[i] == word[i - |head|];
  }

  lemma CutClean(owner: string, t: string, e: string)
    requires '|' !in owner && '|' !in t
    ensures ParseClaim(owner + "|" + t + "|" + e) == Some(Parsed(owner, t, Parse(e)))
  {
    Slices(owner, t, e);
    Reassociate(owner, t, e);
    FirstBar([], owner, t + "|" + e);
    FirstBar(owner + "|", t, e);
  }

  lemma Reassociate(owner: string, t: string, e: string)
    ensures owner + "|" + t + "|" + e == [] + owner + ['|'] + (t + "|" + e)
  {
  }

  lemma Slices(owner: string, t: string, e: string)
    ensures var v := owner + "|" + t + "|" + e;
            var p2 := |owner| + 1 + |t|;
            v[..|owner|] == owner && v[|owner| + 1..p2] == t && v[p2 + 1..] == e
  {
  }

  lemma CutShort(owner: string, rest: string)
    requires '|' in owner
    ensures var p := ParseClaim(owner + "|" + rest); p.Some? ==> |p.value.owner| < |owner|
  {
    FirstBar([], owner, rest);
    assert owner + "|" + rest == [] + owner + ['|'] + rest;
  }

  /** A claim value survives the round trip exactly when its owner has no bar. */
  lemma ClaimRoundTrip(owner: string, token: nat, expires: nat)
    ensures ParseClaim(PrintClaim(owner, token, expires)) == Some(Parsed(owner, Print(token), Some(expires)))
            <==> '|' !in owner
  {
    var t, e := Print(token), Print(expires);
    ParsePrint(expires);
    if '|' in owner {
      CutShort(owner, t + "|" + e);
      assert PrintClaim(owner, token, expires) == owner + "|" + (t + "|" + e);
    } else {
      CutClean(owner, t, e);
    }
  }
}
