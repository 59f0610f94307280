/** Reading the lowest entries of a scored collection, as Redis sorted sets and the in-memory
    stores' sorted scans do. Which of several equal entries comes first is left open. */
module SortedSets {
  lemma {:induction false} Smaller<T>(a: set<T>, b: set<T>)
    requires a <= b
    ensures |a| <= |b|
  {
    if a != {} {
      var x :| x in a;
      Smaller(a - {x}, b - {x});
    }
  }

  predicate FillsBatch(taken: set<string>, due: set<string>, batch: nat) {
    taken <= due && |taken| == if |due| < batch then |due| else batch
  }

  predicate IsLowest(z: map<string, nat>, members: set<string>, m: string) {
    m in members && m in z && forall s :: s in members && s in z ==> z[m] <= z[s]
  }

  /** ZRANGE z 0 0 over the given members; ties go to any of the lowest. */
  method Lowest(z: map<string, nat>, members: set<string>) returns (m: string)
    requires members != {} && members <= z.Keys
    ensures IsLowest(z, members, m)
  {
    m :| m in members;
    var rest := members - {m};
    while rest != {}
      invariant m in members && rest <= members
      invariant forall s :: s in members && s !in rest ==> z[m] <= z[s]
      decreases rest
    {
      var s :| s in rest;
      rest := rest - {s};
      if z[s] < z[m] {
        m := s;
      }
    }
  }

  /** Nothing scored lower than a member was passed over. */
  predicate LowestFirst(z: map<string, nat>, members: set<string>, max: int) {
    forall m, s :: m in members && m in z && s in z && s !in members && z[s] <= max ==> z[m] <= z[s]
  }

  /** ZRANGEBYSCORE z -inf max LIMIT 0 n: the lowest-scored members, at most n of them. */
  method RangeByScore(z: map<string, nat>, max: int, n: nat) returns (members: set<string>)
    ensures FillsBatch(members, (set s | s in z && z[s] <= max), n)
    ensures LowestFirst(z, members, max)
  {
    var due := set s | s in z && z[s] <= max;
    var rest := due;
    members := {};
    while |members| < n && rest != {}
      invariant members + rest == due && members !! rest && |members| <= n
      invariant forall m, s :: m in members && s in rest ==> z[m] <= z[s]
      decreases rest
    {
      var m := Lowest(z, rest);
      rest, members := rest - {m}, members + {m};
    }
    assert due == members + rest;
  }
}
