/** A running counter, and the set of records it has counted. */
module Tallies {
  /** One more record on a counter, if it earned it. */
  method Count(n: nat, ghost counted: set<string>, id: string, earned: bool) returns (m: nat, ghost now: set<string>)
    requires n == |counted| && id !in counted
    ensures m == |now| && now == if earned then counted + {id} else counted
  {
    m, now := n, counted;
    if earned {
      m, now := n + 1, counted + {id};
    }
  }
}
