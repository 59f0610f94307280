/** The durable projection of watch state: one row per watch, upserted best-effort and in any order
    (backend/db/repositories/watch_history.py:59-105). */
module WatchHistory {
  import opened Wrappers
  import opened Watches

  datatype Row = Row(owner: Option<string>, status: Status, createdAt: nat, updatedAt: nat, expiresAt: nat,
                     json: Watch, user: Option<string>, revision: int)

  function Either(first: Option<string>, second: Option<string>): Option<string> {
    if first.Some? then first else second
  }

  /** The conflict rule's WHERE clause. */
  predicate Supersedes(incoming: Row, row: Row) {
    && row.status == Active
    && (incoming.revision > row.revision
        || (incoming.revision == -1 && row.revision == -1 && incoming.updatedAt >= row.updatedAt))
  }

  function Upsert(row: Option<Row>, incoming: Row): Row {
    match row
    case None => incoming
    case Some(kept) =>
      if Supersedes(incoming, kept) then
        incoming.(owner := Either(incoming.owner, kept.owner), user := Either(incoming.user, kept.user),
                  createdAt := kept.createdAt)
      else kept
  }

  function ClaimRow(row: Row, owner: string, user: string): Row {
    if row.owner == Some(owner) && row.user.None? then row.(user := Some(user)) else row
  }

  function Stored(rows: map<string, Row>, id: string): Option<Row> {
    if id in rows then Some(rows[id]) else None
  }

  /** A record opens a row, or replaces the state of an active one when it is newer (or, without revisions on both
      sides, no older); an ownerless record then leaves the ownership it finds, and creation time never moves.
      Any other record changes nothing. */
  predicate Recorded(before: Option<Row>, after: Row, watch: Watch, owner: Option<string>, user: Option<string>, revision: int) {
    var newer := before.Some? && before.value.status == Active
                 && (revision > before.value.revision
                     || (revision == -1 == before.value.revision && watch.updatedAt >= before.value.updatedAt));
    if before.Some? && !newer then after == before.value
    else
      && after.json == watch && after.status == watch.status && after.revision == revision
      && after.updatedAt == watch.updatedAt && after.expiresAt == watch.expiresAt
      && after.createdAt == (if before.Some? then before.value.createdAt else watch.createdAt)
      && (owner.Some? ==> after.owner == owner) && (user.Some? ==> after.user == user)
      && (owner.None? ==> after.owner == if before.Some? then before.value.owner else None)
      && (user.None? ==> after.user == if before.Some? then before.value.user else None)
  }

  /** A claim gives the account to a row if and only if the row is this client's and has none, and changes no
      other column. */
  predicate Claimed(before: Row, after: Row, owner: string, user: string) {
    && (before.owner == Some(owner) && before.user.None? ==> after.user == Some(user))
    && (before.owner != Some(owner) || before.user.Some? ==> after.user == before.user)
    && SameState(before, after) && after.owner == before.owner
  }

  class Table {
    var rows: map<string, Row>

    constructor ()
      ensures rows == map[]
    {
      rows := map[];
    }

    method Record(watch: Watch, owner: Option<string>, user: Option<string>, revision: int)
      modifies this
      ensures var row := if watch.id in old(rows) then Some(old(rows)[watch.id]) else None;
              rows == old(rows)[watch.id := Upsert(row, RowOf(watch, owner, user, revision))]
      ensures watch.id in rows && Recorded(Stored(old(rows), watch.id), rows[watch.id], watch, owner, user, revision)
    {
      var incoming := RowOf(watch, owner, user, revision);
      if watch.id !in rows {
        rows := rows[watch.id := incoming];
        return;
      }
      var row := rows[watch.id];
      if row.status == Active
         && (revision > row.revision || (revision == -1 && row.revision == -1 && watch.updatedAt >= row.updatedAt))
      {
        row := row.(owner := if owner.Some? then owner else row.owner, user := if user.Some? then user else row.user,
                    status := watch.status, updatedAt := watch.updatedAt, expiresAt := watch.expiresAt,
                    json := watch, revision := revision);
        rows := rows[watch.id := row];
      }
    }

    /** UPDATE ... WHERE owner_client_id = $1 AND user_id IS NULL, row by row. */
    method ClaimAnonymous(owner: string, user: string)
      modifies this
      ensures rows.Keys == old(rows.Keys)
      ensures forall id :: id in rows ==> rows[id] == ClaimRow(old(rows)[id], owner, user)
      ensures forall id :: id in rows ==> Claimed(old(rows)[id], rows[id], owner, user)
    {
      var rest := rows.Keys;
      while rest != {}
        invariant rest <= rows.Keys == old(rows.Keys)
        invariant forall id :: id in rows ==>
                    rows[id] == if id in rest then old(rows)[id] else ClaimRow(old(rows)[id], owner, user)
        decreases rest
      {
        var id :| id in rest;
        rest := rest - {id};
        if rows[id].owner == Some(owner) && rows[id].user.None? {
          rows := rows[id := rows[id].(user := Some(user))];
        }
      }
    }
  }

  function RowOf(watch: Watch, owner: Option<string>, user: Option<string>, revision: int): Row {
    Row(owner, watch.status, watch.createdAt, watch.updatedAt, watch.expiresAt, watch, user, revision)
  }

  // -- convergence --------------------------------------------------------------------------

  function Fold(records: seq<Row>): Option<Row> {
    if records == [] then None
    else Some(Upsert(Fold(records[..|records| - 1]), records[|records| - 1]))
  }

  predicate Newest(records: seq<Row>, m: nat) {
    m < |records| && forall i :: 0 <= i < |records| ==> records[i].revision <= records[m].revision
  }

  /** What one watch's history can hold: coordinated revisions, each naming one state, of which only
      the last may be terminal. Redelivered records are allowed. */
  predicate OneHistory(records: seq<Row>) {
    && (forall i :: 0 <= i < |records| ==> records[i].revision >= 0)
    && (forall i, j :: 0 <= i < |records| && 0 <= j < |records| && records[i].revision == records[j].revision ==>
          SameState(records[i], records[j]))
    && (forall i, j :: 0 <= i < |records| && 0 <= j < |records| && records[i].status != Active ==>
          records[j].revision <= records[i].revision)
  }

  /** Equal but for the ownership columns. */
  predicate SameState(a: Row, b: Row) {
    a.status == b.status && a.createdAt == b.createdAt && a.updatedAt == b.updatedAt && a.expiresAt == b.expiresAt
    && a.json == b.json && a.revision == b.revision
  }

  /** In whatever order they arrive, and however often, the row ends at the largest revision. */
  lemma {:induction false} Converges(records: seq<Row>, m: nat)
    requires OneHistory(records) && Newest(records, m)
    requires forall i :: 0 <= i < |records| ==> records[i].createdAt == records[0].createdAt
    ensures Fold(records).Some? && SameState(Fold(records).value, records[m])
  {
    var n := |records| - 1;
    if n > 0 {
      var before := records[..n];
      assert OneHistory(before);
      var k := NewestOf(before);
      Converges(before, k);
      assert before[k] == records[k];
    }
  }

  lemma {:induction false} NewestOf(records: seq<Row>) returns (m: nat)
    requires records != []
    ensures Newest(records, m)
  {
    var n := |records| - 1;
    m := n;
    if n > 0 {
      var k := NewestOf(records[..n]);
      m := if records[k].revision > records[n].revision then k else n;
      assert records[k] == records[..n][k];
      forall i | 0 <= i < |records|
        ensures records[i].revision <= records[m].revision
      {
        if i < n {
          assert records[i] == records[..n][i];
        }
      }
    }
  }

  /** Two deliveries of one history, in different orders or with repeats, leave the same state. */
  lemma OrderIsIrrelevant(a: seq<Row>, b: seq<Row>)
    requires a != [] && OneHistory(a) && (forall r :: r in a <==> r in b)
    requires forall i :: 0 <= i < |a| ==> a[i].createdAt == a[0].createdAt
    ensures b != [] && SameState(Fold(a).value, Fold(b).value)
  {
    assert a[0] in b;
    forall j | 0 <= j < |b|
      ensures exists i :: 0 <= i < |a| && a[i] == b[j]
    {
      assert b[j] in a;
    }
    var m := NewestOf(a);
    assert a[m] in b;
    var n :| 0 <= n < |b| && b[n] == a[m];
    Converges(a, m);
    Converges(b, n);
  }

  // -- ownership ------------------------------------------------------------------------------

  datatype Write = Poll(row: Row) | Claim(owner: string, user: string)

  function After(row: Row, writes: seq<Write>): Row {
    if writes == [] then row
    else
      var kept := After(row, writes[..|writes| - 1]);
      match writes[|writes| - 1]
      case Poll(incoming) => Upsert(Some(kept), incoming)
      case Claim(owner, user) => ClaimRow(kept, owner, user)
  }

  /** Once an account owns a row, ownerless records and anonymous claims never take it away. */
  lemma {:induction false} AccountKept(row: Row, writes: seq<Write>)
    requires row.user.Some?
    requires forall i :: 0 <= i < |writes| && writes[i].Poll? ==> writes[i].row.user.None?
    ensures After(row, writes).user == row.user
  {
    if writes != [] {
      AccountKept(row, writes[..|writes| - 1]);
    }
  }

  /** An account reaches a row only by a record that names it or by a claim of the row's own client: whatever other
      clients claim, a row nobody has recorded for an account stays without one. */
  lemma {:induction false} ClaimsOfOthers(row: Row, writes: seq<Write>)
    requires row.user.None?
    requires forall i :: 0 <= i < |writes| ==>
               if writes[i].Poll? then writes[i].row.user.None? && (writes[i].row.owner == row.owner || writes[i].row.owner.None?)
               else row.owner != Some(writes[i].owner)
    ensures After(row, writes).user.None? && After(row, writes).owner == row.owner
  {
    if writes != [] {
      ClaimsOfOthers(row, writes[..|writes| - 1]);
    }
  }

  /** And the claim of its own client does reach it, whenever it comes. */
  lemma {:induction false} OwnClaimReaches(row: Row, writes: seq<Write>, client: string, user: string, k: nat)
    requires row.user.None? && row.owner == Some(client) && k < |writes| && writes[k] == Claim(client, user)
    requires forall i :: 0 <= i < |writes| && i != k ==>
               if writes[i].Poll? then writes[i].row.user.None? && (writes[i].row.owner == row.owner || writes[i].row.owner.None?)
               else writes[i].owner != client
    ensures After(row, writes).user == Some(user) && After(row, writes).owner == Some(client)
  {
    var n := |writes| - 1;
    if k < n {
      OwnClaimReaches(row, writes[..n], client, user, k);
    } else {
      ClaimsOfOthers(row, writes[..n]);
    }
  }

  /** The client who created a watch is recorded exactly when the creation record arrives first: any
      later revision that overtakes it loses the owner for good. */
  lemma {:induction false} OwnerKeptIffFirst(records: seq<Row>, p: nat)
    requires OneHistory(records) && p < |records| && records[p].owner.Some?
    requires forall i :: 0 <= i < |records| && i != p ==> records[i].owner.None? && records[i].revision > records[p].revision
    ensures Fold(records).Some? && (Fold(records).value.owner.Some? <==> p == 0)
    ensures p == 0 ==> Fold(records).value.owner == records[p].owner
  {
    var n := |records| - 1;
    var before := records[..n];
    if n > 0 {
      assert OneHistory(before);
      if p < n {
        OwnerKeptIffFirst(before, p);
      } else {
        NeverOwned(before, records[p].revision);
      }
    }
  }

  lemma {:induction false} NeverOwned(records: seq<Row>, floor: int)
    requires records != []
    requires forall i :: 0 <= i < |records| ==> records[i].owner.None? && records[i].revision > floor >= 0
    ensures Fold(records).Some? && Fold(records).value.owner.None? && Fold(records).value.revision > floor
  {
    if |records| > 1 {
      NeverOwned(records[..|records| - 1], floor);
    }
  }
}
