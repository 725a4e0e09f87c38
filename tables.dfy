/** A database table whose rows each belong to one user, as the Campaign and
    GptResponse tables are: insertion, update and delete filtered by id and
    optionally by owner, and the owner's rows newest first. */
module Tables {

  import opened Errors
  import opened Entities

  /** Every row sits under its own id, and its creation stamp is that id: the
      table draws both from one clock. */
  ghost predicate Stamped<D>(rows: map<Id, Row<D>>)
  {
    forall k :: k in rows ==> rows[k].id == k && rows[k].createdAt == k
  }

  /** The `where` clause of an update or a delete: the row with this id and,
      when `scope` names a user, owned by that user. */
  predicate Matches<D>(rows: map<Id, Row<D>>, id: Id, scope: Option<UserId>)
  {
    id in rows && (scope.None? || rows[id].userId == scope.value)
  }

  /** `s` holds exactly the rows of `rows` that `owner` owns, each once. */
  ghost predicate ExactlyOwned<D>(s: seq<Row<D>>, rows: map<Id, Row<D>>, owner: UserId)
  {
    && (forall i :: 0 <= i < |s| ==> s[i].id in rows && rows[s[i].id] == s[i] && s[i].userId == owner)
    && (forall k :: k in rows && rows[k].userId == owner ==> rows[k] in s)
    && (forall i, j :: 0 <= i < j < |s| ==> s[i].id != s[j].id)
  }

  /** `s` holds exactly the rows of `rows` below `hi` that `owner` owns. */
  ghost predicate ExactlyOwnedBelow<D>(s: seq<Row<D>>, rows: map<Id, Row<D>>, owner: UserId, hi: nat)
  {
    && (forall i :: 0 <= i < |s| ==> s[i].id < hi && s[i].id in rows && rows[s[i].id] == s[i] && s[i].userId == owner)
    && (forall k :: k < hi && k in rows && rows[k].userId == owner ==> rows[k] in s)
  }

  /** `s` is ordered by creation stamp, newest first (and so has no repeats). */
  ghost predicate NewestFirst<D>(s: seq<Row<D>>)
  {
    forall i, j :: 0 <= i < j < |s| ==> s[i].createdAt > s[j].createdAt
  }

  /** The rows of `owner` whose id is below `hi`, highest id first. */
  function NewestBelow<D>(rows: map<Id, Row<D>>, owner: UserId, hi: nat): seq<Row<D>>
    decreases hi
  {
    if hi == 0 then []
    else if hi - 1 in rows && rows[hi - 1].userId == owner then
      [rows[hi - 1]] + NewestBelow(rows, owner, hi - 1)
    else
      NewestBelow(rows, owner, hi - 1)
  }

  lemma {:induction false} NewestBelowMembers<D>(rows: map<Id, Row<D>>, owner: UserId, hi: nat)
    requires Stamped(rows)
    ensures ExactlyOwnedBelow(NewestBelow(rows, owner, hi), rows, owner, hi)
  {
    if hi > 0 {
      NewestBelowMembers(rows, owner, hi - 1);
      var t := NewestBelow(rows, owner, hi - 1);
      var s := NewestBelow(rows, owner, hi);
      if hi - 1 in rows && rows[hi - 1].userId == owner {
        assert s == [rows[hi - 1]] + t;
        assert forall i :: 1 <= i < |s| ==> s[i] == t[i - 1];
        assert forall i :: 0 <= i < |s| ==> s[i].id < hi && s[i].id in rows && rows[s[i].id] == s[i] && s[i].userId == owner;
      }
    }
  }

  lemma {:induction false} NewestBelowSorted<D>(rows: map<Id, Row<D>>, owner: UserId, hi: nat)
    requires Stamped(rows)
    ensures NewestFirst(NewestBelow(rows, owner, hi))
  {
    if hi > 0 {
      NewestBelowMembers(rows, owner, hi - 1);
      NewestBelowSorted(rows, owner, hi - 1);
    }
  }

  /** A row stored at or above `hi` does not change the listing below `hi`. */
  lemma {:induction false} NewestBelowInsertAbove<D>(rows: map<Id, Row<D>>, k: Id, row: Row<D>, owner: UserId, hi: nat)
    requires hi <= k
    ensures NewestBelow(rows[k := row], owner, hi) == NewestBelow(rows, owner, hi)
  {
    if hi > 0 {
      NewestBelowInsertAbove(rows, k, row, owner, hi - 1);
    }
  }

  class Table<D> {
    /** The stored rows, by id. */
    var rows: map<Id, Row<D>>
    /** The next id and creation stamp; every stored id is below it. */
    var clock: nat

    ghost predicate Valid()
      reads this
    {
      Stamped(rows) && forall k :: k in rows ==> k < clock
    }

    /** An empty table whose clock has not yet ticked. */
    constructor()
      ensures Valid() && rows == map[] && clock == 0
    {
      rows := map[];
      clock := 0;
    }

    /** `findMany({ where: { user: { id: owner } }, orderBy: { createdAt: 'desc' } })` */
    function ListOwned(owner: UserId): (s: seq<Row<D>>)
      reads this
      requires Valid()
      ensures ExactlyOwned(s, rows, owner)
      ensures NewestFirst(s)
    {
      NewestBelowMembers(rows, owner, clock);
      NewestBelowSorted(rows, owner, clock);
      NewestBelow(rows, owner, clock)
    }

    /** `create({ data })` for a row owned by `owner`: the new row gets a fresh id
        and a creation stamp later than every stored row's. */
    method Insert(owner: UserId, data: D) returns (row: Row<D>)
      requires Valid()
      modifies this
      ensures Valid()
      ensures row.id !in old(rows) && row.userId == owner && row.data == data
      ensures forall k :: k in old(rows) ==> old(rows)[k].createdAt < row.createdAt
      ensures rows == old(rows)[row.id := row]
      ensures ListOwned(owner) == [row] + old(ListOwned(owner))
    {
      row := Row(clock, owner, clock, data);
      NewestBelowInsertAbove(rows, clock, row, owner, clock);
      rows := rows[clock := row];
      clock := clock + 1;
    }

    /** `update({ where, data })`: `apply` is the patch. A where clause that
        matches no row rejects and changes nothing. */
    method UpdateWhere(id: Id, scope: Option<UserId>, apply: D -> D) returns (r: Result<Row<D>>)
      requires Valid()
      modifies this
      ensures Valid() && clock == old(clock)
      ensures Matches(old(rows), id, scope) ==>
                var updated := old(rows)[id].(data := apply(old(rows)[id].data));
                r == Ok(updated) && rows == old(rows)[id := updated]
      ensures !Matches(old(rows), id, scope) ==> r == Err(RecordToUpdateNotFound) && rows == old(rows)
    {
      if Matches(rows, id, scope) {
        var updated := rows[id].(data := apply(rows[id].data));
        rows := rows[id := updated];
        r := Ok(updated);
      } else {
        r := Err(RecordToUpdateNotFound);
      }
    }

    /** `delete({ where })`: returns the deleted row. A where clause that
        matches no row rejects and changes nothing. */
    method DeleteWhere(id: Id, scope: Option<UserId>) returns (r: Result<Row<D>>)
      requires Valid()
      modifies this
      ensures Valid() && clock == old(clock)
      ensures Matches(old(rows), id, scope) ==> r == Ok(old(rows)[id]) && rows == old(rows) - {id}
      ensures !Matches(old(rows), id, scope) ==> r == Err(RecordToDeleteNotFound) && rows == old(rows)
    {
      if Matches(rows, id, scope) {
        r := Ok(rows[id]);
        rows := rows - {id};
      } else {
        r := Err(RecordToDeleteNotFound);
      }
    }
  }
}
