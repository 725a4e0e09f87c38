/** The User table: credits and subscription status, which gate generation,
    the profile columns the user operations patch, and paging. */
module Users {

  import opened Errors
  import opened Entities

  /** A stored user. `credits` has no floor: nothing in the code keeps it
      from going below zero. */
  datatype User = User(
    id: UserId,
    email: Option<string>,
    name: Option<string>,
    credits: int,
    subscriptionStatus: Option<string>)

  /** The arguments of updateCurrentUser and updateUserById besides the id. */
  datatype ProfilePatch = ProfilePatch(name: Option<string>, email: Option<string>)

  /** An absent patch field leaves the column as it is. */
  function Patched(u: User, patch: ProfilePatch): User
  {
    u.(name := if patch.name.Some? then patch.name else u.name,
       email := if patch.email.Some? then patch.email else u.email)
  }

  function Min(a: int, b: int): int { if a <= b then a else b }

  function Max(a: int, b: int): int { if a >= b then a else b }

  /** `skip` then `take`: the elements of `s` from position `skip` on, at most `first` of them. */
  function Window<T>(s: seq<T>, first: nat, skip: nat): (w: seq<T>)
    ensures |w| == Min(first, Max(0, |s| - skip))
    ensures forall i :: 0 <= i < |w| ==> w[i] == s[skip + i]
  {
    var rest := if skip <= |s| then s[skip..] else [];
    if first <= |rest| then rest[..first] else rest
  }

  /** Reading two consecutive pages is reading one page as long as both. */
  lemma WindowsConcatenate<T>(s: seq<T>, first1: nat, first2: nat, skip: nat)
    ensures Window(s, first1, skip) + Window(s, first2, skip + first1) == Window(s, first1 + first2, skip)
  {
  }

  /** Every user sits under its own id and appears in `order` exactly once,
      and `order` names only stored users. */
  ghost predicate WellFormed(rows: map<UserId, User>, order: seq<UserId>)
  {
    && (forall k :: k in rows ==> rows[k].id == k && k in order)
    && (forall i :: 0 <= i < |order| ==> order[i] in rows)
    && (forall i, j :: 0 <= i < j < |order| ==> order[i] != order[j])
  }

  class UserTable {
    /** The stored users, by id. */
    var rows: map<UserId, User>
    /** The order in which the database returns users when no order is asked for. */
    var order: seq<UserId>

    ghost predicate Valid()
      reads this
    {
      WellFormed(rows, order)
    }

    /** A table holding `rows0`, read back in the order `order0`; an empty
        table is `UserTable(map[], [])`. */
    constructor(rows0: map<UserId, User>, order0: seq<UserId>)
      requires WellFormed(rows0, order0)
      ensures Valid() && rows == rows0 && order == order0
    {
      rows := rows0;
      order := order0;
    }

    /** `findMany({ take: first, skip })` */
    function Page(first: nat, skip: nat): (page: seq<User>)
      reads this
      requires Valid()
      ensures |page| == Min(first, Max(0, |order| - skip))
      ensures forall i :: 0 <= i < |page| ==> page[i] == rows[order[skip + i]]
    {
      var ids := Window(order, first, skip);
      var stored := rows;
      seq(|ids|, i requires 0 <= i < |ids| => stored[ids[i]])
    }

    /** `update({ where: { id }, data: { credits: { increment: amount } } })`; a
        decrement is an increment by a negative amount. */
    method IncrementCredits(id: UserId, amount: int)
      requires Valid() && id in rows
      modifies this
      ensures Valid() && order == old(order)
      ensures rows == old(rows)[id := old(rows)[id].(credits := old(rows)[id].credits + amount)]
    {
      rows := rows[id := rows[id].(credits := rows[id].credits + amount)];
    }

    /** `update({ where: { id }, data: patch })`; an id with no row rejects
        and changes nothing. */
    method UpdateProfile(id: UserId, patch: ProfilePatch) returns (r: Result<User>)
      requires Valid()
      modifies this
      ensures Valid() && order == old(order)
      ensures id in old(rows) ==> r == Ok(Patched(old(rows)[id], patch)) && rows == old(rows)[id := r.value]
      ensures id !in old(rows) ==> r == Err(RecordToUpdateNotFound) && rows == old(rows)
    {
      if id in rows {
        var updated := Patched(rows[id], patch);
        rows := rows[id := updated];
        r := Ok(updated);
      } else {
        r := Err(RecordToUpdateNotFound);
      }
    }
  }
}
