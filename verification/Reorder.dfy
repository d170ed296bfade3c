/** Reordering a user's providers: the next sorted listing is exactly the order asked for, whatever the earlier,
    possibly colliding, priorities were. */
module Reorder {
  import opened Basics
  import opened Tables

  ghost predicate Distinct(ids: seq<string>) {
    forall i, j :: 0 <= i < j < |ids| ==> ids[i] != ids[j]
  }

  /** The ids sent are the user's provider ids, each once. */
  ghost predicate IsPermutation(table: map<string, ProviderRow>, user: UserId, ids: seq<string>) {
    Distinct(ids) && forall id :: id in ids <==> id in table && table[id].user == user
  }

  function PriorityIn(table: map<string, ProviderRow>): string -> int {
    (id: string) => if id in table then table[id].settings.priority else 0
  }

  lemma {:induction false} DistinctMultiset(ids: seq<string>, id: string)
    requires Distinct(ids)
    ensures multiset(ids)[id] == if id in ids then 1 else 0
  {
    if ids != [] {
      assert ids == [ids[0]] + ids[1..];
      assert ids[0] !in ids[1..];
      DistinctMultiset(ids[1..], id);
    }
  }

  /** The first n statements leave a row alone that none of them names. */
  lemma {:induction false} Untouched(table: map<string, ProviderRow>, user: UserId, ids: seq<string>, n: nat, id: string)
    requires n <= |ids| && id in table
    requires forall i :: 0 <= i < n && ids[i] == id ==> table[id].user != user
    ensures id in Reordered(table, user, ids, n) && Reordered(table, user, ids, n)[id] == table[id]
  {
    if n > 0 {
      Untouched(table, user, ids, n - 1, id);
    }
  }

  /** After them id number i < n has priority i + 1. */
  lemma {:induction false} Touched(table: map<string, ProviderRow>, user: UserId, ids: seq<string>, n: nat, i: nat)
    requires i < n <= |ids| && IsPermutation(table, user, ids)
    ensures ids[i] in Reordered(table, user, ids, n)
    ensures Reordered(table, user, ids, n)[ids[i]].settings.priority == i + 1
  {
    if i < n - 1 {
      Touched(table, user, ids, n - 1, i);
    } else {
      assert ids[i] in ids;
      Untouched(table, user, ids, n - 1, ids[i]);
    }
  }

  /** The next listing is the order asked for, and no other user's row changed. */
  lemma ReorderThenList(table: map<string, ProviderRow>, user: UserId, ids: seq<string>, listing: seq<string>)
    requires IsPermutation(table, user, ids)
    requires IsListing(Reordered(table, user, ids, |ids|), user, listing)
    ensures listing == ids
    ensures Reordered(table, user, ids, |ids|).Keys == table.Keys
    ensures forall id :: id in table && table[id].user != user ==> Reordered(table, user, ids, |ids|)[id] == table[id]
  {
    var after := Reordered(table, user, ids, |ids|);
    ReorderedRowsKeep(table, user, ids, |ids|);
    forall i | 0 <= i < |ids|
      ensures PriorityIn(after)(ids[i]) == i + 1
    {
      Touched(table, user, ids, |ids|, i);
    }
    forall id | id in table && table[id].user != user
      ensures after[id] == table[id]
    {
      Untouched(table, user, ids, |ids|, id);
    }
    hide Reordered;
    assert multiset(listing) == multiset(ids) by {
      forall id
        ensures multiset(listing)[id] == multiset(ids)[id]
      {
        DistinctMultiset(listing, id);
        DistinctMultiset(ids, id);
      }
    }
    OrderedRowsUnique(ids, listing, PriorityIn(after));
  }

  // ---------- priorities of new providers

  function RowsOf(table: map<string, ProviderRow>, user: UserId): set<string> {
    set id | id in table && table[id].user == user
  }

  /** A new provider is inserted with the user's row count plus one as its priority. */
  function Inserted(table: map<string, ProviderRow>, id: string, row: ProviderRow): map<string, ProviderRow> {
    table[id := row.(settings := row.settings.(priority := |RowsOf(table, row.user)| + 1))]
  }

  ghost predicate HasPriority(table: map<string, ProviderRow>, user: UserId, p: int) {
    exists id :: id in RowsOf(table, user) && table[id].settings.priority == p
  }

  /** The user's priorities are 1 to the number of rows, each once, as a reorder leaves them. */
  ghost predicate Compact(table: map<string, ProviderRow>, user: UserId) {
    && (forall id :: id in RowsOf(table, user) ==> 1 <= table[id].settings.priority <= |RowsOf(table, user)|)
    && (forall p :: 1 <= p <= |RowsOf(table, user)| ==> HasPriority(table, user, p))
    && (forall a, b :: a in RowsOf(table, user) && b in RowsOf(table, user) && a != b ==>
          table[a].settings.priority != table[b].settings.priority)
  }

  /** Two rows of the user have the same priority. */
  ghost predicate Collides(table: map<string, ProviderRow>, user: UserId) {
    exists a, b :: a in RowsOf(table, user) && b in RowsOf(table, user) && a != b
                   && table[a].settings.priority == table[b].settings.priority
  }

  /** The insertion adds one row with priority count + 1 and leaves the others alone. */
  lemma InsertedRows(table: map<string, ProviderRow>, id: string, row: ProviderRow)
    requires id !in table
    ensures var after := Inserted(table, id, row);
            && RowsOf(after, row.user) == RowsOf(table, row.user) + {id}
            && |RowsOf(after, row.user)| == |RowsOf(table, row.user)| + 1
            && after[id].settings.priority == |RowsOf(table, row.user)| + 1
            && forall x :: x in table ==> x in after && after[x] == table[x]
  {
    assert id !in RowsOf(table, row.user);
    assert RowsOf(Inserted(table, id, row), row.user) == RowsOf(table, row.user) + {id};
  }

  /** Adding alone never makes priorities collide. */
  lemma AddingKeepsCompact(table: map<string, ProviderRow>, id: string, row: ProviderRow)
    requires Compact(table, row.user) && id !in table
    ensures Compact(Inserted(table, id, row), row.user)
  {
    hide RowsOf, Inserted;
    var after := Inserted(table, id, row);
    var n := |RowsOf(table, row.user)|;
    InsertedRows(table, id, row);
    AreRows(table, row.user);
    forall p | 1 <= p <= n + 1
      ensures HasPriority(after, row.user, p)
    {
      if p == n + 1 {
        assert id in RowsOf(after, row.user);
      } else {
        assert HasPriority(table, row.user, p);
        var x :| x in RowsOf(table, row.user) && table[x].settings.priority == p;
        assert x in RowsOf(after, row.user);
      }
    }
  }

  lemma AreRows(table: map<string, ProviderRow>, user: UserId)
    ensures forall id :: id in RowsOf(table, user) ==> id in table && table[id].user == user
  {
  }

  lemma RowsWithout(table: map<string, ProviderRow>, user: UserId, gone: string)
    requires gone in RowsOf(table, user)
    ensures RowsOf(table - {gone}, user) == RowsOf(table, user) - {gone}
    ensures |RowsOf(table - {gone}, user)| == |RowsOf(table, user)| - 1
  {
    assert RowsOf(table - {gone}, user) == RowsOf(table, user) - {gone};
  }

  /** After a deletion the next provider added collides with another exactly when the one deleted was not the last. */
  lemma CollidesAfterDeletion(table: map<string, ProviderRow>, gone: string, id: string, row: ProviderRow)
    requires Compact(table, row.user) && gone in RowsOf(table, row.user) && id !in table
    ensures Collides(Inserted(table - {gone}, id, row), row.user) <==>
            table[gone].settings.priority < |RowsOf(table, row.user)|
  {
    hide RowsOf, Inserted;
    var n := |RowsOf(table, row.user)|;
    var after := Inserted(table - {gone}, id, row);
    AreRows(table, row.user);
    RowsWithout(table, row.user, gone);
    InsertedRows(table - {gone}, id, row);
    assert id !in RowsOf(table, row.user);
    assert forall x :: x in RowsOf(table, row.user) && x != gone ==> x in table - {gone} && after[x] == table[x];
    if table[gone].settings.priority < n {
      assert HasPriority(table, row.user, n);
      var last :| last in RowsOf(table, row.user) && table[last].settings.priority == n;
      assert last in RowsOf(after, row.user) && id in RowsOf(after, row.user);
    }
  }

  /** A listing then leaves the order of two colliding rows to their creation time, and when that is the same too either
      may come first; a reorder settles it. */
  lemma PrioritiesMayCollide(a: ProviderRow, b: ProviderRow)
    requires a.settings.priority == b.settings.priority && a.user == b.user
    ensures IsListing(map["a" := a, "b" := b], a.user, ["a", "b"]) <==> a.createdAt <= b.createdAt
    ensures IsListing(map["a" := a, "b" := b], a.user, ["b", "a"]) <==> b.createdAt <= a.createdAt
  {
    ListingOfTwo(map["a" := a, "b" := b], a.user, "a", "b");
    ListingOfTwo(map["a" := a, "b" := b], a.user, "b", "a");
  }

  lemma ListingOfTwo(table: map<string, ProviderRow>, user: UserId, x: string, y: string)
    requires x != y && table.Keys == {x, y} && table[x].user == user && table[y].user == user
    ensures IsListing(table, user, [x, y]) <==> ListedBefore(table[x], table[y])
  {
    if IsListing(table, user, [x, y]) {
      assert [x, y][0] == x && [x, y][1] == y;
    }
  }
}
