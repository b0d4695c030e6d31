/** The order store: an in-memory collection of saved orders keyed by id. */
module OrderRepositories {
  import opened Wrappers
  import opened Errors
  import opened Orders

  /** No two saved orders share an id (the id is the store's key). */
  predicate UniqueIds(s: seq<OrderSnapshot>) {
    forall i, j :: 0 <= i < j < |s| ==> s[i].id != s[j].id
  }

  /** Ordered by creation time, newest first. */
  predicate NewestFirst(s: seq<OrderSnapshot>) {
    forall i, j :: 0 <= i < j < |s| ==> s[i].createdAt >= s[j].createdAt
  }

  // ---------------------------------------------------------------- lookup

  /** The saved order with the given id, if there is one. */
  function Find(s: seq<OrderSnapshot>, id: Guid): (r: Option<OrderSnapshot>)
    ensures r.Some? <==> exists i :: 0 <= i < |s| && s[i].id == id
    ensures r.Some? ==> r.value in s && r.value.id == id
  {
    if s == [] then None
    else if s[0].id == id then Some(s[0])
    else
      var r := Find(s[1..], id);
      assert forall i :: 0 < i < |s| ==> s[i] == s[1..][i - 1];
      r
  }

  /** With unique ids, the one order holding an id is the one found. */
  lemma {:induction false} FindUnique(s: seq<OrderSnapshot>, i: int)
    requires UniqueIds(s) && 0 <= i < |s|
    ensures Find(s, s[i].id) == Some(s[i])
  {
    if i > 0 {
      assert s[1..][i - 1] == s[i];
      FindUnique(s[1..], i - 1);
    }
  }

  /** With unique ids, each saved order occurs exactly once. */
  lemma {:induction false} UniqueIdsOccurOnce(s: seq<OrderSnapshot>, o: OrderSnapshot)
    requires UniqueIds(s)
    ensures multiset(s)[o] == if o in s then 1 else 0
  {
    if s != [] {
      assert s == [s[0]] + s[1..];
      UniqueIdsOccurOnce(s[1..], o);
      if s[0] == o {
        assert o !in s[1..] by {
          forall k | 0 <= k < |s[1..]| ensures s[1..][k] != o {
            assert s[1..][k] == s[k + 1];
          }
        }
      }
    }
  }

  // ---------------------------------------------------------------- ordering and filtering

  /** Inserts `o` before the first order that is not newer than it. */
  function Insert(o: OrderSnapshot, s: seq<OrderSnapshot>): (r: seq<OrderSnapshot>)
    requires NewestFirst(s)
    ensures NewestFirst(r) && multiset(r) == multiset(s) + multiset{o}
    ensures r[0] == o || r[0] == s[0]
  {
    if s == [] || s[0].createdAt <= o.createdAt then
      [o] + s
    else
      var rest := s[1..];
      assert NewestFirst(rest) by {
        forall i, j | 0 <= i < j < |rest| ensures rest[i].createdAt >= rest[j].createdAt {
          assert rest[i] == s[i + 1] && rest[j] == s[j + 1];
        }
      }
      var t := Insert(o, rest);
      assert s == [s[0]] + rest;
      assert s[0].createdAt >= t[0].createdAt by {
        if t[0] != o {
          assert t[0] == rest[0] == s[1];
        }
      }
      PrependNewest(s[0], t);
      [s[0]] + t
  }

  /** An order no older than the head of a newest-first sequence can go in front. */
  lemma PrependNewest(x: OrderSnapshot, t: seq<OrderSnapshot>)
    requires NewestFirst(t) && (t != [] ==> x.createdAt >= t[0].createdAt)
    ensures NewestFirst([x] + t)
  {
    var u := [x] + t;
    forall i, j | 0 <= i < j < |u| ensures u[i].createdAt >= u[j].createdAt {
      if i == 0 {
        assert u[j] == t[j - 1];
        assert t[0].createdAt >= t[j - 1].createdAt;
      } else {
        assert u[i] == t[i - 1] && u[j] == t[j - 1];
      }
    }
  }

  /** `OrderByDescending(o => o.CreatedAt)`: the same orders, newest first. */
  function SortNewestFirst(s: seq<OrderSnapshot>): (r: seq<OrderSnapshot>)
    ensures NewestFirst(r) && multiset(r) == multiset(s)
  {
    if s == [] then []
    else
      assert s == [s[0]] + s[1..];
      Insert(s[0], SortNewestFirst(s[1..]))
  }

  /** `Where(o => o.CustomerEmail == email)`: exact, case-sensitive match. */
  function WithEmail(s: seq<OrderSnapshot>, email: string): (r: seq<OrderSnapshot>)
    ensures forall o :: multiset(r)[o] == if o.customerEmail == email then multiset(s)[o] else 0
  {
    if s == [] then []
    else
      assert s == [s[0]] + s[1..];
      var t := WithEmail(s[1..], email);
      if s[0].customerEmail == email then [s[0]] + t else t
  }

  // ---------------------------------------------------------------- changes

  /** The collection with the order whose id is `o.id` replaced by `o`. */
  function ReplaceById(s: seq<OrderSnapshot>, o: OrderSnapshot): (r: seq<OrderSnapshot>)
    ensures |r| == |s|
    ensures forall i :: 0 <= i < |s| ==> r[i] == if s[i].id == o.id then o else s[i]
    ensures forall i :: 0 <= i < |s| ==> r[i].id == s[i].id
  {
    if s == [] then []
    else [if s[0].id == o.id then o else s[0]] + ReplaceById(s[1..], o)
  }

  /** The collection without the order whose id is `id`. */
  function RemoveById(s: seq<OrderSnapshot>, id: Guid): (r: seq<OrderSnapshot>)
    ensures forall o :: o in r <==> o in s && o.id != id
    ensures (forall i :: 0 <= i < |s| ==> s[i].id != id) ==> r == s
  {
    if s == [] then []
    else
      assert s == [s[0]] + s[1..];
      var t := RemoveById(s[1..], id);
      if s[0].id == id then t else [s[0]] + t
  }

  /** Adding an order with a new id keeps ids unique; a lookup of that id
      then yields exactly the added state, and every other lookup is as before. */
  lemma AddThenFind(s: seq<OrderSnapshot>, o: OrderSnapshot, id: Guid)
    requires UniqueIds(s) && Find(s, o.id).None?
    ensures UniqueIds(s + [o])
    ensures Find(s + [o], id) == if id == o.id then Some(o) else Find(s, id)
  {
    var t := s + [o];
    if id == o.id {
      FindUnique(t, |s|);
    } else if Find(s, id).Some? {
      var i :| 0 <= i < |s| && s[i].id == id;
      FindUnique(s, i);
      assert t[i] == s[i];
      FindUnique(t, i);
    } else {
      assert forall i :: 0 <= i < |s| ==> t[i] == s[i];
    }
  }

  /** A lookup after a replacement sees the new state at its id. */
  lemma {:induction false} FindReplaced(s: seq<OrderSnapshot>, o: OrderSnapshot, id: Guid)
    ensures Find(ReplaceById(s, o), id) == if id == o.id && Find(s, id).Some? then Some(o) else Find(s, id)
  {
    if s != [] {
      assert ReplaceById(s, o)[1..] == ReplaceById(s[1..], o);
      if s[0].id != id {
        FindReplaced(s[1..], o, id);
      }
    }
  }

  /** Replacing a saved order keeps ids unique; a lookup of its id then
      yields the new state, and every other lookup is as before. */
  lemma ReplaceThenFind(s: seq<OrderSnapshot>, o: OrderSnapshot, id: Guid)
    requires UniqueIds(s) && Find(s, o.id).Some?
    ensures UniqueIds(ReplaceById(s, o))
    ensures Find(ReplaceById(s, o), id) == if id == o.id then Some(o) else Find(s, id)
  {
    FindReplaced(s, o, id);
    var t := ReplaceById(s, o);
    assert forall i, j :: 0 <= i < j < |t| ==> t[i].id == s[i].id && t[j].id == s[j].id;
  }

  /** Removing keeps ids unique. */
  lemma {:induction false} RemoveKeepsUniqueIds(s: seq<OrderSnapshot>, id: Guid)
    requires UniqueIds(s)
    ensures UniqueIds(RemoveById(s, id))
  {
    if s != [] {
      RemoveKeepsUniqueIds(s[1..], id);
      var t := RemoveById(s[1..], id);
      if s[0].id != id {
        forall x | x in t ensures x.id != s[0].id {
          var k :| 0 <= k < |s[1..]| && s[1..][k] == x;
          assert s[k + 1] == x;
        }
        assert RemoveById(s, id) == [s[0]] + t;
      }
    }
  }

  /** Removing an id keeps ids unique; that id is then not found, and every
      other lookup is as before. */
  lemma RemoveThenFind(s: seq<OrderSnapshot>, id: Guid, other: Guid)
    requires UniqueIds(s)
    ensures UniqueIds(RemoveById(s, id))
    ensures Find(RemoveById(s, id), other) == if other == id then None else Find(s, other)
  {
    RemoveKeepsUniqueIds(s, id);
    var t := RemoveById(s, id);
    if i :| 0 <= i < |t| && t[i].id == other {
      FindUnique(t, i);
      assert t[i] in s;
      var a :| 0 <= a < |s| && s[a] == t[i];
      FindUnique(s, a);
    }
  }

  // ---------------------------------------------------------------- the store

  /** `OrderRepository` over an in-memory `Orders` collection. */
  class OrderRepository {
    var orders: seq<OrderSnapshot>

    ghost predicate Valid()
      reads this
    {
      UniqueIds(orders)
    }

    constructor ()
      ensures Valid() && orders == []
    {
      orders := [];
    }

    /** `GetByIdAsync`: the saved order with that id, or none. */
    function GetById(id: Guid): (r: Option<OrderSnapshot>)
      reads this
      requires Valid()
      ensures r.Some? <==> exists i :: 0 <= i < |orders| && orders[i].id == id
      ensures r.Some? ==> r.value in orders && r.value.id == id
    {
      Find(orders, id)
    }

    /** `GetAllAsync`: every saved order exactly once, newest first. */
    function GetAll(): (r: seq<OrderSnapshot>)
      reads this
      requires Valid()
      ensures NewestFirst(r)
      ensures forall o :: multiset(r)[o] == if o in orders then 1 else 0
    {
      var r := SortNewestFirst(orders);
      assert forall o :: multiset(r)[o] == if o in orders then 1 else 0 by {
        forall o ensures multiset(r)[o] == if o in orders then 1 else 0 {
          UniqueIdsOccurOnce(orders, o);
        }
      }
      r
    }

    /** `GetByCustomerEmailAsync`: exactly the saved orders with that email,
        each once, newest first. */
    function GetByCustomerEmail(email: string): (r: seq<OrderSnapshot>)
      reads this
      requires Valid()
      ensures NewestFirst(r)
      ensures forall o :: multiset(r)[o] == if o in orders && o.customerEmail == email then 1 else 0
    {
      var r := SortNewestFirst(WithEmail(orders, email));
      assert forall o :: multiset(r)[o] == if o in orders && o.customerEmail == email then 1 else 0 by {
        forall o ensures multiset(r)[o] == if o in orders && o.customerEmail == email then 1 else 0 {
          UniqueIdsOccurOnce(orders, o);
        }
      }
      r
    }

    /** `AddAsync`: saves the order's state and returns the same entity. A
        key that is already saved makes the save throw and nothing is added. */
    method Add(order: Order) returns (r: Result<Order, Error>)
      requires Valid()
      modifies this
      ensures Valid()
      ensures old(Find(orders, order.id)).Some? ==> r == Failure(DuplicateKey) && orders == old(orders)
      ensures old(Find(orders, order.id)).None? ==> r == Success(order) && orders == old(orders) + [order.Snapshot()]
    {
      if Find(orders, order.id).Some? {
        return Failure(DuplicateKey);
      }
      AddThenFind(orders, order.Snapshot(), order.id);
      orders := orders + [order.Snapshot()];
      return Success(order);
    }

    /** `UpdateAsync`: replaces the saved state of the order with that id.
        An id that is not saved makes the save throw and nothing changes. */
    method Update(order: Order) returns (r: Outcome<Error>)
      requires Valid()
      modifies this
      ensures Valid()
      ensures old(Find(orders, order.id)).None? ==> r == Fail(ConcurrencyConflict) && orders == old(orders)
      ensures old(Find(orders, order.id)).Some? ==> r == Pass && orders == ReplaceById(old(orders), order.Snapshot())
    {
      if Find(orders, order.id).None? {
        return Fail(ConcurrencyConflict);
      }
      ReplaceThenFind(orders, order.Snapshot(), order.id);
      orders := ReplaceById(orders, order.Snapshot());
      return Pass;
    }

    /** `DeleteAsync`: removes the order with that id; nothing happens when
        there is none. */
    method Delete(id: Guid)
      requires Valid()
      modifies this
      ensures Valid()
      ensures orders == RemoveById(old(orders), id)
      ensures old(Find(orders, id)).None? ==> orders == old(orders)
    {
      RemoveThenFind(orders, id, id);
      if Find(orders, id).Some? {
        orders := RemoveById(orders, id);
      }
    }
  }
}
