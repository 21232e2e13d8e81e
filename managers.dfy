/** The relationship manager: a duplicate-rejecting append to a parent's
    related list, followed by a save of the parent. */
module Managers {
  import opened Entities

  /** How often x occurs in s (Python's `list.count`). */
  function Count<B(==)>(s: seq<B>, x: B): (n: nat)
    ensures n == 0 <==> x !in s
    ensures n <= |s|
  {
    if s == [] then 0
    else (if s[0] == x then 1 else 0) + Count(s[1..], x)
  }

  /** Appending y adds one occurrence of y and none of anything else. */
  lemma {:induction false} CountAppend<B>(s: seq<B>, x: B, y: B)
    ensures Count(s + [y], x) == Count(s, x) + (if x == y then 1 else 0)
  {
    if s == [] {
      assert [] + [y] == [y];
      assert [y][1..] == [];
    } else {
      assert (s + [y])[1..] == s[1..] + [y];
      CountAppend(s[1..], x, y);
    }
  }

  /** No item occurs twice. */
  predicate Distinct<B(==)>(s: seq<B>)
  {
    forall i, j | 0 <= i < j < |s| :: s[i] != s[j]
  }

  /** In a list without duplicates every member occurs exactly once. */
  lemma {:induction false} DistinctCountsOnce<B>(s: seq<B>, x: B)
    requires Distinct(s) && x in s
    ensures Count(s, x) == 1
  {
    assert s != [];
    assert Distinct(s[1..]) by {
      forall i, j | 0 <= i < j < |s[1..]| ensures s[1..][i] != s[1..][j] {
        assert s[1..][i] == s[i + 1] && s[1..][j] == s[j + 1];
      }
    }
    if s[0] == x {
      assert x !in s[1..] by {
        forall k | 0 <= k < |s[1..]| ensures s[1..][k] != x {
          assert s[1..][k] == s[k + 1];
        }
      }
    } else {
      assert x in s[1..] by {
        var k :| 0 <= k < |s| && s[k] == x;
        assert k != 0 && s[1..][k - 1] == x;
      }
      DistinctCountsOnce(s[1..], x);
    }
  }

  /** The related list after adding item: RelationshipExists when it is
      already there, otherwise the list with item appended at the end. */
  function AddRelated<B(==)>(items: seq<B>, item: B): (r: Result<seq<B>>)
    ensures r.Failure? <==> item in items
    ensures r.Failure? ==> r.error == RelationshipExists
    ensures r.Success? ==> |r.value| == |items| + 1 && r.value[..|items|] == items && r.value[|items|] == item
  {
    if item in items then Failure(RelationshipExists) else Success(items + [item])
  }

  /** A successful add leaves item in the list exactly once, and keeps every
      other item's number of occurrences. */
  lemma AddRelatedOnce<B>(items: seq<B>, item: B, other: B)
    requires AddRelated(items, item).Success?
    ensures Count(AddRelated(items, item).value, item) == 1
    ensures other != item ==> Count(AddRelated(items, item).value, other) == Count(items, other)
  {
    CountAppend(items, item, item);
    CountAppend(items, other, item);
  }

  /** Adding to a list without duplicates gives a list without duplicates. */
  lemma AddRelatedKeepsDistinct<B>(items: seq<B>, item: B)
    requires Distinct(items)
    ensures AddRelated(items, item).Success? ==> Distinct(AddRelated(items, item).value)
  {
    if item !in items {
      var s := items + [item];
      forall i, j | 0 <= i < j < |s| ensures s[i] != s[j] {
        if j == |items| {
          assert s[i] == items[i];
        } else {
          assert s[i] == items[i] && s[j] == items[j];
        }
      }
    }
  }

  /** Adding the same item twice: the second add is refused and the list keeps
      exactly one entry for it. */
  lemma AddRelatedTwice<B>(items: seq<B>, item: B)
    requires item !in items
    ensures AddRelated(items, item).Success?
    ensures AddRelated(AddRelated(items, item).value, item) == Failure(RelationshipExists)
    ensures Count(AddRelated(items, item).value, item) == 1
  {
    AddRelatedOnce(items, item, item);
  }

  /** The list object the accessor hands out; appending to it changes the parent's relation. */
  class RelatedItems<B> {
    var items: seq<B>

    constructor (items: seq<B>)
      ensures this.items == items
    {
      this.items := items;
    }
  }

  /** Manages a parent's related items through an injected accessor. */
  class RelationshipManager<B(==)> {
    const repository: Repository
    const getRelated: Obj -> RelatedItems<B>

    constructor (repository: Repository, getRelated: Obj -> RelatedItems<B>)
      ensures this.repository == repository && this.getRelated == getRelated
    {
      this.repository := repository;
      this.getRelated := getRelated;
    }

    /** Appends item to the parent's related list unless it is already there,
        then saves the parent once and returns it. A duplicate is refused with
        nothing changed and nothing saved. */
    method AddRelationship(parent: Obj, item: B) returns (r: Result<Obj>)
      requires allocated(getRelated(parent))
      modifies repository, getRelated(parent)
      ensures repository.rows == old(repository.rows)
      ensures repository.deleted == old(repository.deleted)
      ensures
        var related := getRelated(parent);
        match AddRelated(old(related.items), item)
        case Failure(e) =>
          && r == Failure(e)
          && related.items == old(related.items)
          && repository.saved == old(repository.saved)
        case Success(items) =>
          && r == Success(parent)
          && related.items == items
          && repository.saved == old(repository.saved) + [Saved(parent, parent.attrs)]
    {
      var related := getRelated(parent);
      if item in related.items {
        return Failure(RelationshipExists);
      }
      related.items := related.items + [item];
      repository.Save(parent);
      r := Success(parent);
    }

    /** The accessor's list, unchanged. */
    method GetRelated(parent: Obj) returns (items: seq<B>)
      ensures items == getRelated(parent).items
    {
      items := getRelated(parent).items;
    }
  }
}
