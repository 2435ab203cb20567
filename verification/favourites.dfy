/** The favourites list (frontend/src/App.js, lines 119-135): an ordered
    list of items in which an item is identified by its `id`. */
module Favourites {
  import opened Wrappers
  import opened Items

  /** `favourites.some(fave => fave.id === id)` */
  predicate HasId(favs: seq<Item>, id: Option<int>)
  {
    exists i :: 0 <= i < |favs| && favs[i].id == id
  }

  /** No two entries share an id. */
  predicate DistinctIds(favs: seq<Item>)
  {
    forall i, j :: 0 <= i < j < |favs| ==> favs[i].id != favs[j].id
  }

  /** `addToFavourites`: append the item unless an entry already has its id. */
  function Add(favs: seq<Item>, item: Item): (r: seq<Item>)
    // a new id is appended at the end, the earlier entries unchanged and in order
    ensures !HasId(favs, item.id) ==>
              |r| == |favs| + 1 && r[..|favs|] == favs && r[|favs|] == item
    // a known id leaves the list as it was
    ensures HasId(favs, item.id) ==> r == favs
    // afterwards the id is always present
    ensures HasId(r, item.id)
    // distinct ids stay distinct
    ensures DistinctIds(favs) ==> DistinctIds(r)
  {
    if HasId(favs, item.id) then favs else favs + [item]
  }

  /** `removeFromFavourites`: keep the entries whose id differs from the
      removed item's id. */
  function Remove(favs: seq<Item>, item: Item): (r: seq<Item>)
    ensures |r| <= |favs|
    ensures !HasId(r, item.id)
  {
    if favs == [] then []
    else (if favs[0].id != item.id then [favs[0]] else []) + Remove(favs[1..], item)
  }

  /** Removal keeps exactly the entries whose id differs from the removed
      item's id. */
  lemma {:induction false} RemoveKeepsExactly(favs: seq<Item>, item: Item)
    ensures forall x :: x in Remove(favs, item) <==> x in favs && x.id != item.id
    decreases |favs|
  {
    if favs != [] {
      RemoveKeepsExactly(favs[1..], item);
      assert favs == [favs[0]] + favs[1..];
    }
  }

  /** Adding twice is adding once. */
  lemma AddIdempotent(favs: seq<Item>, item: Item)
    ensures Add(Add(favs, item), item) == Add(favs, item)
  {
  }

  /** Removal distributes over concatenation: entries are kept or dropped
      one by one and the kept ones stay in their original order. */
  lemma {:induction false} RemoveAppend(a: seq<Item>, b: seq<Item>, item: Item)
    ensures Remove(a + b, item) == Remove(a, item) + Remove(b, item)
    decreases |a|
  {
    if a == [] {
      assert a + b == b;
    } else {
      assert (a + b)[1..] == a[1..] + b;
      RemoveAppend(a[1..], b, item);
    }
  }

  /** Removing an id that is not in the list leaves the list unchanged. */
  lemma {:induction false} RemoveAbsent(favs: seq<Item>, item: Item)
    requires !HasId(favs, item.id)
    ensures Remove(favs, item) == favs
    decreases |favs|
  {
    if favs != [] {
      assert !HasId(favs[1..], item.id) by {
        forall i | 0 <= i < |favs[1..]|
          ensures favs[1..][i].id != item.id
        {
          assert favs[1..][i] == favs[i + 1];
        }
      }
      RemoveAbsent(favs[1..], item);
    }
  }

  /** Removing twice is removing once. */
  lemma RemoveIdempotent(favs: seq<Item>, item: Item)
    ensures Remove(Remove(favs, item), item) == Remove(favs, item)
  {
    RemoveAbsent(Remove(favs, item), item);
  }

  /** Distinct ids survive dropping the first entry. */
  lemma DistinctTail(favs: seq<Item>)
    requires |favs| > 0 && DistinctIds(favs)
    ensures DistinctIds(favs[1..])
    ensures forall x :: x in favs[1..] ==> x.id != favs[0].id
  {
  }

  /** Putting an entry whose id is new in front of a list with distinct ids
      keeps them distinct. */
  lemma DistinctCons(x: Item, rest: seq<Item>)
    requires DistinctIds(rest)
    requires forall y :: y in rest ==> y.id != x.id
    ensures DistinctIds([x] + rest)
  {
  }

  /** Removal keeps ids distinct. */
  lemma {:induction false} RemovePreservesDistinct(favs: seq<Item>, item: Item)
    requires DistinctIds(favs)
    ensures DistinctIds(Remove(favs, item))
    decreases |favs|
  {
    if favs != [] {
      DistinctTail(favs);
      RemovePreservesDistinct(favs[1..], item);
      RemoveKeepsExactly(favs[1..], item);
      var rest := Remove(favs[1..], item);
      if favs[0].id != item.id {
        DistinctCons(favs[0], rest);
      } else {
        assert Remove(favs, item) == [] + rest;
      }
    }
  }

  /** Removing an item just added restores the list it was added to. */
  lemma RemoveUndoesAdd(favs: seq<Item>, item: Item)
    requires !HasId(favs, item.id)
    ensures Remove(Add(favs, item), item) == favs
  {
    RemoveAppend(favs, [item], item);
    RemoveAbsent(favs, item);
    assert [item][1..] == [];
  }
}
