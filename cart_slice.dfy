/**
 * The client's cart state and its reducers. Items are the cart documents
 * the server sends back (`_id` is the line id). The request thunks are
 * left out; each reducer is a method that updates the state in place, and
 * the item-list updates are specified by the functions below it.
 */
module CartSlice {
  import opened Values
  import opened CartSchema

  /** `items.findIndex(item => item.productId === productId)`: the first match, or -1. */
  function IndexOfProduct(items: seq<CartLine>, productId: int): (r: int)
    ensures -1 <= r < |items|
    ensures r >= 0 ==> items[r].productId == productId
    ensures r >= 0 ==> forall k :: 0 <= k < r ==> items[k].productId != productId
    ensures r == -1 <==> forall k :: 0 <= k < |items| ==> items[k].productId != productId
  {
    if items == [] then -1
    else if items[0].productId == productId then 0
    else
      var i := IndexOfProduct(items[1..], productId);
      if i == -1 then -1 else i + 1
  }

  /** `items.findIndex(item => item._id === id)`: the first match, or -1. */
  function IndexOfId(items: seq<CartLine>, id: LineId): (r: int)
    ensures -1 <= r < |items|
    ensures r >= 0 ==> items[r].id == id
    ensures r >= 0 ==> forall k :: 0 <= k < r ==> items[k].id != id
    ensures r == -1 <==> forall k :: 0 <= k < |items| ==> items[k].id != id
  {
    if items == [] then -1
    else if items[0].id == id then 0
    else
      var i := IndexOfId(items[1..], id);
      if i == -1 then -1 else i + 1
  }

  /**
   * The list after addToCart succeeds: the first item with the payload's
   * product is replaced by the payload, or the payload is appended.
   */
  function ReplaceOrAppend(items: seq<CartLine>, item: CartLine): (r: seq<CartLine>)
    ensures item in r
    ensures IndexOfProduct(items, item.productId) >= 0 ==>
      var i := IndexOfProduct(items, item.productId);
      |r| == |items| && r[i] == item && forall k :: 0 <= k < |items| && k != i ==> r[k] == items[k]
    ensures IndexOfProduct(items, item.productId) == -1 ==> r == items + [item]
  {
    var i := IndexOfProduct(items, item.productId);
    if i >= 0 then
      var r := items[i := item];
      assert r[i] == item;
      r
    else
      var r := items + [item];
      assert r[|items|] == item;
      r
  }

  /**
   * The list after updateCartItem succeeds: the first item with the
   * payload's id is replaced; with no such item nothing changes.
   */
  function ReplaceById(items: seq<CartLine>, item: CartLine): (r: seq<CartLine>)
    ensures |r| == |items|
    ensures IndexOfId(items, item.id) == -1 ==> r == items
    ensures IndexOfId(items, item.id) >= 0 ==>
      var i := IndexOfId(items, item.id);
      r[i] == item && forall k :: 0 <= k < |items| && k != i ==> r[k] == items[k]
  {
    var i := IndexOfId(items, item.id);
    if i >= 0 then items[i := item] else items
  }

  /** `items.filter(item => item._id !== id)`: every item with that id dropped, the rest kept in order. */
  function WithoutId(items: seq<CartLine>, id: LineId): (r: seq<CartLine>)
    ensures |r| <= |items|
    ensures forall k :: 0 <= k < |r| ==> r[k].id != id
  {
    if items == [] then []
    else
      var rest := WithoutId(items[1..], id);
      assert items == [items[0]] + items[1..];
      if items[0].id == id then rest else [items[0]] + rest
  }

  /** No product appears in two items. */
  predicate UniqueProducts(items: seq<CartLine>)
  {
    forall i, j :: 0 <= i < j < |items| ==> items[i].productId != items[j].productId
  }

  /** No id appears in two items. */
  predicate UniqueLineIds(items: seq<CartLine>)
  {
    forall i, j :: 0 <= i < j < |items| ==> items[i].id != items[j].id
  }

  class CartState {
    var items: seq<CartLine>
    var loading: bool
    var error: Option<string>

    constructor ()
      ensures items == [] && !loading && error == None
    {
      items := [];
      loading := false;
      error := None;
    }

    /** clearCart: empties the list and leaves the flags alone. */
    method ClearCart()
      modifies this
      ensures items == [] && loading == old(loading) && error == old(error)
    {
      items := [];
    }

    method FetchPending()
      modifies this
      ensures loading && error == None && items == old(items)
    {
      loading := true;
      error := None;
    }

    method FetchFulfilled(payload: seq<CartLine>)
      modifies this
      ensures !loading && items == payload && error == old(error)
    {
      loading := false;
      items := payload;
    }

    method FetchRejected(payload: string)
      modifies this
      ensures !loading && error == Some(payload) && items == old(items)
    {
      loading := false;
      error := Some(payload);
    }

    /** addToCart pending raises the flag and, unlike the fetch, keeps the old error. */
    method AddPending()
      modifies this
      ensures loading && error == old(error) && items == old(items)
    {
      loading := true;
    }

    method AddFulfilled(payload: CartLine)
      modifies this
      ensures !loading && error == old(error)
      ensures items == ReplaceOrAppend(old(items), payload)
    {
      loading := false;
      var existingIndex := IndexOfProduct(items, payload.productId);
      if existingIndex >= 0 {
        items := items[existingIndex := payload];
      } else {
        items := items + [payload];
      }
    }

    method AddRejected(payload: string)
      modifies this
      ensures !loading && error == Some(payload) && items == old(items)
    {
      loading := false;
      error := Some(payload);
    }

    /** updateCartItem fulfilled; the update has no pending or rejected case, so the flags stay. */
    method UpdateFulfilled(payload: CartLine)
      modifies this
      ensures loading == old(loading) && error == old(error)
      ensures items == ReplaceById(old(items), payload)
    {
      var index := IndexOfId(items, payload.id);
      if index >= 0 {
        items := items[index := payload];
      }
    }

    /** removeFromCart fulfilled; the payload is the removed id. */
    method RemoveFulfilled(id: LineId)
      modifies this
      ensures loading == old(loading) && error == old(error)
      ensures items == WithoutId(old(items), id)
    {
      items := WithoutId(items, id);
    }
  }

  // ---------------------------------------------------------------------
  // Properties

  /** Adding keeps at most one item per product. */
  lemma ReplaceOrAppendKeepsProductsUnique(items: seq<CartLine>, item: CartLine)
    requires UniqueProducts(items)
    ensures UniqueProducts(ReplaceOrAppend(items, item))
  {
    var r := ReplaceOrAppend(items, item);
    var i := IndexOfProduct(items, item.productId);
    forall a, b | 0 <= a < b < |r| ensures r[a].productId != r[b].productId {
      if i == -1 && b == |items| {
        assert r[a] == items[a];
      }
    }
  }

  /** Adding the same payload twice leaves the list as adding it once. */
  lemma ReplaceOrAppendIdempotent(items: seq<CartLine>, item: CartLine)
    ensures ReplaceOrAppend(ReplaceOrAppend(items, item), item) == ReplaceOrAppend(items, item)
  {
    var r := ReplaceOrAppend(items, item);
    var i := IndexOfProduct(items, item.productId);
    var j := IndexOfProduct(r, item.productId);
    if i >= 0 {
      assert r[i] == item;
      assert j == i by {
        forall k | 0 <= k < i ensures r[k].productId != item.productId {
          assert r[k] == items[k];
        }
      }
    } else {
      assert r[|items|] == item;
      assert j == |items| by {
        forall k | 0 <= k < |items| ensures r[k].productId != item.productId {
          assert r[k] == items[k];
        }
      }
    }
  }

  /** An update carries the replaced item's id, so ids stay unique. */
  lemma ReplaceByIdKeepsIdsUnique(items: seq<CartLine>, item: CartLine)
    requires UniqueLineIds(items)
    ensures UniqueLineIds(ReplaceById(items, item))
  {
  }

  /** Removing an id a second time changes nothing. */
  lemma WithoutIdIdempotent(items: seq<CartLine>, id: LineId)
    ensures WithoutId(WithoutId(items, id), id) == WithoutId(items, id)
  {
    WithoutIdNoMatch(WithoutId(items, id), id);
  }

  /** An item survives the filter exactly when it was in the list and has another id. */
  lemma {:induction false} WithoutIdMembers(items: seq<CartLine>, id: LineId)
    ensures forall x :: x in WithoutId(items, id) <==> x in items && x.id != id
  {
    if items != [] {
      WithoutIdMembers(items[1..], id);
      assert items == [items[0]] + items[1..];
    }
  }

  /** The filter drops every copy of an item with the id and keeps every copy of the others. */
  lemma {:induction false} WithoutIdCounts(items: seq<CartLine>, id: LineId)
    ensures forall x :: multiset(WithoutId(items, id))[x] == if x.id == id then 0 else multiset(items)[x]
  {
    if items != [] {
      WithoutIdCounts(items[1..], id);
      assert items == [items[0]] + items[1..];
    }
  }

  /** Filtering a list that has no item with the id gives the list back. */
  lemma {:induction false} WithoutIdNoMatch(items: seq<CartLine>, id: LineId)
    requires forall k :: 0 <= k < |items| ==> items[k].id != id
    ensures WithoutId(items, id) == items
  {
    if items != [] {
      WithoutIdNoMatch(items[1..], id);
      assert items == [items[0]] + items[1..];
    }
  }

  /** The filter works piecewise, which is what keeps the surviving items in their order. */
  lemma {:induction false} WithoutIdAppend(a: seq<CartLine>, b: seq<CartLine>, id: LineId)
    ensures WithoutId(a + b, id) == WithoutId(a, id) + WithoutId(b, id)
  {
    if a == [] {
      assert a + b == b;
    } else {
      var ab := a + b;
      assert ab[0] == a[0];
      assert ab[1..] == a[1..] + b;
      WithoutIdAppend(a[1..], b, id);
      var rest := WithoutId(a[1..], id) + WithoutId(b, id);
      if a[0].id == id {
        assert WithoutId(ab, id) == rest;
        assert WithoutId(a, id) == WithoutId(a[1..], id);
      } else {
        assert WithoutId(ab, id) == [a[0]] + rest;
        assert WithoutId(a, id) == [a[0]] + WithoutId(a[1..], id);
      }
    }
  }
}
