/**
 * The client's cart list against the server's listing. When the client
 * holds exactly the listing of its user (as after a fetch), applying the
 * reducer for a successful add, update or remove to the route's reply
 * gives exactly the listing the server would now return.
 */
module CartSync {
  import opened Values
  import opened UserSchema
  import opened CartSchema
  import opened Validation
  import opened CartRoutes
  import opened CartSlice

  /** Everything the user owns before position `i` of the store. */
  lemma OwnedPrefixMembers(lines: seq<CartLine>, i: nat, userId: UserId)
    requires i <= |lines|
    ensures forall l :: l in Owned(lines[..i], userId) ==>
      l.userId == userId && exists k :: 0 <= k < i && lines[k] == l
  {
    OwnedMembers(lines[..i], userId);
    forall l | l in Owned(lines[..i], userId)
      ensures l.userId == userId && exists k :: 0 <= k < i && lines[k] == l
    {
      var k :| 0 <= k < i && lines[..i][k] == l;
      assert lines[k] == l;
    }
  }

  /** The client finds the server's line for a product at its place in the listing. */
  lemma IndexOfProductInListing(lines: seq<CartLine>, userId: UserId, productId: int, i: nat)
    requires FindPair(lines, userId, productId) == Some(i)
    ensures IndexOfProduct(Owned(lines, userId), productId) == |Owned(lines[..i], userId)|
  {
    var pre := Owned(lines[..i], userId);
    var items := Owned(lines, userId);
    OwnedSplit(lines, i, userId);
    OwnedSingle(lines[i], userId);
    OwnedPrefixMembers(lines, i, userId);
    assert items == pre + [lines[i]] + Owned(lines[i + 1..], userId);
    assert items[|pre|] == lines[i];
    forall k | 0 <= k < |pre| ensures items[k].productId != productId {
      assert items[k] == pre[k] && pre[k] in pre;
    }
  }

  /** The client finds the server's line for an id at its place in the listing. */
  lemma IndexOfIdInListing(lines: seq<CartLine>, userId: UserId, id: LineId, i: nat)
    requires FindLine(lines, id, userId) == Some(i)
    ensures IndexOfId(Owned(lines, userId), id) == |Owned(lines[..i], userId)|
  {
    var pre := Owned(lines[..i], userId);
    var items := Owned(lines, userId);
    OwnedSplit(lines, i, userId);
    OwnedSingle(lines[i], userId);
    OwnedPrefixMembers(lines, i, userId);
    assert items == pre + [lines[i]] + Owned(lines[i + 1..], userId);
    assert items[|pre|] == lines[i];
    forall k | 0 <= k < |pre| ensures items[k].id != id {
      assert items[k] == pre[k] && pre[k] in pre;
    }
  }

  /** Writing a new element over the one between two runs. */
  lemma ReplaceBetween(pre: seq<CartLine>, x: CartLine, y: CartLine, post: seq<CartLine>)
    ensures (pre + [x] + post)[|pre| := y] == pre + [y] + post
  {
  }

  /** Replacing the line at position `i` of the store replaces its image in the listing. */
  lemma ListingAfterReplace(lines: seq<CartLine>, i: nat, line: CartLine, userId: UserId)
    requires i < |lines| && lines[i].userId == userId && line.userId == userId
    ensures |Owned(lines[..i], userId)| < |Owned(lines, userId)|
    ensures Owned(lines[i := line], userId) == Owned(lines, userId)[|Owned(lines[..i], userId)| := line]
  {
    var pre := Owned(lines[..i], userId);
    var post := Owned(lines[i + 1..], userId);
    var updated := lines[i := line];
    assert updated[..i] == lines[..i] && updated[i + 1..] == lines[i + 1..] && updated[i] == line;
    OwnedSplit(lines, i, userId);
    OwnedSingle(lines[i], userId);
    assert Owned(lines, userId) == pre + [lines[i]] + post;
    OwnedSplit(updated, i, userId);
    OwnedSingle(line, userId);
    assert Owned(updated, userId) == pre + [line] + post;
    ReplaceBetween(pre, lines[i], line, post);
  }

  /** No item carries the id. */
  predicate NoneWithId(items: seq<CartLine>, id: LineId)
  {
    forall k :: 0 <= k < |items| ==> items[k].id != id
  }

  /** Under unique ids, no line of the listing other than the one at position `i` carries its id. */
  lemma ListingIdsOutside(lines: seq<CartLine>, i: nat, userId: UserId)
    requires UniqueIds(lines) && i < |lines|
    ensures NoneWithId(Owned(lines[..i], userId), lines[i].id)
    ensures NoneWithId(Owned(lines[i + 1..], userId), lines[i].id)
  {
    var pre := Owned(lines[..i], userId);
    var post := Owned(lines[i + 1..], userId);
    OwnedMembers(lines[..i], userId);
    OwnedMembers(lines[i + 1..], userId);
    forall k | 0 <= k < |pre| ensures pre[k].id != lines[i].id {
      assert pre[k] in pre;
      var j :| 0 <= j < i && lines[..i][j] == pre[k];
      assert lines[j] == pre[k];
    }
    forall k | 0 <= k < |post| ensures post[k].id != lines[i].id {
      assert post[k] in post;
      var j :| 0 <= j < |lines[i + 1..]| && lines[i + 1..][j] == post[k];
      assert lines[i + 1 + j] == post[k];
    }
  }

  /** Filtering out the id of the one item between two runs that lack it leaves the two runs. */
  lemma WithoutIdBetween(pre: seq<CartLine>, l: CartLine, post: seq<CartLine>)
    requires NoneWithId(pre, l.id) && NoneWithId(post, l.id)
    ensures WithoutId(pre + [l] + post, l.id) == pre + post
  {
    WithoutIdNoMatch(pre, l.id);
    WithoutIdNoMatch(post, l.id);
    assert WithoutId([l], l.id) == [] by {
      assert [l][1..] == [];
    }
    WithoutIdAppend(pre + [l], post, l.id);
    WithoutIdAppend(pre, [l], l.id);
  }

  /** After a successful add, the client's replace-or-append reproduces the server's listing. */
  lemma AddKeepsClientInSync(lines: seq<CartLine>, nextId: LineId, userId: UserId, body: CartItemBody)
    requires ValidateCartItem(body) == None
    requires AddItem(lines, nextId, userId, body).reply.ItemReply?
    ensures var r := AddItem(lines, nextId, userId, body);
      ReplaceOrAppend(Owned(lines, userId), r.reply.item) == Owned(r.lines, userId)
  {
    var r := AddItem(lines, nextId, userId, body);
    var item := r.reply.item;
    var p := CastNumber(body.productId).value;
    assert item.productId == p && item.userId == userId;
    var found := FindPair(lines, userId, p);
    if found.Some? {
      var i := found.value;
      IndexOfProductInListing(lines, userId, p, i);
      ListingAfterReplace(lines, i, item, userId);
    } else {
      OwnedAppend(lines, [item], userId);
      OwnedSingle(item, userId);
      var items := Owned(lines, userId);
      OwnedMembers(lines, userId);
      forall k | 0 <= k < |items| ensures items[k].productId != p {
        assert items[k] in items;
      }
    }
  }

  /** After a successful update, the client's replace-by-id reproduces the server's listing. */
  lemma UpdateKeepsClientInSync(lines: seq<CartLine>, nextId: LineId, userId: UserId, id: LineId, quantity: Value)
    requires UpdateItem(lines, nextId, userId, id, quantity).reply.ItemReply?
    ensures var r := UpdateItem(lines, nextId, userId, id, quantity);
      ReplaceById(Owned(lines, userId), r.reply.item) == Owned(r.lines, userId)
  {
    var r := UpdateItem(lines, nextId, userId, id, quantity);
    var i := FindLine(lines, id, userId).value;
    assert r.reply.item.id == id && r.lines == lines[i := r.reply.item];
    IndexOfIdInListing(lines, userId, id, i);
    ListingAfterReplace(lines, i, r.reply.item, userId);
  }

  /**
   * After a successful remove, the client's filter on the removed id
   * reproduces the server's listing; ids are unique, so the filter drops
   * the one removed line and nothing else.
   */
  lemma RemoveKeepsClientInSync(lines: seq<CartLine>, nextId: LineId, userId: UserId, id: LineId)
    requires UniqueIds(lines)
    requires RemoveItem(lines, nextId, userId, id).reply.Removed?
    ensures var r := RemoveItem(lines, nextId, userId, id);
      WithoutId(Owned(lines, userId), id) == Owned(r.lines, userId)
  {
    var r := RemoveItem(lines, nextId, userId, id);
    var i := FindLine(lines, id, userId).value;
    var l := lines[i];
    var pre := Owned(lines[..i], userId);
    var post := Owned(lines[i + 1..], userId);
    assert r.lines == lines[..i] + lines[i + 1..] && l.id == id;
    OwnedSplit(lines, i, userId);
    OwnedSingle(l, userId);
    assert Owned(lines, userId) == pre + [l] + post;
    OwnedAppend(lines[..i], lines[i + 1..], userId);
    assert Owned(r.lines, userId) == pre + post;
    ListingIdsOutside(lines, i, userId);
    WithoutIdBetween(pre, l, post);
  }
}
