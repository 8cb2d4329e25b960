/**
 * The cart service: list, add-or-increment, set quantity and remove, each
 * behind the access gate and scoped to the user id the gate yields.
 *
 * Each route is first a function from the stored lines (and the next fresh
 * document id) to the new lines and the reply; the `CartStore` class holds
 * the lines and its methods carry out the same routes in place. The store
 * is a sequence in insertion order, and a query is taken to return lines in
 * that order; the code asks for no sort, so this is a choice of the model.
 */
module CartRoutes {
  import opened Values
  import opened UserSchema
  import opened CartSchema
  import opened Validation
  import opened AuthGate

  const Ok := 200
  const Created := 201
  const BadRequest := 400
  const NotFound := 404
  const ServerError := 500

  const QuantityUpdated := "Cart item quantity updated"
  const ItemAdded := "Item added to cart"
  const AddFailed := "Error adding item to cart"
  const QuantityAtLeastOne := "Quantity must be atleast 1"
  const ItemNotFound := "Cart item not found"
  const ItemUpdated := "Cart item updated"
  const UpdateFailed := "Error updating cart item"
  const ItemRemoved := "Item removed from cart"

  /** The JSON reply of a route. */
  datatype Reply =
    | Fail(status: int, message: string)
    | ItemReply(status: int, message: string, item: CartLine)
    | ListReply(count: int, total: int, items: seq<CartLine>)
    | Removed(message: string)

  /** The store after a route, and its reply. */
  datatype Outcome = Outcome(lines: seq<CartLine>, nextId: LineId, reply: Reply)

  // ---------------------------------------------------------------------
  // Queries on the store

  /** `Cart.find({ userId })`: the user's lines, in store order. */
  function Owned(lines: seq<CartLine>, userId: UserId): (r: seq<CartLine>)
    ensures |r| <= |lines|
    ensures forall k :: 0 <= k < |r| ==> r[k].userId == userId
  {
    if lines == [] then []
    else (if lines[0].userId == userId then [lines[0]] else []) + Owned(lines[1..], userId)
  }

  /** A line is listed exactly when it is in the store and belongs to the user. */
  lemma {:induction false} OwnedMembers(lines: seq<CartLine>, userId: UserId)
    ensures forall l :: l in Owned(lines, userId) <==> l in lines && l.userId == userId
  {
    if lines != [] {
      OwnedMembers(lines[1..], userId);
      assert lines == [lines[0]] + lines[1..];
    }
  }

  /** `Cart.findOne({ userId, productId })`: the position of the matching line. */
  function FindPair(lines: seq<CartLine>, userId: UserId, productId: int): (r: Option<nat>)
    ensures r.Some? ==> r.value < |lines| && lines[r.value].userId == userId && lines[r.value].productId == productId
    ensures r.Some? ==> forall k :: 0 <= k < r.value ==> lines[k].userId != userId || lines[k].productId != productId
    ensures r.None? ==> forall i :: 0 <= i < |lines| ==> lines[i].userId != userId || lines[i].productId != productId
  {
    if lines == [] then None
    else if lines[0].userId == userId && lines[0].productId == productId then Some(0)
    else match FindPair(lines[1..], userId, productId)
      case None => None
      case Some(i) => Some(i + 1)
  }

  /** `Cart.findOne({ _id, userId })`: the position of the line with this id, if this user owns it. */
  function FindLine(lines: seq<CartLine>, id: LineId, userId: UserId): (r: Option<nat>)
    ensures r.Some? ==> r.value < |lines| && lines[r.value].id == id && lines[r.value].userId == userId
    ensures r.Some? ==> forall k :: 0 <= k < r.value ==> lines[k].id != id || lines[k].userId != userId
    ensures r.None? ==> forall i :: 0 <= i < |lines| ==> lines[i].id != id || lines[i].userId != userId
  {
    if lines == [] then None
    else if lines[0].id == id && lines[0].userId == userId then Some(0)
    else match FindLine(lines[1..], id, userId)
      case None => None
      case Some(i) => Some(i + 1)
  }

  /** The `reduce` of the list route: `sum + price * quantity` from the left, starting at `acc`. */
  function SumFrom(acc: int, items: seq<CartLine>): int
    decreases |items|
  {
    if items == [] then acc else SumFrom(acc + items[0].price * items[0].quantity, items[1..])
  }

  /** The cart total, before the route rounds it for display. */
  function Total(items: seq<CartLine>): int
  {
    SumFrom(0, items)
  }

  /** The quantity held for a (user, product) pair; 0 when there is no line. */
  function PairQuantity(lines: seq<CartLine>, userId: UserId, productId: int): int
  {
    match FindPair(lines, userId, productId)
    case None => 0
    case Some(i) => lines[i].quantity
  }

  // ---------------------------------------------------------------------
  // The routes as functions of the store

  /**
   * The amount `cartItem.quantity += quantity` adds, after the `quantity = 1`
   * default (which applies only to an undefined quantity): a validated
   * number adds itself, and any other falsy value adds nothing (null and
   * false count as 0, and "" turns the sum into a string the store casts back).
   */
  function Increment(quantity: Value): (r: int)
    requires QuantityAccepted(quantity)
    ensures r >= 0
    ensures quantity == Undefined ==> r == DefaultQuantity
    ensures quantity.Num? ==> r == quantity.n
    ensures r == 0 <==> !Truthy(quantity) && quantity != Undefined
  {
    match quantity
    case Undefined => DefaultQuantity
    case Num(n) => n
    case _ => 0
  }

  /** The add handler, reached once the body has passed validation. */
  function AddItem(lines: seq<CartLine>, nextId: LineId, userId: UserId, body: CartItemBody): (r: Outcome)
    requires ValidateCartItem(body) == None
    ensures r.reply.ItemReply? || r == Outcome(lines, nextId, Fail(ServerError, AddFailed))
    ensures r.reply.ItemReply? ==>
      && r.reply.item.userId == userId && r.reply.item in r.lines && r.nextId >= nextId
  {
    match CastNumber(body.productId)
    case Cast(p) =>
      (match FindPair(lines, userId, p)
       case Some(i) =>
         var line := lines[i].(quantity := lines[i].quantity + Increment(body.quantity));
         assert lines[i := line][i] == line;
         Outcome(lines[i := line], nextId, ItemReply(Ok, QuantityUpdated, line))
       case None =>
         match NewLine(nextId, userId, body.productId, body.title, body.price, body.image, body.quantity)
         case Success(line) =>
           assert (lines + [line])[|lines|] == line;
           Outcome(lines + [line], nextId + 1, ItemReply(Created, ItemAdded, line))
         case Failure(_) => Outcome(lines, nextId, Fail(ServerError, AddFailed)))
    case _ => Outcome(lines, nextId, Fail(ServerError, AddFailed))
  }

  /** POST /api/cart: gate, validation, handler. */
  function PostCart(lines: seq<CartLine>, nextId: LineId, header: Option<string>,
                    verify: string -> Option<UserId>, body: CartItemBody): (r: Outcome)
    ensures r.reply.Fail? ==> r.lines == lines && r.nextId == nextId
    ensures r.reply.ItemReply? || r.reply.Fail?
  {
    match Authenticate(header, verify)
    case Denied(m) => Outcome(lines, nextId, Fail(Unauthorized, m))
    case Granted(userId) =>
      match ValidateCartItem(body)
      case Some(m) => Outcome(lines, nextId, Fail(BadRequest, m))
      case None => AddItem(lines, nextId, userId, body)
  }

  /** The update handler: guard on the quantity, owner-filtered lookup, absolute set. */
  function UpdateItem(lines: seq<CartLine>, nextId: LineId, userId: UserId, id: LineId, quantity: Value): (r: Outcome)
    ensures r.nextId == nextId && |r.lines| == |lines|
    ensures r.reply.ItemReply? || r.lines == lines
    ensures r.reply.ItemReply? ==>
      && r.reply.item.id == id && r.reply.item.userId == userId
      && r.reply.item.quantity >= MinQuantity && r.reply.item in r.lines
  {
    if !Truthy(quantity) || LessThan(quantity, 1) then Outcome(lines, nextId, Fail(BadRequest, QuantityAtLeastOne))
    else match FindLine(lines, id, userId)
      case None => Outcome(lines, nextId, Fail(NotFound, ItemNotFound))
      case Some(i) =>
        match CastNumber(quantity)
        case Cast(n) =>
          if n < MinQuantity then Outcome(lines, nextId, Fail(ServerError, UpdateFailed))
          else
            var line := lines[i].(quantity := n);
            assert lines[i := line][i] == line;
            Outcome(lines[i := line], nextId, ItemReply(Ok, ItemUpdated, line))
        case _ => Outcome(lines, nextId, Fail(ServerError, UpdateFailed))
  }

  /** PUT /api/cart/:id: gate, handler. */
  function PutCart(lines: seq<CartLine>, nextId: LineId, header: Option<string>,
                   verify: string -> Option<UserId>, id: LineId, quantity: Value): (r: Outcome)
    ensures r.nextId == nextId && |r.lines| == |lines|
    ensures r.reply.Fail? ==> r.lines == lines
  {
    match Authenticate(header, verify)
    case Denied(m) => Outcome(lines, nextId, Fail(Unauthorized, m))
    case Granted(userId) => UpdateItem(lines, nextId, userId, id, quantity)
  }

  /** The remove handler: `findOneAndDelete({ _id, userId })`. */
  function RemoveItem(lines: seq<CartLine>, nextId: LineId, userId: UserId, id: LineId): (r: Outcome)
    ensures r.nextId == nextId
    ensures r.reply.Removed? || r == Outcome(lines, nextId, Fail(NotFound, ItemNotFound))
    ensures r.reply.Removed? ==> |r.lines| == |lines| - 1
  {
    match FindLine(lines, id, userId)
    case None => Outcome(lines, nextId, Fail(NotFound, ItemNotFound))
    case Some(i) => Outcome(lines[..i] + lines[i + 1..], nextId, Removed(ItemRemoved))
  }

  /** DELETE /api/cart/:id: gate, handler. */
  function DeleteCart(lines: seq<CartLine>, nextId: LineId, header: Option<string>,
                      verify: string -> Option<UserId>, id: LineId): (r: Outcome)
    ensures r.nextId == nextId
    ensures r.reply.Fail? ==> r.lines == lines
    ensures r.reply.Removed? ==> |r.lines| == |lines| - 1
  {
    match Authenticate(header, verify)
    case Denied(m) => Outcome(lines, nextId, Fail(Unauthorized, m))
    case Granted(userId) => RemoveItem(lines, nextId, userId, id)
  }

  // ---------------------------------------------------------------------
  // The store

  class CartStore {
    var lines: seq<CartLine>
    var nextId: LineId

    ghost predicate Valid()
      reads this
    {
      StoreInvariant(lines, nextId)
    }

    constructor ()
      ensures Valid() && lines == []
    {
      lines := [];
      nextId := 0;
    }

    /** GET /api/cart: the user's lines, their number and their total. */
    method Get(header: Option<string>, verify: string -> Option<UserId>) returns (reply: Reply)
      ensures Authenticate(header, verify).Denied? ==>
        reply == Fail(Unauthorized, Authenticate(header, verify).message)
      ensures Authenticate(header, verify).Granted? ==>
        && reply.ListReply?
        && reply.items == Owned(lines, Authenticate(header, verify).userId)
        && (forall l :: l in reply.items <==> l in lines && l.userId == Authenticate(header, verify).userId)
        && reply.count == |reply.items|
        && reply.total == Total(reply.items)
    {
      var gate := Authenticate(header, verify);
      if gate.Denied? {
        return Fail(Unauthorized, gate.message);
      }
      var items := Owned(lines, gate.userId);
      OwnedMembers(lines, gate.userId);
      reply := ListReply(|items|, Total(items), items);
    }

    /** POST /api/cart. */
    method Post(header: Option<string>, verify: string -> Option<UserId>, body: CartItemBody) returns (reply: Reply)
      requires Valid()
      modifies this
      ensures Valid()
      ensures Outcome(lines, nextId, reply) == PostCart(old(lines), old(nextId), header, verify, body)
    {
      PostPreservesInvariant(lines, nextId, header, verify, body);
      var gate := Authenticate(header, verify);
      if gate.Denied? {
        return Fail(Unauthorized, gate.message);
      }
      var invalid := ValidateCartItem(body);
      if invalid.Some? {
        return Fail(BadRequest, invalid.value);
      }
      var productId := CastNumber(body.productId);
      if !productId.Cast? {
        return Fail(ServerError, AddFailed);
      }
      var found := FindPair(lines, gate.userId, productId.value);
      if found.Some? {
        var i := found.value;
        var line := lines[i].(quantity := lines[i].quantity + Increment(body.quantity));
        lines := lines[i := line];
        reply := ItemReply(Ok, QuantityUpdated, line);
      } else {
        var created := NewLine(nextId, gate.userId, body.productId, body.title, body.price, body.image, body.quantity);
        if created.Failure? {
          return Fail(ServerError, AddFailed);
        }
        lines := lines + [created.value];
        nextId := nextId + 1;
        reply := ItemReply(Created, ItemAdded, created.value);
      }
    }

    /** PUT /api/cart/:id. */
    method Put(header: Option<string>, verify: string -> Option<UserId>, id: LineId, quantity: Value) returns (reply: Reply)
      requires Valid()
      modifies this
      ensures Valid()
      ensures Outcome(lines, nextId, reply) == PutCart(old(lines), old(nextId), header, verify, id, quantity)
    {
      PutPreservesInvariant(lines, nextId, header, verify, id, quantity);
      var gate := Authenticate(header, verify);
      if gate.Denied? {
        return Fail(Unauthorized, gate.message);
      }
      if !Truthy(quantity) || LessThan(quantity, 1) {
        return Fail(BadRequest, QuantityAtLeastOne);
      }
      var found := FindLine(lines, id, gate.userId);
      if found.None? {
        return Fail(NotFound, ItemNotFound);
      }
      var cast := CastNumber(quantity);
      if !cast.Cast? || cast.value < MinQuantity {
        return Fail(ServerError, UpdateFailed);
      }
      var i := found.value;
      var line := lines[i].(quantity := cast.value);
      lines := lines[i := line];
      reply := ItemReply(Ok, ItemUpdated, line);
    }

    /** DELETE /api/cart/:id. */
    method Delete(header: Option<string>, verify: string -> Option<UserId>, id: LineId) returns (reply: Reply)
      requires Valid()
      modifies this
      ensures Valid()
      ensures Outcome(lines, nextId, reply) == DeleteCart(old(lines), old(nextId), header, verify, id)
    {
      DeletePreservesInvariant(lines, nextId, header, verify, id);
      var gate := Authenticate(header, verify);
      if gate.Denied? {
        return Fail(Unauthorized, gate.message);
      }
      var found := FindLine(lines, id, gate.userId);
      if found.None? {
        return Fail(NotFound, ItemNotFound);
      }
      var i := found.value;
      lines := lines[..i] + lines[i + 1..];
      reply := Removed(ItemRemoved);
    }
  }

  // ---------------------------------------------------------------------
  // The store invariant is kept

  lemma AddPreservesInvariant(lines: seq<CartLine>, nextId: LineId, userId: UserId, body: CartItemBody)
    requires StoreInvariant(lines, nextId)
    requires ValidateCartItem(body) == None
    ensures var r := AddItem(lines, nextId, userId, body); StoreInvariant(r.lines, r.nextId)
  {
    var r := AddItem(lines, nextId, userId, body);
    if CastNumber(body.productId).Cast? && FindPair(lines, userId, CastNumber(body.productId).value).None? {
      var p := CastNumber(body.productId).value;
      var created := NewLine(nextId, userId, body.productId, body.title, body.price, body.image, body.quantity);
      if created.Success? {
        assert r.lines == lines + [created.value];
        assert forall i :: 0 <= i < |lines| ==> r.lines[i] == lines[i];
      }
    }
  }

  lemma PostPreservesInvariant(lines: seq<CartLine>, nextId: LineId, header: Option<string>,
                               verify: string -> Option<UserId>, body: CartItemBody)
    requires StoreInvariant(lines, nextId)
    ensures var r := PostCart(lines, nextId, header, verify, body); StoreInvariant(r.lines, r.nextId)
  {
    var gate := Authenticate(header, verify);
    if gate.Granted? && ValidateCartItem(body) == None {
      AddPreservesInvariant(lines, nextId, gate.userId, body);
    }
  }

  lemma PutPreservesInvariant(lines: seq<CartLine>, nextId: LineId, header: Option<string>,
                              verify: string -> Option<UserId>, id: LineId, quantity: Value)
    requires StoreInvariant(lines, nextId)
    ensures var r := PutCart(lines, nextId, header, verify, id, quantity); StoreInvariant(r.lines, r.nextId)
  {
  }

  lemma DeletePreservesInvariant(lines: seq<CartLine>, nextId: LineId, header: Option<string>,
                                 verify: string -> Option<UserId>, id: LineId)
    requires StoreInvariant(lines, nextId)
    ensures var r := DeleteCart(lines, nextId, header, verify, id); StoreInvariant(r.lines, r.nextId)
  {
    var gate := Authenticate(header, verify);
    if gate.Granted? {
      var found := FindLine(lines, id, gate.userId);
      if found.Some? {
        RemoveLinePreservesInvariant(lines, nextId, found.value);
      }
    }
  }

  // ---------------------------------------------------------------------
  // Listing

  /** A query over a concatenation is the concatenation of the queries. */
  lemma {:induction false} OwnedAppend(a: seq<CartLine>, b: seq<CartLine>, userId: UserId)
    ensures Owned(a + b, userId) == Owned(a, userId) + Owned(b, userId)
    decreases |a|
  {
    if a == [] {
      assert a + b == b;
    } else {
      assert (a + b)[0] == a[0];
      assert (a + b)[1..] == a[1..] + b;
      OwnedAppend(a[1..], b, userId);
    }
  }

  /** A query over one line. */
  lemma OwnedSingle(l: CartLine, userId: UserId)
    ensures Owned([l], userId) == if l.userId == userId then [l] else []
  {
    assert [l][1..] == [];
  }

  /** A query over a store split around position `i`. */
  lemma OwnedSplit(lines: seq<CartLine>, i: nat, userId: UserId)
    requires i < |lines|
    ensures Owned(lines, userId) == Owned(lines[..i], userId) + Owned([lines[i]], userId) + Owned(lines[i + 1..], userId)
  {
    assert lines == lines[..i] + [lines[i]] + lines[i + 1..];
    OwnedAppend(lines[..i] + [lines[i]], lines[i + 1..], userId);
    OwnedAppend(lines[..i], [lines[i]], userId);
  }

  /** The running sum of the `reduce` only adds to its starting value. */
  lemma {:induction false} SumFromShift(acc: int, items: seq<CartLine>)
    ensures SumFrom(acc, items) == acc + Total(items)
    decreases |items|
  {
    if items != [] {
      var head := items[0].price * items[0].quantity;
      SumFromShift(acc + head, items[1..]);
      SumFromShift(head, items[1..]);
    }
  }

  /** The total is additive: the total of two runs of lines is the sum of their totals. */
  lemma {:induction false} TotalAppend(a: seq<CartLine>, b: seq<CartLine>)
    ensures Total(a + b) == Total(a) + Total(b)
    decreases |a|
  {
    if a == [] {
      assert a + b == b;
    } else {
      var head := a[0].price * a[0].quantity;
      assert (a + b)[1..] == a[1..] + b;
      calc {
        Total(a + b);
        SumFrom(head, a[1..] + b);
        { SumFromShift(head, a[1..] + b); }
        head + Total(a[1..] + b);
        { TotalAppend(a[1..], b); }
        head + Total(a[1..]) + Total(b);
        { SumFromShift(head, a[1..]); }
        Total(a) + Total(b);
      }
    }
  }

  /** The total of one line is its price times its quantity. */
  lemma TotalSingle(l: CartLine)
    ensures Total([l]) == l.price * l.quantity
  {
    assert [l][1..] == [];
    assert SumFrom(0, [l]) == SumFrom(l.price * l.quantity, []);
  }

  // ---------------------------------------------------------------------
  // Other users' lines never change

  lemma OwnedUpdateOther(lines: seq<CartLine>, i: nat, line: CartLine, userId: UserId)
    requires i < |lines| && lines[i].userId != userId && line.userId != userId
    ensures Owned(lines[i := line], userId) == Owned(lines, userId)
  {
    var updated := lines[i := line];
    assert updated[..i] == lines[..i] && updated[i + 1..] == lines[i + 1..];
    OwnedSplit(lines, i, userId);
    OwnedSplit(updated, i, userId);
    OwnedSingle(line, userId);
    OwnedSingle(lines[i], userId);
  }

  lemma OwnedRemoveOther(lines: seq<CartLine>, i: nat, userId: UserId)
    requires i < |lines| && lines[i].userId != userId
    ensures Owned(lines[..i] + lines[i + 1..], userId) == Owned(lines, userId)
  {
    var pre := Owned(lines[..i], userId);
    var post := Owned(lines[i + 1..], userId);
    OwnedSplit(lines, i, userId);
    OwnedSingle(lines[i], userId);
    assert Owned(lines, userId) == pre + [] + post;
    OwnedAppend(lines[..i], lines[i + 1..], userId);
    assert pre + [] + post == pre + post;
  }

  lemma AddIsolatesUsers(lines: seq<CartLine>, nextId: LineId, userId: UserId, body: CartItemBody, other: UserId)
    requires ValidateCartItem(body) == None && other != userId
    ensures Owned(AddItem(lines, nextId, userId, body).lines, other) == Owned(lines, other)
  {
    var r := AddItem(lines, nextId, userId, body);
    if CastNumber(body.productId).Cast? {
      var found := FindPair(lines, userId, CastNumber(body.productId).value);
      if found.Some? {
        OwnedUpdateOther(lines, found.value, r.reply.item, other);
      } else if r.reply.ItemReply? {
        OwnedAppend(lines, [r.reply.item], other);
        OwnedSingle(r.reply.item, other);
      }
    }
  }

  lemma UpdateIsolatesUsers(lines: seq<CartLine>, nextId: LineId, userId: UserId, id: LineId, quantity: Value, other: UserId)
    requires other != userId
    ensures Owned(UpdateItem(lines, nextId, userId, id, quantity).lines, other) == Owned(lines, other)
  {
    var r := UpdateItem(lines, nextId, userId, id, quantity);
    if r.reply.ItemReply? {
      OwnedUpdateOther(lines, FindLine(lines, id, userId).value, r.reply.item, other);
    }
  }

  lemma RemoveIsolatesUsers(lines: seq<CartLine>, nextId: LineId, userId: UserId, id: LineId, other: UserId)
    requires other != userId
    ensures Owned(RemoveItem(lines, nextId, userId, id).lines, other) == Owned(lines, other)
  {
    var found := FindLine(lines, id, userId);
    if found.Some? {
      OwnedRemoveOther(lines, found.value, other);
    }
  }

  /**
   * Ownership isolation: whatever a request does, the lines of every user
   * other than the one its token names are exactly as they were.
   */
  lemma RoutesIsolateUsers(lines: seq<CartLine>, nextId: LineId, header: Option<string>,
                           verify: string -> Option<UserId>, body: CartItemBody, id: LineId,
                           quantity: Value, other: UserId)
    requires Authenticate(header, verify).Granted? ==> Authenticate(header, verify).userId != other
    ensures Owned(PostCart(lines, nextId, header, verify, body).lines, other) == Owned(lines, other)
    ensures Owned(PutCart(lines, nextId, header, verify, id, quantity).lines, other) == Owned(lines, other)
    ensures Owned(DeleteCart(lines, nextId, header, verify, id).lines, other) == Owned(lines, other)
  {
    var gate := Authenticate(header, verify);
    if gate.Granted? {
      if ValidateCartItem(body) == None {
        AddIsolatesUsers(lines, nextId, gate.userId, body, other);
      }
      UpdateIsolatesUsers(lines, nextId, gate.userId, id, quantity, other);
      RemoveIsolatesUsers(lines, nextId, gate.userId, id, other);
    }
  }

  // ---------------------------------------------------------------------
  // Add: increment an existing line, or create one

  /** With a line for the pair, Add raises its quantity and changes nothing else. */
  lemma AddToExistingLine(lines: seq<CartLine>, nextId: LineId, userId: UserId, body: CartItemBody, p: int, i: nat)
    requires ValidateCartItem(body) == None
    requires CastNumber(body.productId) == Cast(p) && FindPair(lines, userId, p) == Some(i)
    ensures var r := AddItem(lines, nextId, userId, body);
      && r.nextId == nextId && |r.lines| == |lines|
      && r.reply == ItemReply(Ok, QuantityUpdated, r.lines[i])
      && r.lines[i] == lines[i].(quantity := lines[i].quantity + Increment(body.quantity))
      && (forall k :: 0 <= k < |lines| && k != i ==> r.lines[k] == lines[k])
  {
  }

  /**
   * Without a line for the pair, Add creates exactly one, at the end, with
   * the request's fields; a falsy quantity other than undefined (0, null,
   * false, "") fails the schema's `min`/`required` and stores nothing.
   */
  lemma AddCreatesLine(lines: seq<CartLine>, nextId: LineId, userId: UserId, body: CartItemBody, p: int)
    requires ValidateCartItem(body) == None
    requires CastNumber(body.productId) == Cast(p) && FindPair(lines, userId, p).None?
    ensures var r := AddItem(lines, nextId, userId, body);
      && (r.reply.ItemReply? ==>
            && r.reply.status == Created && r.lines == lines + [r.reply.item] && r.nextId == nextId + 1
            && r.reply.item.id == nextId && r.reply.item.userId == userId && r.reply.item.productId == p
            && Some(r.reply.item.price) == ToNumber(body.price)
            && CastString(body.title) == Cast(r.reply.item.title)
            && CastString(body.image) == Cast(r.reply.item.image)
            && r.reply.item.quantity == Increment(body.quantity))
      && (!r.reply.ItemReply? ==> r == Outcome(lines, nextId, Fail(ServerError, AddFailed)))
      && (Increment(body.quantity) == 0 ==> r == Outcome(lines, nextId, Fail(ServerError, AddFailed)))
      && (body.title.Str? && body.image.Str? ==> r.reply.ItemReply? || Increment(body.quantity) == 0)
  {
  }

  /** A successful Add raises the pair's quantity by the increment and leaves every other pair alone. */
  lemma AddRaisesPairQuantity(lines: seq<CartLine>, nextId: LineId, userId: UserId, body: CartItemBody, p: int,
                              otherUser: UserId, otherProduct: int)
    requires StoreInvariant(lines, nextId)
    requires ValidateCartItem(body) == None && CastNumber(body.productId) == Cast(p)
    requires AddItem(lines, nextId, userId, body).reply.ItemReply?
    requires otherUser != userId || otherProduct != p
    ensures var r := AddItem(lines, nextId, userId, body);
      && FindPair(r.lines, userId, p).Some?
      && PairQuantity(r.lines, userId, p) == PairQuantity(lines, userId, p) + Increment(body.quantity)
      && PairQuantity(r.lines, otherUser, otherProduct) == PairQuantity(lines, otherUser, otherProduct)
  {
    var r := AddItem(lines, nextId, userId, body);
    AddPreservesInvariant(lines, nextId, userId, body);
    var found := FindPair(lines, userId, p);
    var j := if found.Some? then found.value else |lines|;
    assert r.lines[j].userId == userId && r.lines[j].productId == p;
    FindPairUnique(r.lines, userId, p, j);
    var other := FindPair(lines, otherUser, otherProduct);
    if other.Some? {
      FindPairUnique(r.lines, otherUser, otherProduct, other.value);
    } else {
      assert forall k :: 0 <= k < |r.lines| ==> r.lines[k].userId != otherUser || r.lines[k].productId != otherProduct;
    }
  }

  /** Under the unique index, the only line of a pair is the one the query finds. */
  lemma FindPairUnique(lines: seq<CartLine>, userId: UserId, productId: int, i: nat)
    requires UniquePairs(lines)
    requires i < |lines| && lines[i].userId == userId && lines[i].productId == productId
    ensures FindPair(lines, userId, productId) == Some(i)
  {
  }

  /**
   * Two Adds of the same new product collapse into one line whose quantity
   * is the sum of the two increments (1 then 2 gives one line of 3).
   */
  lemma AddTwiceAccumulates(lines: seq<CartLine>, nextId: LineId, userId: UserId,
                            first: CartItemBody, second: CartItemBody, p: int)
    requires StoreInvariant(lines, nextId)
    requires ValidateCartItem(first) == None && ValidateCartItem(second) == None
    requires CastNumber(first.productId) == Cast(p) && CastNumber(second.productId) == Cast(p)
    requires FindPair(lines, userId, p).None?
    requires first.title.Str? && first.image.Str? && Increment(first.quantity) >= 1
    ensures var r1 := AddItem(lines, nextId, userId, first);
      var r2 := AddItem(r1.lines, r1.nextId, userId, second);
      && r1.reply.status == Created && r2.reply.status == Ok
      && |r2.lines| == |lines| + 1
      && FindPair(r2.lines, userId, p) == Some(|lines|)
      && r2.lines[|lines|].quantity == Increment(first.quantity) + Increment(second.quantity)
      && UniquePairs(r2.lines)
  {
    var r1 := AddItem(lines, nextId, userId, first);
    AddCreatesLine(lines, nextId, userId, first, p);
    AddPreservesInvariant(lines, nextId, userId, first);
    FindPairUnique(r1.lines, userId, p, |lines|);
    AddToExistingLine(r1.lines, r1.nextId, userId, second, p, |lines|);
    AddPreservesInvariant(r1.lines, r1.nextId, userId, second);
  }

  // ---------------------------------------------------------------------
  // Update: absolute set, owner-filtered

  /** A missing, falsy or below-1 quantity is refused with 400 before the store is consulted. */
  lemma UpdateRejectsBadQuantity(lines: seq<CartLine>, nextId: LineId, userId: UserId, id: LineId, quantity: Value)
    requires !Truthy(quantity) || LessThan(quantity, 1)
    ensures UpdateItem(lines, nextId, userId, id, quantity) == Outcome(lines, nextId, Fail(BadRequest, QuantityAtLeastOne))
  {
  }

  /**
   * A line id that does not exist, or that belongs to another user, is
   * answered 404 by Update (once the quantity passes) and by Remove, and
   * nothing changes: the two cases are indistinguishable.
   */
  lemma MissingOrForeignLineNotFound(lines: seq<CartLine>, nextId: LineId, userId: UserId, id: LineId, quantity: Value)
    requires forall k :: 0 <= k < |lines| && lines[k].id == id ==> lines[k].userId != userId
    ensures RemoveItem(lines, nextId, userId, id) == Outcome(lines, nextId, Fail(NotFound, ItemNotFound))
    ensures Truthy(quantity) && !LessThan(quantity, 1) ==>
      UpdateItem(lines, nextId, userId, id, quantity) == Outcome(lines, nextId, Fail(NotFound, ItemNotFound))
  {
  }

  /**
   * Past the guard, the store's `min: 1` can never fire, because the guard
   * compares the same number the cast yields: Update answers 500 only for a
   * quantity the store cannot cast (a non-numeric string or an object).
   */
  lemma UpdateFailsOnlyOnCast(lines: seq<CartLine>, nextId: LineId, userId: UserId, id: LineId, quantity: Value)
    ensures UpdateItem(lines, nextId, userId, id, quantity).reply == Fail(ServerError, UpdateFailed) <==>
      && Truthy(quantity) && !LessThan(quantity, 1)
      && FindLine(lines, id, userId).Some?
      && !CastNumber(quantity).Cast?
  {
    if CastNumber(quantity).Cast? {
      CastAgreesWithToNumber(quantity);
    }
  }

  /** Update sets the quantity to exactly the given value; every other line is as it was. */
  lemma UpdateSetsQuantity(lines: seq<CartLine>, nextId: LineId, userId: UserId, id: LineId, n: int)
    requires n >= MinQuantity && FindLine(lines, id, userId).Some?
    ensures var i := FindLine(lines, id, userId).value;
      var r := UpdateItem(lines, nextId, userId, id, Num(n));
      && r.reply == ItemReply(Ok, ItemUpdated, r.lines[i])
      && r.lines == lines[i := lines[i].(quantity := n)]
  {
  }

  /** The owner-filtered lookup still finds a line whose quantity alone was changed. */
  lemma FindLineAfterSet(lines: seq<CartLine>, id: LineId, userId: UserId, n: int)
    requires FindLine(lines, id, userId).Some?
    ensures var i := FindLine(lines, id, userId).value;
      FindLine(lines[i := lines[i].(quantity := n)], id, userId) == Some(i)
  {
    var i := FindLine(lines, id, userId).value;
    var updated := lines[i := lines[i].(quantity := n)];
    var j := FindLine(updated, id, userId);
    assert updated[i].id == id && updated[i].userId == userId;
    assert j.Some?;
    assert forall k :: 0 <= k < i ==> updated[k] == lines[k];
  }

  /** Repeating the same Update gives the same store and the same reply. */
  lemma UpdateIdempotent(lines: seq<CartLine>, nextId: LineId, userId: UserId, id: LineId, quantity: Value)
    ensures var r1 := UpdateItem(lines, nextId, userId, id, quantity);
      var r2 := UpdateItem(r1.lines, r1.nextId, userId, id, quantity);
      r2 == r1
  {
    var r1 := UpdateItem(lines, nextId, userId, id, quantity);
    if r1.reply.ItemReply? {
      FindLineAfterSet(lines, id, userId, CastNumber(quantity).value);
      var i := FindLine(lines, id, userId).value;
      assert r1.lines[i := r1.lines[i].(quantity := CastNumber(quantity).value)] == r1.lines;
    } else {
      assert r1.lines == lines;
    }
  }

  // ---------------------------------------------------------------------
  // Remove

  /** Remove deletes exactly the matched line and keeps the others in order. */
  lemma RemoveDeletesLine(lines: seq<CartLine>, nextId: LineId, userId: UserId, id: LineId)
    requires FindLine(lines, id, userId).Some?
    ensures var i := FindLine(lines, id, userId).value;
      var r := RemoveItem(lines, nextId, userId, id);
      && r.reply == Removed(ItemRemoved)
      && r.lines == lines[..i] + lines[i + 1..]
      && multiset(r.lines) + multiset{lines[i]} == multiset(lines)
  {
    var i := FindLine(lines, id, userId).value;
    assert lines == lines[..i] + [lines[i]] + lines[i + 1..];
  }

  /** Ids are unique, so once a line is removed a second Remove of its id answers 404. */
  lemma RemoveTwiceNotFound(lines: seq<CartLine>, nextId: LineId, userId: UserId, id: LineId)
    requires UniqueIds(lines)
    requires FindLine(lines, id, userId).Some?
    ensures var r := RemoveItem(lines, nextId, userId, id);
      RemoveItem(r.lines, r.nextId, userId, id) == Outcome(r.lines, r.nextId, Fail(NotFound, ItemNotFound))
  {
    var i := FindLine(lines, id, userId).value;
    var rest := lines[..i] + lines[i + 1..];
    forall k | 0 <= k < |rest| ensures rest[k].id != id {
      if k < i {
        assert rest[k] == lines[k];
      } else {
        assert rest[k] == lines[k + 1];
      }
    }
  }

  // ---------------------------------------------------------------------
  // The listed total follows every change

  /** The user's total over a store split around position `i`. */
  lemma TotalOwnedSplit(lines: seq<CartLine>, i: nat, userId: UserId)
    requires i < |lines| && lines[i].userId == userId
    ensures Total(Owned(lines, userId))
         == Total(Owned(lines[..i], userId)) + lines[i].price * lines[i].quantity + Total(Owned(lines[i + 1..], userId))
  {
    OwnedSplit(lines, i, userId);
    OwnedSingle(lines[i], userId);
    TotalAppend(Owned(lines[..i], userId) + [lines[i]], Owned(lines[i + 1..], userId));
    TotalAppend(Owned(lines[..i], userId), [lines[i]]);
    TotalSingle(lines[i]);
  }

  lemma TotalOwnedUpdate(lines: seq<CartLine>, i: nat, line: CartLine, userId: UserId)
    requires i < |lines| && lines[i].userId == userId && line.userId == userId
    ensures Total(Owned(lines[i := line], userId))
         == Total(Owned(lines, userId)) - lines[i].price * lines[i].quantity + line.price * line.quantity
  {
    var updated := lines[i := line];
    assert updated[..i] == lines[..i] && updated[i + 1..] == lines[i + 1..];
    TotalOwnedSplit(lines, i, userId);
    TotalOwnedSplit(updated, i, userId);
  }

  lemma Distribute(a: int, b: int, c: int)
    ensures a * (b + c) == a * b + a * c
  {
  }

  lemma AddMovesTotal(lines: seq<CartLine>, nextId: LineId, userId: UserId, body: CartItemBody)
    requires ValidateCartItem(body) == None
    ensures var r := AddItem(lines, nextId, userId, body);
      r.reply.ItemReply? ==>
        Total(Owned(r.lines, userId)) == Total(Owned(lines, userId)) + r.reply.item.price * Increment(body.quantity)
  {
    var r := AddItem(lines, nextId, userId, body);
    if r.reply.ItemReply? {
      var item := r.reply.item;
      var inc := Increment(body.quantity);
      var found := FindPair(lines, userId, CastNumber(body.productId).value);
      if found.Some? {
        var i := found.value;
        assert r.lines == lines[i := item];
        assert item == lines[i].(quantity := lines[i].quantity + inc);
        TotalOwnedUpdate(lines, i, item, userId);
        Distribute(item.price, lines[i].quantity, inc);
      } else {
        assert r.lines == lines + [item];
        assert item.quantity == inc;
        OwnedAppend(lines, [item], userId);
        OwnedSingle(item, userId);
        TotalAppend(Owned(lines, userId), [item]);
        TotalSingle(item);
      }
    }
  }

  lemma UpdateMovesTotal(lines: seq<CartLine>, nextId: LineId, userId: UserId, id: LineId, quantity: Value)
    ensures var r := UpdateItem(lines, nextId, userId, id, quantity);
      r.reply.ItemReply? ==>
        var was := lines[FindLine(lines, id, userId).value];
        Total(Owned(r.lines, userId)) == Total(Owned(lines, userId)) - was.price * was.quantity + was.price * r.reply.item.quantity
  {
    var r := UpdateItem(lines, nextId, userId, id, quantity);
    if r.reply.ItemReply? {
      var i := FindLine(lines, id, userId).value;
      assert r.lines == lines[i := r.reply.item];
      TotalOwnedUpdate(lines, i, r.reply.item, userId);
    }
  }

  lemma RemoveMovesTotal(lines: seq<CartLine>, nextId: LineId, userId: UserId, id: LineId)
    requires FindLine(lines, id, userId).Some?
    ensures var gone := lines[FindLine(lines, id, userId).value];
      Total(Owned(RemoveItem(lines, nextId, userId, id).lines, userId)) == Total(Owned(lines, userId)) - gone.price * gone.quantity
  {
    var i := FindLine(lines, id, userId).value;
    TotalOwnedSplit(lines, i, userId);
    OwnedAppend(lines[..i], lines[i + 1..], userId);
    TotalAppend(Owned(lines[..i], userId), Owned(lines[i + 1..], userId));
  }
}
