/**
 * The cart-line record: one product in one user's cart. Every field is
 * required, the quantity defaults to 1 and is at least 1, and a compound
 * unique index allows at most one line per (user, product) pair.
 */
module CartSchema {
  import opened Values
  import opened UserSchema

  type LineId = nat

  datatype CartLine = CartLine(
    id: LineId,
    userId: UserId,
    productId: int,
    title: string,
    price: int,
    image: string,
    quantity: int)

  const DefaultQuantity := 1
  const MinQuantity := 1

  /** The compound unique index on (userId, productId). */
  predicate UniquePairs(lines: seq<CartLine>)
  {
    forall i, j :: 0 <= i < j < |lines| ==>
      lines[i].userId != lines[j].userId || lines[i].productId != lines[j].productId
  }

  /** Document ids are unique. */
  predicate UniqueIds(lines: seq<CartLine>)
  {
    forall i, j :: 0 <= i < j < |lines| ==> lines[i].id != lines[j].id
  }

  /** What the schema's validators guarantee of every saved line. */
  predicate StoredLine(l: CartLine)
  {
    l.quantity >= MinQuantity && l.title != "" && l.image != ""
  }

  /** The store's invariant; `nextId` is the next fresh document id. */
  predicate StoreInvariant(lines: seq<CartLine>, nextId: LineId)
  {
    && UniquePairs(lines)
    && UniqueIds(lines)
    && (forall i :: 0 <= i < |lines| ==> StoredLine(lines[i]) && lines[i].id < nextId)
  }

  /** Deleting one line keeps the invariant. */
  lemma RemoveLinePreservesInvariant(lines: seq<CartLine>, nextId: LineId, i: nat)
    requires StoreInvariant(lines, nextId) && i < |lines|
    ensures StoreInvariant(lines[..i] + lines[i + 1..], nextId)
  {
    var rest := lines[..i] + lines[i + 1..];
    assert forall k {:trigger rest[k]} :: 0 <= k < |rest| ==> rest[k] == lines[if k < i then k else k + 1];
    forall a, b | 0 <= a < b < |rest|
      ensures rest[a].id != rest[b].id
      ensures rest[a].userId != rest[b].userId || rest[a].productId != rest[b].productId
    {
      var a' := if a < i then a else a + 1;
      var b' := if b < i then b else b + 1;
      assert rest[a] == lines[a'] && rest[b] == lines[b'] && a' < b';
    }
  }

  /** A required Number path. */
  function RequiredNumber(path: string, v: Value): (r: Result<int, SchemaError>)
    ensures r.Success? <==> CastNumber(v).Cast?
    ensures r.Success? ==> r.value == CastNumber(v).value
  {
    match CastNumber(v)
    case Missing => Failure(Required(path))
    case CastFailed => Failure(CastError(path))
    case Cast(n) => Success(n)
  }

  /** A required String path; the empty string counts as missing. */
  function RequiredString(path: string, v: Value): (r: Result<string, SchemaError>)
    ensures r.Success? <==> CastString(v).Cast? && CastString(v).value != ""
    ensures r.Success? ==> r.value == CastString(v).value
  {
    match CastString(v)
    case Missing => Failure(Required(path))
    case CastFailed => Failure(CastError(path))
    case Cast(s) => if s == "" then Failure(Required(path)) else Success(s)
  }

  /**
   * Building and validating a new line from request values: the casts,
   * the quantity default (applied only when the value is undefined), the
   * `required` validators and `min: 1` on the quantity.
   */
  /** The quantity path's `default: 1`, which applies only to an undefined value. */
  function WithDefaultQuantity(quantity: Value): Value
  {
    if quantity == Undefined then Num(DefaultQuantity) else quantity
  }

  function NewLine(id: LineId, userId: UserId, productId: Value, title: Value, price: Value,
                   image: Value, quantity: Value): (r: Result<CartLine, SchemaError>)
    ensures r.Success? <==>
      && CastNumber(productId).Cast? && CastNumber(price).Cast?
      && CastString(title).Cast? && CastString(title).value != ""
      && CastString(image).Cast? && CastString(image).value != ""
      && CastNumber(WithDefaultQuantity(quantity)).Cast?
      && CastNumber(WithDefaultQuantity(quantity)).value >= MinQuantity
    ensures r.Success? ==> CastNumber(WithDefaultQuantity(quantity)) == Cast(r.value.quantity)
    ensures r.Success? ==> StoredLine(r.value) && r.value.id == id && r.value.userId == userId
    ensures r.Success? ==> CastNumber(productId) == Cast(r.value.productId) && CastNumber(price) == Cast(r.value.price)
    ensures r.Success? ==> CastString(title) == Cast(r.value.title) && CastString(image) == Cast(r.value.image)
    ensures r.Success? && quantity == Undefined ==> r.value.quantity == DefaultQuantity
    ensures r.Success? && quantity.Num? ==> r.value.quantity == quantity.n
    ensures (|| productId in {Undefined, Null} || title in {Undefined, Null, Str("")} || price in {Undefined, Null}
             || image in {Undefined, Null, Str("")} || quantity == Null) ==> r.Failure?
    ensures quantity.Num? && quantity.n < MinQuantity ==> r.Failure?
  {
    var q := WithDefaultQuantity(quantity);
    var p :- RequiredNumber("productId", productId);
    var t :- RequiredString("title", title);
    var c :- RequiredNumber("price", price);
    var i :- RequiredString("image", image);
    var n :- RequiredNumber("quantity", q);
    if n < MinQuantity then Failure(BelowMin("quantity"))
    else Success(CartLine(id, userId, p, t, c, i, n))
  }
}
