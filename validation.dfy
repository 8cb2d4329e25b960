/**
 * Request-body validators. Each is an ordered chain of guards that answers
 * 400 with the first failing guard's message; `None` means every guard
 * passed and the request goes on to the route handler unchanged.
 */
module Validation {
  import opened Values

  const ProductIdRequired := "productId is required"
  const TitleRequired := "title is required"
  const PriceRequired := "price is required and must be a number"
  const ImageRequired := "image is required"
  const QuantityNotPositive := "quantity must be a positive number"

  const EmailRequired := "email is required"
  const EmailInvalid := "please enter a valid email"
  const PasswordTooShort := "password must be atleast 6 characters"
  const NameRequired := "name is required"
  const PasswordRequired := "password is required"

  const MinPasswordLength := 6

  /** The body of an add-to-cart request. */
  datatype CartItemBody = CartItemBody(productId: Value, title: Value, price: Value, image: Value, quantity: Value)

  /** The price guard: falsy or not of type number is refused. */
  predicate PriceAccepted(price: Value)
  {
    Truthy(price) && price.Num?
  }

  /** The quantity guard, which only looks at a truthy quantity. */
  predicate QuantityAccepted(quantity: Value)
  {
    !Truthy(quantity) || (quantity.Num? && quantity.n >= 1)
  }

  /** validateCartItem: productId, title, price, image, quantity, in that order. */
  function ValidateCartItem(body: CartItemBody): (r: Option<string>)
    ensures r == None <==>
      && Truthy(body.productId) && Truthy(body.title) && PriceAccepted(body.price)
      && Truthy(body.image) && QuantityAccepted(body.quantity)
    ensures r == Some(ProductIdRequired) <==> !Truthy(body.productId)
    ensures r == Some(TitleRequired) <==> Truthy(body.productId) && !Truthy(body.title)
    ensures r == Some(PriceRequired) <==>
      Truthy(body.productId) && Truthy(body.title) && !PriceAccepted(body.price)
    ensures r == Some(ImageRequired) <==>
      Truthy(body.productId) && Truthy(body.title) && PriceAccepted(body.price) && !Truthy(body.image)
    ensures r == Some(QuantityNotPositive) <==>
      && Truthy(body.productId) && Truthy(body.title) && PriceAccepted(body.price)
      && Truthy(body.image) && !QuantityAccepted(body.quantity)
  {
    if !Truthy(body.productId) then Some(ProductIdRequired)
    else if !Truthy(body.title) then Some(TitleRequired)
    else if !Truthy(body.price) || !body.price.Num? then Some(PriceRequired)
    else if !Truthy(body.image) then Some(ImageRequired)
    else if Truthy(body.quantity) && (!body.quantity.Num? || body.quantity.n < 1) then Some(QuantityNotPositive)
    else None
  }

  /** A price of 0 is refused, but any negative number passes. */
  lemma PriceGuardQuirks(body: CartItemBody)
    requires Truthy(body.productId) && Truthy(body.title)
    ensures body.price == Num(0) ==> ValidateCartItem(body) == Some(PriceRequired)
    ensures body.price.Num? && body.price.n < 0 ==> ValidateCartItem(body) != Some(PriceRequired)
  {
  }

  /** A quantity of 0 (or any falsy quantity) skips the quantity guard. */
  lemma QuantityGuardQuirks(body: CartItemBody)
    requires !Truthy(body.quantity)
    ensures ValidateCartItem(body) != Some(QuantityNotPositive)
  {
  }

  /**
   * validateRegister over string fields (a missing field is the empty
   * string, which JavaScript treats the same way): email, an '@' in it,
   * a password of at least six characters, a name.
   */
  function ValidateRegister(email: string, password: string, name: string): (r: Option<string>)
    ensures r == None <==> email != "" && '@' in email && |password| >= MinPasswordLength && name != ""
    ensures r == Some(EmailRequired) <==> email == ""
    ensures r == Some(EmailInvalid) <==> email != "" && '@' !in email
    ensures r == Some(PasswordTooShort) <==> '@' in email && |password| < MinPasswordLength
    ensures r == Some(NameRequired) <==> '@' in email && |password| >= MinPasswordLength && name == ""
  {
    if email == "" then Some(EmailRequired)
    else if '@' !in email then Some(EmailInvalid)
    else if password == "" || |password| < MinPasswordLength then Some(PasswordTooShort)
    else if name == "" then Some(NameRequired)
    else None
  }

  /** validateLogin: an email, then a password. */
  function ValidateLogin(email: string, password: string): (r: Option<string>)
    ensures r == None <==> email != "" && password != ""
    ensures r == Some(EmailRequired) <==> email == ""
    ensures r == Some(PasswordRequired) <==> email != "" && password == ""
  {
    if email == "" then Some(EmailRequired)
    else if password == "" then Some(PasswordRequired)
    else None
  }
}
