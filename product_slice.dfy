/**
 * The client's product catalogue state: the list the product route
 * returns, a loading flag and the last error. The request thunk is left
 * out; the reducers update the state in place.
 */
module ProductSlice {
  import opened Values

  /** A catalogue entry; the price is kept in cents. */
  datatype Product = Product(id: int, title: string, price: int, category: string, thumbnail: string)

  class ProductState {
    var items: seq<Product>
    var loading: bool
    var error: Option<string>

    constructor ()
      ensures items == [] && !loading && error == None
    {
      items := [];
      loading := false;
      error := None;
    }

    method Pending()
      modifies this
      ensures loading && error == None && items == old(items)
    {
      loading := true;
      error := None;
    }

    method Fulfilled(payload: seq<Product>)
      modifies this
      ensures !loading && items == payload && error == old(error)
    {
      loading := false;
      items := payload;
    }

    method Rejected(payload: string)
      modifies this
      ensures !loading && error == Some(payload) && items == old(items)
    {
      loading := false;
      error := Some(payload);
    }
  }
}
