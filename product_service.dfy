/** The parts of `ProductService` the validators and the cart serve: turning
    rule keys into messages, converting an accepted submission into a
    product, and deleting a product from the catalogue and from the cart. */
module ProductServices {
  import opened Wrappers
  import opened Entities
  import opened NumberParsing
  import opened Validation
  import opened ProductPriceValidation
  import opened ProductStockValidation
  import opened ProductValidator
  import opened Carts

  /** The localizer's message for a key: the configured text, or the key's
      own name when no text is configured for it. */
  function Localize(messages: map<Key, string>, k: Key): string {
    if k in messages then messages[k] else KeyName(k)
  }

  /** `CheckProductModelErrors`: one message per failing rule, in the
      validator's order, each the localized text of its key. */
  function CheckProductModelErrors(s: Submission, messages: map<Key, string>): (r: seq<string>)
    ensures |r| == |Validate(s)|
    ensures forall i :: 0 <= i < |r| ==> r[i] == Localize(messages, Validate(s)[i])
    ensures r == [] <==> IsAcceptable(s)
  {
    var keys := Validate(s);
    seq(|keys|, i requires 0 <= i < |keys| => Localize(messages, keys[i]))
  }

  /** The missing-name unit test, for any valid price and stock: a missing
      name reports the MissingName message and nothing else. */
  lemma MissingNameMessage(s: Submission, messages: map<Key, string>)
    requires !NotEmpty(s.name) && IsPositiveNumber(s.price) && IsPositiveInteger(s.stock)
    ensures CheckProductModelErrors(s, messages) == [Localize(messages, MissingName)]
  {
    assert Validate(s) == [MissingName];
  }

  /** The product `SaveProduct` stores for an accepted submission, before the
      store assigns its id: the parsed price and stock, both positive, so the
      catalogue's invariant (price > 0, stock >= 0) holds. */
  function ToProduct(s: Submission): (p: Product)
    requires Validate(s) == []
    ensures p.name == s.name.value
    ensures ParseDouble(s.price.value) == Some(p.price) && p.price > 0.0
    ensures ParseInt(s.stock.value) == Some(p.stock) && p.stock > 0
  {
    Product(0, s.name.value, DoubleParse(s.price.value), ParseInt(s.stock.value).value)
  }

  /** Every cart line refers to a product of the catalogue. */
  ghost predicate CartMatchesCatalog(catalog: map<int, Product>, lines: seq<CartLine>) {
    forall k :: 0 <= k < |lines| ==> lines[k].product.id in catalog
  }

  /** Deleting a product from the catalogue and its lines from the cart keeps
      every remaining line pointing at a catalogue product, and leaves no line
      for the deleted id. */
  lemma DeleteKeepsCartMatching(catalog: map<int, Product>, lines: seq<CartLine>, id: int)
    requires CartMatchesCatalog(catalog, lines)
    ensures CartMatchesCatalog(catalog - {id}, Removed(lines, id))
    ensures forall k :: 0 <= k < |Removed(lines, id)| ==> Removed(lines, id)[k].product.id != id
  {
    var r := Removed(lines, id);
    forall k | 0 <= k < |r|
      ensures r[k].product.id in catalog - {id}
    {
      assert r[k] in lines;
      var m :| 0 <= m < |lines| && lines[m] == r[k];
    }
  }

  /** The service: the catalogue repository, as a map from id to product,
      and the session's cart. */
  class ProductService {
    var catalog: map<int, Product>
    const cart: Cart

    ghost predicate Valid()
      reads this
    {
      forall id :: id in catalog ==> catalog[id].id == id
    }

    constructor (cart: Cart, catalog: map<int, Product>)
      requires forall id :: id in catalog ==> catalog[id].id == id
      ensures Valid() && this.cart == cart && this.catalog == catalog
    {
      this.cart := cart;
      this.catalog := catalog;
    }

    /** Removes the product from the catalogue, then its lines from the cart.
        An id the catalogue does not hold changes nothing. */
    method DeleteProduct(id: int)
      requires Valid() && cart.Valid()
      modifies this, cart
      ensures Valid() && cart.Valid()
      ensures catalog == old(catalog) - {id}
      ensures id in old(catalog) ==> cart.lines == Removed(old(cart.lines), id)
      ensures id !in old(catalog) ==> cart.lines == old(cart.lines)
      ensures CartMatchesCatalog(old(catalog), old(cart.lines)) ==> CartMatchesCatalog(catalog, cart.lines)
    {
      if id in catalog {
        var product := catalog[id];
        if CartMatchesCatalog(catalog, cart.lines) {
          DeleteKeepsCartMatching(catalog, cart.lines, id);
        }
        catalog := catalog - {id};
        cart.RemoveLine(product);
      }
    }
  }
}
