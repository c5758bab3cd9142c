/** The shopping cart (`Models/Cart.cs`): an ordered list of lines, each a
    product and a requested quantity, that the cart updates in place. */
module Carts {
  import opened Wrappers
  import opened Entities

  /** One cart line. The product is the one passed to the `AddItem` call that
      created the line; a later merge changes only the quantity. */
  datatype CartLine = CartLine(product: Product, quantity: int)

  /** The value of one line: quantity times unit price. */
  function LineValue(line: CartLine): real {
    line.quantity as real * line.product.price
  }

  /** The cart's invariant: at most one line per product id. */
  ghost predicate UniqueIds(lines: seq<CartLine>) {
    forall i, j :: 0 <= i < j < |lines| ==> lines[i].product.id != lines[j].product.id
  }

  /** `FirstOrDefault(l => l.Product.Id == id)`, as an index: the first line
      with that product id, or None when there is none. */
  function FindIndex(lines: seq<CartLine>, id: int): (r: Option<nat>)
    ensures r.Some? ==> r.value < |lines| && lines[r.value].product.id == id
    ensures forall j :: 0 <= j < |lines| && (r.None? || j < r.value) ==> lines[j].product.id != id
  {
    if lines == [] then None
    else if lines[0].product.id == id then Some(0)
    else match FindIndex(lines[1..], id)
      case None => None
      case Some(k) => Some(k + 1)
  }

  /** The lines after `AddItem(product, quantity)`: a new last line when no
      line has the product's id; otherwise the existing line grows by
      `quantity`, but only when the product's stock exceeds that line's
      current quantity. */
  function Added(lines: seq<CartLine>, product: Product, quantity: int): seq<CartLine> {
    match FindIndex(lines, product.id)
    case None => lines + [CartLine(product, quantity)]
    case Some(k) =>
      if product.stock > lines[k].quantity
      then lines[k := lines[k].(quantity := lines[k].quantity + quantity)]
      else lines
  }

  /** `RemoveAll(l => l.Product.Id == id)`: the lines whose product id differs. */
  function Removed(lines: seq<CartLine>, id: int): (r: seq<CartLine>)
    ensures forall k :: 0 <= k < |r| ==> r[k].product.id != id
    ensures forall line :: line in r <==> line in lines && line.product.id != id
  {
    if lines == [] then []
    else (if lines[0].product.id == id then [] else [lines[0]]) + Removed(lines[1..], id)
  }

  /** The sum of the line values, added up from the first line to the last. */
  function TotalValue(lines: seq<CartLine>): real {
    if lines == [] then 0.0 else TotalValue(lines[..|lines| - 1]) + LineValue(lines[|lines| - 1])
  }

  /** The sum of the line quantities, added up from the first line to the last. */
  function TotalQuantity(lines: seq<CartLine>): int {
    if lines == [] then 0 else TotalQuantity(lines[..|lines| - 1]) + lines[|lines| - 1].quantity
  }

  class Cart {
    var lines: seq<CartLine>

    ghost predicate Valid()
      reads this
    {
      UniqueIds(lines)
    }

    constructor ()
      ensures Valid() && lines == []
    {
      lines := [];
    }

    /** The search `AddItem` starts with. */
    method FindLine(id: int) returns (r: Option<nat>)
      ensures r == FindIndex(lines, id)
    {
      var i := 0;
      while i < |lines|
        invariant 0 <= i <= |lines|
        invariant forall j :: 0 <= j < i ==> lines[j].product.id != id
      {
        if lines[i].product.id == id {
          return Some(i);
        }
        i := i + 1;
      }
      return None;
    }

    method AddItem(product: Product, quantity: int)
      requires Valid()
      modifies this
      ensures Valid()
      ensures lines == Added(old(lines), product, quantity)
    {
      var found := FindLine(product.id);
      match found {
        case None =>
          lines := lines + [CartLine(product, quantity)];
        case Some(k) =>
          if product.stock > lines[k].quantity {
            lines := lines[k := lines[k].(quantity := lines[k].quantity + quantity)];
          }
      }
      AddedKeepsUnique(old(lines), product, quantity);
    }

    method RemoveLine(product: Product)
      requires Valid()
      modifies this
      ensures Valid()
      ensures lines == Removed(old(lines), product.id)
    {
      RemovedKeepsUnique(lines, product.id);
      lines := Removed(lines, product.id);
    }

    method GetTotalValue() returns (total: real)
      ensures total == TotalValue(lines)
    {
      total := 0.0;
      if |lines| > 0 {
        for i := 0 to |lines|
          invariant total == TotalValue(lines[..i])
        {
          assert lines[..i + 1][..i] == lines[..i];
          total := LineValue(lines[i]) + total;
        }
        assert lines[..|lines|] == lines;
      }
    }

    /** The quantity-weighted average unit price. The source divides by the
        quantity sum in floating point; here that sum must not be zero. */
    method GetAverageValue() returns (average: real)
      requires lines == [] || TotalQuantity(lines) != 0
      ensures lines == [] ==> average == 0.0
      ensures lines != [] ==> average == TotalValue(lines) / TotalQuantity(lines) as real
    {
      var total := 0.0;
      if |lines| > 0 {
        var count := 0;
        for i := 0 to |lines|
          invariant total == TotalValue(lines[..i])
          invariant count == TotalQuantity(lines[..i])
        {
          assert lines[..i + 1][..i] == lines[..i];
          count := count + lines[i].quantity;
          total := LineValue(lines[i]) + total;
        }
        assert lines[..|lines|] == lines;
        return total / count as real;
      }
      return total;
    }

    method Clear()
      modifies this
      ensures Valid() && lines == []
    {
      lines := [];
    }
  }

  // ---------------------------------------------------------------------------
  // AddItem

  /** A product with no line yet is appended as one new last line with the
      requested quantity, whatever the stock. */
  lemma AddedAppends(lines: seq<CartLine>, product: Product, quantity: int)
    requires forall k :: 0 <= k < |lines| ==> lines[k].product.id != product.id
    ensures Added(lines, product, quantity) == lines + [CartLine(product, quantity)]
  {
  }

  /** A product that already has line `k` either grows that line by exactly
      `quantity` (when its stock exceeds the line's current quantity) or
      leaves the cart as it is. */
  lemma AddedMerges(lines: seq<CartLine>, product: Product, quantity: int, k: nat)
    requires UniqueIds(lines)
    requires k < |lines| && lines[k].product.id == product.id
    ensures Added(lines, product, quantity)
         == if product.stock > lines[k].quantity
            then lines[k := CartLine(lines[k].product, lines[k].quantity + quantity)]
            else lines
  {
    var r := FindIndex(lines, product.id);
    assert r == Some(k);
  }

  /** AddItem never removes or reorders lines, and it changes no line other
      than the one with the product's id, and of that one only the quantity. */
  lemma AddedPreservesOthers(lines: seq<CartLine>, product: Product, quantity: int)
    ensures var r := Added(lines, product, quantity);
      && |lines| <= |r| <= |lines| + 1
      && (forall i :: 0 <= i < |lines| ==> r[i].product == lines[i].product)
      && (forall i :: 0 <= i < |lines| && lines[i].product.id != product.id ==> r[i] == lines[i])
  {
  }

  /** AddItem keeps at most one line per product id. */
  lemma AddedKeepsUnique(lines: seq<CartLine>, product: Product, quantity: int)
    requires UniqueIds(lines)
    ensures UniqueIds(Added(lines, product, quantity))
  {
    var r := Added(lines, product, quantity);
    AddedPreservesOthers(lines, product, quantity);
    forall i, j | 0 <= i < j < |r|
      ensures r[i].product.id != r[j].product.id
    {
      if j == |lines| {
        assert FindIndex(lines, product.id).None?;
      }
    }
  }

  /** Two adds of the same product id (as the cart tests do, with two equal
      product objects): one line, whose quantity is the sum when the stock
      exceeds the first quantity, and the first quantity otherwise. The line
      keeps the first product. */
  lemma AddTwice(lines: seq<CartLine>, first: Product, second: Product, q1: int, q2: int)
    requires first.id == second.id
    requires forall k :: 0 <= k < |lines| ==> lines[k].product.id != first.id
    ensures Added(Added(lines, first, q1), second, q2)
         == lines + [CartLine(first, if second.stock > q1 then q1 + q2 else q1)]
  {
    var once := Added(lines, first, q1);
    AddedAppends(lines, first, q1);
    var r := FindIndex(once, second.id);
    assert once[|lines|].product.id == second.id;
    assert r.Some?;
  }

  /** The cart test "cannot add item if more than current stock" expects an
      empty cart after adding 10 units of a product with stock 5; the cart
      as written appends the line. */
  lemma FirstAddIgnoresStock()
    ensures var p := Product(1, "Test Product 1", 10.00, 5);
      Added([], p, 10) == [CartLine(p, 10)]
  {
  }

  // ---------------------------------------------------------------------------
  // RemoveLine

  /** RemoveLine keeps the order of the remaining lines: removal distributes
      over concatenation. */
  lemma {:induction false} RemovedConcat(a: seq<CartLine>, b: seq<CartLine>, id: int)
    ensures Removed(a + b, id) == Removed(a, id) + Removed(b, id)
  {
    if a == [] {
      assert a + b == b;
    } else {
      assert (a + b)[1..] == a[1..] + b;
      RemovedConcat(a[1..], b, id);
    }
  }

  /** Removing an id no line has changes nothing. */
  lemma {:induction false} RemovedAbsent(lines: seq<CartLine>, id: int)
    requires forall k :: 0 <= k < |lines| ==> lines[k].product.id != id
    ensures Removed(lines, id) == lines
  {
    if lines != [] {
      RemovedAbsent(lines[1..], id);
    }
  }

  /** Removing twice is removing once. */
  lemma RemovedIdempotent(lines: seq<CartLine>, id: int)
    ensures Removed(Removed(lines, id), id) == Removed(lines, id)
  {
    RemovedAbsent(Removed(lines, id), id);
  }

  /** RemoveLine keeps at most one line per product id. */
  lemma {:induction false} RemovedKeepsUnique(lines: seq<CartLine>, id: int)
    requires UniqueIds(lines)
    ensures UniqueIds(Removed(lines, id))
  {
    if lines != [] {
      var rest := Removed(lines[1..], id);
      RemovedKeepsUnique(lines[1..], id);
      if lines[0].product.id != id {
        var r := [lines[0]] + rest;
        forall j | 0 < j < |r|
          ensures r[0].product.id != r[j].product.id
        {
          assert r[j] in rest;
          var m :| 0 <= m < |lines[1..]| && lines[1..][m] == r[j];
          assert lines[m + 1] == r[j];
        }
      }
    }
  }

  // ---------------------------------------------------------------------------
  // Totals

  lemma {:induction false} TotalValueConcat(a: seq<CartLine>, b: seq<CartLine>)
    ensures TotalValue(a + b) == TotalValue(a) + TotalValue(b)
  {
    if b == [] {
      assert a + b == a;
    } else {
      assert (a + b)[..|a + b| - 1] == a + b[..|b| - 1];
      TotalValueConcat(a, b[..|b| - 1]);
    }
  }

  /** Replacing one line changes the total by the difference of the two line values. */
  lemma TotalValueUpdate(lines: seq<CartLine>, k: nat, line: CartLine)
    requires k < |lines|
    ensures TotalValue(lines[k := line]) == TotalValue(lines) - LineValue(lines[k]) + LineValue(line)
  {
    var before, after := lines[..k], lines[k + 1..];
    assert lines == before + [lines[k]] + after;
    assert lines[k := line] == before + [line] + after;
    TotalValueConcat(before + [lines[k]], after);
    TotalValueConcat(before + [line], after);
    TotalValueConcat(before, [lines[k]]);
    TotalValueConcat(before, [line]);
  }

  /** Growing line `k` by `quantity` units raises the total by their value. */
  lemma TotalValueGrow(lines: seq<CartLine>, k: nat, quantity: int)
    requires k < |lines|
    ensures TotalValue(lines[k := lines[k].(quantity := lines[k].quantity + quantity)])
         == TotalValue(lines) + quantity as real * lines[k].product.price
  {
    var line := lines[k].(quantity := lines[k].quantity + quantity);
    TotalValueUpdate(lines, k, line);
    var price := lines[k].product.price;
    assert LineValue(line) == (lines[k].quantity as real + quantity as real) * price;
  }

  /** AddItem raises the total by `quantity` times the price of the line's
      product when it appends or merges, and leaves it unchanged otherwise. */
  lemma TotalValueAdded(lines: seq<CartLine>, product: Product, quantity: int)
    ensures TotalValue(Added(lines, product, quantity))
         == match FindIndex(lines, product.id)
            case None => TotalValue(lines) + quantity as real * product.price
            case Some(k) =>
              if product.stock > lines[k].quantity
              then TotalValue(lines) + quantity as real * lines[k].product.price
              else TotalValue(lines)
  {
    match FindIndex(lines, product.id)
    case None =>
      var line := CartLine(product, quantity);
      TotalValueConcat(lines, [line]);
      assert [line][..0] == [];
    case Some(k) =>
      if product.stock > lines[k].quantity {
        TotalValueGrow(lines, k, quantity);
      }
  }

  /** The cart tests' two-line cart: 4 units at 10.99 and 1 unit at 20.99
      total 64.95 over 5 units, an average of 12.99. */
  lemma TwoLineCartTotals()
    ensures var first := Product(1, "Test Product 1", 10.99, 5);
      var second := Product(2, "Test Product 2", 20.99, 5);
      var lines := Added(Added([], first, 4), second, 1);
      && TotalValue(lines) == 64.95
      && TotalQuantity(lines) == 5
      && TotalValue(lines) / TotalQuantity(lines) as real == 12.99
  {
    var first := Product(1, "Test Product 1", 10.99, 5);
    var second := Product(2, "Test Product 2", 20.99, 5);
    AddedAppends([], first, 4);
    AddedAppends([CartLine(first, 4)], second, 1);
    var lines := [CartLine(first, 4), CartLine(second, 1)];
    assert lines[..1] == [CartLine(first, 4)];
    assert lines[..1][..0] == [];
    assert TotalValue(lines[..1]) == 4.0 * 10.99;
    assert TotalQuantity(lines[..1]) == 4;
  }

  /** Adding the same product twice through the class leaves one line of
      quantity 2 (the cart test "add item in cart"). */
  method AddSameProductTwice() returns (lineCount: nat, quantity: int)
    ensures lineCount == 1 && quantity == 2
  {
    var cart := new Cart();
    var first := Product(1, "Test Product 1", 10.99, 5);
    var second := Product(1, "Test Product 1", 10.99, 5);
    cart.AddItem(first, 1);
    cart.AddItem(second, 1);
    AddTwice([], first, second, 1, 1);
    lineCount := |cart.lines|;
    quantity := cart.lines[0].quantity;
  }
}
