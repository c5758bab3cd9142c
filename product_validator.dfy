/** `ProductValidator`: the name, price and stock groups, included in that
    order, each evaluated on its own field. */
module ProductValidator {
  import opened Wrappers
  import opened Validation
  import opened ProductNameValidation
  import opened ProductPriceValidation
  import opened ProductStockValidation

  /** A submission every rule accepts. */
  predicate IsAcceptable(s: Submission) {
    NotEmpty(s.name) && IsPositiveNumber(s.price) && IsPositiveInteger(s.stock)
  }

  /** The ordered error keys of a submission: name, then price, then stock
      messages, at most one per field; none exactly when it is acceptable. */
  function Validate(s: Submission): (r: seq<Key>)
    ensures |r| <= 3
    ensures forall i, j :: 0 <= i < j < |r| ==> Rank(FieldOf(r[i])) < Rank(FieldOf(r[j]))
    ensures r == [] <==> IsAcceptable(s)
  {
    NameErrors(s.name) + PriceErrors(s.price) + StockErrors(s.stock)
  }

  /** The keys of `keys` that belong to field `f`, in order. */
  function OfField(keys: seq<Key>, f: FieldName): seq<Key> {
    if keys == [] then []
    else (if FieldOf(keys[0]) == f then [keys[0]] else []) + OfField(keys[1..], f)
  }

  lemma {:induction false} OfFieldConcat(a: seq<Key>, b: seq<Key>, f: FieldName)
    ensures OfField(a + b, f) == OfField(a, f) + OfField(b, f)
  {
    if a == [] {
      assert a + b == b;
    } else {
      assert (a + b)[0] == a[0] && (a + b)[1..] == a[1..] + b;
      OfFieldConcat(a[1..], b, f);
      assert OfField(a + b, f) == (if FieldOf(a[0]) == f then [a[0]] else []) + OfField(a[1..] + b, f);
    }
  }

  /** A group's keys, filtered to their own field, are the group itself;
      filtered to another field, nothing. */
  lemma OfFieldGroup(group: seq<Key>, g: FieldName, f: FieldName)
    requires |group| <= 1 && forall k :: k in group ==> FieldOf(k) == g
    ensures OfField(group, f) == if f == g then group else []
  {
    if group != [] {
      assert group[1..] == [];
    }
  }

  /** The groups are independent: the messages of each field in the full
      list are exactly that field's own group result, whatever the other
      fields hold. */
  lemma FieldsIndependent(s: Submission, f: FieldName)
    ensures OfField(Validate(s), f)
         == match f
            case NameField => NameErrors(s.name)
            case PriceField => PriceErrors(s.price)
            case StockField => StockErrors(s.stock)
  {
    var name, price, stock := NameErrors(s.name), PriceErrors(s.price), StockErrors(s.stock);
    OfFieldConcat(name + price, stock, f);
    OfFieldConcat(name, price, f);
    OfFieldGroup(name, NameField, f);
    OfFieldGroup(price, PriceField, f);
    OfFieldGroup(stock, StockField, f);
  }

  /** A submission with every checked field missing yields exactly the three
      "missing" keys, in order. */
  lemma AllMissing(s: Submission)
    requires !NotEmpty(s.name) && !NotEmpty(s.price) && !NotEmpty(s.stock)
    ensures Validate(s) == [MissingName, MissingPrice, MissingStock]
  {
  }

  /** The submission of the admin test that posts an empty form. */
  lemma EmptyFormExample()
    ensures Validate(Submission(Some(""), Some(""), Some(""), Some("Integration test product"), Some("")))
         == [MissingName, MissingPrice, MissingStock]
  {
  }
}
