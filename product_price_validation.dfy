/** `ProductPriceValidation`: the price rules, which stop at the first
    failure (`CascadeMode.StopOnFirstFailure`). */
module ProductPriceValidation {
  import opened Wrappers
  import opened NumberParsing
  import opened Validation

  /** A price is accepted when it is a number greater than zero. */
  predicate IsPositiveNumber(price: Field) {
    price.Some? && IsDouble(price.value) && ParseDouble(price.value).value > 0.0
  }

  /** The messages of the price rules: NotEmpty, then `double.TryParse`
      succeeds, then `Double.Parse(price) > 0`. The last rule is reached only
      for a price that parses, so `Double.Parse` cannot throw. */
  function PriceErrors(price: Field): (r: seq<Key>)
    ensures |r| <= 1
    ensures forall k :: k in r ==> FieldOf(k) == PriceField
    ensures r == [] <==> IsPositiveNumber(price)
  {
    if !NotEmpty(price) then
      BlankIsNotNumber(price);
      [MissingPrice]
    else if !IsDouble(price.value) then [PriceNotANumber]
    else if !(DoubleParse(price.value) > 0.0) then [PriceNotGreaterThanZero]
    else []
  }

  /** Which single message each kind of price yields. */
  lemma PriceCascade(price: Field)
    ensures PriceErrors(price) == [MissingPrice] <==> !NotEmpty(price)
    ensures PriceErrors(price) == [PriceNotANumber] <==> NotEmpty(price) && !IsDouble(price.value)
    ensures PriceErrors(price) == [PriceNotGreaterThanZero]
        <==> price.Some? && IsDouble(price.value) && ParseDouble(price.value).value <= 0.0
  {
    if !NotEmpty(price) {
      BlankIsNotNumber(price);
    }
  }

  /** A missing price, empty or null, yields MissingPrice alone: the
      cascade stops before PriceNotANumber. */
  lemma MissingPriceExample()
    ensures PriceErrors(Some("")) == [MissingPrice]
    ensures PriceErrors(None) == [MissingPrice]
  {
  }

  /** A price that starts with a letter is present but not a number, under
      the modelled grammar, which has no NaN or Infinity. */
  lemma LetterPrice(s: string)
    requires s != [] && ('A' <= s[0] <= 'Z' || 'a' <= s[0] <= 'z')
    ensures PriceErrors(Some(s)) == [PriceNotANumber]
  {
    assert HasVisible(s);
    BadStartIsNotNumber(s);
  }

  /** The unit test's price "Hello World" is not a number. */
  lemma PriceNotANumberExample()
    ensures PriceErrors(Some("Hello World")) == [PriceNotANumber]
  {
    var s := "Hello World";
    assert s[0] == 'H';
    LetterPrice(s);
  }

  /** The unit test's price "-9" is a number but not greater than zero. */
  lemma NegativePriceExample()
    ensures PriceErrors(Some("-9")) == [PriceNotGreaterThanZero]
  {
    assert ParseDouble("-9") == Some(-9.0);
  }

  /** The price "12.99" of the save test is accepted. */
  lemma DecimalPriceExample()
    ensures PriceErrors(Some("12.99")) == []
  {
    var s := "12.99";
    assert ParseDouble(s) == Some(12.99) by {
      assert SplitSign(Trim(s)) == (false, s) by {
        assert TrimStart(s) == s && TrimEnd(s) == s;
      }
      assert ParseUnsignedDecimal(s) == Some(12.99) by {
        assert !AllDigits(s) by { assert !IsDigit(s[2]); }
        assert FirstDot(s) == Some(2);
        assert s[..2] == "12" && s[3..] == "99";
        assert DigitsValue("12") == 12;
        assert DigitsValue("99") == 99;
      }
    }
  }
}
