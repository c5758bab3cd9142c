/** `ProductStockValidation`: the stock rules, which stop at the first
    failure (`CascadeMode.StopOnFirstFailure`). */
module ProductStockValidation {
  import opened Wrappers
  import opened NumberParsing
  import opened Validation

  /** A stock is accepted when it is a 32-bit integer greater than zero. */
  predicate IsPositiveInteger(stock: Field) {
    stock.Some? && IsInt(stock.value) && ParseInt(stock.value).value > 0
  }

  /** The messages of the stock rules: NotEmpty, then `int.TryParse`
      succeeds, then `double.Parse(stock) > 0`. The last rule is reached only
      for a stock that is an integer, which `double.Parse` then reads as the
      same value. */
  function StockErrors(stock: Field): (r: seq<Key>)
    ensures |r| <= 1
    ensures forall k :: k in r ==> FieldOf(k) == StockField
    ensures r == [] <==> IsPositiveInteger(stock)
  {
    if !NotEmpty(stock) then
      BlankIsNotNumber(stock);
      [MissingStock]
    else if !IsInt(stock.value) then [StockNotAnInteger]
    else
      IntIsDouble(stock.value);
      if !(DoubleParse(stock.value) > 0.0) then [StockNotGreaterThanZero] else []
  }

  /** The third rule parses the stock as a double although the second rule
      checked it as an integer; on every integer the two readings agree. */
  lemma StockRuleReadingsAgree(s: string)
    requires IsInt(s)
    ensures IsDouble(s)
    ensures DoubleParse(s) > 0.0 <==> ParseInt(s).value > 0
  {
    IntIsDouble(s);
  }

  /** Which single message each kind of stock yields. */
  lemma StockCascade(stock: Field)
    ensures StockErrors(stock) == [MissingStock] <==> !NotEmpty(stock)
    ensures StockErrors(stock) == [StockNotAnInteger] <==> NotEmpty(stock) && !IsInt(stock.value)
    ensures StockErrors(stock) == [StockNotGreaterThanZero]
        <==> stock.Some? && IsInt(stock.value) && ParseInt(stock.value).value <= 0
  {
    if !NotEmpty(stock) {
      BlankIsNotNumber(stock);
    } else if IsInt(stock.value) {
      IntIsDouble(stock.value);
    }
  }

  /** A missing stock, empty or null, yields MissingStock alone. */
  lemma MissingStockExample()
    ensures StockErrors(Some("")) == [MissingStock]
    ensures StockErrors(None) == [MissingStock]
  {
  }

  /** The unit test's stock "Not an integer" is not an integer. */
  lemma StockNotAnIntegerExample()
    ensures StockErrors(Some("Not an integer")) == [StockNotAnInteger]
  {
    var text := "Not an integer";
    assert ParseInt(text) == None by {
      assert TrimStart(text) == text && TrimEnd(text) == text;
      assert !IsDigit(text[0]);
    }
  }

  /** A decimal such as "2.5" is a number but not an integer. */
  lemma DecimalStockExample()
    ensures StockErrors(Some("2.5")) == [StockNotAnInteger]
  {
    var text := "2.5";
    assert ParseInt(text) == None by {
      assert TrimStart(text) == text && TrimEnd(text) == text;
      assert !IsDigit(text[1]);
    }
  }

  /** A visible text that reads as the integer 0 fails the third rule only. */
  lemma ZeroIntegerStock(s: string)
    requires NotEmpty(Some(s)) && ParseInt(s) == Some(0)
    ensures StockErrors(Some(s)) == [StockNotGreaterThanZero]
  {
    IntIsDouble(s);
  }

  /** The unit test's stock "0" is an integer but not greater than zero. */
  lemma ZeroStockExample()
    ensures StockErrors(Some("0")) == [StockNotGreaterThanZero]
  {
    var s := "0";
    assert ParseInt(s) == Some(0) by {
      assert TrimStart(s) == s && TrimEnd(s) == s;
    }
    ZeroIntegerStock(s);
  }

  /** The stock "10" of the delete test is accepted. */
  lemma PositiveStockExample()
    ensures StockErrors(Some("10")) == []
  {
    var s := "10";
    assert ParseInt(s) == Some(10) by {
      assert TrimStart(s) == s && TrimEnd(s) == s;
      assert DigitsValue(s) == 10;
    }
    assert IsPositiveInteger(Some(s));
  }
}
