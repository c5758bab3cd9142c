# Shopping cart and product validators of the P3 store, in Dafny

The P3 store is an ASP.NET Core shop. This project models two parts of it:

- The session cart, `Models/Cart.cs`. It holds an ordered list of cart lines, each a product and a quantity. Its operations:
  - `AddItem` appends a line for a product the cart does not hold yet.
  - `AddItem` on a product already in the cart adds to that line's quantity, but only when the product's stock exceeds the quantity already in the line.
  - `RemoveLine` drops every line with a product's id.
  - `GetTotalValue` and `GetAverageValue` add up quantity times price, and quantity.
  - `Clear` empties the cart.
- The product form validators, `Models/Validators/*.cs`:
  - The name must not be empty.
  - The price must be present, then a number, then greater than zero. This group stops at the first failure.
  - The stock must be present, then a 32-bit integer, then greater than zero. This group also stops at the first failure.
  - `ProductValidator` includes the name, price and stock groups in that order. Each group judges its own field only.

The source of `ProductService.cs` is not among the files this model was built from. The parts of it that the tests rely on are rebuilt from those tests: turning rule keys into localized messages (`CheckProductModelErrors`), the product built from an accepted form, and `DeleteProduct`, which removes a product from the catalogue and its lines from the cart.

Layout (one module per file):

- `wrappers.dfy` holds `Option`.
- `entities.dfy` holds `Product`. The source's `Product.Quantity` is the product's stock and appears here as `stock`.
- `cart.dfy` holds the `Cart` class over a `seq<CartLine>` field. The specification functions `FindIndex`, `Added`, `Removed`, `TotalValue` and `TotalQuantity` define what each method computes, and lemmas about them state the cart's promises.
- `number_parsing.dfy` models `int.TryParse` and `double.TryParse` as used by the validators, over one culture-free decimal grammar.
- `validation.dfy` holds the form fields, the message keys and FluentValidation's `NotEmpty`.
- `product_name_validation.dfy`, `product_price_validation.dfy`, `product_stock_validation.dfy` and `product_validator.dfy` each model one validator class.
- `product_service.dfy` models the service operations above.

Form fields are `Option<string>`, where `None` is a null field. Prices are exact `real` numbers.

## Model

| member | source | states |
|---|---|---|
| Carts.FindIndex | P3AddNewFunctionalityDotNetCore/Models/Cart.cs:18 | a found index holds a line with that product id, and no earlier line (no line at all when none is found) has that id |
| Carts.Removed | P3AddNewFunctionalityDotNetCore/Models/Cart.cs:34 | no remaining line has the id, and a line remains exactly when it was in the cart and has another id |
| Carts.Cart.constructor | P3AddNewFunctionalityDotNetCore/Models/Cart.cs:11-14 | a new cart is empty and satisfies the one-line-per-product invariant |
| Carts.Cart.FindLine | P3AddNewFunctionalityDotNetCore/Models/Cart.cs:18 | the loop's search result is the first line with the product id, as `FindIndex` defines it |
| Carts.Cart.AddItem | P3AddNewFunctionalityDotNetCore/Models/Cart.cs:16-32 | the new lines are `Added(old lines, product, quantity)` and the cart keeps at most one line per product id |
| Carts.Cart.RemoveLine | P3AddNewFunctionalityDotNetCore/Models/Cart.cs:34 | the new lines are `Removed(old lines, id)` and the invariant is kept |
| Carts.Cart.GetTotalValue | P3AddNewFunctionalityDotNetCore/Models/Cart.cs:49-67 | the loop's total is the sum over the lines of quantity times price, 0 for an empty cart |
| Carts.Cart.GetAverageValue | P3AddNewFunctionalityDotNetCore/Models/Cart.cs:69-92 | 0 for an empty cart; otherwise the total value divided by the total quantity |
| Carts.Cart.Clear | P3AddNewFunctionalityDotNetCore/Models/Cart.cs:94 | the cart is empty afterwards |
| Carts.AddedAppends | P3AddNewFunctionalityDotNetCore/Models/Cart.cs:20-23 | a product with no line becomes one new last line with the requested quantity, whatever its stock |
| Carts.AddedMerges | P3AddNewFunctionalityDotNetCore/Models/Cart.cs:24-31 | a product that has line k grows only that line by the quantity when its stock exceeds the line's quantity, keeps the line's product, and otherwise changes nothing |
| Carts.AddedPreservesOthers | P3AddNewFunctionalityDotNetCore/Models/Cart.cs:16-32 | AddItem adds at most one line, never removes or reorders lines, keeps every line's product and leaves lines of other ids unchanged |
| Carts.AddedKeepsUnique | P3AddNewFunctionalityDotNetCore/Models/Cart.cs:16-32 | AddItem preserves the one-line-per-product-id invariant |
| Carts.AddTwice | P3AddNewFunctionalityDotNetCore.Tests/CartTests.cs:19-31 | two adds of the same id give one line holding the first product, whose quantity is the sum when the stock exceeds the first quantity and the first quantity otherwise |
| Carts.FirstAddIgnoresStock | P3AddNewFunctionalityDotNetCore/Models/Cart.cs:20-23 | adding 10 units of a product with stock 5 to an empty cart appends the line, as the code does, although the over-stock test expects an empty cart |
| Carts.RemovedConcat | P3AddNewFunctionalityDotNetCore/Models/Cart.cs:34 | removal keeps the order of the remaining lines, because it distributes over concatenation |
| Carts.RemovedAbsent | P3AddNewFunctionalityDotNetCore/Models/Cart.cs:34 | removing an id that no line has leaves the cart unchanged |
| Carts.RemovedIdempotent | P3AddNewFunctionalityDotNetCore/Models/Cart.cs:34 | removing the same id twice is the same as removing it once |
| Carts.RemovedKeepsUnique | P3AddNewFunctionalityDotNetCore/Models/Cart.cs:34 | RemoveLine preserves the one-line-per-product-id invariant |
| Carts.TotalValueConcat | P3AddNewFunctionalityDotNetCore/Models/Cart.cs:56-60 | the total of two runs of lines is the sum of their totals |
| Carts.TotalValueUpdate | P3AddNewFunctionalityDotNetCore/Models/Cart.cs:56-60 | replacing one line changes the total by the new line value minus the old one |
| Carts.TotalValueGrow | P3AddNewFunctionalityDotNetCore/Models/Cart.cs:29 | growing a line by q units raises the total by q times that line's price |
| Carts.TotalValueAdded | P3AddNewFunctionalityDotNetCore/Models/Cart.cs:16-32 | AddItem raises the total by quantity times price when it appends or merges, and leaves it unchanged when the stock guard refuses |
| Carts.TwoLineCartTotals | P3AddNewFunctionalityDotNetCore.Tests/CartTests.cs:64-92 | 4 units at 10.99 plus 1 unit at 20.99 total 64.95 over 5 units, an average of 12.99 |
| Carts.AddSameProductTwice | P3AddNewFunctionalityDotNetCore.Tests/CartTests.cs:19-31 | through the class, two adds of equal products leave a single line of quantity 2 |
| NumberParsing.DigitsAppend | P3AddNewFunctionalityDotNetCore/Models/Validators/ProductStockValidation.cs:25 | appending a digit multiplies the value by ten and adds the digit |
| NumberParsing.ParseInt | P3AddNewFunctionalityDotNetCore/Models/Validators/ProductStockValidation.cs:25 | an accepted integer lies in the 32-bit range |
| NumberParsing.ParseUnsignedDecimal | P3AddNewFunctionalityDotNetCore/Models/Validators/ProductPriceValidation.cs:24 | an accepted decimal contains at least one digit |
| NumberParsing.ParseDecimal | P3AddNewFunctionalityDotNetCore/Models/Validators/ProductStockValidation.cs:25 | every 32-bit natural number, rendered in decimal by the reference function `Decimal`, parses back to itself as an int and as a double, and with a leading minus sign to its negation under both parsers |
| NumberParsing.IntIsDouble | P3AddNewFunctionalityDotNetCore/Models/Validators/ProductStockValidation.cs:25-27 | every string `int.TryParse` accepts is accepted by `double.TryParse` with the same value |
| NumberParsing.NumberHasDigit | P3AddNewFunctionalityDotNetCore/Models/Validators/ProductPriceValidation.cs:24 | a string that parses as a number contains a digit |
| NumberParsing.BadStartIsNotNumber | P3AddNewFunctionalityDotNetCore/Models/Validators/ProductPriceValidation.cs:24 | under the modelled grammar, which has no NaN or Infinity, a string whose first character is not a digit, a point, a sign or whitespace is not a number |
| Validation.DigitIsVisible | P3AddNewFunctionalityDotNetCore/Models/Validators/ProductPriceValidation.cs:22-24 | a string with a digit passes `NotEmpty` |
| Validation.BlankIsNotNumber | P3AddNewFunctionalityDotNetCore/Models/Validators/ProductPriceValidation.cs:22-24 | a field `NotEmpty` rejects is null or parses neither as an int nor as a double, so the cascade's first rule subsumes the second |
| ProductNameValidation.NameErrors | P3AddNewFunctionalityDotNetCore/Models/Validators/ProductNameValidation.cs:18 | at most one message, MissingName, and none exactly when the name is neither null nor whitespace-only |
| ProductPriceValidation.PriceErrors | P3AddNewFunctionalityDotNetCore/Models/Validators/ProductPriceValidation.cs:18-26 | at most one message, all of them price messages, and none exactly when the price is a number greater than zero |
| ProductPriceValidation.PriceCascade | P3AddNewFunctionalityDotNetCore/Models/Validators/ProductPriceValidation.cs:18-26 | MissingPrice exactly for a blank price, PriceNotANumber exactly for a present non-number, PriceNotGreaterThanZero exactly for a number at most zero |
| ProductPriceValidation.MissingPriceExample | P3AddNewFunctionalityDotNetCore.Tests/ProductServiceTests.cs:54-79 | an empty or a null price yields MissingPrice alone |
| ProductPriceValidation.LetterPrice | P3AddNewFunctionalityDotNetCore/Models/Validators/ProductPriceValidation.cs:22-24 | under the modelled grammar, which has no NaN or Infinity, a price starting with a letter yields PriceNotANumber alone |
| ProductPriceValidation.PriceNotANumberExample | P3AddNewFunctionalityDotNetCore.Tests/ProductServiceTests.cs:83-106 | the price "Hello World" yields PriceNotANumber alone |
| ProductPriceValidation.NegativePriceExample | P3AddNewFunctionalityDotNetCore.Tests/ProductServiceTests.cs:110-134 | the price "-9" yields PriceNotGreaterThanZero alone |
| ProductPriceValidation.DecimalPriceExample | P3AddNewFunctionalityDotNetCore.Tests/ProductServiceTests.cs:269-287 | the price "12.99" is accepted |
| ProductStockValidation.StockErrors | P3AddNewFunctionalityDotNetCore/Models/Validators/ProductStockValidation.cs:19-27 | at most one message, all of them stock messages, and none exactly when the stock is a 32-bit integer greater than zero |
| ProductStockValidation.StockRuleReadingsAgree | P3AddNewFunctionalityDotNetCore/Models/Validators/ProductStockValidation.cs:25-27 | the third rule's `double.Parse` never fails on a stock the second rule accepted, and compares with zero exactly as the integer does |
| ProductStockValidation.StockCascade | P3AddNewFunctionalityDotNetCore/Models/Validators/ProductStockValidation.cs:19-27 | MissingStock exactly for a blank stock, StockNotAnInteger exactly for a present non-integer, StockNotGreaterThanZero exactly for an integer at most zero |
| ProductStockValidation.MissingStockExample | P3AddNewFunctionalityDotNetCore.Tests/ProductServiceTests.cs:138-162 | an empty or a null stock yields MissingStock alone |
| ProductStockValidation.StockNotAnIntegerExample | P3AddNewFunctionalityDotNetCore.Tests/ProductServiceTests.cs:166-189 | the stock "Not an integer" yields StockNotAnInteger alone |
| ProductStockValidation.DecimalStockExample | P3AddNewFunctionalityDotNetCore/Models/Validators/ProductStockValidation.cs:25 | the stock "2.5" is a number but yields StockNotAnInteger |
| ProductStockValidation.ZeroIntegerStock | P3AddNewFunctionalityDotNetCore/Models/Validators/ProductStockValidation.cs:25-27 | a visible text that parses as the integer 0 yields StockNotGreaterThanZero alone |
| ProductStockValidation.ZeroStockExample | P3AddNewFunctionalityDotNetCore.Tests/ProductServiceTests.cs:193-216 | the stock "0" yields StockNotGreaterThanZero alone |
| ProductStockValidation.PositiveStockExample | P3AddNewFunctionalityDotNetCore.IntegrationTests/ProductService_IntegrationTests.cs:155-162 | the stock "10" is accepted |
| ProductValidator.Validate | P3AddNewFunctionalityDotNetCore/Models/Validators/ProductValidator.cs:18-20 | at most three keys, in name, price, stock order with at most one per field, and none exactly when every rule accepts |
| ProductValidator.OfFieldConcat | P3AddNewFunctionalityDotNetCore/Models/Validators/ProductValidator.cs:18-20 | selecting one field's keys distributes over concatenating rule groups |
| ProductValidator.OfFieldGroup | P3AddNewFunctionalityDotNetCore/Models/Validators/ProductValidator.cs:18-20 | a group's keys, filtered to its own field, are the group, and filtered to another field are empty |
| ProductValidator.FieldsIndependent | P3AddNewFunctionalityDotNetCore/Models/Validators/ProductValidator.cs:18-20 | the keys of each field in the combined result are exactly that field's own group result, whatever the other fields hold |
| ProductValidator.AllMissing | P3AddNewFunctionalityDotNetCore/Models/Validators/ProductValidator.cs:18-20 | blank name, price and stock yield exactly MissingName, MissingPrice and MissingStock, in that order |
| ProductValidator.EmptyFormExample | P3AddNewFunctionalityDotNetCore.IntegrationTests/AdminModuleTests.cs:165-198 | the admin test's empty form yields the three missing-field keys |
| ProductServices.CheckProductModelErrors | P3AddNewFunctionalityDotNetCore.Tests/ProductServiceTests.cs:26-50 | one localized message per failing rule, in the validator's order, and none exactly when the submission is acceptable |
| ProductServices.MissingNameMessage | P3AddNewFunctionalityDotNetCore.Tests/ProductServiceTests.cs:26-50 | a missing name with a valid price and stock reports only the MissingName message |
| ProductServices.ToProduct | P3AddNewFunctionalityDotNetCore.Tests/ProductServiceTests.cs:269-287 | an accepted form becomes a product with the form's name, and with the parsed price and stock, both positive |
| ProductServices.DeleteKeepsCartMatching | P3AddNewFunctionalityDotNetCore.IntegrationTests/ProductService_IntegrationTests.cs:147-185 | removing an id from the catalogue and from the cart keeps every cart line pointing at a catalogue product, and leaves no line with that id |
| ProductServices.ProductService.constructor | P3AddNewFunctionalityDotNetCore.IntegrationTests/ProductService_IntegrationTests.cs:165-169 | the service holds the given cart and catalogue |
| ProductServices.ProductService.DeleteProduct | P3AddNewFunctionalityDotNetCore.IntegrationTests/ProductService_IntegrationTests.cs:147-185 | the id leaves the catalogue; the cart loses exactly that id's lines when the catalogue held it and is unchanged otherwise; a cart that matched the catalogue still does |

## Left out

- Floating point: prices and totals are exact reals, so `double` rounding in `GetTotalValue` and `GetAverageValue` is not modelled. Parsed prices are exact too (`PriceErrors`, `ToProduct`): a price such as "0.000…01" with more digits than a `double` holds rounds to 0 in `Double.Parse`, so the source reports PriceNotGreaterThanZero where the model accepts it.
- Carts.Cart.GetAverageValue: requires a non-zero quantity sum for a non-empty cart. The source divides in floating point and returns NaN or an infinity for a zero sum.
- Quantities and stocks are unbounded integers: the 32-bit overflow of `line.Quantity += quantity` and of the quantity sum is not modelled.
- `CartLine` is a value, and a merge replaces the line. The sharing of the same `CartLine` objects through `Lines`, where a caller could mutate them, is not modelled. `Lines` is the `lines` field itself. A cart line also holds a copy of its product rather than a reference to the caller's `Product` object (Cart.cs:22): in the source a later change to that product's `Price` or `Id` changes what `GetTotalValue` and `RemoveLine` see, and in the model it does not.
- `CartLine.OrderLineId` is not modelled; nothing in the cart reads it.
- Number parsing uses one culture-free grammar: whitespace, an optional sign, digits and an optional point. .NET culture settings, thousands separators, exponents, "NaN", "Infinity" and currency symbols are not modelled. `int.TryParse` of "-2147483648" is accepted by `ParseInt` but is not covered by `ParseDecimal`.
- FluentValidation's internals are not modelled: rule objects, `Include` and async validation. `NotEmpty` is modelled as not null and not whitespace-only, using the `char.IsWhiteSpace` set.
- The localizer is a map from keys to texts. A key with no text falls back to its own name, as the string localizer does. A loose mock without a setup would return null instead, and that case is not modelled.
- The source of `ProductService.cs` is not among the modelled files, so `CheckProductModelErrors`, the conversion in `SaveProduct` and `DeleteProduct` are rebuilt from the tests. The repository's id assignment, `GetProductById`, `GetAllProducts`, their view-model variants and the database are left out.
- The cart test "cannot add item if more than current stock" expects an empty cart. The code appends the line, and the model follows the code (see `Carts.FirstAddIgnoresStock`).
- HTTP, Razor pages, login (`LoginModel`), cookies and the test host are outside the modelled core.
