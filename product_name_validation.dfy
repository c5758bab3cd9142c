/** `ProductNameValidation`: the one rule on the product name. */
module ProductNameValidation {
  import opened Wrappers
  import opened Validation

  /** The messages of `RuleFor(x => x.Name).NotEmpty()`: MissingName alone
      when the name is null, empty or whitespace, none otherwise. */
  function NameErrors(name: Field): (r: seq<Key>)
    ensures |r| <= 1
    ensures forall k :: k in r ==> k == MissingName
    ensures r == [] <==> NotEmpty(name)
  {
    if NotEmpty(name) then [] else [MissingName]
  }
}
