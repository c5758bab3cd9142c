/** What the validators share: the submitted form (`ProductViewModel`), the
    seven message keys, and FluentValidation's `NotEmpty` on strings. */
module Validation {
  import opened Wrappers
  import opened NumberParsing

  /** A submitted text field; None is a C# `null`. */
  type Field = Option<string>

  /** A product submission as the form sends it: every field is text. */
  datatype Submission = Submission(name: Field, price: Field, stock: Field, description: Field, details: Field)

  /** The rule keys; each names the localized message its rule emits. */
  datatype Key =
    | MissingName
    | MissingPrice | PriceNotANumber | PriceNotGreaterThanZero
    | MissingStock | StockNotAnInteger | StockNotGreaterThanZero

  /** The field whose rule group can emit a key. */
  datatype FieldName = NameField | PriceField | StockField

  function FieldOf(k: Key): FieldName {
    match k
    case MissingName => NameField
    case MissingPrice | PriceNotANumber | PriceNotGreaterThanZero => PriceField
    case MissingStock | StockNotAnInteger | StockNotGreaterThanZero => StockField
  }

  /** The order in which the validator includes the field groups. */
  function Rank(f: FieldName): nat {
    match f
    case NameField => 0
    case PriceField => 1
    case StockField => 2
  }

  /** The resource name under which the localizer looks up a key's message. */
  function KeyName(k: Key): string {
    match k
    case MissingName => "MissingName"
    case MissingPrice => "MissingPrice"
    case PriceNotANumber => "PriceNotANumber"
    case PriceNotGreaterThanZero => "PriceNotGreaterThanZero"
    case MissingStock => "MissingStock"
    case StockNotAnInteger => "StockNotAnInteger"
    case StockNotGreaterThanZero => "StockNotGreaterThanZero"
  }

  /** `char.IsWhiteSpace`: the Unicode separator characters and the
      controls U+0009..U+000D, U+0085. */
  predicate IsWhiteSpace(c: char) {
    || ('\t' <= c <= '\r') || c == ' ' || c == '\U{0085}' || c == '\U{00A0}' || c == '\U{1680}'
    || ('\U{2000}' <= c <= '\U{200A}') || c == '\U{2028}' || c == '\U{2029}' || c == '\U{202F}'
    || c == '\U{205F}' || c == '\U{3000}'
  }

  /** Some character is not whitespace. */
  predicate HasVisible(s: string) {
    s != [] && (!IsWhiteSpace(s[0]) || HasVisible(s[1..]))
  }

  /** FluentValidation's `NotEmpty` on a string: not null, not empty and not
      made of whitespace only (`string.IsNullOrWhiteSpace` is false). */
  predicate NotEmpty(f: Field) {
    f.Some? && HasVisible(f.value)
  }

  /** A digit is not whitespace. */
  lemma {:induction false} DigitIsVisible(s: string)
    requires HasDigit(s)
    ensures HasVisible(s)
  {
    if !IsDigit(s[0]) {
      DigitIsVisible(s[1..]);
    }
  }

  /** NotEmpty fails only on fields that do not parse as numbers: a null,
      empty or whitespace-only field has no digit. */
  lemma BlankIsNotNumber(f: Field)
    requires !NotEmpty(f)
    ensures f.None? || (!IsDouble(f.value) && !IsInt(f.value))
  {
    if f.Some? {
      if IsInt(f.value) {
        IntIsDouble(f.value);
      }
      if IsDouble(f.value) {
        NumberHasDigit(f.value);
        DigitIsVisible(f.value);
      }
    }
  }
}
