/** The checkout form schema of src/schemas/checkout.ts: a field-by-field set of rules on
    the customer's name, address, notes, payment method and change. */
module CheckoutSchema {
  import opened Types
  import Strings

  /** The fields the schema checks; notes and change may be missing. */
  datatype CheckoutValues = CheckoutValues(
    name: string,
    address: string,
    notes: Option<string>,
    paymentMethod: string,
    change: Option<real>)

  /** A rule the values break. */
  datatype CheckoutError = NameTooShort | AddressTooShort | NotesTooLong | PaymentMissing | NegativeChange

  /** The longest accepted notes. */
  const MaxNotes := 255

  /** The rules of `checkoutSchema`, field by field. */
  function CheckoutErrors(values: CheckoutValues): seq<CheckoutError> {
    (if |values.name| < 3 then [NameTooShort] else [])
    + (if |values.address| < 10 then [AddressTooShort] else [])
    + (if values.notes.Some? && |values.notes.value| > MaxNotes then [NotesTooLong] else [])
    + (if |values.paymentMethod| < 1 then [PaymentMissing] else [])
    + (if values.change.Some? && values.change.value < 0.0 then [NegativeChange] else [])
  }

  /** The values pass exactly when the name has at least 3 characters, the address at least
      10, the notes (when given) at most 255, the payment method is non-empty and the
      change (when given) is not negative; each broken rule is reported once. */
  lemma CheckoutRules(values: CheckoutValues)
    ensures CheckoutErrors(values) == [] <==>
      |values.name| >= 3 && |values.address| >= 10
      && (values.notes.None? || |values.notes.value| <= MaxNotes)
      && values.paymentMethod != ""
      && (values.change.None? || values.change.value >= 0.0)
    ensures |CheckoutErrors(values)| <= 5
    ensures NameTooShort in CheckoutErrors(values) <==> |values.name| < 3
    ensures AddressTooShort in CheckoutErrors(values) <==> |values.address| < 10
  {
  }

  /** The length rules count characters, not visible ones: a name of three spaces passes
      the schema although trimming leaves nothing. */
  lemma BlankNamePassesLengthRule()
    ensures CheckoutErrors(CheckoutValues("   ", "Rua A, 100", None, "Pix", None)) == []
    ensures Strings.IsBlank("   ")
  {
  }
}
