/** The coupon creation form of src/components/admin/CouponCreateForm.tsx: the rules a new
    coupon must meet, the upper-casing of its code, the form's opening values and the
    row it inserts into the coupons table. */
module CouponCreateForm {
  import opened Types
  import Strings
  import CheckoutModal

  /** What the form holds when it is submitted; `active` and `expiresAt` may be missing. */
  datatype CouponInput = CouponInput(
    code: string,
    discount: real,
    discountType: string,
    active: Option<bool>,
    expiresAt: Option<string>)

  /** The values the schema hands on once every rule holds. */
  datatype CouponValues = CouponValues(
    code: string,
    discount: real,
    discountType: string,
    active: bool,
    expiresAt: Option<string>)

  /** A rule the input breaks. */
  datatype CouponError = CodeTooShort | DiscountTooLow | UnknownDiscountType

  /** Parsing either yields the values or lists the broken rules. */
  datatype Parsed = Accepted(values: CouponValues) | Refused(errors: seq<CouponError>)

  /** The smallest accepted discount. */
  const MinDiscount: real := 0.01

  /** The two discount kinds the schema's enum allows. */
  const DiscountTypes := ["percentage", "fixed"]

  /** The rules of `formSchema`, field by field. */
  function CouponErrors(input: CouponInput): seq<CouponError> {
    (if |input.code| < 3 then [CodeTooShort] else [])
    + (if input.discount < MinDiscount then [DiscountTooLow] else [])
    + (if input.discountType !in DiscountTypes then [UnknownDiscountType] else [])
  }

  /** `formSchema.parse`: the code is checked for length and then upper-cased, and a
      missing `active` becomes true. */
  function ParseCoupon(input: CouponInput): Parsed {
    var errors := CouponErrors(input);
    if errors != [] then Refused(errors)
    else Accepted(CouponValues(Strings.Upper(input.code), input.discount, input.discountType,
                               input.active.GetOr(true), input.expiresAt))
  }

  /** The input is accepted exactly when the code has at least three characters, the
      discount is at least 0.01 and the kind is "percentage" or "fixed"; the accepted
      code is the upper-cased input, and `active` is true unless the input says otherwise. */
  lemma ParseCouponRules(input: CouponInput)
    ensures ParseCoupon(input).Accepted? <==>
      |input.code| >= 3 && input.discount >= MinDiscount
      && (input.discountType == "percentage" || input.discountType == "fixed")
    ensures ParseCoupon(input).Accepted? ==>
      var v := ParseCoupon(input).values;
      v.code == Strings.Upper(input.code) && |v.code| >= 3 && Strings.Upper(v.code) == v.code
      && v.discount == input.discount && v.discountType == input.discountType
      && v.active == (input.active != Some(false)) && v.expiresAt == input.expiresAt
  {
    Strings.UpperIdempotent(input.code);
  }

  /** The code field upper-cases every edit (`onChange`). */
  function OnCodeChange(typed: string): string {
    Strings.Upper(typed)
  }

  /** The code field always holds its own upper case, so the schema's upper-casing keeps
      it as it is. */
  lemma CodeFieldIsUpper(typed: string)
    ensures Strings.Upper(OnCodeChange(typed)) == OnCodeChange(typed)
    ensures Strings.EqualsIgnoreCase(OnCodeChange(typed), typed)
  {
    Strings.UpperIdempotent(typed);
    Strings.UpperEqualsIgnoreCase(typed);
  }

  /** The values the form opens with. */
  const Defaults := CouponInput("", MinDiscount, "fixed", Some(true), Some(""))

  /** The opening values are refused only for the empty code. */
  lemma DefaultsRefusedForCodeOnly()
    ensures ParseCoupon(Defaults) == Refused([CodeTooShort])
  {
    assert Defaults.discountType == DiscountTypes[1];
  }

  /** The row the form inserts into the coupons table. */
  datatype CouponRow = CouponRow(
    code: string,
    discount: real,
    discountType: string,
    active: bool,
    expiresAt: Option<string>)

  /** `mutationFn`: every field is copied, except that an empty expiry is stored as null. */
  function InsertPayload(values: CouponValues): (r: CouponRow)
    ensures r.expiresAt.None? <==> values.expiresAt.None? || values.expiresAt.value == ""
    ensures r.expiresAt.Some? ==> r.expiresAt == values.expiresAt
    ensures r.code == values.code && r.discount == values.discount
    ensures r.discountType == values.discountType && r.active == values.active
  {
    var expiry := if values.expiresAt.Some? && values.expiresAt.value != "" then values.expiresAt else None;
    CouponRow(values.code, values.discount, values.discountType, values.active, expiry)
  }

  /** The upper-casing of the code loses nothing the checkout's comparison looks at: the
      code stored by the form, on an active coupon, is matched by the code as it was typed
      in any letter case under the case-insensitive test the checkout applies. */
  lemma StoredCodeMatchesTypedCode(input: CouponInput, id: string, typed: string)
    requires ParseCoupon(input).Accepted? && input.active != Some(false)
    requires Strings.EqualsIgnoreCase(typed, input.code)
    ensures
      var row := InsertPayload(ParseCoupon(input).values);
      Strings.EqualsIgnoreCase(row.code, typed) && row.active
      && CheckoutModal.Redeems(Coupon(id, row.code, row.discount, row.discountType, row.active), typed)
  {
    Strings.UpperEqualsIgnoreCase(input.code);
  }
}
