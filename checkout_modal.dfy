/** The checkout dialog of src/components/menu/CheckoutModal.tsx: coupon lookup and
    application, the discount and final total, the order message it builds from the cart,
    and the submit handler that checks the form, sends the message and empties the cart.
    The store settings and the coupon list are the fixtures of `MockData`. */
module CheckoutModal {
  import opened Types
  import opened Strings
  import Seqs
  import CartContext
  import WhatsApp
  import MockData

  /** `discount`: nothing without a coupon; a "percentage" coupon takes that percentage of
      the subtotal, a coupon of any other type takes its value as a flat amount. */
  function CouponDiscount(appliedCoupon: Option<Coupon>, total: real): real {
    match appliedCoupon
    case None => 0.0
    case Some(c) => if c.kind == "percentage" then total * c.discount / 100.0 else c.discount
  }

  /** `finalTotal`: subtotal plus delivery fee minus discount, not clamped at zero. */
  function FinalTotal(total: real, deliveryFee: real, discount: real): real {
    total + deliveryFee - discount
  }

  /** Without a coupon the customer pays the subtotal plus the delivery fee. */
  lemma NoCouponNoDiscount(total: real, deliveryFee: real)
    ensures CouponDiscount(None, total) == 0.0
    ensures FinalTotal(total, deliveryFee, CouponDiscount(None, total)) == total + deliveryFee
  {
  }

  /** A percentage coupon between 0 and 100 takes at most the whole subtotal, and never
      more than it takes from a larger subtotal. */
  lemma PercentageDiscountBounded(c: Coupon, total: real, larger: real)
    requires c.kind == "percentage" && 0.0 <= c.discount <= 100.0
    requires 0.0 <= total <= larger
    ensures 0.0 <= CouponDiscount(Some(c), total) <= total
    ensures CouponDiscount(Some(c), total) <= CouponDiscount(Some(c), larger)
  {
    assert total * c.discount <= total * 100.0;
    assert total * c.discount <= larger * c.discount;
  }

  /** A flat coupon takes the same amount whatever the subtotal. */
  lemma FlatDiscountIgnoresTotal(c: Coupon, total: real, other: real)
    requires c.kind != "percentage"
    ensures CouponDiscount(Some(c), total) == CouponDiscount(Some(c), other) == c.discount
  {
  }

  /** The final total is not clamped: a flat coupon worth more than subtotal plus fee
      makes it negative. */
  lemma FinalTotalCanBeNegative()
    ensures var big := Coupon("3", "BIG", 20.0, "fixed", true);
      FinalTotal(0.0, MockData.Settings.deliveryFee, CouponDiscount(Some(big), 0.0)) == -12.0
  {
  }

  /** PRIMEIRO10 takes a tenth of the subtotal; FRETE exactly cancels the store's delivery fee. */
  lemma MockCouponsEffect(total: real)
    ensures CouponDiscount(Some(MockData.FirstOrder), total) == total / 10.0
    ensures FinalTotal(total, MockData.Settings.deliveryFee, CouponDiscount(Some(MockData.FreeDelivery), total)) == total
  {
  }

  /** A store coupon takes either a tenth of the subtotal or exactly the delivery fee, so
      once one is applied the final total of a non-negative subtotal stays at least nine
      tenths of it: unlike an arbitrary flat coupon, it never drives the total negative. */
  lemma StoreCouponKeepsTotal(c: Coupon, total: real)
    requires c in MockData.Coupons
    ensures CouponDiscount(Some(c), total) == total / 10.0
         || CouponDiscount(Some(c), total) == MockData.Settings.deliveryFee
    ensures total >= 0.0 ==>
      FinalTotal(total, MockData.Settings.deliveryFee, CouponDiscount(Some(c), total)) >= total * 9.0 / 10.0 >= 0.0
  {
    assert c == MockData.FirstOrder || c == MockData.FreeDelivery;
  }

  /** The coupon that `code` redeems: its code equals `code` ignoring case, and it is active. */
  predicate Redeems(c: Coupon, code: string) {
    EqualsIgnoreCase(c.code, code) && c.active
  }

  /** `mockCoupons.find(...)` in `handleApplyCoupon`: the first coupon `code` redeems. */
  function FindCoupon(coupons: seq<Coupon>, code: string): (r: Option<Coupon>)
    ensures r.Some? ==> exists i :: 0 <= i < |coupons| && coupons[i] == r.value && Redeems(r.value, code)
                          && forall j :: 0 <= j < i ==> !Redeems(coupons[j], code)
    ensures r.None? ==> forall i :: 0 <= i < |coupons| ==> !Redeems(coupons[i], code)
  {
    if coupons == [] then None
    else if Redeems(coupons[0], code) then
      assert coupons[0] == coupons[0];
      Some(coupons[0])
    else
      var r := FindCoupon(coupons[1..], code);
      assert r.Some? ==> exists i :: 0 <= i < |coupons[1..]| && coupons[1..][i] == r.value
                                      && forall j :: 0 <= j < i ==> !Redeems(coupons[1..][j], code);
      r
  }

  /** Typing the code in another case finds the same coupon. */
  lemma {:induction false} FindCouponIgnoresCase(coupons: seq<Coupon>, code: string)
    ensures FindCoupon(coupons, Upper(code)) == FindCoupon(coupons, code)
  {
    UpperEqualsIgnoreCase(code);
    if coupons != [] {
      FindCouponIgnoresCase(coupons[1..], code);
    }
  }

  /** Both mock coupons are found from their codes typed in lower case. */
  lemma MockCouponsFound()
    ensures FindCoupon(MockData.Coupons, "primeiro10") == Some(MockData.FirstOrder)
    ensures FindCoupon(MockData.Coupons, "frete") == Some(MockData.FreeDelivery)
  {
    assert Lower("PRIMEIRO10") == Lower("primeiro10");
    assert Lower("FRETE") == Lower("frete");
    assert Lower("PRIMEIRO10") != Lower("frete");
  }

  /** The lines of the message the dialog builds. It differs from the one of
      src/utils/whatsapp.ts: no payment or change line, and the discount line is written
      whenever a coupon is applied, whatever the discount. */
  function MessageLines(customerName: string, address: string, items: seq<CartItem>,
                        appliedCoupon: Option<Coupon>): seq<WhatsApp.Line>
  {
    [WhatsApp.Title(MockData.Settings.name), WhatsApp.Client(customerName), WhatsApp.Address(address),
     WhatsApp.ItemsHeading]
    + WhatsApp.ItemsLines(items, 1)
    + SummaryLines(CartContext.Total(items), appliedCoupon)
  }

  /** The summary of the dialog's message: rule, subtotal, fee, the discount line for an
      applied coupon, and the final total. */
  function SummaryLines(total: real, appliedCoupon: Option<Coupon>): seq<WhatsApp.Line> {
    var fee := MockData.Settings.deliveryFee;
    [WhatsApp.Rule, WhatsApp.Subtotal(total), WhatsApp.Fee(fee)]
    + ClosingLines(total, fee, appliedCoupon, CouponDiscount(appliedCoupon, total))
  }

  /** The end of the summary: the discount line for an applied coupon, then the total. */
  function ClosingLines(total: real, deliveryFee: real, appliedCoupon: Option<Coupon>, discount: real): seq<WhatsApp.Line> {
    (if appliedCoupon.Some? then [WhatsApp.Discount(appliedCoupon.value.code, discount)] else [])
    + [WhatsApp.Total(FinalTotal(total, deliveryFee, discount))]
  }

  /** The summary lines carry no item. */
  lemma SummaryHasNoItemLines(total: real, appliedCoupon: Option<Coupon>)
    ensures forall l :: l in SummaryLines(total, appliedCoupon) ==> !WhatsApp.IsItemLine(l)
  {
  }

  /** The message numbers the cart's items 1..n in cart order, each head line showing the
      product name and quantity. */
  lemma ItemsNumberedInCartOrder(customerName: string, address: string, items: seq<CartItem>,
                                 appliedCoupon: Option<Coupon>)
    ensures var heads := Seqs.Filter(MessageLines(customerName, address, items, appliedCoupon), WhatsApp.IsItemHead);
      |heads| == |items|
      && forall k :: 0 <= k < |items| ==> heads[k] == WhatsApp.ItemHead(k + 1, items[k].product.name, items[k].quantity)
  {
    var head := [WhatsApp.Title(MockData.Settings.name), WhatsApp.Client(customerName), WhatsApp.Address(address),
                 WhatsApp.ItemsHeading];
    var body, summary := WhatsApp.ItemsLines(items, 1), SummaryLines(CartContext.Total(items), appliedCoupon);
    assert MessageLines(customerName, address, items, appliedCoupon) == head + body + summary;
    Seqs.FilterConcat(head + body, summary, WhatsApp.IsItemHead);
    Seqs.FilterConcat(head, body, WhatsApp.IsItemHead);
    Seqs.FilterNonePass(head, WhatsApp.IsItemHead);
    SummaryHasNoItemLines(CartContext.Total(items), appliedCoupon);
    Seqs.FilterNonePass(summary, WhatsApp.IsItemHead);
    var heads := Seqs.Filter(body, WhatsApp.IsItemHead);
    assert Seqs.Filter(head + body, WhatsApp.IsItemHead) == heads;
    assert Seqs.Filter(head + body + summary, WhatsApp.IsItemHead) == heads;
    WhatsApp.ItemHeadsNumbered(items, 1);
  }

  /** A discount line appears exactly when a coupon is applied, and it names that coupon's
      code and the discount it gives on the cart's subtotal. */
  lemma DiscountLineIffApplied(customerName: string, address: string, items: seq<CartItem>,
                               appliedCoupon: Option<Coupon>)
    ensures var lines := MessageLines(customerName, address, items, appliedCoupon);
      && ((exists l :: l in lines && l.Discount?) <==> appliedCoupon.Some?)
      && forall l :: l in lines && l.Discount? ==>
           appliedCoupon.Some?
           && l == WhatsApp.Discount(appliedCoupon.value.code, CouponDiscount(appliedCoupon, CartContext.Total(items)))
  {
    var head := [WhatsApp.Title(MockData.Settings.name), WhatsApp.Client(customerName), WhatsApp.Address(address),
                 WhatsApp.ItemsHeading];
    var body, summary := WhatsApp.ItemsLines(items, 1), SummaryLines(CartContext.Total(items), appliedCoupon);
    var lines := MessageLines(customerName, address, items, appliedCoupon);
    assert lines == head + body + summary;
    WhatsApp.ItemsLinesAreItemLines(items, 1);
    if appliedCoupon.Some? {
      var d := WhatsApp.Discount(appliedCoupon.value.code, CouponDiscount(appliedCoupon, CartContext.Total(items)));
      assert d in summary;
      assert d in lines;
    }
    forall l | l in lines && l.Discount?
      ensures appliedCoupon.Some?
           && l == WhatsApp.Discount(appliedCoupon.value.code, CouponDiscount(appliedCoupon, CartContext.Total(items)))
    {
      assert l !in head && l !in body;
      assert l in summary;
    }
  }

  /** The item prices the message shows add up to the subtotal it shows. */
  lemma ItemPricesAddUpToSubtotal(customerName: string, address: string, items: seq<CartItem>,
                                  appliedCoupon: Option<Coupon>)
    ensures WhatsApp.PriceSum(MessageLines(customerName, address, items, appliedCoupon)) == CartContext.Total(items)
  {
    var head := [WhatsApp.Title(MockData.Settings.name), WhatsApp.Client(customerName), WhatsApp.Address(address),
                 WhatsApp.ItemsHeading];
    var body, summary := WhatsApp.ItemsLines(items, 1), SummaryLines(CartContext.Total(items), appliedCoupon);
    WhatsApp.PriceSumConcat(head + body, summary);
    WhatsApp.PriceSumConcat(head, body);
    WhatsApp.PriceSumNoPrices(head);
    WhatsApp.PriceSumNoPrices(summary);
    WhatsApp.ItemPricesAddUpToTotal(items, 1);
  }

  /** The address line of the dialog's template ends in a blank line and the items heading
      starts without one; together they give the same text as the address and heading lines. */
  lemma AddressThenHeading(address: string, lib: WhatsApp.Library)
    ensures WhatsApp.AddressLabel + address + "\n\n" + WhatsApp.ItemsOpen
         == WhatsApp.Render(WhatsApp.Address(address), lib) + WhatsApp.Render(WhatsApp.ItemsHeading, lib)
  {
    var a := WhatsApp.AddressLabel + address;
    assert a + "\n\n" == (a + "\n") + "\n";
    assert a + "\n\n" + WhatsApp.ItemsOpen == (a + "\n") + ("\n" + WhatsApp.ItemsOpen);
  }

  /** What `handleSubmit` reports. */
  datatype SubmitOutcome =
    | NameRequired
    | AddressRequired
    | Sent(url: string)

  /** The outcome of submitting the form: a name that trims to nothing is refused first,
      then such an address; otherwise the order goes out as a wa.me link to the
      store's number carrying the encoded message. */
  function SubmitResult(customerName: string, address: string, items: seq<CartItem>,
                        appliedCoupon: Option<Coupon>, lib: WhatsApp.Library): SubmitOutcome
  {
    if Trim(customerName) == "" then NameRequired
    else if Trim(address) == "" then AddressRequired
    else Sent(WhatsApp.Url(MockData.Settings.whatsapp,
                           WhatsApp.Text(MessageLines(customerName, address, items, appliedCoupon), lib), lib))
  }

  /** The name is checked before the address, and an order goes out exactly when neither
      is empty or whitespace. */
  lemma SubmitChecksNameFirst(customerName: string, address: string, items: seq<CartItem>,
                              appliedCoupon: Option<Coupon>, lib: WhatsApp.Library)
    ensures IsBlank(customerName) ==> SubmitResult(customerName, address, items, appliedCoupon, lib) == NameRequired
    ensures !IsBlank(customerName) && IsBlank(address) ==>
      SubmitResult(customerName, address, items, appliedCoupon, lib) == AddressRequired
    ensures SubmitResult(customerName, address, items, appliedCoupon, lib).Sent?
        <==> !IsBlank(customerName) && !IsBlank(address)
  {
    TrimEmptyIffBlank(customerName);
    TrimEmptyIffBlank(address);
  }

  /** A sent link reads back as the store's wa.me path and the encoded message. */
  lemma SentLinkCarriesMessage(customerName: string, address: string, items: seq<CartItem>,
                               appliedCoupon: Option<Coupon>, lib: WhatsApp.Library)
    ensures var r := SubmitResult(customerName, address, items, appliedCoupon, lib);
      r.Sent? ==>
        WhatsApp.ParseUrl(r.url)
          == Some(("https://wa.me/" + MockData.Settings.whatsapp,
                   lib.encodeUriComponent(WhatsApp.Text(MessageLines(customerName, address, items, appliedCoupon), lib))))
  {
    WhatsApp.UrlRoundTrip(MockData.Settings.whatsapp,
      WhatsApp.Text(MessageLines(customerName, address, items, appliedCoupon), lib), lib);
  }

  /** The dialog's state: the form fields and the applied coupon. */
  class CheckoutForm {
    var customerName: string
    var address: string
    var couponCode: string
    var appliedCoupon: Option<Coupon>

    /** An applied coupon is always one of the store's active coupons. */
    ghost predicate Valid()
      reads this
    {
      appliedCoupon.Some? ==> appliedCoupon.value in MockData.Coupons && appliedCoupon.value.active
    }

    /** What the invariant gives the summary: the final total the dialog shows for a
        non-negative subtotal is never negative. */
    lemma ShownTotalNonNegative(total: real)
      requires Valid() && total >= 0.0
      ensures FinalTotal(total, MockData.Settings.deliveryFee, CouponDiscount(appliedCoupon, total)) >= 0.0
    {
      if appliedCoupon.Some? {
        StoreCouponKeepsTotal(appliedCoupon.value, total);
      }
    }

    /** Every field starts empty and no coupon is applied. */
    constructor ()
      ensures Valid()
      ensures customerName == "" && address == "" && couponCode == "" && appliedCoupon == None
    {
      customerName, address, couponCode, appliedCoupon := "", "", "", None;
    }

    /** `handleApplyCoupon`: applies the first active coupon whose code matches the typed
        code ignoring case; when none matches, the applied coupon stays as it was. */
    method ApplyCoupon() returns (applied: bool)
      requires Valid()
      modifies this
      ensures Valid()
      ensures applied <==> FindCoupon(MockData.Coupons, couponCode).Some?
      ensures appliedCoupon == if applied then FindCoupon(MockData.Coupons, couponCode) else old(appliedCoupon)
      ensures customerName == old(customerName) && address == old(address) && couponCode == old(couponCode)
    {
      var coupon := FindCoupon(MockData.Coupons, couponCode);
      if coupon.Some? {
        appliedCoupon := coupon;
        applied := true;
      } else {
        applied := false;
      }
    }

    /** `handleRemoveCoupon`: no coupon applied and the code field cleared. */
    method RemoveCoupon()
      requires Valid()
      modifies this
      ensures Valid()
      ensures appliedCoupon == None && couponCode == ""
      ensures customerName == old(customerName) && address == old(address)
    {
      appliedCoupon := None;
      couponCode := "";
    }

    /** `generateWhatsAppMessage` of the dialog: appends the template line by line and item by
        item, then encodes the whole message for a URL. */
    method GenerateMessage(items: seq<CartItem>, lib: WhatsApp.Library) returns (encoded: string)
      ensures encoded == lib.encodeUriComponent(
        WhatsApp.Text(MessageLines(customerName, address, items, appliedCoupon), lib))
    {
      var message := WhatsApp.Emit("", [], WhatsApp.Title(MockData.Settings.name), lib);
      ghost var emitted := [WhatsApp.Title(MockData.Settings.name)];
      message := WhatsApp.Emit(message, emitted, WhatsApp.Client(customerName), lib);
      emitted := emitted + [WhatsApp.Client(customerName)];
      message := message + (WhatsApp.AddressLabel + address + "\n\n");
      message := message + WhatsApp.ItemsOpen;
      AddressThenHeading(address, lib);
      WhatsApp.TextAppend(emitted, WhatsApp.Address(address), lib);
      WhatsApp.TextAppend(emitted + [WhatsApp.Address(address)], WhatsApp.ItemsHeading, lib);
      emitted := emitted + [WhatsApp.Address(address)] + [WhatsApp.ItemsHeading];
      assert emitted == [WhatsApp.Title(MockData.Settings.name), WhatsApp.Client(customerName),
                         WhatsApp.Address(address), WhatsApp.ItemsHeading];
      message := WhatsApp.AppendItems(message, items, emitted, lib);
      emitted := emitted + WhatsApp.ItemsLines(items, 1);
      message := AppendSummary(message, CartContext.Total(items), appliedCoupon, emitted, lib);
      encoded := lib.encodeUriComponent(message);
    }

    /** `handleSubmit`: reports what `SubmitResult` says for the form and the cart, and
        empties the cart exactly when the order goes out. The form itself is left as it was. */
    method Submit(cart: CartContext.CartStore, lib: WhatsApp.Library) returns (outcome: SubmitOutcome)
      requires cart.Valid()
      modifies cart
      ensures cart.Valid()
      ensures outcome == SubmitResult(customerName, address, old(cart.items), appliedCoupon, lib)
      ensures cart.items == if outcome.Sent? then [] else old(cart.items)
    {
      if Trim(customerName) == "" {
        return NameRequired;
      }
      if Trim(address) == "" {
        return AddressRequired;
      }
      var message := GenerateMessage(cart.items, lib);
      var whatsappUrl := "https://wa.me/" + MockData.Settings.whatsapp + "?text=" + message;
      cart.ClearCart();
      return Sent(whatsappUrl);
    }
  }

  /** The summary part of `generateWhatsAppMessage`: appends the rule, subtotal and fee
      lines, then the discount line and the total. */
  method AppendSummary(message0: string, total: real, appliedCoupon: Option<Coupon>,
                       ghost prefix: seq<WhatsApp.Line>, lib: WhatsApp.Library)
    returns (message: string)
    requires message0 == WhatsApp.Text(prefix, lib)
    ensures message == WhatsApp.Text(prefix + SummaryLines(total, appliedCoupon), lib)
  {
    var deliveryFee := MockData.Settings.deliveryFee;
    var discount := CouponDiscount(appliedCoupon, total);
    ghost var charges := [WhatsApp.Rule, WhatsApp.Subtotal(total), WhatsApp.Fee(deliveryFee)];
    message := AppendCharges(message0, total, deliveryFee, prefix, lib);
    message := AppendClosing(message, total, deliveryFee, appliedCoupon, discount, prefix + charges, lib);
    Seqs.ConcatAssoc3(prefix, charges, ClosingLines(total, deliveryFee, appliedCoupon, discount));
  }

  /** Appends the rule, the subtotal and the delivery fee lines. */
  method AppendCharges(message0: string, total: real, deliveryFee: real, ghost prefix: seq<WhatsApp.Line>,
                       lib: WhatsApp.Library)
    returns (message: string)
    requires message0 == WhatsApp.Text(prefix, lib)
    ensures message == WhatsApp.Text(prefix + [WhatsApp.Rule, WhatsApp.Subtotal(total), WhatsApp.Fee(deliveryFee)], lib)
  {
    message := WhatsApp.Emit(message0, prefix, WhatsApp.Rule, lib);
    message := WhatsApp.Emit(message, prefix + [WhatsApp.Rule], WhatsApp.Subtotal(total), lib);
    message := WhatsApp.Emit(message, prefix + [WhatsApp.Rule] + [WhatsApp.Subtotal(total)], WhatsApp.Fee(deliveryFee), lib);
    assert prefix + [WhatsApp.Rule] + [WhatsApp.Subtotal(total)] + [WhatsApp.Fee(deliveryFee)]
        == prefix + [WhatsApp.Rule, WhatsApp.Subtotal(total), WhatsApp.Fee(deliveryFee)];
  }

  /** Appends the discount line when a coupon is applied, then the final total. */
  method AppendClosing(message0: string, total: real, deliveryFee: real, appliedCoupon: Option<Coupon>,
                       discount: real, ghost prefix: seq<WhatsApp.Line>, lib: WhatsApp.Library)
    returns (message: string)
    requires message0 == WhatsApp.Text(prefix, lib)
    ensures message == WhatsApp.Text(prefix + ClosingLines(total, deliveryFee, appliedCoupon, discount), lib)
  {
    message := message0;
    ghost var emitted := prefix;
    if appliedCoupon.Some? {
      message := WhatsApp.Emit(message, prefix, WhatsApp.Discount(appliedCoupon.value.code, discount), lib);
      emitted := prefix + [WhatsApp.Discount(appliedCoupon.value.code, discount)];
    } else {
      assert prefix + [] == prefix;
    }
    var finalTotal := FinalTotal(total, deliveryFee, discount);
    message := WhatsApp.Emit(message, emitted, WhatsApp.Total(finalTotal), lib);
    assert emitted + [WhatsApp.Total(finalTotal)] == prefix + ClosingLines(total, deliveryFee, appliedCoupon, discount);
  }

}
