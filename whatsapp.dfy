/** The order message of src/utils/whatsapp.ts and its deep link. The message is a fixed
    template of lines; the lines that are optional appear under stated conditions. The
    model states the template as a sequence of typed lines (`MessageLines`) and proves
    that the imperative generator, which appends to a string line by line and item by
    item, produces exactly the rendering of those lines. */
module WhatsApp {
  import opened Types
  import opened Strings
  import Seqs
  import CartContext

  /** Library behaviour the template calls into and the model does not define:
      the currency formatter `formatPrice`, `Number(...)` on a string, and
      `encodeURIComponent`. */
  datatype Library = Library(
    formatPrice: real -> string,
    toNumber: string -> real,
    encodeUriComponent: string -> string)

  /** One line of the order message. */
  datatype Line =
    | Title(store: string)
    | Client(name: string)
    | Address(address: string)
    | Payment(paymentMethod: string)
    | Change(tendered: string)
    | ItemsHeading
    | ItemHead(number: int, name: string, quantity: int)
    | MeatPoint(point: string)
    | Extras(names: seq<string>)
    | Note(text: string)
    | ItemPrice(amount: real)
    | Rule
    | Subtotal(amount: real)
    | Fee(amount: real)
    | Discount(code: string, amount: real)
    | Total(amount: real)

  /** The fixed fragments of the template. */
  const TitleOpen: string := "\U{1F354} *NOVO PEDIDO - "
  const ClientLabel: string := "\U{1F464} *Cliente:* "
  const AddressLabel: string := "\U{1F4CD} *Endere\U{E7}o:* "
  const PaymentLabel: string := "\U{1F4B3} *Pagamento:* "
  const ChangeLabel: string := "\U{1F4B5} *Troco para:* "
  const ItemsOpen: string := "\U{1F4CB} *Itens do Pedido:*\n"
  const ItemsTitle: string := "\n" + ItemsOpen
  const PointLabel: string := "   Ponto: "
  const ExtrasLabel: string := "   Adicionais: "
  const NoteLabel: string := "   Obs: "
  const Indent: string := "   "
  /** Fifteen heavy horizontal box-drawing characters. */
  const RuleBar: string := "\U{2501}\U{2501}\U{2501}\U{2501}\U{2501}\U{2501}\U{2501}\U{2501}\U{2501}\U{2501}\U{2501}\U{2501}\U{2501}\U{2501}\U{2501}"
  const SubtotalLabel: string := "Subtotal: "
  const FeeLabel: string := "Taxa de entrega: "
  const TotalLabel: string := "*TOTAL: "

  /** The text each line contributes to the message. */
  function Render(line: Line, lib: Library): string {
    match line
    case Title(store) => TitleOpen + store + "*\n\n"
    case Client(name) => ClientLabel + name + "\n"
    case Address(address) => AddressLabel + address + "\n"
    case Payment(paymentMethod) => PaymentLabel + paymentMethod + "\n"
    case Change(tendered) => ChangeLabel + lib.formatPrice(lib.toNumber(tendered)) + "\n"
    case ItemsHeading => ItemsTitle
    case ItemHead(number, name, quantity) =>
      "\n" + IntToString(number) + ". *" + name + "* x" + IntToString(quantity) + "\n"
    case MeatPoint(point) => PointLabel + point + "\n"
    case Extras(names) => ExtrasLabel + Join(names, ", ") + "\n"
    case Note(text) => NoteLabel + text + "\n"
    case ItemPrice(amount) => Indent + lib.formatPrice(amount) + "\n"
    case Rule => "\n" + RuleBar + "\n"
    case Subtotal(amount) => SubtotalLabel + lib.formatPrice(amount) + "\n"
    case Fee(amount) => FeeLabel + lib.formatPrice(amount) + "\n"
    case Discount(code, amount) => "Desconto (" + code + "): -" + lib.formatPrice(amount) + "\n"
    case Total(amount) => TotalLabel + lib.formatPrice(amount) + "*\n"
  }

  /** `Render` as a function value. */
  function Renderer(lib: Library): Line -> string {
    line => Render(line, lib)
  }

  /** The message text of a sequence of lines, appended left to right. */
  function Text(lines: seq<Line>, lib: Library): string {
    Seqs.FlatMap(lines, Renderer(lib))
  }

  /** Appending a line appends its rendering. */
  lemma TextAppend(lines: seq<Line>, line: Line, lib: Library)
    ensures Text(lines + [line], lib) == Text(lines, lib) + Render(line, lib)
  {
    assert (lines + [line])[..|lines|] == lines;
  }

  /** A single line renders as itself. */
  lemma TextSingle(line: Line, lib: Library)
    ensures Text([line], lib) == Render(line, lib)
  {
    Seqs.FlatMapSingle(line, Renderer(lib));
  }

  /** JavaScript truthiness of an optional string: present and not empty. */
  predicate Truthy(s: Option<string>) {
    s.Some? && s.value != ""
  }

  /** The names of some additionals, in order (`additionals.map((a) => a.name)`). */
  function Names(additionals: seq<Additional>): (r: seq<string>)
    ensures |r| == |additionals|
    ensures forall i :: 0 <= i < |r| ==> r[i] == additionals[i].name
  {
    if additionals == [] then [] else [additionals[0].name] + Names(additionals[1..])
  }

  /** The detail lines of one item: the meat point when a non-empty one is set, the
      additionals' names when there are any, and the notes when non-empty. */
  function ItemDetails(item: CartItem): seq<Line> {
    Seqs.Optional(Truthy(item.meatPoint), MeatPoint(item.meatPoint.GetOr("")))
    + Seqs.Optional(|item.additionals| > 0, Extras(Names(item.additionals)))
    + Seqs.Optional(item.notes != "", Note(item.notes))
  }

  /** Each detail line appears exactly under its condition, carries the item's own value,
      and nothing else appears among the details. */
  lemma ItemDetailsContents(item: CartItem)
    ensures forall l :: l in ItemDetails(item) ==> l.MeatPoint? || l.Extras? || l.Note?
    ensures (exists l :: l in ItemDetails(item) && l.MeatPoint?) <==> Truthy(item.meatPoint)
    ensures (exists l :: l in ItemDetails(item) && l.Extras?) <==> |item.additionals| > 0
    ensures (exists l :: l in ItemDetails(item) && l.Note?) <==> item.notes != ""
    ensures forall l :: l in ItemDetails(item) && l.MeatPoint? ==> l.point == item.meatPoint.GetOr("")
    ensures forall l :: l in ItemDetails(item) && l.Extras? ==> l.names == Names(item.additionals)
    ensures forall l :: l in ItemDetails(item) && l.Note? ==> l.text == item.notes
  {
    forall l ensures l in ItemDetails(item) <==> DetailFor(item, l) {
      ItemDetailsMembers(item, l);
    }
    if Truthy(item.meatPoint) {
      assert DetailFor(item, MeatPoint(item.meatPoint.value));
    }
    if |item.additionals| > 0 {
      assert DetailFor(item, Extras(Names(item.additionals)));
    }
    if item.notes != "" {
      assert DetailFor(item, Note(item.notes));
    }
  }

  /** `l` is the meat point, additionals or notes line that `item` calls for. */
  predicate DetailFor(item: CartItem, l: Line) {
    || (Truthy(item.meatPoint) && l == MeatPoint(item.meatPoint.value))
    || (|item.additionals| > 0 && l == Extras(Names(item.additionals)))
    || (item.notes != "" && l == Note(item.notes))
  }

  /** The detail lines are exactly the lines the item calls for. */
  lemma ItemDetailsMembers(item: CartItem, l: Line)
    ensures l in ItemDetails(item) <==> DetailFor(item, l)
  {
    var a := Seqs.Optional(Truthy(item.meatPoint), MeatPoint(item.meatPoint.GetOr("")));
    var b := Seqs.Optional(|item.additionals| > 0, Extras(Names(item.additionals)));
    var c := Seqs.Optional(item.notes != "", Note(item.notes));
    assert l in a + b + c <==> l in a || l in b || l in c;
  }

  /** The details are meat point, additionals and notes lines only. */
  lemma ItemDetailsKinds(item: CartItem)
    ensures forall l :: l in ItemDetails(item) ==> l.MeatPoint? || l.Extras? || l.Note?
  {
  }

  /** The lines for one cart item, numbered `number`: the numbered head with the product
      name and quantity, the detail lines, and the line total. */
  function ItemLines(item: CartItem, number: int): seq<Line> {
    [ItemHead(number, item.product.name, item.quantity)]
    + ItemDetails(item)
    + [ItemPrice(CartContext.LineTotal(item))]
  }

  /** The lines for all items, in order, numbered from `first`. */
  function ItemsLines(items: seq<CartItem>, first: int): seq<Line> {
    Seqs.FlatMapNumbered(items, first, ItemLines)
  }

  /** Lines that belong to an item block. */
  predicate IsItemLine(line: Line) {
    line.ItemHead? || line.MeatPoint? || line.Extras? || line.Note? || line.ItemPrice?
  }

  /** The numbered head line of an item block. */
  predicate IsItemHead(line: Line) {
    line.ItemHead?
  }

  /** Item `k` of the cart is emitted as the block numbered `k + 1`, after the blocks of the
      items before it and before those of the items after it. */
  lemma ItemsInCartOrder(items: seq<CartItem>, k: int)
    requires 0 <= k < |items|
    ensures ItemsLines(items, 1)
         == ItemsLines(items[..k], 1) + ItemLines(items[k], k + 1) + ItemsLines(items[k + 1..], k + 2)
  {
    Seqs.FlatMapNumberedAt(items, 1, k, ItemLines);
  }

  /** An item block holds exactly one head line. */
  lemma BlockHead(item: CartItem, number: int)
    ensures Seqs.Filter(ItemLines(item, number), IsItemHead) == [ItemHead(number, item.product.name, item.quantity)]
  {
    var head, details, price := ItemHead(number, item.product.name, item.quantity), ItemDetails(item),
      ItemPrice(CartContext.LineTotal(item));
    Seqs.FilterConcat([head] + details, [price], IsItemHead);
    Seqs.FilterConcat([head], details, IsItemHead);
    ItemDetailsKinds(item);
    Seqs.FilterNonePass(details, IsItemHead);
  }

  /** The numbered head lines of the item section, in order: one per cart item, item `k`
      numbered `k + first` and showing its product name and quantity. */
  lemma ItemHeadsNumbered(items: seq<CartItem>, first: int)
    ensures |Seqs.Filter(ItemsLines(items, first), IsItemHead)| == |items|
    ensures forall k :: 0 <= k < |items| ==>
      Seqs.Filter(ItemsLines(items, first), IsItemHead)[k]
        == ItemHead(k + first, items[k].product.name, items[k].quantity)
  {
    forall k | 0 <= k < |items|
      ensures Seqs.Filter(ItemLines(items[k], first + k), IsItemHead)
           == [ItemHead(first + k, items[k].product.name, items[k].quantity)]
    {
      BlockHead(items[k], first + k);
    }
    Seqs.FilterFlatMapNumbered(items, first, ItemLines, IsItemHead,
      (item: CartItem, n: int) => ItemHead(n, item.product.name, item.quantity));
  }

  /** Every line of an item block is an item line. */
  lemma ItemLinesKinds(item: CartItem, number: int)
    ensures forall l :: l in ItemLines(item, number) ==> IsItemLine(l)
  {
    ItemDetailsKinds(item);
  }

  /** Every line of the item section belongs to some item block. */
  lemma ItemsLinesAreItemLines(items: seq<CartItem>, first: int)
    ensures forall l :: l in ItemsLines(items, first) ==> IsItemLine(l)
  {
    forall k | 0 <= k < |items|
      ensures forall l :: l in ItemLines(items[k], first + k) ==> IsItemLine(l)
    {
      ItemLinesKinds(items[k], first + k);
    }
    Seqs.FlatMapNumberedAll(items, first, ItemLines, IsItemLine);
  }

  /** Sum of the amounts of the item price lines. */
  function PriceSum(lines: seq<Line>): real {
    if lines == [] then 0.0
    else
      var last := lines[|lines| - 1];
      PriceSum(lines[..|lines| - 1]) + (if last.ItemPrice? then last.amount else 0.0)
  }

  lemma {:induction false} PriceSumConcat(a: seq<Line>, b: seq<Line>)
    ensures PriceSum(a + b) == PriceSum(a) + PriceSum(b)
  {
    if b == [] {
      assert a + b == a;
    } else {
      PriceSumConcat(a, b[..|b| - 1]);
      assert (a + b)[..|a + b| - 1] == a + b[..|b| - 1];
    }
  }

  /** The one price line of an item block shows the cart's line total for that item. */
  lemma BlockPrice(item: CartItem, number: int)
    ensures PriceSum(ItemLines(item, number)) == CartContext.LineTotal(item)
  {
    var front := [ItemHead(number, item.product.name, item.quantity)] + ItemDetails(item);
    var price := ItemPrice(CartContext.LineTotal(item));
    assert ItemLines(item, number) == front + [price];
    ItemDetailsKinds(item);
    PriceSumNoPrices(front);
    assert (front + [price])[..|front|] == front;
  }

  /** The per-item prices of the message add up to the cart total: each item shows
      (product price + additionals) times its quantity. */
  lemma ItemPricesAddUpToTotal(items: seq<CartItem>, first: int)
    ensures PriceSum(ItemsLines(items, first)) == CartContext.Total(items)
  {
    forall a: seq<Line>, b: seq<Line> ensures PriceSum(a + b) == PriceSum(a) + PriceSum(b) {
      PriceSumConcat(a, b);
    }
    forall k | 0 <= k < |items| ensures PriceSum(ItemLines(items[k], first + k)) == CartContext.LineTotal(items[k]) {
      BlockPrice(items[k], first + k);
    }
    Seqs.FlatMapNumberedSum(items, first, ItemLines, PriceSum, CartContext.LineTotal);
  }

  lemma {:induction false} PriceSumNoPrices(lines: seq<Line>)
    requires forall l :: l in lines ==> !l.ItemPrice?
    ensures PriceSum(lines) == 0.0
  {
    if lines != [] {
      PriceSumNoPrices(lines[..|lines| - 1]);
    }
  }

  /** The inputs of `generateWhatsAppMessage`; an absent coupon code is `None`. */
  datatype MessageParams = MessageParams(
    storeName: string,
    customerName: string,
    address: string,
    paymentMethod: string,
    changeNeeded: bool,
    changeAmount: string,
    items: seq<CartItem>,
    subtotal: real,
    deliveryFee: real,
    discount: real,
    couponCode: Option<string>,
    finalTotal: real)

  /** The change line is written for cash payments when change is asked for and an amount given. */
  predicate ChangeShown(p: MessageParams) {
    p.paymentMethod == "Dinheiro" && p.changeNeeded && p.changeAmount != ""
  }

  /** The discount line is written when a coupon code is given and the discount is positive. */
  predicate DiscountShown(p: MessageParams) {
    Truthy(p.couponCode) && p.discount > 0.0
  }

  /** The lines before the item section: title, client, address, payment, optional change. */
  function HeadLines(p: MessageParams): seq<Line> {
    [Title(p.storeName), Client(p.customerName), Address(p.address), Payment(p.paymentMethod)]
    + (if ChangeShown(p) then [Change(p.changeAmount)] else [])
    + [ItemsHeading]
  }

  /** The lines after the item section: rule, subtotal, fee, optional discount, total. */
  function SummaryLines(p: MessageParams): seq<Line> {
    [Rule, Subtotal(p.subtotal), Fee(p.deliveryFee)]
    + (if DiscountShown(p) then [Discount(p.couponCode.value, p.discount)] else [])
    + [Total(p.finalTotal)]
  }

  /** The whole message as lines. */
  function MessageLines(p: MessageParams): seq<Line> {
    HeadLines(p) + ItemsLines(p.items, 1) + SummaryLines(p)
  }

  /** A change line appears exactly when `ChangeShown`, and then it carries the given amount. */
  lemma ChangeLineIff(p: MessageParams)
    ensures (exists l :: l in MessageLines(p) && l.Change?) <==> ChangeShown(p)
    ensures forall l :: l in MessageLines(p) && l.Change? ==> l == Change(p.changeAmount)
  {
    ItemsLinesAreItemLines(p.items, 1);
    var lines := MessageLines(p);
    if ChangeShown(p) {
      assert Change(p.changeAmount) in HeadLines(p);
      assert Change(p.changeAmount) in lines;
    }
    forall l | l in lines && l.Change? ensures ChangeShown(p) && l == Change(p.changeAmount) {
      assert l !in ItemsLines(p.items, 1) && l !in SummaryLines(p);
      assert l in HeadLines(p);
    }
  }

  /** A discount line appears exactly when `DiscountShown`, and then it names the coupon
      and the discount. */
  lemma DiscountLineIff(p: MessageParams)
    ensures (exists l :: l in MessageLines(p) && l.Discount?) <==> DiscountShown(p)
    ensures forall l :: l in MessageLines(p) && l.Discount? ==>
      p.couponCode.Some? && l == Discount(p.couponCode.value, p.discount)
  {
    ItemsLinesAreItemLines(p.items, 1);
    var lines := MessageLines(p);
    if DiscountShown(p) {
      assert Discount(p.couponCode.value, p.discount) in SummaryLines(p);
      assert Discount(p.couponCode.value, p.discount) in lines;
    }
    forall l | l in lines && l.Discount?
      ensures DiscountShown(p) && l == Discount(p.couponCode.value, p.discount)
    {
      assert l !in ItemsLines(p.items, 1) && l !in HeadLines(p);
      assert l in SummaryLines(p);
    }
  }

  /** The message opens with the title, client, address and payment lines, in that order. */
  lemma MessageOpening(p: MessageParams, lib: Library)
    ensures var m := Text(MessageLines(p), lib);
      var opening := Render(Title(p.storeName), lib) + Render(Client(p.customerName), lib)
        + Render(Address(p.address), lib) + Render(Payment(p.paymentMethod), lib);
      |opening| <= |m| && m[..|opening|] == opening
  {
    var m := Text(MessageLines(p), lib);
    var items := ItemsLines(p.items, 1);
    var l1 := [Title(p.storeName)];
    var l2 := l1 + [Client(p.customerName)];
    var l3 := l2 + [Address(p.address)];
    var four := l3 + [Payment(p.paymentMethod)];
    TextSingle(Title(p.storeName), lib);
    TextAppend(l1, Client(p.customerName), lib);
    TextAppend(l2, Address(p.address), lib);
    TextAppend(l3, Payment(p.paymentMethod), lib);
    var headRest := (if ChangeShown(p) then [Change(p.changeAmount)] else []) + [ItemsHeading];
    assert HeadLines(p) == four + headRest;
    Seqs.ConcatAssoc(four, headRest, items, SummaryLines(p));
    Seqs.FlatMapConcat(four, headRest + items + SummaryLines(p), Renderer(lib));
    var opening := Text(four, lib);
    var after := Text(headRest + items + SummaryLines(p), lib);
    assert m == opening + after;
    assert m[..|opening|] == opening;
  }

  /** The message always closes with the total line. */
  lemma MessageClosing(p: MessageParams, lib: Library)
    ensures var m := Text(MessageLines(p), lib);
      var closing := Render(Total(p.finalTotal), lib);
      |closing| <= |m| && m[|m| - |closing|..] == closing
  {
    var m := Text(MessageLines(p), lib);
    var items := ItemsLines(p.items, 1);
    var summaryFront := [Rule, Subtotal(p.subtotal), Fee(p.deliveryFee)]
      + (if DiscountShown(p) then [Discount(p.couponCode.value, p.discount)] else []);
    assert SummaryLines(p) == summaryFront + [Total(p.finalTotal)];
    Seqs.ConcatAssoc3(HeadLines(p) + items, summaryFront, [Total(p.finalTotal)]);
    TextAppend(HeadLines(p) + items + summaryFront, Total(p.finalTotal), lib);
    var before, closing := Text(HeadLines(p) + items + summaryFront, lib), Render(Total(p.finalTotal), lib);
    assert m == before + closing;
    assert m[|m| - |closing|..] == closing;
  }

  /** `generateWhatsAppMessage`: builds the message by successive appends and a loop over
      the items; the result is exactly the rendering of `MessageLines`. */
  method GenerateMessage(p: MessageParams, lib: Library) returns (message: string)
    ensures message == Text(MessageLines(p), lib)
  {
    message := WriteHead(p, lib);
    message := AppendItems(message, p.items, HeadLines(p), lib);
    message := AppendSummary(message, p, HeadLines(p) + ItemsLines(p.items, 1), lib);
  }

  /** The opening appends of `generateWhatsAppMessage`: title, client, address, payment,
      the change line for a cash payment that asks for change, and the items heading. */
  method WriteHead(p: MessageParams, lib: Library) returns (message: string)
    ensures message == Text(HeadLines(p), lib)
  {
    message := Emit("", [], Title(p.storeName), lib);
    ghost var emitted := [Title(p.storeName)];
    message := Emit(message, emitted, Client(p.customerName), lib);
    emitted := emitted + [Client(p.customerName)];
    message := Emit(message, emitted, Address(p.address), lib);
    emitted := emitted + [Address(p.address)];
    message := Emit(message, emitted, Payment(p.paymentMethod), lib);
    emitted := emitted + [Payment(p.paymentMethod)];
    ghost var four := emitted;
    if p.paymentMethod == "Dinheiro" && p.changeNeeded && p.changeAmount != "" {
      message := Emit(message, emitted, Change(p.changeAmount), lib);
      emitted := emitted + [Change(p.changeAmount)];
    }
    message := Emit(message, emitted, ItemsHeading, lib);
    emitted := emitted + [ItemsHeading];
    assert four == [Title(p.storeName), Client(p.customerName), Address(p.address), Payment(p.paymentMethod)];
    assert emitted == four + (if ChangeShown(p) then [Change(p.changeAmount)] else []) + [ItemsHeading];
  }

  /** The closing appends of `generateWhatsAppMessage`: rule, subtotal, delivery fee, the
      discount line when a coupon code is given and the discount is positive, and the total. */
  method AppendSummary(message0: string, p: MessageParams, ghost prefix: seq<Line>, lib: Library)
    returns (message: string)
    requires message0 == Text(prefix, lib)
    ensures message == Text(prefix + SummaryLines(p), lib)
  {
    ghost var summary: seq<Line> := [];
    assert prefix + summary == prefix;
    message := Emit(message0, prefix + summary, Rule, lib);
    Seqs.ConcatAssoc3(prefix, summary, [Rule]);
    summary := summary + [Rule];
    message := Emit(message, prefix + summary, Subtotal(p.subtotal), lib);
    Seqs.ConcatAssoc3(prefix, summary, [Subtotal(p.subtotal)]);
    summary := summary + [Subtotal(p.subtotal)];
    message := Emit(message, prefix + summary, Fee(p.deliveryFee), lib);
    Seqs.ConcatAssoc3(prefix, summary, [Fee(p.deliveryFee)]);
    summary := summary + [Fee(p.deliveryFee)];
    assert summary == [Rule, Subtotal(p.subtotal), Fee(p.deliveryFee)];
    ghost var front := summary;
    if p.couponCode.Some? && p.couponCode.value != "" && p.discount > 0.0 {
      message := Emit(message, prefix + summary, Discount(p.couponCode.value, p.discount), lib);
      Seqs.ConcatAssoc3(prefix, summary, [Discount(p.couponCode.value, p.discount)]);
      summary := summary + [Discount(p.couponCode.value, p.discount)];
    }
    message := Emit(message, prefix + summary, Total(p.finalTotal), lib);
    Seqs.ConcatAssoc3(prefix, summary, [Total(p.finalTotal)]);
    summary := summary + [Total(p.finalTotal)];
    assert summary == front + (if DiscountShown(p) then [Discount(p.couponCode.value, p.discount)] else []) + [Total(p.finalTotal)];
  }

  /** One `message +=` of the template: appends the rendering of `line`. */
  method Emit(message0: string, ghost lines: seq<Line>, line: Line, lib: Library) returns (message: string)
    requires message0 == Text(lines, lib)
    ensures message == Text(lines + [line], lib)
  {
    message := message0 + Render(line, lib);
    TextAppend(lines, line, lib);
  }

  /** The `items.forEach` loop shared by both message builders: appends every item's
      block, numbered from 1, to `message`. */
  method AppendItems(message0: string, items: seq<CartItem>, ghost prefix: seq<Line>, lib: Library)
    returns (message: string)
    requires message0 == Text(prefix, lib)
    ensures message == Text(prefix + ItemsLines(items, 1), lib)
  {
    message := message0;
    var index := 0;
    assert prefix + ItemsLines(items[..index], 1) == prefix;
    while index < |items|
      invariant 0 <= index <= |items|
      invariant message == Text(prefix + ItemsLines(items[..index], 1), lib)
    {
      ghost var done := prefix + ItemsLines(items[..index], 1);
      message := AppendItem(message, items[index], index + 1, done, lib);
      Seqs.FlatMapNumberedPrefix(prefix, items, index, 1, ItemLines);
      index := index + 1;
    }
    assert items[..index] == items;
  }

  /** The `forEach` callback: appends the block of one item, numbered `number`. */
  method AppendItem(message0: string, item: CartItem, number: int, ghost prefix: seq<Line>, lib: Library)
    returns (message: string)
    requires message0 == Text(prefix, lib)
    ensures message == Text(prefix + ItemLines(item, number), lib)
  {
    var unitPrice := item.product.price + CartContext.AdditionalsTotal(item.additionals);
    var itemTotal := unitPrice * item.quantity as real;
    ItemTotalIsLineTotal(item, unitPrice);
    ghost var head := ItemHead(number, item.product.name, item.quantity);
    message := Emit(message0, prefix, ItemHead(number, item.product.name, item.quantity), lib);
    message := AppendDetails(message, item, prefix + [head], lib);
    message := Emit(message, prefix + [head] + ItemDetails(item), ItemPrice(itemTotal), lib);
    Seqs.ConcatAssoc(prefix, [head], ItemDetails(item), [ItemPrice(itemTotal)]);
  }

  /** The optional detail lines of one item, each appended under its own condition. */
  method AppendDetails(message0: string, item: CartItem, ghost prefix: seq<Line>, lib: Library)
    returns (message: string)
    requires message0 == Text(prefix, lib)
    ensures message == Text(prefix + ItemDetails(item), lib)
  {
    message := message0;
    if item.meatPoint.Some? && item.meatPoint.value != "" {
      message := message + Render(MeatPoint(item.meatPoint.value), lib);
    }
    ghost var point := Seqs.Optional(Truthy(item.meatPoint), MeatPoint(item.meatPoint.GetOr("")));
    Seqs.FlatMapAppendOptional(prefix, Truthy(item.meatPoint), MeatPoint(item.meatPoint.GetOr("")), Renderer(lib));
    assert message == Text(prefix + point, lib);
    if |item.additionals| > 0 {
      message := message + Render(Extras(Names(item.additionals)), lib);
    }
    ghost var extras := Seqs.Optional(|item.additionals| > 0, Extras(Names(item.additionals)));
    Seqs.FlatMapAppendOptional(prefix + point, |item.additionals| > 0, Extras(Names(item.additionals)), Renderer(lib));
    assert message == Text(prefix + point + extras, lib);
    if item.notes != "" {
      message := message + Render(Note(item.notes), lib);
    }
    ghost var note := Seqs.Optional(item.notes != "", Note(item.notes));
    Seqs.FlatMapAppendOptional(prefix + point + extras, item.notes != "", Note(item.notes), Renderer(lib));
    assert message == Text(prefix + point + extras + note, lib);
    Seqs.ConcatAssoc(prefix, point, extras, note);
  }

  /** The total the message prints for an item is the cart's line total. */
  lemma ItemTotalIsLineTotal(item: CartItem, unitPrice: real)
    requires unitPrice == item.product.price + CartContext.AdditionalsTotal(item.additionals)
    ensures unitPrice * item.quantity as real == CartContext.LineTotal(item)
  {
  }

  /** `generateWhatsAppUrl`: the deep link carrying the encoded message. */
  function Url(phoneNumber: string, message: string, lib: Library): string {
    "https://wa.me/" + phoneNumber + "?text=" + lib.encodeUriComponent(message)
  }

  /** Reads a deep link back: the path before the first `?`, and the value of a `text`
      parameter that follows it directly. */
  function ParseUrl(url: string): Option<(string, string)> {
    match IndexOf(url, "?", 0)
    case None => None
    case Some(q) =>
      var query := url[q + 1..];
      if |query| >= 5 && query[..5] == "text=" then Some((url[..q], query[5..])) else None
  }

  /** For a phone number without `?`, the link reads back as the store's wa.me path and
      the encoded message: nothing of the message leaks into the path. */
  lemma UrlRoundTrip(phoneNumber: string, message: string, lib: Library)
    requires forall i :: 0 <= i < |phoneNumber| ==> phoneNumber[i] != '?'
    ensures ParseUrl(Url(phoneNumber, message, lib))
         == Some(("https://wa.me/" + phoneNumber, lib.encodeUriComponent(message)))
  {
    var path := "https://wa.me/" + phoneNumber;
    var url := Url(phoneNumber, message, lib);
    assert url == path + "?text=" + lib.encodeUriComponent(message);
    forall j: nat | j < |path| ensures !OccursAt(url, "?", j) {
      assert url[j..j + 1] == [path[j]];
    }
    assert OccursAt(url, "?", |path|);
    assert IndexOf(url, "?", 0) == Some(|path|);
    var query := url[|path| + 1..];
    assert query == "text=" + lib.encodeUriComponent(message);
    assert query[..5] == "text=" && query[5..] == lib.encodeUriComponent(message);
    assert url[..|path|] == path;
  }
}
