# Central Burger storefront: a verified model of its ordering rules

This project models in Dafny the rules behind the Central Burger ordering storefront, a React app whose customers build a cart from a menu and send the order to the store over WhatsApp. The parts it covers:

- **The cart store** (`CartContext`). A class whose `items` sequence changes through `AddItem`, `RemoveItem`, `UpdateQuantity` and `ClearCart`. Beside it are the two folds the page shows: the money `Total` and the unit `ItemCount`. Each method states the whole new list and how both folds move. The invariant that every line holds at least one unit is preserved throughout.
- **The checkout dialog** (`CheckoutModal`). It covers:
  - the discount chosen by coupon type, and the final total;
  - the case-insensitive lookup of an active coupon;
  - applying and removing a coupon;
  - the order message, built by appending line by line and item by item;
  - the submit handler, which checks the name, then the address, sends the wa.me link and empties the cart.
- **The WhatsApp message builder** (`WhatsApp`). The message is modelled as a list of typed lines. The imperative builder is proved to produce exactly the rendering of that list. Lemmas state when each optional line appears, that items are numbered 1..n in cart order, and that the per-item prices add up to the cart total. A further lemma shows the deep link reads back as the store's path plus the encoded message.
- **The product customization dialog** (`CustomizationModal`). It covers:
  - toggling additionals by id;
  - the price shown;
  - the hand-over to the cart, with a meat point for burgers only;
  - resetting the dialog.
- **The menu page** (`Menu`). It covers:
  - the category tabs ("Todos", then each category once, in first-appearance order);
  - the order-preserving product filter;
  - the flags for the cart drawer and the checkout dialog.
- **The admin forms and schemas.** These are:
  - the combo form (`ComboCreateForm`): its validation, the stored description that embeds the item list after a marker, the inserted row, and the field array of items;
  - the coupon form (`CouponCreateForm`): its rules, upper-casing, defaults and insert payload;
  - the checkout schema (`CheckoutSchema`).

Some things are treated as plain values rather than modelled:

- Money is an exact `real`.
- `formatPrice`, `Number(...)`, `encodeURIComponent`, `JSON.stringify` and zod's URL check are library behaviour. They are passed in as function-valued parameters.
- The fixtures of `src/data/mockData.ts` are the constants of `MockData`.

## Model

| member | source | states |
|---|---|---|
| CartContext.CartStore.constructor | src/context/CartContext.tsx:17 | the cart starts empty |
| CartContext.CartStore.AddItem | src/context/CartContext.tsx:19-24 | appends exactly one line with quantity 1, additionals defaulting to [] and notes to ""; earlier lines unchanged; `Total` rises by price + Σ additionals and `ItemCount` by 1 |
| CartContext.CartStore.RemoveItem | src/context/CartContext.tsx:26-28 | the list without position `index`, others in order; out-of-range index leaves it unchanged; both folds drop by that line's share |
| CartContext.CartStore.UpdateQuantity | src/context/CartContext.tsx:30-38 | quantity ≤ 0 acts exactly as `removeItem`; otherwise only line `index`'s quantity changes, length kept, folds adjusted by the difference |
| CartContext.CartStore.ClearCart | src/context/CartContext.tsx:40-42 | the cart is empty, `Total` is 0 and `ItemCount` is 0 |
| CartContext.DropIndexSplices | src/context/CartContext.tsx:27 | the index-filter equals splicing out position `index`, or the identity when out of range |
| CartContext.SetQuantityAtPointwise | src/context/CartContext.tsx:35-37 | the index-map keeps the length and changes only position `index` |
| CartContext.SetQuantityAtUnchanged | src/context/CartContext.tsx:35-37 | an index past the end changes nothing |
| CartContext.TotalConcat | src/context/CartContext.tsx:44-47 | the total of a concatenation is the sum of the totals |
| CartContext.ItemCountConcat | src/context/CartContext.tsx:49 | the unit count of a concatenation is the sum of the counts |
| CartContext.TotalAfterRemove | src/context/CartContext.tsx:26-28 | removing a line lowers the total by exactly its line total |
| CartContext.ItemCountAfterRemove | src/context/CartContext.tsx:26-28 | removing a line lowers the count by exactly its quantity |
| CartContext.TotalAfterSetQuantity | src/context/CartContext.tsx:35-37 | setting quantity q replaces the line total with unit price × q |
| CartContext.ItemCountAfterSetQuantity | src/context/CartContext.tsx:35-37 | setting quantity q changes the count by q minus the old quantity |
| CartContext.ItemCountAtLeastLines | src/context/CartContext.tsx:49 | with every quantity ≥ 1 there are at least as many units as lines |
| CartContext.TotalNonNegative | src/context/CartContext.tsx:44-47 | non-negative unit prices and positive quantities give a non-negative total |
| CheckoutModal.NoCouponNoDiscount | src/components/menu/CheckoutModal.tsx:33-39 | without a coupon the discount is 0 and the final total is subtotal + fee |
| CheckoutModal.PercentageDiscountBounded | src/components/menu/CheckoutModal.tsx:33-37 | a percentage coupon of 0..100 takes between 0 and the subtotal, monotone in the subtotal |
| CheckoutModal.FlatDiscountIgnoresTotal | src/components/menu/CheckoutModal.tsx:33-37 | any type other than "percentage" takes its flat value whatever the subtotal |
| CheckoutModal.FinalTotalCanBeNegative | src/components/menu/CheckoutModal.tsx:39 | the final total is not clamped: a flat 20 on an empty cart gives -12 |
| CheckoutModal.MockCouponsEffect | src/data/mockData.ts:94-97 | PRIMEIRO10 takes a tenth of the subtotal; FRETE cancels the delivery fee exactly |
| CheckoutModal.StoreCouponKeepsTotal | src/components/menu/CheckoutModal.tsx:33-39 | a store coupon takes a tenth of the subtotal or exactly the delivery fee, so the final total of a non-negative subtotal stays at least nine tenths of it |
| CheckoutModal.CheckoutForm.ShownTotalNonNegative | src/components/menu/CheckoutModal.tsx:39-52 | since only a store coupon can be applied, the final total shown for a non-negative subtotal is never negative |
| CheckoutModal.FindCoupon | src/components/menu/CheckoutModal.tsx:42-44 | a found coupon is the first one whose code matches ignoring case and which is active; none found means no coupon qualifies |
| CheckoutModal.FindCouponIgnoresCase | src/components/menu/CheckoutModal.tsx:43 | typing the code upper-cased finds the same coupon |
| CheckoutModal.MockCouponsFound | src/data/mockData.ts:94-97 | "primeiro10" and "frete" find the two mock coupons |
| CheckoutModal.CheckoutForm.constructor | src/components/menu/CheckoutModal.tsx:19-22 | fields start empty and no coupon is applied |
| CheckoutModal.CheckoutForm.ApplyCoupon | src/components/menu/CheckoutModal.tsx:41-52 | applies the found coupon exactly when one is found, otherwise keeps the applied coupon; the other fields are unchanged and an applied coupon is always an active store coupon |
| CheckoutModal.CheckoutForm.RemoveCoupon | src/components/menu/CheckoutModal.tsx:54-57 | no coupon applied and the code text is "" |
| CheckoutModal.CheckoutForm.GenerateMessage | src/components/menu/CheckoutModal.tsx:59-87 | the appended message is exactly the encoded rendering of the dialog's message lines |
| CheckoutModal.AppendSummary | src/components/menu/CheckoutModal.tsx:78-84 | appends exactly the summary lines: rule, subtotal, fee, discount line for an applied coupon, total |
| CheckoutModal.AppendCharges | src/components/menu/CheckoutModal.tsx:78-80 | appends the rule, subtotal and fee lines |
| CheckoutModal.AppendClosing | src/components/menu/CheckoutModal.tsx:81-84 | appends the discount line iff a coupon is applied, then the total |
| CheckoutModal.ItemsNumberedInCartOrder | src/components/menu/CheckoutModal.tsx:65-69 | the message's item heads are one per cart line, numbered k+1 in cart order with name and quantity |
| CheckoutModal.DiscountLineIffApplied | src/components/menu/CheckoutModal.tsx:81-83 | a discount line appears iff a coupon is applied, and it names that coupon and its discount on the subtotal |
| CheckoutModal.ItemPricesAddUpToSubtotal | src/components/menu/CheckoutModal.tsx:66-79 | the item prices printed in the message add up to the subtotal it prints |
| CheckoutModal.SummaryHasNoItemLines | src/components/menu/CheckoutModal.tsx:78-84 | no summary line is an item line |
| CheckoutModal.AddressThenHeading | src/components/menu/CheckoutModal.tsx:62-63 | the dialog's address line and items heading give the same text as the shared address and heading lines |
| CheckoutModal.SubmitChecksNameFirst | src/components/menu/CheckoutModal.tsx:89-97 | a blank name is refused first, then a blank address; the order goes out iff both are non-blank |
| CheckoutModal.SentLinkCarriesMessage | src/components/menu/CheckoutModal.tsx:99-100 | the sent link parses back to the store's wa.me path and the encoded message |
| CheckoutModal.CheckoutForm.Submit | src/components/menu/CheckoutModal.tsx:89-106 | reports the outcome `SubmitResult` gives and empties the cart exactly when the order is sent |
| WhatsApp.GenerateMessage | src/utils/whatsapp.ts:22-73 | the appended message is exactly the rendering of `MessageLines` |
| WhatsApp.WriteHead | src/utils/whatsapp.ts:38-47 | appends title, client, address, payment, the change line when shown, and the items heading |
| WhatsApp.AppendItems | src/utils/whatsapp.ts:49-60 | the loop appends every item's block numbered from 1, in order |
| WhatsApp.AppendItem | src/utils/whatsapp.ts:50-59 | one item's block: head, details, and its line total |
| WhatsApp.AppendDetails | src/utils/whatsapp.ts:54-58 | appends exactly the item's detail lines |
| WhatsApp.AppendSummary | src/utils/whatsapp.ts:62-70 | appends rule, subtotal, fee, the discount line when shown, and the total |
| WhatsApp.Emit | src/utils/whatsapp.ts:39 | one `+=` appends the rendering of one more line |
| WhatsApp.ItemTotalIsLineTotal | src/utils/whatsapp.ts:50-51 | the item total the message prints is the cart's line total |
| WhatsApp.MessageOpening | src/utils/whatsapp.ts:38-41 | the message starts with the title, client, address and payment lines, in that order |
| WhatsApp.ChangeLineIff | src/utils/whatsapp.ts:43-45 | a "Troco para" line appears iff payment is "Dinheiro", change is needed and an amount is given; it carries that amount |
| WhatsApp.ItemsInCartOrder | src/utils/whatsapp.ts:49-60 | item k is emitted as block k+1 between the blocks of the items before and after it |
| WhatsApp.ItemHeadsNumbered | src/utils/whatsapp.ts:53 | the item heads are one per item, numbered consecutively in cart order |
| WhatsApp.BlockHead | src/utils/whatsapp.ts:53-59 | each item block holds exactly one head line |
| WhatsApp.ItemDetailsContents | src/utils/whatsapp.ts:54-58 | Ponto, Adicionais and Obs lines appear exactly under their conditions, carry the item's own values, and additionals are listed by name in order |
| WhatsApp.ItemDetailsMembers | src/utils/whatsapp.ts:54-58 | a line is among an item's details iff the item calls for it |
| WhatsApp.ItemDetailsKinds | src/utils/whatsapp.ts:54-58 | details are only meat point, additionals or notes lines |
| WhatsApp.ItemLinesKinds | src/utils/whatsapp.ts:53-59 | every line of an item block is an item line |
| WhatsApp.ItemsLinesAreItemLines | src/utils/whatsapp.ts:49-60 | every line of the item section is an item line |
| WhatsApp.BlockPrice | src/utils/whatsapp.ts:51-59 | an item block's one price line shows the item's line total |
| WhatsApp.ItemPricesAddUpToTotal | src/utils/whatsapp.ts:49-60 | the printed item prices add up to the cart total |
| WhatsApp.PriceSumConcat | src/utils/whatsapp.ts:59 | the printed prices of a concatenation add up |
| WhatsApp.PriceSumNoPrices | src/utils/whatsapp.ts:62-70 | lines without a price line sum to 0 |
| WhatsApp.DiscountLineIff | src/utils/whatsapp.ts:66-68 | a discount line appears iff the coupon code is non-empty and the discount is positive; it names both |
| WhatsApp.MessageClosing | src/utils/whatsapp.ts:70 | the message always ends with the total line |
| WhatsApp.Names | src/utils/whatsapp.ts:56 | the additionals' names, one per additional, in order |
| WhatsApp.TextAppend | src/utils/whatsapp.ts:38-70 | appending a line appends its rendering |
| WhatsApp.UrlRoundTrip | src/utils/whatsapp.ts:78-80 | for a phone number without `?`, the link parses back to the wa.me path and the encoded message |
| CustomizationModal.ToggleEffect | src/components/menu/CustomizationModal.tsx:39-45 | an absent id is appended at the end; a present id is removed everywhere, the others kept in order |
| CustomizationModal.ToggleTwiceRestores | src/components/menu/CustomizationModal.tsx:39-45 | toggling an absent additional twice restores the selection |
| CustomizationModal.ToggleKeepsDistinctIds | src/components/menu/CustomizationModal.tsx:39-45 | toggling never selects an id twice |
| CustomizationModal.FilterKeepsDistinctIds | src/components/menu/CustomizationModal.tsx:42 | filtering keeps ids distinct |
| CustomizationModal.TogglesFromEmptyKeepDistinctIds | src/components/menu/CustomizationModal.tsx:28-45 | from the empty start any run of toggles keeps ids distinct |
| CustomizationModal.FilterDropsOne | src/components/menu/CustomizationModal.tsx:42 | with distinct ids, the removal filter drops exactly the one entry with that id |
| CustomizationModal.AdditionalsTotalConcat | src/components/menu/CustomizationModal.tsx:49 | the additionals' price sum of a concatenation is the sum of the sums |
| CustomizationModal.ToggleMovesPrice | src/components/menu/CustomizationModal.tsx:39-49 | adding raises the shown price by the additional's price; removing lowers it by the removed entry's price |
| CustomizationModal.MeatPointFor | src/components/menu/CustomizationModal.tsx:54-55 | a meat point is passed iff the category is "Burgers", and it is the chosen one |
| CustomizationModal.Dialog.constructor | src/components/menu/CustomizationModal.tsx:28-30 | nothing selected, no notes, "Ao ponto" |
| CustomizationModal.Dialog.Toggle | src/components/menu/CustomizationModal.tsx:39-45 | the selection becomes the toggled one, ids stay distinct, notes and meat point kept |
| CustomizationModal.Dialog.Close | src/components/menu/CustomizationModal.tsx:61-66 | selection, notes and meat point return to their initial values |
| CustomizationModal.Dialog.AddToCart | src/components/menu/CustomizationModal.tsx:51-59 | nothing without a product; otherwise one cart line with the selection, notes and burger-only meat point, the cart total rises by exactly the shown price, and the dialog resets |
| Menu.CategoryOf | src/pages/Menu.tsx:23 | one category per product, in catalogue order |
| Menu.Categories | src/pages/Menu.tsx:22-25 | the tabs start with "Todos" |
| Menu.DistinctFirstAppearance | src/pages/Menu.tsx:23 | the Set spread keeps exactly the input values, each once, in first-appearance order |
| Menu.CategoriesFromCatalogue | src/pages/Menu.tsx:22-25 | after "Todos" the tabs are exactly the product categories, each once, in first-appearance order |
| Menu.MockCategories | src/pages/Menu.tsx:22-25 | the mock catalogue gives "Todos", "Burgers", "Acompanhamentos", "Bebidas" |
| Menu.MockCategoryColumn | src/data/mockData.ts:3-76 | the mock catalogue's categories, product by product |
| Menu.DistinctMockColumn | src/pages/Menu.tsx:23 | the Set spread of the mock category column |
| Menu.FilteredProductsSelect | src/pages/Menu.tsx:27-30 | "Todos" shows the whole catalogue; any other tab shows exactly the products of that category, each as many times as the catalogue holds it, as a subsequence of the catalogue |
| Menu.MockDrinks | src/pages/Menu.tsx:29 | the "Bebidas" tab of the mock catalogue lists the two drinks in order |
| Menu.DrinksAreLastTwo | src/pages/Menu.tsx:29 | the "Bebidas" filter of a catalogue laid out like the mock one keeps its last two products |
| Menu.MenuPage.constructor | src/pages/Menu.tsx:17-20 | the page opens on "Todos" with drawer and dialog closed |
| Menu.MenuPage.SelectCategory | src/pages/Menu.tsx:17-30 | the shown products become those of the chosen tab; flags kept |
| Menu.MenuPage.HandleCheckout | src/pages/Menu.tsx:51-54 | the cart drawer closes and the checkout dialog opens |
| ComboCreateForm.NoErrorsIffAccepted | src/components/admin/ComboCreateForm.tsx:31-44 | no error iff name ≥ 2 characters, price ≥ 0.01, image URL empty/absent/valid, at least one item, each with a product and quantity ≥ 1 |
| ComboCreateForm.DefaultsErrors | src/components/admin/ComboCreateForm.tsx:72-82 | the opening values fail only on the empty name and the unselected product |
| ComboCreateForm.EncodeDescription | src/components/admin/ComboCreateForm.tsx:94-95 | the stored description ends with the marker, a line break and the items' JSON |
| ComboCreateForm.SplitRecoversParts | src/components/admin/ComboCreateForm.tsx:95 | when the description lacks the marker, splitting at the first marker gives back the description with its blank line (or nothing) and the JSON |
| ComboCreateForm.NotBeforeMarker | src/components/admin/ComboCreateForm.tsx:95 | no marker occurrence starts inside the text placed before the marker |
| ComboCreateForm.MarkerInDescriptionSplitsEarly | src/components/admin/ComboCreateForm.tsx:95 | a description that contains the marker is cut short by the split |
| ComboCreateForm.InsertRowKeepsItems | src/components/admin/ComboCreateForm.tsx:90-103 | the inserted row has category "Combos" and its description splits back into the description and the JSON of exactly the submitted items |
| ComboCreateForm.ItemsField.constructor | src/components/admin/ComboCreateForm.tsx:80 | the field array starts with one empty item |
| ComboCreateForm.ItemsField.Append | src/components/admin/ComboCreateForm.tsx:247 | appends `{product_id: "", quantity: 1}` |
| ComboCreateForm.ItemsField.Remove | src/components/admin/ComboCreateForm.tsx:236-237 | removes item `index` unless it is the only one, so at least one item remains |
| CouponCreateForm.ParseCouponRules | src/components/admin/CouponCreateForm.tsx:29-35 | accepted iff code ≥ 3 characters, discount ≥ 0.01 and type "percentage" or "fixed"; the code is upper-cased and its own upper case; `active` defaults to true; other fields pass through |
| CouponCreateForm.CodeFieldIsUpper | src/components/admin/CouponCreateForm.tsx:106 | the code field always holds its own upper case and equals the typed text ignoring case |
| CouponCreateForm.DefaultsRefusedForCodeOnly | src/components/admin/CouponCreateForm.tsx:49-55 | the opening values are refused only for the empty code |
| CouponCreateForm.InsertPayload | src/components/admin/CouponCreateForm.tsx:62-68 | an empty or absent expiry is stored as null, any other is kept; every other field is copied |
| CouponCreateForm.StoredCodeMatchesTypedCode | src/components/admin/CouponCreateForm.tsx:29-68 | after the schema upper-cases it, the stored code still equals the typed code ignoring case, so an active stored coupon passes the checkout's case-insensitive comparison for any case variant of what was typed |
| CheckoutSchema.CheckoutRules | src/schemas/checkout.ts:3-9 | accepted iff name ≥ 3, address ≥ 10, notes absent or ≤ 255, payment non-empty, change absent or ≥ 0 |
| CheckoutSchema.BlankNamePassesLengthRule | src/schemas/checkout.ts:4 | the length rule accepts a name of three spaces, which trimming would reject |
| CartContext.LineTotal | src/context/CartContext.tsx:44-47 | definition: one line's share of the total, (product price + its additionals' prices) × quantity |
| CartContext.Total | src/context/CartContext.tsx:44-47 | definition: `total`, the sum of the line totals over the cart |
| CartContext.ItemCount | src/context/CartContext.tsx:49 | definition: `itemCount`, the sum of the quantities over the cart |
| CartContext.DropIndex | src/context/CartContext.tsx:27 | definition: the index filter of `removeItem`, every line whose position differs from `index` |
| CartContext.SetQuantityAt | src/context/CartContext.tsx:35-37 | definition: the index map of `updateQuantity`, the line at `index` with the new quantity and every other line as it was |
| CheckoutModal.CouponDiscount | src/components/menu/CheckoutModal.tsx:33-37 | definition: `discount`, 0 without a coupon, the percentage of the subtotal for a "percentage" coupon, the flat value otherwise |
| CheckoutModal.FinalTotal | src/components/menu/CheckoutModal.tsx:39 | definition: `finalTotal`, subtotal + delivery fee − discount |
| CheckoutModal.Redeems | src/components/menu/CheckoutModal.tsx:43 | definition: the `find` test, code equal ignoring case and coupon active |
| CheckoutModal.MessageLines | src/components/menu/CheckoutModal.tsx:59-84 | definition: the dialog's message as typed lines: title, client, address, items heading, item blocks, summary |
| CheckoutModal.SubmitResult | src/components/menu/CheckoutModal.tsx:89-106 | definition: the outcome of `handleSubmit`, name refusal, address refusal, or the wa.me link carrying the encoded message |
| CheckoutSchema.CheckoutErrors | src/schemas/checkout.ts:3-9 | definition: the rules of `checkoutSchema`, one error per broken field rule |
| ComboCreateForm.Errors | src/components/admin/ComboCreateForm.tsx:31-44 | definition: the rules of `formSchema` and `comboItemSchema`, one error per broken rule, item errors by index |
| ComboCreateForm.InsertRow | src/components/admin/ComboCreateForm.tsx:90-103 | definition: the row `mutationFn` inserts, fields passed through, items moved into the description, category "Combos" |
| CouponCreateForm.ParseCoupon | src/components/admin/CouponCreateForm.tsx:29-35 | definition: `formSchema.parse`, the broken rules or the values with the code upper-cased and `active` defaulting to true |
| CouponCreateForm.OnCodeChange | src/components/admin/CouponCreateForm.tsx:106 | definition: the code field's `onChange`, the typed text upper-cased |
| CustomizationModal.Toggled | src/components/menu/CustomizationModal.tsx:39-45 | definition: `handleAdditionalToggle`, the filter by id when the id is selected, otherwise the selection with the additional appended |
| CustomizationModal.TotalPrice | src/components/menu/CustomizationModal.tsx:47-49 | definition: `totalPrice`, the product's price (0 without one) plus the selected additionals' prices |
| Menu.Distinct | src/pages/Menu.tsx:23 | definition: the spread of a `Set` built from the values, each value once |
| Menu.FilteredProducts | src/pages/Menu.tsx:27-30 | definition: `filteredProducts`, the whole catalogue under "Todos", otherwise the products of the active category |
| WhatsApp.Render | src/utils/whatsapp.ts:38-70 | definition: the text one typed line contributes, labels, values and the line break as the template writes them |
| WhatsApp.ItemLines | src/utils/whatsapp.ts:50-59 | definition: one item's block, numbered head, its detail lines, and its price line |
| WhatsApp.MessageLines | src/utils/whatsapp.ts:22-73 | definition: the whole message as typed lines, head, items from 1, and summary |
| WhatsApp.Url | src/utils/whatsapp.ts:78-80 | definition: `generateWhatsAppUrl`, the wa.me path of the phone number with the encoded message as `text` |
| Strings.TrimEmptyIffBlank | src/components/menu/CheckoutModal.tsx:90-97 | `trim` leaves nothing exactly when every character is JavaScript whitespace |
| Strings.UpperIdempotent | src/components/admin/CouponCreateForm.tsx:106 | upper-casing twice is upper-casing once |
| Strings.UpperEqualsIgnoreCase | src/components/menu/CheckoutModal.tsx:43 | an upper-cased string equals the original ignoring case |

## Left out

- Floating point. Money is an exact `real`, so JavaScript rounding in sums, `toFixed`, `parseFloat` and `NaN` are not modelled.
- Library calls are function parameters. `formatPrice`, `Number(...)`, `encodeURIComponent`, `JSON.stringify` and zod's `.url()` check are not defined here.
- Case mapping: `toLowerCase`/`toUpperCase` map the ASCII letters only. Other Unicode case pairs are not modelled.
- String lengths: lengths count Dafny characters (Unicode scalar values). JavaScript counts UTF-16 code units, which differ for characters outside the Basic Multilingual Plane.
- Quantities are integers. The UI only produces whole quantities.
- I/O is not modelled: toasts, `window.open`, `navigator.share`, the clipboard, Supabase inserts, query invalidation and `form.reset()` after a successful insert.
- The dialogs' `onClose` callbacks and `open` props belong to the parent page.
  - `CustomizationModal.Dialog.Close` resets only the dialog's own state.
  - `CheckoutModal.CheckoutForm.Submit` does not close the dialog.
- Plain setters are not modelled as members: `setCustomerName`, `setAddress`, `setCouponCode`, `setNotes`, `setMeatPoint` and `setSelectedProduct`.
- The `available?` field of `Additional` and the unused `StoreSettings.id` of the fixture are not modelled. The fixture has no id, so the model uses "".
- The message builder of src/utils/whatsapp.ts is modelled as written, but nothing in the modelled code calls it. The checkout dialog builds its own message, and `CheckoutModal` models that one.
- CheckoutModal message: the two message builders differ.
  - The dialog writes the discount line whenever a coupon is applied.
  - The shared builder writes it only when the code is non-empty and the discount is positive.
  - The dialog's message has no payment line and no change line; the shared builder writes both.
- The checkout looks coupons up in the `mockCoupons` fixture only. Nothing reads back the coupons table the admin form writes, so a coupon created there is never found at checkout; `CouponCreateForm.StoredCodeMatchesTypedCode` states only that the stored code keeps matching under the checkout's comparison.
- Zod reports errors in an order of its own. The models list them field by field, and only the presence or absence of errors is stated. The message texts of the errors are not modelled.
- ComboCreateForm.SplitAtMarker: the source never reads a combo description back. The split is a reference used only to state what the encoding preserves.
- Menu.MenuPage.SelectCategory: the menu page takes its catalogue from the mock fixtures, as the source does. The admin pages, where products come from Supabase, are not part of this model.
