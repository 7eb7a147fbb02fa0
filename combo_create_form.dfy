/** The combo creation form of src/components/admin/ComboCreateForm.tsx: the validation
    rules of the form and of each combo item, the editable list of combo items, and the
    product row the form inserts, whose description carries the item list after a fixed
    marker. `JSON.stringify` and the URL check are library calls and come in as
    parameters. */
module ComboCreateForm {
  import opened Types
  import Seqs
  import Strings
  import CartContext

  /** One entry of the `combo_items` field array. */
  datatype ComboItem = ComboItem(productId: string, quantity: int)

  /** The values the form submits. */
  datatype ComboValues = ComboValues(
    name: string,
    description: Option<string>,
    price: real,
    imageUrl: Option<string>,
    available: bool,
    comboItems: seq<ComboItem>)

  /** A rule of the form that the values break. */
  datatype ComboError =
    | NameTooShort
    | PriceTooLow
    | ImageUrlInvalid
    | NoItems
    | ItemProductMissing(index: int)
    | ItemQuantityTooLow(index: int)

  /** The smallest accepted price. */
  const MinPrice: real := 0.01

  /** The image URL is absent, empty, or a URL by the library's check. */
  predicate ImageUrlAccepted(imageUrl: Option<string>, isUrl: string -> bool) {
    imageUrl.None? || imageUrl.value == "" || isUrl(imageUrl.value)
  }

  /** What `comboItemSchema` finds wrong with the item at `index`. */
  function ItemErrors(item: ComboItem, index: int): seq<ComboError> {
    (if |item.productId| < 1 then [ItemProductMissing(index)] else [])
    + (if item.quantity < 1 then [ItemQuantityTooLow(index)] else [])
  }

  /** What `formSchema` finds wrong with the values, field by field. */
  function Errors(values: ComboValues, isUrl: string -> bool): seq<ComboError> {
    (if |values.name| < 2 then [NameTooShort] else [])
    + (if values.price < MinPrice then [PriceTooLow] else [])
    + (if !ImageUrlAccepted(values.imageUrl, isUrl) then [ImageUrlInvalid] else [])
    + (if |values.comboItems| < 1 then [NoItems] else [])
    + Seqs.FlatMapNumbered(values.comboItems, 0, ItemErrors)
  }

  /** A combo item names a product and holds at least one unit. */
  predicate ItemAccepted(item: ComboItem) {
    item.productId != "" && item.quantity >= 1
  }

  /** Every rule of the form, stated directly. */
  predicate Accepted(values: ComboValues, isUrl: string -> bool) {
    |values.name| >= 2
    && values.price >= MinPrice
    && ImageUrlAccepted(values.imageUrl, isUrl)
    && |values.comboItems| >= 1
    && forall i :: 0 <= i < |values.comboItems| ==> ItemAccepted(values.comboItems[i])
  }

  /** The form reports no error exactly when the values meet every rule. */
  lemma NoErrorsIffAccepted(values: ComboValues, isUrl: string -> bool)
    ensures Errors(values, isUrl) == [] <==> Accepted(values, isUrl)
  {
    Seqs.FlatMapNumberedEmpty(values.comboItems, 0, ItemErrors);
    assert forall k :: 0 <= k < |values.comboItems| ==>
      (ItemErrors(values.comboItems[k], 0 + k) == [] <==> ItemAccepted(values.comboItems[k]));
  }

  /** The values the form opens with. */
  const Defaults := ComboValues("", Some(""), MinPrice, Some(""), true, [ComboItem("", 1)])

  /** The opening values are refused for the empty name and the unselected product of the
      single item only. */
  lemma DefaultsErrors(isUrl: string -> bool)
    ensures Errors(Defaults, isUrl) == [NameTooShort, ItemProductMissing(0)]
  {
    var items := Defaults.comboItems;
    assert items[..0] == [];
    assert Seqs.FlatMapNumbered(items, 0, ItemErrors) == [ItemProductMissing(0)];
  }

  /** The line that separates the user's description from the stored item list. */
  const Marker := "--- COMBO ITEMS ---"

  /** The text placed before the marker: the description and a blank line, or nothing. */
  function Preamble(description: Option<string>): string {
    if description.Some? && description.value != "" then description.value + "\n\n" else ""
  }

  /** The stored description: the user's description (when it is non-empty), a blank
      line, the marker, a line break and the JSON of the combo items. */
  function EncodeDescription(description: Option<string>, itemsJson: string): (r: string)
    ensures |r| >= |Marker| + 1 + |itemsJson|
    ensures r[|r| - |itemsJson| - |Marker| - 1..] == Marker + "\n" + itemsJson
  {
    Preamble(description) + Marker + "\n" + itemsJson
  }

  /** The text on either side of the first occurrence of the marker, as splitting the
      stored description at the marker gives it; none when the marker is missing. */
  function SplitAtMarker(stored: string): Option<(string, string)> {
    match Strings.IndexOf(stored, Marker, 0)
    case None => None
    case Some(i) => Some((stored[..i], stored[i + |Marker|..]))
  }

  /** When the user's description does not itself contain the marker, splitting the stored
      text at the marker gives back the description with its blank line, and the JSON of
      the items after a line break. */
  lemma SplitRecoversParts(description: Option<string>, itemsJson: string)
    requires description.Some? ==> !Strings.Contains(description.value, Marker)
    ensures SplitAtMarker(EncodeDescription(description, itemsJson)) == Some((Preamble(description), "\n" + itemsJson))
  {
    var pre := Preamble(description);
    var stored := EncodeDescription(description, itemsJson);
    assert stored == pre + Marker + "\n" + itemsJson;
    var at := |pre|;
    assert stored[at..at + |Marker|] == Marker;
    assert Strings.OccursAt(stored, Marker, at);
    forall j: nat | j < at ensures !Strings.OccursAt(stored, Marker, j) {
      NotBeforeMarker(description, itemsJson, j);
    }
    var found := Strings.IndexOf(stored, Marker, 0);
    assert found == Some(at);
    assert stored[..at] == pre;
    assert stored[at + |Marker|..] == "\n" + itemsJson;
  }

  /** No occurrence of the marker starts inside the text placed before the marker. */
  lemma NotBeforeMarker(description: Option<string>, itemsJson: string, j: nat)
    requires description.Some? ==> !Strings.Contains(description.value, Marker)
    requires j < |Preamble(description)|
    ensures !Strings.OccursAt(EncodeDescription(description, itemsJson), Marker, j)
  {
    var d := description.value;
    var stored := EncodeDescription(description, itemsJson);
    assert stored == d + "\n\n" + Marker + "\n" + itemsJson;
    if j + |Marker| <= |d| {
      assert stored[j..j + |Marker|] == d[j..j + |Marker|];
      assert !Strings.OccursAt(d, Marker, j);
    } else if j + |Marker| <= |stored| {
      var nl := if j <= |d| then |d| else |d| + 1;
      assert stored[nl] == '\n';
      assert stored[j..j + |Marker|][nl - j] == stored[nl];
      MarkerHasNoLineBreak(nl - j);
    }
  }

  /** The marker is a single line. */
  lemma MarkerHasNoLineBreak(k: int)
    requires 0 <= k < |Marker|
    ensures Marker[k] != '\n'
  {
  }

  /** A description that contains the marker itself is cut short by the split: the text
      before the first marker is not the description and its blank line. */
  lemma MarkerInDescriptionSplitsEarly(d: string, itemsJson: string)
    requires Strings.Contains(d, Marker)
    ensures SplitAtMarker(EncodeDescription(Some(d), itemsJson)).Some?
    ensures SplitAtMarker(EncodeDescription(Some(d), itemsJson)).value.0 != d + "\n\n"
  {
    var stored := EncodeDescription(Some(d), itemsJson);
    var j: nat :| j <= |d| && Strings.OccursAt(d, Marker, j);
    assert d != "";
    assert stored == d + "\n\n" + Marker + "\n" + itemsJson;
    assert stored[j..j + |Marker|] == d[j..j + |Marker|];
    assert Strings.OccursAt(stored, Marker, j);
    var found := Strings.IndexOf(stored, Marker, 0);
    assert found.Some? && found.value <= j;
  }

  /** The row `mutationFn` inserts into the products table. */
  datatype ProductRow = ProductRow(
    name: string,
    price: real,
    imageUrl: Option<string>,
    available: bool,
    description: string,
    category: string)

  /** The category every combo is stored under. */
  const ComboCategory := "Combos"

  /** `mutationFn`: the name, price, image and availability pass through, the combo items
      move into the description, and the category is forced to "Combos". */
  function InsertRow(values: ComboValues, stringify: seq<ComboItem> -> string): ProductRow {
    ProductRow(values.name, values.price, values.imageUrl, values.available,
               EncodeDescription(values.description, stringify(values.comboItems)), ComboCategory)
  }

  /** The inserted row is a combo whose stored description hands back the user's
      description and the JSON of exactly the submitted items. */
  lemma InsertRowKeepsItems(values: ComboValues, stringify: seq<ComboItem> -> string)
    requires values.description.Some? ==> !Strings.Contains(values.description.value, Marker)
    ensures InsertRow(values, stringify).category == ComboCategory
    ensures SplitAtMarker(InsertRow(values, stringify).description)
         == Some((Preamble(values.description), "\n" + stringify(values.comboItems)))
  {
    SplitRecoversParts(values.description, stringify(values.comboItems));
  }

  /** The item appended by "Adicionar Item". */
  const NewItem := ComboItem("", 1)

  /** The `combo_items` field array as the form edits it. */
  class ItemsField {
    var items: seq<ComboItem>

    /** The remove button is disabled on the last item, so at least one item remains. */
    ghost predicate Valid()
      reads this
    {
      |items| >= 1
    }

    /** The form opens with one empty item. */
    constructor ()
      ensures Valid() && items == [NewItem]
    {
      items := [NewItem];
    }

    /** `append`: one empty item with quantity 1 at the end. */
    method Append()
      requires Valid()
      modifies this
      ensures Valid()
      ensures items == old(items) + [NewItem]
    {
      items := items + [NewItem];
    }

    /** `remove(index)` behind a button disabled while a single item is left: the item at
        `index` goes unless it is the only one. */
    method Remove(index: int)
      requires Valid()
      modifies this
      ensures Valid()
      ensures items == if |old(items)| == 1 || !(0 <= index < |old(items)|) then old(items)
                       else old(items)[..index] + old(items)[index + 1..]
    {
      if |items| == 1 {
        return;
      }
      CartContext.DropIndexSplices(items, index);
      items := CartContext.DropIndex(items, index);
    }
  }
}
