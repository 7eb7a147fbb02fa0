/** The cart store of src/context/CartContext.tsx: an ordered list of cart items changed
    by index-based add, remove, set-quantity and clear, and the two folds over it. */
module CartContext {
  import opened Types
  import Seqs

  /** Sum of the prices of some additionals, folded from the left like `reduce`. */
  function AdditionalsTotal(additionals: seq<Additional>): real {
    if additionals == [] then 0.0
    else AdditionalsTotal(additionals[..|additionals| - 1]) + additionals[|additionals| - 1].price
  }

  /** Price of one unit of a cart line: the product plus its additionals. */
  function UnitPrice(item: CartItem): real {
    item.product.price + AdditionalsTotal(item.additionals)
  }

  /** What one cart line costs: unit price times quantity. */
  function LineTotal(item: CartItem): real {
    UnitPrice(item) * item.quantity as real
  }

  /** The cart's `total`: the left fold of the line totals. */
  function Total(items: seq<CartItem>): real {
    Seqs.SumOf(items, LineTotal)
  }

  /** The cart's `itemCount`: the left fold of the quantities. */
  function ItemCount(items: seq<CartItem>): int {
    if items == [] then 0 else ItemCount(items[..|items| - 1]) + items[|items| - 1].quantity
  }

  /** `items.filter((_, i) => i !== index)`: every position except `index`. */
  function DropIndex<T>(items: seq<T>, index: int): seq<T> {
    if items == [] then []
    else if |items| - 1 == index then DropIndex(items[..|items| - 1], index)
    else DropIndex(items[..|items| - 1], index) + [items[|items| - 1]]
  }

  /** `items.map((item, i) => i === index ? { ...item, quantity } : item)`. */
  function SetQuantityAt(items: seq<CartItem>, index: int, quantity: int): seq<CartItem> {
    if items == [] then []
    else
      var last := items[|items| - 1];
      SetQuantityAt(items[..|items| - 1], index, quantity)
        + [if |items| - 1 == index then last.(quantity := quantity) else last]
  }

  /** Dropping a position splices it out; an index outside the list drops nothing. */
  lemma {:induction false} DropIndexSplices<T>(items: seq<T>, index: int)
    ensures DropIndex(items, index)
         == if 0 <= index < |items| then items[..index] + items[index + 1..] else items
  {
    if items != [] {
      var init := items[..|items| - 1];
      DropIndexSplices(init, index);
      if 0 <= index < |init| {
        assert items[..index] == init[..index];
        assert items[index + 1..] == init[index + 1..] + [items[|items| - 1]];
      } else if index == |init| {
        assert items[..index] == init;
      } else {
        assert init + [items[|items| - 1]] == items;
      }
    }
  }

  /** Setting a quantity keeps the length and touches position `index` only. */
  lemma {:induction false} SetQuantityAtPointwise(items: seq<CartItem>, index: int, quantity: int)
    ensures |SetQuantityAt(items, index, quantity)| == |items|
    ensures forall j :: 0 <= j < |items| ==>
      SetQuantityAt(items, index, quantity)[j]
        == if j == index then items[j].(quantity := quantity) else items[j]
  {
    if items != [] {
      SetQuantityAtPointwise(items[..|items| - 1], index, quantity);
    }
  }

  /** The total of a concatenation is the sum of the totals. */
  lemma {:induction false} TotalConcat(a: seq<CartItem>, b: seq<CartItem>)
    ensures Total(a + b) == Total(a) + Total(b)
  {
    if b == [] {
      assert a + b == a;
    } else {
      var init := b[..|b| - 1];
      TotalConcat(a, init);
      assert (a + b)[..|a + b| - 1] == a + init;
    }
  }

  /** The item count of a concatenation is the sum of the counts. */
  lemma {:induction false} ItemCountConcat(a: seq<CartItem>, b: seq<CartItem>)
    ensures ItemCount(a + b) == ItemCount(a) + ItemCount(b)
  {
    if b == [] {
      assert a + b == a;
    } else {
      var init := b[..|b| - 1];
      ItemCountConcat(a, init);
      assert (a + b)[..|a + b| - 1] == a + init;
    }
  }

  /** Removing line `index` lowers the total by exactly that line's total. */
  lemma TotalAfterRemove(items: seq<CartItem>, index: int)
    requires 0 <= index < |items|
    ensures Total(DropIndex(items, index)) == Total(items) - LineTotal(items[index])
  {
    var pre, x, post := items[..index], items[index], items[index + 1..];
    assert items == (pre + [x]) + post;
    DropIndexSplices(items, index);
    TotalConcat(pre, post);
    TotalConcat(pre, [x]);
    TotalConcat(pre + [x], post);
  }

  /** Removing line `index` lowers the item count by exactly that line's quantity. */
  lemma ItemCountAfterRemove(items: seq<CartItem>, index: int)
    requires 0 <= index < |items|
    ensures ItemCount(DropIndex(items, index)) == ItemCount(items) - items[index].quantity
  {
    var pre, x, post := items[..index], items[index], items[index + 1..];
    assert items == (pre + [x]) + post;
    DropIndexSplices(items, index);
    ItemCountConcat(pre, post);
    ItemCountConcat(pre, [x]);
    ItemCountConcat(pre + [x], post);
  }

  /** Setting line `index` to quantity `q` replaces that line's total with unit price times `q`. */
  lemma {:induction false} TotalAfterSetQuantity(items: seq<CartItem>, index: int, q: int)
    requires 0 <= index < |items|
    ensures Total(SetQuantityAt(items, index, q))
         == Total(items) - LineTotal(items[index]) + UnitPrice(items[index]) * q as real
  {
    var init := items[..|items| - 1];
    if index < |init| {
      TotalAfterSetQuantity(init, index, q);
    } else {
      SetQuantityAtUnchanged(init, index, q);
    }
  }

  /** Setting line `index` to quantity `q` changes the item count by `q` minus the old quantity. */
  lemma {:induction false} ItemCountAfterSetQuantity(items: seq<CartItem>, index: int, q: int)
    requires 0 <= index < |items|
    ensures ItemCount(SetQuantityAt(items, index, q)) == ItemCount(items) - items[index].quantity + q
  {
    var init := items[..|items| - 1];
    if index < |init| {
      ItemCountAfterSetQuantity(init, index, q);
    } else {
      SetQuantityAtUnchanged(init, index, q);
    }
  }

  /** Setting a quantity at a position past the end changes nothing. */
  lemma {:induction false} SetQuantityAtUnchanged(items: seq<CartItem>, index: int, q: int)
    requires index >= |items|
    ensures SetQuantityAt(items, index, q) == items
  {
    if items != [] {
      SetQuantityAtUnchanged(items[..|items| - 1], index, q);
    }
  }

  /** Every line holds at least one unit. */
  predicate AllQuantitiesPositive(items: seq<CartItem>) {
    forall i :: 0 <= i < |items| ==> items[i].quantity >= 1
  }

  /** With every quantity at least one, there are at least as many units as lines. */
  lemma {:induction false} ItemCountAtLeastLines(items: seq<CartItem>)
    requires AllQuantitiesPositive(items)
    ensures ItemCount(items) >= |items|
  {
    if items != [] {
      ItemCountAtLeastLines(items[..|items| - 1]);
    }
  }

  /** Prices that are never negative and positive quantities give a total that is never negative. */
  lemma {:induction false} TotalNonNegative(items: seq<CartItem>)
    requires AllQuantitiesPositive(items)
    requires forall i :: 0 <= i < |items| ==> UnitPrice(items[i]) >= 0.0
    ensures Total(items) >= 0.0
  {
    if items != [] {
      TotalNonNegative(items[..|items| - 1]);
    }
  }

  /** The `CartProvider` state: the `items` list and the operations that replace it. */
  class CartStore {
    var items: seq<CartItem>

    /** Every line of the cart holds at least one unit: adding starts at 1, and setting a
        quantity of 0 or less removes the line instead. */
    ghost predicate Valid()
      reads this
    {
      AllQuantitiesPositive(items)
    }

    /** The cart starts empty. */
    constructor ()
      ensures Valid() && items == []
    {
      items := [];
    }

    /** `addItem`: appends one line with quantity 1; omitted additionals default to the
        empty list and omitted notes to "". */
    method AddItem(product: Product, additionals: Option<seq<Additional>>, notes: Option<string>,
                   meatPoint: Option<string>)
      requires Valid()
      modifies this
      ensures Valid()
      ensures items == old(items) + [CartItem(product, 1, additionals.GetOr([]), notes.GetOr(""), meatPoint)]
      ensures Total(items) == old(Total(items)) + product.price + AdditionalsTotal(additionals.GetOr([]))
      ensures ItemCount(items) == old(ItemCount(items)) + 1
    {
      var item := CartItem(product, 1, additionals.GetOr([]), notes.GetOr(""), meatPoint);
      items := items + [item];
      assert items[..|items| - 1] == old(items);
    }

    /** `removeItem`: drops line `index`, keeping the order of the rest; an index outside
        the list leaves the cart as it was. */
    method RemoveItem(index: int)
      requires Valid()
      modifies this
      ensures Valid()
      ensures items == if 0 <= index < |old(items)| then old(items)[..index] + old(items)[index + 1..]
                       else old(items)
      ensures 0 <= index < |old(items)| ==>
        Total(items) == old(Total(items)) - LineTotal(old(items)[index])
        && ItemCount(items) == old(ItemCount(items)) - old(items)[index].quantity
    {
      if 0 <= index < |items| {
        TotalAfterRemove(items, index);
        ItemCountAfterRemove(items, index);
      }
      DropIndexSplices(items, index);
      items := DropIndex(items, index);
    }

    /** `updateQuantity`: a quantity of 0 or less removes the line exactly as `removeItem`
        does; otherwise only the quantity of line `index` changes. */
    method UpdateQuantity(index: int, quantity: int)
      requires Valid()
      modifies this
      ensures Valid()
      ensures quantity <= 0 ==>
        items == if 0 <= index < |old(items)| then old(items)[..index] + old(items)[index + 1..]
                 else old(items)
      ensures quantity <= 0 && 0 <= index < |old(items)| ==>
        Total(items) == old(Total(items)) - LineTotal(old(items)[index])
        && ItemCount(items) == old(ItemCount(items)) - old(items)[index].quantity
      ensures quantity > 0 ==> |items| == |old(items)|
      ensures quantity > 0 ==> forall j :: 0 <= j < |items| ==>
        items[j] == if j == index then old(items)[j].(quantity := quantity) else old(items)[j]
      ensures quantity > 0 && 0 <= index < |old(items)| ==>
        Total(items) == old(Total(items)) - LineTotal(old(items)[index]) + UnitPrice(old(items)[index]) * quantity as real
        && ItemCount(items) == old(ItemCount(items)) - old(items)[index].quantity + quantity
    {
      if quantity <= 0 {
        RemoveItem(index);
        return;
      }
      SetQuantityAtPointwise(items, index, quantity);
      if 0 <= index < |items| {
        TotalAfterSetQuantity(items, index, quantity);
        ItemCountAfterSetQuantity(items, index, quantity);
      }
      items := SetQuantityAt(items, index, quantity);
    }

    /** `clearCart`: the cart becomes empty, so both folds are 0. */
    method ClearCart()
      requires Valid()
      modifies this
      ensures Valid()
      ensures items == [] && Total(items) == 0.0 && ItemCount(items) == 0
    {
      items := [];
    }
  }
}
