/** The product customization dialog of src/components/menu/CustomizationModal.tsx: the
    selection of additionals toggled by id, the price it shows, and the hand-over of the
    customized product to the cart. */
module CustomizationModal {
  import opened Types
  import Seqs
  import CartContext

  /** The meat points offered by the dialog. */
  const MeatPoints := ["Mal passado", "Ao ponto", "Bem passado"]

  /** The meat point the dialog starts with and returns to when closed. */
  const DefaultMeatPoint := "Ao ponto"

  /** The only category whose products are asked for a meat point. */
  const BurgerCategory := "Burgers"

  /** Some entry of `s` has identifier `id` (`prev.find(a => a.id === id)` finds one). */
  predicate HasId(s: seq<Additional>, id: string) {
    exists x :: x in s && x.id == id
  }

  /** The filter test that keeps the entries whose identifier differs from `id`. */
  function OtherId(id: string): Additional -> bool {
    (x: Additional) => x.id != id
  }

  /** `handleAdditionalToggle`: an additional whose id is already selected is removed
      (every entry with that id goes); otherwise it is appended. */
  function Toggled(prev: seq<Additional>, a: Additional): seq<Additional> {
    if HasId(prev, a.id) then Seqs.Filter(prev, OtherId(a.id)) else prev + [a]
  }

  /** No two entries share an identifier. */
  predicate DistinctIds(s: seq<Additional>) {
    forall i, j :: 0 <= i < j < |s| ==> s[i].id != s[j].id
  }

  /** Toggling an additional whose id is absent appends it at the end; toggling one whose
      id is present leaves exactly the entries with other ids, in their order. */
  lemma ToggleEffect(prev: seq<Additional>, a: Additional)
    ensures !HasId(prev, a.id) ==> Toggled(prev, a) == prev + [a]
    ensures HasId(prev, a.id) ==>
      (forall x :: x in Toggled(prev, a) <==> x in prev && x.id != a.id)
      && Seqs.IsSubsequence(Toggled(prev, a), prev)
      && !HasId(Toggled(prev, a), a.id)
  {
    if HasId(prev, a.id) {
      forall x ensures x in Toggled(prev, a) <==> x in prev && x.id != a.id {
        Seqs.FilterMembers(prev, OtherId(a.id), x);
      }
      Seqs.FilterIsSubsequence(prev, OtherId(a.id));
    }
  }

  /** Toggling an absent additional twice gives back the selection it started from. */
  lemma ToggleTwiceRestores(prev: seq<Additional>, a: Additional)
    requires !HasId(prev, a.id)
    ensures Toggled(Toggled(prev, a), a) == prev
  {
    var keep := OtherId(a.id);
    assert a in prev + [a];
    forall i | 0 <= i < |prev| ensures keep(prev[i]) {
      assert prev[i] in prev;
    }
    Seqs.FilterAllPass(prev, keep);
    Seqs.FilterConcat(prev, [a], keep);
    assert Seqs.Filter([a], keep) == [] by {
      assert [a][1..] == [];
    }
  }

  /** Filtering never makes two entries share an identifier. */
  lemma {:induction false} FilterKeepsDistinctIds(s: seq<Additional>, p: Additional -> bool)
    requires DistinctIds(s)
    ensures DistinctIds(Seqs.Filter(s, p))
  {
    if s != [] {
      var tail := s[1..];
      assert DistinctIds(tail) by {
        forall i, j | 0 <= i < j < |tail| ensures tail[i].id != tail[j].id {
          assert tail[i] == s[i + 1] && tail[j] == s[j + 1];
        }
      }
      FilterKeepsDistinctIds(tail, p);
      if p(s[0]) {
        var rest := Seqs.Filter(tail, p);
        var r := [s[0]] + rest;
        forall j | 0 < j < |r| ensures r[0].id != r[j].id {
          Seqs.FilterMembers(tail, p, r[j]);
          var k :| 0 <= k < |tail| && tail[k] == r[j];
          assert s[k + 1] == r[j];
        }
      }
    }
  }

  /** Toggling keeps the identifiers of the selection distinct. */
  lemma ToggleKeepsDistinctIds(prev: seq<Additional>, a: Additional)
    requires DistinctIds(prev)
    ensures DistinctIds(Toggled(prev, a))
  {
    if HasId(prev, a.id) {
      FilterKeepsDistinctIds(prev, OtherId(a.id));
    } else {
      var r := prev + [a];
      forall i | 0 <= i < |prev| ensures r[i].id != a.id {
        assert prev[i] in prev;
      }
    }
  }

  /** The selection after toggling each of `toggles` in turn, starting from `start`. */
  function ToggleAll(start: seq<Additional>, toggles: seq<Additional>): seq<Additional> {
    if toggles == [] then start else Toggled(ToggleAll(start, toggles[..|toggles| - 1]), toggles[|toggles| - 1])
  }

  /** From the empty selection the dialog starts with, any run of toggles leaves every
      identifier selected at most once. */
  lemma {:induction false} TogglesFromEmptyKeepDistinctIds(toggles: seq<Additional>)
    ensures DistinctIds(ToggleAll([], toggles))
  {
    if toggles != [] {
      TogglesFromEmptyKeepDistinctIds(toggles[..|toggles| - 1]);
      ToggleKeepsDistinctIds(ToggleAll([], toggles[..|toggles| - 1]), toggles[|toggles| - 1]);
    }
  }

  /** `totalPrice`: the product's price (0 when there is no product) plus the prices of
      the selected additionals. */
  function TotalPrice(product: Option<Product>, selected: seq<Additional>): real {
    (if product.Some? then product.value.price else 0.0) + CartContext.AdditionalsTotal(selected)
  }

  /** The sum of additional prices over a concatenation. */
  lemma {:induction false} AdditionalsTotalConcat(a: seq<Additional>, b: seq<Additional>)
    ensures CartContext.AdditionalsTotal(a + b) == CartContext.AdditionalsTotal(a) + CartContext.AdditionalsTotal(b)
  {
    if b == [] {
      assert a + b == a;
    } else {
      var init := b[..|b| - 1];
      AdditionalsTotalConcat(a, init);
      assert (a + b)[..|a + b| - 1] == a + init;
    }
  }

  /** With distinct identifiers, the entry carrying `id` is the only one the toggle
      filter drops. */
  lemma {:induction false} FilterDropsOne(s: seq<Additional>, k: int, id: string)
    requires DistinctIds(s) && 0 <= k < |s| && s[k].id == id
    ensures Seqs.Filter(s, OtherId(id)) == s[..k] + s[k + 1..]
  {
    var keep := OtherId(id);
    var pre, post := s[..k], s[k + 1..];
    assert s == pre + ([s[k]] + post);
    forall i | 0 <= i < |pre| ensures keep(pre[i]) {
      assert pre[i] == s[i];
    }
    forall i | 0 <= i < |post| ensures keep(post[i]) {
      assert post[i] == s[k + 1 + i];
    }
    Seqs.FilterAllPass(pre, keep);
    Seqs.FilterAllPass(post, keep);
    Seqs.FilterConcat(pre, [s[k]] + post, keep);
    assert ([s[k]] + post)[1..] == post;
  }

  /** Toggling moves the shown price by the toggled additional: up by its price when it is
      added, down by the price of the selected entry with its id when it is removed. */
  lemma ToggleMovesPrice(product: Option<Product>, prev: seq<Additional>, a: Additional)
    requires DistinctIds(prev)
    ensures !HasId(prev, a.id) ==> TotalPrice(product, Toggled(prev, a)) == TotalPrice(product, prev) + a.price
    ensures forall k :: 0 <= k < |prev| && prev[k].id == a.id ==>
      TotalPrice(product, Toggled(prev, a)) == TotalPrice(product, prev) - prev[k].price
  {
    if !HasId(prev, a.id) {
      assert (prev + [a])[..|prev|] == prev;
    }
    forall k | 0 <= k < |prev| && prev[k].id == a.id
      ensures TotalPrice(product, Toggled(prev, a)) == TotalPrice(product, prev) - prev[k].price
    {
      assert prev[k] in prev;
      FilterDropsOne(prev, k, a.id);
      var pre, post := prev[..k], prev[k + 1..];
      assert prev == pre + ([prev[k]] + post);
      AdditionalsTotalConcat(pre, post);
      AdditionalsTotalConcat(pre, [prev[k]] + post);
      AdditionalsTotalConcat([prev[k]], post);
      assert CartContext.AdditionalsTotal([prev[k]]) == prev[k].price by {
        assert [prev[k]][..0] == [];
      }
    }
  }

  /** The meat point handed to the cart: the chosen one for a burger, none otherwise. */
  function MeatPointFor(product: Product, meatPoint: string): (r: Option<string>)
    ensures r.Some? <==> product.category == BurgerCategory
    ensures r.Some? ==> r.value == meatPoint
  {
    if product.category == BurgerCategory then Some(meatPoint) else None
  }

  /** The dialog's state: the selected additionals, the notes and the chosen meat point. */
  class Dialog {
    var selectedAdditionals: seq<Additional>
    var notes: string
    var meatPoint: string

    /** An additional is selected at most once. */
    ghost predicate Valid()
      reads this
    {
      DistinctIds(selectedAdditionals)
    }

    /** The state the dialog starts in (and that `Close` returns to). */
    ghost predicate IsReset()
      reads this
    {
      selectedAdditionals == [] && notes == "" && meatPoint == DefaultMeatPoint
    }

    /** Nothing selected, no notes, "Ao ponto". */
    constructor ()
      ensures Valid() && IsReset()
    {
      selectedAdditionals := [];
      notes := "";
      meatPoint := DefaultMeatPoint;
    }

    /** `handleAdditionalToggle`: the selection becomes `Toggled`; notes and meat point
        are kept, and no identifier becomes selected twice. */
    method Toggle(additional: Additional)
      requires Valid()
      modifies this
      ensures Valid()
      ensures selectedAdditionals == Toggled(old(selectedAdditionals), additional)
      ensures notes == old(notes) && meatPoint == old(meatPoint)
    {
      ToggleKeepsDistinctIds(selectedAdditionals, additional);
      selectedAdditionals := Toggled(selectedAdditionals, additional);
    }

    /** `handleClose`: the selection, the notes and the meat point return to their
        initial values. */
    method Close()
      modifies this
      ensures Valid() && IsReset()
    {
      selectedAdditionals := [];
      notes := "";
      meatPoint := DefaultMeatPoint;
    }

    /** `handleAddToCart`: without a product nothing happens; otherwise one cart line is
        appended with the selected additionals, the notes and, for a burger only, the meat
        point, the cart total rises by exactly the price the dialog showed, and the dialog
        is reset. */
    method AddToCart(product: Option<Product>, cart: CartContext.CartStore)
      requires Valid() && cart.Valid()
      modifies this, cart
      ensures Valid() && cart.Valid()
      ensures product.None? ==>
        cart.items == old(cart.items) && selectedAdditionals == old(selectedAdditionals)
        && notes == old(notes) && meatPoint == old(meatPoint)
      ensures product.Some? ==>
        cart.items == old(cart.items)
          + [CartItem(product.value, 1, old(selectedAdditionals), old(notes), MeatPointFor(product.value, old(meatPoint)))]
        && CartContext.Total(cart.items) == old(CartContext.Total(cart.items)) + TotalPrice(product, old(selectedAdditionals))
        && IsReset()
    {
      if product.None? {
        return;
      }
      var p := product.value;
      var isBurger := p.category == BurgerCategory;
      cart.AddItem(p, Some(selectedAdditionals), Some(notes), if isBurger then Some(meatPoint) else None);
      Close();
    }
  }
}
