/**
 * The cart store: an ordered list of lines with two derived fields, the
 * money total and the number of units, recomputed after every change.
 */
module CartSlice {
  import opened Wrappers
  import opened Seqs
  import opened Types

  function Quantity(it: CartItem): int { it.quantity }

  function LineTotal(it: CartItem): int { it.product.price * it.quantity }

  /** Every line holds at least one unit. */
  predicate AllPositive(items: seq<CartItem>)
  {
    forall i :: 0 <= i < |items| ==> items[i].quantity > 0
  }

  /** The units in the cart: the sum of the lines' quantities; at least one per line when every line is positive. */
  function SumQty(items: seq<CartItem>): (r: int)
    ensures items == [] ==> r == 0
    ensures AllPositive(items) ==> r >= |items|
  {
    if AllPositive(items) then SumOfLowerBound(items, Quantity, 1); SumOf(items, Quantity)
    else SumOf(items, Quantity)
  }

  /** The money in the cart: the sum of price times quantity; never negative when no price or quantity is. */
  function SumPrice(items: seq<CartItem>): (r: int)
    ensures items == [] ==> r == 0
    ensures (forall i :: 0 <= i < |items| ==> items[i].product.price >= 0 && items[i].quantity >= 0) ==> r >= 0
  {
    if forall i :: 0 <= i < |items| ==> LineTotal(items[i]) >= 0 then
      SumOfLowerBound(items, LineTotal, 0); SumOf(items, LineTotal)
    else SumOf(items, LineTotal)
  }

  /** No two lines hold the same product with the same option set. */
  predicate UniqueLines(items: seq<CartItem>)
  {
    forall i, j :: 0 <= i < j < |items| ==> !SameLine(items[j], items[i].product.id, items[i].selectedOptions)
  }

  /** A line that an add of this product with these options merges into. */
  predicate SameLine(it: CartItem, productId: string, options: Options)
  {
    it.product.id == productId && it.selectedOptions == options
  }

  /** The first line an add of this product with these options merges into. */
  function FindLine(items: seq<CartItem>, productId: string, options: Options): (r: Option<nat>)
    ensures r.Some? ==> r.value < |items| && SameLine(items[r.value], productId, options)
    ensures r.Some? ==> forall j :: 0 <= j < r.value ==> !SameLine(items[j], productId, options)
    ensures r.None? ==> forall j :: 0 <= j < |items| ==> !SameLine(items[j], productId, options)
  {
    FirstIndex(items, (it: CartItem) => SameLine(it, productId, options))
  }

  /** The first line carrying the line id `id`. */
  function FindId(items: seq<CartItem>, id: string): (r: Option<nat>)
    ensures r.Some? ==> r.value < |items| && items[r.value].id == id
    ensures r.Some? ==> forall j :: 0 <= j < r.value ==> items[j].id != id
    ensures r.None? ==> forall j :: 0 <= j < |items| ==> items[j].id != id
  {
    FirstIndex(items, (it: CartItem) => it.id == id)
  }

  /** The lines after adding: merge into the first matching line, or append a new one. */
  function Added(items: seq<CartItem>, product: Product, quantity: int, options: Options, freshId: string): (r: seq<CartItem>)
    ensures |r| == |items| || r == items + [CartItem(freshId, product, quantity, options)]
    ensures exists k :: 0 <= k < |r| && SameLine(r[k], product.id, options)
    ensures forall j :: 0 <= j < |items| && !SameLine(items[j], product.id, options) ==> r[j] == items[j]
  {
    match FindLine(items, product.id, options)
    case Some(k) =>
      var r := items[k := items[k].(quantity := items[k].quantity + quantity)];
      assert SameLine(r[k], product.id, options);
      r
    case None =>
      var r := items + [CartItem(freshId, product, quantity, options)];
      assert SameLine(r[|items|], product.id, options);
      r
  }

  /** The lines after removing every line with id `id`. */
  function Removed(items: seq<CartItem>, id: string): (r: seq<CartItem>)
    ensures |r| <= |items|
    ensures forall i :: 0 <= i < |r| ==> r[i].id != id
  {
    Filter(items, (it: CartItem) => it.id != id)
  }

  /** The lines after setting the first line with id `id` to `quantity`. */
  function Updated(items: seq<CartItem>, id: string, quantity: int): (r: seq<CartItem>)
    ensures |r| == |items|
    ensures forall j :: 0 <= j < |items| ==> r[j] == items[j] || (items[j].id == id && r[j] == items[j].(quantity := quantity))
    ensures forall j :: 0 <= j < |items| && items[j].id != id ==> r[j] == items[j]
  {
    match FindId(items, id)
    case Some(k) => items[k := items[k].(quantity := quantity)]
    case None => items
  }

  class CartStore {
    var items: seq<CartItem>
    var total: int
    var itemCount: int

    /** The derived fields agree with the lines. */
    predicate Consistent()
      reads this
    {
      itemCount == SumQty(items) && total == SumPrice(items)
    }

    /** The initial state: no lines, nothing to pay. */
    constructor ()
      ensures items == [] && total == 0 && itemCount == 0
      ensures Consistent() && UniqueLines(items)
    {
      items, total, itemCount := [], 0, 0;
    }

    method AddToCart(product: Product, quantity: int, selectedOptions: Options, freshId: string)
      modifies this
      ensures items == Added(old(items), product, quantity, selectedOptions, freshId)
      ensures Consistent()
      ensures old(UniqueLines(items)) ==> UniqueLines(items)
    {
      ghost var before := items;
      var existing := FindLine(items, product.id, selectedOptions);
      if existing.Some? {
        var k := existing.value;
        items := items[k := items[k].(quantity := items[k].quantity + quantity)];
      } else {
        items := items + [CartItem(freshId, product, quantity, selectedOptions)];
      }
      itemCount := SumQty(items);
      total := SumPrice(items);
      if UniqueLines(before) {
        AddKeepsUnique(before, product, quantity, selectedOptions, freshId);
      }
    }

    method RemoveFromCart(id: string)
      modifies this
      ensures items == Removed(old(items), id)
      ensures Consistent()
      ensures old(UniqueLines(items)) ==> UniqueLines(items)
    {
      if UniqueLines(items) {
        RemoveKeepsUnique(items, id);
      }
      items := Removed(items, id);
      itemCount := SumQty(items);
      total := SumPrice(items);
    }

    method UpdateQuantity(id: string, quantity: int)
      modifies this
      ensures items == Updated(old(items), id, quantity)
      ensures FindId(old(items), id).Some? ==> Consistent()
      ensures FindId(old(items), id).None? ==> total == old(total) && itemCount == old(itemCount)
      ensures old(UniqueLines(items)) ==> UniqueLines(items)
    {
      if UniqueLines(items) {
        UpdateKeepsUnique(items, id, quantity);
      }
      var found := FindId(items, id);
      if found.Some? {
        var k := found.value;
        items := items[k := items[k].(quantity := quantity)];
        itemCount := SumQty(items);
        total := SumPrice(items);
      }
    }

    method ClearCart()
      modifies this
      ensures items == [] && total == 0 && itemCount == 0
      ensures Consistent() && UniqueLines(items)
    {
      items := [];
      total := 0;
      itemCount := 0;
    }
  }

  /** Adding into an existing line grows only the first matching line; length and order stay. */
  lemma AddMergesIntoFirstMatch(items: seq<CartItem>, product: Product, quantity: int, options: Options, freshId: string, k: nat)
    requires k < |items| && SameLine(items[k], product.id, options)
    requires forall j :: 0 <= j < k ==> !SameLine(items[j], product.id, options)
    ensures |Added(items, product, quantity, options, freshId)| == |items|
    ensures Added(items, product, quantity, options, freshId)[k] == items[k].(quantity := items[k].quantity + quantity)
    ensures forall j :: 0 <= j < |items| && j != k ==> Added(items, product, quantity, options, freshId)[j] == items[j]
  {
  }

  /** With no matching line, adding appends exactly one new line at the end. */
  lemma AddAppendsNewLine(items: seq<CartItem>, product: Product, quantity: int, options: Options, freshId: string)
    requires forall j :: 0 <= j < |items| ==> !SameLine(items[j], product.id, options)
    ensures Added(items, product, quantity, options, freshId) == items + [CartItem(freshId, product, quantity, options)]
  {
  }

  /**
   * After an add the cart holds `quantity` more units, and `quantity` more
   * times the price of the line it landed in: on a merge that is the price
   * snapshot stored in the existing line, not the price of `product`.
   */
  lemma AddGrowsTotals(items: seq<CartItem>, product: Product, quantity: int, options: Options, freshId: string)
    ensures SumQty(Added(items, product, quantity, options, freshId)) == SumQty(items) + quantity
    ensures SumPrice(Added(items, product, quantity, options, freshId)) == SumPrice(items) +
      (match FindLine(items, product.id, options)
       case Some(k) => items[k].product.price
       case None => product.price) * quantity
  {
    match FindLine(items, product.id, options)
    case Some(k) =>
      var line := items[k].(quantity := items[k].quantity + quantity);
      SumOfUpdate(items, k, line, Quantity);
      SumOfUpdate(items, k, line, LineTotal);
      assert LineTotal(line) - LineTotal(items[k]) == items[k].product.price * quantity;
    case None =>
      var line := CartItem(freshId, product, quantity, options);
      SumOfAppend(items, line, Quantity);
      SumOfAppend(items, line, LineTotal);
  }

  /** Removing keeps exactly the lines with another id, each as often as before, in order. */
  lemma RemoveKeepsOtherLines(items: seq<CartItem>, id: string)
    ensures forall i :: 0 <= i < |Removed(items, id)| ==> Removed(items, id)[i].id != id
    ensures forall it: CartItem :: multiset(Removed(items, id))[it] == if it.id != id then multiset(items)[it] else 0
    ensures IsSubsequence(Removed(items, id), items)
  {
    forall it: CartItem
      ensures multiset(Removed(items, id))[it] == if it.id != id then multiset(items)[it] else 0
    {
      FilterCounts(items, (l: CartItem) => l.id != id, it);
    }
    FilterIsSubsequence(items, (l: CartItem) => l.id != id);
  }

  /** Removing the same id twice is the same as removing it once. */
  lemma RemoveIdempotent(items: seq<CartItem>, id: string)
    ensures Removed(Removed(items, id), id) == Removed(items, id)
  {
    FilterIdempotent(items, (it: CartItem) => it.id != id);
  }

  /** Removing an id no line carries changes nothing. */
  lemma RemoveAbsentIdChangesNothing(items: seq<CartItem>, id: string)
    requires forall j :: 0 <= j < |items| ==> items[j].id != id
    ensures Removed(items, id) == items
  {
    FilterKeepsAll(items, (it: CartItem) => it.id != id);
  }

  /** An add never creates a second line for one product and option set. */
  lemma AddKeepsUnique(items: seq<CartItem>, product: Product, quantity: int, options: Options, freshId: string)
    requires UniqueLines(items)
    ensures UniqueLines(Added(items, product, quantity, options, freshId))
  {
  }

  /** A removal never creates a second line for one product and option set. */
  lemma RemoveKeepsUnique(items: seq<CartItem>, id: string)
    requires UniqueLines(items)
    ensures UniqueLines(Removed(items, id))
  {
    var r := Removed(items, id);
    RemoveKeepsOtherLines(items, id);
    var idx :| IsEmbedding(idx, r, items);
    forall i, j | 0 <= i < j < |r|
      ensures !SameLine(r[j], r[i].product.id, r[i].selectedOptions)
    {
      assert r[i] == items[idx[i]] && r[j] == items[idx[j]] && idx[i] < idx[j];
    }
  }

  /** An update never creates a second line for one product and option set. */
  lemma UpdateKeepsUnique(items: seq<CartItem>, id: string, quantity: int)
    requires UniqueLines(items)
    ensures UniqueLines(Updated(items, id, quantity))
  {
    var r := Updated(items, id, quantity);
    forall i, j | 0 <= i < j < |r|
      ensures !SameLine(r[j], r[i].product.id, r[i].selectedOptions)
    {
      assert SameLine(r[j], r[i].product.id, r[i].selectedOptions)
         == SameLine(items[j], items[i].product.id, items[i].selectedOptions);
    }
  }

  /** Updating an id no line carries changes nothing. */
  lemma UpdateAbsentIdChangesNothing(items: seq<CartItem>, id: string, quantity: int)
    requires forall j :: 0 <= j < |items| ==> items[j].id != id
    ensures Updated(items, id, quantity) == items
  {
  }

  /**
   * Updating sets the first line with that id to the given quantity verbatim,
   * zero and negative values included; every other line is untouched.
   */
  lemma UpdateSetsFirstMatch(items: seq<CartItem>, id: string, quantity: int, k: nat)
    requires k < |items| && items[k].id == id
    requires forall j :: 0 <= j < k ==> items[j].id != id
    ensures |Updated(items, id, quantity)| == |items|
    ensures Updated(items, id, quantity)[k] == items[k].(quantity := quantity)
    ensures forall j :: 0 <= j < |items| && j != k ==> Updated(items, id, quantity)[j] == items[j]
    ensures SumQty(Updated(items, id, quantity)) == SumQty(items) - items[k].quantity + quantity
  {
    SumOfUpdate(items, k, items[k].(quantity := quantity), Quantity);
  }

  lemma AddKeepsPositive(items: seq<CartItem>, product: Product, quantity: int, options: Options, freshId: string)
    requires AllPositive(items) && quantity >= 1
    ensures AllPositive(Added(items, product, quantity, options, freshId))
  {
  }

  lemma RemoveKeepsPositive(items: seq<CartItem>, id: string)
    requires AllPositive(items)
    ensures AllPositive(Removed(items, id))
  {
    var r := Removed(items, id);
    forall i | 0 <= i < |r|
      ensures r[i].quantity > 0
    {
      RemoveKeepsOtherLines(items, id);
      assert r[i] in multiset(r);
      assert r[i] in items;
    }
  }

  lemma UpdateKeepsPositive(items: seq<CartItem>, id: string, quantity: int)
    requires AllPositive(items) && quantity >= 1
    ensures AllPositive(Updated(items, id, quantity))
  {
  }

  /** One `addToCart` payload, with the line id it would be given. */
  datatype AddRequest = AddRequest(product: Product, quantity: int, options: Options, freshId: string)

  function RequestQuantity(a: AddRequest): int { a.quantity }

  /** The line an add creates when nothing matches it. */
  function NewLine(a: AddRequest): CartItem
  {
    CartItem(a.freshId, a.product, a.quantity, a.options)
  }

  /** The lines after the adds in `adds`, in order. */
  function AddAll(items: seq<CartItem>, adds: seq<AddRequest>): seq<CartItem>
  {
    if adds == [] then items
    else
      var a := adds[|adds| - 1];
      Added(AddAll(items, adds[..|adds| - 1]), a.product, a.quantity, a.options, a.freshId)
  }

  /**
   * Adds of one product id with one option set, into an empty cart, leave
   * exactly one line: the first add's id and product snapshot, holding the
   * sum of all the added quantities.
   */
  lemma {:induction false} SameLineAddsMerge(adds: seq<AddRequest>, o: Options)
    requires |adds| > 0
    requires forall i :: 0 <= i < |adds| ==> adds[i].product.id == adds[0].product.id && adds[i].options == o
    ensures AddAll([], adds) == [CartItem(adds[0].freshId, adds[0].product, SumOf(adds, RequestQuantity), o)]
  {
    var n := |adds| - 1;
    var a := adds[n];
    if n == 0 {
      assert AddAll([], adds[..0]) == [];
      AddAppendsNewLine([], a.product, a.quantity, a.options, a.freshId);
      assert adds[..0] == [];
    } else {
      var prefix := adds[..n];
      SameLineAddsMerge(prefix, o);
      var line := CartItem(adds[0].freshId, adds[0].product, SumOf(prefix, RequestQuantity), o);
      assert AddAll([], prefix) == [line];
      AddMergesIntoFirstMatch([line], a.product, a.quantity, a.options, a.freshId, 0);
    }
  }

  /**
   * Adds whose (product id, option set) pairs are pairwise distinct, into an
   * empty cart, give one line per add, in order.
   */
  lemma {:induction false} DistinctAddsAppend(adds: seq<AddRequest>)
    requires forall i, j :: 0 <= i < j < |adds| ==>
      adds[i].product.id != adds[j].product.id || adds[i].options != adds[j].options
    ensures AddAll([], adds) == seq(|adds|, i requires 0 <= i < |adds| => NewLine(adds[i]))
  {
    if adds != [] {
      var n := |adds| - 1;
      var a := adds[n];
      var prefix := adds[..n];
      DistinctAddsAppend(prefix);
      var lines := seq(n, i requires 0 <= i < n => NewLine(prefix[i]));
      assert AddAll([], prefix) == lines;
      forall j | 0 <= j < n
        ensures !SameLine(lines[j], a.product.id, a.options)
      {
        assert lines[j] == NewLine(adds[j]);
      }
      AddAppendsNewLine(lines, a.product, a.quantity, a.options, a.freshId);
      assert lines + [NewLine(a)] == seq(|adds|, i requires 0 <= i < |adds| => NewLine(adds[i]));
    }
  }

  /**
   * The worked example: two adds of one product without options merge into
   * one line, an update sets its quantity, and removing it empties the cart.
   */
  lemma MergeUpdateRemoveScenario(p: Product, id1: string, id2: string)
    requires p.price == 1000
    ensures var a := Added([], p, 2, None, id1);
      a == [CartItem(id1, p, 2, None)] && SumPrice(a) == 2000 && SumQty(a) == 2
    ensures var b := Added(Added([], p, 2, None, id1), p, 3, None, id2);
      b == [CartItem(id1, p, 5, None)] && SumPrice(b) == 5000 && SumQty(b) == 5
    ensures var c := Updated([CartItem(id1, p, 5, None)], id1, 1);
      c == [CartItem(id1, p, 1, None)] && SumPrice(c) == 1000 && SumQty(c) == 1
    ensures Removed([CartItem(id1, p, 1, None)], id1) == []
  {
    var two, five, one := CartItem(id1, p, 2, None), CartItem(id1, p, 5, None), CartItem(id1, p, 1, None);
    assert Added([], p, 2, None, id1) == [two] by {
      AddAppendsNewLine([], p, 2, None, id1);
    }
    assert Added([two], p, 3, None, id2) == [five] by {
      AddMergesIntoFirstMatch([two], p, 3, None, id2, 0);
    }
    assert Updated([five], id1, 1) == [one] by {
      UpdateSetsFirstMatch([five], id1, 1, 0);
    }
    forall line: CartItem | line in {two, five, one}
      ensures SumPrice([line]) == 1000 * line.quantity && SumQty([line]) == line.quantity
    {
      SumOfAppend([], line, LineTotal);
      SumOfAppend([], line, Quantity);
      assert [] + [line] == [line];
    }
  }

  /**
   * Adding one product with two different option sets gives two lines; when
   * both adds see the same clock reading the two lines share one id, and a
   * removal by that id drops both.
   */
  lemma DistinctOptionsScenario(p: Product, red: Options, blue: Options, lineId: string)
    requires red != blue
    ensures var c := Added(Added([], p, 1, red, lineId), p, 1, blue, lineId);
      c == [CartItem(lineId, p, 1, red), CartItem(lineId, p, 1, blue)] && SumQty(c) == 2
    ensures Removed([CartItem(lineId, p, 1, red), CartItem(lineId, p, 1, blue)], lineId) == []
  {
    var r, b := CartItem(lineId, p, 1, red), CartItem(lineId, p, 1, blue);
    assert Added([], p, 1, red, lineId) == [r] by {
      AddAppendsNewLine([], p, 1, red, lineId);
    }
    assert Added([r], p, 1, blue, lineId) == [r, b] by {
      AddAppendsNewLine([r], p, 1, blue, lineId);
    }
    assert SumQty([r, b]) == 2 by {
      SumOfAppend([], r, Quantity);
      SumOfAppend([r], b, Quantity);
      assert [] + [r] == [r] && [r] + [b] == [r, b];
    }
    assert Removed([r, b], lineId) == [] by {
      RemoveKeepsOtherLines([r, b], lineId);
    }
  }
}
