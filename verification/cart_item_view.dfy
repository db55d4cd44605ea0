/**
 * The cart line's quantity controls: which store operation a minus, plus or
 * trash press asks for, and why routing quantity edits this way keeps every
 * line's quantity positive.
 */
module CartItemView {
  import opened Types
  import opened CartSlice

  /** What a cart line asks its screen to do. */
  datatype Callback = OnRemove(id: string) | OnUpdateQuantity(id: string, quantity: int)

  /** A requested quantity of zero or less removes the line; any other updates it. */
  function HandleQuantityChange(item: CartItem, newQuantity: int): (c: Callback)
    ensures newQuantity <= 0 ==> c == OnRemove(item.id)
    ensures newQuantity > 0 ==> c == OnUpdateQuantity(item.id, newQuantity)
  {
    if newQuantity <= 0 then OnRemove(item.id) else OnUpdateQuantity(item.id, newQuantity)
  }

  /** Minus asks for one unit fewer: removal once that would leave none. */
  function Minus(item: CartItem): (c: Callback)
    ensures c.id == item.id
    ensures c.OnRemove? <==> item.quantity <= 1
    ensures c.OnUpdateQuantity? ==> c.quantity == item.quantity - 1 && c.quantity >= 1
  {
    HandleQuantityChange(item, item.quantity - 1)
  }

  /** Plus asks for one unit more. */
  function Plus(item: CartItem): (c: Callback)
    ensures c.id == item.id
    ensures c.OnRemove? <==> item.quantity <= -1
    ensures c.OnUpdateQuantity? ==> c.quantity == item.quantity + 1 && c.quantity >= 1
  {
    HandleQuantityChange(item, item.quantity + 1)
  }

  /** Trash asks for removal, bypassing the quantity handler. */
  function Trash(item: CartItem): (c: Callback)
    ensures c.OnRemove? && c.id == item.id
  {
    OnRemove(item.id)
  }

  /** The cart screen hands removals to `removeFromCart` and edits to `updateQuantity`. */
  function Dispatched(items: seq<CartItem>, c: Callback): (r: seq<CartItem>)
    ensures |r| <= |items|
    ensures c.OnRemove? ==> forall i :: 0 <= i < |r| ==> r[i].id != c.id
    ensures c.OnUpdateQuantity? ==> |r| == |items|
    ensures c.OnUpdateQuantity? ==> forall j :: 0 <= j < |items| && items[j].id != c.id ==> r[j] == items[j]
  {
    match c
    case OnRemove(id) => Removed(items, id)
    case OnUpdateQuantity(id, q) => Updated(items, id, q)
  }

  /** The cart screen's callbacks, run against the store. */
  method Deliver(cart: CartStore, c: Callback)
    modifies cart
    ensures cart.items == Dispatched(old(cart.items), c)
    ensures old(cart.Consistent()) ==> cart.Consistent()
  {
    match c
    case OnRemove(id) => cart.RemoveFromCart(id);
    case OnUpdateQuantity(id, q) => cart.UpdateQuantity(id, q);
  }

  /** Minus on a line of one unit, or fewer, removes it: no line with its id is left. */
  lemma MinusOnLastUnitRemoves(items: seq<CartItem>, item: CartItem)
    requires item.quantity <= 1
    ensures Minus(item) == OnRemove(item.id)
    ensures forall i :: 0 <= i < |Dispatched(items, Minus(item))| ==> Dispatched(items, Minus(item))[i].id != item.id
  {
  }

  /** The trash button removes every line with the item's id, whatever its quantity. */
  lemma TrashRemovesLine(items: seq<CartItem>, item: CartItem)
    ensures Trash(item) == OnRemove(item.id)
    ensures forall i :: 0 <= i < |Dispatched(items, Trash(item))| ==> Dispatched(items, Trash(item))[i].id != item.id
  {
  }

  /** Plus on a line holding zero or more units updates it to one more. */
  lemma PlusUpdates(item: CartItem)
    requires item.quantity >= 0
    ensures Plus(item) == OnUpdateQuantity(item.id, item.quantity + 1)
  {
  }

  /** What the shopper does to the cart. */
  datatype Event =
    | AddPressed(product: Product, quantity: int, options: Options, freshId: string)
    | QuantityEdited(item: CartItem, newQuantity: int)
    | TrashPressed(item: CartItem)
    | ClearPressed

  function Step(items: seq<CartItem>, e: Event): seq<CartItem>
  {
    match e
    case AddPressed(p, q, o, id) => Added(items, p, q, o, id)
    case QuantityEdited(it, n) => Dispatched(items, HandleQuantityChange(it, n))
    case TrashPressed(it) => Dispatched(items, Trash(it))
    case ClearPressed => []
  }

  function Run(items: seq<CartItem>, es: seq<Event>): seq<CartItem>
    decreases |es|
  {
    if es == [] then items else Run(Step(items, es[0]), es[1..])
  }

  /** Every add in the session asks for at least one unit. */
  predicate AddsArePositive(es: seq<Event>)
  {
    forall i :: 0 <= i < |es| && es[i].AddPressed? ==> es[i].quantity >= 1
  }

  /** One event keeps every line positive, whatever quantity the shopper asks for. */
  lemma StepKeepsPositive(items: seq<CartItem>, e: Event)
    requires AllPositive(items)
    requires e.AddPressed? ==> e.quantity >= 1
    ensures AllPositive(Step(items, e))
  {
    match e
    case AddPressed(p, q, o, id) => AddKeepsPositive(items, p, q, o, id);
    case QuantityEdited(it, n) =>
      if n <= 0 {
        RemoveKeepsPositive(items, it.id);
      } else {
        UpdateKeepsPositive(items, it.id, n);
      }
    case TrashPressed(it) => RemoveKeepsPositive(items, it.id);
    case ClearPressed =>
  }

  /**
   * When adds ask for at least one unit and quantity edits go through the
   * line's handler, no line ever holds zero or fewer units.
   */
  lemma {:induction false} SessionKeepsQuantitiesPositive(items: seq<CartItem>, es: seq<Event>)
    requires AllPositive(items) && AddsArePositive(es)
    ensures AllPositive(Run(items, es))
    decreases |es|
  {
    if es != [] {
      StepKeepsPositive(items, es[0]);
      assert AddsArePositive(es[1..]) by {
        forall i | 0 <= i < |es[1..]| && es[1..][i].AddPressed?
          ensures es[1..][i].quantity >= 1
        {
          assert es[1..][i] == es[i + 1];
        }
      }
      SessionKeepsQuantitiesPositive(Step(items, es[0]), es[1..]);
    }
  }
}
