/** The ordering app's cart: a list of lines keyed by menu item id. Adding an
    item already in the cart bumps its quantity, otherwise appends it with
    quantity 1; removing filters the id out; setting a quantity of zero or
    less removes the line; the total and the count are sums over the lines.
    The operations are pure functions on the list, and `CartState` is the
    state cell they overwrite. */
module Cart {
  import opened Seqs

  datatype MenuItem = MenuItem(menuItemId: string, name: string, price: real)

  datatype CartLine = CartLine(menuItemId: string, name: string, price: real, quantity: int)

  /** `prev.find(i => i.menuItemId === id)` finds something. */
  predicate HasLine(cart: seq<CartLine>, id: string)
  {
    exists l :: l in cart && l.menuItemId == id
  }

  /** At most one line per menu item, and every quantity positive. */
  predicate Valid(cart: seq<CartLine>)
  {
    && (forall i, j :: 0 <= i < j < |cart| ==> cart[i].menuItemId != cart[j].menuItemId)
    && (forall l :: l in cart ==> l.quantity > 0)
  }

  function Bump(id: string): CartLine -> CartLine
  {
    (l: CartLine) => if l.menuItemId == id then l.(quantity := l.quantity + 1) else l
  }

  /** `addToCart`: bump every line of the item, or append it with quantity 1. */
  function Add(cart: seq<CartLine>, item: MenuItem): (r: seq<CartLine>)
    ensures HasLine(cart, item.menuItemId) ==> |r| == |cart|
    ensures !HasLine(cart, item.menuItemId) ==> |r| == |cart| + 1
  {
    if HasLine(cart, item.menuItemId) then MapSeq(cart, Bump(item.menuItemId))
    else cart + [CartLine(item.menuItemId, item.name, item.price, 1)]
  }

  function Other(id: string): CartLine -> bool
  {
    (l: CartLine) => l.menuItemId != id
  }

  /** `removeFromCart`: every line of the item goes, the rest keep their order. */
  function Remove(cart: seq<CartLine>, id: string): (r: seq<CartLine>)
    ensures forall l :: l in r <==> l in cart && l.menuItemId != id
    ensures SubseqOf(r, cart)
  {
    FilterIsSubsequence(cart, Other(id));
    Filter(cart, Other(id))
  }

  function SetTo(id: string, quantity: int): CartLine -> CartLine
  {
    (l: CartLine) => if l.menuItemId == id then l.(quantity := quantity) else l
  }

  /** `updateQuantity`: a quantity of zero or less removes the item;
      otherwise every line of the item gets the new quantity. */
  function SetQuantity(cart: seq<CartLine>, id: string, quantity: int): (r: seq<CartLine>)
    ensures quantity > 0 ==> |r| == |cart|
  {
    if quantity <= 0 then Remove(cart, id) else MapSeq(cart, SetTo(id, quantity))
  }

  function LineTotal(l: CartLine): real { l.price * l.quantity as real }

  /** `cartTotal`: price times quantity, summed. */
  function Total(cart: seq<CartLine>): real { SumOf(cart, LineTotal) }

  /** `cartCount`: quantities, summed. */
  function Count(cart: seq<CartLine>): int
    decreases |cart|
  {
    if cart == [] then 0 else Count(cart[..|cart| - 1]) + cart[|cart| - 1].quantity
  }

  lemma CountAppend(cart: seq<CartLine>, l: CartLine)
    ensures Count(cart + [l]) == Count(cart) + l.quantity
  {
    assert (cart + [l])[..|cart|] == cart;
  }

  lemma {:induction false} CountUpdate(cart: seq<CartLine>, p: nat, l: CartLine)
    requires p < |cart|
    ensures Count(cart[p := l]) == Count(cart) - cart[p].quantity + l.quantity
    decreases |cart|
  {
    var n := |cart| - 1;
    if p == n {
      assert cart[p := l][..n] == cart[..n];
    } else {
      CountUpdate(cart[..n], p, l);
      assert cart[p := l][..n] == cart[..n][p := l];
    }
  }

  /** Adding an item the cart lacks appends one line with quantity 1 and
      leaves every existing line as it was. */
  lemma AddNewItem(cart: seq<CartLine>, item: MenuItem)
    requires !HasLine(cart, item.menuItemId)
    ensures var r := Add(cart, item);
      r[..|cart|] == cart
      && r[|cart|].menuItemId == item.menuItemId && r[|cart|].price == item.price && r[|cart|].quantity == 1
  {
    assert (cart + [CartLine(item.menuItemId, item.name, item.price, 1)])[..|cart|] == cart;
  }

  /** Adding an item the cart holds at position `p` raises that line's
      quantity by exactly one and changes nothing else. */
  lemma AddExistingItem(cart: seq<CartLine>, item: MenuItem, p: nat)
    requires Valid(cart)
    requires p < |cart| && cart[p].menuItemId == item.menuItemId
    ensures Add(cart, item) == cart[p := cart[p].(quantity := cart[p].quantity + 1)]
  {
    assert cart[p] in cart;
    var r := Add(cart, item);
    forall k | 0 <= k < |cart| ensures r[k] == cart[p := cart[p].(quantity := cart[p].quantity + 1)][k] {
      if k != p {
        assert cart[k].menuItemId != item.menuItemId;
      }
    }
  }

  /** Adding one of anything raises the count by exactly one. */
  lemma AddRaisesCountByOne(cart: seq<CartLine>, item: MenuItem)
    requires Valid(cart)
    ensures Count(Add(cart, item)) == Count(cart) + 1
  {
    if HasLine(cart, item.menuItemId) {
      var l :| l in cart && l.menuItemId == item.menuItemId;
      var p :| 0 <= p < |cart| && cart[p] == l;
      AddExistingItem(cart, item, p);
      CountUpdate(cart, p, cart[p].(quantity := cart[p].quantity + 1));
    } else {
      CountAppend(cart, CartLine(item.menuItemId, item.name, item.price, 1));
    }
  }

  /** One more unit of a line adds its price to the line total. */
  lemma LineTotalBump(l: CartLine)
    ensures LineTotal(l.(quantity := l.quantity + 1)) == LineTotal(l) + l.price
  {
    assert (l.quantity + 1) as real == l.quantity as real + 1.0;
  }

  /** Adding one of an item raises the total by that item's price in the cart. */
  lemma AddRaisesTotalByPrice(cart: seq<CartLine>, item: MenuItem, p: nat)
    requires Valid(cart)
    requires p < |cart| && cart[p].menuItemId == item.menuItemId
    ensures Total(Add(cart, item)) == Total(cart) + cart[p].price
  {
    var bumped := cart[p].(quantity := cart[p].quantity + 1);
    AddExistingItem(cart, item, p);
    SumOfUpdate(cart, p, bumped, LineTotal);
    LineTotalBump(cart[p]);
  }

  lemma AddPreservesValid(cart: seq<CartLine>, item: MenuItem)
    requires Valid(cart)
    ensures Valid(Add(cart, item))
  {
    if HasLine(cart, item.menuItemId) {
      var l :| l in cart && l.menuItemId == item.menuItemId;
      var p :| 0 <= p < |cart| && cart[p] == l;
      AddExistingItem(cart, item, p);
    } else {
      var r := Add(cart, item);
      forall i, j | 0 <= i < j < |r| ensures r[i].menuItemId != r[j].menuItemId {
        if j == |cart| {
          assert r[i] == cart[i] && cart[i] in cart;
        }
      }
    }
  }

  /** Removing an id no line carries leaves the cart unchanged. */
  lemma RemoveAbsentIsNoOp(cart: seq<CartLine>, id: string)
    requires !HasLine(cart, id)
    ensures Remove(cart, id) == cart
  {
    FilterAll(cart, Other(id));
  }

  lemma RemovePreservesValid(cart: seq<CartLine>, id: string)
    requires Valid(cart)
    ensures Valid(Remove(cart, id))
  {
    var r := Remove(cart, id);
    forall i, j | 0 <= i < j < |r| ensures r[i].menuItemId != r[j].menuItemId {
      SubseqIndices(r, cart, i, j);
    }
  }

  /** A positive quantity changes only the quantity of that item's lines:
      every line keeps its position, id, name and price. */
  lemma SetQuantityTouchesOnlyThatItem(cart: seq<CartLine>, id: string, quantity: int)
    requires quantity > 0
    ensures var r := SetQuantity(cart, id, quantity);
      |r| == |cart|
      && forall k :: 0 <= k < |cart| ==>
        r[k].menuItemId == cart[k].menuItemId && r[k].name == cart[k].name && r[k].price == cart[k].price
        && r[k].quantity == (if cart[k].menuItemId == id then quantity else cart[k].quantity)
  {
  }

  /** Setting a quantity of zero or less is removing the item. */
  lemma SetNonPositiveQuantityRemoves(cart: seq<CartLine>, id: string, quantity: int)
    requires quantity <= 0
    ensures !HasLine(SetQuantity(cart, id, quantity), id)
    ensures forall l :: l in SetQuantity(cart, id, quantity) <==> l in cart && l.menuItemId != id
  {
  }

  /** Setting the quantity of a held item moves the count by the difference. */
  lemma SetQuantityAdjustsCount(cart: seq<CartLine>, id: string, quantity: int, p: nat)
    requires Valid(cart) && quantity > 0
    requires p < |cart| && cart[p].menuItemId == id
    ensures Count(SetQuantity(cart, id, quantity)) == Count(cart) - cart[p].quantity + quantity
  {
    var r := SetQuantity(cart, id, quantity);
    forall k | 0 <= k < |cart| ensures r[k] == cart[p := cart[p].(quantity := quantity)][k] {
      if k != p {
        assert cart[k].menuItemId != id;
      }
    }
    assert r == cart[p := cart[p].(quantity := quantity)];
    CountUpdate(cart, p, cart[p].(quantity := quantity));
  }

  lemma SetQuantityPreservesValid(cart: seq<CartLine>, id: string, quantity: int)
    requires Valid(cart)
    ensures Valid(SetQuantity(cart, id, quantity))
  {
    if quantity <= 0 {
      RemovePreservesValid(cart, id);
    } else {
      var r := SetQuantity(cart, id, quantity);
      forall l | l in r ensures l.quantity > 0 {
        var k :| 0 <= k < |r| && r[k] == l;
        assert cart[k] in cart;
      }
    }
  }

  /** The empty cart totals nothing and counts nothing. */
  lemma EmptyCartTotals()
    ensures Total([]) == 0.0 && Count([]) == 0
  {
  }

  /** The `cart` state cell and the operations that overwrite it. */
  class CartState {
    var lines: seq<CartLine>

    constructor()
      ensures lines == []
    {
      lines := [];
    }

    method AddToCart(item: MenuItem)
      modifies this
      ensures lines == Add(old(lines), item)
      ensures Valid(old(lines)) ==> Valid(lines) && Count(lines) == Count(old(lines)) + 1
    {
      if Valid(lines) {
        AddPreservesValid(lines, item);
        AddRaisesCountByOne(lines, item);
      }
      lines := Add(lines, item);
    }

    method RemoveFromCart(id: string)
      modifies this
      ensures lines == Remove(old(lines), id)
      ensures Valid(old(lines)) ==> Valid(lines)
      ensures !HasLine(lines, id)
    {
      if Valid(lines) {
        RemovePreservesValid(lines, id);
      }
      lines := Remove(lines, id);
    }

    method UpdateQuantity(id: string, quantity: int)
      modifies this
      ensures lines == SetQuantity(old(lines), id, quantity)
      ensures Valid(old(lines)) ==> Valid(lines)
    {
      if quantity <= 0 {
        RemoveFromCart(id);
        return;
      }
      if Valid(lines) {
        SetQuantityPreservesValid(lines, id, quantity);
      }
      lines := MapSeq(lines, SetTo(id, quantity));
    }

    method ClearCart()
      modifies this
      ensures lines == []
      ensures CartTotal() == 0.0 && CartCount() == 0
    {
      lines := [];
    }

    function CartTotal(): real
      reads this
    {
      Total(lines)
    }

    function CartCount(): int
      reads this
    {
      Count(lines)
    }
  }
}
