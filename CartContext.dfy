/**
 * The storefront's shopping cart: a process-local list of items that the
 * provider replaces on every add, remove and clear, and whose total is the
 * sum of the prices it holds.
 */
module CartContext {
  import opened Wrappers
  import opened Seqs

  /** One listing placed in the cart; the same listing may be placed twice. */
  datatype CartItem = CartItem(id: int, brand: string, model: string, price: real, image: string)

  function Price(item: CartItem): real { item.price }

  /** The `total` the provider exposes: the prices summed from 0. */
  function CartTotal(cart: seq<CartItem>): real { SumOf(cart, Price) }

  /** The cart after removing by `id`: every item carrying another id, in cart order. */
  function WithoutId(cart: seq<CartItem>, id: int): (r: seq<CartItem>)
    ensures forall x :: x in r <==> x in cart && x.id != id
  {
    Filter(cart, (x: CartItem) => x.id != id)
  }

  /** The items a removal by `id` takes out of the cart. */
  function WithId(cart: seq<CartItem>, id: int): (r: seq<CartItem>)
    ensures forall x :: x in r <==> x in cart && x.id == id
  {
    Filter(cart, (x: CartItem) => x.id == id)
  }

  /** Adding an item whose id is already present adds a second copy rather than merging. */
  lemma AddNeverMerges(cart: seq<CartItem>, item: CartItem)
    ensures |WithId(cart + [item], item.id)| == |WithId(cart, item.id)| + 1
  {
  }

  /** Adding an item raises the total by exactly its price. */
  lemma AddRaisesTotal(cart: seq<CartItem>, item: CartItem)
    ensures CartTotal(cart + [item]) == CartTotal(cart) + item.price
  {
  }

  /** Removal keeps the relative order: it works piecewise over any split of the cart. */
  lemma RemoveKeepsOrder(a: seq<CartItem>, b: seq<CartItem>, id: int)
    ensures WithoutId(a + b, id) == WithoutId(a, id) + WithoutId(b, id)
  {
    FilterConcat(a, b, (x: CartItem) => x.id != id);
  }

  /** Removal is a no-op when no item carries the id. */
  lemma RemoveAbsentIsNoop(cart: seq<CartItem>, id: int)
    requires forall x :: x in cart ==> x.id != id
    ensures WithoutId(cart, id) == cart
  {
    FilterAllPass(cart, (x: CartItem) => x.id != id);
  }

  /** Removing the same id twice is removing it once. */
  lemma RemoveIdempotent(cart: seq<CartItem>, id: int)
    ensures WithoutId(WithoutId(cart, id), id) == WithoutId(cart, id)
  {
    RemoveAbsentIsNoop(WithoutId(cart, id), id);
  }

  /** The kept and the removed items account for the whole cart. */
  lemma RemoveSplitsCart(cart: seq<CartItem>, id: int)
    ensures |WithoutId(cart, id)| + |WithId(cart, id)| == |cart|
  {
    FilterPartitionLength(cart, (x: CartItem) => x.id != id, (x: CartItem) => x.id == id);
  }

  /** Removing an id lowers the total by the summed prices of the removed items. */
  lemma RemoveLowersTotal(cart: seq<CartItem>, id: int)
    ensures CartTotal(WithoutId(cart, id)) == CartTotal(cart) - CartTotal(WithId(cart, id))
  {
    SumOfPartition(cart, Price, (x: CartItem) => x.id != id, (x: CartItem) => x.id == id);
  }

  /** The state held by `CartProvider`: the `cart` list that `setCart` replaces. */
  class CartProvider {
    var cart: seq<CartItem>

    /** The provider starts with an empty cart. */
    constructor ()
      ensures cart == [] && Total() == 0.0
    {
      cart := [];
    }

    /** The `total` value recomputed from the current cart. */
    function Total(): real
      reads this
    {
      CartTotal(cart)
    }

    /** `addToCart`: appends, never merges. */
    method AddToCart(item: CartItem)
      modifies this
      ensures cart == old(cart) + [item]
      ensures Total() == old(Total()) + item.price
    {
      AddRaisesTotal(cart, item);
      cart := cart + [item];
    }

    /** `removeFromCart`: drops every item with the id. */
    method RemoveFromCart(id: int)
      modifies this
      ensures cart == WithoutId(old(cart), id)
      ensures forall x :: x in cart ==> x.id != id
      ensures Total() == old(Total()) - CartTotal(WithId(old(cart), id))
    {
      RemoveLowersTotal(cart, id);
      cart := WithoutId(cart, id);
    }

    /** `clearCart`: the cart becomes empty and its total 0. */
    method ClearCart()
      modifies this
      ensures cart == [] && Total() == 0.0
    {
      cart := [];
    }
  }

  const UseCartError := "useCart must be used within a CartProvider"

  /**
   * `useCart`: the context of the enclosing provider, or the error it throws
   * when there is none (`None` is the context's `undefined` default).
   */
  function UseCart(context: Option<CartProvider>): (r: Result<CartProvider, string>)
    ensures r.Success? <==> context.Some?
    ensures r.Success? ==> r.value == context.value
    ensures r.Failure? ==> r.error == UseCartError
  {
    match context
    case None => Failure(UseCartError)
    case Some(provider) => Success(provider)
  }
}
