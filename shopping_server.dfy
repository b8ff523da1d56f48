/**
 * The shopping gRPC server: cart edits, the cart view with its total, and
 * checkout, which turns each cart item into a purchase token.
 */
module ShoppingServer {
  import opened Wrappers
  import opened ShoppingRepo

  /** The cart as the server returns it: the items and their total. */
  datatype CartView = CartView(userId: string, items: seq<OrderItem>, total: real)

  /** The sum of the prices, added from the first item to the last. */
  function Sum(items: seq<OrderItem>): real
  {
    if |items| == 0 then 0.0 else Sum(items[..|items| - 1]) + items[|items| - 1].price
  }

  lemma {:induction false} SumAppend(a: seq<OrderItem>, b: seq<OrderItem>)
    ensures Sum(a + b) == Sum(a) + Sum(b)
    decreases |b|
  {
    if |b| > 0 {
      assert (a + b)[..|a + b| - 1] == a + b[..|b| - 1];
      SumAppend(a, b[..|b| - 1]);
    } else {
      assert a + b == a;
    }
  }

  /** `cartToProto`: the items in order and the running total of their prices. */
  method CartToProto(c: Cart) returns (v: CartView)
    ensures v == CartView(c.userId, c.items, Sum(c.items))
  {
    var total := 0.0;
    var items := [];
    var i := 0;
    while i < |c.items|
      invariant 0 <= i <= |c.items|
      invariant items == c.items[..i] && total == Sum(c.items[..i])
    {
      assert c.items[..i + 1][..i] == c.items[..i];
      total := total + c.items[i].price;
      items := items + [c.items[i]];
      i := i + 1;
    }
    assert c.items[..|c.items|] == c.items;
    v := CartView(c.userId, items, total);
  }

  /** `AddToCart`: the item goes at the end of the user's cart. */
  method AddToCart(repo: ShoppingRepo, userId: string, item: OrderItem) returns (v: CartView)
    modifies repo`carts
    ensures repo.carts == old(repo.carts)[userId := old(repo.GetCart(userId)).items + [item]]
    ensures v.items == old(repo.GetCart(userId)).items + [item]
    ensures v.total == Sum(old(repo.GetCart(userId)).items) + item.price
  {
    var cart := repo.GetCart(userId);
    cart := cart.(items := cart.items + [item]);
    repo.SaveCart(cart);
    v := CartToProto(cart);
    SumAppend(cart.items[..|cart.items| - 1], [item]);
    assert cart.items[..|cart.items| - 1] + [item] == cart.items;
  }

  /** The items without the first one for the tour; unchanged when there is none. */
  function RemoveFirstMatch(items: seq<OrderItem>, tourId: string): seq<OrderItem>
  {
    if |items| == 0 then []
    else if items[0].tourId == tourId then items[1..]
    else [items[0]] + RemoveFirstMatch(items[1..], tourId)
  }

  /** The loop of `RemoveFromCart`, with its `removed` flag. */
  method RemoveFirst(items: seq<OrderItem>, tourId: string) returns (newItems: seq<OrderItem>)
    ensures newItems == RemoveFirstMatch(items, tourId)
  {
    newItems := [];
    var removed := false;
    var i := 0;
    while i < |items|
      invariant 0 <= i <= |items|
      invariant !removed ==> newItems == items[..i] && forall j :: 0 <= j < i ==> items[j].tourId != tourId
      invariant !removed ==> RemoveFirstMatch(items, tourId) == items[..i] + RemoveFirstMatch(items[i..], tourId)
      invariant removed ==> RemoveFirstMatch(items, tourId) == newItems + items[i..]
    {
      if !removed && items[i].tourId == tourId {
        removed := true;
        RemoveSplit(items, tourId, i);
        assert items[i..][1..] == items[i + 1..];
      } else {
        if !removed {
          RemoveSplit(items, tourId, i);
          RemoveSplit(items, tourId, i + 1);
        } else {
          assert items[i..] == [items[i]] + items[i + 1..];
        }
        newItems := newItems + [items[i]];
      }
      i := i + 1;
    }
  }

  /** Before the first match, removal works on the rest of the sequence only. */
  lemma {:induction false} RemoveSplit(items: seq<OrderItem>, tourId: string, k: nat)
    requires k <= |items| && forall j :: 0 <= j < k ==> items[j].tourId != tourId
    ensures RemoveFirstMatch(items, tourId) == items[..k] + RemoveFirstMatch(items[k..], tourId)
  {
    if k > 0 {
      RemoveSplit(items[1..], tourId, k - 1);
      assert items[1..][k - 1..] == items[k..];
      assert [items[0]] + items[1..][..k - 1] == items[..k];
    }
  }

  /**
   * Removal takes out exactly the first item for the tour and keeps the
   * others in order; without such an item nothing changes.
   */
  lemma RemoveFirstMatchSpec(items: seq<OrderItem>, tourId: string)
    ensures (forall j :: 0 <= j < |items| ==> items[j].tourId != tourId) ==>
              RemoveFirstMatch(items, tourId) == items
    ensures forall k :: 0 <= k < |items| && items[k].tourId == tourId
                        && (forall j :: 0 <= j < k ==> items[j].tourId != tourId) ==>
              RemoveFirstMatch(items, tourId) == items[..k] + items[k + 1..]
  {
    forall k | 0 <= k < |items| && items[k].tourId == tourId && (forall j :: 0 <= j < k ==> items[j].tourId != tourId)
      ensures RemoveFirstMatch(items, tourId) == items[..k] + items[k + 1..]
    {
      RemoveSplit(items, tourId, k);
      assert items[k..][1..] == items[k + 1..];
    }
    if forall j :: 0 <= j < |items| ==> items[j].tourId != tourId {
      RemoveSplit(items, tourId, |items|);
      assert items[..|items|] == items;
    }
  }

  /** Adding a tour that is not in the cart and then removing it gives back the cart. */
  lemma AddThenRemove(items: seq<OrderItem>, item: OrderItem)
    requires forall j :: 0 <= j < |items| ==> items[j].tourId != item.tourId
    ensures RemoveFirstMatch(items + [item], item.tourId) == items
  {
    RemoveSplit(items + [item], item.tourId, |items|);
    assert (items + [item])[..|items|] == items;
    assert (items + [item])[|items|..] == [item];
  }

  /** `RemoveFromCart`. */
  method RemoveFromCart(repo: ShoppingRepo, userId: string, tourId: string) returns (v: CartView)
    modifies repo`carts
    ensures repo.carts == old(repo.carts)[userId := RemoveFirstMatch(old(repo.GetCart(userId)).items, tourId)]
    ensures v == CartView(userId, RemoveFirstMatch(old(repo.GetCart(userId)).items, tourId),
                          Sum(RemoveFirstMatch(old(repo.GetCart(userId)).items, tourId)))
  {
    var cart := repo.GetCart(userId);
    var newItems := RemoveFirst(cart.items, tourId);
    cart := cart.(items := newItems);
    repo.SaveCart(cart);
    v := CartToProto(cart);
  }

  /** `GetCart`. */
  method GetCart(repo: ShoppingRepo, userId: string) returns (v: CartView)
    ensures v == CartView(userId, repo.GetCart(userId).items, Sum(repo.GetCart(userId).items))
  {
    var cart := repo.GetCart(userId);
    v := CartToProto(cart);
  }

  /** The token for one cart item. */
  function TokenFor(userId: string, item: OrderItem, id: string, now: nat): Token
  {
    Token(id, userId, item.tourId, item.name, item.price, now)
  }

  /** The checkout loop: one token per item, in cart order, all stamped `now`; `newId(i)` is the i-th UUID drawn. */
  method MakeTokens(userId: string, items: seq<OrderItem>, newId: nat -> string, now: nat)
    returns (tokens: seq<Token>)
    ensures |tokens| == |items|
    ensures forall i :: 0 <= i < |items| ==> tokens[i] == TokenFor(userId, items[i], newId(i), now)
  {
    tokens := [];
    var i := 0;
    while i < |items|
      invariant 0 <= i <= |items| && |tokens| == i
      invariant forall j :: 0 <= j < i ==> tokens[j] == TokenFor(userId, items[j], newId(j), now)
    {
      tokens := tokens + [Token(newId(i), userId, items[i].tourId, items[i].name, items[i].price, now)];
      i := i + 1;
    }
  }

  /** The sum a purchase charges equals the cart total. */
  lemma {:induction false} TokensChargeCartTotal(userId: string, items: seq<OrderItem>, tokens: seq<Token>,
                                                 newId: nat -> string, now: nat)
    requires |tokens| == |items|
    requires forall i :: 0 <= i < |items| ==> tokens[i] == TokenFor(userId, items[i], newId(i), now)
    ensures TokenTotal(tokens) == Sum(items)
    decreases |items|
  {
    if |items| > 0 {
      TokensChargeCartTotal(userId, items[..|items| - 1], tokens[..|tokens| - 1], newId, now);
    }
  }

  function TokenTotal(tokens: seq<Token>): real
  {
    if |tokens| == 0 then 0.0 else TokenTotal(tokens[..|tokens| - 1]) + tokens[|tokens| - 1].price
  }

  /**
   * `Checkout`: saves one token per item, then deletes the cart. When the
   * insert of tokens fails the tokens before the failure stay stored and
   * the cart is kept.
   */
  method Checkout(repo: ShoppingRepo, userId: string, newId: nat -> string, now: nat)
    returns (r: Result<seq<Token>, string>)
    requires repo.Valid()
    modifies repo
    ensures repo.Valid()
    ensures var items := old(repo.GetCart(userId)).items;
            exists tokens: seq<Token> ::
              && |tokens| == |items|
              && (forall i :: 0 <= i < |items| ==> tokens[i] == TokenFor(userId, items[i], newId(i), now))
              && var n := FirstClash(IdsOf(old(repo.tokens)), tokens, 0);
                 repo.tokens == old(repo.tokens) + tokens[..n]
                 && (n == |tokens| ==> r == Ok(tokens) && repo.carts == old(repo.carts) - {userId})
                 && (n < |tokens| ==> r.Err? && repo.carts == old(repo.carts))
  {
    var cart := repo.GetCart(userId);
    var tokens := MakeTokens(userId, cart.items, newId, now);
    var ok := repo.SaveTokens(tokens);
    if !ok {
      return Err("insert of purchase tokens failed");
    }
    repo.ClearCart(userId);
    r := Ok(tokens);
  }

}
