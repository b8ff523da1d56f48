/**
 * `ShoppingRepo`: the carts collection (one cart per user, keyed by
 * `user_id`) and the purchase tokens collection, in insertion order.
 */
module ShoppingRepo {

  /** Prices are floats in the source; the model uses reals and claims nothing about rounding. */
  datatype OrderItem = OrderItem(tourId: string, name: string, price: real)

  datatype Cart = Cart(userId: string, items: seq<OrderItem>)

  datatype Token = Token(id: string, userId: string, tourId: string, tourName: string, price: real,
                         purchasedAt: nat)

  /** The ids of a sequence of tokens. */
  function IdsOf(ts: seq<Token>): (ids: set<string>)
    ensures forall i :: 0 <= i < |ts| ==> ts[i].id in ids
    ensures forall id :: id in ids ==> exists i :: 0 <= i < |ts| && ts[i].id == id
  {
    if |ts| == 0 then {} else IdsOf(ts[..|ts| - 1]) + {ts[|ts| - 1].id}
  }

  ghost predicate UniqueIds(ts: seq<Token>)
  {
    forall i, j :: 0 <= i < j < |ts| ==> ts[i].id != ts[j].id
  }

  /**
   * Where an ordered `InsertMany` of `ts` stops, scanning from `i`: the
   * first token whose `_id` is already taken, by a stored token or an
   * earlier one of the batch; `|ts|` when there is none.
   */
  function FirstClash(have: set<string>, ts: seq<Token>, i: nat): (k: nat)
    requires i <= |ts|
    ensures i <= k <= |ts|
    decreases |ts| - i
  {
    if i == |ts| then i
    else if ts[i].id in have + IdsOf(ts[..i]) then i
    else FirstClash(have, ts, i + 1)
  }

  /** The tokens of one user, in store order. */
  function TokensOf(ts: seq<Token>, userId: string): (r: seq<Token>)
    ensures forall i :: 0 <= i < |r| ==> r[i].userId == userId && r[i] in ts
    ensures forall i :: 0 <= i < |ts| && ts[i].userId == userId ==> ts[i] in r
  {
    if |ts| == 0 then []
    else TokensOf(ts[..|ts| - 1], userId) + (if ts[|ts| - 1].userId == userId then [ts[|ts| - 1]] else [])
  }

  class ShoppingRepo {
    var carts: map<string, seq<OrderItem>>
    var tokens: seq<Token>

    ghost predicate Valid()
      reads this
    {
      UniqueIds(tokens)
    }

    constructor ()
      ensures Valid() && carts == map[] && tokens == []
    {
      carts := map[];
      tokens := [];
    }

    /** `GetCart`: the stored cart, or an empty cart for that user when there is none. */
    function GetCart(userId: string): (c: Cart)
      reads this
      ensures c.userId == userId
      ensures userId !in carts ==> c.items == []
      ensures userId in carts ==> c.items == carts[userId]
    {
      Cart(userId, if userId in carts then carts[userId] else [])
    }

    /** `SaveCart`: an upsert of the items under the cart's user. */
    method SaveCart(cart: Cart)
      modifies this`carts
      ensures carts == old(carts)[cart.userId := cart.items]
      ensures GetCart(cart.userId) == cart
    {
      carts := carts[cart.userId := cart.items];
    }

    /** `ClearCart`: deletes the user's cart; afterwards it reads as empty. */
    method ClearCart(userId: string)
      modifies this`carts
      ensures carts == old(carts) - {userId}
      ensures GetCart(userId) == Cart(userId, [])
    {
      carts := carts - {userId};
    }

    /**
     * `SaveTokens`: nothing for an empty list; otherwise an ordered
     * `InsertMany`, which stores the tokens up to the first duplicate `_id`
     * and then fails.
     */
    method SaveTokens(ts: seq<Token>) returns (ok: bool)
      requires Valid()
      modifies this`tokens
      ensures Valid()
      ensures var n := FirstClash(IdsOf(old(tokens)), ts, 0);
              tokens == old(tokens) + ts[..n] && (ok <==> n == |ts|)
    {
      if |ts| == 0 {
        return true;
      }
      var n := FirstClash(IdsOf(tokens), ts, 0);
      BatchPrefixKeepsIdsUnique(tokens, ts);
      tokens := tokens + ts[..n];
      ok := n == |ts|;
    }

    /** `GetTokens`: the cursor loop collecting the user's tokens. */
    method GetTokens(userId: string) returns (res: seq<Token>)
      ensures res == TokensOf(tokens, userId)
    {
      res := [];
      var i := 0;
      while i < |tokens|
        invariant 0 <= i <= |tokens|
        invariant res == TokensOf(tokens[..i], userId)
      {
        assert tokens[..i + 1][..i] == tokens[..i];
        if tokens[i].userId == userId {
          res := res + [tokens[i]];
        }
        i := i + 1;
      }
      assert tokens[..|tokens|] == tokens;
    }
  }

  /** Every token before the clash has an id new to the store and to the batch before it. */
  lemma {:induction false} BeforeClash(have: set<string>, ts: seq<Token>, i: nat, j: nat)
    requires i <= j < |ts| && j < FirstClash(have, ts, i)
    ensures ts[j].id !in have + IdsOf(ts[..j])
    decreases |ts| - i
  {
    if i < j {
      BeforeClash(have, ts, i + 1, j);
    }
  }

  /** What an ordered insert stores keeps `_id` unique. */
  lemma BatchPrefixKeepsIdsUnique(stored: seq<Token>, ts: seq<Token>)
    requires UniqueIds(stored)
    ensures UniqueIds(stored + ts[..FirstClash(IdsOf(stored), ts, 0)])
  {
    var n := FirstClash(IdsOf(stored), ts, 0);
    var all := stored + ts[..n];
    forall a, b | 0 <= a < b < |all|
      ensures all[a].id != all[b].id
    {
      if b >= |stored| {
        var j := b - |stored|;
        BeforeClash(IdsOf(stored), ts, 0, j);
        if a >= |stored| {
          assert all[a] == ts[..j][a - |stored|];
        }
      }
    }
  }

  /** A batch of new, distinct ids is stored whole. */
  lemma {:induction false} FreshBatchStoredWhole(have: set<string>, ts: seq<Token>, i: nat)
    requires i <= |ts| && UniqueIds(ts)
    requires forall j :: 0 <= j < |ts| ==> ts[j].id !in have
    ensures FirstClash(have, ts, i) == |ts|
    decreases |ts| - i
  {
    if i < |ts| {
      assert ts[i].id !in IdsOf(ts[..i]);
      FreshBatchStoredWhole(have, ts, i + 1);
    }
  }
}
