/**
 * The shop page of the web client: the local cart, the per-tour image
 * carousel, the data URL of an image, and whether the user owns a tour.
 * Cart items have the shape of the shopping service's order items, and
 * the cart total is the same sum the service computes.
 */
module ShopComponent {
  import opened Wrappers
  import opened Text
  import opened ShoppingRepo
  import opened ShoppingServer

  /** The fields of a shop tour this page uses; a missing key point list has length 0. */
  datatype Tour = Tour(id: string, title: string, price: real, keypointCount: nat)

  /** JavaScript's `%`, whose result takes the sign of the dividend. */
  function JsRem(a: int, n: int): int
    requires n > 0
  {
    if a >= 0 then a % n else -((-a) % n)
  }

  /** The index `nextImage` stores: one further, wrapping to 0 after the last. */
  function NextIndex(current: int, n: nat): int
    requires n > 0
  {
    JsRem(current + 1, n)
  }

  /** The index `prevImage` stores: one back, wrapping to the last before 0. */
  function PrevIndex(current: int, n: nat): int
    requires n > 0
  {
    JsRem(current - 1 + n, n)
  }

  /** From an index that is not negative both stay within the tour's key points. */
  lemma IndexInRange(current: int, n: nat)
    requires n > 0 && current >= 0
    ensures 0 <= NextIndex(current, n) < n
    ensures 0 <= PrevIndex(current, n) < n
  {
  }

  /** Below twice the divisor, the remainder is one subtraction away. */
  lemma ModSmall(a: int, n: int)
    requires 0 <= a < 2 * n
    ensures a % n == if a < n then a else a - n
  {
  }

  /** Next then previous, or previous then next, gives back an index in range. */
  lemma NextPrevRoundTrip(current: int, n: nat)
    requires 0 <= current < n
    ensures PrevIndex(NextIndex(current, n), n) == current
    ensures NextIndex(PrevIndex(current, n), n) == current
  {
    ModSmall(current + 1, n);
    ModSmall(NextIndex(current, n) - 1 + n, n);
    ModSmall(current - 1 + n, n);
    ModSmall(PrevIndex(current, n) + 1, n);
  }

  /** Stepping forward k times from the first image reaches image k, and n steps come back to the first. */
  lemma {:induction false} NextCycles(n: nat, k: nat)
    requires 0 < n && k <= n
    ensures Steps(0, n, k) == if k < n then k else 0
    decreases k
  {
    if k > 0 {
      NextCycles(n, k - 1);
      ModSmall(k, n);
    }
  }

  function Steps(start: int, n: nat, k: nat): int
    requires n > 0
  {
    if k == 0 then start else NextIndex(Steps(start, n, k - 1), n)
  }

  /** `createImageDataUrl`: data already starting with "data:" is kept as it is. */
  function CreateImageDataUrl(base64Data: string, mimeType: string): (url: string)
    ensures HasPrefix(url, "data:")
    ensures HasPrefix(base64Data, "data:") ==> url == base64Data
    ensures |base64Data| <= |url|
    ensures !HasPrefix(base64Data, "data:") ==> url[|url| - |base64Data|..] == base64Data
  {
    if HasPrefix(base64Data, "data:") then base64Data
    else "data:" + mimeType + ";base64," + base64Data
  }

  /** Building the URL of a URL changes nothing, whatever the type. */
  lemma DataUrlIdempotent(base64Data: string, mimeType: string, otherType: string)
    ensures CreateImageDataUrl(CreateImageDataUrl(base64Data, mimeType), otherType)
            == CreateImageDataUrl(base64Data, mimeType)
  {
  }

  /** `some(t => t.id === tour.id)` over the owned tours. */
  function SomeWithId(tours: seq<Tour>, id: string): (b: bool)
    ensures b <==> exists i :: 0 <= i < |tours| && tours[i].id == id
  {
    if |tours| == 0 then false
    else tours[0].id == id || SomeWithId(tours[1..], id)
  }

  class Shop {
    var cart: seq<OrderItem>
    var currentUserId: Option<string>
    var cartOpen: bool
    var myTours: seq<Tour>
    var imageIndexes: map<string, int>

    constructor()
      ensures cart == [] && currentUserId.None? && !cartOpen && myTours == [] && imageIndexes == map[]
    {
      cart := [];
      currentUserId := None;
      cartOpen := false;
      myTours := [];
      imageIndexes := map[];
    }

    /** The stored index of a tour, 0 when none is stored. */
    function CurrentIndex(tourId: string): int
      reads this
    {
      if tourId in imageIndexes then imageIndexes[tourId] else 0
    }

    /** `this.currentUserId` is truthy: present and not the empty string. */
    predicate LoggedIn()
      reads this
    {
      currentUserId.Some? && currentUserId.value != ""
    }

    /** Every stored index is not negative: the two carousel methods keep this. */
    predicate IndexesNonNegative()
      reads this
    {
      forall id :: id in imageIndexes ==> imageIndexes[id] >= 0
    }

    method NextImage(tour: Tour)
      requires IndexesNonNegative()
      modifies this`imageIndexes
      ensures IndexesNonNegative()
      ensures tour.keypointCount == 0 ==> imageIndexes == old(imageIndexes)
      ensures tour.keypointCount > 0 ==>
                imageIndexes == old(imageIndexes)[tour.id := NextIndex(old(CurrentIndex(tour.id)), tour.keypointCount)]
                && 0 <= imageIndexes[tour.id] < tour.keypointCount
    {
      if tour.keypointCount == 0 {
        return;
      }
      var current := CurrentIndex(tour.id);
      IndexInRange(current, tour.keypointCount);
      imageIndexes := imageIndexes[tour.id := (current + 1) % tour.keypointCount];
    }

    method PrevImage(tour: Tour)
      requires IndexesNonNegative()
      modifies this`imageIndexes
      ensures IndexesNonNegative()
      ensures tour.keypointCount == 0 ==> imageIndexes == old(imageIndexes)
      ensures tour.keypointCount > 0 ==>
                imageIndexes == old(imageIndexes)[tour.id := PrevIndex(old(CurrentIndex(tour.id)), tour.keypointCount)]
                && 0 <= imageIndexes[tour.id] < tour.keypointCount
    {
      if tour.keypointCount == 0 {
        return;
      }
      var current := CurrentIndex(tour.id);
      IndexInRange(current, tour.keypointCount);
      imageIndexes := imageIndexes[tour.id := (current - 1 + tour.keypointCount) % tour.keypointCount];
    }

    /** `getTotalPrice`: the sum of the cart's prices, as the shopping service totals a cart. */
    function GetTotalPrice(): real
      reads this
    {
      Sum(cart)
    }

    function IsInMyTours(tour: Tour): bool
      reads this
    {
      SomeWithId(myTours, tour.id)
    }

    /**
     * `addToCart`: the item is pushed onto the local cart first; the request
     * to the service goes out (`sent`) only for a logged-in user.
     */
    method AddToCart(tour: Tour) returns (sent: bool)
      modifies this`cart
      ensures cart == old(cart) + [OrderItem(tour.id, tour.title, tour.price)]
      ensures sent <==> LoggedIn()
    {
      cart := cart + [OrderItem(tour.id, tour.title, tour.price)];
      if !LoggedIn() {
        return false;
      }
      sent := true;
    }

    /** `removeFromCart`: sends the request for a logged-in user and leaves the local cart as it is. */
    method RemoveFromCart(item: OrderItem) returns (sent: bool)
      ensures sent <==> LoggedIn()
    {
      sent := LoggedIn();
    }

    /** `checkout`: for a logged-in user, a successful checkout empties and closes the cart. */
    method Checkout(succeeded: bool) returns (sent: bool)
      modifies this`cart, this`cartOpen
      ensures sent <==> old(LoggedIn())
      ensures if sent && succeeded then cart == [] && !cartOpen
              else cart == old(cart) && cartOpen == old(cartOpen)
    {
      if !LoggedIn() {
        return false;
      }
      sent := true;
      if succeeded {
        cart := [];
        cartOpen := false;
      }
    }
  }

  /** Each push adds the tour's price to the total, logged in or not. */
  lemma AddToCartTotal(cart: seq<OrderItem>, tour: Tour)
    ensures Sum(cart + [OrderItem(tour.id, tour.title, tour.price)]) == Sum(cart) + tour.price
  {
    SumAppend(cart, [OrderItem(tour.id, tour.title, tour.price)]);
  }
}
