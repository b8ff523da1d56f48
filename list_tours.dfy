/**
 * The tour list of the web client: the status label, the published-only
 * filter of the all-tours view, the "my tours" flag and the loading state.
 * The difficulty label is the same `switch` as the tour page's.
 */
module ListTours {
  import opened Wrappers
  import opened ViewTour

  /** `statusLabel`: the numeric status codes the tour service sends. */
  function StatusLabel(s: int): (name: string)
    ensures name == "Unknown" <==> !(0 <= s <= 2)
  {
    match s
      case 0 => "Draft"
      case 1 => "Published"
      case 2 => "Archived"
      case _ => "Unknown"
  }

  /**
   * The labels shown here are the ones the tour page's conversions read
   * back: label then code gives the code again, for status and difficulty.
   */
  lemma LabelsReadBack(s: int, d: int)
    ensures 0 <= s <= 2 ==> StatusToNumber(JsStr(StatusLabel(s))) == s
    ensures 0 <= d <= 3 ==> DifficultyToNumber(DifficultyLabel(JsNum(d))) == d
    ensures !(0 <= s <= 2) ==> StatusToNumber(JsStr(StatusLabel(s))) == 0
  {
  }

  /** A listed tour: its id and its status as received. */
  datatype ListedTour = ListedTour(id: string, status: JsValue)

  /** `items.filter(t => t.status === 1)`. */
  function PublishedOnly(items: seq<ListedTour>): seq<ListedTour>
  {
    if |items| == 0 then []
    else PublishedOnly(items[..|items| - 1])
         + (if items[|items| - 1].status == JsNum(1) then [items[|items| - 1]] else [])
  }

  /** The filter keeps exactly the tours whose status is the number 1 and nothing more. */
  lemma {:induction false} PublishedOnlyExactly(items: seq<ListedTour>)
    ensures forall t :: t in PublishedOnly(items) <==> t in items && t.status == JsNum(1)
    ensures |PublishedOnly(items)| <= |items|
    decreases |items|
  {
    if |items| > 0 {
      var init := items[..|items| - 1];
      PublishedOnlyExactly(init);
      assert items == init + [items[|items| - 1]];
    }
  }

  /**
   * The filter keeps the order: filtering two lists one after the other is
   * filtering their concatenation.
   */
  lemma {:induction false} PublishedOnlyAppend(a: seq<ListedTour>, b: seq<ListedTour>)
    ensures PublishedOnly(a + b) == PublishedOnly(a) + PublishedOnly(b)
    decreases |b|
  {
    if |b| > 0 {
      var init := b[..|b| - 1];
      PublishedOnlyAppend(a, init);
      assert (a + b)[..|a + b| - 1] == a + init;
      assert (a + b)[|a + b| - 1] == b[|b| - 1];
    } else {
      assert a + b == a;
    }
  }

  /** The tours shown for a response: all of a user's tours, or the published ones of the all-tours view. */
  function Shown(userId: Option<string>, data: Option<seq<ListedTour>>): seq<ListedTour>
  {
    var items := if data.Some? then data.value else [];
    if !Truthy(userId) then PublishedOnly(items) else items
  }

  /** A draft or archived tour reaches the all-tours view only through a user's page. */
  lemma DraftsOnlyOnUserPage(userId: Option<string>, items: seq<ListedTour>, t: ListedTour)
    requires t in Shown(userId, Some(items)) && t.status != JsNum(1)
    ensures Truthy(userId)
  {
    PublishedOnlyExactly(items);
  }

  const LoadFailed := "Failed to load tours."

  class ListToursPage {
    var userId: Option<string>
    var currentUserId: Option<string>
    var tours: seq<ListedTour>
    var loading: bool
    var error: string
    var isMyTours: bool

    constructor(userId: Option<string>)
      ensures this.userId == userId && currentUserId.None? && tours == [] && !loading && error == "" && !isMyTours
    {
      this.userId := userId;
      currentUserId := None;
      tours := [];
      loading := false;
      error := "";
      isMyTours := false;
    }

    /** `updateIsMyTours`: both ids truthy and equal. */
    method UpdateIsMyTours()
      modifies this`isMyTours
      ensures isMyTours <==> Truthy(userId) && Truthy(currentUserId) && userId == currentUserId
    {
      isMyTours := Truthy(userId) && Truthy(currentUserId) && userId.value == currentUserId.value;
    }

    /** `load` up to the request: the error is cleared and loading is on. */
    method StartLoad()
      modifies this`loading, this`error
      ensures loading && error == ""
    {
      loading := true;
      error := "";
    }

    /** The subscription's callbacks: the shown tours on success, the error text on failure; loading ends on both. */
    method FinishLoad(response: Result<Option<seq<ListedTour>>, string>)
      modifies this`tours, this`loading, this`error
      ensures !loading
      ensures response.Ok? ==> tours == Shown(userId, response.value) && error == old(error)
      ensures response.Err? ==> tours == old(tours) && error == LoadFailed
    {
      match response {
        case Ok(data) =>
          var items := if data.Some? then data.value else [];
          if !Truthy(userId) {
            items := PublishedOnly(items);
          }
          tours := items;
          loading := false;
        case Err(_) =>
          error := LoadFailed;
          loading := false;
      }
    }
  }
}
