/**
 * The tour page of the web client: the enum label and code conversions,
 * the ownership test, the owner-only key point rule, the tag checkboxes
 * and the edit-and-save cycle. Values that arrive from JSON are `JsValue`s,
 * so a conversion can be handed a number where it expects a label.
 */
module ViewTour {
  import opened Wrappers
  import opened Text

  /** A JSON value as the component sees it; only integers occur as numbers here. */
  datatype JsValue = JsNum(n: int) | JsStr(s: string) | JsNull | JsUndefined

  /** `difficultyLabel`: a `switch` on the numeric codes, compared with `===`. */
  function DifficultyLabel(d: JsValue): (name: string)
    ensures name == "Unknown" <==> !(d.JsNum? && 0 <= d.n <= 3)
  {
    match d
      case JsNum(0) => "Beginner"
      case JsNum(1) => "Intermediate"
      case JsNum(2) => "Advanced"
      case JsNum(3) => "Pro"
      case _ => "Unknown"
  }

  /** `difficultyToNumber`: the label's code, 0 for anything else. */
  function DifficultyToNumber(difficulty: string): (code: int)
    ensures 0 <= code <= 3
  {
    match difficulty
      case "Beginner" => 0
      case "Intermediate" => 1
      case "Advanced" => 2
      case "Pro" => 3
      case _ => 0
  }

  /** `statusToNumber`: a `switch` on the labels, 0 for anything else. */
  function StatusToNumber(status: JsValue): (code: int)
    ensures 0 <= code <= 2
    ensures code != 0 ==> status.JsStr?
  {
    match status
      case JsStr("Draft") => 0
      case JsStr("Published") => 1
      case JsStr("Archived") => 2
      case _ => 0
  }

  /** `transportTypeToNumber`: a `switch` on the labels, 0 for anything else. */
  function TransportTypeToNumber(transportType: JsValue): (code: int)
    ensures 0 <= code <= 2
    ensures code != 0 ==> transportType.JsStr?
  {
    match transportType
      case JsStr("Walking") => 0
      case JsStr("Bicycle") => 1
      case JsStr("Bus") => 2
      case _ => 0
  }

  /** The code and the label of a difficulty are inverse on the four codes and the four labels; everything else becomes 0, "Beginner". */
  lemma DifficultyRoundTrip(d: int, name: string)
    ensures 0 <= d <= 3 ==> DifficultyToNumber(DifficultyLabel(JsNum(d))) == d
    ensures name in {"Beginner", "Intermediate", "Advanced", "Pro"} ==>
              DifficultyLabel(JsNum(DifficultyToNumber(name))) == name
    ensures name !in {"Beginner", "Intermediate", "Advanced", "Pro"} ==> DifficultyToNumber(name) == 0
  {
  }

  /** The tour service sends numeric codes; `statusToNumber` and `transportTypeToNumber` turn every one into 0. */
  lemma NumericCodesBecomeZero(n: int)
    ensures StatusToNumber(JsNum(n)) == 0
    ensures TransportTypeToNumber(JsNum(n)) == 0
  {
  }

  /** `toString()` of an id. */
  function JsToString(v: JsValue): string
    requires v.JsNum? || v.JsStr?
  {
    if v.JsNum? then Decimal(v.n) else v.s
  }

  /** JavaScript truthiness of an optional string: absent and "" are false. */
  predicate Truthy(s: Option<string>)
  {
    s.Some? && s.value != ""
  }

  /** `authorId ?? userId`, stringified: None when both are null or undefined. */
  function AuthorId(authorId: JsValue, userId: JsValue): Option<string>
  {
    var raw := if authorId.JsNull? || authorId.JsUndefined? then userId else authorId;
    if raw.JsNull? || raw.JsUndefined? then None else Some(JsToString(raw))
  }

  /** `isOwner`: both ids truthy and equal as strings. */
  function IsOwner(currentUserId: Option<string>, authorId: JsValue, userId: JsValue): (owner: bool)
    ensures owner ==> Truthy(currentUserId)
    ensures owner <==> Truthy(currentUserId) && AuthorId(authorId, userId) == currentUserId
  {
    var author := AuthorId(authorId, userId);
    Truthy(currentUserId) && Truthy(author) && currentUserId.value == author.value
  }

  /** A numeric author id matches its decimal rendering, and a present `authorId` hides `userId`. */
  lemma OwnerByRenderedId(n: nat, userId: JsValue)
    ensures IsOwner(Some(Decimal(n)), JsNum(n), userId)
    ensures IsOwner(Some(Decimal(n)), JsNum(n), JsStr("someone else"))
  {
  }

  /** `kpsToShow`: a non-owner sees only the first key point. */
  function VisibleKeyPoints<T>(kps: seq<T>, isOwner: bool): (shown: seq<T>)
    ensures isOwner ==> shown == kps
    ensures !isOwner ==> shown == kps[..if |kps| == 0 then 0 else 1]
  {
    if !isOwner && |kps| > 0 then [kps[0]] else kps
  }

  datatype KeyPointCoordinates = KeyPointCoordinates(latitude: Option<real>, longitude: Option<real>)

  datatype LatLng = LatLng(lat: real, lng: real)

  /** The marker positions of the shown key points: those without latitude or longitude are skipped. */
  function Drawable(kps: seq<KeyPointCoordinates>): seq<LatLng>
  {
    if |kps| == 0 then []
    else
      var last := kps[|kps| - 1];
      Drawable(kps[..|kps| - 1])
      + (if last.latitude.Some? && last.longitude.Some? then [LatLng(last.latitude.value, last.longitude.value)] else [])
  }

  /** The `forEach` that pushes one position per drawable key point. */
  method DrawKeyPoints(kps: seq<KeyPointCoordinates>) returns (latlngs: seq<LatLng>)
    ensures latlngs == Drawable(kps)
  {
    latlngs := [];
    var i := 0;
    while i < |kps|
      invariant 0 <= i <= |kps|
      invariant latlngs == Drawable(kps[..i])
    {
      assert kps[..i + 1][..i] == kps[..i];
      var kp := kps[i];
      if kp.latitude.Some? && kp.longitude.Some? {
        latlngs := latlngs + [LatLng(kp.latitude.value, kp.longitude.value)];
      }
      i := i + 1;
    }
    assert kps[..|kps|] == kps;
  }

  /** At most one marker for a non-owner, so no route is drawn for them. */
  lemma {:induction false} NonOwnerSeesAtMostOne(kps: seq<KeyPointCoordinates>)
    ensures |Drawable(VisibleKeyPoints(kps, false))| <= 1
  {
    if |kps| > 0 {
      assert VisibleKeyPoints(kps, false) == [kps[0]];
      assert [kps[0]][..0] == [];
    }
  }

  /** The tags every tour can carry, in checkbox order. */
  const AvailableTags: seq<string> := ["Nature", "History", "Adventure", "Food", "Culture", "Relax"]

  /** `enableEditMode`'s checkboxes: one per available tag, checked when the tour has it. */
  function SelectedFlags(available: seq<string>, tags: seq<string>): (flags: seq<bool>)
    ensures |flags| == |available|
    ensures forall i :: 0 <= i < |available| ==> (flags[i] <==> available[i] in tags)
  {
    seq(|available|, i requires 0 <= i < |available| => available[i] in tags)
  }

  /** `saveChanges`'s tags: the checked available tags, in checkbox order. */
  function SelectedTags(available: seq<string>, flags: seq<bool>): seq<string>
    requires |flags| == |available|
  {
    if |available| == 0 then []
    else
      SelectedTags(available[..|available| - 1], flags[..|flags| - 1])
      + (if flags[|flags| - 1] then [available[|available| - 1]] else [])
  }

  /** A tag is saved exactly when its checkbox is checked. */
  lemma {:induction false} SelectedTagsMembers(available: seq<string>, flags: seq<bool>, x: string)
    requires |flags| == |available|
    ensures x in SelectedTags(available, flags) <==>
              exists i :: 0 <= i < |available| && flags[i] && available[i] == x
    decreases |available|
  {
    if |available| > 0 {
      var n := |available| - 1;
      SelectedTagsMembers(available[..n], flags[..n], x);
      if x in SelectedTags(available[..n], flags[..n]) {
        var i :| 0 <= i < n && flags[..n][i] && available[..n][i] == x;
        assert flags[i] && available[i] == x;
      }
      if exists i :: 0 <= i < |available| && flags[i] && available[i] == x {
        var i :| 0 <= i < |available| && flags[i] && available[i] == x;
        if i < n {
          assert flags[..n][i] && available[..n][i] == x;
        }
      }
    }
  }

  /** The checkboxes work one by one: the tags of two groups are the tags of each, in order. */
  lemma {:induction false} SelectedTagsAppend(a1: seq<string>, f1: seq<bool>, a2: seq<string>, f2: seq<bool>)
    requires |f1| == |a1| && |f2| == |a2|
    ensures SelectedTags(a1 + a2, f1 + f2) == SelectedTags(a1, f1) + SelectedTags(a2, f2)
    decreases |a2|
  {
    if |a2| == 0 {
      assert a1 + a2 == a1 && f1 + f2 == f1;
    } else {
      var n := |a2| - 1;
      assert (a1 + a2)[..|a1 + a2| - 1] == a1 + a2[..n];
      assert (f1 + f2)[..|f1 + f2| - 1] == f1 + f2[..n];
      SelectedTagsAppend(a1, f1, a2[..n], f2[..n]);
    }
  }

  /** Saving without touching a checkbox keeps exactly the tour's tags that are available. */
  lemma KeepTagsWithoutToggling(available: seq<string>, tags: seq<string>, x: string)
    ensures x in SelectedTags(available, SelectedFlags(available, tags)) <==> x in available && x in tags
  {
    SelectedTagsMembers(available, SelectedFlags(available, tags), x);
  }

  /** The fields of the tour the component edits, as received from the tour service. */
  datatype TourState = TourState(
    id: string, authorId: JsValue, title: string, description: string,
    difficulty: JsValue, tags: seq<string>, price: real,
    status: JsValue, transportType: JsValue)

  /** The edit form: difficulty is the label shown in the select. */
  datatype EditForm = EditForm(title: string, description: string, difficulty: string,
                               selectedTags: seq<bool>, price: real)

  /** The body `saveChanges` sends to the tour service. */
  datatype UpdateDto = UpdateDto(id: string, authorId: JsValue, title: string, description: string,
                                 tags: seq<string>, price: real, status: int, difficulty: int,
                                 transportType: int)

  /** `enableEditMode`'s form. */
  function FormOf(t: TourState): EditForm
  {
    EditForm(t.title, t.description, DifficultyLabel(t.difficulty), SelectedFlags(AvailableTags, t.tags), t.price)
  }

  /** `updatedTourDto`. */
  function DtoOf(t: TourState, f: EditForm): UpdateDto
    requires |f.selectedTags| == |AvailableTags|
  {
    UpdateDto(t.id, t.authorId, f.title, f.description, SelectedTags(AvailableTags, f.selectedTags), f.price,
              StatusToNumber(t.status), DifficultyToNumber(f.difficulty),
              TransportTypeToNumber(t.transportType))
  }

  /** The local tour after a successful save: the difficulty becomes the label string. */
  function LocallySaved(t: TourState, f: EditForm): TourState
    requires |f.selectedTags| == |AvailableTags|
  {
    t.(title := f.title, description := f.description, difficulty := JsStr(f.difficulty),
       tags := SelectedTags(AvailableTags, f.selectedTags), price := f.price)
  }

  /**
   * Saving an unedited published tour sends status 0 (Draft), since the
   * status arrives as a number; the other fields go back as they came,
   * up to the available tags.
   */
  lemma SaveUneditedResetsStatus(t: TourState, code: int)
    requires t.status == JsNum(code) && t.difficulty.JsNum? && 0 <= t.difficulty.n <= 3
    ensures DtoOf(t, FormOf(t)).status == 0
    ensures DtoOf(t, FormOf(t)).difficulty == t.difficulty.n
    ensures DtoOf(t, FormOf(t)).title == t.title && DtoOf(t, FormOf(t)).price == t.price
  {
    DifficultyRoundTrip(t.difficulty.n, "");
  }

  /**
   * After one successful save, the local difficulty is a label, which
   * `difficultyLabel` maps to "Unknown"; a second save without choosing a
   * difficulty again sends 0 (Beginner).
   */
  lemma SecondSaveResetsDifficulty(t: TourState, f: EditForm)
    requires |f.selectedTags| == |AvailableTags|
    ensures FormOf(LocallySaved(t, f)).difficulty == "Unknown"
    ensures DtoOf(LocallySaved(t, f), FormOf(LocallySaved(t, f))).difficulty == 0
  {
  }

  class ViewTourPage {
    /** The route's `id`, None until it is read. */
    var tourId: Option<string>
    var tour: Option<TourState>
    var isEditMode: bool
    var editForm: Option<EditForm>

    constructor()
      ensures tourId.None? && tour.None? && !isEditMode && editForm.None?
    {
      tourId := None;
      tour := None;
      isEditMode := false;
      editForm := None;
    }

    /** What `saveChanges` checks first: a truthy tour id and a loaded tour. */
    predicate Loaded()
      reads this
    {
      tourId.Some? && tourId.value != "" && tour.Some?
    }

    method EnableEditMode()
      requires tour.Some?
      modifies this
      ensures tourId == old(tourId) && tour == old(tour)
      ensures isEditMode && editForm == Some(FormOf(tour.value))
      ensures Loaded() == old(Loaded())
    {
      isEditMode := true;
      editForm := Some(FormOf(tour.value));
    }

    /**
     * `saveChanges`: without a tour id or a tour nothing happens, whatever the
     * form holds; otherwise the update is sent (`sent`), and on success the
     * local tour takes the form's values and edit mode ends.
     */
    method SaveChanges(succeeded: bool) returns (sent: Option<UpdateDto>)
      requires Loaded() ==> editForm.Some? && |editForm.value.selectedTags| == |AvailableTags|
      modifies this
      ensures tourId == old(tourId)
      ensures !old(Loaded()) ==> sent.None? && tour == old(tour) && editForm == old(editForm)
                                 && isEditMode == old(isEditMode)
      ensures old(Loaded()) ==> sent == Some(DtoOf(old(tour).value, old(editForm).value))
      ensures old(Loaded()) && succeeded ==>
                tour == Some(LocallySaved(old(tour).value, old(editForm).value)) && !isEditMode && editForm.None?
      ensures old(Loaded()) && !succeeded ==>
                tour == old(tour) && editForm == old(editForm) && isEditMode == old(isEditMode)
    {
      if tourId.None? || tourId.value == "" || tour.None? {
        return None;
      }
      var t := tour.value;
      var f := editForm.value;
      sent := Some(DtoOf(t, f));
      if succeeded {
        tour := Some(LocallySaved(t, f));
        isEditMode := false;
        editForm := None;
      }
    }
  }
}
