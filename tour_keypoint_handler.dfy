/**
 * `KeyPointHandler`: the HTTP endpoints that create, update, delete and
 * serve the image of a tour's key points, over the key point collection.
 * `uuid.Parse` and `strconv.ParseFloat` are taken as parsers. The handler
 * works with the parsed UUID, never with the text it was given: the
 * collection is keyed by the canonical form `uuid.Parse` yields, so every
 * spelling it accepts for one UUID reaches the same key point.
 */
module KeyPointHandler {
  import opened Wrappers
  import opened Text
  import opened Http
  import opened TourModel

  /**
   * `uuid.Parse` (the canonical form of the UUID the text spells, or None when
   * it is refused) and `strconv.ParseFloat` (its value).
   */
  datatype Parsers = Parsers(uuid: string -> Option<string>, float: string -> Option<real>)

  /** An uploaded file part: its declared type, its name, and its bytes, or None when reading fails. */
  datatype Upload = Upload(contentType: string, filename: string, data: Option<seq<bv8>>)

  /** A parsed multipart form: its text fields and its `image` file part, if any. */
  datatype MultipartForm = MultipartForm(values: map<string, string>, image: Option<Upload>)

  /** `FormValue`: "" for a missing field. */
  function FormValue(f: MultipartForm, name: string): string
  {
    if name in f.values then f.values[name] else ""
  }

  datatype Body =
    | Text(text: string)
    | Json(keyPoint: KeyPoint)
    | Message(message: string)
    | ImageBytes(data: seq<bv8>)
    | DecodeError

  /** A response: status, the headers set on it, and its body. */
  datatype Response = Response(status: int, header: Header, body: Body)

  /** The headers `http.Error` sets on every refusal. */
  const PlainText: Header := map["Content-Type" := "text/plain; charset=utf-8", "X-Content-Type-Options" := "nosniff"]

  /** `http.Error`: the message and a newline, as plain text that must not be sniffed. */
  function Error(status: int, text: string): Response
  {
    Response(status, PlainText, Text(text + "\n"))
  }

  /** The types `isValidImageType` accepts, in its order. */
  const CreateImageTypes: seq<string> := ["image/jpeg", "image/jpg", "image/png", "image/gif", "image/webp"]

  /** The types multipart `Update` accepts: the same without "image/jpg". */
  const UpdateImageTypes: set<string> := {"image/jpeg", "image/png", "image/gif", "image/webp"}

  /** `isValidImageType`: a scan of the list that stops at the first equal entry. */
  method IsValidImageType(contentType: string) returns (ok: bool)
    ensures ok <==> contentType in CreateImageTypes
  {
    var i := 0;
    while i < |CreateImageTypes|
      invariant 0 <= i <= |CreateImageTypes|
      invariant forall j :: 0 <= j < i ==> CreateImageTypes[j] != contentType
    {
      if contentType == CreateImageTypes[i] {
        return true;
      }
      i := i + 1;
    }
    return false;
  }

  /** The accepted types are exactly the five image types; anything else, including "", is refused. */
  lemma CreateImageTypesExactly(contentType: string)
    ensures contentType in CreateImageTypes <==>
              contentType in {"image/jpeg", "image/jpg", "image/png", "image/gif", "image/webp"}
  {
  }

  /** "image/jpg" passes `Create` but not multipart `Update`; the other four pass both. */
  lemma JpgOnlyOnCreate()
    ensures "image/jpg" in CreateImageTypes && "image/jpg" !in UpdateImageTypes
    ensures forall t :: t in UpdateImageTypes ==> t in CreateImageTypes
  {
  }

  /** The key point collection, keyed by id. */
  class KeyPointStore {
    var points: map<string, KeyPoint>

    ghost predicate Valid()
      reads this
    {
      forall id :: id in points ==> points[id].id == id
    }

    constructor ()
      ensures Valid() && points == map[]
    {
      points := map[];
    }

    /** `Create` (`InsertOne`): refused when the id is taken. */
    method Insert(kp: KeyPoint) returns (ok: bool)
      requires Valid()
      modifies this
      ensures Valid()
      ensures ok <==> kp.id !in old(points)
      ensures points == if ok then old(points)[kp.id := kp] else old(points)
    {
      if kp.id in points {
        return false;
      }
      points := points[kp.id := kp];
      ok := true;
    }

    /** `Update` (`UpdateOne` with `$set`): overwrites coordinates, title, description and image. */
    method Update(id: string, kp: KeyPoint) returns (ok: bool)
      requires Valid()
      modifies this
      ensures Valid()
      ensures ok <==> id in old(points)
      ensures points == if ok then old(points)[id := Overwritten(old(points)[id], kp)] else old(points)
    {
      if id !in points {
        return false;
      }
      points := points[id := Overwritten(points[id], kp)];
      ok := true;
    }

    /** `Delete` (`DeleteOne`): refused when nothing was deleted. */
    method Delete(id: string) returns (ok: bool)
      requires Valid()
      modifies this
      ensures Valid()
      ensures ok <==> id in old(points)
      ensures points == old(points) - {id}
    {
      ok := id in points;
      points := points - {id};
    }
  }

  /** A stored key point after `$set` of the four editable fields. */
  function Overwritten(stored: KeyPoint, kp: KeyPoint): (r: KeyPoint)
    ensures r.id == stored.id && r.tourId == stored.tourId
    ensures r.coordinates == kp.coordinates && r.title == kp.title
    ensures r.description == kp.description && r.image == kp.image
  {
    stored.(coordinates := kp.coordinates, title := kp.title, description := kp.description, image := kp.image)
  }

  /** The checks of `Create` before it writes: the key point to store, or the refusal. */
  function PlanCreate(form: Option<MultipartForm>, p: Parsers, newId: string): Result<KeyPoint, Response>
  {
    if form.None? then Err(Error(StatusBadRequest, "Failed to parse multipart form"))
    else
      var f := form.value;
      if p.uuid(FormValue(f, "tourId")).None? then Err(Error(StatusBadRequest, "Invalid tour ID"))
      else if p.float(FormValue(f, "latitude")).None? then Err(Error(StatusBadRequest, "Invalid latitude"))
      else if p.float(FormValue(f, "longitude")).None? then Err(Error(StatusBadRequest, "Invalid longitude"))
      else
        var coords := Coordinates(p.float(FormValue(f, "latitude")).value, p.float(FormValue(f, "longitude")).value);
        var kp := BeforeCreateKeyPoint(p.uuid(FormValue(f, "tourId")).value, coords, FormValue(f, "title"),
                                       FormValue(f, "description"), NoImage, newId);
        match f.image
        case None => Ok(kp)
        case Some(up) =>
          if up.data.None? then Err(Error(StatusInternalServerError, "Failed to read image file"))
          else if up.contentType !in CreateImageTypes then
            Err(Error(StatusBadRequest, "Invalid image type. Only JPEG, PNG, GIF, and WebP are allowed"))
          else Ok(kp.(image := Image(up.data.value, up.contentType, up.filename)))
  }

  /**
   * `KeyPointService.Create`: the service does not store the key point it is
   * handed but a copy built by `BeforeCreateKeyPoint` again, under the second
   * id `storedId` that call draws.
   */
  function ServiceCopy(kp: KeyPoint, storedId: string): (r: KeyPoint)
    ensures r.id == storedId
    ensures r == kp.(id := storedId)
  {
    BeforeCreateKeyPoint(kp.tourId, kp.coordinates, kp.title, kp.description, kp.image, storedId)
  }

  /**
   * `Create`: a refused request writes nothing. Otherwise the service's copy
   * is inserted under `storedId`, and the handler answers 201 with the key
   * point it built itself, under `newId`; or 500 when the insert fails.
   */
  method Create(store: KeyPointStore, form: Option<MultipartForm>, p: Parsers, newId: string, storedId: string)
    returns (resp: Response)
    requires store.Valid()
    modifies store
    ensures store.Valid()
    ensures PlanCreate(form, p, newId).Err? ==>
              resp == PlanCreate(form, p, newId).error && store.points == old(store.points)
    ensures PlanCreate(form, p, newId).Ok? ==>
              var kp := PlanCreate(form, p, newId).value;
              if storedId in old(store.points) then
                resp == Error(StatusInternalServerError, "Error while creating keypoint")
                && store.points == old(store.points)
              else
                resp == Response(StatusCreated, map["Content-Type" := "application/json"], Json(kp))
                && store.points == old(store.points)[storedId := ServiceCopy(kp, storedId)]
  {
    if form.None? {
      return Error(StatusBadRequest, "Failed to parse multipart form");
    }
    var f := form.value;
    var tourId := p.uuid(FormValue(f, "tourId"));
    if tourId.None? {
      return Error(StatusBadRequest, "Invalid tour ID");
    }
    var latitude := p.float(FormValue(f, "latitude"));
    if latitude.None? {
      return Error(StatusBadRequest, "Invalid latitude");
    }
    var longitude := p.float(FormValue(f, "longitude"));
    if longitude.None? {
      return Error(StatusBadRequest, "Invalid longitude");
    }
    var image := NoImage;
    if f.image.Some? {
      var up := f.image.value;
      if up.data.None? {
        return Error(StatusInternalServerError, "Failed to read image file");
      }
      var valid := IsValidImageType(up.contentType);
      if !valid {
        return Error(StatusBadRequest, "Invalid image type. Only JPEG, PNG, GIF, and WebP are allowed");
      }
      image := Image(up.data.value, up.contentType, up.filename);
    }
    var kp := BeforeCreateKeyPoint(tourId.value, Coordinates(latitude.value, longitude.value),
                                   FormValue(f, "title"), FormValue(f, "description"), image, newId);
    var ok := store.Insert(ServiceCopy(kp, storedId));
    if !ok {
      return Error(StatusInternalServerError, "Error while creating keypoint");
    }
    resp := Response(StatusCreated, map["Content-Type" := "application/json"], Json(kp));
  }

  /** Without an image part, a well-formed request still creates a key point, with no image. */
  lemma CreateWithoutImage(f: MultipartForm, p: Parsers, newId: string)
    requires f.image.None? && p.uuid(FormValue(f, "tourId")).Some?
    requires p.float(FormValue(f, "latitude")).Some? && p.float(FormValue(f, "longitude")).Some?
    ensures PlanCreate(Some(f), p, newId).Ok?
    ensures PlanCreate(Some(f), p, newId).value.image == NoImage
    ensures PlanCreate(Some(f), p, newId).value.id == newId
    ensures PlanCreate(Some(f), p, newId).value.tourId == p.uuid(FormValue(f, "tourId")).value
  {
  }

  /** An image of a type outside the list is refused with 400, whatever else the form holds. */
  lemma CreateRefusesOtherTypes(f: MultipartForm, p: Parsers, newId: string)
    requires p.uuid(FormValue(f, "tourId")).Some?
    requires p.float(FormValue(f, "latitude")).Some? && p.float(FormValue(f, "longitude")).Some?
    requires f.image.Some? && f.image.value.data.Some? && f.image.value.contentType !in CreateImageTypes
    ensures PlanCreate(Some(f), p, newId).Err? && PlanCreate(Some(f), p, newId).error.status == StatusBadRequest
  {
  }

  /** The JSON body of an update. */
  datatype UpdateInput = UpdateInput(title: string, description: string, coordinates: Coordinates, image: Image)

  /**
   * The checks of `Update` before it writes: the fields to store, or the
   * refusal. The JSON path is taken only for a Content-Type of exactly
   * "application/json"; `json` is the decoded body, None when decoding fails.
   */
  function PlanUpdate(id: string, contentType: string, json: Option<UpdateInput>, form: Option<MultipartForm>,
                      p: Parsers, points: map<string, KeyPoint>): (r: Result<KeyPoint, Response>)
    ensures p.uuid(id).None? ==> r == Err(Error(StatusBadRequest, "Invalid UUID"))
  {
    if p.uuid(id).None? then Err(Error(StatusBadRequest, "Invalid UUID"))
    else if contentType == "application/json" then
      match json
      case None => Err(Response(StatusBadRequest, PlainText, DecodeError))
      case Some(input) => Ok(KeyPoint("", "", input.coordinates, input.title, input.description, input.image))
    else if form.None? then Err(Error(StatusBadRequest, "Failed to parse multipart form"))
    else
      var f := form.value;
      if p.float(FormValue(f, "latitude")).None? then Err(Error(StatusBadRequest, "Invalid latitude"))
      else if p.float(FormValue(f, "longitude")).None? then Err(Error(StatusBadRequest, "Invalid longitude"))
      else if p.uuid(id).value !in points then Err(Error(StatusNotFound, "KeyPoint not found"))
      else
        var coords := Coordinates(p.float(FormValue(f, "latitude")).value, p.float(FormValue(f, "longitude")).value);
        var kp := KeyPoint("", "", coords, FormValue(f, "title"), FormValue(f, "description"),
                           points[p.uuid(id).value].image);
        match f.image
        case None => Ok(kp)
        case Some(up) =>
          if up.data.None? then Err(Error(StatusInternalServerError, "Failed to read image file"))
          else if up.contentType !in UpdateImageTypes then
            Err(Error(StatusBadRequest, "Invalid image format. Only JPEG, PNG, GIF, and WebP are supported"))
          else Ok(kp.(image := Image(up.data.value, up.contentType, up.filename)))
  }

  /**
   * `Update`: a refused request writes nothing; otherwise the four fields of
   * the key point the parsed id names are overwritten, or 404.
   */
  method Update(store: KeyPointStore, id: string, contentType: string, json: Option<UpdateInput>,
                form: Option<MultipartForm>, p: Parsers) returns (resp: Response)
    requires store.Valid()
    modifies store
    ensures store.Valid()
    ensures var plan := PlanUpdate(id, contentType, json, form, p, old(store.points));
            if plan.Err? then resp == plan.error && store.points == old(store.points)
            else
              var key := p.uuid(id).value;
              if key !in old(store.points) then
                resp == Error(StatusNotFound, "KeyPoint not found") && store.points == old(store.points)
              else
                resp == Response(StatusOK, map["Content-Type" := "application/json"],
                                 Message("KeyPoint updated successfully"))
                && store.points == old(store.points)[key := Overwritten(old(store.points)[key], plan.value)]
  {
    var plan := PlanUpdate(id, contentType, json, form, p, store.points);
    if plan.Err? {
      return plan.error;
    }
    var ok := store.Update(p.uuid(id).value, plan.value);
    if !ok {
      return Error(StatusNotFound, "KeyPoint not found");
    }
    resp := Response(StatusOK, map["Content-Type" := "application/json"], Message("KeyPoint updated successfully"));
  }

  /** A multipart update without a file keeps the stored image and changes the other three fields. */
  lemma UpdateKeepsImage(id: string, contentType: string, f: MultipartForm, p: Parsers,
                         points: map<string, KeyPoint>, json: Option<UpdateInput>)
    requires p.uuid(id).Some? && contentType != "application/json" && f.image.None? && p.uuid(id).value in points
    requires p.float(FormValue(f, "latitude")).Some? && p.float(FormValue(f, "longitude")).Some?
    ensures var plan := PlanUpdate(id, contentType, json, Some(f), p, points);
            var stored := points[p.uuid(id).value];
            plan.Ok? && Overwritten(stored, plan.value).image == stored.image
            && Overwritten(stored, plan.value).title == FormValue(f, "title")
  {
  }

  /**
   * A multipart update of an id whose parsed UUID is not stored is refused
   * with 404 before anything is read or written.
   */
  lemma UpdateUnknownIsNotFound(id: string, contentType: string, f: MultipartForm, p: Parsers,
                                points: map<string, KeyPoint>, json: Option<UpdateInput>)
    requires p.uuid(id).Some? && contentType != "application/json" && p.uuid(id).value !in points
    requires p.float(FormValue(f, "latitude")).Some? && p.float(FormValue(f, "longitude")).Some?
    ensures PlanUpdate(id, contentType, json, Some(f), p, points) == Err(Error(StatusNotFound, "KeyPoint not found"))
  {
  }

  /** "image/jpg" is refused by multipart `Update` although `Create` takes it. */
  lemma UpdateRefusesJpg(id: string, contentType: string, f: MultipartForm, p: Parsers,
                         points: map<string, KeyPoint>, json: Option<UpdateInput>)
    requires p.uuid(id).Some? && contentType != "application/json" && p.uuid(id).value in points
    requires p.float(FormValue(f, "latitude")).Some? && p.float(FormValue(f, "longitude")).Some?
    requires f.image.Some? && f.image.value.data.Some? && f.image.value.contentType == "image/jpg"
    ensures PlanUpdate(id, contentType, json, Some(f), p, points).Err?
    ensures PlanCreate(Some(f), p, id).Ok? || p.uuid(FormValue(f, "tourId")).None?
  {
  }

  /** `Delete`: removes the key point the parsed id names. */
  method Delete(store: KeyPointStore, id: string, p: Parsers) returns (resp: Response)
    requires store.Valid()
    modifies store
    ensures store.Valid()
    ensures p.uuid(id).None? ==>
              resp == Error(StatusBadRequest, "Invalid UUID") && store.points == old(store.points)
    ensures p.uuid(id).Some? ==>
              var key := p.uuid(id).value;
              store.points == old(store.points) - {key}
              && (resp.status == StatusOK <==> key in old(store.points))
              && (resp.status != StatusOK ==> resp == Error(StatusNotFound, "keyPoint not found"))
  {
    var key := p.uuid(id);
    if key.None? {
      return Error(StatusBadRequest, "Invalid UUID");
    }
    var ok := store.Delete(key.value);
    if !ok {
      return Error(StatusNotFound, "keyPoint not found");
    }
    resp := Response(StatusOK, map["Content-Type" := "application/json"], Message("KeyPoint deleted successfully"));
  }

  /** `GetImage`: the bytes of the key point the parsed id names, with their type and length, or 400/404. */
  function GetImage(id: string, p: Parsers, points: map<string, KeyPoint>): (resp: Response)
    ensures resp.status == StatusOK <==>
              p.uuid(id).Some? && p.uuid(id).value in points && |points[p.uuid(id).value].image.data| > 0
    ensures resp.status == StatusOK ==>
              var img := points[p.uuid(id).value].image;
              resp.body == ImageBytes(img.data)
              && "Content-Type" in resp.header && "Content-Length" in resp.header
              && resp.header["Content-Type"] == img.mimeType
              && resp.header["Content-Length"] == Decimal(|img.data|)
    ensures p.uuid(id).None? ==> resp.status == StatusBadRequest
    ensures p.uuid(id).Some? && resp.status != StatusOK ==> resp.status == StatusNotFound
  {
    if p.uuid(id).None? then Error(StatusBadRequest, "Invalid UUID")
    else if p.uuid(id).value !in points then Error(StatusNotFound, "KeyPoint not found")
    else if |points[p.uuid(id).value].image.data| == 0 then Error(StatusNotFound, "No image found for this keypoint")
    else
      var img := points[p.uuid(id).value].image;
      Response(StatusOK, map["Content-Type" := img.mimeType, "Content-Length" := Decimal(|img.data|)], ImageBytes(img.data))
  }

  /**
   * An image stored by `Create` is served back byte for byte, with the type it
   * was uploaded with, under the id the service stored it under.
   */
  lemma CreatedImageServed(f: MultipartForm, p: Parsers, newId: string, storedId: string,
                           points: map<string, KeyPoint>)
    requires PlanCreate(Some(f), p, newId).Ok? && p.uuid(storedId) == Some(storedId)
    requires f.image.Some? && f.image.value.data.Some? && |f.image.value.data.value| > 0
    ensures var kp := PlanCreate(Some(f), p, newId).value;
            GetImage(storedId, p, points[storedId := ServiceCopy(kp, storedId)])
            == Response(StatusOK, map["Content-Type" := f.image.value.contentType,
                                      "Content-Length" := Decimal(|f.image.value.data.value|)],
                        ImageBytes(f.image.value.data.value))
  {
  }

  /**
   * The id in `Create`'s 201 body is not the stored one: when the two draws
   * differ and the returned id was not stored before, asking for its image is
   * a 404, although the key point was created with an image.
   */
  lemma ReturnedIdNotServed(f: MultipartForm, p: Parsers, newId: string, storedId: string,
                            points: map<string, KeyPoint>)
    requires PlanCreate(Some(f), p, newId).Ok? && p.uuid(newId) == Some(newId)
    requires newId != storedId && newId !in points
    ensures var kp := PlanCreate(Some(f), p, newId).value;
            PlanCreate(Some(f), p, newId).value.id == newId
            && GetImage(newId, p, points[storedId := ServiceCopy(kp, storedId)])
               == Error(StatusNotFound, "KeyPoint not found")
  {
    var kp := PlanCreate(Some(f), p, newId).value;
    assert newId !in points[storedId := ServiceCopy(kp, storedId)];
  }

  /**
   * Two spellings of one UUID (upper case, braces, `urn:uuid:`, no hyphens)
   * reach the same key point: its image, its update and its deletion.
   */
  lemma SpellingsAgree(a: string, b: string, contentType: string, json: Option<UpdateInput>,
                       form: Option<MultipartForm>, p: Parsers, points: map<string, KeyPoint>)
    requires p.uuid(a).Some? && p.uuid(a) == p.uuid(b)
    ensures GetImage(a, p, points) == GetImage(b, p, points)
    ensures PlanUpdate(a, contentType, json, form, p, points) == PlanUpdate(b, contentType, json, form, p, points)
  {
  }

  /**
   * A stored key point is served under any spelling of its id: when the
   * parser maps `spelling` to the stored id, the image comes back.
   */
  lemma AnySpellingServed(spelling: string, id: string, p: Parsers, points: map<string, KeyPoint>)
    requires p.uuid(spelling) == Some(id) && id in points && |points[id].image.data| > 0
    ensures GetImage(spelling, p, points).status == StatusOK
    ensures GetImage(spelling, p, points).body == ImageBytes(points[id].image.data)
  {
  }

  /** Every refusal of `Create` goes out through `http.Error`: plain text, not sniffed. */
  lemma CreateRefusalsPlainText(form: Option<MultipartForm>, p: Parsers, newId: string)
    ensures PlanCreate(form, p, newId).Err? ==> PlanCreate(form, p, newId).error.header == PlainText
  {
    var plan := PlanCreate(form, p, newId);
    if plan.Err? && form.Some? {
      var f := form.value;
      if p.uuid(FormValue(f, "tourId")).Some? && p.float(FormValue(f, "latitude")).Some?
         && p.float(FormValue(f, "longitude")).Some? {
        assert f.image.Some?;
        var up := f.image.value;
        if up.data.None? {
          assert plan.error == Error(StatusInternalServerError, "Failed to read image file");
        } else {
          assert plan.error == Error(StatusBadRequest, "Invalid image type. Only JPEG, PNG, GIF, and WebP are allowed");
        }
      }
    }
  }

  /** Every refusal of `Update` goes out through `http.Error`. */
  lemma UpdateRefusalsPlainText(id: string, contentType: string, json: Option<UpdateInput>,
                                form: Option<MultipartForm>, p: Parsers, points: map<string, KeyPoint>)
    ensures PlanUpdate(id, contentType, json, form, p, points).Err? ==>
              PlanUpdate(id, contentType, json, form, p, points).error.header == PlainText
  {
    var plan := PlanUpdate(id, contentType, json, form, p, points);
    if plan.Err? && p.uuid(id).Some? && contentType != "application/json" && form.Some? {
      var f := form.value;
      if p.float(FormValue(f, "latitude")).Some? && p.float(FormValue(f, "longitude")).Some?
         && p.uuid(id).value in points {
        assert f.image.Some?;
        var up := f.image.value;
        if up.data.None? {
          assert plan.error == Error(StatusInternalServerError, "Failed to read image file");
        } else {
          assert plan.error == Error(StatusBadRequest, "Invalid image format. Only JPEG, PNG, GIF, and WebP are supported");
        }
      }
    }
  }

  /** Only the image itself is served with its own type; every refusal of `GetImage` is plain text. */
  lemma ImageRefusalsPlainText(id: string, p: Parsers, points: map<string, KeyPoint>)
    ensures GetImage(id, p, points).status != StatusOK ==> GetImage(id, p, points).header == PlainText
  {
  }
}
