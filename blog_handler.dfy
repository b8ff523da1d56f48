/**
 * `BlogHandler`: the HTTP endpoints for blogs. The part modelled is the
 * image filter of multipart `Create`, the choice between the JSON and the
 * multipart path, the id check of the routes taking an id, and the record
 * `Update` hands to the service. `uuid.Parse`, the JSON decoder and the
 * blog service's outcome are inputs.
 */
module BlogHandler {
  import opened Wrappers
  import opened Http

  datatype Image = Image(data: seq<bv8>, mimeType: string, filename: string)

  /** A blog as the handler builds it; `userId` is "" where the handler sets none. */
  datatype Blog = Blog(userId: string, title: string, description: string, images: seq<Image>)

  /** One uploaded file: its name, its declared type, and its bytes, or None when it cannot be opened or read. */
  datatype FilePart = FilePart(filename: string, contentType: string, content: Option<seq<bv8>>)

  /** A parsed multipart form: text fields and the `images` file parts in upload order. */
  datatype MultipartForm = MultipartForm(values: map<string, string>, images: seq<FilePart>)

  function FormValue(f: MultipartForm, name: string): string
  {
    if name in f.values then f.values[name] else ""
  }

  /** The four types the filter keeps. */
  const BlogImageTypes: set<string> := {"image/jpeg", "image/png", "image/gif", "image/webp"}

  /** Whether one file becomes an image: it was read and its type is one of the four. */
  predicate Kept(p: FilePart)
  {
    p.content.Some? && p.contentType in BlogImageTypes
  }

  function ImageOf(p: FilePart): Image
    requires p.content.Some?
  {
    Image(p.content.value, p.contentType, p.filename)
  }

  /** The images the upload loop produces from the files, last file examined last. */
  function KeptImages(files: seq<FilePart>): seq<Image>
  {
    if |files| == 0 then []
    else KeptImages(files[..|files| - 1])
         + (if Kept(files[|files| - 1]) then [ImageOf(files[|files| - 1])] else [])
  }

  /** The upload loop of `Create`: `continue` past unreadable files and other types, append the rest. */
  method FilterImages(files: seq<FilePart>) returns (images: seq<Image>)
    ensures images == KeptImages(files)
  {
    images := [];
    var i := 0;
    while i < |files|
      invariant 0 <= i <= |files|
      invariant images == KeptImages(files[..i])
    {
      assert files[..i + 1][..i] == files[..i];
      var part := files[i];
      if part.content.None? {
        i := i + 1;
        continue;
      }
      if part.contentType !in BlogImageTypes {
        i := i + 1;
        continue;
      }
      images := images + [Image(part.content.value, part.contentType, part.filename)];
      i := i + 1;
    }
    assert files[..|files|] == files;
  }

  /** The filter works file by file: the images of two batches are the images of each, in order. */
  lemma {:induction false} KeptImagesAppend(a: seq<FilePart>, b: seq<FilePart>)
    ensures KeptImages(a + b) == KeptImages(a) + KeptImages(b)
    decreases |b|
  {
    if |b| == 0 {
      assert a + b == a;
    } else {
      assert (a + b)[..|a + b| - 1] == a + b[..|b| - 1];
      KeptImagesAppend(a, b[..|b| - 1]);
    }
  }

  /**
   * Every kept image is one of the four types and carries the bytes and
   * name of some uploaded file; a file that was read and has one of the
   * four types is never dropped.
   */
  lemma {:induction false} KeptImagesExactly(files: seq<FilePart>)
    ensures forall im :: im in KeptImages(files) ==>
              im.mimeType in BlogImageTypes &&
              exists p :: p in files && p.content == Some(im.data) && p.filename == im.filename
                          && p.contentType == im.mimeType
    ensures forall p :: p in files && Kept(p) ==> ImageOf(p) in KeptImages(files)
    ensures |KeptImages(files)| <= |files|
    decreases |files|
  {
    if |files| > 0 {
      var init := files[..|files| - 1];
      KeptImagesExactly(init);
      assert forall p :: p in files ==> p in init || p == files[|files| - 1];
      assert forall p :: p in init ==> p in files;
    }
  }

  /** A file of type "image/jpg" (the spelling the key point handler accepts) is dropped here. */
  lemma JpgDropped(files: seq<FilePart>)
    requires forall p :: p in files ==> p.contentType == "image/jpg"
    ensures KeptImages(files) == []
  {
    if |files| > 0 {
      JpgDropped(files[..|files| - 1]);
    }
  }

  datatype Body = Text(text: string) | BlogJson(blog: Blog) | MessageJson(message: string) | NoBody

  datatype Reply = Reply(status: int, body: Body)

  /**
   * What `Create` does before the service call: the JSON path when the
   * Content-Type is exactly "application/json" (`json` is the decoder's
   * result), the multipart path otherwise (`form` is None when parsing
   * fails). Ok carries the blog handed to the service.
   */
  function PlanCreate(contentType: string, json: Option<Blog>, form: Option<MultipartForm>): (r: Result<Blog, Reply>)
    ensures contentType == "application/json" ==>
              r == (if json.Some? then Ok(json.value) else Err(Reply(StatusBadRequest, NoBody)))
    ensures contentType != "application/json" && form.Some? ==>
              r.Ok? && r.value.images == KeptImages(form.value.images)
  {
    if contentType == "application/json" then
      match json
        case None => Err(Reply(StatusBadRequest, NoBody))
        case Some(b) => Ok(b)
    else
      match form
        case None => Err(Reply(StatusBadRequest, Text("Failed to parse multipart form")))
        case Some(f) =>
          Ok(Blog(FormValue(f, "userId"), FormValue(f, "title"), FormValue(f, "description"),
                  KeptImages(f.images)))
  }

  /** `Create`: 201 when the service stores the blog, 417 when it reports an error. */
  method Create(contentType: string, json: Option<Blog>, form: Option<MultipartForm>,
                serviceError: Option<string>) returns (resp: Reply, created: Option<Blog>)
    ensures match PlanCreate(contentType, json, form)
      case Err(e) => resp == e && created.None?
      case Ok(b) =>
        created == Some(b) &&
        resp == (if serviceError.Some? then Reply(StatusExpectationFailed, NoBody) else Reply(StatusCreated, NoBody))
  {
    if contentType == "application/json" {
      if json.None? {
        return Reply(StatusBadRequest, NoBody), None;
      }
      created := json;
    } else {
      if form.None? {
        return Reply(StatusBadRequest, Text("Failed to parse multipart form")), None;
      }
      var f := form.value;
      var images := FilterImages(f.images);
      created := Some(Blog(FormValue(f, "userId"), FormValue(f, "title"), FormValue(f, "description"), images));
    }
    if serviceError.Some? {
      resp := Reply(StatusExpectationFailed, NoBody);
    } else {
      resp := Reply(StatusCreated, NoBody);
    }
  }

  /** Only an exact "application/json" takes the JSON path, whose images pass unfiltered. */
  lemma JsonPathUnfiltered(contentType: string, b: Blog, form: Option<MultipartForm>)
    ensures PlanCreate("application/json", Some(b), form) == Ok(b)
    ensures contentType != "application/json" && form.Some? ==>
              PlanCreate(contentType, Some(b), form).value.images == KeptImages(form.value.images)
  {
  }

  /** The fields `Update` decodes from its body. */
  datatype UpdateInput = UpdateInput(title: string, description: string, images: seq<Image>)

  /** `Update`: the id check, the body decode, and the blog passed to the service. */
  function Update(idIsUuid: bool, input: Option<UpdateInput>, decodeError: string,
                  serviceFails: bool): (r: (Reply, Option<Blog>))
    ensures !idIsUuid ==> r == (Reply(StatusBadRequest, Text("Invalid UUID")), None)
    ensures idIsUuid && input.Some? ==>
              r.1 == Some(Blog("", input.value.title, input.value.description, input.value.images))
    ensures r.0.status == StatusOK <==> idIsUuid && input.Some? && !serviceFails
  {
    if !idIsUuid then (Reply(StatusBadRequest, Text("Invalid UUID")), None)
    else match input
      case None => (Reply(StatusBadRequest, Text(decodeError)), None)
      case Some(i) =>
        var b := Blog("", i.title, i.description, i.images);
        if serviceFails then (Reply(StatusNotFound, Text("Blog not found")), Some(b))
        else (Reply(StatusOK, MessageJson("Blog updated successfully")), Some(b))
  }

  /** `GetById`: 400 for a non-UUID id, 404 when the service finds nothing, the blog otherwise. */
  function GetById(idIsUuid: bool, found: Option<Blog>): (r: Reply)
    ensures r.status == StatusBadRequest <==> !idIsUuid
    ensures r.status == StatusOK <==> idIsUuid && found.Some?
    ensures r.status == StatusOK ==> r.body == BlogJson(found.value)
  {
    if !idIsUuid then Reply(StatusBadRequest, Text("Invalid UUID"))
    else match found
      case None => Reply(StatusNotFound, NoBody)
      case Some(b) => Reply(StatusOK, BlogJson(b))
  }

  /** `Delete`: 400 for a non-UUID id, 404 with the service's error, else a confirmation. */
  function Delete(idIsUuid: bool, serviceError: Option<string>): (r: Reply)
    ensures r.status == StatusBadRequest <==> !idIsUuid
    ensures idIsUuid && serviceError.Some? ==> r == Reply(StatusNotFound, Text(serviceError.value))
    ensures r.status == StatusOK <==> idIsUuid && serviceError.None?
  {
    if !idIsUuid then Reply(StatusBadRequest, Text("Invalid UUID"))
    else match serviceError
      case Some(e) => Reply(StatusNotFound, Text(e))
      case None => Reply(StatusOK, MessageJson("Blog deleted successfully"))
  }
}
