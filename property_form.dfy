/** The image list of the admin property form and the save request the
    form sends: moving an image to the cover position, removing an image,
    appending uploaded images, and choosing the slug, address and method
    of the request. */
module PropertyForm {
  import opened Wrappers
  import opened Text
  import opened Sequences

  /** The list of images with the one at `i` moved to the front, as
      `splice(i, 1)` followed by `unshift`. */
  function MoveToFront(s: seq<string>, i: int): (r: seq<string>)
    requires 0 <= i < |s|
    ensures |r| == |s| && r[0] == s[i]
    ensures forall k :: 0 <= k < i ==> r[k + 1] == s[k]
    ensures forall k :: i < k < |s| ==> r[k] == s[k]
  {
    [s[i]] + RemoveAt(s, i)
  }

  /** Moving to the front only reorders the images. */
  lemma MoveToFrontPermutes(s: seq<string>, i: int)
    requires 0 <= i < |s|
    ensures multiset(MoveToFront(s, i)) == multiset(s)
  {
    RemoveAtMultiset(s, i);
  }

  /** Choosing the current cover again changes nothing. */
  lemma MoveFirstToFront(s: seq<string>)
    requires |s| > 0
    ensures MoveToFront(s, 0) == s
  {
    assert MoveToFront(s, 0) == [s[0]] + s[1..];
  }

  /** Apart from the new cover, the images are those that removing it
      leaves, in the same order. */
  lemma MoveToFrontRest(s: seq<string>, i: int)
    requires 0 <= i < |s|
    ensures MoveToFront(s, i)[1..] == RemoveAt(s, i)
  {
  }

  /** The outcome of uploading a batch of dropped files: the public URLs
      in the order of the files, or a failure of any one of them. */
  datatype UploadOutcome = Uploaded(urls: seq<string>) | UploadFailed

  /** A notification shown to the user. */
  datatype Notice = Info(message: string) | Alert(message: string)

  const UploadFailedMessage := "Error al subir im\U{00E1}genes"
  const CollectionPath := "/api/admin/properties"
  const ListPage := "/admin/propiedades"

  /** The message after a successful upload of `n` images. */
  function UploadedMessage(n: nat): string {
    NatToString(n) + " im\U{00E1}genes subidas correctamente"
  }

  /** The parts of a stored property the form reads. */
  datatype PropertyRecord = PropertyRecord(id: string, slug: string, images: seq<string>)

  datatype HttpMethod = Post | Put

  /** The request `onSubmit` sends. */
  datatype SaveRequest = SaveRequest(verb: HttpMethod, url: string, slug: string, images: seq<string>)

  /** `onSubmit`'s request: an existing property keeps its non-empty slug
      and is updated in place with PUT; a new one takes its slug from the
      title and is created with POST. The images are the form's current
      list. `slugify` is the slug library, not modelled. */
  function SaveRequestFor(property: Option<PropertyRecord>, title: string, images: seq<string>, slugify: string -> string): (r: SaveRequest)
    ensures r.images == images
    ensures property.Some? ==> r.verb == Put && r.url == CollectionPath + "/" + property.value.id
    ensures property.None? ==> r.verb == Post && r.url == CollectionPath
    ensures property.Some? && property.value.slug != "" ==> r.slug == property.value.slug
    ensures property.None? || property.value.slug == "" ==> r.slug == slugify(title)
  {
    var slug := if property.Some? && property.value.slug != "" then property.value.slug else slugify(title);
    var url := if property.Some? then CollectionPath + "/" + property.value.id else CollectionPath;
    SaveRequest(if property.Some? then Put else Post, url, slug, images)
  }

  /** An update is addressed to the record it edits: its id is what
      follows the collection path and a slash. */
  lemma UpdateAddressesRecord(property: PropertyRecord, title: string, images: seq<string>, slugify: string -> string)
    ensures var r := SaveRequestFor(Some(property), title, images, slugify);
      StartsWith(r.url, CollectionPath + "/") && r.url[|CollectionPath| + 1..] == property.id
  {
    var r := SaveRequestFor(Some(property), title, images, slugify);
    assert r.url == (CollectionPath + "/") + property.id;
  }

  /** What the save request answered. */
  datatype SaveResponse =
    | Saved
    | Rejected(reason: Option<string>)
    | RequestThrew(error: string)

  /** The notice after a save and the page the form navigates to, if any. */
  function AfterSave(editing: bool, response: SaveResponse): (r: (Notice, Option<string>))
    ensures response.Saved? <==> r.0.Info?
    ensures r.1.Some? <==> response.Saved?
    ensures r.1.Some? ==> r.1.value == ListPage
    ensures r.0.message != ""
  {
    match response
    case Saved => (Info(if editing then "Propiedad actualizada" else "Propiedad creada"), Some(ListPage))
    case Rejected(m) => (Alert(if Truthy(m) then m.value else "Error al guardar"), None)
    case RequestThrew(m) => (Alert(if m != "" then m else "Error al guardar la propiedad"), None)
  }

  /** `PropertyForm`'s image list, for a new property or for the one it
      edits. */
  class Form {
    const property: Option<PropertyRecord>
    var imageUrls: seq<string>

    constructor (property: Option<PropertyRecord>)
      ensures this.property == property
      ensures imageUrls == (if property.Some? then property.value.images else [])
    {
      this.property := property;
      imageUrls := if property.Some? then property.value.images else [];
    }

    /** `handleSetCover(index)`: the image at `index` becomes the first. */
    method HandleSetCover(index: int)
      requires 0 <= index < |imageUrls|
      modifies this
      ensures imageUrls == MoveToFront(old(imageUrls), index)
    {
      var newImages := imageUrls;
      var selected := newImages[index];
      newImages := RemoveAt(newImages, index);
      newImages := [selected] + newImages;
      imageUrls := newImages;
    }

    /** `handleRemoveImage(index)`: the image at `index` is dropped. */
    method HandleRemoveImage(index: int)
      modifies this
      ensures imageUrls == RemoveAt(old(imageUrls), index)
    {
      var newImages := imageUrls;
      newImages := RemoveAt(newImages, index);
      imageUrls := newImages;
    }

    /** The list update of `handleDrop`: the uploaded images follow the
        existing ones in upload order, or nothing changes when any upload
        fails. */
    method HandleDrop(outcome: UploadOutcome) returns (notice: Notice)
      modifies this
      ensures outcome.Uploaded? ==> imageUrls == old(imageUrls) + outcome.urls
      ensures outcome.Uploaded? ==> notice == Info(UploadedMessage(|outcome.urls|))
      ensures outcome.UploadFailed? ==> imageUrls == old(imageUrls) && notice == Alert(UploadFailedMessage)
    {
      match outcome
      case Uploaded(newUrls) =>
        imageUrls := imageUrls + newUrls;
        notice := Info(UploadedMessage(|newUrls|));
      case UploadFailed =>
        notice := Alert(UploadFailedMessage);
    }

    /** The request `onSubmit` sends for a form whose title is `title`. */
    method SubmitRequest(title: string, slugify: string -> string) returns (request: SaveRequest)
      ensures request == SaveRequestFor(property, title, imageUrls, slugify)
    {
      request := SaveRequestFor(property, title, imageUrls, slugify);
    }
  }

  /** Making the image at `i` the cover and then removing the cover leaves
      the same list as removing the image at `i` directly. */
  method CoverThenRemove(form: Form, i: int)
    requires 0 <= i < |form.imageUrls|
    modifies form
    ensures form.imageUrls == RemoveAt(old(form.imageUrls), i)
  {
    form.HandleSetCover(i);
    form.HandleRemoveImage(0);
    MoveToFrontRest(old(form.imageUrls), i);
  }
}
