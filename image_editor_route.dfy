/** `/api/generations/image-editor`: saving, deleting and listing the logos a
    user made from an uploaded image, in `image_editor_generations`. */
module ImageEditorRoute {
  import opened Wrappers
  import opened Api
  import opened Mongo
  import opened Generations

  /** The fields of a saved image-editor generation: the source image, its
      original file name when the client sent one, the business and the logo. */
  datatype EditorFields = EditorFields(
    sourceImageUri: string,
    sourceImageOriginalName: Option<string>,
    businessName: string,
    businessDescription: string,
    logoDataUri: string)

  /** The JSON body of a save request. */
  datatype SaveBody = SaveBody(
    userId: Option<string>,
    sourceImageUri: Option<string>,
    sourceImageOriginalName: Option<string>,
    businessName: Option<string>,
    businessDescription: Option<string>,
    logoDataUri: Option<string>)

  const FieldsRequired := "User ID, source image, business details, and logo data are required."
  const Saved := "Image Editor logo generation saved."
  const IdsRequired := "ID and User ID are required."
  const NotFound := "Image Editor logo not found or user not authorized."
  const Deleted := "Image Editor logo deleted successfully."
  const InvalidUserId := "Invalid User ID format."
  const UserIdRequired := "User ID is required."

  /** The body names an owner, a source image, the business and a logo. */
  predicate Complete(body: SaveBody) {
    Present(body.userId) && Present(body.sourceImageUri)
    && Present(body.businessName) && Present(body.businessDescription) && Present(body.logoDataUri)
  }

  /** The document a complete body is saved as, owned by the id string. */
  function Record(body: SaveBody, id: ObjectId, now: int): (g: Generation<EditorFields>)
    requires Complete(body)
    ensures g.id == id && g.userId == Str(body.userId.value) && g.createdAt == now
    ensures g.record.logoDataUri == body.logoDataUri.value
    ensures g.record.sourceImageUri == body.sourceImageUri.value
    ensures g.record.sourceImageOriginalName == body.sourceImageOriginalName
    ensures g.record.businessName == body.businessName.value
    ensures g.record.businessDescription == body.businessDescription.value
  {
    Generation(id, Str(body.userId.value),
      EditorFields(body.sourceImageUri.value, body.sourceImageOriginalName,
                   body.businessName.value, body.businessDescription.value, body.logoDataUri.value),
      now)
  }

  /** POST: saves the generation under the given owner id. `freshId` is the
      id the driver assigns and `now` the clock. */
  method Post(coll: Collection<EditorFields>, body: SaveBody, freshId: ObjectId, now: int,
              fault: Option<DbError>) returns (r: Reply<()>)
    modifies coll
    ensures !Complete(body) ==> r == Fail(400, FieldsRequired) && coll.docs == old(coll.docs)
    ensures Complete(body) && fault.Some? ==>
      r == Caught(fault.value, DatabaseUnavailable) && coll.docs == old(coll.docs)
    ensures Complete(body) && fault.None? ==>
      r == Ok((), Saved) && coll.docs == old(coll.docs) + [Record(body, freshId, now)]
  {
    if !Complete(body) {
      return Fail(400, FieldsRequired);
    }
    if fault.Some? {
      return Caught(fault.value, DatabaseUnavailable);
    }
    coll.InsertOne(Record(body, freshId, now));
    r := Ok((), Saved);
  }

  /** DELETE: removes the generation `id` only if it belongs to `userId`.
      A malformed `id` makes `new ObjectId` throw, which is a 500. */
  method Delete(coll: Collection<EditorFields>, id: Option<string>, userId: Option<string>,
                isValid: string -> bool, fault: Option<DbError>) returns (r: Reply<()>)
    modifies coll
    ensures !Present(id) || !Present(userId) ==> r == Fail(400, IdsRequired) && coll.docs == old(coll.docs)
    ensures Present(id) && Present(userId) && fault.Some? ==>
      r == Caught(fault.value, DatabaseUnavailable) && coll.docs == old(coll.docs)
    ensures Present(id) && Present(userId) && fault.None? && !isValid(id.value) ==>
      r == Fail(500, InternalError) && coll.docs == old(coll.docs)
    ensures Present(id) && Present(userId) && fault.None? && isValid(id.value) ==>
      && coll.docs == DeleteOwned(old(coll.docs), ObjectId(id.value), Str(userId.value))
      && (if |coll.docs| < |old(coll.docs)| then r == Ok((), Deleted) else r == Fail(404, NotFound))
  {
    if !Present(id) || !Present(userId) {
      return Fail(400, IdsRequired);
    }
    if fault.Some? {
      return Caught(fault.value, DatabaseUnavailable);
    }
    if !isValid(id.value) {
      return Caught(OtherError, DatabaseUnavailable);
    }
    var deletedCount := coll.DeleteOne(ObjectId(id.value), Str(userId.value));
    if deletedCount == 0 {
      return Fail(404, NotFound);
    }
    r := Ok((), Deleted);
  }

  /** GET as written: after checking the id's format it filters on
      `userId: new ObjectId(userId)`, while every document was saved with
      its `userId` as a string; a string never equals an ObjectId. */
  function Get(docs: seq<Generation<EditorFields>>, userId: Option<string>, isValid: string -> bool,
               fault: Option<DbError>): (r: Reply<seq<Generation<EditorFields>>>)
    ensures !Present(userId) ==> r == Fail(400, UserIdRequired)
    ensures Present(userId) && !isValid(userId.value) ==> r == Fail(400, InvalidUserId)
    ensures Present(userId) && isValid(userId.value) && fault.Some? ==> r == Caught(fault.value, DatabaseUnavailable)
    ensures r.Ok? <==> Present(userId) && isValid(userId.value) && fault.None?
    ensures r.Ok? ==> NewestFirst(r.body) && r.message == ""
    ensures r.Ok? ==> forall g :: g in r.body <==> g in docs && g.userId == Oid(ObjectId(userId.value))
  {
    if !Present(userId) then Fail(400, UserIdRequired)
    else if !isValid(userId.value) then Fail(400, InvalidUserId)
    else if fault.Some? then Caught(fault.value, DatabaseUnavailable)
    else Ok(Find(docs, Oid(ObjectId(userId.value))), "")
  }

  /** Every owner id in the collection is a string, as `Post` saves it. */
  predicate OwnersAreStrings(docs: seq<Generation<EditorFields>>) {
    forall i :: 0 <= i < |docs| ==> docs[i].userId.Str?
  }

  /** Saving keeps every owner id a string. */
  lemma SaveKeepsOwnersStrings(docs: seq<Generation<EditorFields>>, body: SaveBody, freshId: ObjectId, now: int)
    requires OwnersAreStrings(docs) && Complete(body)
    ensures OwnersAreStrings(docs + [Record(body, freshId, now)])
  {
  }

  /** As written, the listing is always empty for a collection this route
      filled, whatever the user saved. */
  lemma GetListsNothing(docs: seq<Generation<EditorFields>>, userId: Option<string>, isValid: string -> bool)
    requires OwnersAreStrings(docs)
    ensures Get(docs, userId, isValid, None).Ok? ==> Get(docs, userId, isValid, None).body == []
  {
    forall g | g in docs ensures g.userId.Str? {
      var i :| 0 <= i < |docs| && docs[i] == g;
    }
  }

  /** A user saves a logo and lists their logos: the list comes back empty. */
  lemma SavedButNotListed(isValid: string -> bool)
    requires isValid("0123456789abcdef01234567")
    ensures var body := SaveBody(Some("0123456789abcdef01234567"), Some("data:image/png;base64,AA"), None,
                                 Some("Acme"), Some("Rockets"), Some("data:image/png;base64,BB"));
      && Complete(body)
      && Get([Record(body, ObjectId("aaaaaaaaaaaaaaaaaaaaaaaa"), 0)], body.userId, isValid, None) == Ok([], "")
  {
    var body := SaveBody(Some("0123456789abcdef01234567"), Some("data:image/png;base64,AA"), None,
                         Some("Acme"), Some("Rockets"), Some("data:image/png;base64,BB"));
    GetListsNothing([Record(body, ObjectId("aaaaaaaaaaaaaaaaaaaaaaaa"), 0)], body.userId, isValid);
  }

  /** GET as evidently intended: the same filter as `Delete` uses, the
      owner id as the string it was saved with. */
  function GetCorrected(docs: seq<Generation<EditorFields>>, userId: Option<string>, isValid: string -> bool,
                        fault: Option<DbError>): (r: Reply<seq<Generation<EditorFields>>>)
    ensures !Present(userId) ==> r == Fail(400, UserIdRequired)
    ensures Present(userId) && !isValid(userId.value) ==> r == Fail(400, InvalidUserId)
    ensures Present(userId) && isValid(userId.value) && fault.Some? ==> r == Caught(fault.value, DatabaseUnavailable)
    ensures r.Ok? <==> Present(userId) && isValid(userId.value) && fault.None?
    ensures r.Ok? ==> NewestFirst(r.body) && r.message == ""
    ensures r.Ok? ==> forall g :: g in r.body <==> g in docs && g.userId == Str(userId.value)
  {
    if !Present(userId) then Fail(400, UserIdRequired)
    else if !isValid(userId.value) then Fail(400, InvalidUserId)
    else if fault.Some? then Caught(fault.value, DatabaseUnavailable)
    else Ok(Find(docs, Str(userId.value)), "")
  }

  /** With the corrected filter, a generation just saved is listed for the
      user who saved it. */
  lemma SavedThenListed(docs: seq<Generation<EditorFields>>, body: SaveBody, freshId: ObjectId, now: int,
                        isValid: string -> bool)
    requires Complete(body) && isValid(body.userId.value)
    ensures var r := GetCorrected(docs + [Record(body, freshId, now)], body.userId, isValid, None);
      r.Ok? && Record(body, freshId, now) in r.body
  {
    SavedIsListed(docs, Record(body, freshId, now));
  }
}
