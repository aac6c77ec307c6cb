/** `/api/generations/professional`: saving, deleting and listing the logos
    a user made from a free-form prompt, in `professional_generations`. */
module ProfessionalRoute {
  import opened Wrappers
  import opened Api
  import opened Mongo
  import opened Generations

  /** The fields of a saved professional generation: the prompt the user
      typed, the refined one when there was one, and the one actually used. */
  datatype ProfessionalFields = ProfessionalFields(
    originalPrompt: Option<string>,
    refinedPrompt: Option<string>,
    usedPrompt: string,
    logoDataUri: string)

  /** The JSON body of a save request. */
  datatype SaveBody = SaveBody(
    userId: Option<string>,
    originalPrompt: Option<string>,
    refinedPrompt: Option<string>,
    usedPrompt: Option<string>,
    logoDataUri: Option<string>)

  const FieldsRequired := "User ID, used prompt, and logo data are required."
  const Saved := "Professional logo generation saved."
  const IdsRequired := "ID and User ID are required."
  const NotFound := "Professional logo not found or user not authorized."
  const Deleted := "Professional logo deleted successfully."
  const UserIdRequired := "User ID is required."

  /** The body names an owner, the prompt used and the logo. */
  predicate Complete(body: SaveBody) {
    Present(body.userId) && Present(body.usedPrompt) && Present(body.logoDataUri)
  }

  /** The document a complete body is saved as, owned by the id string. */
  function Record(body: SaveBody, id: ObjectId, now: int): (g: Generation<ProfessionalFields>)
    requires Complete(body)
    ensures g.id == id && g.userId == Str(body.userId.value) && g.createdAt == now
    ensures g.record.logoDataUri == body.logoDataUri.value
    ensures g.record.usedPrompt == body.usedPrompt.value
    ensures g.record.originalPrompt == body.originalPrompt && g.record.refinedPrompt == body.refinedPrompt
  {
    Generation(id, Str(body.userId.value),
      ProfessionalFields(body.originalPrompt, body.refinedPrompt, body.usedPrompt.value, body.logoDataUri.value),
      now)
  }

  /** POST: saves the generation under the given owner id. `freshId` is the
      id the driver assigns and `now` the clock. */
  method Post(coll: Collection<ProfessionalFields>, body: SaveBody, freshId: ObjectId, now: int,
              fault: Option<DbError>) returns (r: Reply<()>)
    modifies coll
    ensures !Complete(body) ==> r == Fail(400, FieldsRequired) && coll.docs == old(coll.docs)
    ensures Complete(body) && fault.Some? ==>
      r == Caught(fault.value, DatabaseUnavailable) && coll.docs == old(coll.docs)
    ensures Complete(body) && fault.None? ==>
      r == Ok((), Saved) && coll.docs == old(coll.docs) + [Record(body, freshId, now)]
  {
    if !Complete(body) {
      return Fail(400, FieldsRequired);
    }
    if fault.Some? {
      return Caught(fault.value, DatabaseUnavailable);
    }
    coll.InsertOne(Record(body, freshId, now));
    r := Ok((), Saved);
  }

  /** DELETE: removes the generation `id` only if it belongs to `userId`.
      A malformed `id` makes `new ObjectId` throw, which is a 500. */
  method Delete(coll: Collection<ProfessionalFields>, id: Option<string>, userId: Option<string>,
                isValid: string -> bool, fault: Option<DbError>) returns (r: Reply<()>)
    modifies coll
    ensures !Present(id) || !Present(userId) ==> r == Fail(400, IdsRequired) && coll.docs == old(coll.docs)
    ensures Present(id) && Present(userId) && fault.Some? ==>
      r == Caught(fault.value, DatabaseUnavailable) && coll.docs == old(coll.docs)
    ensures Present(id) && Present(userId) && fault.None? && !isValid(id.value) ==>
      r == Fail(500, InternalError) && coll.docs == old(coll.docs)
    ensures Present(id) && Present(userId) && fault.None? && isValid(id.value) ==>
      && coll.docs == DeleteOwned(old(coll.docs), ObjectId(id.value), Str(userId.value))
      && (if |coll.docs| < |old(coll.docs)| then r == Ok((), Deleted) else r == Fail(404, NotFound))
  {
    if !Present(id) || !Present(userId) {
      return Fail(400, IdsRequired);
    }
    if fault.Some? {
      return Caught(fault.value, DatabaseUnavailable);
    }
    if !isValid(id.value) {
      return Caught(OtherError, DatabaseUnavailable);
    }
    var deletedCount := coll.DeleteOne(ObjectId(id.value), Str(userId.value));
    if deletedCount == 0 {
      return Fail(404, NotFound);
    }
    r := Ok((), Deleted);
  }

  /** GET: the generations saved under `userId`, newest first, and no one
      else's. The route is the novice store's GET over another collection,
      so this is `NoviceRoute.Get` with the record type changed. */
  function Get(docs: seq<Generation<ProfessionalFields>>, userId: Option<string>, fault: Option<DbError>)
    : (r: Reply<seq<Generation<ProfessionalFields>>>)
    ensures !Present(userId) ==> r == Fail(400, UserIdRequired)
    ensures Present(userId) && fault.Some? ==> r == Caught(fault.value, DatabaseUnavailable)
    ensures r.Ok? <==> Present(userId) && fault.None?
    ensures r.Ok? ==> NewestFirst(r.body) && r.message == ""
    ensures r.Ok? ==> forall g :: g in r.body <==> g in docs && g.userId == Str(userId.value)
  {
    if !Present(userId) then Fail(400, UserIdRequired)
    else if fault.Some? then Caught(fault.value, DatabaseUnavailable)
    else Ok(Find(docs, Str(userId.value)), "")
  }

  /** A generation just saved is listed for the user who saved it. */
  lemma SavedThenListed(docs: seq<Generation<ProfessionalFields>>, body: SaveBody, freshId: ObjectId, now: int)
    requires Complete(body)
    ensures var r := Get(docs + [Record(body, freshId, now)], body.userId, None);
      r.Ok? && Record(body, freshId, now) in r.body
  {
    SavedIsListed(docs, Record(body, freshId, now));
  }
}
