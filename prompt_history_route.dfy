/** `/api/user/prompt-history`: reading, recording and clearing the prompt
    history stored on a user's account. The history kept is at most
    `MaxHistoryItems` long, most recent first, without repeats. */
module PromptHistoryRoute {
  import opened Wrappers
  import opened Api
  import opened Mongo
  import opened Users
  import opened PromptHistory

  const UserIdRequired := "User ID is required."
  const UserIdAndPromptRequired := "User ID and prompt are required."
  const InvalidUserId := "Invalid User ID format."
  const UserNotFound := "User not found."
  const HistoryUpdated := "Prompt history updated."
  const HistoryCleared := "Prompt history cleared."

  /** `user.promptHistory || []`. */
  function StoredHistory(u: User): (h: seq<string>)
    ensures u.promptHistory.Some? ==> h == u.promptHistory.value
    ensures u.promptHistory.None? ==> h == []
  {
    u.promptHistory.GetOr([])
  }

  /** The users after `p` is recorded for the account `oid`: its history
      becomes `Remember(old history, p, MaxHistoryItems)`. */
  function Recorded(docs: seq<User>, oid: ObjectId, p: string): seq<User>
  {
    match FindById(docs, oid)
    case None => docs
    case Some(u) => SetHistory(docs, oid, Remember(StoredHistory(u), p, MaxHistoryItems))
  }

  /** GET: the stored history of the account, `[]` when it has none yet.
      A missing or malformed id is a 400, an unknown account a 404, and a
      failing database a 503 or 500. */
  function Get(docs: seq<User>, userId: Option<string>, isValid: string -> bool, fault: Option<DbError>): (r: Reply<seq<string>>)
    ensures r.Fail? && r.status == 400 <==> !Present(userId) || !isValid(userId.value)
    ensures r.Fail? && r.status == 404 <==>
      Present(userId) && isValid(userId.value) && fault.None? && FindById(docs, ObjectId(userId.value)).None?
    ensures r.Ok? <==>
      Present(userId) && isValid(userId.value) && fault.None? && FindById(docs, ObjectId(userId.value)).Some?
    ensures r.Ok? ==> r.message == "" && FindById(docs, ObjectId(userId.value)).value.promptHistory.GetOr([]) == r.body
    ensures fault.Some? && Present(userId) && isValid(userId.value) ==> r == Caught(fault.value, DatabaseUnavailable)
  {
    if !Present(userId) then Fail(400, UserIdRequired)
    else if !isValid(userId.value) then Fail(400, InvalidUserId)
    else if fault.Some? then Caught(fault.value, DatabaseUnavailable)
    else match FindById(docs, ObjectId(userId.value))
      case None => Fail(404, UserNotFound)
      case Some(u) => Ok(StoredHistory(u), "")
  }

  /** POST: moves `prompt` to the front of the account's history (dropping an
      earlier copy, keeping at most `MaxHistoryItems`), stores it and returns
      it. Nothing is written when the request is refused or the database
      fails. */
  method Post(users: UserCollection, userId: Option<string>, prompt: Option<string>,
              isValid: string -> bool, fault: Option<DbError>) returns (r: Reply<seq<string>>)
    modifies users
    ensures !Present(userId) || !Present(prompt) ==>
      r == Fail(400, UserIdAndPromptRequired) && users.docs == old(users.docs)
    ensures Present(userId) && Present(prompt) && !isValid(userId.value) ==>
      r == Fail(400, InvalidUserId) && users.docs == old(users.docs)
    ensures Present(userId) && Present(prompt) && isValid(userId.value) && fault.Some? ==>
      r == Caught(fault.value, DatabaseUnavailable) && users.docs == old(users.docs)
    ensures Present(userId) && Present(prompt) && isValid(userId.value) && fault.None? ==>
      var oid := ObjectId(userId.value);
      match FindById(old(users.docs), oid)
      case None => r == Fail(404, UserNotFound) && users.docs == old(users.docs)
      case Some(u) =>
        && r == Ok(Remember(StoredHistory(u), prompt.value, MaxHistoryItems), HistoryUpdated)
        && users.docs == Recorded(old(users.docs), oid, prompt.value)
  {
    if !Present(userId) || !Present(prompt) {
      return Fail(400, UserIdAndPromptRequired);
    }
    if !isValid(userId.value) {
      return Fail(400, InvalidUserId);
    }
    if fault.Some? {
      return Caught(fault.value, DatabaseUnavailable);
    }
    var oid := ObjectId(userId.value);
    var user := FindById(users.docs, oid);
    if user.None? {
      return Fail(404, UserNotFound);
    }
    var currentHistory := StoredHistory(user.value);
    currentHistory := Remember(currentHistory, prompt.value, MaxHistoryItems);
    users.SetPromptHistory(oid, currentHistory);
    r := Ok(currentHistory, HistoryUpdated);
  }

  /** DELETE: empties the account's history. An unknown but well-formed id
      is not an error: nothing is updated and the reply is still a success. */
  method Delete(users: UserCollection, userId: Option<string>, isValid: string -> bool,
                fault: Option<DbError>) returns (r: Reply<()>)
    modifies users
    ensures !Present(userId) ==> r == Fail(400, UserIdRequired) && users.docs == old(users.docs)
    ensures Present(userId) && !isValid(userId.value) ==>
      r == Fail(400, InvalidUserId) && users.docs == old(users.docs)
    ensures Present(userId) && isValid(userId.value) && fault.Some? ==>
      r == Caught(fault.value, DatabaseUnavailable) && users.docs == old(users.docs)
    ensures Present(userId) && isValid(userId.value) && fault.None? ==>
      r == Ok((), HistoryCleared) && users.docs == SetHistory(old(users.docs), ObjectId(userId.value), [])
  {
    if !Present(userId) {
      return Fail(400, UserIdRequired);
    }
    if !isValid(userId.value) {
      return Fail(400, InvalidUserId);
    }
    if fault.Some? {
      return Caught(fault.value, DatabaseUnavailable);
    }
    users.SetPromptHistory(ObjectId(userId.value), []);
    r := Ok((), HistoryCleared);
  }

  /** After a prompt is recorded, reading the history returns the prompt
      first, followed by the older entries other than it, at most
      `MaxHistoryItems` in all. */
  lemma GetAfterPost(docs: seq<User>, userId: string, p: string, isValid: string -> bool)
    requires userId != "" && isValid(userId)
    requires FindById(docs, ObjectId(userId)).Some?
    ensures var r := Get(Recorded(docs, ObjectId(userId), p), Some(userId), isValid, None);
      && r.Ok?
      && r.body == Remember(StoredHistory(FindById(docs, ObjectId(userId)).value), p, MaxHistoryItems)
      && |r.body| <= MaxHistoryItems && r.body[0] == p
  {
    var oid := ObjectId(userId);
    var u := FindById(docs, oid).value;
    FindAfterSetHistory(docs, oid, Remember(StoredHistory(u), p, MaxHistoryItems));
  }

  /** After the history is cleared, reading it returns `[]`. */
  lemma GetAfterDelete(docs: seq<User>, userId: string, isValid: string -> bool)
    requires userId != "" && isValid(userId)
    requires FindById(docs, ObjectId(userId)).Some?
    ensures Get(SetHistory(docs, ObjectId(userId), []), Some(userId), isValid, None) == Ok([], "")
  {
    FindAfterSetHistory(docs, ObjectId(userId), []);
  }

  /** Recording a prompt for one account leaves every other account's
      history as it was. */
  lemma PostIsolated(docs: seq<User>, oid: ObjectId, p: string, other: ObjectId)
    requires other != oid
    ensures FindById(Recorded(docs, oid, p), other) == FindById(docs, other)
  {
    if FindById(docs, oid).Some? {
      FindOtherAfterSetHistory(docs, oid, Remember(StoredHistory(FindById(docs, oid).value), p, MaxHistoryItems), other);
    }
  }

  /** Posting the same prompt twice in a row stores the same history as
      posting it once. */
  lemma PostTwice(docs: seq<User>, oid: ObjectId, p: string)
    ensures Recorded(Recorded(docs, oid, p), oid, p) == Recorded(docs, oid, p)
  {
    match FindById(docs, oid)
    case None =>
    case Some(u) =>
      var h := Remember(StoredHistory(u), p, MaxHistoryItems);
      FindAfterSetHistory(docs, oid, h);
      RememberIdempotent(StoredHistory(u), p, MaxHistoryItems);
      SetHistoryIdempotent(docs, oid, h);
  }
}
