/** `/api/webhooks/user-created`: the identity provider (Clerk) announces a
    new user through a signed (Svix) webhook, and the handler records the
    user in `users`. */
module Webhook {
  import opened Wrappers
  import opened Strings
  import opened Api
  import opened Mongo
  import opened Users

  /** The three signature headers; each may be missing. */
  datatype SvixHeaders = SvixHeaders(id: Option<string>, timestamp: Option<string>, signature: Option<string>)

  /** An entry of `email_addresses`. */
  datatype EmailAddress = EmailAddress(emailAddress: Option<string>)

  /** `payload.data` of a `user.created` event. */
  datatype UserData = UserData(
    id: Option<string>,
    emailAddresses: seq<EmailAddress>,
    firstName: Option<string>,
    lastName: Option<string>)

  /** Why the handler threw instead of answering: no secret configured, the
      database connection, the schema's `required` on `clerkId`, or its
      `unique` index. */
  datatype Cause = MissingSecret | Database(e: DbError) | ClerkIdRequired | DuplicateClerkId

  /** What the handler does: answer with a status and a text, or throw. */
  datatype Outcome = Answered(status: nat, text: string) | Threw(cause: Cause)

  const NoHeaders := "Error occured -- no svix headers"
  const NotVerified := "Error occured"
  const Acknowledged := "{\"success\":true}"
  const UserCreated := "user.created"

  /** `wh.verify(body, headers)` with the secret: the type of the verified
      event, or nothing when the signature does not hold. */
  type Verify = (string, UserData, SvixHeaders) -> Option<string>

  predicate HasHeaders(h: SvixHeaders) {
    Present(h.id) && Present(h.timestamp) && Present(h.signature)
  }

  /** `v || ''`. */
  function OrEmpty(v: Option<string>): (s: string)
    ensures Present(v) ==> s == v.value
    ensures !Present(v) ==> s == ""
  {
    if Present(v) then v.value else ""
  }

  /** `` `${first_name || ''} ${last_name || ''}`.trim() ``. */
  function DisplayName(firstName: Option<string>, lastName: Option<string>): (n: string)
    ensures n == [] || (!IsWhitespace(n[0]) && !IsWhitespace(n[|n| - 1]))
  {
    Trim(OrEmpty(firstName) + " " + OrEmpty(lastName))
  }

  /** `email_addresses[0]?.email_address`. */
  function PrimaryEmail(addresses: seq<EmailAddress>): (e: Option<string>)
    ensures addresses == [] ==> e.None?
    ensures addresses != [] ==> e == addresses[0].emailAddress
  {
    if addresses == [] then None else addresses[0].emailAddress
  }

  /** The document `User.create` writes: the Clerk id, the first e-mail,
      the display name and the schema's default `createdAt`; no password. */
  function Member(data: UserData, freshId: ObjectId, now: int): (u: User)
    ensures u.id == freshId && u.clerkId == data.id && u.createdAt == now
    ensures u.email == PrimaryEmail(data.emailAddresses) && u.name == Some(DisplayName(data.firstName, data.lastName))
    ensures u.password.None? && u.promptHistory.None?
  {
    User(freshId, data.id, Some(DisplayName(data.firstName, data.lastName)),
         PrimaryEmail(data.emailAddresses), None, now, None)
  }

  /** POST. `secret` is `CLERK_WEBHOOK_SECRET`, `fault` a failure of the
      connection, `freshId` and `now` what the driver and the clock give. */
  method Post(users: UserCollection, secret: Option<string>, headers: SvixHeaders, data: UserData,
              verify: Verify, freshId: ObjectId, now: int, fault: Option<DbError>) returns (o: Outcome)
    modifies users
    ensures !Present(secret) ==> o == Threw(MissingSecret) && users.docs == old(users.docs)
    ensures Present(secret) && !HasHeaders(headers) ==> o == Answered(400, NoHeaders) && users.docs == old(users.docs)
    ensures Present(secret) && HasHeaders(headers) && verify(secret.value, data, headers).None? ==>
      o == Answered(400, NotVerified) && users.docs == old(users.docs)
    ensures Present(secret) && HasHeaders(headers) && verify(secret.value, data, headers).Some? ==>
      if verify(secret.value, data, headers).value != UserCreated then
        o == Answered(200, Acknowledged) && users.docs == old(users.docs)
      else if fault.Some? then
        o == Threw(Database(fault.value)) && users.docs == old(users.docs)
      else if !Present(data.id) then
        o == Threw(ClerkIdRequired) && users.docs == old(users.docs)
      else if ClerkIdTaken(old(users.docs), data.id) then
        o == Threw(DuplicateClerkId) && users.docs == old(users.docs)
      else
        o == Answered(200, Acknowledged) && users.docs == old(users.docs) + [Member(data, freshId, now)]
    ensures ClerkIdsUnique(old(users.docs)) ==> ClerkIdsUnique(users.docs)
  {
    if !Present(secret) {
      return Threw(MissingSecret);
    }
    if !HasHeaders(headers) {
      return Answered(400, NoHeaders);
    }
    var eventType := verify(secret.value, data, headers);
    if eventType.None? {
      return Answered(400, NotVerified);
    }
    if eventType.value == UserCreated {
      if fault.Some? {
        return Threw(Database(fault.value));
      }
      if !Present(data.id) {
        return Threw(ClerkIdRequired);
      }
      var inserted := users.InsertOne(Member(data, freshId, now));
      if !inserted {
        return Threw(DuplicateClerkId);
      }
    }
    o := Answered(200, Acknowledged);
  }

  /** The display name is the names that were given, without
      surrounding whitespace, joined by one space when there are two. */
  lemma DisplayNameParts(firstName: Option<string>, lastName: Option<string>)
    requires !Present(firstName) || IsTrimmed(firstName.value)
    requires !Present(lastName) || IsTrimmed(lastName.value)
    ensures !Present(firstName) && !Present(lastName) ==> DisplayName(firstName, lastName) == ""
    ensures Present(firstName) && !Present(lastName) ==> DisplayName(firstName, lastName) == firstName.value
    ensures !Present(firstName) && Present(lastName) ==> DisplayName(firstName, lastName) == lastName.value
    ensures Present(firstName) && Present(lastName) ==>
      DisplayName(firstName, lastName) == firstName.value + " " + lastName.value
  {
    TrimSpaced(OrEmpty(firstName), OrEmpty(lastName));
  }
}
