/** The `users` collection: accounts created by sign-up or by the identity
    provider's webhook, and the prompt history kept on each account. */
module Users {
  import opened Wrappers
  import opened Mongo

  /** A document of `users`. Sign-up fills `name`, `email`, `password` (a
      hash) and later `promptHistory`; the webhook fills `clerkId`, `email`
      and `name`. Fields a document lacks are `None`. */
  datatype User = User(
    id: ObjectId,
    clerkId: Option<string>,
    name: Option<string>,
    email: Option<string>,
    password: Option<string>,
    createdAt: int,
    promptHistory: Option<seq<string>>)

  /** `findOne({ _id: oid })`: the first document with that id. */
  function FindById(docs: seq<User>, oid: ObjectId): (r: Option<User>)
    ensures r.Some? <==> exists i :: 0 <= i < |docs| && docs[i].id == oid
    ensures r.Some? ==> r.value in docs && r.value.id == oid
  {
    match FindFirst(docs, (u: User) => u.id == oid)
    case None => None
    case Some(i) => Some(docs[i])
  }

  /** `findOne({ email })`: the first document with that email. */
  function FindByEmail(docs: seq<User>, email: string): (r: Option<User>)
    ensures r.Some? <==> exists i :: 0 <= i < |docs| && docs[i].email == Some(email)
    ensures r.Some? ==> r.value in docs && r.value.email == Some(email)
  {
    match FindFirst(docs, (u: User) => u.email == Some(email))
    case None => None
    case Some(i) => Some(docs[i])
  }

  /** `updateOne({ _id: oid }, { $set: { promptHistory: h } })`: the first
      document with that id gets the history `h`; nothing else changes, and
      with no such document nothing changes at all. */
  function SetHistory(docs: seq<User>, oid: ObjectId, h: seq<string>): (r: seq<User>)
    ensures |r| == |docs|
    ensures forall i :: 0 <= i < |docs| ==> r[i].id == docs[i].id
    ensures forall i :: 0 <= i < |docs| ==> r[i] == docs[i] || r[i] == docs[i].(promptHistory := Some(h))
    ensures FindById(docs, oid).None? ==> r == docs
  {
    match FindFirst(docs, (u: User) => u.id == oid)
    case None => docs
    case Some(i) => docs[i := docs[i].(promptHistory := Some(h))]
  }

  /** After the update, looking the account up finds it with the new history
      and every other field as before. */
  lemma FindAfterSetHistory(docs: seq<User>, oid: ObjectId, h: seq<string>)
    requires FindById(docs, oid).Some?
    ensures FindById(SetHistory(docs, oid, h), oid) == Some(FindById(docs, oid).value.(promptHistory := Some(h)))
  {
    var i := FindFirst(docs, (u: User) => u.id == oid).value;
    var r := SetHistory(docs, oid, h);
    var j := FindFirst(r, (u: User) => u.id == oid);
    assert r[i].id == oid;
    assert j.Some? && j.value <= i;
    assert forall k :: 0 <= k < i ==> r[k] == docs[k];
  }

  /** Updating one account leaves every other account as it was. */
  lemma FindOtherAfterSetHistory(docs: seq<User>, oid: ObjectId, h: seq<string>, other: ObjectId)
    requires other != oid
    ensures FindById(SetHistory(docs, oid, h), other) == FindById(docs, other)
  {
    var r := SetHistory(docs, oid, h);
    match FindFirst(docs, (u: User) => u.id == oid)
    case None =>
    case Some(i) =>
      assert forall k :: 0 <= k < |docs| && k != i ==> r[k] == docs[k];
      assert r[i].id == oid;
      var a := FindFirst(docs, (u: User) => u.id == other);
      var b := FindFirst(r, (u: User) => u.id == other);
      if a.Some? {
        assert a.value != i;
        assert r[a.value] == docs[a.value];
        assert b.Some? && b.value <= a.value;
        assert b.value != i;
      } else {
        assert forall k :: 0 <= k < |r| ==> r[k].id != other;
      }
  }

  /** Setting the same history twice is setting it once. */
  lemma SetHistoryIdempotent(docs: seq<User>, oid: ObjectId, h: seq<string>)
    ensures SetHistory(SetHistory(docs, oid, h), oid, h) == SetHistory(docs, oid, h)
  {
    var r := SetHistory(docs, oid, h);
    match FindFirst(docs, (u: User) => u.id == oid)
    case None =>
    case Some(i) =>
      assert r[i].id == oid;
      assert forall k :: 0 <= k < i ==> r[k] == docs[k];
      assert FindFirst(r, (u: User) => u.id == oid) == Some(i);
  }

  /** A document's key in the schema's unique index on `clerkId`
      (src/models/User.ts:4) is its Clerk id, or `None` (null) when it has
      none. The index is not sparse, so every document without a Clerk id
      has the same key `None`: `key` is taken when some document has it. */
  predicate ClerkIdTaken(docs: seq<User>, key: Option<string>) {
    exists i :: 0 <= i < |docs| && docs[i].clerkId == key
  }

  /** No two documents share a key of the unique index; at most one
      document lacks a Clerk id. */
  predicate ClerkIdsUnique(docs: seq<User>) {
    forall i, j :: 0 <= i < j < |docs| ==> docs[i].clerkId != docs[j].clerkId
  }

  /** A document whose key is free can be added without breaking the index. */
  lemma AppendKeepsUnique(docs: seq<User>, u: User)
    requires ClerkIdsUnique(docs) && !ClerkIdTaken(docs, u.clerkId)
    ensures ClerkIdsUnique(docs + [u])
  {
    var d := docs + [u];
    forall i, j | 0 <= i < j < |d|
      ensures d[i].clerkId != d[j].clerkId
    {
      assert d[i] == docs[i];
      if j < |docs| {
        assert d[j] == docs[j];
      }
    }
  }

  /** Updating a history leaves every Clerk id, and so the index, as it was. */
  lemma SetHistoryKeepsUnique(docs: seq<User>, oid: ObjectId, h: seq<string>)
    requires ClerkIdsUnique(docs)
    ensures ClerkIdsUnique(SetHistory(docs, oid, h))
  {
    var r := SetHistory(docs, oid, h);
    assert forall i :: 0 <= i < |r| ==> r[i].clerkId == docs[i].clerkId;
  }

  /** The live `users` collection. */
  class UserCollection {
    var docs: seq<User>

    constructor(initial: seq<User>)
      ensures docs == initial
    {
      docs := initial;
    }

    /** `insertOne(user)`: the new document is appended, unless its key in
        the unique index on `clerkId` is taken, in which case the driver
        throws a duplicate-key error (`inserted` is false) and nothing
        changes. */
    method InsertOne(u: User) returns (inserted: bool)
      modifies this
      ensures inserted <==> !ClerkIdTaken(old(docs), u.clerkId)
      ensures docs == if inserted then old(docs) + [u] else old(docs)
      ensures ClerkIdsUnique(old(docs)) ==> ClerkIdsUnique(docs)
    {
      if ClerkIdTaken(docs, u.clerkId) {
        return false;
      }
      if ClerkIdsUnique(docs) {
        AppendKeepsUnique(docs, u);
      }
      docs := docs + [u];
      inserted := true;
    }

    /** `updateOne({ _id: oid }, { $set: { promptHistory: h } })`. */
    method SetPromptHistory(oid: ObjectId, h: seq<string>)
      modifies this
      ensures docs == SetHistory(old(docs), oid, h)
      ensures ClerkIdsUnique(old(docs)) ==> ClerkIdsUnique(docs)
    {
      if ClerkIdsUnique(docs) {
        SetHistoryKeepsUnique(docs, oid, h);
      }
      docs := SetHistory(docs, oid, h);
    }
  }
}
