/** What the three generation collections (`novice_generations`,
    `professional_generations`, `image_editor_generations`) share: each
    document is a saved logo with its owner's id and a creation time; a user
    lists their own documents newest first and deletes one of their own. */
module Generations {
  import opened Wrappers
  import opened Mongo

  /** A BSON value an owner id is stored as or compared with: a string, or
      an ObjectId. The two never compare equal. */
  datatype Value = Str(s: string) | Oid(oid: ObjectId)

  /** A saved generation: its `_id`, the `userId` it was saved with, the
      fields particular to its collection, and `createdAt`. */
  datatype Generation<T> = Generation(id: ObjectId, userId: Value, record: T, createdAt: int)

  /** `find({ userId: owner })` in natural order. */
  function OwnedBy<T(!new)>(docs: seq<Generation<T>>, owner: Value): (r: seq<Generation<T>>)
    ensures |r| <= |docs|
    ensures forall g :: g in r <==> g in docs && g.userId == owner
  {
    if docs == [] then []
    else if docs[0].userId == owner then [docs[0]] + OwnedBy(docs[1..], owner)
    else OwnedBy(docs[1..], owner)
  }

  /** Every document of `s` is at least as recent as those after it. */
  predicate NewestFirst<T(!new)>(s: seq<Generation<T>>) {
    forall i, j :: 0 <= i < j < |s| ==> s[i].createdAt >= s[j].createdAt
  }

  /** Places `g` before the first entry that is not newer than it. */
  function Insert<T(!new)>(g: Generation<T>, s: seq<Generation<T>>): (r: seq<Generation<T>>)
    requires NewestFirst(s)
    ensures NewestFirst(r)
    ensures |r| == |s| + 1
    ensures forall x :: x in r <==> x == g || x in s
  {
    if s == [] then [g]
    else if g.createdAt >= s[0].createdAt then
      assert forall j :: 0 <= j < |s| ==> s[0].createdAt >= s[j].createdAt;
      [g] + s
    else
      var t := Insert(g, s[1..]);
      assert forall k :: 0 <= k < |s| - 1 ==> s[1..][k] == s[k + 1];
      assert forall x :: x in s[1..] ==> s[0].createdAt >= x.createdAt;
      assert forall j :: 0 <= j < |t| ==> t[j] in t;
      [s[0]] + t
  }

  /** `.sort({ createdAt: -1 })`: newest first; of two documents created at
      the same time the one earlier in natural order comes first. */
  function SortNewestFirst<T(!new)>(s: seq<Generation<T>>): (r: seq<Generation<T>>)
    ensures NewestFirst(r)
    ensures |r| == |s|
    ensures forall x :: x in r <==> x in s
  {
    if s == [] then [] else Insert(s[0], SortNewestFirst(s[1..]))
  }

  /** `find({ userId: owner }).sort({ createdAt: -1 })`. */
  function Find<T(!new)>(docs: seq<Generation<T>>, owner: Value): (r: seq<Generation<T>>)
    ensures NewestFirst(r)
    ensures forall g :: g in r <==> g in docs && g.userId == owner
  {
    SortNewestFirst(OwnedBy(docs, owner))
  }

  /** Inserting keeps every entry and adds exactly `g`. */
  lemma {:induction false} InsertPermutes<T(!new)>(g: Generation<T>, s: seq<Generation<T>>)
    requires NewestFirst(s)
    ensures multiset(Insert(g, s)) == multiset(s) + multiset{g}
  {
    if s != [] && g.createdAt < s[0].createdAt {
      InsertPermutes(g, s[1..]);
      assert s == [s[0]] + s[1..];
    }
  }

  /** Sorting is a permutation: no document is lost or repeated. */
  lemma {:induction false} SortPermutes<T(!new)>(s: seq<Generation<T>>)
    ensures multiset(SortNewestFirst(s)) == multiset(s)
  {
    if s != [] {
      SortPermutes(s[1..]);
      InsertPermutes(s[0], SortNewestFirst(s[1..]));
      assert s == [s[0]] + s[1..];
    }
  }

  /** Filtering keeps each of the owner's documents as often as it occurs
      and drops every other document. */
  lemma {:induction false} OwnedByCounts<T(!new)>(docs: seq<Generation<T>>, owner: Value, g: Generation<T>)
    ensures multiset(OwnedBy(docs, owner))[g] == if g.userId == owner then multiset(docs)[g] else 0
  {
    if docs != [] {
      OwnedByCounts(docs[1..], owner, g);
      assert docs == [docs[0]] + docs[1..];
    }
  }

  /** Listing returns exactly the owner's documents, each as often as it is
      stored. */
  lemma FindCounts<T(!new)>(docs: seq<Generation<T>>, owner: Value, g: Generation<T>)
    ensures multiset(Find(docs, owner))[g] == if g.userId == owner then multiset(docs)[g] else 0
  {
    SortPermutes(OwnedBy(docs, owner));
    OwnedByCounts(docs, owner, g);
  }

  /** Filtering distributes over concatenation. */
  lemma {:induction false} OwnedByAppend<T(!new)>(a: seq<Generation<T>>, b: seq<Generation<T>>, owner: Value)
    ensures OwnedBy(a + b, owner) == OwnedBy(a, owner) + OwnedBy(b, owner)
  {
    if a == [] {
      assert a + b == b;
    } else {
      var x, rest := a[0], a[1..];
      assert a == [x] + rest;
      assert a + b == [x] + (rest + b);
      OwnedByCons(x, rest, owner);
      OwnedByCons(x, rest + b, owner);
      OwnedByAppend(rest, b, owner);
    }
  }

  /** One step of the filter. */
  lemma OwnedByCons<T(!new)>(x: Generation<T>, rest: seq<Generation<T>>, owner: Value)
    ensures OwnedBy([x] + rest, owner) == (if x.userId == owner then [x] else []) + OwnedBy(rest, owner)
  {
    var s := [x] + rest;
    assert s[0] == x && s[1..] == rest;
  }

  /** The filter of `deleteOne({ _id: id, userId: owner })`. */
  predicate Matches<T(!new)>(g: Generation<T>, id: ObjectId, owner: Value) {
    g.id == id && g.userId == owner
  }

  /** `deleteOne({ _id: id, userId: owner })`: the first document with that
      id and that owner is removed; with none, nothing changes. */
  function DeleteOwned<T(!new)>(docs: seq<Generation<T>>, id: ObjectId, owner: Value): (r: seq<Generation<T>>)
    ensures |r| == |docs| || |r| == |docs| - 1
  {
    match FindFirst(docs, (g: Generation<T>) => Matches(g, id, owner))
    case None => docs
    case Some(i) => RemoveAt(docs, i)
  }

  /** A document is removed exactly when one with that id belongs to that
      owner, and then only such a document. */
  lemma DeleteOwnedRemoves<T(!new)>(docs: seq<Generation<T>>, id: ObjectId, owner: Value)
    ensures |DeleteOwned(docs, id, owner)| == |docs| - 1 <==>
      exists i :: 0 <= i < |docs| && Matches(docs[i], id, owner)
    ensures |DeleteOwned(docs, id, owner)| == |docs| ==> DeleteOwned(docs, id, owner) == docs
    ensures |DeleteOwned(docs, id, owner)| == |docs| - 1 ==>
      exists g :: Matches(g, id, owner) && multiset(docs) == multiset(DeleteOwned(docs, id, owner)) + multiset{g}
  {
    match FindFirst(docs, (g: Generation<T>) => Matches(g, id, owner))
    case None =>
    case Some(i) =>
      assert docs == docs[..i] + [docs[i]] + docs[i + 1..];
      assert multiset(docs) == multiset(docs[..i] + docs[i + 1..]) + multiset{docs[i]};
  }

  /** Deleting never touches another user's documents: everyone else's list
      is the same before and after. */
  lemma DeleteIsolated<T(!new)>(docs: seq<Generation<T>>, id: ObjectId, owner: Value, other: Value)
    requires other != owner
    ensures Find(DeleteOwned(docs, id, owner), other) == Find(docs, other)
  {
    match FindFirst(docs, (g: Generation<T>) => Matches(g, id, owner))
    case None =>
    case Some(i) =>
      var before, after := docs[..i], docs[i + 1..];
      assert docs == before + ([docs[i]] + after);
      OwnedByAppend(before, [docs[i]] + after, other);
      OwnedByAppend([docs[i]], after, other);
      OwnedByAppend(before, after, other);
      assert OwnedBy([docs[i]], other) == [];
  }

  /** A document just saved by `owner` is in `owner`'s list. */
  lemma SavedIsListed<T(!new)>(docs: seq<Generation<T>>, g: Generation<T>)
    ensures g in Find(docs + [g], g.userId)
  {
    assert g in docs + [g];
  }

  /** A live collection of generations. */
  class Collection<T(==, !new)> {
    var docs: seq<Generation<T>>

    constructor(initial: seq<Generation<T>>)
      ensures docs == initial
    {
      docs := initial;
    }

    /** `insertOne(g)`: the new document is appended. */
    method InsertOne(g: Generation<T>)
      modifies this
      ensures docs == old(docs) + [g]
    {
      docs := docs + [g];
    }

    /** `deleteOne({ _id: id, userId: owner })`, returning `deletedCount`. */
    method DeleteOne(id: ObjectId, owner: Value) returns (deletedCount: nat)
      modifies this
      ensures docs == DeleteOwned(old(docs), id, owner)
      ensures deletedCount == |old(docs)| - |docs|
      ensures deletedCount == 0 <==> forall i :: 0 <= i < |old(docs)| ==> !Matches(old(docs)[i], id, owner)
    {
      DeleteOwnedRemoves(docs, id, owner);
      var before := docs;
      docs := DeleteOwned(docs, id, owner);
      deletedCount := |before| - |docs|;
    }
  }
}
