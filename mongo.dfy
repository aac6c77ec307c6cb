/** The parts of the MongoDB driver the routes depend on, over an in-memory
    sequence of documents kept in natural (insertion) order. */
module Mongo {
  import opened Wrappers

  /** A document id. `new ObjectId(s)` on a well-formed `s` and
      `id.toString()` are modelled as wrapping and unwrapping the text. */
  datatype ObjectId = ObjectId(hex: string)

  /** `findOne(filter)`: the position of the first document the filter
      matches, or nothing. */
  function FindFirst<T>(docs: seq<T>, matches: T -> bool): (r: Option<nat>)
    ensures r.Some? ==> r.value < |docs| && matches(docs[r.value])
    ensures r.Some? ==> forall j :: 0 <= j < r.value ==> !matches(docs[j])
    ensures r.None? ==> forall j :: 0 <= j < |docs| ==> !matches(docs[j])
  {
    if docs == [] then None
    else if matches(docs[0]) then Some(0)
    else match FindFirst(docs[1..], matches)
      case None => None
      case Some(k) => Some(k + 1)
  }

  /** The documents without the one at position `i`. */
  function RemoveAt<T>(docs: seq<T>, i: nat): (r: seq<T>)
    requires i < |docs|
    ensures |r| == |docs| - 1
    ensures forall j :: 0 <= j < i ==> r[j] == docs[j]
    ensures forall j :: i <= j < |r| ==> r[j] == docs[j + 1]
  {
    docs[..i] + docs[i + 1..]
  }
}
