/** The question record shared by the services and the app, and the array `slice`
    that every batch producer uses. */
module Questions {
  import opened Wrappers

  /** A question: its id within the batch, its text and an optional category label. */
  datatype Question = Question(id: int, text: string, category: Option<string>)

  /** How many elements `slice(0, end)` keeps of an array of length `len`: a
      non-negative `end` is clamped to the length, a negative one counts back from the
      end (and an `end` at or below `-len` keeps nothing). */
  function SliceLength(len: nat, end: int): (n: nat)
    ensures n <= len
    ensures 0 <= end ==> n == if end < len then end else len
  {
    if end < 0 then (if len + end > 0 then len + end else 0)
    else if end < len then end
    else len
  }

  /** The ids of a batch are 1, 2, ..., in order. */
  predicate IdsFromOne(qs: seq<Question>) {
    forall i :: 0 <= i < |qs| ==> qs[i].id == i + 1
  }
}
