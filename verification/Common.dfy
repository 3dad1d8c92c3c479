/** Small datatypes every other module uses. */
module Common {

  datatype Option<+T> = None | Some(value: T)

  /** What one look at the objects says of the wait. */
  datatype Verdict = Pending | Success | Failure

  function Min(a: int, b: int): int {
    if b < a then b else a
  }

  function Max(a: int, b: int): int {
    if b < a then a else b
  }

  lemma ConcatAssociates<T>(a: seq<T>, b: seq<T>, c: seq<T>)
    ensures a + b + c == a + (b + c)
  {
  }
}
