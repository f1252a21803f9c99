/** The small part of Ruby's core semantics that the gradient code relies on:
    failure values, the exceptions it can raise, `Kernel#Array` on the two kinds
    of value it is given, and `Array#slice(start, length)`. */
module Runtime {

  datatype Option<+T> = None | Some(value: T)

  /** The outcome of a Ruby call: a value, or the exception it raised. */
  datatype Result<+T, +E> = Success(value: T) | Failure(error: E)

  /** The exceptions the core can raise on its own account. */
  datatype Error =
    | KeyError(key: string)           // Hash#fetch of a missing key
    | NoMethodError(name: string)     // a method called on nil

  /** A Ruby value that is either nil or an Array. */
  datatype Value<+T> = Nil | Arr(elems: seq<T>)

  /** `Kernel#Array`: nil becomes the empty array, an array is returned as it is. */
  function ToArray<T>(v: Value<T>): (r: seq<T>)
    ensures v.Nil? ==> r == []
    ensures v.Arr? ==> r == v.elems
  {
    match v
    case Nil => []
    case Arr(s) => s
  }

  /** `Array#slice(start, length)` for non-negative arguments: nil when `start`
      lies beyond the end of the array, otherwise the run of at most `length`
      elements that begins at `start` (empty when `start` is the length). */
  function Slice<T>(s: seq<T>, start: nat, length: nat): (r: Option<seq<T>>)
    ensures r.None? <==> start > |s|
    ensures r.Some? ==> |r.value| == (if start + length <= |s| then length else |s| - start)
    ensures r.Some? ==> r.value == s[start..start + |r.value|]
  {
    if start > |s| then None
    else if start + length <= |s| then Some(s[start..start + length])
    else Some(s[start..])
  }

  /** The slice `from` takes, `set.slice(1, set.length)`, is nil exactly for the
      empty array and is the array without its first element otherwise. */
  lemma SliceTail<T>(s: seq<T>)
    ensures Slice(s, 1, |s|) == if s == [] then None else Some(s[1..])
  {
  }
}
