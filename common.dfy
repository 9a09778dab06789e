/** Small shared vocabulary: optional values and JavaScript's `Array.prototype.slice(0, k)`. */
module Common {

  /** A value that may be absent (`undefined` / `null` in the source). */
  datatype Option<+T> = None | Some(value: T)

  /** The end index `xs.slice(0, k)` stops at: a negative `k` counts back from the end. */
  function SliceEnd(len: nat, k: int): (r: nat)
    ensures r <= len
  {
    if k < 0 then (if len + k < 0 then 0 else len + k)
    else if k < len then k else len
  }

  /** `xs.slice(0, k)`: a prefix, of length `min(k, |xs|)` when `k` is not negative. */
  function Prefix<T>(xs: seq<T>, k: int): (r: seq<T>)
    ensures |r| <= |xs| && r == xs[..|r|]
    ensures 0 <= k ==> |r| == if k < |xs| then k else |xs|
  {
    xs[..SliceEnd(|xs|, k)]
  }
}
