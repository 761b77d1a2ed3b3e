/** Small sequence utilities shared by the whole model: an optional value
    (JavaScript's `undefined` result of `Array.prototype.find`) and the
    first-match search that `find` performs. */
module Seqs {

  datatype Option<+T> = None | Some(value: T)

  /** The index of the first element satisfying `p`, as `Array.prototype.find`
      scans left to right and stops at the first hit. */
  function FirstIndex<T>(s: seq<T>, p: T -> bool): (r: Option<nat>)
    ensures r.Some? ==> r.value < |s| && p(s[r.value])
    ensures r.Some? ==> forall j :: 0 <= j < r.value ==> !p(s[j])
    ensures r.None? ==> forall j :: 0 <= j < |s| ==> !p(s[j])
  {
    if s == [] then None
    else if p(s[0]) then Some(0)
    else
      match FirstIndex(s[1..], p)
      case None => None
      case Some(k) => Some(k + 1)
  }

  /** Concatenation regrouped, for proofs that build a trace piece by piece. */
  lemma AppendAssoc<T>(a: seq<T>, b: seq<T>, c: seq<T>)
    ensures (a + b) + c == a + (b + c)
  {
  }
}
