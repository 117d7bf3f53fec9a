/** Array.prototype.find, shared by the front end's lookups (src/lib/websocket.ts
    and src/lib/store.ts). */
module Lists {
  import opened Protocol

  /** The index `find` stops at: the first element satisfying `p`. */
  function FindIndex<T>(xs: seq<T>, p: T -> bool): (k: Option<nat>)
    ensures k.None? <==> forall i :: 0 <= i < |xs| ==> !p(xs[i])
    ensures k.Some? ==> k.value < |xs| && p(xs[k.value]) && forall j :: 0 <= j < k.value ==> !p(xs[j])
  {
    if xs == [] then None
    else if p(xs[0]) then Some(0)
    else
      match FindIndex(xs[1..], p)
      case Some(k) => assert xs[1..][k] == xs[k + 1]; Some(k + 1)
      case None => None
  }

  /** `xs.find(p)`, undefined modelled as None. */
  function Find<T>(xs: seq<T>, p: T -> bool): (r: Option<T>)
    ensures r.None? <==> forall i :: 0 <= i < |xs| ==> !p(xs[i])
    ensures forall i :: 0 <= i < |xs| && p(xs[i]) && (forall j :: 0 <= j < i ==> !p(xs[j])) ==> r == Some(xs[i])
  {
    match FindIndex(xs, p)
    case Some(k) => Some(xs[k])
    case None => None
  }
}
