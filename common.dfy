/** Values that may be absent: a missing JSON key, a JavaScript `null`, a Python `None`. */
module Common {

  datatype Option<+T> = None | Some(value: T) {

    /** The value, or `default` when absent. */
    function GetOr(default: T): T {
      match this
      case Some(v) => v
      case None => default
    }
  }

  /** `f` applied to every element, or `None` as soon as one application is `None`. */
  function MapSome<A, B>(f: A -> Option<B>, xs: seq<A>): (r: Option<seq<B>>)
    ensures r.Some? <==> forall i :: 0 <= i < |xs| ==> f(xs[i]).Some?
    ensures r.Some? ==> |r.value| == |xs| && forall i :: 0 <= i < |xs| ==> f(xs[i]) == Some(r.value[i])
    decreases |xs|
  {
    if |xs| == 0 then Some([])
    else
      assert forall i :: 0 <= i < |xs| - 1 ==> xs[1..][i] == xs[i + 1];
      match (f(xs[0]), MapSome(f, xs[1..]))
      case (Some(y), Some(rest)) =>
        var ys := [y] + rest;
        assert forall i :: 1 <= i < |xs| ==> ys[i] == rest[i - 1];
        Some(ys)
      case _ => None
  }
}
