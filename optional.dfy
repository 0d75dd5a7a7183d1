/** Optional values and the first-present combinator used by the shell fallback chain. */
module Optional {

  /** A value that may be absent (JavaScript's undefined or null). */
  datatype Option<+T> = None | Some(value: T) {

    /** This value when present, otherwise `other`. */
    function OrElse(other: Option<T>): (r: Option<T>)
      ensures Some? ==> r == this
      ensures None? ==> r == other
    {
      if Some? then this else other
    }

    /** The value when present, otherwise `default`. */
    function GetOr(default: T): (r: T)
      ensures Some? ==> r == value
      ensures None? ==> r == default
    {
      match this
      case Some(v) => v
      case None => default
    }
  }

  /** The earliest present entry of `options`: a fallback chain tried left to right. */
  function FirstPresent<T>(options: seq<Option<T>>): (r: Option<T>)
    ensures r.None? <==> forall i :: 0 <= i < |options| ==> options[i].None?
    ensures r.Some? ==>
      exists i :: 0 <= i < |options| && options[i] == r &&
        forall j :: 0 <= j < i ==> options[j].None?
  {
    if options == [] then None
    else if options[0].Some? then options[0]
    else
      var r := FirstPresent(options[1..]);
      assert forall i :: 1 <= i < |options| ==> options[i] == options[1..][i - 1];
      r
  }

  /** Trying a chain is trying its head, then the rest. */
  lemma FirstPresentCons<T>(head: Option<T>, rest: seq<Option<T>>)
    ensures FirstPresent([head] + rest) == head.OrElse(FirstPresent(rest))
  {
    assert ([head] + rest)[1..] == rest;
  }
}
