/** Small shared vocabulary: optional values, replies from the database (a
    value or a raised exception), and the "convert every row or give up"
    loop that the three fetchers of the dashboard share. */
module Common {

  datatype Option<+T> = None | Some(value: T)

  /** What a database call or another foreign call gives back: a value, or
      an exception that the caller has to handle. */
  datatype Reply<+T> = Ok(value: T) | Raised

  /** Convert every element with `f`; the whole conversion fails as soon as
      one element fails. This is the meaning of a Python loop that appends
      `f(row)` for each row inside a `try` whose handler returns `[]`. */
  function MapAll<A, B>(f: A -> Option<B>, xs: seq<A>): (r: Option<seq<B>>)
    decreases |xs|
  {
    if |xs| == 0 then Some([])
    else match MapAll(f, xs[..|xs| - 1])
      case None => None
      case Some(ys) =>
        match f(xs[|xs| - 1])
        case None => None
        case Some(y) => Some(ys + [y])
  }

  /** MapAll succeeds exactly when every element converts, and then it
      holds the converted elements one for one, in order. */
  lemma {:induction false} MapAllSpec<A, B>(f: A -> Option<B>, xs: seq<A>)
    ensures MapAll(f, xs).Some? <==> forall i :: 0 <= i < |xs| ==> f(xs[i]).Some?
    ensures MapAll(f, xs).Some? ==>
              |MapAll(f, xs).value| == |xs| &&
              forall i :: 0 <= i < |xs| ==> MapAll(f, xs).value[i] == f(xs[i]).value
    decreases |xs|
  {
    if |xs| > 0 {
      var init := xs[..|xs| - 1];
      MapAllSpec(f, init);
      assert forall i :: 0 <= i < |init| ==> init[i] == xs[i];
    }
  }

  /** Once a prefix fails to convert, so does the whole sequence. */
  lemma {:induction false} MapAllPrefixFails<A, B>(f: A -> Option<B>, xs: seq<A>, n: nat)
    requires n <= |xs|
    requires MapAll(f, xs[..n]).None?
    ensures MapAll(f, xs).None?
  {
    MapAllSpec(f, xs[..n]);
    MapAllSpec(f, xs);
    var i :| 0 <= i < n && f(xs[..n][i]).None?;
    assert xs[..n][i] == xs[i];
  }

  /** The loop itself: append converted elements until one fails. */
  method CollectAll<A, B>(f: A -> Option<B>, xs: seq<A>) returns (r: Option<seq<B>>)
    ensures r == MapAll(f, xs)
  {
    var acc: seq<B> := [];
    var i := 0;
    while i < |xs|
      invariant 0 <= i <= |xs|
      invariant MapAll(f, xs[..i]) == Some(acc)
    {
      var y := f(xs[i]);
      assert xs[..i + 1][..i] == xs[..i];
      if y.None? {
        MapAllPrefixFails(f, xs, i + 1);
        return None;
      }
      acc := acc + [y.value];
      i := i + 1;
    }
    assert xs[..i] == xs;
    r := Some(acc);
  }
}
