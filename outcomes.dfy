/** Python's "value or None" and "returns or raises", as values. */
module Outcomes {

  datatype Option<+T> = None | Some(value: T)

  /** The result of a call that either returns `value` or raises an exception
      whose `str(e)` is `msg`. */
  datatype Outcome<+T> = Ok(value: T) | Raises(msg: string)

  /** Calling `f` on each element in order and appending what it returns,
      with no error handling: the first call that raises ends the loop and
      its exception propagates, so no partial list is returned. */
  function MapAll<A, B>(xs: seq<A>, f: A -> Outcome<B>): Outcome<seq<B>>
    decreases |xs|
  {
    if xs == [] then Ok([])
    else
      var init := xs[..|xs| - 1];
      match MapAll(init, f)
      case Raises(m) => Raises(m)
      case Ok(vs) =>
        match f(xs[|xs| - 1])
        case Raises(m) => Raises(m)
        case Ok(v) => Ok(vs + [v])
  }

  /** The loop returns exactly when every call returns, and then gives each
      call's value in order; when it raises, the message is that of a call
      that raised after every earlier call returned. */
  lemma {:induction false} MapAllMeaning<A, B>(xs: seq<A>, f: A -> Outcome<B>)
    ensures var r := MapAll(xs, f);
      && (r.Ok? <==> forall i :: 0 <= i < |xs| ==> f(xs[i]).Ok?)
      && (r.Ok? ==> |r.value| == |xs| && forall i :: 0 <= i < |xs| ==> r.value[i] == f(xs[i]).value)
      && (r.Raises? ==> exists i :: 0 <= i < |xs| && f(xs[i]) == Raises(r.msg) && forall j :: 0 <= j < i ==> f(xs[j]).Ok?)
    decreases |xs|
  {
    if xs != [] {
      var init, last := xs[..|xs| - 1], xs[|xs| - 1];
      MapAllMeaning(init, f);
      assert forall i :: 0 <= i < |init| ==> init[i] == xs[i];
    }
  }

  /** A call that raises after a prefix that returned ends the whole loop
      with its message. */
  lemma FirstFailureWins<A, B>(xs: seq<A>, f: A -> Outcome<B>, i: nat)
    requires i < |xs| && MapAll(xs[..i], f).Ok? && f(xs[i]).Raises?
    ensures MapAll(xs, f) == Raises(f(xs[i]).msg)
  {
    MapAllMeaning(xs[..i], f);
    MapAllMeaning(xs, f);
    forall j | 0 <= j < i ensures f(xs[j]).Ok? {
      assert xs[..i][j] == xs[j];
    }
    var r := MapAll(xs, f);
    var k :| 0 <= k < |xs| && f(xs[k]) == Raises(r.msg) && forall j :: 0 <= j < k ==> f(xs[j]).Ok?;
    assert k == i;
  }

  /** One more element: the loop body of the drivers. */
  lemma MapAllStep<A, B>(xs: seq<A>, f: A -> Outcome<B>, i: nat)
    requires i < |xs|
    ensures MapAll(xs[..i + 1], f) == match MapAll(xs[..i], f)
      case Raises(m) => Raises(m)
      case Ok(vs) => (match f(xs[i]) case Raises(m) => Raises(m) case Ok(v) => Ok(vs + [v]))
  {
    assert xs[..i + 1][..i] == xs[..i];
  }

  /** Once the loop has raised, later elements change nothing. */
  lemma RaisedStaysRaised<A, B>(xs: seq<A>, ys: seq<A>, f: A -> Outcome<B>)
    requires MapAll(xs, f).Raises?
    ensures MapAll(xs + ys, f) == MapAll(xs, f)
  {
    MapAllMeaning(xs, f);
    var m := MapAll(xs, f).msg;
    var i :| 0 <= i < |xs| && f(xs[i]) == Raises(m) && forall j :: 0 <= j < i ==> f(xs[j]).Ok?;
    assert (xs + ys)[..i] == xs[..i];
    assert MapAll(xs[..i], f).Ok? by {
      MapAllMeaning(xs[..i], f);
      forall j | 0 <= j < i ensures f(xs[..i][j]).Ok? {
        assert xs[..i][j] == xs[j];
      }
    }
    assert (xs + ys)[i] == xs[i];
    FirstFailureWins(xs + ys, f, i);
  }

  lemma MapAllAppendOne<A, B>(xs: seq<A>, vs: seq<B>, x: A, f: A -> Outcome<B>)
    requires MapAll(xs, f) == Ok(vs)
    ensures f(x).Raises? ==> MapAll(xs + [x], f) == Raises(f(x).msg)
    ensures f(x).Ok? ==> MapAll(xs + [x], f) == Ok(vs + [f(x).value])
  {
    assert (xs + [x])[..|xs|] == xs;
  }
}
