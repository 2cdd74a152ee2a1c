/**
 * The shape of the server's record loops: each record yields a row, no row (`continue`, or a
 * failed `if`), or an exception that ends the request.
 */
module Loops {
  import opened Wrappers

  /** The rows of `xs` in order, or the first failure. */
  function Collect<X, R>(xs: seq<X>, f: X -> Result<Option<R>>): (r: Result<seq<R>>)
    ensures r.Success? ==> |r.value| <= |xs|
  {
    if xs == [] then Success([])
    else
      match Collect(xs[..|xs| - 1], f)
      case Failure(e) => Failure(e)
      case Success(rows) =>
        match f(xs[|xs| - 1])
        case Failure(e) => Failure(e)
        case Success(None) => Success(rows)
        case Success(Some(row)) => Success(rows + [row])
  }

  /** The loop body of one record: append its row, skip it, or stop at its failure. */
  lemma {:induction false} CollectStep<X, R>(xs: seq<X>, i: nat, f: X -> Result<Option<R>>)
    requires i < |xs|
    ensures Collect(xs[..i + 1], f) == match Collect(xs[..i], f)
      case Failure(e) => Failure(e)
      case Success(rows) =>
        match f(xs[i])
        case Failure(e) => Failure(e)
        case Success(None) => Success(rows)
        case Success(Some(row)) => Success(rows + [row])
  {
    assert xs[..i + 1][..i] == xs[..i];
  }

  /** The first failure is the answer for the whole sequence. */
  lemma {:induction false} CollectFailureSticks<X, R>(xs: seq<X>, k: nat, f: X -> Result<Option<R>>)
    requires k <= |xs| && Collect(xs[..k], f).Failure?
    ensures Collect(xs, f) == Collect(xs[..k], f)
    decreases |xs| - k
  {
    if k < |xs| {
      CollectStep(xs, k, f);
      CollectFailureSticks(xs, k + 1, f);
    } else {
      assert xs[..k] == xs;
    }
  }

  /** How many elements yield no row. */
  function Dropped<X, R>(xs: seq<X>, f: X -> Result<Option<R>>): (r: nat)
    ensures r <= |xs|
  {
    if xs == [] then 0
    else Dropped(xs[..|xs| - 1], f) + (if f(xs[|xs| - 1]) == Success(None) then 1 else 0)
  }

  /**
   * Without a failure, every element succeeded, the rows are exactly the rows the elements
   * yield, and one row is there per element that is not dropped.
   */
  lemma {:induction false} CollectExactly<X, R>(xs: seq<X>, f: X -> Result<Option<R>>)
    requires Collect(xs, f).Success?
    ensures forall i :: 0 <= i < |xs| ==> f(xs[i]).Success?
    ensures forall row :: row in Collect(xs, f).value <==> exists i :: 0 <= i < |xs| && f(xs[i]) == Success(Some(row))
    ensures |Collect(xs, f).value| + Dropped(xs, f) == |xs|
  {
    if xs != [] {
      var n := |xs| - 1;
      var init := xs[..n];
      CollectExactly(init, f);
      assert forall i :: 0 <= i < n ==> init[i] == xs[i];
      forall row ensures row in Collect(xs, f).value <==> exists i :: 0 <= i < |xs| && f(xs[i]) == Success(Some(row))
      {
        if exists i :: 0 <= i < |xs| && f(xs[i]) == Success(Some(row)) {
          var i :| 0 <= i < |xs| && f(xs[i]) == Success(Some(row));
          if i < n {
            assert f(init[i]) == Success(Some(row));
          }
        }
      }
    }
  }

  /** A failure comes from some element's failure. */
  lemma {:induction false} CollectFailureCause<X, R>(xs: seq<X>, f: X -> Result<Option<R>>)
    requires Collect(xs, f).Failure?
    ensures exists i :: 0 <= i < |xs| && f(xs[i]) == Failure(Collect(xs, f).error)
  {
    var n := |xs| - 1;
    var init := xs[..n];
    if Collect(init, f).Failure? {
      CollectFailureCause(init, f);
      var i :| 0 <= i < |init| && f(init[i]) == Failure(Collect(init, f).error);
      assert init[i] == xs[i];
    } else {
      assert f(xs[n]) == Failure(Collect(xs, f).error);
    }
  }
}
