/** The fail-fast batch policy shared by the iOS, Web and Android backends: extract each item in
    input order, stop at the first failure and report only that failure, otherwise return every
    result in input order. */
module Batch {
  import opened Outcomes

  /** Applies `f` to the items from first to last; the first `Err` is the result of the whole batch. */
  function FailFast<A, B, E>(xs: seq<A>, f: A -> Result<B, E>): (r: Result<seq<B>, E>)
    ensures r.Ok? ==> |r.value| == |xs|
  {
    if xs == [] then Ok([])
    else match f(xs[0])
      case Err(e) => Err(e)
      case Ok(b) =>
        match FailFast(xs[1..], f)
        case Err(e) => Err(e)
        case Ok(bs) => Ok([b] + bs)
  }

  /** The batch loop: extracts the items in order into a growing list and returns at the first
      failure; `probed` counts the items handed to `f`, so no item after the failing one is. */
  method Run<A, B, E>(xs: seq<A>, f: A -> Result<B, E>) returns (r: Result<seq<B>, E>, ghost probed: nat)
    ensures r == FailFast(xs, f)
    ensures r.Ok? ==> probed == |xs| && |r.value| == |xs|
    ensures r.Err? ==> FirstFailure(xs, f, probed - 1) && r.error == f(xs[probed - 1]).error
  {
    var results: seq<B> := [];
    probed := 0;
    for i := 0 to |xs|
      invariant probed == i == |results|
      invariant forall j :: 0 <= j < i ==> f(xs[j]) == Ok(results[j])
    {
      var result := f(xs[i]);
      probed := i + 1;
      if result.Err? {
        FailFastFirstErr(xs, f, i);
        return Err(result.error), probed;
      }
      results := results + [result.value];
    }
    FailFastAllOk(xs, f, results);
    r := Ok(results);
  }

  /** True when `k` is the position of the first item whose extraction fails. */
  predicate FirstFailure<A, B, E>(xs: seq<A>, f: A -> Result<B, E>, k: int)
  {
    0 <= k < |xs| && f(xs[k]).Err? && forall j :: 0 <= j < k ==> f(xs[j]).Ok?
  }

  /** A successful batch is one-to-one with its input and in the same order. */
  lemma {:induction false} FailFastOk<A, B, E>(xs: seq<A>, f: A -> Result<B, E>)
    requires FailFast(xs, f).Ok?
    ensures |FailFast(xs, f).value| == |xs|
    ensures forall i :: 0 <= i < |xs| ==> f(xs[i]) == Ok(FailFast(xs, f).value[i])
  {
    if xs != [] {
      FailFastOk(xs[1..], f);
      forall i | 1 <= i < |xs| ensures f(xs[i]) == Ok(FailFast(xs, f).value[i]) {
        assert xs[1..][i - 1] == xs[i];
      }
    }
  }

  /** When every item succeeds, the batch succeeds with exactly those results. */
  lemma {:induction false} FailFastAllOk<A, B, E>(xs: seq<A>, f: A -> Result<B, E>, vs: seq<B>)
    requires |vs| == |xs|
    requires forall i :: 0 <= i < |xs| ==> f(xs[i]) == Ok(vs[i])
    ensures FailFast(xs, f) == Ok(vs)
  {
    if xs != [] {
      FailFastAllOk(xs[1..], f, vs[1..]);
      assert vs == [vs[0]] + vs[1..];
    }
  }

  /** The first failing item's error is the whole result, whatever follows it. */
  lemma {:induction false} FailFastFirstErr<A, B, E>(xs: seq<A>, f: A -> Result<B, E>, k: int)
    requires FirstFailure(xs, f, k)
    ensures FailFast(xs, f) == Err(f(xs[k]).error)
  {
    if k > 0 {
      assert f(xs[0]).Ok?;
      assert FirstFailure(xs[1..], f, k - 1) by {
        forall j | 0 <= j < k - 1 ensures f(xs[1..][j]).Ok? {
          assert xs[1..][j] == xs[j + 1];
        }
      }
      FailFastFirstErr(xs[1..], f, k - 1);
    }
  }

  /** A batch fails exactly when some item fails, and then the error is the first failing item's. */
  lemma FailFastErrIff<A, B, E>(xs: seq<A>, f: A -> Result<B, E>)
    ensures FailFast(xs, f).Err? <==> exists i :: 0 <= i < |xs| && f(xs[i]).Err?
    ensures FailFast(xs, f).Err? ==> exists k :: FirstFailure(xs, f, k) && FailFast(xs, f).error == f(xs[k]).error
  {
    if FailFast(xs, f).Ok? {
      FailFastOk(xs, f);
    } else {
      assert exists i :: 0 <= i < |xs| && f(xs[i]).Err? by {
        if forall i :: 0 <= i < |xs| ==> f(xs[i]).Ok? {
          FailFastAllOk(xs, f, seq(|xs|, i requires 0 <= i < |xs| => f(xs[i]).value));
        }
      }
      var k := FirstIndex(xs, f);
      FailFastFirstErr(xs, f, k);
    }
  }

  /** The position of the first failing item, when there is one. */
  function FirstIndex<A, B, E>(xs: seq<A>, f: A -> Result<B, E>): (k: int)
    requires exists i :: 0 <= i < |xs| && f(xs[i]).Err?
    ensures FirstFailure(xs, f, k)
  {
    if f(xs[0]).Err? then 0
    else
      assert exists i :: 0 <= i < |xs[1..]| && f(xs[1..][i]).Err? by {
        var i :| 0 <= i < |xs| && f(xs[i]).Err?;
        assert i > 0 && xs[1..][i - 1] == xs[i];
      }
      var k := FirstIndex(xs[1..], f);
      assert forall j :: 1 <= j <= k ==> xs[1..][j - 1] == xs[j];
      k + 1
  }

  /** Items after the first failure cannot change the outcome: they are never extracted. */
  lemma FailFastIgnoresRest<A, B, E>(xs: seq<A>, f: A -> Result<B, E>, k: int, rest: seq<A>)
    requires FirstFailure(xs, f, k)
    ensures FailFast(xs[..k + 1] + rest, f) == FailFast(xs, f)
  {
    var ys := xs[..k + 1] + rest;
    assert FirstFailure(ys, f, k) by {
      assert forall j :: 0 <= j <= k ==> ys[j] == xs[j];
    }
    FailFastFirstErr(ys, f, k);
    FailFastFirstErr(xs, f, k);
  }
}
