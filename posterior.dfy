/**
 * The Beta-Bernoulli conjugate update over a ledger snapshot: posterior
 * parameters, posterior predictive and the cumulative trajectory.
 */
module Posterior {
  import opened Errors
  import opened Ledger

  /** `post_parameters` on an explicit ledger: the sums of the hits column
      and of the fails column. An empty ledger has no `[:, 0]` column. */
  function Parameters(ledger: seq<Batch>): (r: Result<Batch>)
    ensures r.Err? <==> ledger == []
    ensures r.Err? ==> r.error == IndexError
    ensures |ledger| == 1 ==> r == Ok(ledger[0])
  {
    if ledger == [] then Err(IndexError)
    else
      assert |ledger| == 1 ==> Total(ledger) == ledger[0] by {
        if |ledger| == 1 {
          assert ledger == [ledger[0]];
          TotalSingleton(ledger[0]);
        }
      }
      Ok(Total(ledger))
  }

  /** Appending batches to a ledger adds their sums to its posterior parameters. */
  lemma ParametersAppend(ledger: seq<Batch>, extra: seq<Batch>)
    requires ledger != []
    ensures Parameters(ledger + extra) == Ok(Plus(Parameters(ledger).value, Total(extra)))
  {
    TotalAppend(ledger, extra);
  }

  /** Appending one batch adds exactly that batch to the posterior parameters. */
  lemma ParametersAppendOne(ledger: seq<Batch>, b: Batch)
    requires ledger != []
    ensures Parameters(ledger + [b]) == Ok(Plus(Parameters(ledger).value, b))
  {
    ParametersAppend(ledger, [b]);
    TotalSingleton(b);
  }

  /** Reordering the observed batches behind the seed leaves the posterior
      parameters unchanged. */
  lemma ParametersReorder(seed: Batch, xs: seq<Batch>, ys: seq<Batch>)
    requires multiset(xs) == multiset(ys)
    ensures Parameters([seed] + xs) == Parameters([seed] + ys)
  {
    TotalPermutation(xs, ys);
    ParametersAppend([seed], xs);
    ParametersAppend([seed], ys);
  }

  lemma {:induction false} SumNonNegative(xs: seq<real>)
    requires forall i :: 0 <= i < |xs| ==> xs[i] >= 0.0
    ensures Sum(xs) >= 0.0
  {
    if xs != [] {
      SumNonNegative(xs[1..]);
    }
  }

  /** A ledger whose seed is strictly positive and whose observed batches are
      non-negative has strictly positive posterior parameters. */
  lemma ParametersPositive(ledger: seq<Batch>)
    requires ledger != [] && ledger[0].hits > 0.0 && ledger[0].fails > 0.0
    requires forall i :: 1 <= i < |ledger| ==> ledger[i].hits >= 0.0 && ledger[i].fails >= 0.0
    ensures Parameters(ledger).Ok?
    ensures Parameters(ledger).value.hits > 0.0 && Parameters(ledger).value.fails > 0.0
  {
    var rest := ledger[1..];
    assert ledger == [ledger[0]] + rest;
    ParametersAppend([ledger[0]], rest);
    SumNonNegative(Hits(rest));
    SumNonNegative(Fails(rest));
  }

  /** `post_pred`: alpha / (alpha + beta), the posterior-predictive probability
      that the next trial is a hit. Division by zero raises. */
  function Predictive(ab: Batch): (r: Result<real>)
    ensures r.Err? <==> ab.hits + ab.fails == 0.0
    ensures r.Err? ==> r.error == ZeroDivisionError
    ensures r.Ok? ==> r.value * (ab.hits + ab.fails) == ab.hits
  {
    if ab.hits + ab.fails == 0.0 then Err(ZeroDivisionError)
    else Ok(ab.hits / (ab.hits + ab.fails))
  }

  /** With both parameters positive the predictive is a probability strictly
      between 0 and 1. */
  lemma PredictiveInUnitInterval(ab: Batch)
    requires ab.hits > 0.0 && ab.fails > 0.0
    ensures Predictive(ab).Ok?
    ensures 0.0 < Predictive(ab).value < 1.0
  {
  }

  /** A ledger seeded with a positive prior and holding non-negative
      observations has a predictive strictly between 0 and 1. */
  lemma PredictiveOfSeededLedger(ledger: seq<Batch>)
    requires ledger != [] && ledger[0].hits > 0.0 && ledger[0].fails > 0.0
    requires forall i :: 1 <= i < |ledger| ==> ledger[i].hits >= 0.0 && ledger[i].fails >= 0.0
    ensures Parameters(ledger).Ok? && Predictive(Parameters(ledger).value).Ok?
    ensures 0.0 < Predictive(Parameters(ledger).value).value < 1.0
  {
    ParametersPositive(ledger);
    PredictiveInUnitInterval(Parameters(ledger).value);
  }

  lemma SumPrefixes(xs: seq<real>)
    requires xs != []
    ensures forall i :: 0 <= i < |xs| ==> Sum(xs[..i + 1]) == xs[0] + Sum(xs[1..][..i])
  {
    forall i | 0 <= i < |xs|
      ensures Sum(xs[..i + 1]) == xs[0] + Sum(xs[1..][..i])
    {
      assert xs[..i + 1][1..] == xs[1..][..i];
    }
  }

  /** A running sum seeded with `acc`: entry i is `acc` plus the sum of the
      first i + 1 values. */
  function RunningSum(acc: real, xs: seq<real>): (r: seq<real>)
    ensures |r| == |xs|
    ensures forall i :: 0 <= i < |xs| ==> r[i] == acc + Sum(xs[..i + 1])
    decreases |xs|
  {
    if xs == [] then []
    else
      SumPrefixes(xs);
      [acc + xs[0]] + RunningSum(acc + xs[0], xs[1..])
  }

  /** `np.cumsum`: entry i is the sum of the first i + 1 values. */
  function CumSum(xs: seq<real>): (r: seq<real>)
    ensures |r| == |xs|
    ensures forall i :: 0 <= i < |xs| ==> r[i] == Sum(xs[..i + 1])
  {
    RunningSum(0.0, xs)
  }

  /** `make_cum_post_para` on a ledger snapshot: the prefix sums of the hits
      and of the fails columns, one entry per batch; entry i is the posterior
      after the first i + 1 batches. */
  function Trajectory(ledger: seq<Batch>): (r: (seq<real>, seq<real>))
    ensures |r.0| == |ledger| && |r.1| == |ledger|
    ensures forall i :: 0 <= i < |ledger| ==> Parameters(ledger[..i + 1]) == Ok(Batch(r.0[i], r.1[i]))
  {
    assert forall j :: 0 <= j <= |ledger| ==> Hits(ledger)[..j] == Hits(ledger[..j]);
    assert forall j :: 0 <= j <= |ledger| ==> Fails(ledger)[..j] == Fails(ledger[..j]);
    (CumSum(Hits(ledger)), CumSum(Fails(ledger)))
  }

  /** The trajectory starts at the seed and ends at the posterior of the
      whole ledger. */
  lemma TrajectoryEnds(ledger: seq<Batch>)
    requires ledger != []
    ensures var (alphas, betas) := Trajectory(ledger);
            Batch(alphas[0], betas[0]) == ledger[0] &&
            Parameters(ledger) == Ok(Batch(alphas[|ledger| - 1], betas[|ledger| - 1]))
  {
    assert ledger[..1] == [ledger[0]];
    assert ledger[..|ledger|] == ledger;
  }
}
