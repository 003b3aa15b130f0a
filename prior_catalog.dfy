/** The named priors of `BaysBernoulli.__init__`, as (alpha0, beta0) pseudo-counts. */
module PriorCatalog {
  import opened Errors
  import opened Ledger

  const PriorNames: set<string> := {"Bayes-Laplace", "Jeffreys", "Neutral", "Haldane"}

  /** The prior pair for `prior_type`; any other name raises SyntaxError.
      Every preset is symmetric and strictly positive. */
  function ResolvePrior(priorType: string): (r: Result<Batch>)
    ensures r.Ok? <==> priorType in PriorNames
    ensures r.Err? ==> r.error == SyntaxError
    ensures r.Ok? ==> r.value.hits == r.value.fails && 0.0 < r.value.hits <= 1.0
  {
    if priorType == "Bayes-Laplace" then Ok(Batch(1.0, 1.0))          // uniform
    else if priorType == "Jeffreys" then Ok(Batch(0.5, 0.5))
    else if priorType == "Neutral" then Ok(Batch(1.0 / 3.0, 1.0 / 3.0)) // Kerman (2011)
    else if priorType == "Haldane" then Ok(Batch(0.001, 0.001))       // 10**-3, standing in for 0
    else Err(SyntaxError)
  }

  /** The four presets, value by value. */
  lemma PresetPairs()
    ensures ResolvePrior("Bayes-Laplace") == Ok(Batch(1.0, 1.0))
    ensures ResolvePrior("Jeffreys") == Ok(Batch(0.5, 0.5))
    ensures ResolvePrior("Neutral") == Ok(Batch(1.0 / 3.0, 1.0 / 3.0))
    ensures ResolvePrior("Haldane") == Ok(Batch(0.001, 0.001))
    ensures ResolvePrior("Flat") == Err(SyntaxError)
  {
  }
}
