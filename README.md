# Beta–Bernoulli A/B tester: conjugate-update bookkeeping

This project models the bookkeeping core of `BaysBernoulli`, the Beta–Bernoulli
A/B tester of PyBayesAB (`src/PyBayesAB/conjugated_priors/bernoulli.py`):

- **Prior catalogue** (`PriorCatalog`): the constructor's four named priors,
  Bayes-Laplace (1, 1), Jeffreys (1/2, 1/2), Neutral (1/3, 1/3) and
  Haldane (10⁻³, 10⁻³), as exact `real` pseudo-count pairs. Any other name
  raises `SyntaxError`.
- **Per-group ledgers** (`Ledger`, `Bernoulli`): `dataA` and `dataB` are
  append-only sequences of `[hits, fails]` batches, each seeded with the
  prior. They grow through `add_data`, `add_experiment` and
  `add_rand_experiment`. The class `Bernoulli.BaysBernoulli` holds the
  fields and mutates them in place. Each of its methods is proved to reach
  exactly the state that a step function on a `Snapshot` of the fields
  describes. Lemmas about those step functions state what each call does to
  the ledgers and to their posteriors.
- **Posterior** (`Posterior`): `post_parameters` is the column-wise sum of a
  ledger. `post_pred` is α/(α+β). `make_cum_post_para` is the pair of
  `cumsum`s of the two columns. These are modelled as functions over a
  ledger snapshot.

Python exceptions are modelled as `Result`/`Outcome` errors named after the
exception the source raises (`Errors.PyError`). The drawn hit count of
`add_rand_experiment` is nondeterministic. It is any count that `n`
Bernoulli(p) trials can produce: between 0 and `n`, 0 when p = 0 and `n`
when p = 1. The method returns it so that its contract can name it.

Behaviour the model takes from the code as it stands:

- The code never rejects negative hit or fail counts, so neither does the model.
- The code does not check `n` or `p` itself. The model raises `ValueError`
  where scipy's and numpy's argument checks do: `p` outside [0, 1], or a
  negative `n`.
- `add_experiment(..., "A")` does not reach `dataA` (see Findings).
- `post_pred` on α+β = 0 raises `ZeroDivisionError`, because the
  object-dtype sums are Python numbers.
- `post_parameters` on an empty override ledger, or with an unknown tag
  and no override, raises `IndexError` from the `[:, 0]` indexing.
- `make_cum_post_para` with an unknown tag raises `UnboundLocalError`.

## Model

| member | source | states |
|---|---|---|
| `PriorCatalog.ResolvePrior` | src/PyBayesAB/conjugated_priors/bernoulli.py:31-43 | a prior name resolves exactly when it is one of the four presets, else SyntaxError; every preset is symmetric and strictly positive (at most 1) |
| `PriorCatalog.PresetPairs` | src/PyBayesAB/conjugated_priors/bernoulli.py:31-43 | the four presets' exact pairs (1,1), (1/2,1/2), (1/3,1/3), (10⁻³,10⁻³), and "Flat" is rejected |
| `Ledger.TotalAppend` | src/PyBayesAB/conjugated_priors/bernoulli.py:132-136 | the column sums of a concatenation are the sums of the parts' column sums |
| `Ledger.TotalPermutation` | src/PyBayesAB/conjugated_priors/bernoulli.py:132-136 | two ledgers with the same batches as a multiset have the same column sums |
| `Ledger.Select` | src/PyBayesAB/conjugated_priors/bernoulli.py:72-73 | the rows of a group, in table order: no longer than the table, empty exactly when the tag does not occur, and containing exactly the (hits, fails) of rows with that tag |
| `Ledger.SelectAppend` | src/PyBayesAB/conjugated_priors/bernoulli.py:72-73 | selecting a group's rows distributes over concatenation of tables (order is kept) |
| `Ledger.SelectTotal` | src/PyBayesAB/conjugated_priors/bernoulli.py:72-73 | the sums of a group's selected rows equal the masked column sums over the whole table |
| `Posterior.Parameters` | src/PyBayesAB/conjugated_priors/bernoulli.py:132-136 | post_parameters of a ledger fails (IndexError) exactly on the empty ledger, and a seed-only ledger gives back the seed |
| `Posterior.ParametersAppend` | src/PyBayesAB/conjugated_priors/bernoulli.py:132-136 | appending batches adds their column sums to the posterior parameters |
| `Posterior.ParametersAppendOne` | src/PyBayesAB/conjugated_priors/bernoulli.py:132-136 | appending one batch adds exactly that (hits, fails) to (α, β) |
| `Posterior.ParametersReorder` | src/PyBayesAB/conjugated_priors/bernoulli.py:132-136 | any permutation of the batches after the seed gives the same posterior parameters |
| `Posterior.ParametersPositive` | src/PyBayesAB/conjugated_priors/bernoulli.py:132-136 | a positive seed followed by non-negative batches gives α > 0 and β > 0 |
| `Posterior.Predictive` | src/PyBayesAB/conjugated_priors/bernoulli.py:115-116 | post_pred is the r with r·(α+β) = α, and raises ZeroDivisionError exactly when α+β = 0 |
| `Posterior.PredictiveInUnitInterval` | src/PyBayesAB/conjugated_priors/bernoulli.py:115-116 | for α > 0 and β > 0 the predictive lies strictly between 0 and 1 |
| `Posterior.PredictiveOfSeededLedger` | src/PyBayesAB/conjugated_priors/bernoulli.py:108-136 | a ledger with a positive seed and non-negative observations has a predictive strictly inside (0, 1) |
| `Posterior.RunningSum` | src/PyBayesAB/conjugated_priors/bernoulli.py:187-188 | a running sum from `acc` has one entry per value, entry i being acc plus the sum of the first i+1 values |
| `Posterior.CumSum` | src/PyBayesAB/conjugated_priors/bernoulli.py:187-188 | `cumsum` has one entry per value, entry i being the sum of the first i+1 values |
| `Posterior.Trajectory` | src/PyBayesAB/conjugated_priors/bernoulli.py:184-190 | two sequences as long as the ledger; entry i is post_parameters of the first i+1 batches |
| `Posterior.TrajectoryEnds` | src/PyBayesAB/conjugated_priors/bernoulli.py:179-190 | the trajectory starts at the seed and ends at post_parameters of the whole ledger |
| `Bernoulli.Initial` | src/PyBayesAB/conjugated_priors/bernoulli.py:45-54 | the fields `__init__` sets: both ledgers hold the prior alone (so the seed invariant holds) and `data` is None |
| `Bernoulli.InitialPosterior` | src/PyBayesAB/conjugated_priors/bernoulli.py:45-51 | right after construction both ledgers are seeded, post_parameters of each is the prior and the trajectory is the prior alone |
| `Bernoulli.AddDataStep` | src/PyBayesAB/conjugated_priors/bernoulli.py:68-73 | add_data raises ValueError exactly when the table has no A row or no B row; otherwise the table is kept as `data` and the prior untouched |
| `Bernoulli.AddDataEffect` | src/PyBayesAB/conjugated_priors/bernoulli.py:68-73 | a successful add_data keeps both old ledgers as prefixes (seed at index 0), grows each by exactly its group's row count, and adds each group's masked row sums to its posterior |
| `Bernoulli.AddExperimentStep` | src/PyBayesAB/conjugated_priors/bernoulli.py:84-87 | add_experiment as written: never changes dataA; group A raises AttributeError exactly while `data` is None; any other tag behaves as intended |
| `Bernoulli.AddExperimentIntended` | src/PyBayesAB/conjugated_priors/bernoulli.py:76-87 | the intended add_experiment keeps the ledgers seeded, grows the chosen ledger by one batch and its posterior by exactly (hits, fails), leaves the other ledger alone, and ignores unknown tags |
| `Bernoulli.AddExperimentDefect` | src/PyBayesAB/conjugated_priors/bernoulli.py:84-85 | with a table present and (hits, fails) ≠ (0, 0), add_experiment on A leaves A's posterior unchanged, unlike the intended update |
| `Bernoulli.DrawOutcomes` | src/PyBayesAB/conjugated_priors/bernoulli.py:98 | the hit counts `ValidDraw` admits are exactly the `count_nonzero` values of the 0/1 outcome vectors of length n that Bernoulli(p) trials can produce (all 0 when p = 0, all 1 when p = 1) |
| `Bernoulli.CountNonzero` | src/PyBayesAB/conjugated_priors/bernoulli.py:98 | `count_nonzero` of the trials never exceeds the number of trials |
| `Bernoulli.RecordDraw` | src/PyBayesAB/conjugated_priors/bernoulli.py:99-102 | the chosen ledger keeps its entries and gains [hits, n-hits] at the end; the other ledger, the prior and `data` are unchanged; an unknown tag changes nothing |
| `Bernoulli.RandExperimentEffect` | src/PyBayesAB/conjugated_priors/bernoulli.py:98-102 | recording a draw adds one batch to the chosen group, α grows by hits and α+β by n, the other group is unchanged, and an unknown tag changes nothing |
| `Bernoulli.BaysBernoulli.constructor` | src/PyBayesAB/conjugated_priors/bernoulli.py:45-54 | both ledgers are exactly [prior] and `data` is None |
| `Bernoulli.BaysBernoulli.New` | src/PyBayesAB/conjugated_priors/bernoulli.py:18-54 | construction fails with SyntaxError exactly for an unknown prior name; otherwise a fresh, seeded object in the initial state |
| `Bernoulli.BaysBernoulli.AddData` | src/PyBayesAB/conjugated_priors/bernoulli.py:60-73 | the object moves to exactly the state AddDataStep gives, and stays seeded |
| `Bernoulli.BaysBernoulli.AddExperiment` | src/PyBayesAB/conjugated_priors/bernoulli.py:76-87 | the object moves to exactly the state AddExperimentStep (as written) gives, and stays seeded |
| `Bernoulli.BaysBernoulli.AddRandExperiment` | src/PyBayesAB/conjugated_priors/bernoulli.py:89-102 | ValueError, with nothing changed, exactly when n < 0 or p lies outside [0, 1] (`DrawError`, the scipy/numpy argument checks); otherwise a hit count satisfying `ValidDraw` (see `DrawOutcomes`) is recorded as RecordDraw describes |
| `Bernoulli.BaysBernoulli.PostParameters` | src/PyBayesAB/conjugated_priors/bernoulli.py:118-136 | the column sums of the override ledger if one is given, else of group A's or B's ledger; IndexError for an empty override or an unknown tag |
| `Bernoulli.BaysBernoulli.PostPred` | src/PyBayesAB/conjugated_priors/bernoulli.py:108-116 | passes on post_parameters' error; otherwise r·(α+β) = α, with ZeroDivisionError exactly when α+β = 0 |
| `Bernoulli.BaysBernoulli.MakeCumPostPara` | src/PyBayesAB/conjugated_priors/bernoulli.py:169-190 | UnboundLocalError exactly for a tag other than A or B; otherwise one entry per batch, entry i being post_parameters of the group's first i+1 batches, so it starts at the prior and ends at post_parameters of that group |

## Left out

- `make_rvs`, `make_pdf`, `make_diff` (bernoulli.py:138-195) are left out. They wrap scipy's Beta sampling and density in floating point.
- `prob_best`, `hdi`, `rope`, `bayes_factor` (bernoulli.py:201-211) are left out. They delegate to `bayesian_functions`, which is not part of this model. `summary` only raises `NotImplementedError`.
- Plotting and animation (`plot_tot`, `plot_exp`, `plot_anim`) and the `__main__` demo are left out. They are presentation and printing.
- `src/conjugated_priors/Exponential.py` is left out. It is an unimplemented stub: its constructor raises and its methods return None.
- Pseudo-counts and sums are exact `real`s, while the source uses Python floats (1/3 and 10**-3 are rounded there).
- The `add_data` table is a sequence of (tag, hits, fails) rows. The `group_col_name` argument, any extra columns, the DataFrame index, and a missing group column (`KeyError`) are not modelled.
- Observed counts are integers. The draw's probability distribution is not modelled, only the set of counts it can produce.
- `Bernoulli.BaysBernoulli.AddExperiment` and `Bernoulli.AddExperimentStep`: model pandas before 2.0, where `DataFrame.append` returns a new frame that the code discards. With pandas 2.0 or later that call raises AttributeError as well. `dataA` is unchanged in both cases.
- Default arguments are not modelled: every call passes them explicitly. These are `prior_type='Bayes-Laplace'` (bernoulli.py:18), `group="A"` (bernoulli.py:76, 89, 108, 118, 169) and `data=None` (bernoulli.py:108, 118). A plain `add_experiment(hits, fails)` therefore takes the defective group-A branch.
- Both ledgers hold the same Python list object as their seed. Nothing mutates it, so the model treats the seed as a value.
- `Bernoulli.BaysBernoulli.PostParameters`, `PostPred`, `MakeCumPostPara`: they require the object invariant that both ledgers are seeded. The constructor establishes it and every method keeps it.

## Findings

| source | as written | input that shows it | evidently intended | confidence | as-written member | corrected member |
|---|---|---|---|---|---|---|
| src/PyBayesAB/conjugated_priors/bernoulli.py:84-85 | `add_experiment(hits, fails, "A")` appends to `self.data` instead of `self.dataA` | `add_experiment(8, 2, "A")` on a fresh tester raises AttributeError (`data` is None); after `add_data`, A's posterior stays unchanged although hits+fails = 10 | append `[hits, fails]` to `dataA`, so A's posterior grows by (hits, fails) | high; not executed | `Bernoulli.AddExperimentDefect` | `Bernoulli.AddExperimentIntended` |
