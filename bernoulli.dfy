/**
 * The A/B tester `BaysBernoulli`: a prior, two append-only ledgers seeded
 * with it, and the last table given to `add_data`.
 *
 * Each state-changing operation is specified by a step function on a
 * `Snapshot` of the object's fields; the class's methods are proved to move
 * the object to exactly the snapshot the step function describes, and the
 * lemmas below state what each step does to the ledgers and their posteriors.
 */
module Bernoulli {
  import opened Errors
  import opened Ledger
  import opened PriorCatalog
  import opened Posterior

  /** The fields of a `BaysBernoulli` object at one moment. */
  datatype Snapshot = Snapshot(prior: Batch, dataA: seq<Batch>, dataB: seq<Batch>, data: Option<Table>)

  /** Both ledgers are non-empty and start with the prior. */
  predicate Seeded(s: Snapshot) {
    |s.dataA| >= 1 && s.dataA[0] == s.prior && |s.dataB| >= 1 && s.dataB[0] == s.prior
  }

  /** The ledger a group tag selects; any other tag selects none. */
  function LedgerOf(s: Snapshot, group: string): Option<seq<Batch>> {
    if group == "A" then Some(s.dataA) else if group == "B" then Some(s.dataB) else None
  }

  /** The fields right after `__init__` with the given prior: each ledger
      holds the prior alone and no table has been added. */
  function Initial(prior: Batch): (s: Snapshot)
    ensures Seeded(s) && s.prior == prior
    ensures |s.dataA| == 1 && |s.dataB| == 1 && s.data.None?
  {
    Snapshot(prior, [prior], [prior], None)
  }

  /** A fresh tester's ledgers are seeded, and each gives back the prior as
      its posterior and as its one-entry trajectory. */
  lemma InitialPosterior(prior: Batch)
    ensures Seeded(Initial(prior))
    ensures Parameters(Initial(prior).dataA) == Ok(prior) && Parameters(Initial(prior).dataB) == Ok(prior)
    ensures Trajectory(Initial(prior).dataA) == ([prior.hits], [prior.fails])
  {
    var t := Trajectory([prior]);
    assert [prior][..1] == [prior];
    assert Parameters([prior][..1]) == Ok(Batch(t.0[0], t.1[0]));
    assert t.0 == [prior.hits] && t.1 == [prior.fails];
  }

  function StateAfter(s: Snapshot, r: Result<Snapshot>): Snapshot {
    if r.Ok? then r.value else s
  }

  function OutcomeOf(r: Result<Snapshot>): Outcome {
    if r.Ok? then Pass else Fail(r.error)
  }

  // ---------------------------------------------------------------- add_data

  /** `add_data`: both tags must occur in the table; then the A rows extend
      `dataA` and the B rows extend `dataB`, in table order, and the table is
      kept as `data`. */
  function AddDataStep(s: Snapshot, df: Table): (r: Result<Snapshot>)
    ensures r.Err? <==> Select(df, "A") == [] || Select(df, "B") == []
    ensures r.Err? ==> r.error == ValueError
    ensures r.Ok? ==> r.value.prior == s.prior && r.value.data == Some(df)
  {
    if !("A" in Tags(df) && "B" in Tags(df)) then Err(ValueError)
    else Ok(s.(data := Some(df), dataA := s.dataA + Select(df, "A"), dataB := s.dataB + Select(df, "B")))
  }

  /** A successful `add_data` keeps each ledger as a prefix (so the seed stays
      at index 0), grows each ledger by its group's row count and adds the
      group's masked column sums to that group's posterior. */
  lemma AddDataEffect(s: Snapshot, df: Table)
    requires Seeded(s) && AddDataStep(s, df).Ok?
    ensures var t := AddDataStep(s, df).value;
            Seeded(t) &&
            t.dataA[..|s.dataA|] == s.dataA && t.dataB[..|s.dataB|] == s.dataB &&
            |t.dataA| == |s.dataA| + |Select(df, "A")| && |t.dataB| == |s.dataB| + |Select(df, "B")| &&
            |t.dataA| > |s.dataA| && |t.dataB| > |s.dataB| &&
            Parameters(t.dataA) == Ok(Plus(Parameters(s.dataA).value, TaggedTotal(df, "A"))) &&
            Parameters(t.dataB) == Ok(Plus(Parameters(s.dataB).value, TaggedTotal(df, "B")))
  {
    var t := AddDataStep(s, df).value;
    assert t.dataA[..|s.dataA|] == s.dataA;
    assert t.dataB[..|s.dataB|] == s.dataB;
    ParametersAppend(s.dataA, Select(df, "A"));
    ParametersAppend(s.dataB, Select(df, "B"));
    SelectTotal(df, "A");
    SelectTotal(df, "B");
  }

  // ---------------------------------------------------------- add_experiment

  /** `add_experiment` as written: group "B" appends `[hits, fails]` to
      `dataB`, but group "A" calls `append` on `self.data` instead of
      `self.dataA`. While `data` is None that raises AttributeError; once a
      DataFrame is there, `DataFrame.append` returns a new frame that is
      dropped, so nothing changes. Either way `dataA` never grows. */
  function AddExperimentStep(s: Snapshot, hits: int, fails: int, group: string): (r: Result<Snapshot>)
    ensures r.Err? <==> group == "A" && s.data.None?
    ensures r.Err? ==> r.error == AttributeError
    ensures r.Ok? ==> r.value.dataA == s.dataA
    ensures group != "A" ==> r == Ok(AddExperimentIntended(s, hits, fails, group))
  {
    if group == "A" then (if s.data.None? then Err(AttributeError) else Ok(s))
    else if group == "B" then Ok(s.(dataB := s.dataB + [Batch(hits as real, fails as real)]))
    else Ok(s)
  }

  /** `add_experiment` as its docstring describes it: the batch is added to
      the chosen group's ledger, whose posterior grows by exactly
      (hits, fails); the other ledger is untouched and an unknown tag changes
      nothing. */
  function AddExperimentIntended(s: Snapshot, hits: int, fails: int, group: string): (r: Snapshot)
    ensures Seeded(s) ==> Seeded(r)
    ensures Seeded(s) && group == "A" ==>
              r.dataB == s.dataB && |r.dataA| == |s.dataA| + 1 &&
              Parameters(r.dataA) == Ok(Plus(Parameters(s.dataA).value, Batch(hits as real, fails as real)))
    ensures Seeded(s) && group == "B" ==>
              r.dataA == s.dataA && |r.dataB| == |s.dataB| + 1 &&
              Parameters(r.dataB) == Ok(Plus(Parameters(s.dataB).value, Batch(hits as real, fails as real)))
    ensures group != "A" && group != "B" ==> r == s
  {
    var b := Batch(hits as real, fails as real);
    if group == "A" then
      assert Seeded(s) ==> Parameters(s.dataA + [b]) == Ok(Plus(Parameters(s.dataA).value, b)) by {
        if Seeded(s) { ParametersAppendOne(s.dataA, b); }
      }
      s.(dataA := s.dataA + [b])
    else if group == "B" then
      assert Seeded(s) ==> Parameters(s.dataB + [b]) == Ok(Plus(Parameters(s.dataB).value, b)) by {
        if Seeded(s) { ParametersAppendOne(s.dataB, b); }
      }
      s.(dataB := s.dataB + [b])
    else s
  }

  /** The defect in numbers: once a table has been added, `add_experiment`
      on group "A" leaves A's posterior where it was, where the intended
      update would have moved it by the experiment's trials. */
  lemma AddExperimentDefect(s: Snapshot, hits: int, fails: int)
    requires Seeded(s) && s.data.Some? && (hits != 0 || fails != 0)
    ensures AddExperimentStep(s, hits, fails, "A") == Ok(s)
    ensures Parameters(AddExperimentStep(s, hits, fails, "A").value.dataA) == Parameters(s.dataA)
    ensures Parameters(AddExperimentStep(s, hits, fails, "A").value.dataA)
         != Parameters(AddExperimentIntended(s, hits, fails, "A").dataA)
  {
  }

  // ----------------------------------------------------- add_rand_experiment

  /** The argument check of `bernoulli.rvs(p, size=n)`: scipy rejects a `p`
      outside [0, 1] and numpy a negative size, both with ValueError. */
  function DrawError(n: int, p: real): Option<PyError> {
    if n < 0 || p < 0.0 || p > 1.0 then Some(ValueError) else None
  }

  /** The hit counts that `n` Bernoulli(p) trials can produce: only 0 when
      p = 0, only `n` when p = 1, and any count from 0 to `n` otherwise. */
  predicate ValidDraw(n: nat, p: real, hits: int) {
    0 <= hits <= n && (p == 0.0 ==> hits == 0) && (p == 1.0 ==> hits == n)
  }

  /** An outcome vector that `bernoulli.rvs(p, size=n)` can return: `n`
      entries, each 0 or 1, all 0 when p = 0 and all 1 when p = 1. */
  predicate PossibleTrials(n: nat, p: real, trials: seq<int>) {
    |trials| == n &&
    (forall i :: 0 <= i < n ==> trials[i] == 0 || trials[i] == 1) &&
    (p == 0.0 ==> forall i :: 0 <= i < n ==> trials[i] == 0) &&
    (p == 1.0 ==> forall i :: 0 <= i < n ==> trials[i] == 1)
  }

  /** `np.count_nonzero`: the number of non-zero entries. */
  function CountNonzero(trials: seq<int>): (c: nat)
    ensures c <= |trials|
  {
    if trials == [] then 0 else (if trials[0] != 0 then 1 else 0) + CountNonzero(trials[1..])
  }

  /** A vector of `n` trials whose first `h` are hits. */
  function HitsFirst(n: nat, h: nat): seq<int> {
    seq(n, i requires 0 <= i < n => if i < h then 1 else 0)
  }

  lemma {:induction false} CountHitsFirst(n: nat, h: nat)
    requires h <= n
    ensures CountNonzero(HitsFirst(n, h)) == h
  {
    if n > 0 {
      var h' := if h > 0 then h - 1 else 0;
      assert HitsFirst(n, h)[1..] == HitsFirst(n - 1, h');
      CountHitsFirst(n - 1, h');
    }
  }

  lemma {:induction false} CountConstant(trials: seq<int>, v: int)
    requires forall i :: 0 <= i < |trials| ==> trials[i] == v
    ensures CountNonzero(trials) == if v != 0 then |trials| else 0
  {
    if trials != [] {
      CountConstant(trials[1..], v);
    }
  }

  /** The draw abstraction is exact: the valid hit counts are precisely the
      non-zero counts of the outcome vectors the trials can produce. */
  lemma DrawOutcomes(n: nat, p: real, hits: int)
    ensures ValidDraw(n, p, hits) <==> exists trials :: PossibleTrials(n, p, trials) && CountNonzero(trials) == hits
  {
    if ValidDraw(n, p, hits) {
      var w := HitsFirst(n, hits);
      CountHitsFirst(n, hits);
      assert PossibleTrials(n, p, w);
    }
    forall trials | PossibleTrials(n, p, trials) && CountNonzero(trials) == hits
      ensures ValidDraw(n, p, hits)
    {
      if p == 0.0 { CountConstant(trials, 0); }
      if p == 1.0 { CountConstant(trials, 1); }
    }
  }

  /** The bookkeeping of `add_rand_experiment` once `hits` is drawn: the
      chosen ledger keeps its entries and gains `[hits, n - hits]` at the end;
      everything else stays as it was. */
  function RecordDraw(s: Snapshot, n: nat, hits: nat, group: string): (r: Snapshot)
    requires hits <= n
    ensures r.prior == s.prior && r.data == s.data
    ensures group == "A" ==>
              r.dataB == s.dataB && |r.dataA| == |s.dataA| + 1 &&
              r.dataA[..|s.dataA|] == s.dataA && r.dataA[|s.dataA|] == Batch(hits as real, (n - hits) as real)
    ensures group == "B" ==>
              r.dataA == s.dataA && |r.dataB| == |s.dataB| + 1 &&
              r.dataB[..|s.dataB|] == s.dataB && r.dataB[|s.dataB|] == Batch(hits as real, (n - hits) as real)
    ensures group != "A" && group != "B" ==> r == s
  {
    var b := Batch(hits as real, (n - hits) as real);
    if group == "A" then s.(dataA := s.dataA + [b])
    else if group == "B" then s.(dataB := s.dataB + [b])
    else s
  }

  /** Recording a draw of `n` trials adds one batch to the chosen ledger,
      whose alpha + beta grows by `n` and whose alpha grows by `hits`; the
      other ledger is unchanged, and an unknown tag changes nothing. */
  lemma RandExperimentEffect(s: Snapshot, n: nat, hits: nat, group: string)
    requires Seeded(s) && hits <= n
    ensures var t := RecordDraw(s, n, hits, group);
            Seeded(t) &&
            (group == "A" ==>
               |t.dataA| == |s.dataA| + 1 && t.dataB == s.dataB &&
               Parameters(t.dataA).value.hits == Parameters(s.dataA).value.hits + hits as real &&
               Parameters(t.dataA).value.hits + Parameters(t.dataA).value.fails
                 == Parameters(s.dataA).value.hits + Parameters(s.dataA).value.fails + n as real) &&
            (group == "B" ==>
               |t.dataB| == |s.dataB| + 1 && t.dataA == s.dataA &&
               Parameters(t.dataB).value.hits == Parameters(s.dataB).value.hits + hits as real &&
               Parameters(t.dataB).value.hits + Parameters(t.dataB).value.fails
                 == Parameters(s.dataB).value.hits + Parameters(s.dataB).value.fails + n as real) &&
            (group != "A" && group != "B" ==> t == s)
  {
    var b := Batch(hits as real, (n - hits) as real);
    if group == "A" {
      ParametersAppendOne(s.dataA, b);
    } else if group == "B" {
      ParametersAppendOne(s.dataB, b);
    }
  }

  // ------------------------------------------------------------------ object

  class BaysBernoulli {
    const prior: Batch
    var dataA: seq<Batch>
    var dataB: seq<Batch>
    var data: Option<Table>

    function State(): Snapshot
      reads this
    {
      Snapshot(prior, dataA, dataB, data)
    }

    /** Both ledgers hold the prior at index 0. */
    predicate Valid()
      reads this
    {
      Seeded(State())
    }

    /** Seeds both ledgers with an already resolved prior. */
    constructor (p: Batch)
      ensures State() == Initial(p) && Valid()
    {
      prior := p;
      dataA := [p];
      dataB := [p];
      data := None;
    }

    /** `BaysBernoulli(prior_type)`: an unknown prior name raises SyntaxError;
        otherwise both ledgers are exactly `[prior]`. */
    static method New(priorType: string) returns (r: Result<BaysBernoulli>)
      ensures r.Ok? <==> priorType in PriorNames
      ensures r.Err? ==> r.error == SyntaxError
      ensures r.Ok? ==> fresh(r.value) && r.value.Valid()
      ensures r.Ok? ==> r.value.State() == Initial(ResolvePrior(priorType).value)
    {
      var p := ResolvePrior(priorType);
      if p.Err? {
        return Err(p.error);
      }
      var t := new BaysBernoulli(p.value);
      return Ok(t);
    }

    method AddData(df: Table) returns (r: Outcome)
      requires Valid()
      modifies this
      ensures Valid()
      ensures r == OutcomeOf(AddDataStep(old(State()), df))
      ensures State() == StateAfter(old(State()), AddDataStep(old(State()), df))
    {
      if !("A" in Tags(df) && "B" in Tags(df)) {
        return Fail(ValueError);
      }
      data := Some(df);
      dataA := dataA + Select(df, "A");
      dataB := dataB + Select(df, "B");
      r := Pass;
    }

    method AddExperiment(hits: int, fails: int, group: string) returns (r: Outcome)
      requires Valid()
      modifies this
      ensures Valid()
      ensures r == OutcomeOf(AddExperimentStep(old(State()), hits, fails, group))
      ensures State() == StateAfter(old(State()), AddExperimentStep(old(State()), hits, fails, group))
    {
      if group == "A" {
        if data.None? {
          return Fail(AttributeError);
        }
        // `self.data.append(...)` on a DataFrame builds a new frame and drops it
      } else if group == "B" {
        dataB := dataB + [Batch(hits as real, fails as real)];
      }
      r := Pass;
    }

    /** Draws `n` Bernoulli(p) trials and records them in the chosen group.
        The draw itself is left open: `hits` is any count the trials could
        produce, and it is returned so that callers can name it. */
    method AddRandExperiment(n: int, p: real, group: string) returns (r: Result<nat>)
      requires Valid()
      modifies this
      ensures Valid()
      ensures r.Err? <==> n < 0 || p < 0.0 || p > 1.0
      ensures r.Err? ==> r.error == ValueError && State() == old(State())
      ensures r.Ok? ==> n >= 0 && ValidDraw(n, p, r.value) && State() == RecordDraw(old(State()), n, r.value, group)
    {
      if DrawError(n, p).Some? {
        return Err(ValueError);
      }
      assert ValidDraw(n, p, if p == 1.0 then n else 0);
      var hits: nat :| ValidDraw(n, p, hits);
      var b := Batch(hits as real, (n - hits) as real);
      if group == "A" {
        dataA := dataA + [b];
      } else if group == "B" {
        dataB := dataB + [b];
      }
      r := Ok(hits);
    }

    /** `post_parameters(data, group)`: the column sums of `ledger` when one
        is given, else of the group's own ledger. */
    function PostParameters(ledger: Option<seq<Batch>>, group: string): (r: Result<Batch>)
      reads this
      requires Valid()
      ensures r.Ok? <==> if ledger.Some? then ledger.value != [] else group == "A" || group == "B"
      ensures r.Err? ==> r.error == IndexError
      ensures ledger.None? && group == "A" ==> r == Ok(Total(dataA))
      ensures ledger.None? && group == "B" ==> r == Ok(Total(dataB))
      ensures ledger.Some? && ledger.value != [] ==> r == Ok(Total(ledger.value))
    {
      var chosen := if ledger.Some? then ledger else LedgerOf(State(), group);
      if chosen.None? then Err(IndexError) else Parameters(chosen.value)
    }

    /** `post_pred(data, group)`: alpha / (alpha + beta) of the posterior that
        `post_parameters` gives for the same arguments. */
    function PostPred(ledger: Option<seq<Batch>>, group: string): (r: Result<real>)
      reads this
      requires Valid()
      ensures PostParameters(ledger, group).Err? ==> r == Err(PostParameters(ledger, group).error)
      ensures PostParameters(ledger, group).Ok? ==>
                var ab := PostParameters(ledger, group).value;
                (r.Err? <==> ab.hits + ab.fails == 0.0) &&
                (r.Err? ==> r.error == ZeroDivisionError) &&
                (r.Ok? ==> r.value * (ab.hits + ab.fails) == ab.hits)
    {
      var ab := PostParameters(ledger, group);
      if ab.Err? then Err(ab.error) else Predictive(ab.value)
    }

    /** `make_cum_post_para(group)`: the trajectory of the group's ledger, one
        entry per batch, ending at that group's `post_parameters`. A tag other
        than "A" or "B" leaves the local `data` unbound. */
    function MakeCumPostPara(group: string): (r: Result<(seq<real>, seq<real>)>)
      reads this
      requires Valid()
      ensures r.Ok? <==> group == "A" || group == "B"
      ensures r.Err? ==> r.error == UnboundLocalError
      ensures r.Ok? ==>
                var n := |LedgerOf(State(), group).value|;
                |r.value.0| == n && |r.value.1| == n &&
                (forall i :: 0 <= i < n ==>
                   Parameters(LedgerOf(State(), group).value[..i + 1]) == Ok(Batch(r.value.0[i], r.value.1[i]))) &&
                Batch(r.value.0[0], r.value.1[0]) == prior &&
                PostParameters(None, group) == Ok(Batch(r.value.0[n - 1], r.value.1[n - 1]))
    {
      var chosen := LedgerOf(State(), group);
      if chosen.None? then Err(UnboundLocalError)
      else
        TrajectoryEnds(chosen.value);
        Ok(Trajectory(chosen.value))
    }
  }

  /** Worked scenarios: the Bayes-Laplace update by (8, 2) on group B gives
      Beta(9, 3) with predictive 0.75; the same call on group A fails at
      bernoulli.py:85 on a fresh tester; an unknown prior name is refused. */
  method Scenarios()
  {
    var created := BaysBernoulli.New("Bayes-Laplace");
    var t := created.value;
    var o := t.AddExperiment(8, 2, "B");
    ParametersAppendOne([Batch(1.0, 1.0)], Batch(8.0, 2.0));
    assert t.PostParameters(None, "B") == Ok(Batch(9.0, 3.0));
    assert Predictive(Batch(9.0, 3.0)) == Ok(0.75);
    assert t.PostPred(None, "B") == Ok(0.75);
    o := t.AddExperiment(8, 2, "A");
    assert o == Fail(AttributeError);
    var flat := BaysBernoulli.New("Flat");
    assert flat == Err(SyntaxError);
  }
}
