/**
 * Trial batches, the numeric columns of a ledger, and the tagged row table
 * that `add_data` ingests.
 */
module Ledger {

  /** One `[hits, fails]` entry of a group's ledger; the seed entry holds the
      prior's (possibly fractional) pseudo-counts. */
  datatype Batch = Batch(hits: real, fails: real)

  function Plus(x: Batch, y: Batch): Batch {
    Batch(x.hits + y.hits, x.fails + y.fails)
  }

  /** `sum` of a numeric column, front to back. */
  function Sum(xs: seq<real>): real {
    if xs == [] then 0.0 else xs[0] + Sum(xs[1..])
  }

  /** Column 0 (`data[:, 0]`) of a ledger. */
  function Hits(s: seq<Batch>): seq<real> {
    seq(|s|, i requires 0 <= i < |s| => s[i].hits)
  }

  /** Column 1 (`data[:, 1]`) of a ledger. */
  function Fails(s: seq<Batch>): seq<real> {
    seq(|s|, i requires 0 <= i < |s| => s[i].fails)
  }

  /** Column-wise sums of a ledger. */
  function Total(s: seq<Batch>): Batch {
    Batch(Sum(Hits(s)), Sum(Fails(s)))
  }

  lemma {:induction false} SumAppend(xs: seq<real>, ys: seq<real>)
    ensures Sum(xs + ys) == Sum(xs) + Sum(ys)
  {
    if xs == [] {
      assert xs + ys == ys;
    } else {
      assert (xs + ys)[1..] == xs[1..] + ys;
      SumAppend(xs[1..], ys);
    }
  }

  /** Summing a ledger is summing its parts: the aggregate of a concatenation
      is the sum of the aggregates. */
  lemma TotalAppend(s: seq<Batch>, t: seq<Batch>)
    ensures Total(s + t) == Plus(Total(s), Total(t))
  {
    assert Hits(s + t) == Hits(s) + Hits(t);
    assert Fails(s + t) == Fails(s) + Fails(t);
    SumAppend(Hits(s), Hits(t));
    SumAppend(Fails(s), Fails(t));
  }

  lemma TotalSingleton(b: Batch)
    ensures Total([b]) == b
  {
    assert Hits([b]) == [b.hits] && [b.hits][1..] == [];
    assert Sum([b.hits]) == b.hits + Sum([]);
    assert Fails([b]) == [b.fails] && [b.fails][1..] == [];
    assert Sum([b.fails]) == b.fails + Sum([]);
  }

  /** Taking out the batch at position `j` leaves the rest of the sum. */
  lemma TotalRemove(ys: seq<Batch>, j: nat)
    requires j < |ys|
    ensures Total(ys) == Plus(ys[j], Total(ys[..j] + ys[j + 1..]))
  {
    assert ys == ys[..j] + [ys[j]] + ys[j + 1..];
    TotalAppend(ys[..j] + [ys[j]], ys[j + 1..]);
    TotalAppend(ys[..j], [ys[j]]);
    TotalAppend(ys[..j], ys[j + 1..]);
    TotalSingleton(ys[j]);
  }

  /** The aggregate does not depend on the order of the batches: any two
      ledgers holding the same batches (as a multiset) have the same sums. */
  lemma {:induction false} TotalPermutation(xs: seq<Batch>, ys: seq<Batch>)
    requires multiset(xs) == multiset(ys)
    ensures Total(xs) == Total(ys)
    decreases |xs|
  {
    if xs == [] {
      assert ys == [] by {
        assert |ys| == |multiset(ys)| == |multiset(xs)| == 0;
      }
    } else {
      var x := xs[0];
      assert x in multiset(ys);
      var j :| 0 <= j < |ys| && ys[j] == x;
      var rest := ys[..j] + ys[j + 1..];
      assert multiset(xs[1..]) == multiset(rest) by {
        assert xs == [x] + xs[1..];
        assert ys == ys[..j] + [x] + ys[j + 1..];
        assert multiset(xs) == multiset{x} + multiset(xs[1..]);
        assert multiset(ys) == multiset(ys[..j]) + multiset{x} + multiset(ys[j + 1..]);
        assert multiset(rest) == multiset(ys[..j]) + multiset(ys[j + 1..]);
        assert multiset(xs[1..]) == multiset(xs) - multiset{x};
        assert multiset(rest) == multiset(ys) - multiset{x};
      }
      TotalPermutation(xs[1..], rest);
      TotalRemove(xs, 0);
      TotalRemove(ys, j);
      assert xs[..0] + xs[1..] == xs[1..];
    }
  }

  /** One row of the table given to `add_data`: the group tag and the row's
      remaining (hits, fails) columns. */
  datatype Row = Row(group: string, hits: int, fails: int)

  type Table = seq<Row>

  function BatchOf(row: Row): Batch {
    Batch(row.hits as real, row.fails as real)
  }

  /** `df[group].unique()`, as a set. */
  function Tags(df: Table): set<string> {
    set i | 0 <= i < |df| :: df[i].group
  }

  /** The (hits, fails) of the rows tagged `g`, in table order:
      `df[df[group] == g].drop(columns=group).values.tolist()`. */
  function Select(df: Table, g: string): (r: seq<Batch>)
    ensures |r| <= |df|
    ensures r != [] <==> g in Tags(df)
    ensures forall b :: b in r <==> exists i :: 0 <= i < |df| && df[i].group == g && BatchOf(df[i]) == b
  {
    if df == [] then []
    else
      assert Tags(df) == {df[0].group} + Tags(df[1..]) by {
        assert forall i :: 0 < i < |df| ==> df[i] == df[1..][i - 1];
        assert forall i :: 0 <= i < |df| - 1 ==> df[1..][i] == df[i + 1];
      }
      assert forall i :: 0 <= i < |df| - 1 ==> df[1..][i] == df[i + 1];
      (if df[0].group == g then [BatchOf(df[0])] else []) + Select(df[1..], g)
  }

  lemma {:induction false} SelectAppend(d1: Table, d2: Table, g: string)
    ensures Select(d1 + d2, g) == Select(d1, g) + Select(d2, g)
  {
    if d1 == [] {
      assert d1 + d2 == d2;
    } else {
      assert (d1 + d2)[1..] == d1[1..] + d2;
      SelectAppend(d1[1..], d2, g);
    }
  }

  /** Hits and fails of the rows tagged `g`, summed over the whole table with
      the other rows masked to zero. */
  function TaggedTotal(df: Table, g: string): Batch {
    Batch(Sum(seq(|df|, i requires 0 <= i < |df| => if df[i].group == g then df[i].hits as real else 0.0)),
          Sum(seq(|df|, i requires 0 <= i < |df| => if df[i].group == g then df[i].fails as real else 0.0)))
  }

  /** Selecting the rows of a group and then summing them equals the masked sum
      over the table. */
  lemma {:induction false} SelectTotal(df: Table, g: string)
    ensures Total(Select(df, g)) == TaggedTotal(df, g)
  {
    if df == [] {
    } else {
      var head := if df[0].group == g then [BatchOf(df[0])] else [];
      SelectTotal(df[1..], g);
      TotalAppend(head, Select(df[1..], g));
      if df[0].group == g { TotalSingleton(BatchOf(df[0])); }
      var mh := seq(|df|, i requires 0 <= i < |df| => if df[i].group == g then df[i].hits as real else 0.0);
      var mf := seq(|df|, i requires 0 <= i < |df| => if df[i].group == g then df[i].fails as real else 0.0);
      var rest := df[1..];
      assert mh[1..] == seq(|rest|, i requires 0 <= i < |rest| => if rest[i].group == g then rest[i].hits as real else 0.0);
      assert mf[1..] == seq(|rest|, i requires 0 <= i < |rest| => if rest[i].group == g then rest[i].fails as real else 0.0);
    }
  }
}
