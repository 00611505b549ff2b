/** `compute_metrics`: the share, fairness-index and fairness-ratio columns
    added to the sector table.  The table is an array of rows that the
    operation updates in place, one column at a time, as the source assigns
    `df[column] = ...`; `Metrics` is the table it leaves behind, and the
    lemmas below state what that table promises. */
module CivicMetrics {
  import opened Series

  /** One sector's row: the three input columns and the four derived ones.
      The derived fields hold whatever the row carried before the first
      computation. */
  datatype Row = Row(
    sector: string,
    budget: real,
    population: real,
    budgetShare: real,
    populationShare: real,
    fairnessIndex: real,
    fairnessRatio: real)

  /** The numeric columns of the table, by name. */
  datatype Column =
    | Budget | Population | BudgetShare | PopulationShare | FairnessIndex | FairnessRatio

  function Get(r: Row, c: Column): real
  {
    match c
    case Budget => r.budget
    case Population => r.population
    case BudgetShare => r.budgetShare
    case PopulationShare => r.populationShare
    case FairnessIndex => r.fairnessIndex
    case FairnessRatio => r.fairnessRatio
  }

  /** `df[c]`: one column of the table, in row order. */
  function Col(rows: seq<Row>, c: Column): (xs: seq<real>)
    ensures |xs| == |rows|
    ensures forall i :: 0 <= i < |rows| ==> xs[i] == Get(rows[i], c)
  {
    seq(|rows|, i requires 0 <= i < |rows| => Get(rows[i], c))
  }

  /** What the element-wise divisions need: a non-empty table has non-zero
      column totals (pandas divides nothing in an empty one), and every row
      has a non-zero population, the divisor of its fairness ratio. */
  predicate Computable(rows: seq<Row>)
  {
    (|rows| > 0 ==> Sum(Col(rows, Budget)) != 0.0 && Sum(Col(rows, Population)) != 0.0) &&
    forall i :: 0 <= i < |rows| ==> rows[i].population != 0.0
  }

  /** One value as a percentage of its column total: the share times the
      total is 100 times the value. */
  function Share(x: real, total: real): (s: real)
    requires total != 0.0
    ensures s * total == x * 100.0
  {
    assert x / total * total == x;
    x / total * 100.0
  }

  /** The fairness index of one row under `fairnessMethod`; any other
      method keeps the index the row already had.  "difference" and "ratio"
      are 0 exactly at parity and signed by over- or under-funding;
      "proportional" lies in [0, 100] and reaches 100 exactly at parity. */
  function IndexFor(fairnessMethod: string, bs: real, ps: real, previous: real): (r: real)
    requires fairnessMethod == "proportional" || fairnessMethod == "ratio" ==> ps != 0.0
    ensures fairnessMethod == "difference" ==>
              (r == 0.0 <==> bs == ps) && (r > 0.0 <==> bs > ps)
    ensures fairnessMethod == "proportional" ==>
              0.0 <= r <= 100.0 && (ps > 0.0 ==> (r == 100.0 <==> bs == ps))
    ensures fairnessMethod == "ratio" ==>
              (r == 0.0 <==> bs == ps) && (ps > 0.0 ==> (r > 0.0 <==> bs > ps))
    ensures (fairnessMethod != "difference" && fairnessMethod != "proportional" &&
             fairnessMethod != "ratio") ==> r == previous
  {
    if fairnessMethod == "ratio" then QuotientAgainstOne(bs, ps); (bs / ps - 1.0) * 100.0
    else if fairnessMethod == "difference" then bs - ps
    else if fairnessMethod == "proportional" then Clip(Deviation(bs, ps), 0.0, 1.0) * 100.0
    else previous
  }

  /** A row after `compute_metrics`, against the given column totals: the
      input columns are kept, each share times its total is 100 times the
      value, and the ratio times the population share is the budget share. */
  function Derive(r: Row, totalBudget: real, totalPopulation: real, fairnessMethod: string): (d: Row)
    requires totalBudget != 0.0 && totalPopulation != 0.0 && r.population != 0.0
    ensures d.sector == r.sector && d.budget == r.budget && d.population == r.population
    ensures d.budgetShare * totalBudget == r.budget * 100.0
    ensures d.populationShare * totalPopulation == r.population * 100.0
    ensures d.populationShare != 0.0 && d.fairnessRatio * d.populationShare == d.budgetShare
  {
    var bs := Share(r.budget, totalBudget);
    var ps := Share(r.population, totalPopulation);
    assert bs / ps * ps == bs;
    r.(budgetShare := bs,
       populationShare := ps,
       fairnessIndex := IndexFor(fairnessMethod, bs, ps, r.fairnessIndex),
       fairnessRatio := bs / ps)
  }

  /** Shares against one total add up like the values they come from. */
  lemma ShareAdds(a: real, b: real, total: real)
    requires total != 0.0
    ensures Share(a + b, total) == Share(a, total) + Share(b, total)
  {
  }

  /** A column total is 100 percent of itself. */
  lemma ShareOfTotal(total: real)
    requires total != 0.0
    ensures Share(total, total) == 100.0
  {
    assert total / total == 1.0;
  }

  /** Comparing a quotient with 1 compares dividend and divisor. */
  lemma QuotientAgainstOne(b: real, p: real)
    requires p != 0.0
    ensures b / p == 1.0 <==> b == p
    ensures p > 0.0 ==> (b / p > 1.0 <==> b > p)
  {
    var q := b / p;
    assert q * p == b;
    assert (q - 1.0) * p == b - p;
  }

  /** The table `compute_metrics` returns: as many rows as the input, in
      the same order, with sector, budget and population untouched and the
      derived columns computed against the input's totals. */
  function Metrics(rows: seq<Row>, fairnessMethod: string): (out: seq<Row>)
    requires Computable(rows)
    ensures |out| == |rows|
    ensures forall i :: 0 <= i < |rows| ==>
              out[i].sector == rows[i].sector &&
              out[i].budget == rows[i].budget &&
              out[i].population == rows[i].population
  {
    var totalBudget := Sum(Col(rows, Budget));
    var totalPopulation := Sum(Col(rows, Population));
    seq(|rows|, i requires 0 <= i < |rows| => Derive(rows[i], totalBudget, totalPopulation, fairnessMethod))
  }

  /** `df[c].sum()`, added up row by row. */
  method ColumnSum(df: array<Row>, c: Column) returns (total: real)
    ensures total == Sum(Col(df[..], c))
  {
    total := 0.0;
    for i := 0 to df.Length
      invariant total == Sum(Col(df[..i], c))
    {
      assert Col(df[..i + 1], c)[..i] == Col(df[..i], c);
      total := total + Get(df[i], c);
    }
    assert df[..] == df[..df.Length];
  }

  /** `df['budget_share'] = df['budget'] / total_budget * 100`. */
  method AssignBudgetShare(df: array<Row>, totalBudget: real)
    requires df.Length > 0 ==> totalBudget != 0.0
    modifies df
    ensures forall k :: 0 <= k < df.Length ==>
              df[k] == old(df[k]).(budgetShare := Share(old(df[k]).budget, totalBudget))
  {
    for i := 0 to df.Length
      invariant forall k :: 0 <= k < i ==>
                  df[k] == old(df[k]).(budgetShare := Share(old(df[k]).budget, totalBudget))
      invariant forall k :: i <= k < df.Length ==> df[k] == old(df[k])
    {
      df[i] := df[i].(budgetShare := Share(df[i].budget, totalBudget));
    }
  }

  /** `df['population_share'] = df['population'] / total_population * 100`. */
  method AssignPopulationShare(df: array<Row>, totalPopulation: real)
    requires df.Length > 0 ==> totalPopulation != 0.0
    modifies df
    ensures forall k :: 0 <= k < df.Length ==>
              df[k] == old(df[k]).(populationShare := Share(old(df[k]).population, totalPopulation))
  {
    for i := 0 to df.Length
      invariant forall k :: 0 <= k < i ==>
                  df[k] == old(df[k]).(populationShare := Share(old(df[k]).population, totalPopulation))
      invariant forall k :: i <= k < df.Length ==> df[k] == old(df[k])
    {
      df[i] := df[i].(populationShare := Share(df[i].population, totalPopulation));
    }
  }

  /** The `if`/`elif` chain that assigns `df['fairness_index']` from the two
      share columns; a method other than the three named assigns nothing. */
  method AssignFairnessIndex(df: array<Row>, fairnessMethod: string)
    requires forall k :: 0 <= k < df.Length ==> df[k].populationShare != 0.0
    modifies df
    ensures forall k :: 0 <= k < df.Length ==>
              df[k] == old(df[k]).(fairnessIndex := IndexFor(fairnessMethod,
                         old(df[k]).budgetShare, old(df[k]).populationShare, old(df[k]).fairnessIndex))
  {
    if fairnessMethod == "difference" {
      AssignDifferenceIndex(df);
    } else if fairnessMethod == "proportional" {
      AssignProportionalIndex(df);
    } else if fairnessMethod == "ratio" {
      AssignRatioIndex(df);
    }
  }

  /** `df['fairness_index'] = df['budget_share'] - df['population_share']`. */
  method AssignDifferenceIndex(df: array<Row>)
    modifies df
    ensures forall k :: 0 <= k < df.Length ==>
              df[k] == old(df[k]).(fairnessIndex := old(df[k]).budgetShare - old(df[k]).populationShare)
  {
    for i := 0 to df.Length
      invariant forall k :: 0 <= k < i ==>
                  df[k] == old(df[k]).(fairnessIndex := old(df[k]).budgetShare - old(df[k]).populationShare)
      invariant forall k :: i <= k < df.Length ==> df[k] == old(df[k])
    {
      df[i] := df[i].(fairnessIndex := df[i].budgetShare - df[i].populationShare);
    }
  }

  /** `1 - |bs - ps| / ps`: the unclipped proportional deviation.  For a
      positive population share it is at most 1, and 1 exactly at parity. */
  function Deviation(bs: real, ps: real): (d: real)
    requires ps != 0.0
    ensures ps > 0.0 ==> d <= 1.0 && (d == 1.0 <==> bs == ps)
  {
    assert Abs(bs - ps) / ps * ps == Abs(bs - ps);
    1.0 - Abs(bs - ps) / ps
  }

  /** The proportional method's two passes: the raw deviation is assigned
      to `df['fairness_index']`, then clipped to [0, 1] and scaled to a
      percentage. */
  method AssignProportionalIndex(df: array<Row>)
    requires forall k :: 0 <= k < df.Length ==> df[k].populationShare != 0.0
    modifies df
    ensures forall k :: 0 <= k < df.Length ==>
              df[k] == old(df[k]).(fairnessIndex :=
                         Clip(Deviation(old(df[k]).budgetShare, old(df[k]).populationShare), 0.0, 1.0) * 100.0)
  {
    for i := 0 to df.Length
      invariant forall k :: 0 <= k < i ==>
                  df[k] == old(df[k]).(fairnessIndex := Deviation(old(df[k]).budgetShare, old(df[k]).populationShare))
      invariant forall k :: i <= k < df.Length ==> df[k] == old(df[k])
    {
      df[i] := df[i].(fairnessIndex := Deviation(df[i].budgetShare, df[i].populationShare));
    }
    for i := 0 to df.Length
      invariant forall k :: 0 <= k < i ==>
                  df[k] == old(df[k]).(fairnessIndex :=
                             Clip(Deviation(old(df[k]).budgetShare, old(df[k]).populationShare), 0.0, 1.0) * 100.0)
      invariant forall k :: i <= k < df.Length ==>
                  df[k] == old(df[k]).(fairnessIndex := Deviation(old(df[k]).budgetShare, old(df[k]).populationShare))
    {
      df[i] := df[i].(fairnessIndex := Clip(df[i].fairnessIndex, 0.0, 1.0) * 100.0);
    }
  }

  /** `df['fairness_index'] = (df['budget_share'] / df['population_share'] - 1) * 100`. */
  method AssignRatioIndex(df: array<Row>)
    requires forall k :: 0 <= k < df.Length ==> df[k].populationShare != 0.0
    modifies df
    ensures forall k :: 0 <= k < df.Length ==>
              df[k] == old(df[k]).(fairnessIndex := (old(df[k]).budgetShare / old(df[k]).populationShare - 1.0) * 100.0)
  {
    for i := 0 to df.Length
      invariant forall k :: 0 <= k < i ==>
                  df[k] == old(df[k]).(fairnessIndex := (old(df[k]).budgetShare / old(df[k]).populationShare - 1.0) * 100.0)
      invariant forall k :: i <= k < df.Length ==> df[k] == old(df[k])
    {
      df[i] := df[i].(fairnessIndex := (df[i].budgetShare / df[i].populationShare - 1.0) * 100.0);
    }
  }

  /** `df['fairness_ratio'] = df['budget_share'] / df['population_share']`. */
  method AssignFairnessRatio(df: array<Row>)
    requires forall k :: 0 <= k < df.Length ==> df[k].populationShare != 0.0
    modifies df
    ensures forall k :: 0 <= k < df.Length ==>
              df[k] == old(df[k]).(fairnessRatio := old(df[k]).budgetShare / old(df[k]).populationShare)
  {
    for i := 0 to df.Length
      invariant forall k :: 0 <= k < i ==>
                  df[k] == old(df[k]).(fairnessRatio := old(df[k]).budgetShare / old(df[k]).populationShare)
      invariant forall k :: i <= k < df.Length ==> df[k] == old(df[k])
    {
      df[i] := df[i].(fairnessRatio := df[i].budgetShare / df[i].populationShare);
    }
  }

  /** `compute_metrics(df, fairness_method)`: the two totals, then the four
      derived columns written into the caller's table.  The `astype(float)`
      conversions are the identity here, the columns being reals already. */
  method ComputeMetrics(df: array<Row>, fairnessMethod: string)
    requires Computable(df[..])
    modifies df
    ensures df[..] == Metrics(old(df[..]), fairnessMethod)
  {
    ghost var input := df[..];
    var totalBudget := ColumnSum(df, Budget);
    var totalPopulation := ColumnSum(df, Population);
    AssignBudgetShare(df, totalBudget);
    AssignPopulationShare(df, totalPopulation);
    AssignFairnessIndex(df, fairnessMethod);
    AssignFairnessRatio(df);
    forall k | 0 <= k < df.Length
      ensures df[k] == Metrics(input, fairnessMethod)[k]
    {
      assert df[k] == Derive(input[k], totalBudget, totalPopulation, fairnessMethod);
    }
  }

  /** The two shares of a computed row, against the input's totals. */
  lemma SharesAt(rows: seq<Row>, fairnessMethod: string, i: int)
    requires Computable(rows) && 0 <= i < |rows|
    ensures Metrics(rows, fairnessMethod)[i].budgetShare == Share(rows[i].budget, Sum(Col(rows, Budget)))
    ensures Metrics(rows, fairnessMethod)[i].populationShare == Share(rows[i].population, Sum(Col(rows, Population)))
  {
  }

  /** The shares of a column against a common total add up to the share
      of the column's sum. */
  lemma {:induction false} SumOfShares(xs: seq<real>, shares: seq<real>, total: real)
    requires total != 0.0 && |shares| == |xs|
    requires forall i :: 0 <= i < |xs| ==> shares[i] == Share(xs[i], total)
    ensures Sum(shares) == Share(Sum(xs), total)
  {
    if xs != [] {
      var n := |xs| - 1;
      SumOfShares(xs[..n], shares[..n], total);
      ShareAdds(Sum(xs[..n]), xs[n], total);
    }
  }

  /** The shares of a column against its own non-zero total add up to 100. */
  lemma ColumnSharesSumTo100(xs: seq<real>, shares: seq<real>)
    requires Sum(xs) != 0.0 && |shares| == |xs|
    requires forall i :: 0 <= i < |xs| ==> shares[i] == Share(xs[i], Sum(xs))
    ensures Sum(shares) == 100.0
  {
    SumOfShares(xs, shares, Sum(xs));
    ShareOfTotal(Sum(xs));
  }

  /** Every budget share is the row's budget as a percentage of the total
      budget, and the shares of a non-empty table add up to 100. */
  lemma BudgetSharesSumTo100(rows: seq<Row>, fairnessMethod: string)
    requires Computable(rows) && |rows| > 0
    ensures var out := Metrics(rows, fairnessMethod);
            (forall i :: 0 <= i < |rows| ==>
               out[i].budgetShare == rows[i].budget / Sum(Col(rows, Budget)) * 100.0) &&
            Sum(Col(out, BudgetShare)) == 100.0
  {
    var out := Metrics(rows, fairnessMethod);
    forall i | 0 <= i < |rows|
      ensures Col(out, BudgetShare)[i] == Share(Col(rows, Budget)[i], Sum(Col(rows, Budget)))
    {
      SharesAt(rows, fairnessMethod, i);
    }
    ColumnSharesSumTo100(Col(rows, Budget), Col(out, BudgetShare));
  }

  /** Every population share is the row's population as a percentage of the
      total population, and the shares of a non-empty table add up to 100. */
  lemma PopulationSharesSumTo100(rows: seq<Row>, fairnessMethod: string)
    requires Computable(rows) && |rows| > 0
    ensures var out := Metrics(rows, fairnessMethod);
            (forall i :: 0 <= i < |rows| ==>
               out[i].populationShare == rows[i].population / Sum(Col(rows, Population)) * 100.0) &&
            Sum(Col(out, PopulationShare)) == 100.0
  {
    var out := Metrics(rows, fairnessMethod);
    forall i | 0 <= i < |rows|
      ensures Col(out, PopulationShare)[i] == Share(Col(rows, Population)[i], Sum(Col(rows, Population)))
    {
      SharesAt(rows, fairnessMethod, i);
    }
    ColumnSharesSumTo100(Col(rows, Population), Col(out, PopulationShare));
  }

  /** With no negative population, every population share is positive: the
      divisor of the proportional and ratio formulas has the sign they
      assume. */
  lemma {:induction false} PopulationSharesPositive(rows: seq<Row>, fairnessMethod: string)
    requires Computable(rows)
    requires forall i :: 0 <= i < |rows| ==> rows[i].population >= 0.0
    ensures forall i :: 0 <= i < |rows| ==> Metrics(rows, fairnessMethod)[i].populationShare > 0.0
  {
    if |rows| > 0 {
      var total := Sum(Col(rows, Population));
      SumAtLeast(Col(rows, Population), 0.0);
      assert total > 0.0;
      forall i | 0 <= i < |rows|
        ensures Metrics(rows, fairnessMethod)[i].populationShare > 0.0
      {
        assert rows[i].population > 0.0;
        assert rows[i].population / total > 0.0;
      }
    }
  }

  /** Under "difference" the index is budget share minus population share:
      zero exactly at parity, positive exactly when the row is over-funded. */
  lemma DifferenceIndex(rows: seq<Row>, i: int)
    requires Computable(rows) && 0 <= i < |rows|
    ensures var r := Metrics(rows, "difference")[i];
            r.fairnessIndex == r.budgetShare - r.populationShare &&
            (r.fairnessIndex == 0.0 <==> r.budgetShare == r.populationShare) &&
            (r.fairnessIndex > 0.0 <==> r.budgetShare > r.populationShare)
  {
  }

  /** Under "proportional" the index is the clipped relative deviation as a
      percentage: always within [0, 100], and, for a positive population
      share, 100 exactly at parity. */
  lemma ProportionalIndex(rows: seq<Row>, i: int)
    requires Computable(rows) && 0 <= i < |rows|
    ensures var r := Metrics(rows, "proportional")[i];
            r.fairnessIndex ==
              Clip(1.0 - Abs(r.budgetShare - r.populationShare) / r.populationShare, 0.0, 1.0) * 100.0 &&
            0.0 <= r.fairnessIndex <= 100.0 &&
            (r.populationShare > 0.0 ==> (r.fairnessIndex == 100.0 <==> r.budgetShare == r.populationShare))
  {
    var r := Metrics(rows, "proportional")[i];
    var d := Abs(r.budgetShare - r.populationShare);
    if r.populationShare > 0.0 {
      assert d / r.populationShare * r.populationShare == d;
    }
  }

  /** Under "ratio" the index is the percentage by which budget share
      exceeds population share: zero exactly at parity and, for a positive
      population share, positive exactly when the row is over-funded. */
  lemma RatioIndex(rows: seq<Row>, i: int)
    requires Computable(rows) && 0 <= i < |rows|
    ensures var r := Metrics(rows, "ratio")[i];
            r.fairnessIndex == (r.budgetShare / r.populationShare - 1.0) * 100.0 &&
            (r.fairnessIndex == 0.0 <==> r.budgetShare == r.populationShare) &&
            (r.populationShare > 0.0 ==> (r.fairnessIndex > 0.0 <==> r.budgetShare > r.populationShare))
  {
    var r := Metrics(rows, "ratio")[i];
    QuotientAgainstOne(r.budgetShare, r.populationShare);
  }

  /** Whatever the method, the fairness ratio is budget share over
      population share, and it is 1 exactly at parity. */
  lemma FairnessRatioParity(rows: seq<Row>, fairnessMethod: string, i: int)
    requires Computable(rows) && 0 <= i < |rows|
    ensures var r := Metrics(rows, fairnessMethod)[i];
            r.fairnessRatio == r.budgetShare / r.populationShare &&
            (r.fairnessRatio == 1.0 <==> r.budgetShare == r.populationShare)
  {
    var r := Metrics(rows, fairnessMethod)[i];
    QuotientAgainstOne(r.budgetShare, r.populationShare);
  }

  /** Under "difference" the indices of a non-empty table sum to the budget
      shares' 100 minus the population shares' 100, that is, to 0. */
  lemma DifferenceIndicesSumToZero(rows: seq<Row>)
    requires Computable(rows) && |rows| > 0
    ensures Sum(Col(Metrics(rows, "difference"), FairnessIndex)) == 0.0
  {
    var out := Metrics(rows, "difference");
    BudgetSharesSumTo100(rows, "difference");
    PopulationSharesSumTo100(rows, "difference");
    forall i | 0 <= i < |out|
      ensures Col(out, FairnessIndex)[i] == Col(out, BudgetShare)[i] - Col(out, PopulationShare)[i]
    {
      DifferenceIndex(rows, i);
    }
    SumDifference(Col(out, BudgetShare), Col(out, PopulationShare), Col(out, FairnessIndex));
  }

  /** A method other than the three named leaves every fairness index as it
      was (the shares and the ratio are still recomputed). */
  lemma UnknownMethodKeepsIndex(rows: seq<Row>, fairnessMethod: string)
    requires Computable(rows)
    requires fairnessMethod != "difference" && fairnessMethod != "proportional" && fairnessMethod != "ratio"
    ensures Col(Metrics(rows, fairnessMethod), FairnessIndex) == Col(rows, FairnessIndex)
  {
  }

  /** Recomputing on the output, its budget and population untouched, gives
      back the same table: the second `compute_metrics` in `main` changes
      nothing unless the user edited the table in between. */
  lemma MetricsIdempotent(rows: seq<Row>, fairnessMethod: string)
    requires Computable(rows)
    ensures Computable(Metrics(rows, fairnessMethod))
    ensures Metrics(Metrics(rows, fairnessMethod), fairnessMethod) == Metrics(rows, fairnessMethod)
  {
    var out := Metrics(rows, fairnessMethod);
    assert Col(out, Budget) == Col(rows, Budget);
    assert Col(out, Population) == Col(rows, Population);
  }

  /** Two sectors with equal budgets and populations are each at parity:
      shares of 50, a difference index of 0 and a ratio of 1. */
  lemma DifferenceExample()
    ensures var rows := [Row("Health", 500.0, 1000.0, 0.0, 0.0, 0.0, 0.0),
                         Row("Education", 500.0, 1000.0, 0.0, 0.0, 0.0, 0.0)];
            Computable(rows) &&
            var out := Metrics(rows, "difference");
            forall i :: 0 <= i < 2 ==>
              out[i].budgetShare == 50.0 && out[i].populationShare == 50.0 &&
              out[i].fairnessIndex == 0.0 && out[i].fairnessRatio == 1.0
  {
    var rows := [Row("Health", 500.0, 1000.0, 0.0, 0.0, 0.0, 0.0),
                 Row("Education", 500.0, 1000.0, 0.0, 0.0, 0.0, 0.0)];
    assert Col(rows, Budget) == [500.0, 500.0];
    assert Col(rows, Population) == [1000.0, 1000.0];
    SumOfTwo(500.0, 500.0);
    SumOfTwo(1000.0, 1000.0);
  }

  /** Shares of 80 against 20 give a ratio index of 300; 20 against 80
      give -75. */
  lemma RatioExample()
    ensures var rows := [Row("A", 80.0, 20.0, 0.0, 0.0, 0.0, 0.0),
                         Row("B", 20.0, 80.0, 0.0, 0.0, 0.0, 0.0)];
            Computable(rows) &&
            var out := Metrics(rows, "ratio");
            out[0].budgetShare == 80.0 && out[0].populationShare == 20.0 && out[0].fairnessIndex == 300.0 &&
            out[1].budgetShare == 20.0 && out[1].populationShare == 80.0 && out[1].fairnessIndex == -75.0
  {
    var rows := [Row("A", 80.0, 20.0, 0.0, 0.0, 0.0, 0.0),
                 Row("B", 20.0, 80.0, 0.0, 0.0, 0.0, 0.0)];
    assert Col(rows, Budget) == [80.0, 20.0];
    assert Col(rows, Population) == [20.0, 80.0];
    SumOfTwo(80.0, 20.0);
    SumOfTwo(20.0, 80.0);
  }
}
