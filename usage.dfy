/** The usage cost model and the usage ledger: a flat energy estimate per
    accepted query, its CO2 equivalent, an append-only log of accepted queries,
    and the per-user, per-day aggregate read back from that log. */
module Usage {
  import opened Wrappers

  /** A calendar day, as the database's DATE(...) and CURDATE() yield it. */
  type Day = int

  /** Flat energy estimate for one query, in kWh (0.34 Wh). */
  const EnergyPerQuery: real := 0.00034
  /** Average grid emission factor, in kg CO2 per kWh. */
  const EmissionFactor: real := 0.7

  datatype Cost = Cost(energy: real, co2: real)

  /** The cost of one accepted query; the same for every query. */
  function EstimateCost(): (c: Cost)
    ensures c.energy == EnergyPerQuery
    ensures c.co2 == c.energy * EmissionFactor
    ensures c == Cost(0.00034, 0.000238)
  {
    var energy := EnergyPerQuery;
    Cost(energy, energy * EmissionFactor)
  }

  /** One row of the query log. `day` is the calendar day of its creation time. */
  datatype Entry = Entry(username: string, query: string, response: string,
                         energy: real, co2: real, day: Day)

  /** The daily usage summary reported to the user. */
  datatype Summary = Summary(count: nat, energy: real, co2: real)

  const Zero: Summary := Summary(0, 0.0, 0.0)

  /** The row `SELECT COUNT(*), SUM(energy_kwh), SUM(co2_kg)` yields: SUM is NULL
      over no rows. */
  datatype AggregateRow = AggregateRow(count: nat, energySum: Option<real>, co2Sum: Option<real>)

  /** The entry was written with the cost model's figures. */
  predicate Costed(e: Entry) {
    e.energy == EnergyPerQuery && e.co2 == EnergyPerQuery * EmissionFactor
  }

  /** `WHERE username = u AND DATE(created_at) = d`. */
  predicate Matches(e: Entry, u: string, d: Day) {
    e.username == u && e.day == d
  }

  // ---------------------------------------------------------------------------
  // Reference definition of the aggregate: filter, then count and add up
  // ---------------------------------------------------------------------------

  /** The entries of user `u` on day `d`, in ledger order. */
  function Matching(es: seq<Entry>, u: string, d: Day): (r: seq<Entry>)
    ensures |r| <= |es|
    ensures forall e :: e in r <==> e in es && Matches(e, u, d)
  {
    if es == [] then []
    else (if Matches(es[0], u, d) then [es[0]] else []) + Matching(es[1..], u, d)
  }

  /** The filter keeps every matching row as often as it occurs and no other row,
      so equal rows (the same question asked twice on one day) each count, as
      under `COUNT(*)`. */
  lemma {:induction false} MatchingMultiplicity(es: seq<Entry>, u: string, d: Day)
    ensures forall e :: multiset(Matching(es, u, d))[e]
                        == if Matches(e, u, d) then multiset(es)[e] else 0
    decreases |es|
  {
    if es != [] {
      assert es == [es[0]] + es[1..];
      MatchingMultiplicity(es[1..], u, d);
    }
  }

  function TotalEnergy(es: seq<Entry>): real {
    if es == [] then 0.0 else es[0].energy + TotalEnergy(es[1..])
  }

  function TotalCo2(es: seq<Entry>): real {
    if es == [] then 0.0 else es[0].co2 + TotalCo2(es[1..])
  }

  // ---------------------------------------------------------------------------
  // The aggregate as the ledger computes it: one pass, row by row
  // ---------------------------------------------------------------------------

  function Tally(s: Summary, e: Entry): Summary {
    Summary(s.count + 1, s.energy + e.energy, s.co2 + e.co2)
  }

  /** Count and sums over the rows of user `u` on day `d`, folding in rows in the
      order they were written. */
  function Summarize(es: seq<Entry>, u: string, d: Day): Summary
    decreases |es|
  {
    if es == [] then Zero
    else
      var rest := Summarize(es[..|es| - 1], u, d);
      if Matches(es[|es| - 1], u, d) then Tally(rest, es[|es| - 1]) else rest
  }

  lemma {:induction false} MatchingAppend(a: seq<Entry>, b: seq<Entry>, u: string, d: Day)
    ensures Matching(a + b, u, d) == Matching(a, u, d) + Matching(b, u, d)
    decreases |a|
  {
    if a != [] {
      assert (a + b)[1..] == a[1..] + b;
      MatchingAppend(a[1..], b, u, d);
    } else {
      assert a + b == b;
    }
  }

  lemma {:induction false} TotalsAppend(a: seq<Entry>, b: seq<Entry>)
    ensures TotalEnergy(a + b) == TotalEnergy(a) + TotalEnergy(b)
    ensures TotalCo2(a + b) == TotalCo2(a) + TotalCo2(b)
    decreases |a|
  {
    if a != [] {
      assert (a + b)[1..] == a[1..] + b;
      TotalsAppend(a[1..], b);
    } else {
      assert a + b == b;
    }
  }

  /** The one-pass aggregate equals the reference: the count of the matching
      entries and the sums of their energy and CO2. */
  lemma {:induction false} SummarizeIsFilteredSum(es: seq<Entry>, u: string, d: Day)
    ensures Summarize(es, u, d).count == |Matching(es, u, d)|
    ensures Summarize(es, u, d).energy == TotalEnergy(Matching(es, u, d))
    ensures Summarize(es, u, d).co2 == TotalCo2(Matching(es, u, d))
    decreases |es|
  {
    if es != [] {
      var init, last := es[..|es| - 1], es[|es| - 1];
      assert es == init + [last];
      SummarizeIsFilteredSum(init, u, d);
      MatchingAppend(init, [last], u, d);
      assert [last][1..] == [];
      TotalsAppend(Matching(init, u, d), Matching([last], u, d));
    }
  }

  /** Appending one row adds it to the aggregate of its own user and day only. */
  lemma SummarizeAppend(es: seq<Entry>, e: Entry, u: string, d: Day)
    ensures Summarize(es + [e], u, d) == if Matches(e, u, d) then Tally(Summarize(es, u, d), e)
                                         else Summarize(es, u, d)
  {
    assert (es + [e])[..|es|] == es;
  }

  /** Isolation: a row of another user or another day never contributes, wherever
      it stands in the ledger. */
  lemma {:induction false} SummarizeIgnores(a: seq<Entry>, e: Entry, b: seq<Entry>, u: string, d: Day)
    requires !Matches(e, u, d)
    ensures Summarize(a + [e] + b, u, d) == Summarize(a + b, u, d)
    decreases |b|
  {
    if b == [] {
      assert a + [e] + b == a + [e];
      assert a + b == a;
      SummarizeAppend(a, e, u, d);
    } else {
      var init, last := b[..|b| - 1], b[|b| - 1];
      assert a + [e] + b == (a + [e] + init) + [last];
      assert a + b == (a + init) + [last];
      SummarizeIgnores(a, e, init, u, d);
      SummarizeAppend(a + [e] + init, last, u, d);
      SummarizeAppend(a + init, last, u, d);
    }
  }

  /** The zero default: the aggregate is Zero exactly when the user has no row
      that day, and then both sums are zero too. */
  lemma {:induction false} SummarizeZero(es: seq<Entry>, u: string, d: Day)
    ensures Summarize(es, u, d).count == 0 <==> forall e :: e in es ==> !Matches(e, u, d)
    ensures Summarize(es, u, d).count == 0 ==> Summarize(es, u, d) == Zero
  {
    SummarizeIsFilteredSum(es, u, d);
    if Summarize(es, u, d).count == 0 {
      assert Matching(es, u, d) == [];
    } else {
      var m := Matching(es, u, d);
      assert m[0] in m;
    }
  }

  /** With the cost model's figures on every row, the totals are the count times
      the per-query constants, and the CO2 total is the energy total times the
      emission factor. */
  lemma {:induction false} SummarizeCosted(es: seq<Entry>, u: string, d: Day)
    requires forall e :: e in es ==> Costed(e)
    ensures Summarize(es, u, d).energy == Summarize(es, u, d).count as real * EnergyPerQuery
    ensures Summarize(es, u, d).co2 == Summarize(es, u, d).energy * EmissionFactor
    decreases |es|
  {
    if es != [] {
      var init, last := es[..|es| - 1], es[|es| - 1];
      assert forall e :: e in init ==> e in es;
      SummarizeCosted(init, u, d);
      assert Costed(last);
      var s := Summarize(init, u, d);
      assert (s.count + 1) as real * EnergyPerQuery == s.count as real * EnergyPerQuery + EnergyPerQuery;
    }
  }

  /** Monotonicity: N further accepted rows of the same user and day raise the
      count by N and the totals by N times the per-query cost. */
  lemma {:induction false} SummarizeRun(es: seq<Entry>, more: seq<Entry>, u: string, d: Day)
    requires forall e :: e in more ==> Matches(e, u, d) && Costed(e)
    ensures Summarize(es + more, u, d).count == Summarize(es, u, d).count + |more|
    ensures Summarize(es + more, u, d).energy
         == Summarize(es, u, d).energy + |more| as real * EnergyPerQuery
    ensures Summarize(es + more, u, d).co2
         == Summarize(es, u, d).co2 + |more| as real * EnergyPerQuery * EmissionFactor
    decreases |more|
  {
    if more == [] {
      assert es + more == es;
    } else {
      var init, last := more[..|more| - 1], more[|more| - 1];
      assert es + more == (es + init) + [last];
      assert forall e :: e in init ==> e in more;
      SummarizeRun(es, init, u, d);
      SummarizeAppend(es + init, last, u, d);
    }
  }

  /** The totals are what the cost model gives for `count` queries. */
  predicate CostDerived(s: Summary) {
    s.energy == s.count as real * EnergyPerQuery && s.co2 == s.energy * EmissionFactor
  }

  lemma CostedStats(es: seq<Entry>, u: string, d: Day, s: Summary)
    requires forall e :: e in es ==> Costed(e)
    requires s == Summarize(es, u, d)
    ensures CostDerived(s)
  {
    SummarizeCosted(es, u, d);
  }

  // ---------------------------------------------------------------------------
  // The ledger: the query_logs table
  // ---------------------------------------------------------------------------

  class Ledger {
    /** The rows of the table, oldest first. */
    var entries: seq<Entry>

    /** Every row carries the cost model's figures. */
    ghost predicate AllCosted()
      reads this
    {
      forall e :: e in entries ==> Costed(e)
    }

    constructor ()
      ensures entries == [] && AllCosted()
    {
      entries := [];
    }

    /** `INSERT INTO query_logs (...) VALUES (...)` followed by a commit: one row is
        appended, the earlier rows are untouched. */
    method Record(username: string, query: string, response: string,
                  energy: real, co2: real, day: Day)
      modifies this
      ensures entries == old(entries) + [Entry(username, query, response, energy, co2, day)]
    {
      entries := entries + [Entry(username, query, response, energy, co2, day)];
    }

    /** The aggregate row for user `u` on day `d`: the number of that user's rows
        that day and, when there are any, the sums of their energy and CO2. */
    function DailyAggregate(u: string, d: Day): (row: AggregateRow)
      reads this
      ensures row.count == |Matching(entries, u, d)|
      ensures row.energySum.None? <==> row.count == 0
      ensures row.co2Sum.None? <==> row.count == 0
      ensures row.energySum.Some? ==> row.energySum.value == TotalEnergy(Matching(entries, u, d))
      ensures row.co2Sum.Some? ==> row.co2Sum.value == TotalCo2(Matching(entries, u, d))
    {
      SummarizeIsFilteredSum(entries, u, d);
      var s := Summarize(entries, u, d);
      if s.count == 0 then AggregateRow(0, None, None)
      else AggregateRow(s.count, Some(s.energy), Some(s.co2))
    }
  }
}
