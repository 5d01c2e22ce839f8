/**
 * The stat cards above the charts: which cards appear for a summary, in
 * which order, and the operational rate and faulty count derived from the
 * status distribution.
 *
 * JavaScript truthiness decides two of the cards: an efficiency or runtime
 * average of 0 or NaN is falsy and hides its card, while the cost card only
 * needs the average to be present (so a cost of 0 or NaN is shown).
 */
module StatsCards {
  import opened Common
  import opened Numbers
  import opened Equipment
  import opened MockData

  /** One card of the row; the value is the number the card displays. */
  datatype StatCard =
    | TotalCard(count: nat)
    | CostCard(cost: Mean)
    | EfficiencyCard(efficiency: Tenths)
    | RuntimeCard(runtime: Tenths)

  function Label(c: StatCard): string {
    match c
    case TotalCard(_) => "Total Equipment"
    case CostCard(_) => "Avg. Cost"
    case EfficiencyCard(_) => "Avg. Efficiency"
    case RuntimeCard(_) => "Avg. Runtime"
  }

  /** The position of a card's kind in the fixed order total, cost, efficiency, runtime. */
  function Rank(c: StatCard): nat {
    match c
    case TotalCard(_) => 0
    case CostCard(_) => 1
    case EfficiencyCard(_) => 2
    case RuntimeCard(_) => 3
  }

  /** A number is truthy when it is neither 0 nor NaN. */
  predicate Truthy(m: Option<Mean>) {
    m.Some? && m.value.Mean? && m.value.tenths != 0
  }

  /**
   * The list the component builds by conditional pushes. The total card comes
   * first; then, in this order, the cost card whenever the cost average is
   * present, and the efficiency and runtime cards whenever their averages are
   * truthy. The cards are in rank order, so there is at most one of each.
   */
  method BuildStats(s: DataSummary) returns (stats: seq<StatCard>)
    ensures CardsFor(s, stats)
  {
    var cost := if s.averages.cost.Some? then [CostCard(s.averages.cost.value)] else [];
    var efficiency := if Truthy(s.averages.efficiencyRating)
      then [EfficiencyCard(s.averages.efficiencyRating.value.tenths)] else [];
    var runtime := if Truthy(s.averages.runtimeHours)
      then [RuntimeCard(s.averages.runtimeHours.value.tenths)] else [];
    stats := [];
    stats := stats + [TotalCard(s.totalCount)];
    if s.averages.cost.Some? {
      stats := stats + [CostCard(s.averages.cost.value)];
    }
    if Truthy(s.averages.efficiencyRating) {
      stats := stats + [EfficiencyCard(s.averages.efficiencyRating.value.tenths)];
    }
    if Truthy(s.averages.runtimeHours) {
      stats := stats + [RuntimeCard(s.averages.runtimeHours.value.tenths)];
    }
    assert stats == [TotalCard(s.totalCount)] + cost + efficiency + runtime;
    CardsInRankOrder(s, cost, efficiency, runtime);
    CardsPresent(s, cost, efficiency, runtime);
  }

  /**
   * The cards a summary shows: one to four of them, the total card first and
   * the rest in rank order; the cost card exactly when the cost average is
   * present, the efficiency and runtime cards exactly when their averages
   * are truthy, each carrying its average.
   */
  ghost predicate CardsFor(s: DataSummary, stats: seq<StatCard>) {
    && 1 <= |stats| <= 4 && stats[0] == TotalCard(s.totalCount)
    && (forall i, j :: 0 <= i < j < |stats| ==> Rank(stats[i]) < Rank(stats[j]))
    && (forall m :: CostCard(m) in stats <==> s.averages.cost == Some(m))
    && (forall t :: EfficiencyCard(t) in stats <==> Truthy(s.averages.efficiencyRating) && s.averages.efficiencyRating.value.tenths == t)
    && (forall t :: RuntimeCard(t) in stats <==> Truthy(s.averages.runtimeHours) && s.averages.runtimeHours.value.tenths == t)
    && (forall n :: TotalCard(n) in stats <==> n == s.totalCount)
  }

  lemma CardsInRankOrder(s: DataSummary, cost: seq<StatCard>, efficiency: seq<StatCard>, runtime: seq<StatCard>)
    requires cost == if s.averages.cost.Some? then [CostCard(s.averages.cost.value)] else []
    requires efficiency == if Truthy(s.averages.efficiencyRating)
      then [EfficiencyCard(s.averages.efficiencyRating.value.tenths)] else []
    requires runtime == if Truthy(s.averages.runtimeHours)
      then [RuntimeCard(s.averages.runtimeHours.value.tenths)] else []
    ensures var stats := [TotalCard(s.totalCount)] + cost + efficiency + runtime;
      && 1 <= |stats| <= 4 && stats[0] == TotalCard(s.totalCount)
      && (forall i, j :: 0 <= i < j < |stats| ==> Rank(stats[i]) < Rank(stats[j]))
  {
    var stats := [TotalCard(s.totalCount)] + cost + efficiency + runtime;
    forall i, j | 0 <= i < j < |stats| ensures Rank(stats[i]) < Rank(stats[j]) {
      var ce := |cost| + 1;
      var ee := ce + |efficiency|;
      assert i == 0 || (i < ce && stats[i] == cost[0]) || (ce <= i < ee && stats[i] == efficiency[0]);
      assert (j < ce && stats[j] == cost[0]) || (ce <= j < ee && stats[j] == efficiency[0])
        || (ee <= j && stats[j] == runtime[0]);
    }
  }

  lemma CardsPresent(s: DataSummary, cost: seq<StatCard>, efficiency: seq<StatCard>, runtime: seq<StatCard>)
    requires cost == if s.averages.cost.Some? then [CostCard(s.averages.cost.value)] else []
    requires efficiency == if Truthy(s.averages.efficiencyRating)
      then [EfficiencyCard(s.averages.efficiencyRating.value.tenths)] else []
    requires runtime == if Truthy(s.averages.runtimeHours)
      then [RuntimeCard(s.averages.runtimeHours.value.tenths)] else []
    ensures var stats := [TotalCard(s.totalCount)] + cost + efficiency + runtime;
      && (forall m :: CostCard(m) in stats <==> s.averages.cost == Some(m))
      && (forall t :: EfficiencyCard(t) in stats <==> Truthy(s.averages.efficiencyRating) && s.averages.efficiencyRating.value.tenths == t)
      && (forall t :: RuntimeCard(t) in stats <==> Truthy(s.averages.runtimeHours) && s.averages.runtimeHours.value.tenths == t)
      && (forall n :: TotalCard(n) in stats <==> n == s.totalCount)
  {
    var stats := [TotalCard(s.totalCount)] + cost + efficiency + runtime;
    assert forall c :: c in stats <==> c == TotalCard(s.totalCount) || c in cost || c in efficiency || c in runtime;
  }

  /** `status_distribution.operational || 0`, and likewise for "faulty". */
  function StatusCount(s: DataSummary, status: string): (n: nat)
    ensures status !in s.statusDistribution ==> n == 0
    ensures status in s.statusDistribution ==> n == s.statusDistribution[status]
  {
    if status in s.statusDistribution then s.statusDistribution[status] else 0
  }

  /**
   * `Math.round(operational / total * 100)`, and 0 when there are no records.
   * The rate is never negative, and at most 100 while the operational count
   * does not exceed the total.
   */
  function OperationalRate(s: DataSummary): (rate: int)
    ensures s.totalCount == 0 ==> rate == 0
    ensures s.totalCount > 0 ==> IsRoundHalfUp(rate, 100 * StatusCount(s, "operational"), s.totalCount)
    ensures rate >= 0
    ensures StatusCount(s, "operational") <= s.totalCount ==> rate <= 100
  {
    var total := s.totalCount;
    if total > 0 then
      var op := StatusCount(s, "operational");
      PercentBounds(op, total);
      RoundHalfUp(100 * op, total)
    else 0
  }

  lemma PercentBounds(op: nat, total: nat)
    requires total > 0
    ensures RoundHalfUp(100 * op, total) >= 0
    ensures op <= total ==> RoundHalfUp(100 * op, total) <= 100
  {
    var a := 100 * op;
    assert total * 0 <= a;
    if op <= total {
      assert a <= total * 100;
      RoundHalfUpBounds(a, total, 0, 100);
    } else {
      var q := RoundHalfUp(a, total);
      if q < 0 {
        MulAtLeast(total, -q);
      }
    }
  }

  /** `faulty || 0`. */
  function FaultyCount(s: DataSummary): nat {
    StatusCount(s, "faulty")
  }

  /**
   * For a summary computed from records, the rate is the share of records
   * whose status is "operational", rounded half up to a whole percentage, so
   * it lies in [0, 100]; the faulty count is the number of faulty records.
   */
  lemma {:induction false} RateOfSummarizedRecords(rs: seq<EquipmentRecord>)
    ensures var s := Summarize(rs);
      && 0 <= OperationalRate(s) <= 100
      && (|rs| > 0 ==> OperationalRate(s) == RoundHalfUp(100 * Occurrences(rs, ByStatus, "operational"), |rs|))
      && FaultyCount(s) == Occurrences(rs, ByStatus, "faulty")
  {
    var s := Summarize(rs);
    HistogramCounts(rs, ByStatus, "operational");
    HistogramCounts(rs, ByStatus, "faulty");
    var values := CategoryValues(rs, ByStatus);
    assert multiset(values)["operational"] <= |multiset(values)|;
  }

  /** What the component renders. */
  datatype StatsView = Placeholders(count: nat) | Cards(cards: seq<StatCard>)

  /** Four placeholder cards while there is no summary, otherwise the built cards. */
  method Render(summary: Option<DataSummary>) returns (view: StatsView)
    ensures summary.None? ==> view == Placeholders(4)
    ensures summary.Some? ==> view.Cards? && CardsFor(summary.value, view.cards)
  {
    if summary.None? {
      view := Placeholders(4);
    } else {
      var stats := BuildStats(summary.value);
      view := Cards(stats);
    }
  }
}
