/** The category bar chart of the dashboard: the empty-data placeholder, the
    largest-first ordering of the buckets, and the gradient each bar gets. */
module CategoryChart {
  import opened Base
  import Sorting
  import opened SubscriptionModel
  import opened Ledger

  /** The eight gradients, as (start colour, end colour). */
  const Gradients: seq<(string, string)> := [
    ("#8b5cf6", "#c084fc"),
    ("#6366f1", "#818cf8"),
    ("#3b82f6", "#60a5fa"),
    ("#06b6d4", "#22d3ee"),
    ("#10b981", "#34d399"),
    ("#f59e0b", "#fbbf24"),
    ("#ef4444", "#f87171"),
    ("#ec4899", "#f472b6")]

  /** `getGradientColors`: bar `index` takes the gradients in turn. */
  function GradientOf(index: nat): (g: (string, string))
    ensures g in Gradients
  {
    Gradients[index % |Gradients|]
  }

  /** The colours repeat every eight bars, and any eight consecutive bars
      have eight different gradients. */
  lemma GradientCycle(i: nat, j: nat)
    ensures GradientOf(i + 8) == GradientOf(i)
    ensures i < j < i + 8 ==> GradientOf(i) != GradientOf(j)
    ensures GradientOf(0) == ("#8b5cf6", "#c084fc")
  {
    assert (i + 8) % 8 == i % 8;
    if i < j < i + 8 {
      assert i % 8 != j % 8;
      assert forall a, b :: 0 <= a < b < 8 ==> Gradients[a].0 != Gradients[b].0;
    }
  }

  /** The sort key: a larger amount sorts first. The comparator
      `b.amount - a.amount` orders by this key. */
  function Descending(e: CategoryAmount): real {
    -e.amount
  }

  /** `[...categoryData].sort((a, b) => b.amount - a.amount)`, a stable sort
      of a copy. */
  function SortedData(data: seq<CategoryAmount>): (r: seq<CategoryAmount>)
    ensures multiset(r) == multiset(data)
    ensures forall i, j :: 0 <= i < j < |r| ==> r[i].amount >= r[j].amount
  {
    var r := Sorting.SortBy(data, Descending);
    assert forall i, j :: 0 <= i < j < |r| ==> Descending(r[i]) <= Descending(r[j]);
    r
  }

  /** Buckets with the same amount keep their input order. */
  lemma SortedDataStable(data: seq<CategoryAmount>, amount: real)
    ensures Sorting.KeyClass(SortedData(data), Descending, -amount)
         == Sorting.KeyClass(data, Descending, -amount)
  {
    Sorting.SortByStable(data, Descending, -amount);
  }

  /** One bar: its bucket and its fill. */
  datatype ChartBar = ChartBar(entry: CategoryAmount, gradient: (string, string))

  datatype Chart = Placeholder | BarChart(bars: seq<ChartBar>)

  /** `SubscriptionCategoryChart`: missing or empty data shows the
      placeholder; otherwise one bar per bucket, largest amount first, bar
      `i` filled with gradient `i mod 8`. */
  function Render(categoryData: Option<seq<CategoryAmount>>): (c: Chart)
    ensures c.Placeholder? <==> categoryData.None? || |categoryData.value| == 0
    ensures c.BarChart? ==>
      && |c.bars| == |categoryData.value|
      && multiset(seq(|c.bars|, i requires 0 <= i < |c.bars| => c.bars[i].entry)) == multiset(categoryData.value)
      && (forall i, j :: 0 <= i < j < |c.bars| ==> c.bars[i].entry.amount >= c.bars[j].entry.amount)
      && (forall i :: 0 <= i < |c.bars| ==> c.bars[i].gradient == GradientOf(i))
  {
    match categoryData
    case None => Placeholder
    case Some(data) =>
      if |data| == 0 then Placeholder
      else
        var sorted := SortedData(data);
        var bars := seq(|sorted|, i requires 0 <= i < |sorted| => ChartBar(sorted[i], GradientOf(i)));
        assert seq(|bars|, i requires 0 <= i < |bars| => bars[i].entry) == sorted;
        BarChart(bars)
  }

  /** The dashboard's chart of the analytics report: a placeholder exactly
      when the requester owns no subscription, otherwise one bar per
      category of the requester's subscriptions. */
  lemma ChartOfAnalytics(ledger: Ledger, requester: UserId)
    ensures var c := Render(Some(Analytics(ledger, requester).categoryDistribution));
      && (c.Placeholder? <==> Owned(ledger, requester) == [])
      && (c.BarChart? ==> |c.bars| == |Analytics(ledger, requester).categoryDistribution|)
  {
  }
}
