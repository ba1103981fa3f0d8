/**
 * The flow aggregation behind the chart page: from the income and expense
 * dicts of one period, the totals, the balance and the four Sankey arrays
 * (node labels, and per edge its source node, target node and weight).
 */
module Flow {
  import opened Dicts
  import opened Config

  /** What the chart page shows for one period. */
  datatype Chart = Chart(
    totalIncome: int,
    totalExpense: int,
    balance: int,
    labels: seq<string>,
    source: seq<int>,
    target: seq<int>,
    value: seq<int>)

  /** Python's `sum` over a list of ints. */
  function Sum(xs: seq<int>): int {
    if xs == [] then 0 else xs[0] + Sum(xs[1..])
  }

  lemma {:induction false} SumAppend(a: seq<int>, b: seq<int>)
    ensures Sum(a + b) == Sum(a) + Sum(b)
  {
    if a != [] {
      assert (a + b)[1..] == a[1..] + b;
      SumAppend(a[1..], b);
    } else {
      assert a + b == b;
    }
  }

  lemma {:induction false} SumNonNegative(xs: seq<int>)
    requires forall i :: 0 <= i < |xs| ==> xs[i] >= 0
    ensures Sum(xs) >= 0
  {
    if xs != [] {
      SumNonNegative(xs[1..]);
    }
  }

  /** `list(range(n))`. */
  function Range(n: nat): (r: seq<int>)
    ensures |r| == n && forall i :: 0 <= i < n ==> r[i] == i
  {
    seq(n, i requires 0 <= i < n => i)
  }

  /** `[x] * n`. */
  function Repeat(x: int, n: nat): (r: seq<int>)
    ensures |r| == n && forall i :: 0 <= i < n ==> r[i] == x
  {
    seq(n, i requires 0 <= i < n => x)
  }

  /** `labels`: income names, then the hub, then expense names. */
  function Labels(incomes: Dict, expenses: Dict): seq<string> {
    Keys(incomes) + [Hub] + Keys(expenses)
  }

  /**
   * Totals, balance and Sankey arrays of one period. The target of an
   * expense edge is found with `labels.index` on the expense's name.
   */
  function Aggregate(incomes: Dict, expenses: Dict): (c: Chart)
    ensures |c.labels| == |incomes| + 1 + |expenses|
    ensures |c.source| == |c.target| == |c.value| == |incomes| + |expenses|
    ensures forall k :: 0 <= k < |c.source| ==> 0 <= c.source[k] < |c.labels|
    ensures forall k :: 0 <= k < |c.target| ==> 0 <= c.target[k] < |c.labels|
    ensures c.balance == c.totalIncome - c.totalExpense
  {
    var n := |incomes|;
    var labels := Labels(incomes, expenses);
    var totalIncome := Sum(Values(incomes));
    var totalExpense := Sum(Values(expenses));
    var source := Range(n) + Repeat(n, |expenses|);
    var expenseTargets := seq(|expenses|, j requires 0 <= j < |expenses| =>
      assert labels[n + 1 + j] == expenses[j].name;
      IndexOf(labels, expenses[j].name));
    var target := Repeat(n, n) + expenseTargets;
    var value := Values(incomes) + Values(expenses);
    Chart(totalIncome, totalExpense, totalIncome - totalExpense, labels, source, target, value)
  }

  /** Node order: incomes in declared order, the hub at `len(incomes)`, then expenses in declared order. */
  lemma LabelLayout(incomes: Dict, expenses: Dict)
    ensures var c := Aggregate(incomes, expenses);
      && (forall i :: 0 <= i < |incomes| ==> c.labels[i] == incomes[i].name)
      && c.labels[|incomes|] == Hub
      && (forall j :: 0 <= j < |expenses| ==> c.labels[|incomes| + 1 + j] == expenses[j].name)
  {
  }

  /**
   * Edge layout when the labels are pairwise different: income edge `i`
   * runs from node `i` to the hub, expense edge `k = n + j` from the hub
   * to node `k + 1 = n + 1 + j`, and every edge carries its category's amount, zero
   * amounts included.
   */
  lemma EdgeLayout(incomes: Dict, expenses: Dict)
    requires Distinct(Labels(incomes, expenses))
    ensures var c, n := Aggregate(incomes, expenses), |incomes|;
      && (forall i :: 0 <= i < n ==>
            c.source[i] == i && c.target[i] == n && c.value[i] == incomes[i].amount)
      && (forall k :: n <= k < n + |expenses| ==>
            c.source[k] == n && c.target[k] == k + 1 && c.value[k] == expenses[k - n].amount)
  {
    var c, n := Aggregate(incomes, expenses), |incomes|;
    var labels := Labels(incomes, expenses);
    forall k | n <= k < n + |expenses|
      ensures c.target[k] == k + 1
    {
      assert labels[k + 1] == expenses[k - n].name;
      IndexOfDistinct(labels, k + 1);
    }
  }

  /** The income edges weigh `total_income` in all and the expense edges `total_expense`. */
  lemma EdgeWeights(incomes: Dict, expenses: Dict)
    ensures var c, n := Aggregate(incomes, expenses), |incomes|;
      && Sum(c.value[..n]) == c.totalIncome
      && Sum(c.value[n..]) == c.totalExpense
      && Sum(c.value) == c.totalIncome + c.totalExpense
  {
    var c, n := Aggregate(incomes, expenses), |incomes|;
    assert c.value[..n] == Values(incomes);
    assert c.value[n..] == Values(expenses);
    SumAppend(Values(incomes), Values(expenses));
  }

  /** With amounts entered as non-negative numbers, both totals are non-negative; the balance may still be negative. */
  lemma TotalsNonNegative(incomes: Dict, expenses: Dict)
    requires forall i :: 0 <= i < |incomes| ==> incomes[i].amount >= 0
    requires forall j :: 0 <= j < |expenses| ==> expenses[j].amount >= 0
    ensures Aggregate(incomes, expenses).totalIncome >= 0
    ensures Aggregate(incomes, expenses).totalExpense >= 0
  {
    SumNonNegative(Values(incomes));
    SumNonNegative(Values(expenses));
  }

  /**
   * The total weight of the edges whose end in `ends` is `node`: given the
   * targets, the flow into `node`; given the sources, the flow out of it.
   */
  function FlowAt(ends: seq<int>, value: seq<int>, node: int): int
    requires |ends| == |value|
  {
    if ends == [] then 0
    else (if ends[0] == node then value[0] else 0) + FlowAt(ends[1..], value[1..], node)
  }

  lemma {:induction false} FlowAtAppend(t1: seq<int>, v1: seq<int>, t2: seq<int>, v2: seq<int>, node: int)
    requires |t1| == |v1| && |t2| == |v2|
    ensures FlowAt(t1 + t2, v1 + v2, node) == FlowAt(t1, v1, node) + FlowAt(t2, v2, node)
  {
    if t1 != [] {
      assert (t1 + t2)[1..] == t1[1..] + t2;
      assert (v1 + v2)[1..] == v1[1..] + v2;
      FlowAtAppend(t1[1..], v1[1..], t2, v2, node);
    } else {
      assert t1 + t2 == t2 && v1 + v2 == v2;
    }
  }

  /** Edges that all meet `node` carry their whole weight there; edges that all miss it carry nothing. */
  lemma {:induction false} FlowAtUniform(ends: seq<int>, value: seq<int>, node: int)
    requires |ends| == |value|
    ensures (forall k :: 0 <= k < |ends| ==> ends[k] == node) ==> FlowAt(ends, value, node) == Sum(value)
    ensures (forall k :: 0 <= k < |ends| ==> ends[k] != node) ==> FlowAt(ends, value, node) == 0
  {
    if ends != [] {
      FlowAtUniform(ends[1..], value[1..], node);
    }
  }

  /**
   * Conservation at the hub: what flows into the hub is `total_income`,
   * what flows out of it (into the edges it is the source of) is
   * `total_expense`, so the balance is inflow minus outflow.
   */
  lemma HubConservation(incomes: Dict, expenses: Dict)
    requires Distinct(Labels(incomes, expenses))
    ensures var c, n := Aggregate(incomes, expenses), |incomes|;
      && FlowAt(c.target, c.value, n) == c.totalIncome
      && FlowAt(c.source, c.value, n) == c.totalExpense
      && c.balance == FlowAt(c.target, c.value, n) - FlowAt(c.source, c.value, n)
  {
    var c, n := Aggregate(incomes, expenses), |incomes|;
    EdgeLayout(incomes, expenses);
    var vi, ve := Values(incomes), Values(expenses);
    assert c.value == vi + ve;
    var ti, te := c.target[..n], c.target[n..];
    assert c.target == ti + te;
    FlowAtUniform(ti, vi, n);
    FlowAtUniform(te, ve, n);
    FlowAtAppend(ti, vi, te, ve, n);
    var si, se := c.source[..n], c.source[n..];
    assert c.source == si + se;
    FlowAtUniform(si, vi, n);
    FlowAtUniform(se, ve, n);
    FlowAtAppend(si, vi, se, ve, n);
  }
}
