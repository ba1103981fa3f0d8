/**
 * The `expenses` table of the tracker, held in memory: one row per saved
 * form, with the period key, the three income amounts, the six expense
 * amounts and the comment, plus the row id the database assigns.
 */
module Ledger {
  import opened Wrappers
  import opened Dicts
  import opened Config
  import opened Period
  import opened Flow

  /**
   * The columns the lookup query selects, in its column order:
   * saving, blog, incentives, rent, utilities, groceries, fuel,
   * other_expenses, pocket_money, comment.
   */
  datatype Record = Record(
    saving: int, blog: int, incentives: int,
    rent: int, utilities: int, groceries: int, fuel: int, otherExpenses: int, pocketMoney: int,
    comment: string)

  /** A row of the table: the row id, the period key and the selected columns. */
  datatype Row = Row(id: int, period: string, record: Record)

  /** A dict that has an item for each of `names`, as the insert statement indexes it. */
  predicate HasKeys(d: Dict, names: seq<string>) {
    forall i :: 0 <= i < |names| ==> names[i] in Keys(d)
  }

  /** The column values the insert statement binds, taken from the form's dicts by category name. */
  function RecordOf(incomes: Dict, expenses: Dict, comment: string): Record
    requires HasKeys(incomes, IncomeCategories) && HasKeys(expenses, ExpenseCategories)
  {
    assert IncomeCategories[0] == "saving" && IncomeCategories[0] in Keys(incomes);
    assert IncomeCategories[1] == "Blog" && IncomeCategories[1] in Keys(incomes);
    assert IncomeCategories[2] == "incentives" && IncomeCategories[2] in Keys(incomes);
    assert ExpenseCategories[0] == "Rent" && ExpenseCategories[0] in Keys(expenses);
    assert ExpenseCategories[1] == "Utilities" && ExpenseCategories[1] in Keys(expenses);
    assert ExpenseCategories[2] == "Groceries" && ExpenseCategories[2] in Keys(expenses);
    assert ExpenseCategories[3] == "Fuel" && ExpenseCategories[3] in Keys(expenses);
    assert ExpenseCategories[4] == "Other Expenses" && ExpenseCategories[4] in Keys(expenses);
    assert ExpenseCategories[5] == "Pocket Money" && ExpenseCategories[5] in Keys(expenses);
    Record(
      Get(incomes, "saving"), Get(incomes, "Blog"), Get(incomes, "incentives"),
      Get(expenses, "Rent"), Get(expenses, "Utilities"), Get(expenses, "Groceries"),
      Get(expenses, "Fuel"), Get(expenses, "Other Expenses"), Get(expenses, "Pocket Money"),
      comment)
  }

  /** The income dict rebuilt from a fetched row. */
  function IncomesOf(r: Record): (d: Dict)
    ensures Keys(d) == IncomeCategories
  {
    [Entry("saving", r.saving), Entry("Blog", r.blog), Entry("incentives", r.incentives)]
  }

  /** The expense dict rebuilt from a fetched row. */
  function ExpensesOf(r: Record): (d: Dict)
    ensures Keys(d) == ExpenseCategories
  {
    [Entry("Rent", r.rent), Entry("Utilities", r.utilities), Entry("Groceries", r.groceries),
     Entry("Fuel", r.fuel), Entry("Other Expenses", r.otherExpenses), Entry("Pocket Money", r.pocketMoney)]
  }

  /**
   * Saving and reading back map each amount to the category name it was
   * entered under: the columns stored from the form's dicts rebuild those
   * dicts exactly, together with the comment.
   */
  lemma DictsRoundTrip(incomes: Dict, expenses: Dict, comment: string)
    requires Keys(incomes) == IncomeCategories && Keys(expenses) == ExpenseCategories
    ensures HasKeys(incomes, IncomeCategories) && HasKeys(expenses, ExpenseCategories)
    ensures var rec := RecordOf(incomes, expenses, comment);
      IncomesOf(rec) == incomes && ExpensesOf(rec) == expenses && rec.comment == comment
  {
    CategoriesDistinct();
    forall i | 0 <= i < |incomes| ensures Get(incomes, incomes[i].name) == incomes[i].amount {
      GetAt(incomes, i);
    }
    forall i | 0 <= i < |expenses| ensures Get(expenses, expenses[i].name) == expenses[i].amount {
      GetAt(expenses, i);
    }
    assert Keys(incomes)[0] == "saving" && Keys(incomes)[1] == "Blog" && Keys(incomes)[2] == "incentives";
    assert Keys(expenses)[0] == "Rent" && Keys(expenses)[1] == "Utilities" && Keys(expenses)[2] == "Groceries";
    assert Keys(expenses)[3] == "Fuel" && Keys(expenses)[4] == "Other Expenses" && Keys(expenses)[5] == "Pocket Money";
    var rec := RecordOf(incomes, expenses, comment);
    assert IncomesOf(rec) == [incomes[0], incomes[1], incomes[2]] == incomes;
    assert ExpensesOf(rec) == [expenses[0], expenses[1], expenses[2], expenses[3], expenses[4], expenses[5]] == expenses;
  }

  /** The other direction: the dicts rebuilt from a row store back into the same columns. */
  lemma RecordRoundTrip(r: Record)
    ensures HasKeys(IncomesOf(r), IncomeCategories) && HasKeys(ExpensesOf(r), ExpenseCategories)
    ensures RecordOf(IncomesOf(r), ExpensesOf(r), r.comment) == r
  {
  }

  /** The periods that occur in some row. */
  ghost function PeriodsIn(rows: seq<Row>): set<string> {
    set i | 0 <= i < |rows| :: rows[i].period
  }

  /**
   * What `fetchone` may return for a `WHERE period = ?` query: nothing when
   * no row carries the period, otherwise the columns of one row that does
   * (which one is left open, as no order is requested).
   */
  ghost predicate IsFetchResult(rows: seq<Row>, period: string, result: Option<Record>) {
    match result
    case None => forall i :: 0 <= i < |rows| ==> rows[i].period != period
    case Some(rec) => exists i :: 0 <= i < |rows| && rows[i].period == period && rows[i].record == rec
  }

  /**
   * Saving a period that is not yet stored and then looking it up gives
   * back the amounts under the same category names, and the comment.
   */
  lemma InsertThenFetch(rows: seq<Row>, period: string, incomes: Dict, expenses: Dict,
                        comment: string, result: Option<Record>)
    requires Keys(incomes) == IncomeCategories && Keys(expenses) == ExpenseCategories
    requires forall k :: 0 <= k < |rows| ==> rows[k].period != period
    requires IsFetchResult(rows + [Row(|rows| + 1, period, RecordOf(incomes, expenses, comment))], period, result)
    ensures result.Some?
    ensures IncomesOf(result.value) == incomes && ExpensesOf(result.value) == expenses
    ensures result.value.comment == comment
  {
    DictsRoundTrip(incomes, expenses, comment);
    var all := rows + [Row(|rows| + 1, period, RecordOf(incomes, expenses, comment))];
    assert all[|rows|].period == period;
    assert result.Some?;
    var i :| 0 <= i < |all| && all[i].period == period && all[i].record == result.value;
    assert i == |rows|;
  }

  /**
   * Saving a period again adds a second row and leaves the first in place,
   * wherever the two rows sit, so a later lookup may return the figures of
   * either save.
   */
  lemma ResavedPeriodMayFetchOld(rows: seq<Row>, period: string, a: nat, b: nat)
    requires a < b < |rows| && rows[a].period == period && rows[b].period == period
    ensures IsFetchResult(rows, period, Some(rows[a].record))
    ensures IsFetchResult(rows, period, Some(rows[b].record))
    ensures !IsFetchResult(rows, period, None)
  {
  }

  /**
   * A sample month: income 1000 + 200 + 0 and expenses 500 + 100 + 150 + 50
   * + 0 + 0 give totals 1200 and 800, balance 400, ten nodes and nine
   * edges, the zero-weight edges included.
   */
  lemma SampleMonthChart()
    ensures var rec := Record(1000, 200, 0, 500, 100, 150, 50, 0, 0, "test");
      var c := Aggregate(IncomesOf(rec), ExpensesOf(rec));
      && c.totalIncome == 1200 && c.totalExpense == 800 && c.balance == 400
      && |c.labels| == 10 && c.labels[3] == Hub
      && c.value == [1000, 200, 0, 500, 100, 150, 50, 0, 0]
  {
    var rec := Record(1000, 200, 0, 500, 100, 150, 50, 0, 0, "test");
    var c := Aggregate(IncomesOf(rec), ExpensesOf(rec));
    assert Values(IncomesOf(rec)) == [1000, 200, 0];
    assert Values(ExpensesOf(rec)) == [500, 100, 150, 50, 0, 0];
  }

  /** Row ids 1, 2, 3, ... in row order, as the database assigns them when no row is deleted. */
  ghost predicate IdsSequential(rows: seq<Row>) {
    forall i :: 0 <= i < |rows| ==> rows[i].id == i + 1
  }

  /**
   * The `id INTEGER PRIMARY KEY` column identifies rows: ids assigned in
   * sequence are distinct, and a new row's id is larger than every
   * earlier one, so two saves of the same period stay two rows.
   */
  lemma IdsIdentifyRows(rows: seq<Row>, period: string, rec: Record)
    requires IdsSequential(rows)
    ensures forall i, j :: 0 <= i < j < |rows| ==> rows[i].id < rows[j].id
    ensures IdsSequential(rows + [Row(|rows| + 1, period, rec)])
    ensures forall i :: 0 <= i < |rows| ==> rows[i].id < |rows| + 1
  {
  }

  /** What the chart page shows for a found period: the chart and the stored comment. */
  datatype Page = Page(chart: Chart, comment: string)

  /** The table, with its rows in insertion order. */
  class Table {
    var rows: seq<Row>

    /** Row ids are assigned 1, 2, 3, ... in insertion order: rows are never deleted. */
    ghost predicate Valid()
      reads this
    {
      IdsSequential(rows)
    }

    /** `CREATE TABLE IF NOT EXISTS expenses`, on a fresh database. */
    constructor ()
      ensures Valid() && rows == []
    {
      rows := [];
    }

    /**
     * The insert statement: one more row with the period key, the nine
     * amounts in column order and the comment. Nothing is rejected, not
     * even a period that is already stored.
     */
    method Insert(period: string, incomes: Dict, expenses: Dict, comment: string)
      requires Valid()
      requires HasKeys(incomes, IncomeCategories) && HasKeys(expenses, ExpenseCategories)
      modifies this
      ensures Valid()
      ensures rows == old(rows) + [Row(|old(rows)| + 1, period, RecordOf(incomes, expenses, comment))]
    {
      IdsIdentifyRows(rows, period, RecordOf(incomes, expenses, comment));
      rows := rows + [Row(|rows| + 1, period, RecordOf(incomes, expenses, comment))];
    }

    /**
     * Submitting the entry form: the period key from the chosen year and
     * month (one of the month choices), the two dicts from the widget values kept under the category
     * names, then the insert.
     */
    method Submit(year: int, month: string, state: map<string, int>, comment: string)
      requires Valid()
      requires month in MonthNames
      requires forall i :: 0 <= i < |IncomeCategories| ==> IncomeCategories[i] in state
      requires forall i :: 0 <= i < |ExpenseCategories| ==> ExpenseCategories[i] in state
      modifies this
      ensures Valid()
      ensures |rows| == |old(rows)| + 1 && rows[..|old(rows)|] == old(rows)
      ensures var last := rows[|old(rows)|];
        && last.id == |rows|
        && last.period == PeriodKey(year, month)
        && IncomesOf(last.record) == FromState(IncomeCategories, state)
        && ExpensesOf(last.record) == FromState(ExpenseCategories, state)
        && last.record.comment == comment
    {
      CategoriesDistinct();
      var period := PeriodKey(year, month);
      var incomes := FromState(IncomeCategories, state);
      var expenses := FromState(ExpenseCategories, state);
      DictsRoundTrip(incomes, expenses, comment);
      Insert(period, incomes, expenses, comment);
    }

    /** `SELECT DISTINCT period`: every stored period exactly once, and nothing else. */
    method DistinctPeriods() returns (periods: seq<string>)
      ensures Distinct(periods)
      ensures forall p :: p in periods <==> p in PeriodsIn(rows)
    {
      periods := [];
      var i := 0;
      while i < |rows|
        invariant 0 <= i <= |rows|
        invariant Distinct(periods)
        invariant forall p :: p in periods <==> p in PeriodsIn(rows[..i])
      {
        assert rows[..i + 1] == rows[..i] + [rows[i]];
        if rows[i].period !in periods {
          periods := periods + [rows[i].period];
        }
        i := i + 1;
      }
      assert rows[..i] == rows;
    }

    /** The lookup query with `fetchone`: the columns of a row stored under `period`, or nothing. */
    method Lookup(period: string) returns (result: Option<Record>)
      ensures IsFetchResult(rows, period, result)
    {
      var i := 0;
      while i < |rows|
        invariant 0 <= i <= |rows|
        invariant forall k :: 0 <= k < i ==> rows[k].period != period
      {
        if rows[i].period == period {
          return Some(rows[i].record);
        }
        i := i + 1;
      }
      result := None;
    }

    /**
     * The chart page: look the period up, aggregate the found row's dicts
     * and show its comment, or nothing when the period is not stored.
     */
    method Plot(period: string) returns (page: Option<Page>)
      ensures page.None? <==> period !in PeriodsIn(rows)
      ensures page.Some? ==>
        (exists i :: 0 <= i < |rows| && rows[i].period == period &&
          page.value.chart == Aggregate(IncomesOf(rows[i].record), ExpensesOf(rows[i].record)) &&
          page.value.comment == rows[i].record.comment)
    {
      var result := Lookup(period);
      match result {
        case None =>
          page := None;
        case Some(rec) =>
          page := Some(Page(Aggregate(IncomesOf(rec), ExpensesOf(rec)), rec.comment));
      }
    }
  }
}
