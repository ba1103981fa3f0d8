# Savings and expense tracker: verified model of the ledger and the flow chart

The tracker is a small Streamlit page. On the entry page a user picks a month and a year, types
three income amounts, six expense amounts and a comment, and saves them as one row of the SQLite
table `expenses`, keyed by a period string such as `2024_January`. On the chart page the user picks
a stored period. The page reads that row back into an income dict and an expense dict, shows the
total income, the total expense and the balance, and draws a Sankey diagram. In the diagram every
income category flows into a hub node, "Total Saving", and the hub flows out into every expense
category.

This project models the two pieces of logic under that page:

- **The ledger table** (`ledger.dfy`, module `Ledger`). Class `Table` holds the table's rows as a
  `seq<Row>`, with methods for the insert statement, the form submission that builds the period
  key and the dicts and then inserts, the `SELECT DISTINCT period` query, the lookup by period
  with `fetchone`, and the chart page that combines lookup and aggregation and shows the
  comment. Period keys are built in `period.dfy` (module `Period`). `str(year)` is modelled as
  Python's decimal rendering of an int.
- **The flow aggregation** (`flow.dfy`, module `Flow`). These are pure functions from the two
  dicts to the totals, the balance and the four Sankey arrays `label`, `source`, `target` and
  `value`. In the model the first array is the field `labels`, because `label` is a Dafny keyword.

Supporting modules:

- `dicts.dfy` (module `Dicts`) models Python dicts as ordered item lists, because a dict's
  insertion order decides the node order. It also models `d[k]`, `list.index` and the
  comprehension that builds a dict from the form's widget values.
- `config.dfy` (module `Config`) holds the fixed category lists, the month names and the hub label.
- `wrappers.dfy` (module `Wrappers`) holds `Option`.

Two behaviours of the table are modelled as the code has them:

- the insert never checks for an existing period, so saving a period again adds a second row
  (`Ledger.Table.Insert`, `Ledger.ResavedPeriodMayFetchOld`);
- the lookup query has no `ORDER BY`, so which matching row `fetchone` returns is left open
  (`Ledger.IsFetchResult`).

## Model

| member | source | states |
|---|---|---|
| Dicts.IndexOf | app.py:184 | `label.index(x)` returns a position holding `x`, and no earlier position holds `x` |
| Dicts.IndexOfDistinct | app.py:184 | in a list without repetitions, `index` of the element at position k is k |
| Dicts.GetAt | app.py:116-118 | when a dict's keys are distinct, `d[name]` is the amount stored under that name |
| Dicts.FromState | app.py:107-108 | the dict built from the widget values has exactly the category names as keys, in list order, each with its widget's value |
| Config.LabelsDistinct | app.py:182 | the income names, "Total Saving" and the expense names are pairwise different |
| Config.CategoriesDistinct | app.py:10-12 | neither category list repeats a name |
| Period.NatToDecimal | app.py:106 | the decimal rendering of a natural number is a non-empty string of digits |
| Period.IntToDecimal | app.py:106 | `str(year)` is non-empty and holds only digits and '-' (so no '_') |
| Period.DecimalRoundTrip | app.py:106 | reading back the digits of a rendered number gives the number again |
| Period.IntToDecimalInjective | app.py:106 | different years render as different strings |
| Period.PeriodKey | app.py:106 | the key is `str(year)`, then '_' at position `len(str(year))`, then the month |
| Period.PeriodKeyInjective | app.py:106 | two (year, month) pairs get the same key if and only if they are equal, for any month text |
| Flow.SumAppend | app.py:169-170 | `sum` of a concatenation is the sum of the sums |
| Flow.SumNonNegative | app.py:169-170 | `sum` of non-negative amounts is non-negative |
| Flow.Aggregate | app.py:169-185 | `label` has len(incomes)+1+len(expenses) entries; `source`, `target` and `value` each have len(incomes)+len(expenses); every source and target is a valid node index; balance = total income - total expense |
| Flow.LabelLayout | app.py:182 | income names come first in dict order, the hub is at index len(incomes), and the expense names follow in dict order |
| Flow.EdgeLayout | app.py:183-185 | with distinct labels, income edge i runs from node i to the hub, and expense edge k = n+j runs from the hub to node k+1 = n+1+j; each edge weighs its category's amount, with zero weights kept |
| Flow.EdgeWeights | app.py:169-185 | the income edges weigh total_income in all, the expense edges total_expense, and all edges their sum |
| Flow.TotalsNonNegative | app.py:169-170 | when every amount is non-negative, as the `min_value=0` inputs at app.py:92 and app.py:96 ensure, both totals are non-negative |
| Flow.FlowAtAppend | app.py:183-185 | the weight meeting a node over two concatenated edge lists is the sum of the weights over each list |
| Flow.FlowAtUniform | app.py:183-185 | edges that all meet a node carry their whole weight there, and edges that all miss it carry nothing |
| Flow.HubConservation | app.py:182-185 | with distinct labels, the flow into the hub is total_income, the flow out of it is total_expense, and the balance is inflow minus outflow |
| Ledger.IncomesOf | app.py:161 | the income dict rebuilt from a row has the keys saving, Blog, incentives in that order |
| Ledger.ExpensesOf | app.py:162-163 | the expense dict rebuilt from a row has the six expense names in declared order as keys |
| Ledger.DictsRoundTrip | app.py:113-119 | columns stored from the form's dicts rebuild exactly those dicts and the comment on lookup |
| Ledger.RecordRoundTrip | app.py:161-164 | dicts rebuilt from a row and stored again give the same columns |
| Ledger.InsertThenFetch | app.py:151-164 | after a period not yet stored is inserted, every possible lookup result is found and gives back the same amounts under the same category names, and the same comment |
| Ledger.ResavedPeriodMayFetchOld | app.py:113-119 | when any two rows carry the same period, a lookup may return the figures of either, and never nothing |
| Ledger.IdsIdentifyRows | app.py:28 | ids assigned in sequence increase with row order, so they are distinct, and the next insert keeps them in sequence with an id above every earlier one |
| Ledger.SampleMonthChart | app.py:169-185 | a sample month gives totals 1200 and 800, balance 400, ten nodes and nine edge weights including the zeros |
| Ledger.Table.constructor | app.py:27-40 | a newly created table is empty |
| Ledger.Table.Insert | app.py:113-119 | appends exactly one row with the next id, the period, the nine amounts in column order and the comment; earlier rows are unchanged; nothing is rejected |
| Ledger.Table.Submit | app.py:105-119 | for a month from the month choices, appends one row whose key is `PeriodKey(year, month)` and whose columns give back the dicts built from the widget values, and the comment |
| Ledger.Table.DistinctPeriods | app.py:136-137 | lists every stored period exactly once and nothing else |
| Ledger.Table.Lookup | app.py:151-154 | returns the columns of some row stored under the period, or nothing exactly when no row has that period |
| Ledger.Table.Plot | app.py:145-185 | returns nothing exactly when the period is not stored; otherwise returns the aggregation of the dicts rebuilt from a row stored under that period, with that row's comment |

## Left out

- The Streamlit page is not modelled: page setup, styling, navigation, forms and widgets. The
  widget values in `st.session_state` become the `state` map parameter of `Ledger.Table.Submit`.
- SQLite is not modelled: connections, cursors, commit and durability. The table is an in-memory
  row sequence that starts empty. Rows already in an existing database file are not modelled.
- Plotly rendering is not modelled (`go.Sankey`, the figure and its layout). The model stops at
  the four arrays.
- The year choices depend on today's date, so the year is a parameter. The month names are the
  English ones of the default locale; other locales are not modelled.
- Currency suffixes and metric formatting are not modelled, because they are presentation only.
- Amounts are unbounded integers. SQLite's 64-bit `INTEGER` limit, and the error Python raises
  when binding a larger int, are not modelled.
- Non-negative amounts are not checked by the table, just as the insert statement does not check
  them. They appear only as the hypothesis of `Flow.TotalsNonNegative`, which is what the form's
  `min_value=0` guarantees.
- The not-found branch is not modelled as it runs. After showing the error, the page goes on to
  call `.values()` on the module-level category list and would raise. `Ledger.Table.Plot` returns
  `None` there instead.
- Ledger.Table.DistinctPeriods: does not state the order of the periods, because `SELECT
  DISTINCT` without `ORDER BY` leaves it unspecified. The method lists them in first-occurrence
  order.
- Ledger.Table.Lookup: does not state which matching row comes back when a period is stored
  twice, because `fetchone` without `ORDER BY` leaves it unspecified. The method returns the first
  matching row.
