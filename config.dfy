/** The fixed settings of the tracker: the category lists, the month names and the chart's hub. */
module Config {
  import opened Dicts

  /** Income categories, in declared order. */
  const IncomeCategories: seq<string> := ["saving", "Blog", "incentives"]

  /** Expense categories, in declared order. */
  const ExpenseCategories: seq<string> :=
    ["Rent", "Utilities", "Groceries", "Fuel", "Other Expenses", "Pocket Money"]

  /** The month choices of the entry form: `calendar.month_name[1:]` in the default locale. */
  const MonthNames: seq<string> :=
    ["January", "February", "March", "April", "May", "June",
     "July", "August", "September", "October", "November", "December"]

  /** The label of the node all income flows into and all expense flows out of. */
  const Hub: string := "Total Saving"

  /** The chart labels built from the configured categories are pairwise different. */
  lemma LabelsDistinct()
    ensures Distinct(IncomeCategories + [Hub] + ExpenseCategories)
  {
  }

  /** Each category list on its own is free of repetitions, so a dict built over it has distinct keys. */
  lemma CategoriesDistinct()
    ensures Distinct(IncomeCategories) && Distinct(ExpenseCategories)
  {
  }
}
