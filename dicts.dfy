/**
 * Python dicts keyed by category name, as the tracker builds them from the
 * form and from a fetched row. A dict keeps its insertion order, and that
 * order decides the order of the chart's nodes, so a dict is modelled as
 * the ordered list of its items.
 */
module Dicts {

  /** One item of a dict: a category name and the amount entered for it. */
  datatype Entry = Entry(name: string, amount: int)

  type Dict = seq<Entry>

  /** No value occurs twice. */
  predicate Distinct<T(==)>(s: seq<T>) {
    forall i, j :: 0 <= i < j < |s| ==> s[i] != s[j]
  }

  /** `list(d.keys())`. */
  function Keys(d: Dict): (ks: seq<string>)
    ensures |ks| == |d|
    ensures forall i :: 0 <= i < |d| ==> ks[i] == d[i].name
  {
    seq(|d|, i requires 0 <= i < |d| => d[i].name)
  }

  /** `list(d.values())`. */
  function Values(d: Dict): (vs: seq<int>)
    ensures |vs| == |d|
    ensures forall i :: 0 <= i < |d| ==> vs[i] == d[i].amount
  {
    seq(|d|, i requires 0 <= i < |d| => d[i].amount)
  }

  /** Python's `list.index`: the position of the first occurrence of `x`. */
  function IndexOf(s: seq<string>, x: string): (k: nat)
    requires x in s
    ensures k < |s| && s[k] == x
    ensures forall i :: 0 <= i < k ==> s[i] != x
  {
    if s[0] == x then 0 else 1 + IndexOf(s[1..], x)
  }

  /** In a list without repetitions the first occurrence is the only one. */
  lemma IndexOfDistinct(s: seq<string>, k: nat)
    requires Distinct(s) && k < |s|
    ensures IndexOf(s, s[k]) == k
  {
  }

  /** `d[k]`: the amount stored under key `k`. */
  function Get(d: Dict, k: string): int
    requires k in Keys(d)
  {
    d[IndexOf(Keys(d), k)].amount
  }

  /** Looking up the key of an item gives that item's amount when keys are distinct. */
  lemma GetAt(d: Dict, i: nat)
    requires Distinct(Keys(d)) && i < |d|
    ensures d[i].name in Keys(d) && Get(d, d[i].name) == d[i].amount
  {
  }

  /**
   * `{name: state[name] for name in names}`: the dict the entry form builds
   * from the widget values, which are kept under the category names.
   */
  function FromState(names: seq<string>, state: map<string, int>): (d: Dict)
    requires forall i :: 0 <= i < |names| ==> names[i] in state
    requires Distinct(names)
    ensures Keys(d) == names
    ensures forall i :: 0 <= i < |names| ==> d[i].amount == state[names[i]]
  {
    seq(|names|, i requires 0 <= i < |names| => Entry(names[i], state[names[i]]))
  }
}
