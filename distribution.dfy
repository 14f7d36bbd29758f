/**
 * The expense distribution: expenses grouped by category name (an expense
 * without a category goes to "Uncategorized"), summed per category, given a
 * guarded percentage of the total expense, and sorted by amount, largest
 * first, ties keeping the order in which the categories were first met.
 */
module Distribution {
  import opened Records
  import opened Sequences
  import opened Sorting
  import opened Rounding
  import opened Totals

  /** One row of the distribution. */
  datatype Share = Share(category: string, amount: real, percentage: real)

  function ShareCategory(s: Share): string { s.category }

  function ShareAmount(s: Share): real { s.amount }

  /** The sort key: a larger amount sorts first. */
  function NegatedAmount(s: Share): real { -s.amount }

  /** Every category name some expense is grouped under. */
  ghost function CategoriesOf(expenses: seq<Expense>): set<string> {
    set e | e in expenses :: CategoryName(e)
  }

  lemma CategoriesOfAppend(expenses: seq<Expense>, e: Expense)
    ensures CategoriesOf(expenses + [e]) == CategoriesOf(expenses) + {CategoryName(e)}
  {
    assert forall x :: x in expenses + [e] <==> x in expenses || x == e;
  }

  /**
   * The category names in the order they are first met: the key order of
   * the source's dictionary of category totals.
   */
  function CategoryOrder(expenses: seq<Expense>): (names: seq<string>)
    ensures Distinct(names)
    ensures forall c :: c in names <==> c in CategoriesOf(expenses)
    decreases |expenses|
  {
    if expenses == [] then []
    else
      var prefix := expenses[..|expenses| - 1];
      var last := expenses[|expenses| - 1];
      var prior := CategoryOrder(prefix);
      var c := CategoryName(last);
      assert expenses == prefix + [last];
      CategoriesOfAppend(prefix, last);
      if c in prior then prior else prior + [c]
  }

  /** The sum of the amounts of the expenses grouped under category c. */
  function CategoryTotal(expenses: seq<Expense>, c: string): real
    decreases |expenses|
  {
    if expenses == [] then 0.0
    else
      var last := expenses[|expenses| - 1];
      CategoryTotal(expenses[..|expenses| - 1], c) + (if CategoryName(last) == c then last.amount else 0.0)
  }

  /** A category that no expense is grouped under totals zero. */
  lemma {:induction false} CategoryTotalAbsent(expenses: seq<Expense>, c: string)
    requires c !in CategoriesOf(expenses)
    ensures CategoryTotal(expenses, c) == 0.0
    decreases |expenses|
  {
    if expenses != [] {
      var prefix := expenses[..|expenses| - 1];
      var last := expenses[|expenses| - 1];
      assert expenses == prefix + [last];
      CategoriesOfAppend(prefix, last);
      CategoryTotalAbsent(prefix, c);
    }
  }

  function ShareOf(expenses: seq<Expense>, c: string, totalExpense: real): Share {
    var amount := CategoryTotal(expenses, c);
    Share(c, amount, Percent(amount, totalExpense))
  }

  /** The rows for the given category names, in that order, before sorting. */
  function SharesOf(expenses: seq<Expense>, names: seq<string>, totalExpense: real): (shares: seq<Share>)
    ensures |shares| == |names|
    decreases |names|
  {
    if names == [] then []
    else SharesOf(expenses, names[..|names| - 1], totalExpense) + [ShareOf(expenses, names[|names| - 1], totalExpense)]
  }

  lemma {:induction false} SharesOfAt(expenses: seq<Expense>, names: seq<string>, totalExpense: real)
    ensures forall i :: 0 <= i < |names| ==>
      SharesOf(expenses, names, totalExpense)[i] == ShareOf(expenses, names[i], totalExpense)
    decreases |names|
  {
    if names != [] {
      var names' := names[..|names| - 1];
      SharesOfAt(expenses, names', totalExpense);
      assert forall i :: 0 <= i < |names'| ==> names'[i] == names[i];
    }
  }

  /** The distribution the analysis reports. */
  function DistributionOf(expenses: seq<Expense>, totalExpense: real): seq<Share> {
    Sort(SharesOf(expenses, CategoryOrder(expenses), totalExpense), NegatedAmount)
  }

  /** The sum, over the given names, of each category's total. */
  function CategorySum(expenses: seq<Expense>, names: seq<string>): real
    decreases |names|
  {
    if names == [] then 0.0
    else CategorySum(expenses, names[..|names| - 1]) + CategoryTotal(expenses, names[|names| - 1])
  }

  lemma {:induction false} CategorySumStep(prefix: seq<Expense>, e: Expense, names: seq<string>)
    requires Distinct(names)
    ensures CategorySum(prefix + [e], names)
         == CategorySum(prefix, names) + (if CategoryName(e) in names then e.amount else 0.0)
    decreases |names|
  {
    var expenses := prefix + [e];
    assert expenses[..|expenses| - 1] == prefix;
    if names != [] {
      var names' := names[..|names| - 1];
      var c := names[|names| - 1];
      assert names == names' + [c];
      assert Distinct(names') by {
        forall i, j | 0 <= i < j < |names'| ensures names'[i] != names'[j] {
          assert names'[i] == names[i] && names'[j] == names[j];
        }
      }
      assert c !in names' by {
        forall i | 0 <= i < |names'| ensures names'[i] != c {
          assert names'[i] == names[i];
        }
      }
      CategorySumStep(prefix, e, names');
    }
  }

  /** Adding up every category's total gives the total expense. */
  lemma {:induction false} CategorySumIsTotal(expenses: seq<Expense>)
    ensures CategorySum(expenses, CategoryOrder(expenses)) == TotalExpense(expenses)
    decreases |expenses|
  {
    if expenses != [] {
      var prefix := expenses[..|expenses| - 1];
      var e := expenses[|expenses| - 1];
      var prior := CategoryOrder(prefix);
      var c := CategoryName(e);
      assert expenses == prefix + [e];
      CategorySumIsTotal(prefix);
      CategorySumStep(prefix, e, prior);
      if c !in prior {
        CategoryTotalAbsent(prefix, c);
        assert (prior + [c])[..|prior|] == prior;
      }
    }
  }

  lemma {:induction false} SharesSum(expenses: seq<Expense>, names: seq<string>, totalExpense: real)
    ensures SumOf(SharesOf(expenses, names, totalExpense), ShareAmount) == CategorySum(expenses, names)
    decreases |names|
  {
    if names != [] {
      var shares := SharesOf(expenses, names, totalExpense);
      var names' := names[..|names| - 1];
      SharesSum(expenses, names', totalExpense);
      assert shares[..|shares| - 1] == SharesOf(expenses, names', totalExpense);
    }
  }

  /** The category amounts of the distribution add up to the total expense. */
  lemma DistributionSum(expenses: seq<Expense>, totalExpense: real)
    ensures SumOf(DistributionOf(expenses, totalExpense), ShareAmount) == TotalExpense(expenses)
  {
    var unsorted := SharesOf(expenses, CategoryOrder(expenses), totalExpense);
    SortSum(unsorted, NegatedAmount, ShareAmount);
    SharesSum(expenses, CategoryOrder(expenses), totalExpense);
    CategorySumIsTotal(expenses);
  }

  /** Each category appears in the distribution at most once. */
  lemma DistributionCategoriesDistinct(expenses: seq<Expense>, totalExpense: real)
    ensures DistinctBy(DistributionOf(expenses, totalExpense), ShareCategory)
  {
    var names := CategoryOrder(expenses);
    var unsorted := SharesOf(expenses, names, totalExpense);
    SharesOfAt(expenses, names, totalExpense);
    assert DistinctBy(unsorted, ShareCategory) by {
      forall i, j | 0 <= i < j < |unsorted| ensures ShareCategory(unsorted[i]) != ShareCategory(unsorted[j]) {
        assert unsorted[i].category == names[i] && unsorted[j].category == names[j];
      }
    }
    SortDistinctBy(unsorted, NegatedAmount, ShareCategory);
  }

  /**
   * The rows of the distribution are exactly one row per category some
   * expense is grouped under, each carrying its category's total and that
   * total's guarded percentage.
   */
  lemma DistributionRows(expenses: seq<Expense>, totalExpense: real)
    ensures forall s :: s in DistributionOf(expenses, totalExpense) <==>
      s.category in CategoriesOf(expenses) && s == ShareOf(expenses, s.category, totalExpense)
  {
    var names := CategoryOrder(expenses);
    var unsorted := SharesOf(expenses, names, totalExpense);
    SharesOfAt(expenses, names, totalExpense);
    SortMembers(unsorted, NegatedAmount);
    forall s ensures s in unsorted <==> s.category in names && s == ShareOf(expenses, s.category, totalExpense) {
      if s in unsorted {
        var k :| 0 <= k < |unsorted| && unsorted[k] == s;
        assert s.category == names[k];
      }
      if s.category in names && s == ShareOf(expenses, s.category, totalExpense) {
        var k :| 0 <= k < |names| && names[k] == s.category;
        assert unsorted[k] == s;
      }
    }
  }

  /** An expense without a category is counted in the "Uncategorized" row. */
  lemma MissingCategoryCounted(expenses: seq<Expense>, totalExpense: real, i: nat)
    requires i < |expenses| && expenses[i].category.None?
    ensures ShareOf(expenses, Uncategorized, totalExpense) in DistributionOf(expenses, totalExpense)
  {
    assert CategoryName(expenses[i]) == Uncategorized;
    assert Uncategorized in CategoriesOf(expenses);
    DistributionRows(expenses, totalExpense);
  }

  /** Every percentage is 0 when the total expense is 0, and otherwise within rounding of the exact share. */
  lemma DistributionPercentages(expenses: seq<Expense>, totalExpense: real)
    ensures forall s :: s in DistributionOf(expenses, totalExpense) ==>
      s.amount == CategoryTotal(expenses, s.category) &&
      s.percentage == Percent(s.amount, totalExpense) &&
      (totalExpense == 0.0 ==> s.percentage == 0.0)
  {
    DistributionRows(expenses, totalExpense);
  }

  /** The rows are ordered by amount, largest first. */
  lemma DistributionDescending(expenses: seq<Expense>, totalExpense: real)
    ensures var dist := DistributionOf(expenses, totalExpense);
      forall i, j :: 0 <= i < j < |dist| ==> dist[i].amount >= dist[j].amount
  {
    var dist := DistributionOf(expenses, totalExpense);
    SortAscending(SharesOf(expenses, CategoryOrder(expenses), totalExpense), NegatedAmount);
    assert forall i, j :: 0 <= i < j < |dist| ==> NegatedAmount(dist[i]) <= NegatedAmount(dist[j]);
  }

  /**
   * Rows of equal amount keep the order in which their categories were first
   * met: for every sort key v (the negated amount), the rows carrying it come
   * out in the same order as before the sort.
   */
  lemma DistributionTiesInEncounterOrder(expenses: seq<Expense>, totalExpense: real, v: real)
    ensures KeyFilter(DistributionOf(expenses, totalExpense), NegatedAmount, v)
         == KeyFilter(SharesOf(expenses, CategoryOrder(expenses), totalExpense), NegatedAmount, v)
  {
    SortStable(SharesOf(expenses, CategoryOrder(expenses), totalExpense), NegatedAmount, v);
  }

  /**
   * The pass over the expenses: a total per category, in a dictionary whose
   * keys remember their insertion order (names).
   */
  method TallyCategories(expenses: seq<Expense>) returns (names: seq<string>, totals: map<string, real>)
    ensures names == CategoryOrder(expenses)
    ensures forall c :: c in totals <==> c in names
    ensures forall c :: c in totals ==> totals[c] == CategoryTotal(expenses, c)
  {
    names := [];
    totals := map[];
    for i := 0 to |expenses|
      invariant names == CategoryOrder(expenses[..i])
      invariant forall c :: c in totals <==> c in names
      invariant forall c :: c in totals ==> totals[c] == CategoryTotal(expenses[..i], c)
    {
      var name := CategoryName(expenses[i]);
      assert expenses[..i + 1][..i] == expenses[..i];
      if name !in totals {
        CategoryTotalAbsent(expenses[..i], name);
        names := names + [name];
      }
      var sofar := if name in totals then totals[name] else 0.0;
      totals := totals[name := sofar + expenses[i].amount];
      forall c | c in totals
        ensures totals[c] == CategoryTotal(expenses[..i + 1], c)
      {
        assert CategoryTotal(expenses[..i + 1], c)
          == CategoryTotal(expenses[..i], c) + (if name == c then expenses[i].amount else 0.0);
      }
    }
    assert expenses[..|expenses|] == expenses;
  }

  /** The pass over the dictionary's entries, in key order, turning each into a row. */
  method SharesFor(expenses: seq<Expense>, names: seq<string>, totals: map<string, real>, totalExpense: real)
    returns (shares: seq<Share>)
    requires forall c :: c in names ==> c in totals && totals[c] == CategoryTotal(expenses, c)
    ensures shares == SharesOf(expenses, names, totalExpense)
  {
    shares := [];
    for i := 0 to |names|
      invariant shares == SharesOf(expenses, names[..i], totalExpense)
    {
      var amount := totals[names[i]];
      shares := shares + [Share(names[i], amount, Percent(amount, totalExpense))];
      assert names[..i + 1][..i] == names[..i];
    }
    assert names[..|names|] == names;
  }

  /**
   * Builds the distribution as the source does: the two passes above, then a
   * stable in-place sort by amount, largest first.
   */
  method BuildDistribution(expenses: seq<Expense>, totalExpense: real) returns (dist: seq<Share>)
    ensures dist == DistributionOf(expenses, totalExpense)
  {
    var names, totals := TallyCategories(expenses);
    var shares := SharesFor(expenses, names, totals, totalExpense);
    var a := new Share[|shares|](k requires 0 <= k < |shares| => shares[k]);
    assert a[..] == shares;
    SortInPlace(a, NegatedAmount);
    dist := a[..];
  }
}
