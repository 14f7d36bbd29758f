/**
 * The insights: an ordered list built by fixed rules. First one overspend
 * note per month with a negative balance, in trend order; then a note on the
 * top category when its rounded share exceeds 50%; and when neither rule
 * fired, a single "spending is balanced" note.
 */
module Insights {
  import opened Records
  import opened Distribution
  import opened Trend

  /** Each variant carries the values its message shows. */
  datatype Insight =
    | OverspentIn(month: MonthKey, excess: real)
    | MostExpensesOn(category: string, percentage: real)
    | Balanced

  /** One overspend note per month with a negative balance, in trend order. */
  function OverspendNotes(trend: seq<MonthSummary>): (notes: seq<Insight>)
    ensures |notes| <= |trend|
    ensures forall n :: n in notes ==> n.OverspentIn? && n.excess > 0.0
    decreases |trend|
  {
    if trend == [] then []
    else
      var last := trend[|trend| - 1];
      OverspendNotes(trend[..|trend| - 1]) + (if last.balance < 0.0 then [OverspentIn(last.month, -last.balance)] else [])
  }

  /** The top-category note, when the first row's percentage is strictly above 50. */
  function DominantNote(dist: seq<Share>): seq<Insight> {
    if |dist| > 0 && dist[0].percentage > 50.0 then [MostExpensesOn(dist[0].category, dist[0].percentage)] else []
  }

  /** The insights the analysis reports. */
  function InsightsOf(trend: seq<MonthSummary>, dist: seq<Share>): seq<Insight> {
    var fired := OverspendNotes(trend) + DominantNote(dist);
    if fired == [] then [Balanced] else fired
  }

  /** The overspend notes are exactly the months with a negative balance, each with its excess. */
  lemma {:induction false} OverspendNotesExact(trend: seq<MonthSummary>)
    ensures forall n :: n in OverspendNotes(trend) <==>
      exists s :: s in trend && s.balance < 0.0 && n == OverspentIn(s.month, -s.balance)
    decreases |trend|
  {
    if trend != [] {
      var prefix := trend[..|trend| - 1];
      var last := trend[|trend| - 1];
      var mine := if last.balance < 0.0 then [OverspentIn(last.month, -last.balance)] else [];
      assert trend == prefix + [last];
      assert OverspendNotes(trend) == OverspendNotes(prefix) + mine;
      OverspendNotesExact(prefix);
      forall n ensures n in OverspendNotes(trend) <==>
        exists s :: s in trend && s.balance < 0.0 && n == OverspentIn(s.month, -s.balance)
      {
        if exists s :: s in trend && s.balance < 0.0 && n == OverspentIn(s.month, -s.balance) {
          var s :| s in trend && s.balance < 0.0 && n == OverspentIn(s.month, -s.balance);
          if s == last {
            assert n in mine;
          } else {
            assert s in prefix;
          }
        }
        if n in OverspendNotes(prefix) {
          var s :| s in prefix && s.balance < 0.0 && n == OverspentIn(s.month, -s.balance);
          assert s in trend;
        } else if n in mine {
          assert last in trend;
        }
      }
    }
  }

  /** The notes name strictly increasing months. */
  ghost predicate ChronologicalNotes(notes: seq<Insight>)
    requires forall n :: n in notes ==> n.OverspentIn?
  {
    forall i, j :: 0 <= i < j < |notes| ==> Before(notes[i].month, notes[j].month)
  }

  /** When the trend is chronological, so are the overspend notes. */
  lemma {:induction false} OverspendNotesChronological(trend: seq<MonthSummary>)
    requires forall i, j :: 0 <= i < j < |trend| ==> Before(trend[i].month, trend[j].month)
    ensures ChronologicalNotes(OverspendNotes(trend))
    decreases |trend|
  {
    if trend != [] {
      var prefix := trend[..|trend| - 1];
      var last := trend[|trend| - 1];
      var earlier := OverspendNotes(prefix);
      assert forall i :: 0 <= i < |prefix| ==> prefix[i] == trend[i];
      OverspendNotesChronological(prefix);
      if last.balance < 0.0 {
        var notes := earlier + [OverspentIn(last.month, -last.balance)];
        assert OverspendNotes(trend) == notes;
        OverspendNotesExact(prefix);
        forall i, j | 0 <= i < j < |notes| ensures Before(notes[i].month, notes[j].month) {
          if j == |earlier| {
            assert notes[i] in earlier;
            var s :| s in prefix && s.balance < 0.0 && notes[i] == OverspentIn(s.month, -s.balance);
            var k :| 0 <= k < |prefix| && prefix[k] == s;
            assert trend[k] == s && k < |trend| - 1;
            assert Before(trend[k].month, trend[|trend| - 1].month);
            assert notes[i].month == s.month && notes[j].month == last.month;
          } else {
            assert notes[i] == earlier[i] && notes[j] == earlier[j];
            assert Before(earlier[i].month, earlier[j].month);
          }
        }
      }
    }
  }

  /**
   * The list is never empty; the overspend notes come first; and the
   * top-category note is present exactly when the distribution is non-empty
   * and its first percentage exceeds 50, and then it is the last note; the
   * list holds nothing else.
   */
  lemma InsightRules(trend: seq<MonthSummary>, dist: seq<Share>)
    ensures var insights := InsightsOf(trend, dist);
      && |insights| >= 1
      && insights[..|OverspendNotes(trend)|] == OverspendNotes(trend)
      && ((exists n :: n in insights && n.MostExpensesOn?) <==> |dist| > 0 && dist[0].percentage > 50.0)
      && (|dist| > 0 && dist[0].percentage > 50.0 ==>
            insights[|insights| - 1] == MostExpensesOn(dist[0].category, dist[0].percentage))
      && (|dist| > 0 && dist[0].percentage > 50.0 ==>
            insights == OverspendNotes(trend) + [MostExpensesOn(dist[0].category, dist[0].percentage)])
      && (!(|dist| > 0 && dist[0].percentage > 50.0) && OverspendNotes(trend) != [] ==>
            insights == OverspendNotes(trend))
  {
    var notes := OverspendNotes(trend);
    var insights := InsightsOf(trend, dist);
    if |dist| > 0 && dist[0].percentage > 50.0 {
      assert insights[|insights| - 1] in insights;
    } else {
      assert insights == notes || insights == [Balanced];
    }
  }

  /**
   * The balanced note appears exactly when no month has a negative balance
   * and the top-category rule did not fire, and then it is the only note.
   */
  lemma BalancedFallback(trend: seq<MonthSummary>, dist: seq<Share>)
    ensures var insights := InsightsOf(trend, dist);
      && ((Balanced in insights) <==>
            (forall s :: s in trend ==> s.balance >= 0.0) && !(|dist| > 0 && dist[0].percentage > 50.0))
      && (Balanced in insights ==> insights == [Balanced])
  {
    var notes := OverspendNotes(trend);
    OverspendNotesExact(trend);
    if notes != [] {
      var n := notes[0];
      assert n in notes;
    }
    if (forall s :: s in trend ==> s.balance >= 0.0) {
      assert notes == [];
    } else {
      var s :| s in trend && s.balance < 0.0;
      assert OverspentIn(s.month, -s.balance) in notes;
    }
    assert Balanced !in notes;
  }

  /** The loop over the trend, appending an overspend note per month with a negative balance. */
  method OverspendPass(trend: seq<MonthSummary>) returns (notes: seq<Insight>)
    ensures notes == OverspendNotes(trend)
  {
    notes := [];
    for i := 0 to |trend|
      invariant notes == OverspendNotes(trend[..i])
    {
      if trend[i].balance < 0.0 {
        notes := notes + [OverspentIn(trend[i].month, -trend[i].balance)];
      }
      assert trend[..i + 1][..i] == trend[..i];
    }
    assert trend[..|trend|] == trend;
  }

  /**
   * Builds the list as the source does: the overspend pass, then the
   * top-category check, then the fallback.
   */
  method BuildInsights(trend: seq<MonthSummary>, dist: seq<Share>) returns (insights: seq<Insight>)
    ensures insights == InsightsOf(trend, dist)
  {
    insights := OverspendPass(trend);
    if |dist| > 0 {
      var top := dist[0];
      if top.percentage > 50.0 {
        insights := insights + [MostExpensesOn(top.category, top.percentage)];
      }
    }
    if insights == [] {
      insights := insights + [Balanced];
    }
  }
}
