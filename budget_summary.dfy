/** The summary cards above the budget table: the overall card and one card per category. */
module BudgetSummary {
  import opened Lists
  import opened Progress

  datatype CategorySummary = CategorySummary(category: string, limit: real, spent: real, color: string)

  function LimitOf(s: CategorySummary): real { s.limit }

  function SpentOf(s: CategorySummary): real { s.spent }

  function TotalLimit(summaries: seq<CategorySummary>): real {
    SumOf(summaries, LimitOf)
  }

  function TotalSpent(summaries: seq<CategorySummary>): real {
    SumOf(summaries, SpentOf)
  }

  /** `totalProgress`: all spending as a percentage of all limits. */
  function TotalProgress(summaries: seq<CategorySummary>): real {
    Percent(TotalSpent(summaries), TotalLimit(summaries))
  }

  /** A card's `progress`. */
  function CardProgress(s: CategorySummary): real {
    Percent(s.spent, s.limit)
  }

  /** A card is drawn in red when its progress passes 100. */
  predicate CardIsOver(s: CategorySummary) {
    CardProgress(s) > 100.0
  }

  /**
   * A card with a positive limit is over exactly when more than the limit
   * was spent; a card without one shows 0% and is never over. Its bar never
   * passes 100.
   */
  lemma CardIsOverIff(s: CategorySummary)
    ensures s.limit <= 0.0 ==> CardProgress(s) == 0.0 && !CardIsOver(s)
    ensures s.limit > 0.0 ==> (CardIsOver(s) <==> s.spent > s.limit)
    ensures BarWidth(CardProgress(s)) <= 100.0
  {
    PercentSpec(s.spent, s.limit);
  }

  /** The overall card likewise: 0% without a positive total limit, over exactly when the totals are. */
  lemma TotalProgressSpec(summaries: seq<CategorySummary>)
    ensures TotalLimit(summaries) <= 0.0 ==> TotalProgress(summaries) == 0.0
    ensures TotalLimit(summaries) > 0.0 ==> (TotalProgress(summaries) > 100.0 <==> TotalSpent(summaries) > TotalLimit(summaries))
    ensures BarWidth(TotalProgress(summaries)) <= 100.0
  {
    PercentSpec(TotalSpent(summaries), TotalLimit(summaries));
  }

  /** When no category spent more than its limit, neither did the whole budget. */
  lemma {:induction false} WithinLimitsOverall(summaries: seq<CategorySummary>)
    requires forall i :: 0 <= i < |summaries| ==> summaries[i].spent <= summaries[i].limit
    ensures TotalSpent(summaries) <= TotalLimit(summaries)
  {
    if summaries != [] {
      WithinLimitsOverall(summaries[1..]);
    }
  }

  /** With positive limits and no card over, the overall card is not over either. */
  lemma NoCardOverNoTotalOver(summaries: seq<CategorySummary>)
    requires forall i :: 0 <= i < |summaries| ==> summaries[i].limit > 0.0 && !CardIsOver(summaries[i])
    ensures TotalProgress(summaries) <= 100.0
  {
    forall i | 0 <= i < |summaries|
      ensures summaries[i].spent <= summaries[i].limit
    {
      CardIsOverIff(summaries[i]);
    }
    WithinLimitsOverall(summaries);
    TotalProgressSpec(summaries);
  }
}
