/**
 Worked examples of the store, stated for every pair of clock readings.
 */
module Scenarios {
  import opened Types
  import opened TimeIds
  import opened Collection
  import opened Finance

  const Rent := NeedDraft("Rent", 1200, Housing, High, None, false)
  const Concert := WantDraft("Concert", 150, Entertainment, Medium, None, false, 50)

  /**
   Adding an unpaid rent of 1200 raises the needs total but not the paid part;
   marking it paid then moves the full 1200 into needsPaid.
   */
  lemma RentScenario(t1: Timestamp, t2: Timestamp)
    ensures var s1 := AddNeed(Empty, Rent, t1);
      var s2 := UpdateNeed(s1, TimeId(t1), NeedPatch(None, None, None, None, None, Some(true), None), t2);
      && Summarize(s1).totalNeeds == 1200
      && Summarize(s1).needsPaid == 0
      && Summarize(s2).totalNeeds == 1200
      && Summarize(s2).needsPaid == 1200
      && Summarize(s2).remainingBudget == -1200
  {
    var s1 := AddNeed(Empty, Rent, t1);
    var p := NeedPatch(None, None, None, None, None, Some(true), None);
    var s2 := UpdateNeed(s1, TimeId(t1), p, t2);
    assert IsFirstMatch(s1.needs, NeedId, TimeId(t1), 0);
    assert s2.needs == [PatchNeed(s1.needs[0], p, t2)];
    assert Filter(s1.needs, NeedIsPaid) == [];
    assert Filter(s2.needs, NeedIsPaid) == s2.needs;
    assert Sum(s1.needs, NeedAmount) == 1200 + Sum(s1.needs[1..], NeedAmount);
    assert Sum(s2.needs, NeedAmount) == 1200 + Sum(s2.needs[1..], NeedAmount);
  }

  /** wantsSaved counts the 50 already saved, whatever isSaved says and whatever the price. */
  lemma ConcertScenario(t1: Timestamp, t2: Timestamp, saved: bool)
    ensures var s1 := AddWant(Empty, Concert, t1);
      var s2 := UpdateWant(s1, TimeId(t1), WantPatch(None, None, None, None, None, Some(saved), None, None), t2);
      && Summarize(s1).wantsSaved == 50
      && Summarize(s1).totalWants == 150
      && Summarize(s2).wantsSaved == 50
  {
    var s1 := AddWant(Empty, Concert, t1);
    var p := WantPatch(None, None, None, None, None, Some(saved), None, None);
    var s2 := UpdateWant(s1, TimeId(t1), p, t2);
    assert IsFirstMatch(s1.wants, WantId, TimeId(t1), 0);
    assert s2.wants == [PatchWant(s1.wants[0], p, t2)];
    assert Sum(s1.wants, WantSavedAmount) == 50 + Sum(s1.wants[1..], WantSavedAmount);
    assert Sum(s2.wants, WantSavedAmount) == 50 + Sum(s2.wants[1..], WantSavedAmount);
    assert Sum(s1.wants, WantAmount) == 150 + Sum(s1.wants[1..], WantAmount);
  }

  /**
   The update stamps whatever the clock reads: an earlier reading than the
   record's creation yields an updatedAt before its createdAt.
   */
  lemma UpdatedAtFollowsTheClock(d: BudgetDraft, t1: Timestamp, t2: Timestamp)
    requires t2 < t1
    ensures var s := UpdateBudget(AddBudget(Empty, d, t1), TimeId(t1), BudgetPatch(None, None, None, None, None), t2);
      s.budgets[0].updatedAt < s.budgets[0].createdAt
  {
    var s1 := AddBudget(Empty, d, t1);
    assert IsFirstMatch(s1.budgets, BudgetId, TimeId(t1), 0);
  }
}
