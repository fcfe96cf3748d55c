/**
 Laws of the finance store: how each action moves the summary, how delete
 undoes add, what delete and update do to absent ids, and how the first-match
 update and the all-matches delete differ once two records share an id.
 */
module FinanceLaws {
  import opened Types
  import opened TimeIds
  import opened Collection
  import opened Finance

  // ---------------------------------------------------------------------------
  // Add moves the summary by the new record's amounts.
  // ---------------------------------------------------------------------------

  lemma SummaryAfterAddBudget(s: Store, d: BudgetDraft, now: Timestamp)
    ensures var before, after := Summarize(s), Summarize(AddBudget(s, d, now));
      && after.totalBudget == before.totalBudget + d.amount
      && after.remainingBudget == before.remainingBudget + d.amount
      && after.totalNeeds == before.totalNeeds
      && after.totalWants == before.totalWants
      && after.needsPaid == before.needsPaid
      && after.wantsSaved == before.wantsSaved
  {
    var r := AddBudget(s, d, now);
    assert r.budgets == s.budgets + [r.budgets[|s.budgets|]];
    SumAppend(s.budgets, [r.budgets[|s.budgets|]], BudgetAmount);
  }

  lemma SummaryAfterAddNeed(s: Store, d: NeedDraft, now: Timestamp)
    ensures var before, after := Summarize(s), Summarize(AddNeed(s, d, now));
      && after.totalNeeds == before.totalNeeds + d.amount
      && after.remainingBudget == before.remainingBudget - d.amount
      && after.needsPaid == before.needsPaid + (if d.isPaid then d.amount else 0)
      && after.totalBudget == before.totalBudget
      && after.totalWants == before.totalWants
      && after.wantsSaved == before.wantsSaved
  {
    var r := AddNeed(s, d, now);
    var n := r.needs[|s.needs|];
    assert r.needs == s.needs + [n];
    SumAppend(s.needs, [n], NeedAmount);
    FilterAppend(s.needs, [n], NeedIsPaid);
    SumAppend(Filter(s.needs, NeedIsPaid), Filter([n], NeedIsPaid), NeedAmount);
  }

  lemma SummaryAfterAddWant(s: Store, d: WantDraft, now: Timestamp)
    ensures var before, after := Summarize(s), Summarize(AddWant(s, d, now));
      && after.totalWants == before.totalWants + d.amount
      && after.remainingBudget == before.remainingBudget - d.amount
      && after.wantsSaved == before.wantsSaved + d.savedAmount
      && after.totalBudget == before.totalBudget
      && after.totalNeeds == before.totalNeeds
      && after.needsPaid == before.needsPaid
  {
    var r := AddWant(s, d, now);
    var w := r.wants[|s.wants|];
    assert r.wants == s.wants + [w];
    SumAppend(s.wants, [w], WantAmount);
    SumAppend(s.wants, [w], WantSavedAmount);
  }

  // ---------------------------------------------------------------------------
  // Update moves the summary by the difference between old and new record.
  // ---------------------------------------------------------------------------

  lemma SummaryAfterUpdateBudget(s: Store, id: Id, patch: BudgetPatch, now: Timestamp, i: nat)
    requires IsFirstMatch(s.budgets, BudgetId, id, i)
    ensures var before, after := Summarize(s), Summarize(UpdateBudget(s, id, patch, now));
      var delta := Spread(s.budgets[i].amount, patch.amount) - s.budgets[i].amount;
      && after.totalBudget == before.totalBudget + delta
      && after.remainingBudget == before.remainingBudget + delta
      && after.totalNeeds == before.totalNeeds
      && after.totalWants == before.totalWants
      && after.needsPaid == before.needsPaid
      && after.wantsSaved == before.wantsSaved
  {
    SumReplace(s.budgets, i, PatchBudget(s.budgets[i], patch, now), BudgetAmount);
  }

  lemma SummaryAfterUpdateNeed(s: Store, id: Id, patch: NeedPatch, now: Timestamp, i: nat)
    requires IsFirstMatch(s.needs, NeedId, id, i)
    ensures var before, after := Summarize(s), Summarize(UpdateNeed(s, id, patch, now));
      var prev, next := s.needs[i], PatchNeed(s.needs[i], patch, now);
      && after.totalNeeds == before.totalNeeds - prev.amount + next.amount
      && after.remainingBudget == before.remainingBudget + prev.amount - next.amount
      && after.needsPaid == before.needsPaid
           - (if prev.isPaid then prev.amount else 0) + (if next.isPaid then next.amount else 0)
      && after.totalBudget == before.totalBudget
      && after.totalWants == before.totalWants
      && after.wantsSaved == before.wantsSaved
  {
    var next := PatchNeed(s.needs[i], patch, now);
    SumReplace(s.needs, i, next, NeedAmount);
    SumFilterReplace(s.needs, i, next, NeedIsPaid, NeedAmount);
  }

  lemma SummaryAfterUpdateWant(s: Store, id: Id, patch: WantPatch, now: Timestamp, i: nat)
    requires IsFirstMatch(s.wants, WantId, id, i)
    ensures var before, after := Summarize(s), Summarize(UpdateWant(s, id, patch, now));
      var prev, next := s.wants[i], PatchWant(s.wants[i], patch, now);
      && after.totalWants == before.totalWants - prev.amount + next.amount
      && after.remainingBudget == before.remainingBudget + prev.amount - next.amount
      && after.wantsSaved == before.wantsSaved - prev.savedAmount + next.savedAmount
      && after.totalBudget == before.totalBudget
      && after.totalNeeds == before.totalNeeds
      && after.needsPaid == before.needsPaid
  {
    var next := PatchWant(s.wants[i], patch, now);
    SumReplace(s.wants, i, next, WantAmount);
    SumReplace(s.wants, i, next, WantSavedAmount);
  }

  /** wantsSaved is the same for any two want lists with the same saved amounts. */
  lemma WantsSavedDependsOnlyOnSavedAmounts(s: Store, t: Store)
    requires |s.wants| == |t.wants|
    requires forall i :: 0 <= i < |s.wants| ==> s.wants[i].savedAmount == t.wants[i].savedAmount
    ensures Summarize(s).wantsSaved == Summarize(t).wantsSaved
  {
    SumPointwise(s.wants, WantSavedAmount, t.wants, WantSavedAmount);
  }

  /** Setting a want's `isSaved` flag, and nothing else, leaves wantsSaved unchanged. */
  lemma FlippingIsSavedKeepsWantsSaved(s: Store, id: Id, saved: bool, now: Timestamp)
    ensures var patch := WantPatch(None, None, None, None, None, Some(saved), None, None);
      Summarize(UpdateWant(s, id, patch, now)).wantsSaved == Summarize(s).wantsSaved
  {
    var patch := WantPatch(None, None, None, None, None, Some(saved), None, None);
    WantsSavedDependsOnlyOnSavedAmounts(s, UpdateWant(s, id, patch, now));
  }

  // ---------------------------------------------------------------------------
  // Delete undoes add when the new id was not already taken.
  // ---------------------------------------------------------------------------

  lemma DeleteUndoesAddBudget(s: Store, d: BudgetDraft, now: Timestamp)
    requires forall i :: 0 <= i < |s.budgets| ==> s.budgets[i].id != TimeId(now)
    ensures DeleteBudget(AddBudget(s, d, now), TimeId(now)) == s
  {
    var r := AddBudget(s, d, now);
    var b := r.budgets[|s.budgets|];
    assert r.budgets == s.budgets + [b];
    RemoveAllUndoesAppend(s.budgets, b, BudgetId);
  }

  lemma DeleteUndoesAddNeed(s: Store, d: NeedDraft, now: Timestamp)
    requires forall i :: 0 <= i < |s.needs| ==> s.needs[i].id != TimeId(now)
    ensures DeleteNeed(AddNeed(s, d, now), TimeId(now)) == s
  {
    var r := AddNeed(s, d, now);
    var n := r.needs[|s.needs|];
    assert r.needs == s.needs + [n];
    RemoveAllUndoesAppend(s.needs, n, NeedId);
  }

  lemma DeleteUndoesAddWant(s: Store, d: WantDraft, now: Timestamp)
    requires forall i :: 0 <= i < |s.wants| ==> s.wants[i].id != TimeId(now)
    ensures DeleteWant(AddWant(s, d, now), TimeId(now)) == s
  {
    var r := AddWant(s, d, now);
    var w := r.wants[|s.wants|];
    assert r.wants == s.wants + [w];
    RemoveAllUndoesAppend(s.wants, w, WantId);
  }

  // ---------------------------------------------------------------------------
  // Delete: absent ids, idempotence, and the length it removes.
  // ---------------------------------------------------------------------------

  lemma DeleteBudgetLaws(s: Store, id: Id)
    ensures DeleteBudget(DeleteBudget(s, id), id) == DeleteBudget(s, id)
    ensures |DeleteBudget(s, id).budgets| == |s.budgets| - CountKey(s.budgets, BudgetId, id)
    ensures (forall i :: 0 <= i < |s.budgets| ==> s.budgets[i].id != id) ==> DeleteBudget(s, id) == s
  {
    RemoveAllIdempotent(s.budgets, BudgetId, id);
    RemoveAllLength(s.budgets, BudgetId, id);
    if forall i :: 0 <= i < |s.budgets| ==> s.budgets[i].id != id {
      RemoveAllAbsent(s.budgets, BudgetId, id);
    }
  }

  lemma DeleteNeedLaws(s: Store, id: Id)
    ensures DeleteNeed(DeleteNeed(s, id), id) == DeleteNeed(s, id)
    ensures |DeleteNeed(s, id).needs| == |s.needs| - CountKey(s.needs, NeedId, id)
    ensures (forall i :: 0 <= i < |s.needs| ==> s.needs[i].id != id) ==> DeleteNeed(s, id) == s
  {
    RemoveAllIdempotent(s.needs, NeedId, id);
    RemoveAllLength(s.needs, NeedId, id);
    if forall i :: 0 <= i < |s.needs| ==> s.needs[i].id != id {
      RemoveAllAbsent(s.needs, NeedId, id);
    }
  }

  lemma DeleteWantLaws(s: Store, id: Id)
    ensures DeleteWant(DeleteWant(s, id), id) == DeleteWant(s, id)
    ensures |DeleteWant(s, id).wants| == |s.wants| - CountKey(s.wants, WantId, id)
    ensures (forall i :: 0 <= i < |s.wants| ==> s.wants[i].id != id) ==> DeleteWant(s, id) == s
  {
    RemoveAllIdempotent(s.wants, WantId, id);
    RemoveAllLength(s.wants, WantId, id);
    if forall i :: 0 <= i < |s.wants| ==> s.wants[i].id != id {
      RemoveAllAbsent(s.wants, WantId, id);
    }
  }

  /** Deleting the one budget with an id cuts it out and lowers the budget total by its amount. */
  lemma SummaryAfterDeleteSingleBudget(s: Store, id: Id, i: nat)
    requires i < |s.budgets| && s.budgets[i].id == id
    requires forall j :: 0 <= j < |s.budgets| && j != i ==> s.budgets[j].id != id
    ensures DeleteBudget(s, id).budgets == s.budgets[..i] + s.budgets[i + 1..]
    ensures Summarize(DeleteBudget(s, id)).totalBudget == Summarize(s).totalBudget - s.budgets[i].amount
  {
    RemoveAllSingle(s.budgets, BudgetId, id, i);
    assert s.budgets == s.budgets[..i] + ([s.budgets[i]] + s.budgets[i + 1..]);
    SumAppend(s.budgets[..i], [s.budgets[i]] + s.budgets[i + 1..], BudgetAmount);
    SumAppend([s.budgets[i]], s.budgets[i + 1..], BudgetAmount);
    SumAppend(s.budgets[..i], s.budgets[i + 1..], BudgetAmount);
  }

  /**
   Deleting an id lowers the budget total, and the remaining budget, by the
   amounts of every budget carrying the id, however many there are.
   */
  lemma SummaryAfterDeleteBudget(s: Store, id: Id)
    ensures var prev, next := Summarize(s), Summarize(DeleteBudget(s, id));
      && next.totalBudget == prev.totalBudget - SumKey(s.budgets, BudgetId, id, BudgetAmount)
      && next.remainingBudget == prev.remainingBudget - SumKey(s.budgets, BudgetId, id, BudgetAmount)
      && next.totalNeeds == prev.totalNeeds
      && next.totalWants == prev.totalWants
      && next.needsPaid == prev.needsPaid
      && next.wantsSaved == prev.wantsSaved
  {
    SumRemoveAll(s.budgets, BudgetId, id, BudgetAmount);
  }

  /**
   Deleting an id lowers the needs total by the amounts of every need carrying
   it, the paid part by the amounts of those among them that are paid, and
   raises the remaining budget by the same amount as the needs total falls.
   */
  lemma SummaryAfterDeleteNeed(s: Store, id: Id)
    ensures var prev, next := Summarize(s), Summarize(DeleteNeed(s, id));
      && next.totalNeeds == prev.totalNeeds - SumKey(s.needs, NeedId, id, NeedAmount)
      && next.remainingBudget == prev.remainingBudget + SumKey(s.needs, NeedId, id, NeedAmount)
      && next.needsPaid == prev.needsPaid - SumKey(Filter(s.needs, NeedIsPaid), NeedId, id, NeedAmount)
      && next.totalBudget == prev.totalBudget
      && next.totalWants == prev.totalWants
      && next.wantsSaved == prev.wantsSaved
  {
    SumRemoveAll(s.needs, NeedId, id, NeedAmount);
    FilterRemoveAllCommute(s.needs, NeedIsPaid, NeedId, id);
    SumRemoveAll(Filter(s.needs, NeedIsPaid), NeedId, id, NeedAmount);
  }

  /**
   Deleting an id lowers the wants total by the amounts of every want carrying
   it and the saved total by their saved amounts, and raises the remaining
   budget by the same amount as the wants total falls.
   */
  lemma SummaryAfterDeleteWant(s: Store, id: Id)
    ensures var prev, next := Summarize(s), Summarize(DeleteWant(s, id));
      && next.totalWants == prev.totalWants - SumKey(s.wants, WantId, id, WantAmount)
      && next.remainingBudget == prev.remainingBudget + SumKey(s.wants, WantId, id, WantAmount)
      && next.wantsSaved == prev.wantsSaved - SumKey(s.wants, WantId, id, WantSavedAmount)
      && next.totalBudget == prev.totalBudget
      && next.totalNeeds == prev.totalNeeds
      && next.needsPaid == prev.needsPaid
  {
    SumRemoveAll(s.wants, WantId, id, WantAmount);
    SumRemoveAll(s.wants, WantId, id, WantSavedAmount);
  }

  // ---------------------------------------------------------------------------
  // Two adds in the same millisecond: the ids collide, update then touches
  // only the first of the two records, and delete removes both.
  // ---------------------------------------------------------------------------

  lemma SameMillisecondAddsCollide(s: Store, d1: BudgetDraft, d2: BudgetDraft, now: Timestamp, patch: BudgetPatch, later: Timestamp)
    requires forall i :: 0 <= i < |s.budgets| ==> s.budgets[i].id != TimeId(now)
    ensures var t := AddBudget(AddBudget(s, d1, now), d2, now);
      var n := |s.budgets|;
      && t.budgets[n].id == t.budgets[n + 1].id
      && UpdateBudget(t, TimeId(now), patch, later).budgets[n] == PatchBudget(t.budgets[n], patch, later)
      && UpdateBudget(t, TimeId(now), patch, later).budgets[n + 1] == t.budgets[n + 1]
      && DeleteBudget(t, TimeId(now)) == s
  {
    var t := AddBudget(AddBudget(s, d1, now), d2, now);
    var n := |s.budgets|;
    assert IsFirstMatch(t.budgets, BudgetId, TimeId(now), n);
    assert t.budgets == s.budgets + [t.budgets[n], t.budgets[n + 1]];
    RemoveAllAppend(s.budgets, [t.budgets[n], t.budgets[n + 1]], BudgetId, TimeId(now));
    RemoveAllAbsent(s.budgets, BudgetId, TimeId(now));
    assert [t.budgets[n], t.budgets[n + 1]] == [t.budgets[n]] + [t.budgets[n + 1]];
    RemoveAllAppend([t.budgets[n]], [t.budgets[n + 1]], BudgetId, TimeId(now));
    assert RemoveAll([t.budgets[n]], BudgetId, TimeId(now)) == [];
    assert RemoveAll([t.budgets[n + 1]], BudgetId, TimeId(now)) == [];
  }

  /** Adds at distinct clock readings give distinct ids. */
  lemma DistinctMillisecondsDistinctIds(s: Store, d1: BudgetDraft, d2: BudgetDraft, t1: Timestamp, t2: Timestamp)
    requires t1 != t2
    ensures var t := AddBudget(AddBudget(s, d1, t1), d2, t2);
      t.budgets[|s.budgets|].id != t.budgets[|s.budgets| + 1].id
  {
    TimeIdCollidesIffSameMillisecond(t1, t2);
  }

  // ---------------------------------------------------------------------------
  // Patches compose like object spreads: the later key wins.
  // ---------------------------------------------------------------------------

  lemma PatchBudgetTwice(b: Budget, patch: BudgetPatch, q: BudgetPatch, t1: Timestamp, t2: Timestamp)
    ensures PatchBudget(PatchBudget(b, patch, t1), q, t2) == PatchBudget(b, MergeBudgetPatch(patch, q), t2)
  {
  }

  lemma PatchNeedTwice(n: Need, patch: NeedPatch, q: NeedPatch, t1: Timestamp, t2: Timestamp)
    ensures PatchNeed(PatchNeed(n, patch, t1), q, t2) == PatchNeed(n, MergeNeedPatch(patch, q), t2)
  {
  }

  lemma PatchWantTwice(w: Want, patch: WantPatch, q: WantPatch, t1: Timestamp, t2: Timestamp)
    ensures PatchWant(PatchWant(w, patch, t1), q, t2) == PatchWant(w, MergeWantPatch(patch, q), t2)
  {
  }
}
