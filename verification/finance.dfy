/**
 The finance store: three independent ordered collections (budgets, needs,
 wants), add/update/delete on each, and the derived summary.

 Every action is a pure transition from one store value to the next. The
 clock is the parameter `now`; the id of a new record is `TimeId(now)`, so ids
 are not unique when two records are added in the same millisecond.
 */
module Finance {
  import opened Types
  import opened TimeIds
  import opened Collection

  datatype Store = Store(budgets: seq<Budget>, needs: seq<Need>, wants: seq<Want>)

  /** The state the store starts in. */
  const Empty: Store := Store([], [], [])

  // ---------------------------------------------------------------------------
  // Field accessors, used as the key and summand functions of Collection.
  // ---------------------------------------------------------------------------

  function BudgetId(b: Budget): Id { b.id }
  function NeedId(n: Need): Id { n.id }
  function WantId(w: Want): Id { w.id }

  function BudgetAmount(b: Budget): int { b.amount }
  function NeedAmount(n: Need): int { n.amount }
  function WantAmount(w: Want): int { w.amount }
  function WantSavedAmount(w: Want): int { w.savedAmount }

  predicate NeedIsPaid(n: Need) { n.isPaid }
  predicate NeedIsUnpaid(n: Need) { !n.isPaid }

  // ---------------------------------------------------------------------------
  // Summary
  // ---------------------------------------------------------------------------

  /**
   The summary, computed with the same left folds as the source. Its contract
   states each total against the structural sum of the field, and the split of
   the needs total into its paid and unpaid parts.
   */
  function Summarize(s: Store): (r: Summary)
    ensures r.totalBudget == Sum(s.budgets, BudgetAmount)
    ensures r.totalNeeds == Sum(s.needs, NeedAmount)
    ensures r.totalWants == Sum(s.wants, WantAmount)
    ensures r.remainingBudget == Sum(s.budgets, BudgetAmount) - Sum(s.needs, NeedAmount) - Sum(s.wants, WantAmount)
    ensures r.needsPaid == Sum(Filter(s.needs, NeedIsPaid), NeedAmount)
    ensures r.needsPaid + Sum(Filter(s.needs, NeedIsUnpaid), NeedAmount) == r.totalNeeds
    ensures r.wantsSaved == Sum(s.wants, WantSavedAmount)
  {
    SumFilterSplit(s.needs, NeedIsPaid, NeedIsUnpaid, NeedAmount);
    var totalBudget := ReduceSum(0, s.budgets, BudgetAmount);
    var totalNeeds := ReduceSum(0, s.needs, NeedAmount);
    var totalWants := ReduceSum(0, s.wants, WantAmount);
    var needsPaid := ReduceSum(0, Filter(s.needs, NeedIsPaid), NeedAmount);
    var wantsSaved := ReduceSum(0, s.wants, WantSavedAmount);
    Summary(
      totalBudget,
      totalNeeds,
      totalWants,
      totalBudget - totalNeeds - totalWants,
      needsPaid,
      wantsSaved)
  }

  // ---------------------------------------------------------------------------
  // Add: the draft's fields, plus an id and both timestamps from the clock,
  // appended at the end of the collection.
  // ---------------------------------------------------------------------------

  function AddBudget(s: Store, d: BudgetDraft, now: Timestamp): (r: Store)
    ensures |r.budgets| == |s.budgets| + 1
    ensures r.budgets[..|s.budgets|] == s.budgets
    ensures BudgetDraftOf(r.budgets[|s.budgets|]) == d
    ensures r.budgets[|s.budgets|].id == TimeId(now)
    ensures r.budgets[|s.budgets|].createdAt == now && r.budgets[|s.budgets|].updatedAt == now
    ensures r.needs == s.needs && r.wants == s.wants
  {
    var b := Budget(TimeId(now), d.name, d.amount, d.category, d.period, now, now);
    s.(budgets := s.budgets + [b])
  }

  function AddNeed(s: Store, d: NeedDraft, now: Timestamp): (r: Store)
    ensures |r.needs| == |s.needs| + 1
    ensures r.needs[..|s.needs|] == s.needs
    ensures NeedDraftOf(r.needs[|s.needs|]) == d
    ensures r.needs[|s.needs|].id == TimeId(now)
    ensures r.needs[|s.needs|].createdAt == now && r.needs[|s.needs|].updatedAt == now
    ensures r.budgets == s.budgets && r.wants == s.wants
  {
    var n := Need(TimeId(now), d.name, d.amount, d.category, d.priority, d.dueDate, d.isPaid, now, now);
    s.(needs := s.needs + [n])
  }

  function AddWant(s: Store, d: WantDraft, now: Timestamp): (r: Store)
    ensures |r.wants| == |s.wants| + 1
    ensures r.wants[..|s.wants|] == s.wants
    ensures WantDraftOf(r.wants[|s.wants|]) == d
    ensures r.wants[|s.wants|].id == TimeId(now)
    ensures r.wants[|s.wants|].createdAt == now && r.wants[|s.wants|].updatedAt == now
    ensures r.budgets == s.budgets && r.needs == s.needs
  {
    var w := Want(TimeId(now), d.name, d.amount, d.category, d.priority, d.targetDate,
                  d.isSaved, d.savedAmount, now, now);
    s.(wants := s.wants + [w])
  }

  // ---------------------------------------------------------------------------
  // Patching one record: `{ ...old, ...patch, updatedAt: now }`.
  // ---------------------------------------------------------------------------

  function PatchBudget(b: Budget, p: BudgetPatch, now: Timestamp): (r: Budget)
    ensures r.id == b.id && r.createdAt == b.createdAt && r.updatedAt == now
    ensures p.name.Some? ==> r.name == p.name.value
    ensures p.name.None? ==> r.name == b.name
    ensures p.amount.Some? ==> r.amount == p.amount.value
    ensures p.amount.None? ==> r.amount == b.amount
    ensures p.category.Some? ==> r.category == p.category.value
    ensures p.category.None? ==> r.category == b.category
    ensures p.period.Some? ==> r.period == p.period.value
    ensures p.period.None? ==> r.period == b.period
  {
    Budget(
      b.id,
      Spread(b.name, p.name),
      Spread(b.amount, p.amount),
      Spread(b.category, p.category),
      Spread(b.period, p.period),
      b.createdAt,
      now)
  }

  function PatchNeed(n: Need, p: NeedPatch, now: Timestamp): (r: Need)
    ensures r.id == n.id && r.createdAt == n.createdAt && r.updatedAt == now
    ensures p.name.Some? ==> r.name == p.name.value
    ensures p.name.None? ==> r.name == n.name
    ensures p.amount.Some? ==> r.amount == p.amount.value
    ensures p.amount.None? ==> r.amount == n.amount
    ensures p.category.Some? ==> r.category == p.category.value
    ensures p.category.None? ==> r.category == n.category
    ensures p.priority.Some? ==> r.priority == p.priority.value
    ensures p.priority.None? ==> r.priority == n.priority
    ensures p.dueDate.Some? ==> r.dueDate == p.dueDate.value
    ensures p.dueDate.None? ==> r.dueDate == n.dueDate
    ensures p.isPaid.Some? ==> r.isPaid == p.isPaid.value
    ensures p.isPaid.None? ==> r.isPaid == n.isPaid
  {
    Need(
      n.id,
      Spread(n.name, p.name),
      Spread(n.amount, p.amount),
      Spread(n.category, p.category),
      Spread(n.priority, p.priority),
      Spread(n.dueDate, p.dueDate),
      Spread(n.isPaid, p.isPaid),
      n.createdAt,
      now)
  }

  function PatchWant(w: Want, p: WantPatch, now: Timestamp): (r: Want)
    ensures r.id == w.id && r.createdAt == w.createdAt && r.updatedAt == now
    ensures p.name.Some? ==> r.name == p.name.value
    ensures p.name.None? ==> r.name == w.name
    ensures p.amount.Some? ==> r.amount == p.amount.value
    ensures p.amount.None? ==> r.amount == w.amount
    ensures p.category.Some? ==> r.category == p.category.value
    ensures p.category.None? ==> r.category == w.category
    ensures p.priority.Some? ==> r.priority == p.priority.value
    ensures p.priority.None? ==> r.priority == w.priority
    ensures p.targetDate.Some? ==> r.targetDate == p.targetDate.value
    ensures p.targetDate.None? ==> r.targetDate == w.targetDate
    ensures p.isSaved.Some? ==> r.isSaved == p.isSaved.value
    ensures p.isSaved.None? ==> r.isSaved == w.isSaved
    ensures p.savedAmount.Some? ==> r.savedAmount == p.savedAmount.value
    ensures p.savedAmount.None? ==> r.savedAmount == w.savedAmount
  {
    Want(
      w.id,
      Spread(w.name, p.name),
      Spread(w.amount, p.amount),
      Spread(w.category, p.category),
      Spread(w.priority, p.priority),
      Spread(w.targetDate, p.targetDate),
      Spread(w.isSaved, p.isSaved),
      Spread(w.savedAmount, p.savedAmount),
      w.createdAt,
      now)
  }

  // ---------------------------------------------------------------------------
  // Update: patch the FIRST record with the id; no-op when there is none.
  // ---------------------------------------------------------------------------

  function UpdateBudget(s: Store, id: Id, p: BudgetPatch, now: Timestamp): (r: Store)
    ensures |r.budgets| == |s.budgets|
    ensures (forall i :: 0 <= i < |s.budgets| ==> s.budgets[i].id != id) ==> r == s
    ensures forall i :: IsFirstMatch(s.budgets, BudgetId, id, i) ==>
      && r.budgets[i] == PatchBudget(s.budgets[i], p, now)
      && forall j :: 0 <= j < |s.budgets| && j != i ==> r.budgets[j] == s.budgets[j]
    ensures r.needs == s.needs && r.wants == s.wants
  {
    s.(budgets := ReplaceFirst(s.budgets, BudgetId, id, b => PatchBudget(b, p, now)))
  }

  function UpdateNeed(s: Store, id: Id, p: NeedPatch, now: Timestamp): (r: Store)
    ensures |r.needs| == |s.needs|
    ensures (forall i :: 0 <= i < |s.needs| ==> s.needs[i].id != id) ==> r == s
    ensures forall i :: IsFirstMatch(s.needs, NeedId, id, i) ==>
      && r.needs[i] == PatchNeed(s.needs[i], p, now)
      && forall j :: 0 <= j < |s.needs| && j != i ==> r.needs[j] == s.needs[j]
    ensures r.budgets == s.budgets && r.wants == s.wants
  {
    s.(needs := ReplaceFirst(s.needs, NeedId, id, n => PatchNeed(n, p, now)))
  }

  function UpdateWant(s: Store, id: Id, p: WantPatch, now: Timestamp): (r: Store)
    ensures |r.wants| == |s.wants|
    ensures (forall i :: 0 <= i < |s.wants| ==> s.wants[i].id != id) ==> r == s
    ensures forall i :: IsFirstMatch(s.wants, WantId, id, i) ==>
      && r.wants[i] == PatchWant(s.wants[i], p, now)
      && forall j :: 0 <= j < |s.wants| && j != i ==> r.wants[j] == s.wants[j]
    ensures r.budgets == s.budgets && r.needs == s.needs
  {
    s.(wants := ReplaceFirst(s.wants, WantId, id, w => PatchWant(w, p, now)))
  }

  // ---------------------------------------------------------------------------
  // Delete: drop EVERY record with the id, keeping the others in order.
  // ---------------------------------------------------------------------------

  function DeleteBudget(s: Store, id: Id): (r: Store)
    ensures forall i :: 0 <= i < |r.budgets| ==> r.budgets[i] in s.budgets && r.budgets[i].id != id
    ensures forall i :: 0 <= i < |s.budgets| && s.budgets[i].id != id ==> s.budgets[i] in r.budgets
    ensures r.needs == s.needs && r.wants == s.wants
  {
    s.(budgets := RemoveAll(s.budgets, BudgetId, id))
  }

  function DeleteNeed(s: Store, id: Id): (r: Store)
    ensures forall i :: 0 <= i < |r.needs| ==> r.needs[i] in s.needs && r.needs[i].id != id
    ensures forall i :: 0 <= i < |s.needs| && s.needs[i].id != id ==> s.needs[i] in r.needs
    ensures r.budgets == s.budgets && r.wants == s.wants
  {
    s.(needs := RemoveAll(s.needs, NeedId, id))
  }

  function DeleteWant(s: Store, id: Id): (r: Store)
    ensures forall i :: 0 <= i < |r.wants| ==> r.wants[i] in s.wants && r.wants[i].id != id
    ensures forall i :: 0 <= i < |s.wants| && s.wants[i].id != id ==> s.wants[i] in r.wants
    ensures r.budgets == s.budgets && r.needs == s.needs
  {
    s.(wants := RemoveAll(s.wants, WantId, id))
  }
}
