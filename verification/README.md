# Finance store, modelled in Dafny

This project models the finance store of a personal budgeting client. The
store keeps three independent ordered collections: budgets, needs (obligatory
expenses) and wants (discretionary expenses). Each collection has add, update
and delete actions. The store also derives a six-field summary from the three
collections.

Every action is a pure function from one `Store` value to the next:

- **add** builds a record from the caller's fields and appends it to the end.
  The record gets the id `TimeId(now)`, the decimal spelling of the clock
  reading, and `createdAt = updatedAt = now`.
- **update** patches the *first* record whose id matches, which is what
  `findIndex` finds. It is a no-op when no record matches.
- **delete** keeps only the records whose id differs, so *every* match goes.
- **summary** is a set of left folds (`reduce`) over the three sequences.

Ids are not assumed unique. Two adds in the same millisecond get the same id,
and the laws show how update and delete then differ.

Files:

- `types.dfy` (module `Types`): the records, the string-literal enumerations
  with their spellings and parsers, and the add-draft and update-patch shapes.
- `timeids.dfy` (module `TimeIds`): ids made by `Date.now().toString()`.
- `collection.dfy` (module `Collection`): the generic sequence operations.
  These are `findIndex`, replace-first, `filter`, and `reduce` as a sum. There
  are also lemmas about them.
- `finance.dfy` (module `Finance`): the store, the summary, and the nine
  actions.
- `laws.dfy` (module `FinanceLaws`): how each action moves the summary, how
  delete undoes add, delete idempotence, and duplicate-id behaviour.
- `scenarios.dfy` (module `Scenarios`): the rent and concert examples.

The clock is a parameter `now: Timestamp`, in milliseconds since the epoch.
Amounts are unbounded integers.

The code does not guarantee unique ids, a strictly increasing `updatedAt`, or
that delete removes exactly one record:

- `DistinctMillisecondsDistinctIds` and `SameMillisecondAddsCollide` show when
  ids are unique and when they collide.
- `UpdatedAtFollowsTheClock` shows that `updatedAt` takes whatever the clock
  reads.
- `DeleteBudgetLaws` shows that delete removes as many records as carry the id.

## Model

| member | source | states |
|---|---|---|
| Types.ParsePeriod | src/types/index.ts:6 | a period is accepted exactly when it is one of "weekly", "monthly", "yearly", and the parsed value spells back to the input |
| Types.PeriodRoundTrip | src/types/index.ts:6 | every period's spelling parses back to that period |
| Types.ParseNeedCategory | src/types/index.ts:15 | a need category is accepted exactly when it is one of the seven literals, and it spells back to the input |
| Types.NeedCategoryRoundTrip | src/types/index.ts:15 | every need category's spelling parses back to it |
| Types.ParseWantCategory | src/types/index.ts:27 | a want category is accepted exactly when it is one of the six literals, and it spells back to the input |
| Types.WantCategoryRoundTrip | src/types/index.ts:27 | every want category's spelling parses back to it |
| Types.ParsePriority | src/types/index.ts:16 | a priority is accepted exactly when it is "high", "medium" or "low", and it spells back to the input |
| Types.PriorityRoundTrip | src/types/index.ts:28 | every priority's spelling parses back to it |
| TimeIds.Digits | src/stores/finance.ts:32 | the decimal spelling of a clock reading is a non-empty digit string with no leading zero |
| TimeIds.ParseDigitsInverts | src/stores/finance.ts:32 | reading the decimal spelling back gives the original number |
| TimeIds.TimeId | src/stores/finance.ts:32 | the id made from a clock reading, including a negative one, parses back to that reading |
| TimeIds.TimeIdCollidesIffSameMillisecond | src/stores/finance.ts:32 | two ids made from clock readings are equal if and only if the readings are equal |
| Collection.FindIndex | src/stores/finance.ts:40 | the result is absent exactly when no element has the id; otherwise it is the first position holding the id |
| Collection.ReplaceFirst | src/stores/finance.ts:40-43 | the length is kept; no match means no change; otherwise only the first match is replaced by the patched element, and every other position is unchanged |
| Collection.Filter | src/stores/finance.ts:15 | the result is no longer than the input; it holds exactly the input's elements that satisfy the predicate |
| Collection.FilterCounts | src/stores/finance.ts:15 | each passing element occurs in the result exactly as often as in the input, and each failing element not at all, so duplicates survive together |
| Collection.RemoveAll | src/stores/finance.ts:47 | the survivors are input elements with a different id, and every input element with a different id survives |
| Collection.ReduceSum | src/stores/finance.ts:12-16 | the left-to-right `reduce` from an accumulator equals the accumulator plus the sum of the field over the whole sequence |
| Collection.SumFilterSplit | src/stores/finance.ts:13-15 | the sum over the elements passing a predicate plus the sum over the rest equals the whole sum |
| Collection.SumFilterReplace | src/stores/finance.ts:15 | replacing one element changes a filtered sum by what the old and new values contribute |
| Collection.FilterAppend | src/stores/finance.ts:47 | filtering distributes over concatenation, so the kept elements stay in their relative order |
| Collection.FilterIdempotent | src/stores/finance.ts:47 | filtering twice by the same predicate equals filtering once |
| Collection.RemoveAllAbsent | src/stores/finance.ts:47 | deleting an id that no element has leaves the sequence unchanged |
| Collection.RemoveAllIdempotent | src/stores/finance.ts:47 | deleting an id twice equals deleting it once |
| Collection.RemoveAllAppend | src/stores/finance.ts:47 | delete distributes over concatenation, so the survivors keep their order |
| Collection.RemoveAllLength | src/stores/finance.ts:47 | delete shortens the sequence by exactly the number of elements carrying the id |
| Collection.FilterRemoveAllCommute | src/stores/finance.ts:15 | for every sequence, predicate and id, filtering the survivors of a delete gives the same sequence as deleting from the filtered sequence |
| Collection.SumRemoveAll | src/stores/finance.ts:47 | after delete, a sum over the survivors is the whole sum minus the contributions of all elements carrying the id |
| Collection.RemoveAllSingle | src/stores/finance.ts:47 | when exactly one element has the id, delete cuts out that element and nothing else, so the length drops by one |
| Collection.RemoveAllUndoesAppend | src/stores/finance.ts:47 | deleting the id of an element appended under a fresh id restores the original sequence |
| Collection.ReplaceFirstSparesLaterDuplicates | src/stores/finance.ts:40-43 | a later element sharing the id of an earlier one is not touched by update |
| Collection.UpdateKeepsDuplicatesDeleteDropsThem | src/stores/finance.ts:39-48 | an id-preserving update keeps the number of elements with the id; a delete brings it to zero |
| Finance.Summarize | src/stores/finance.ts:11-26 | the three totals are the sums of `amount`; remainingBudget is the budget total minus both expense totals; needsPaid sums only paid needs and, with the unpaid sum, makes up the needs total; wantsSaved sums `savedAmount` over all wants |
| Finance.AddBudget | src/stores/finance.ts:29-37 | one longer; the old budgets are an unchanged prefix; the new last budget carries the given fields, the clock-made id and both timestamps equal to now; needs and wants untouched |
| Finance.AddNeed | src/stores/finance.ts:51-59 | one longer; old needs are an unchanged prefix; the last need carries the given fields, the clock-made id and both timestamps equal to now; budgets and wants untouched |
| Finance.AddWant | src/stores/finance.ts:73-81 | one longer; old wants are an unchanged prefix; the last want carries the given fields, the clock-made id and both timestamps equal to now; budgets and needs untouched |
| Finance.PatchBudget | src/stores/finance.ts:42 | id and createdAt kept, updatedAt set to now even if the patch names one; each field present in the patch takes the patch value, each absent field keeps its old value |
| Finance.PatchNeed | src/stores/finance.ts:64 | id and createdAt kept, updatedAt set to now; present fields take the patch value (a present but undefined dueDate clears it), absent fields keep their value |
| Finance.PatchWant | src/stores/finance.ts:86 | id and createdAt kept, updatedAt set to now; present fields take the patch value (a present but undefined targetDate clears it), absent fields keep their value |
| Finance.UpdateBudget | src/stores/finance.ts:39-44 | length kept; an absent id changes nothing; otherwise only the first budget with the id is patched, and needs and wants are untouched |
| Finance.UpdateNeed | src/stores/finance.ts:61-66 | length kept; an absent id changes nothing; otherwise only the first need with the id is patched, and budgets and wants are untouched |
| Finance.UpdateWant | src/stores/finance.ts:83-88 | length kept; an absent id changes nothing; otherwise only the first want with the id is patched, and budgets and needs are untouched |
| Finance.DeleteBudget | src/stores/finance.ts:46-48 | no budget with the id remains; every budget with another id remains; needs and wants untouched (survivor order and multiplicity: `Collection.RemoveAllAppend`, `Collection.FilterCounts`) |
| Finance.DeleteNeed | src/stores/finance.ts:68-70 | no need with the id remains; every need with another id remains; budgets and wants untouched (survivor order and multiplicity: `Collection.RemoveAllAppend`, `Collection.FilterCounts`) |
| Finance.DeleteWant | src/stores/finance.ts:90-92 | no want with the id remains; every want with another id remains; budgets and needs untouched (survivor order and multiplicity: `Collection.RemoveAllAppend`, `Collection.FilterCounts`) |
| FinanceLaws.SummaryAfterAddBudget | src/stores/finance.ts:29-37 | adding a budget raises totalBudget and remainingBudget by its amount and leaves the other four fields alone |
| FinanceLaws.SummaryAfterAddNeed | src/stores/finance.ts:51-59 | adding a need raises totalNeeds and lowers remainingBudget by its amount; needsPaid rises by it only if it is paid |
| FinanceLaws.SummaryAfterAddWant | src/stores/finance.ts:73-81 | adding a want raises totalWants and lowers remainingBudget by its amount, and raises wantsSaved by its saved amount |
| FinanceLaws.SummaryAfterUpdateBudget | src/stores/finance.ts:39-44 | updating a budget moves totalBudget and remainingBudget by the change in its amount and nothing else |
| FinanceLaws.SummaryAfterUpdateNeed | src/stores/finance.ts:61-66 | updating a need moves totalNeeds and remainingBudget by the amount change, and needsPaid by the change in paid contribution |
| FinanceLaws.SummaryAfterUpdateWant | src/stores/finance.ts:83-88 | updating a want moves totalWants and remainingBudget by the amount change, and wantsSaved by the saved-amount change |
| FinanceLaws.WantsSavedDependsOnlyOnSavedAmounts | src/stores/finance.ts:16 | wantsSaved depends only on the wants' saved amounts, not on isSaved or amount |
| FinanceLaws.FlippingIsSavedKeepsWantsSaved | src/stores/finance.ts:16 | an update that sets only isSaved leaves wantsSaved unchanged |
| FinanceLaws.DeleteUndoesAddBudget | src/stores/finance.ts:29-48 | deleting the id of a budget just added under a fresh id restores the store |
| FinanceLaws.DeleteUndoesAddNeed | src/stores/finance.ts:51-70 | deleting the id of a need just added under a fresh id restores the store |
| FinanceLaws.DeleteUndoesAddWant | src/stores/finance.ts:73-92 | deleting the id of a want just added under a fresh id restores the store |
| FinanceLaws.DeleteBudgetLaws | src/stores/finance.ts:46-48 | deleting budgets is idempotent, shortens by the number of budgets with the id, and is a no-op for an absent id |
| FinanceLaws.DeleteNeedLaws | src/stores/finance.ts:68-70 | deleting needs is idempotent, shortens by the number of needs with the id, and is a no-op for an absent id |
| FinanceLaws.DeleteWantLaws | src/stores/finance.ts:90-92 | deleting wants is idempotent, shortens by the number of wants with the id, and is a no-op for an absent id |
| FinanceLaws.SummaryAfterDeleteBudget | src/stores/finance.ts:46-48 | deleting an id lowers totalBudget and remainingBudget by the amounts of every budget carrying it, however many share it, and leaves the other four fields alone |
| FinanceLaws.SummaryAfterDeleteNeed | src/stores/finance.ts:68-70 | deleting an id lowers totalNeeds by the amounts of every need carrying it, lowers needsPaid by the amounts of the paid ones among them, raises remainingBudget by the same amount totalNeeds falls, and leaves the other three fields alone |
| FinanceLaws.SummaryAfterDeleteWant | src/stores/finance.ts:90-92 | deleting an id lowers totalWants by the amounts and wantsSaved by the saved amounts of every want carrying it, raises remainingBudget by the same amount totalWants falls, and leaves the other three fields alone |
| FinanceLaws.SummaryAfterDeleteSingleBudget | src/stores/finance.ts:46-48 | deleting the only budget with an id cuts it out and lowers totalBudget by its amount |
| FinanceLaws.SameMillisecondAddsCollide | src/stores/finance.ts:29-48 | two budgets added at the same clock reading share an id; update then patches only the first, and delete removes both |
| FinanceLaws.DistinctMillisecondsDistinctIds | src/stores/finance.ts:32 | budgets added at different clock readings get different ids |
| FinanceLaws.PatchBudgetTwice | src/stores/finance.ts:42 | patching twice equals one patch with the merged keys, where the later patch wins |
| FinanceLaws.PatchNeedTwice | src/stores/finance.ts:64 | patching twice equals one patch with the merged keys, where the later patch wins |
| FinanceLaws.PatchWantTwice | src/stores/finance.ts:86 | patching twice equals one patch with the merged keys, where the later patch wins |
| Scenarios.RentScenario | src/stores/finance.ts:13-22 | an unpaid rent of 1200 adds 1200 to totalNeeds and nothing to needsPaid; marking it paid moves needsPaid to 1200, and totalNeeds stays 1200 |
| Scenarios.ConcertScenario | src/stores/finance.ts:14-16 | a want of 150 with 50 saved gives wantsSaved 50, whatever isSaved is set to |
| Scenarios.UpdatedAtFollowsTheClock | src/stores/finance.ts:42 | an update at an earlier clock reading leaves updatedAt before createdAt |

## Left out

- Vue reactivity and the Pinia `defineStore` wrapper are not modelled. The summary is a plain function of the state, recomputed on every call. The store is a value rather than a global singleton.
- Application bootstrap (`src/main.ts`), the route table (`src/router/routes.ts`) and build configuration (`vite.config.ts`) are not modelled. They contain no store logic.
- Clock reads are not modelled: `Date.now()` and `new Date()` become the parameter `now`. The source reads the clock three times per add (the id, createdAt and updatedAt). The model uses one reading for all three, so it does not cover the case where those readings fall in different milliseconds.
- JavaScript `number` arithmetic is not modelled. Amounts are unbounded integers, so there is no floating-point rounding, NaN or Infinity. Timestamps are integral milliseconds.
- TimeIds.TimeId: covers only the plain decimal form of `Number.prototype.toString`. The exponent form applies only from 1e21 upwards, and no `Date` time value gets that large.
- Finance.PatchBudget: `Partial<...>` also lets a caller set a required field (for example `amount`) to `undefined`, and the spread would then store `undefined`. The model lets only the optional date fields be cleared.
- Finance.PatchNeed: same as PatchBudget. A required field cannot be set to `undefined`.
- Finance.PatchWant: same as PatchBudget. A required field cannot be set to `undefined`.
- Patches that carry `id` or `createdAt` are not modelled: the model covers only patches without those keys. TypeScript rejects such keys only in a fresh object literal. A wider object (a whole `Budget`, say) still type-checks as a patch, and the spread would then overwrite `id` and `createdAt`.
- Aliasing is not modelled. The source replaces an array slot in place on update and assigns a new array on delete. Under value semantics both are the same.
- FinanceLaws.SameMillisecondAddsCollide: stated for budgets only. Needs and wants run the same generic code, `Collection.ReplaceFirst` and `Collection.RemoveAll`, whose lemmas cover all three kinds.
- FinanceLaws.DistinctMillisecondsDistinctIds: stated for budgets only, for the same reason.
- FinanceLaws.SummaryAfterDeleteSingleBudget: the single-carrier form is stated for budgets only; the general delete laws `SummaryAfterDeleteBudget`, `SummaryAfterDeleteNeed` and `SummaryAfterDeleteWant` cover all three collections.
- Unique ids are not stated. The code does not guarantee them: `DistinctMillisecondsDistinctIds` gives the condition under which ids are unique.
- A strictly increasing `updatedAt` is not stated either. The code only copies the clock reading (`UpdatedAtFollowsTheClock`).
