/**
 The record shapes of the finance tracker: budgets, needs, wants and the
 derived summary, together with the string-literal enumerations their fields
 range over, the "fields without id and timestamps" shape that the add
 actions take, and the partial-record shape that the update actions take.
 */
module Types {

  /** An optional field, or a key that a patch object may leave out. */
  datatype Option<T> = None | Some(value: T)

  /**
   One key of the spread `{ ...record, ...patch }`: the patch's value when the
   patch has the key, the record's value otherwise.
   */
  function Spread<T>(current: T, key: Option<T>): T {
    match key
    case Some(v) => v
    case None => current
  }

  /** Record identifiers are strings. */
  type Id = string

  /** A `Date`, represented by its time value: milliseconds since the epoch. */
  type Timestamp = int

  /** A money amount. The source uses an unvalidated `number`; no sign is imposed. */
  type Amount = int

  // ---------------------------------------------------------------------------
  // Enumerations. Each TypeScript union of string literals becomes a datatype,
  // with the literal spelling of each constructor and a parser that accepts
  // exactly those literals.
  // ---------------------------------------------------------------------------

  /** How often a budget recurs. */
  datatype Period = Weekly | Monthly | Yearly

  function PeriodName(p: Period): string {
    match p
    case Weekly => "weekly"
    case Monthly => "monthly"
    case Yearly => "yearly"
  }

  /** Accepts exactly the three period literals. */
  function ParsePeriod(s: string): (r: Option<Period>)
    ensures r.Some? <==> s in {"weekly", "monthly", "yearly"}
    ensures r.Some? ==> PeriodName(r.value) == s
  {
    if s == "weekly" then Some(Weekly)
    else if s == "monthly" then Some(Monthly)
    else if s == "yearly" then Some(Yearly)
    else None
  }

  lemma PeriodRoundTrip(p: Period)
    ensures ParsePeriod(PeriodName(p)) == Some(p)
  {
  }

  /** Categories of an obligatory expense. */
  datatype NeedCategory =
    | Housing | Food | Transportation | Utilities | Healthcare | Insurance | NeedOther

  function NeedCategoryName(c: NeedCategory): string {
    match c
    case Housing => "housing"
    case Food => "food"
    case Transportation => "transportation"
    case Utilities => "utilities"
    case Healthcare => "healthcare"
    case Insurance => "insurance"
    case NeedOther => "other"
  }

  /** Accepts exactly the seven need-category literals. */
  function ParseNeedCategory(s: string): (r: Option<NeedCategory>)
    ensures r.Some? <==> s in {"housing", "food", "transportation", "utilities", "healthcare", "insurance", "other"}
    ensures r.Some? ==> NeedCategoryName(r.value) == s
  {
    if s == "housing" then Some(Housing)
    else if s == "food" then Some(Food)
    else if s == "transportation" then Some(Transportation)
    else if s == "utilities" then Some(Utilities)
    else if s == "healthcare" then Some(Healthcare)
    else if s == "insurance" then Some(Insurance)
    else if s == "other" then Some(NeedOther)
    else None
  }

  lemma NeedCategoryRoundTrip(c: NeedCategory)
    ensures ParseNeedCategory(NeedCategoryName(c)) == Some(c)
  {
  }

  /** Categories of a discretionary expense. */
  datatype WantCategory =
    | Entertainment | Shopping | Dining | Travel | Hobbies | WantOther

  function WantCategoryName(c: WantCategory): string {
    match c
    case Entertainment => "entertainment"
    case Shopping => "shopping"
    case Dining => "dining"
    case Travel => "travel"
    case Hobbies => "hobbies"
    case WantOther => "other"
  }

  /** Accepts exactly the six want-category literals. */
  function ParseWantCategory(s: string): (r: Option<WantCategory>)
    ensures r.Some? <==> s in {"entertainment", "shopping", "dining", "travel", "hobbies", "other"}
    ensures r.Some? ==> WantCategoryName(r.value) == s
  {
    if s == "entertainment" then Some(Entertainment)
    else if s == "shopping" then Some(Shopping)
    else if s == "dining" then Some(Dining)
    else if s == "travel" then Some(Travel)
    else if s == "hobbies" then Some(Hobbies)
    else if s == "other" then Some(WantOther)
    else None
  }

  lemma WantCategoryRoundTrip(c: WantCategory)
    ensures ParseWantCategory(WantCategoryName(c)) == Some(c)
  {
  }

  /** Priority of a need or a want. */
  datatype Priority = High | Medium | Low

  function PriorityName(p: Priority): string {
    match p
    case High => "high"
    case Medium => "medium"
    case Low => "low"
  }

  /** Accepts exactly the three priority literals. */
  function ParsePriority(s: string): (r: Option<Priority>)
    ensures r.Some? <==> s in {"high", "medium", "low"}
    ensures r.Some? ==> PriorityName(r.value) == s
  {
    if s == "high" then Some(High)
    else if s == "medium" then Some(Medium)
    else if s == "low" then Some(Low)
    else None
  }

  lemma PriorityRoundTrip(p: Priority)
    ensures ParsePriority(PriorityName(p)) == Some(p)
  {
  }

  // ---------------------------------------------------------------------------
  // Records
  // ---------------------------------------------------------------------------

  datatype Budget = Budget(
    id: Id,
    name: string,
    amount: Amount,
    category: string,       // free text
    period: Period,
    createdAt: Timestamp,
    updatedAt: Timestamp)

  datatype Need = Need(
    id: Id,
    name: string,
    amount: Amount,
    category: NeedCategory,
    priority: Priority,
    dueDate: Option<Timestamp>,
    isPaid: bool,
    createdAt: Timestamp,
    updatedAt: Timestamp)

  datatype Want = Want(
    id: Id,
    name: string,
    amount: Amount,
    category: WantCategory,
    priority: Priority,
    targetDate: Option<Timestamp>,
    isSaved: bool,
    savedAmount: Amount,    // progress towards `amount`, independent of `isSaved`
    createdAt: Timestamp,
    updatedAt: Timestamp)

  /** The six derived totals. */
  datatype Summary = Summary(
    totalBudget: Amount,
    totalNeeds: Amount,
    totalWants: Amount,
    remainingBudget: Amount,
    needsPaid: Amount,
    wantsSaved: Amount)

  // ---------------------------------------------------------------------------
  // What an add action takes: the record without id, createdAt and updatedAt.
  // ---------------------------------------------------------------------------

  datatype BudgetDraft = BudgetDraft(
    name: string, amount: Amount, category: string, period: Period)

  datatype NeedDraft = NeedDraft(
    name: string, amount: Amount, category: NeedCategory, priority: Priority,
    dueDate: Option<Timestamp>, isPaid: bool)

  datatype WantDraft = WantDraft(
    name: string, amount: Amount, category: WantCategory, priority: Priority,
    targetDate: Option<Timestamp>, isSaved: bool, savedAmount: Amount)

  function BudgetDraftOf(b: Budget): BudgetDraft {
    BudgetDraft(b.name, b.amount, b.category, b.period)
  }

  function NeedDraftOf(n: Need): NeedDraft {
    NeedDraft(n.name, n.amount, n.category, n.priority, n.dueDate, n.isPaid)
  }

  function WantDraftOf(w: Want): WantDraft {
    WantDraft(w.name, w.amount, w.category, w.priority, w.targetDate, w.isSaved, w.savedAmount)
  }

  // ---------------------------------------------------------------------------
  // What an update action takes: every field except id and createdAt, each
  // optional. `None` means the key is absent from the patch object. For the
  // optional fields dueDate/targetDate, `Some(None)` is a key present with the
  // value `undefined`, which clears the field when spread. A patch may carry
  // updatedAt, but the update action always overrides it with the clock.
  // ---------------------------------------------------------------------------

  datatype BudgetPatch = BudgetPatch(
    name: Option<string>,
    amount: Option<Amount>,
    category: Option<string>,
    period: Option<Period>,
    updatedAt: Option<Timestamp>)

  datatype NeedPatch = NeedPatch(
    name: Option<string>,
    amount: Option<Amount>,
    category: Option<NeedCategory>,
    priority: Option<Priority>,
    dueDate: Option<Option<Timestamp>>,
    isPaid: Option<bool>,
    updatedAt: Option<Timestamp>)

  datatype WantPatch = WantPatch(
    name: Option<string>,
    amount: Option<Amount>,
    category: Option<WantCategory>,
    priority: Option<Priority>,
    targetDate: Option<Option<Timestamp>>,
    isSaved: Option<bool>,
    savedAmount: Option<Amount>,
    updatedAt: Option<Timestamp>)

  /** `{ ...p, ...q }`: a key present in the later patch wins. */
  function MergeBudgetPatch(p: BudgetPatch, q: BudgetPatch): BudgetPatch {
    BudgetPatch(
      Later(p.name, q.name), Later(p.amount, q.amount), Later(p.category, q.category),
      Later(p.period, q.period), Later(p.updatedAt, q.updatedAt))
  }

  function MergeNeedPatch(p: NeedPatch, q: NeedPatch): NeedPatch {
    NeedPatch(
      Later(p.name, q.name), Later(p.amount, q.amount), Later(p.category, q.category),
      Later(p.priority, q.priority), Later(p.dueDate, q.dueDate), Later(p.isPaid, q.isPaid),
      Later(p.updatedAt, q.updatedAt))
  }

  function MergeWantPatch(p: WantPatch, q: WantPatch): WantPatch {
    WantPatch(
      Later(p.name, q.name), Later(p.amount, q.amount), Later(p.category, q.category),
      Later(p.priority, q.priority), Later(p.targetDate, q.targetDate), Later(p.isSaved, q.isSaved),
      Later(p.savedAmount, q.savedAmount), Later(p.updatedAt, q.updatedAt))
  }

  /** One key of an object spread: the later object's value if it has the key. */
  function Later<T>(earlier: Option<T>, later: Option<T>): Option<T> {
    if later.Some? then later else earlier
  }
}
