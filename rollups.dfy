/**
 * The roll-ups both workspace views compute from the fetched lists: the
 * per-project filter, status counts, and field-wise budget totals. The
 * totals are built, as in the source, by a reduce that adds each item into
 * a mutable accumulator.
 */
module Rollups {
  import opened Wrappers
  import opened Entities
  import opened WorkspaceUtils

  /** `s.filter(p)`. */
  function Filter<T(!new)>(s: seq<T>, p: T -> bool): (r: seq<T>)
    ensures |r| <= |s|
    ensures forall x :: x in r <==> x in s && p(x)
  {
    if s == [] then [] else (if p(s[0]) then [s[0]] else []) + Filter(s[1..], p)
  }

  /** Filtering a concatenation filters each part in place: the kept items keep their order. */
  lemma {:induction false} FilterAppend<T(!new)>(a: seq<T>, b: seq<T>, p: T -> bool)
    ensures Filter(a + b, p) == Filter(a, p) + Filter(b, p)
  {
    if a == [] {
      assert a + b == b;
    } else {
      assert (a + b)[0] == a[0];
      assert (a + b)[1..] == a[1..] + b;
      FilterAppend(a[1..], b, p);
    }
  }

  /** A filter that keeps nothing gives the empty list. */
  lemma {:induction false} FilterNone<T(!new)>(s: seq<T>, p: T -> bool)
    requires forall x :: x in s ==> !p(x)
    ensures Filter(s, p) == []
  {
    if s != [] {
      FilterNone(s[1..], p);
    }
  }

  /** Filters by two tests that agree on every item are equal. */
  lemma {:induction false} FilterExtensional<T(!new)>(s: seq<T>, p: T -> bool, q: T -> bool)
    requires forall x :: x in s ==> p(x) == q(x)
    ensures Filter(s, p) == Filter(s, q)
  {
    if s != [] {
      FilterExtensional(s[1..], p, q);
    }
  }

  /** Filtering twice by the same test is filtering once. */
  lemma {:induction false} FilterIdempotent<T(!new)>(s: seq<T>, p: T -> bool)
    ensures Filter(Filter(s, p), p) == Filter(s, p)
  {
    if s != [] {
      FilterIdempotent(s[1..], p);
      FilterAppend(if p(s[0]) then [s[0]] else [], Filter(s[1..], p), p);
    }
  }

  /** A filter that keeps everything is the identity. */
  lemma {:induction false} FilterAll<T(!new)>(s: seq<T>, p: T -> bool)
    requires forall x :: x in s ==> p(x)
    ensures Filter(s, p) == s
  {
    if s != [] {
      FilterAll(s[1..], p);
    }
  }

  /** `s.filter(p).length`. */
  function Count<T(!new)>(s: seq<T>, p: T -> bool): nat {
    |Filter(s, p)|
  }

  /** Every item is counted by a test or by its negation, never both. */
  lemma {:induction false} CountComplement<T(!new)>(s: seq<T>, p: T -> bool, q: T -> bool)
    requires forall x :: q(x) == !p(x)
    ensures Count(s, p) + Count(s, q) == |s|
  {
    if s != [] {
      CountComplement(s[1..], p, q);
    }
  }

  /** Counts add up over a concatenation. */
  lemma CountAppend<T(!new)>(a: seq<T>, b: seq<T>, p: T -> bool)
    ensures Count(a + b, p) == Count(a, p) + Count(b, p)
  {
    FilterAppend(a, b, p);
  }

  /** `resolveProjectId(item) === projectId`; an undefined route id matches nothing. */
  predicate BelongsTo(r: ProjectRef, projectId: Option<string>) {
    projectId.Some? && ResolveProjectId(r) == projectId.value
  }

  /** The filter test of one project, as a function value. */
  function InProject<T>(refOf: T -> ProjectRef, projectId: Option<string>): T -> bool {
    (x: T) => BelongsTo(refOf(x), projectId)
  }

  /** Its negation: rows of any other project, or every row when there is no route id. */
  function OutsideProject<T>(refOf: T -> ProjectRef, projectId: Option<string>): T -> bool {
    (x: T) => !BelongsTo(refOf(x), projectId)
  }

  /** How each entity names its project. */
  function BudgetRef(b: BudgetItem): ProjectRef { b.projectRef }
  function MilestoneRef(m: Milestone): ProjectRef { m.projectRef }
  function RiskRef(r: Risk): ProjectRef { r.projectRef }
  function RfiRef(r: Rfi): ProjectRef { r.projectRef }
  function ApprovalRef(a: Approval): ProjectRef { a.projectRef }

  /** The items of one project, in their original order. */
  function FilterByProject<T(!new)>(items: seq<T>, refOf: T -> ProjectRef, projectId: Option<string>): seq<T> {
    Filter(items, InProject(refOf, projectId))
  }

  /**
   * The project filter keeps exactly the items whose resolved project id is
   * the route's, keeps them in order, and keeps nothing without a route id.
   */
  lemma FilterByProjectExact<T(!new)>(items: seq<T>, refOf: T -> ProjectRef, projectId: Option<string>)
    ensures forall x :: x in FilterByProject(items, refOf, projectId)
                    <==> x in items && projectId.Some? && ResolveProjectId(refOf(x)) == projectId.value
    ensures projectId.None? ==> FilterByProject(items, refOf, projectId) == []
    ensures (forall x :: x in items ==> !BelongsTo(refOf(x), projectId)) ==>
              FilterByProject(items, refOf, projectId) == []
    ensures (forall x :: x in items ==> BelongsTo(refOf(x), projectId)) ==>
              FilterByProject(items, refOf, projectId) == items
    ensures forall a, b :: items == a + b ==>
              FilterByProject(items, refOf, projectId)
                == FilterByProject(a, refOf, projectId) + FilterByProject(b, refOf, projectId)
  {
    forall a, b | items == a + b
      ensures FilterByProject(items, refOf, projectId)
                == FilterByProject(a, refOf, projectId) + FilterByProject(b, refOf, projectId)
    {
      FilterAppend(a, b, InProject(refOf, projectId));
    }
    if forall x :: x in items ==> !BelongsTo(refOf(x), projectId) {
      FilterNone(items, InProject(refOf, projectId));
    }
    if forall x :: x in items ==> BelongsTo(refOf(x), projectId) {
      FilterAll(items, InProject(refOf, projectId));
    }
  }

  /** The four budget figures a workspace shows. */
  datatype BudgetTotals = BudgetTotals(original: int, variations: int, forecast: int, actual: int)

  const ZeroTotals := BudgetTotals(0, 0, 0, 0)

  /** One step of the reduce: the item's four amounts added to the accumulator. */
  function AddItem(acc: BudgetTotals, item: BudgetItem): BudgetTotals {
    BudgetTotals(acc.original + item.original_budget, acc.variations + item.approved_variations,
                 acc.forecast + item.forecast_cost, acc.actual + item.actual_spent)
  }

  /** `items.reduce(add, zero)`: the totals after folding in every item from the left. */
  function SumBudgets(items: seq<BudgetItem>): BudgetTotals {
    if items == [] then ZeroTotals else AddItem(SumBudgets(items[..|items| - 1]), items[|items| - 1])
  }

  /** The sum of a list of amounts, first to last. */
  function Total(values: seq<int>): int {
    if values == [] then 0 else values[0] + Total(values[1..])
  }

  function Originals(items: seq<BudgetItem>): seq<int> { seq(|items|, k requires 0 <= k < |items| => items[k].original_budget) }
  function Variations(items: seq<BudgetItem>): seq<int> { seq(|items|, k requires 0 <= k < |items| => items[k].approved_variations) }
  function Forecasts(items: seq<BudgetItem>): seq<int> { seq(|items|, k requires 0 <= k < |items| => items[k].forecast_cost) }
  function Actuals(items: seq<BudgetItem>): seq<int> { seq(|items|, k requires 0 <= k < |items| => items[k].actual_spent) }

  /** Summing a list with one more amount at the end adds that amount. */
  lemma {:induction false} TotalSnoc(values: seq<int>, v: int)
    ensures Total(values + [v]) == Total(values) + v
  {
    if values != [] {
      assert (values + [v])[1..] == values[1..] + [v];
      TotalSnoc(values[1..], v);
    }
  }

  /** Sums add up over a concatenation. */
  lemma {:induction false} TotalAppend(a: seq<int>, b: seq<int>)
    ensures Total(a + b) == Total(a) + Total(b)
  {
    if a == [] {
      assert a + b == b;
    } else {
      assert (a + b)[0] == a[0];
      assert (a + b)[1..] == a[1..] + b;
      TotalAppend(a[1..], b);
    }
  }

  /** Each budget total is the sum of its own field over the items, whatever the others hold. */
  lemma {:induction false} SumBudgetsFieldwise(items: seq<BudgetItem>)
    ensures SumBudgets(items) == BudgetTotals(Total(Originals(items)), Total(Variations(items)),
                                              Total(Forecasts(items)), Total(Actuals(items)))
  {
    if items != [] {
      var init := items[..|items| - 1];
      var last := items[|items| - 1];
      SumBudgetsFieldwise(init);
      assert Originals(items) == Originals(init) + [last.original_budget];
      assert Variations(items) == Variations(init) + [last.approved_variations];
      assert Forecasts(items) == Forecasts(init) + [last.forecast_cost];
      assert Actuals(items) == Actuals(init) + [last.actual_spent];
      TotalSnoc(Originals(init), last.original_budget);
      TotalSnoc(Variations(init), last.approved_variations);
      TotalSnoc(Forecasts(init), last.forecast_cost);
      TotalSnoc(Actuals(init), last.actual_spent);
    }
  }

  /** The field-wise sum of two totals. */
  function Plus(a: BudgetTotals, b: BudgetTotals): BudgetTotals {
    BudgetTotals(a.original + b.original, a.variations + b.variations, a.forecast + b.forecast, a.actual + b.actual)
  }

  /** Totals of a concatenation are the sum of the parts' totals. */
  lemma {:induction false} SumBudgetsAppend(a: seq<BudgetItem>, b: seq<BudgetItem>)
    ensures SumBudgets(a + b) == Plus(SumBudgets(a), SumBudgets(b))
  {
    if b == [] {
      assert a + b == a;
    } else {
      var init := b[..|b| - 1];
      assert (a + b)[..|a + b| - 1] == a + init;
      assert (a + b)[|a + b| - 1] == b[|b| - 1];
      SumBudgetsAppend(a, init);
    }
  }

  /** Appending one item adds its amounts, as one more step of the reduce. */
  lemma SumBudgetsSnoc(a: seq<BudgetItem>, x: BudgetItem)
    ensures SumBudgets(a + [x]) == AddItem(SumBudgets(a), x)
  {
    assert (a + [x])[..|a + [x]| - 1] == a;
  }

  /** Filtering one item keeps it exactly when it passes. */
  lemma FilterSingle<T(!new)>(x: T, p: T -> bool)
    ensures Filter([x], p) == if p(x) then [x] else []
  {
    assert [x][1..] == [];
  }

  /** Adding an item to a sum of totals adds it to either part. */
  lemma AddItemPlus(a: BudgetTotals, b: BudgetTotals, x: BudgetItem)
    ensures AddItem(Plus(a, b), x) == Plus(AddItem(a, x), b) == Plus(a, AddItem(b, x))
  {
  }

  /** One more item keeps the split of the totals. */
  lemma PartitionStep(init: seq<BudgetItem>, x: BudgetItem, p: BudgetItem -> bool, q: BudgetItem -> bool)
    requires q(x) == !p(x)
    requires SumBudgets(init) == Plus(SumBudgets(Filter(init, p)), SumBudgets(Filter(init, q)))
    ensures SumBudgets(init + [x]) == Plus(SumBudgets(Filter(init + [x], p)), SumBudgets(Filter(init + [x], q)))
  {
    var a, b := Filter(init, p), Filter(init, q);
    SumBudgetsSnoc(init, x);
    FilterAppend(init, [x], p);
    FilterAppend(init, [x], q);
    FilterSingle(x, p);
    FilterSingle(x, q);
    AddItemPlus(SumBudgets(a), SumBudgets(b), x);
    if p(x) {
      assert Filter(init + [x], p) == a + [x];
      assert Filter(init + [x], q) == b;
      SumBudgetsSnoc(a, x);
    } else {
      assert Filter(init + [x], p) == a;
      assert Filter(init + [x], q) == b + [x];
      SumBudgetsSnoc(b, x);
    }
  }

  /**
   * Splitting the items by a test and its negation splits the totals: the
   * totals of all items are the kept items' totals plus the rest's.
   */
  lemma {:induction false} SumBudgetsPartition(s: seq<BudgetItem>, p: BudgetItem -> bool, q: BudgetItem -> bool)
    requires forall x :: q(x) == !p(x)
    ensures SumBudgets(s) == Plus(SumBudgets(Filter(s, p)), SumBudgets(Filter(s, q)))
  {
    if s != [] {
      var init, x := s[..|s| - 1], s[|s| - 1];
      assert s == init + [x];
      SumBudgetsPartition(init, p, q);
      PartitionStep(init, x, p, q);
    }
  }

  /** The accumulator object of the reduce, whose four fields are bumped in place. */
  class BudgetAccumulator {
    var original: int
    var variations: int
    var forecast: int
    var actual: int

    /** `{ original: 0, variations: 0, forecast: 0, actual: 0 }`. */
    constructor ()
      ensures Value() == ZeroTotals
    {
      original, variations, forecast, actual := 0, 0, 0, 0;
    }

    /** The totals the accumulator currently holds. */
    function Value(): BudgetTotals
      reads this
    {
      BudgetTotals(original, variations, forecast, actual)
    }

    /** The reducer's body: `acc.original += …` and so on for the four fields. */
    method Add(item: BudgetItem)
      modifies this
      ensures Value() == AddItem(old(Value()), item)
    {
      original := original + item.original_budget;
      variations := variations + item.approved_variations;
      forecast := forecast + item.forecast_cost;
      actual := actual + item.actual_spent;
    }
  }

  /** `budgetTotals`: run the reduce over the items and read the accumulator. */
  method ComputeBudgetTotals(items: seq<BudgetItem>) returns (totals: BudgetTotals)
    ensures totals == SumBudgets(items)
  {
    var acc := new BudgetAccumulator();
    var i := 0;
    while i < |items|
      invariant 0 <= i <= |items|
      invariant acc.Value() == SumBudgets(items[..i])
    {
      assert items[..i + 1][..i] == items[..i];
      acc.Add(items[i]);
      i := i + 1;
    }
    assert items[..|items|] == items;
    totals := acc.Value();
  }

  predicate IsDone(m: Milestone) { m.status == MilestoneDone }
  predicate IsClosed(r: Risk) { r.status == RiskClosed }
  predicate IsOpenRisk(r: Risk) { r.status != RiskClosed }
  predicate IsOpenRfi(r: Rfi) { r.status == RfiOpen }
  predicate IsPending(a: Approval) { a.status == ApprovalPending }

  /** Milestones whose status is done. */
  function MilestonesDone(milestones: seq<Milestone>): nat {
    Count(milestones, IsDone)
  }

  /** Risks whose status is anything but closed. */
  function OpenRisks(risks: seq<Risk>): nat {
    Count(risks, IsOpenRisk)
  }

  /** RFIs whose status is exactly open; answered and closed ones are not counted. */
  function OpenRfis(rfis: seq<Rfi>): nat {
    Count(rfis, IsOpenRfi)
  }

  /** Approvals awaiting review. */
  function PendingApprovals(approvals: seq<Approval>): nat {
    Count(approvals, IsPending)
  }

  /** The figures of a workspace's stat cards. */
  datatype WorkspaceStats = WorkspaceStats(
    totals: BudgetTotals, milestoneDone: nat, milestoneCount: nat,
    openRisks: nat, openRfis: nat, openItems: nat, pendingApprovals: nat)

  /** The stat cards for one project's already-filtered lists. */
  function Stats(budgets: seq<BudgetItem>, milestones: seq<Milestone>, risks: seq<Risk>,
                 rfis: seq<Rfi>, approvals: seq<Approval>): WorkspaceStats {
    var openRisks := OpenRisks(risks);
    var openRfis := OpenRfis(rfis);
    WorkspaceStats(SumBudgets(budgets), MilestonesDone(milestones), |milestones|,
                   openRisks, openRfis, openRisks + openRfis, PendingApprovals(approvals))
  }

  /** The stat cards of a project: filter every list to it, then roll up. */
  function ProjectStats(budgets: seq<BudgetItem>, milestones: seq<Milestone>, risks: seq<Risk>,
                        rfis: seq<Rfi>, approvals: seq<Approval>, projectId: Option<string>): WorkspaceStats {
    Stats(FilterByProject(budgets, BudgetRef, projectId),
          FilterByProject(milestones, MilestoneRef, projectId),
          FilterByProject(risks, RiskRef, projectId),
          FilterByProject(rfis, RfiRef, projectId),
          FilterByProject(approvals, ApprovalRef, projectId))
  }

  /**
   * What the stat cards promise: done milestones never exceed the milestones,
   * open risks are the risks less the closed ones, open items are open risks
   * plus open RFIs, and counts never exceed their lists.
   */
  lemma StatsBounds(budgets: seq<BudgetItem>, milestones: seq<Milestone>, risks: seq<Risk>,
                    rfis: seq<Rfi>, approvals: seq<Approval>)
    ensures var s := Stats(budgets, milestones, risks, rfis, approvals);
            && s.milestoneDone <= s.milestoneCount == |milestones|
            && s.openRisks + Count(risks, IsClosed) == |risks|
            && s.openItems == s.openRisks + s.openRfis
            && s.openRfis <= |rfis| && s.pendingApprovals <= |approvals|
  {
    CountComplement(risks, IsClosed, IsOpenRisk);
  }

  /** A project with no budget lines shows zero for all four budget figures. */
  lemma NoBudgetsZeroTotals(budgets: seq<BudgetItem>, projectId: Option<string>)
    requires forall b :: b in budgets ==> !BelongsTo(b.projectRef, projectId)
    ensures SumBudgets(FilterByProject(budgets, BudgetRef, projectId)) == ZeroTotals
  {
    FilterByProjectExact(budgets, BudgetRef, projectId);
  }

  /**
   * A project's budget totals and those of every other line add up to the
   * totals of all lines.
   */
  lemma BudgetsSplitByProject(budgets: seq<BudgetItem>, projectId: Option<string>)
    ensures SumBudgets(budgets) == Plus(SumBudgets(FilterByProject(budgets, BudgetRef, projectId)),
                                        SumBudgets(Filter(budgets, OutsideProject(BudgetRef, projectId))))
  {
    SumBudgetsPartition(budgets, InProject(BudgetRef, projectId), OutsideProject(BudgetRef, projectId));
  }
}
