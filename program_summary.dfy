/**
 * The back end's program summary: four budget sums over every budget line
 * and four status counts, with a missing sum (SQL `SUM` over no rows)
 * reported as zero.
 */
module ProgramSummary {
  import opened Wrappers
  import opened Entities
  import opened Rollups

  /** SQL `SUM` over a column: no value at all when there are no rows. */
  function AggregateSum(values: seq<int>): (r: Option<int>)
    ensures r.None? <==> values == []
    ensures r.Some? ==> r.value == Total(values)
  {
    if values == [] then None else Some(Total(values))
  }

  /** `float(value or 0)`: a missing sum reads as zero (a zero sum is zero either way). */
  function SafeTotal(value: Option<int>): (r: int)
    ensures value.None? ==> r == 0
    ensures value.Some? ==> r == value.value
  {
    if value.Some? && value.value != 0 then value.value else 0
  }

  /** The JSON object the view answers with. */
  datatype Summary = Summary(
    total_original_budget: int, total_variations: int, total_forecast_cost: int, total_actual_spend: int,
    completed: nat, total: nat, open_risks: nat, pending_approvals: nat)

  /** The view's `get`, over every row of each table. */
  function ProgramSummaryOf(budgets: seq<BudgetItem>, milestones: seq<Milestone>, risks: seq<Risk>,
                            approvals: seq<Approval>): Summary
  {
    Summary(
      SafeTotal(AggregateSum(Originals(budgets))),
      SafeTotal(AggregateSum(Variations(budgets))),
      SafeTotal(AggregateSum(Forecasts(budgets))),
      SafeTotal(AggregateSum(Actuals(budgets))),
      MilestonesDone(milestones), |milestones|, OpenRisks(risks), PendingApprovals(approvals))
  }

  /** The four budget figures of the summary, as one record. */
  function SummaryTotals(s: Summary): BudgetTotals {
    BudgetTotals(s.total_original_budget, s.total_variations, s.total_forecast_cost, s.total_actual_spend)
  }

  /**
   * Each total is the sum of its field over all budget lines (so zero, not
   * null, when there are none), which is what the workspace's reduce
   * computes over the same lines.
   */
  lemma SummaryTotalsAreSums(budgets: seq<BudgetItem>, milestones: seq<Milestone>, risks: seq<Risk>,
                             approvals: seq<Approval>)
    ensures var s := ProgramSummaryOf(budgets, milestones, risks, approvals);
            && s.total_original_budget == Total(Originals(budgets))
            && s.total_variations == Total(Variations(budgets))
            && s.total_forecast_cost == Total(Forecasts(budgets))
            && s.total_actual_spend == Total(Actuals(budgets))
            && SummaryTotals(s) == SumBudgets(budgets)
  {
    SumBudgetsFieldwise(budgets);
  }

  /**
   * The counts: done milestones never exceed all milestones, and open risks
   * are all risks less the closed ones.
   */
  lemma SummaryCounts(budgets: seq<BudgetItem>, milestones: seq<Milestone>, risks: seq<Risk>,
                      approvals: seq<Approval>)
    ensures var s := ProgramSummaryOf(budgets, milestones, risks, approvals);
            && s.completed <= s.total == |milestones|
            && s.open_risks + Count(risks, IsClosed) == |risks|
            && s.pending_approvals <= |approvals|
  {
    CountComplement(risks, IsClosed, IsOpenRisk);
  }

  /**
   * The summary is program-wide: for any project, its budget totals are the
   * workspace's totals for that project plus the totals of every other line.
   */
  lemma SummarySpansAllProjects(budgets: seq<BudgetItem>, milestones: seq<Milestone>, risks: seq<Risk>,
                                approvals: seq<Approval>, projectId: Option<string>)
    ensures SummaryTotals(ProgramSummaryOf(budgets, milestones, risks, approvals))
            == Plus(SumBudgets(FilterByProject(budgets, BudgetRef, projectId)),
                    SumBudgets(Filter(budgets, OutsideProject(BudgetRef, projectId))))
  {
    SummaryTotalsAreSums(budgets, milestones, risks, approvals);
    BudgetsSplitByProject(budgets, projectId);
  }

  /**
   * When every row belongs to one project, that project's workspace shows
   * the same figures as the program summary.
   */
  lemma SingleProjectAgrees(budgets: seq<BudgetItem>, milestones: seq<Milestone>, risks: seq<Risk>,
                            rfis: seq<Rfi>, approvals: seq<Approval>, projectId: Option<string>)
    requires forall b :: b in budgets ==> BelongsTo(b.projectRef, projectId)
    requires forall m :: m in milestones ==> BelongsTo(m.projectRef, projectId)
    requires forall r :: r in risks ==> BelongsTo(r.projectRef, projectId)
    requires forall a :: a in approvals ==> BelongsTo(a.projectRef, projectId)
    ensures var w := ProjectStats(budgets, milestones, risks, rfis, approvals, projectId);
            var s := ProgramSummaryOf(budgets, milestones, risks, approvals);
            && w.totals == SummaryTotals(s)
            && w.milestoneDone == s.completed && w.milestoneCount == s.total
            && w.openRisks == s.open_risks && w.pendingApprovals == s.pending_approvals
  {
    SummaryTotalsAreSums(budgets, milestones, risks, approvals);
    FilterByProjectExact(budgets, BudgetRef, projectId);
    FilterByProjectExact(milestones, MilestoneRef, projectId);
    FilterByProjectExact(risks, RiskRef, projectId);
    FilterByProjectExact(approvals, ApprovalRef, projectId);
  }
}
