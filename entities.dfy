/**
 * The records the dashboard reads from the API. Each is a flat row tied to
 * a project; only the fields some modelled rule reads are kept. Status
 * fields are strings, as they arrive in JSON; the constants below are the
 * values of the back end's `TextChoices`.
 */
module Entities {
  import opened Wrappers

  /**
   * How a row names its project. The front-end types declare `project_id`;
   * the Django serializers send the foreign key as `project`; either may be
   * missing from a payload.
   */
  datatype ProjectRef = ProjectRef(project_id: Option<string>, project: Option<string>)

  datatype Project = Project(id: string, name: string, location: string, status: string)

  datatype BudgetItem = BudgetItem(
    id: string, projectRef: ProjectRef, category: string, description: string,
    original_budget: int, approved_variations: int, forecast_cost: int, actual_spent: int,
    currency: string, cost_code: string, status: string)

  datatype Milestone = Milestone(
    id: string, projectRef: ProjectRef, name: string, status: string, percent_complete: int)

  datatype Risk = Risk(
    id: string, projectRef: ProjectRef, title: string, description: string, category: string,
    likelihood: int, impact: int, rating: int, status: string, owner: string, due_date: string,
    mitigation_plan: string)

  datatype Rfi = Rfi(
    id: string, projectRef: ProjectRef, rfi_number: string, title: string, question: string,
    status: string, raised_by: string, raised_at: string, due_date: string,
    responded_at: Option<string>, response_summary: string)

  datatype Document = Document(
    id: string, projectRef: ProjectRef, doc_type: string, title: string, status: string)

  datatype MediaItem = MediaItem(
    id: string, projectRef: ProjectRef, title: string, media_type: Option<string>)

  datatype Approval = Approval(
    id: string, projectRef: ProjectRef, entity_type: string, entity_id: string,
    status: string, requested_by: string, reviewed_by: Option<string>, decision_note: string)

  datatype ActivityLog = ActivityLog(
    id: string, projectRef: ProjectRef, actor: string, action: string,
    entity_type: string, entity_id: string, created_at: string)

  // Values of the back end's TextChoices that the roll-ups and classifiers test for.
  const BudgetOnTrack := "on_track"
  const BudgetAtRisk := "at_risk"
  const BudgetOffTrack := "off_track"
  const MilestoneDone := "done"
  const MilestoneInProgress := "in_progress"
  const MilestoneAtRisk := "at_risk"
  const RiskOpen := "open"
  const RiskMitigating := "mitigating"
  const RiskClosed := "closed"
  const RfiOpen := "open"
  const RfiAnswered := "answered"
  const RfiClosed := "closed"
  const ApprovalPending := "pending"
  const ApprovalApproved := "approved"
  const ApprovalRejected := "rejected"
  const MediaPhoto := "photo"
  const MediaUpdate := "update"
  const MediaCameraFeed := "camera_feed"
}
