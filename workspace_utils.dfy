/**
 * The shared helpers of the project workspace: badge tones for each
 * entity's status, resolution of a row's project id, and the date helpers
 * whose result does not depend on the clock or the time zone.
 */
module WorkspaceUtils {
  import opened Wrappers
  import opened Entities

  /** The colour family of a status badge. */
  datatype Tone = Success | Warning | Danger | Info | Neutral

  /** Tone of a budget line: on track is good, at risk a warning, anything else bad. */
  function BudgetStatusTone(status: string): (t: Tone)
    ensures t == Success <==> status == BudgetOnTrack
    ensures t == Warning <==> status == BudgetAtRisk
    ensures t == Danger <==> status != BudgetOnTrack && status != BudgetAtRisk
  {
    if status == BudgetOnTrack then Success
    else if status == BudgetAtRisk then Warning
    else Danger
  }

  /** Tone of a milestone: done, in progress, and a warning for everything else. */
  function MilestoneTone(status: string): (t: Tone)
    ensures t == Success <==> status == MilestoneDone
    ensures t == Info <==> status == MilestoneInProgress
    ensures t == Warning <==> status != MilestoneDone && status != MilestoneInProgress
  {
    if status == MilestoneDone then Success
    else if status == MilestoneInProgress then Info
    else Warning
  }

  /** Tone of an RFI: answered, open, and neutral for everything else. */
  function RfiTone(status: string): (t: Tone)
    ensures t == Success <==> status == RfiAnswered
    ensures t == Warning <==> status == RfiOpen
    ensures t == Neutral <==> status != RfiAnswered && status != RfiOpen
  {
    if status == RfiAnswered then Success
    else if status == RfiOpen then Warning
    else Neutral
  }

  /** Tone of an approval: approved, pending, and danger for everything else. */
  function ApprovalTone(status: string): (t: Tone)
    ensures t == Success <==> status == ApprovalApproved
    ensures t == Warning <==> status == ApprovalPending
    ensures t == Danger <==> status != ApprovalApproved && status != ApprovalPending
  {
    if status == ApprovalApproved then Success
    else if status == ApprovalPending then Warning
    else Danger
  }

  /** Tone of a media item by its type: camera feed, photo, and neutral otherwise. */
  function MediaTone(mediaType: string): (t: Tone)
    ensures t == Info <==> mediaType == MediaCameraFeed
    ensures t == Success <==> mediaType == MediaPhoto
    ensures t == Neutral <==> mediaType != MediaCameraFeed && mediaType != MediaPhoto
  {
    if mediaType == MediaCameraFeed then Info
    else if mediaType == MediaPhoto then Success
    else Neutral
  }

  /** Each classifier tells the back end's three status values apart. */
  lemma ClassifiersSeparateBackEndStatuses()
    ensures BudgetStatusTone(BudgetOnTrack) != BudgetStatusTone(BudgetAtRisk)
    ensures BudgetStatusTone(BudgetAtRisk) != BudgetStatusTone(BudgetOffTrack)
    ensures BudgetStatusTone(BudgetOnTrack) != BudgetStatusTone(BudgetOffTrack)
    ensures MilestoneTone(MilestoneDone) != MilestoneTone(MilestoneInProgress)
    ensures MilestoneTone(MilestoneInProgress) != MilestoneTone(MilestoneAtRisk)
    ensures MilestoneTone(MilestoneDone) != MilestoneTone(MilestoneAtRisk)
    ensures RfiTone(RfiOpen) != RfiTone(RfiAnswered)
    ensures RfiTone(RfiAnswered) != RfiTone(RfiClosed)
    ensures RfiTone(RfiOpen) != RfiTone(RfiClosed)
    ensures ApprovalTone(ApprovalPending) != ApprovalTone(ApprovalApproved)
    ensures ApprovalTone(ApprovalApproved) != ApprovalTone(ApprovalRejected)
    ensures ApprovalTone(ApprovalPending) != ApprovalTone(ApprovalRejected)
    ensures MediaTone(MediaPhoto) != MediaTone(MediaUpdate)
    ensures MediaTone(MediaUpdate) != MediaTone(MediaCameraFeed)
    ensures MediaTone(MediaPhoto) != MediaTone(MediaCameraFeed)
  {
  }

  /**
   * `project_id ?? project ?? ''`: the first of the two that is present,
   * even when it is the empty string.
   */
  function ResolveProjectId(r: ProjectRef): (id: string)
    ensures r.project_id.Some? ==> id == r.project_id.value
    ensures r.project_id.None? && r.project.Some? ==> id == r.project.value
    ensures r.project_id.None? && r.project.None? ==> id == ""
  {
    r.project_id.GetOr(r.project.GetOr(""))
  }

  /** A present `project_id` wins even when it is empty and `project` names a project. */
  lemma EmptyProjectIdShadowsProject(p: string)
    ensures ResolveProjectId(ProjectRef(Some(""), Some(p))) == ""
  {
  }

  /** The placeholder shown for a missing date. */
  const Dash: string := "\U{2014}"

  /**
   * What a date helper renders: a string fixed by the input alone, or a
   * rendering of `new Date(source)` in the browser's time zone, which the
   * model does not compute.
   */
  datatype DateText = Text(s: string) | ClockDependent(source: string)

  /** JavaScript falsiness of an optional string: missing or empty. */
  predicate Falsy(value: Option<string>) {
    value.None? || value.value == ""
  }

  /** `formatDate`: a dash for no value, a date-only string as it is, and the local date otherwise. */
  function FormatDate(value: Option<string>): DateText {
    if Falsy(value) then Text(Dash)
    else if 'T' !in value.value then Text(value.value)
    else ClockDependent(value.value)
  }

  /** `toDateInput`: the empty string for no value, `formatDate` otherwise. */
  function ToDateInput(value: Option<string>): DateText {
    if Falsy(value) then Text("") else FormatDate(value)
  }

  /** `toDateTimeInput`: the empty string for no value, the local date and time otherwise. */
  function ToDateTimeInput(value: Option<string>): DateText {
    if Falsy(value) then Text("") else ClockDependent(value.value)
  }

  /**
   * formatDate shows a dash for a missing or empty value (and for a value
   * that is itself a dash), passes date-only strings through, and needs the
   * clock exactly for non-empty strings containing 'T'.
   */
  lemma FormatDateCases(value: Option<string>)
    ensures Falsy(value) ==> FormatDate(value) == Text(Dash)
    ensures FormatDate(value) == Text(Dash) ==> Falsy(value) || value.value == Dash
    ensures !Falsy(value) && 'T' !in value.value ==> FormatDate(value) == Text(value.value)
    ensures FormatDate(value).ClockDependent? <==> !Falsy(value) && 'T' in value.value
  {
  }

  /** Formatting what formatDate printed prints it again: every fixed rendering is a fixed point. */
  lemma FormatDateFixedPoint(value: Option<string>, s: string)
    requires FormatDate(value) == Text(s)
    ensures FormatDate(Some(s)) == Text(s)
  {
    assert 'T' !in Dash;
  }

  /** toDateInput gives '' exactly for no value and passes date-only strings through unchanged. */
  lemma ToDateInputCases(value: Option<string>)
    ensures ToDateInput(value) == Text("") <==> Falsy(value)
    ensures !Falsy(value) && 'T' !in value.value ==> ToDateInput(value) == Text(value.value)
    ensures !Falsy(value) ==> ToDateInput(value) == FormatDate(value)
  {
  }

  /** Feeding a fixed toDateInput result back in returns it unchanged, so editing a date round-trips. */
  lemma ToDateInputFixedPoint(value: Option<string>, s: string)
    requires ToDateInput(value) == Text(s)
    ensures ToDateInput(Some(s)) == Text(s)
  {
  }

  /** toDateTimeInput gives '' exactly for no value; any other value needs the clock. */
  lemma ToDateTimeInputCases(value: Option<string>)
    ensures ToDateTimeInput(value) == Text("") <==> Falsy(value)
    ensures !Falsy(value) ==> ToDateTimeInput(value).ClockDependent?
  {
  }

  /**
   * What a date input holds for a helper's result: the fixed text, or the
   * browser's local rendering `local` of the parsed date.
   */
  function Shown(d: DateText, local: string -> string): string {
    match d
    case Text(s) => s
    case ClockDependent(source) => local(source)
  }

  /**
   * `toDateTimePayload`: no value for an empty input, otherwise the ISO form
   * `toIso` (`new Date(value).toISOString()`) of the local date and time.
   */
  function ToDateTimePayload(value: string, toIso: string -> string): (r: Option<string>)
    ensures r.None? <==> value == ""
    ensures r.Some? ==> r.value == toIso(value)
  {
    if value == "" then None else Some(toIso(value))
  }
}
