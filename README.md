# Distribution-centre dashboard: the rules behind the pages

This project models the logic of a construction-programme dashboard. The
front end is in React and TypeScript; the back end is a Django REST API. It
leaves out the rendering and keeps the rules that decide what the pages
show and what they send:

- **Activity pagination** in the project workspace (`ActivityPagination`):
  - the total page count and the page slice;
  - the five-wide window of page numbers;
  - First, Previous, Next, Last and page-number navigation, with the
    page-size selector that resets to page 1.
- **The three drawer forms**, budget, risk and RFI (`BudgetForm`, `RiskForm`,
  `RfiForm`, with the shared `FormErrors`):
  - the browser's `required`, `min` and `max` checks on the inputs, which
    stop a submit before its handler runs;
  - the handler's required-field and range checks;
  - the per-field error map and the removal of one key when its field is
    edited;
  - the payload each form submits. The risk form adds rating = likelihood ×
    impact. The RFI form turns its two timestamps into ISO text and sends an
    empty response time as null.
- **The drawer** (`Drawer`): its title, the key that remounts its form, the
  starting values, the create or update call a submit makes, and the
  open/save/close cycle.
- **Approval rows** (`ApprovalActions`):
  - which buttons a row offers;
  - the in-flight marker `approvalAction` of the workspace component and the
    three approve/reject/reopen mutations behind it;
  - the page's per-button busy rule.
- **Roll-ups** (`Rollups`, `WorkspaceViews`, `ProgramSummary`):
  - per-project filtering through `resolveProjectId`;
  - field-wise budget totals, built with the same in-place accumulator as
    the `reduce`;
  - the done-milestone, open-risk, open-RFI and pending-approval counts;
  - the workspace's render guards;
  - the back end's program-wide summary.
- **Helpers** (`ApiClient`, `WorkspaceUtils`, `RisksPage`, `Text`):
  - trailing-slash normalisation of API paths;
  - unwrapping paginated payloads;
  - the CSRF-header decision of `fetchJson`;
  - the status-to-tone classifiers and `ratingTone`;
  - project-id resolution;
  - the date passthroughs.
- **Back-end validators** (`RiskSerializer`, `MilestoneSerializer`):
  - the risk serializer's range and product checks, with fallback to the
    stored risk on a partial update;
  - the 0..100 range of a milestone's percent complete.

Values keep the source's own representation. Statuses are the strings the
API sends, and a form's error map is a `map` from the form's fields to
messages. Text is `seq<char>`. The JavaScript operations the rules use are
written out in `Text`: `trim`, `split`, `indexOf`, and `toUpperCase` and
`toLowerCase` on ASCII. State that the components update step by step is a
class per piece of state:

- the pager;
- each form's values and errors;
- the drawer;
- the approval marker with its mutations;
- the budget accumulator;
- the `Headers` object of `fetchJson`.

Each method's contract ties the new state to a specification function, and
lemmas prove the properties of that function.

## Model

| member | source | states |
|---|---|---|
| ActivityPagination.ActivityFiltered | frontend/src/features/projects/ProjectWorkspace.component.tsx:699-703 | an entry is listed exactly when it is in the fetched results and its resolved project id is the route's; no payload or no results gives the empty list |
| ActivityPagination.TotalPages | frontend/src/features/projects/ProjectWorkspace.component.tsx:704-707 | at least 1; exactly 1 for an empty list; otherwise the least r with count ≤ r·size |
| ActivityPagination.CeilDivBounds | frontend/src/features/projects/ProjectWorkspace.component.tsx:706 | ceil(n/size) is at least 1 for n > 0 and the least multiple count that covers n |
| ActivityPagination.JsSlice | frontend/src/features/projects/ProjectWorkspace.component.tsx:710 | `slice` never yields more than the list holds |
| ActivityPagination.PageItemsRange | frontend/src/features/projects/ProjectWorkspace.component.tsx:708-711 | page p holds at most size entries, exactly items[(p-1)·size, min(p·size, n)) when it starts inside the list, and nothing past the last page |
| ActivityPagination.PageItemsAt | frontend/src/features/projects/ProjectWorkspace.component.tsx:708-711 | entry k of page p is entry (p-1)·size + k of the filtered list |
| ActivityPagination.PagesUpToPrefix | frontend/src/features/projects/ProjectWorkspace.component.tsx:708-711 | the first k pages concatenated are the list's prefix of length min(k·size, n) |
| ActivityPagination.PagesPartition | frontend/src/features/projects/ProjectWorkspace.component.tsx:704-711 | pages 1..total concatenate back to exactly the filtered list |
| ActivityPagination.PageOfIndex | frontend/src/features/projects/ProjectWorkspace.component.tsx:704-711 | every entry of the list lies on exactly the page i/size + 1, which is within 1..total |
| ActivityPagination.PageWindowShape | frontend/src/features/projects/ProjectWorkspace.component.tsx:712-718 | the window is consecutive, within 1..total, has min(5, total) entries, contains the current page when it is in range, and is centred on it away from the ends |
| ActivityPagination.NavigationSteps | frontend/src/features/projects/ProjectWorkspace.component.tsx:1766-1801 | Previous is max(1, p-1), Next is min(total, p+1), both stay in range, and each undoes the other away from the ends |
| ActivityPagination.ActivityPager.constructor | frontend/src/features/projects/ProjectWorkspace.component.tsx:640-641 | the pager starts on page 1 with 10 entries per page |
| ActivityPagination.ActivityPager.SetPageSize | frontend/src/features/projects/ProjectWorkspace.component.tsx:1749-1752 | choosing one of the offered sizes sets it and returns to page 1 |
| ActivityPagination.ActivityPager.First | frontend/src/features/projects/ProjectWorkspace.component.tsx:1766 | First goes to page 1 and keeps the size |
| ActivityPagination.ActivityPager.Previous | frontend/src/features/projects/ProjectWorkspace.component.tsx:1774 | Previous goes to max(1, page-1) |
| ActivityPagination.ActivityPager.Next | frontend/src/features/projects/ProjectWorkspace.component.tsx:1793 | Next goes to min(total, page+1) and ends within the page count |
| ActivityPagination.ActivityPager.Last | frontend/src/features/projects/ProjectWorkspace.component.tsx:1801 | Last goes to the page count |
| ActivityPagination.ActivityPager.GoTo | frontend/src/features/projects/ProjectWorkspace.component.tsx:1784 | a page number of the window becomes the page, which stays within the page count |
| BudgetForm.HandlerBuildsErrors | frontend/src/features/projects/ProjectWorkspace.component.tsx:143-150 | the handler's seven checks, taken in order, build exactly the specified error map |
| BudgetForm.CollectErrors | frontend/src/features/projects/ProjectWorkspace.component.tsx:143-150 | the handler's field-by-field fill of `nextErrors` yields the specified error map |
| BudgetForm.ErrorsExact | frontend/src/features/projects/ProjectWorkspace.component.tsx:143-150 | a field has an error exactly when its check fails (blank category, cost code or currency; a negative amount), and the message is the field's non-empty message |
| BudgetForm.AcceptedIffNothingFails | frontend/src/features/projects/ProjectWorkspace.component.tsx:151-155 | the form is sent exactly when the error map is empty, that is, exactly when no check fails |
| BudgetForm.HandlerSeesOnlyWhitespace | frontend/src/features/projects/ProjectWorkspace.component.tsx:162-267 | once the inputs' `required` and `min="0"` pass, the handler can only flag a category, cost code or currency of blanks, and flags one exactly when one is blank |
| BudgetForm.FormState.RequestSubmit | frontend/src/features/projects/ProjectWorkspace.component.tsx:139-156 | a submit the required and minimum checks stop changes nothing and sends nothing; any other runs the handler: the errors become the specified map and the form is sent exactly when accepted |
| BudgetForm.DefaultNeedsFilling | frontend/src/features/projects/ProjectWorkspace.component.tsx:876-890 | the browser stops a new budget entry at its empty required inputs, and the handler would refuse it too until its category and cost code are filled |
| BudgetForm.EditUntouched | frontend/src/features/projects/ProjectWorkspace.component.tsx:987-999 | an existing row is accepted unchanged exactly when its text fields are filled and its amounts are not negative; the form copies the row |
| BudgetForm.FormState.constructor | frontend/src/features/projects/ProjectWorkspace.component.tsx:125-126 | the form starts on its initial values with no errors |
| BudgetForm.FormState.Edit | frontend/src/features/projects/ProjectWorkspace.component.tsx:165-168 | a change stores the new values and clears the changed field's error |
| BudgetForm.FormState.EditUnchecked | frontend/src/features/projects/ProjectWorkspace.component.tsx:178 | a change to a field without a check stores the values and leaves the errors alone |
| BudgetForm.FormState.ClearError | frontend/src/features/projects/ProjectWorkspace.component.tsx:129-136 | `clearError` removes the key when it holds a message and otherwise changes nothing |
| BudgetForm.FormState.Submit | frontend/src/features/projects/ProjectWorkspace.component.tsx:141-156 | the errors become the specified map; the form is sent, unchanged, exactly when it is accepted |
| RiskForm.HandlerBuildsErrors | frontend/src/features/projects/ProjectWorkspace.component.tsx:323-329 | the handler's six checks, taken in order, build exactly the specified error map |
| RiskForm.CollectErrors | frontend/src/features/projects/ProjectWorkspace.component.tsx:323-329 | the field-by-field fill yields the specified error map |
| RiskForm.ErrorsExact | frontend/src/features/projects/ProjectWorkspace.component.tsx:324-329 | a field has an error exactly when its check fails (blank title, category or owner; empty due date; likelihood or impact outside 1..5) |
| RiskForm.AcceptedIffNothingFails | frontend/src/features/projects/ProjectWorkspace.component.tsx:330-334 | the form is sent exactly when no check fails |
| RiskForm.HandlerSeesOnlyWhitespace | frontend/src/features/projects/ProjectWorkspace.component.tsx:341-446 | once the inputs' `required` and the 1..5 `min`/`max` pass, the handler can only flag a title, category or owner of blanks, and flags one exactly when one is blank |
| RiskForm.FormState.RequestSubmit | frontend/src/features/projects/ProjectWorkspace.component.tsx:319-335 | a submit the required and range checks stop changes nothing and sends nothing; any other runs the handler and sends the accepted form with its rating |
| RiskForm.RatingBounds | frontend/src/features/projects/ProjectWorkspace.component.tsx:306 | an accepted likelihood and impact give a rating in 1..25 |
| RiskForm.PayloadShape | frontend/src/features/projects/ProjectWorkspace.component.tsx:306-334 | the sent risk is the form with rating = likelihood × impact, within 1..25 |
| RiskForm.ServerAcceptsPayload | backend/core/features/risks/serializers.py:6-22 | whatever risk is stored, the back-end validator accepts what an accepted form sends, unchanged |
| RiskForm.ServerRejectsOffScaleLikelihood | backend/core/features/risks/serializers.py:11-12 | a likelihood the form refuses is refused by the back-end validator too, with the likelihood error |
| RiskForm.DefaultNeedsFilling | frontend/src/features/projects/ProjectWorkspace.component.tsx:892-907 | the browser stops a new risk at its empty required inputs, and the handler would refuse it too until title, category, owner and due date are filled; its payload is itself |
| RiskForm.EditUntouched | frontend/src/features/projects/ProjectWorkspace.component.tsx:1020-1034 | saving an untouched row sends likelihood × impact as the rating, the row itself when its rating was consistent; a date-only due date passes through |
| RiskForm.FormState.constructor | frontend/src/features/projects/ProjectWorkspace.component.tsx:304-305 | the form starts on its initial values with no errors |
| RiskForm.FormState.ShownRating | frontend/src/features/projects/ProjectWorkspace.component.tsx:306 | the rating shown is likelihood × impact of the current form |
| RiskForm.FormState.Edit | frontend/src/features/projects/ProjectWorkspace.component.tsx:344-347 | a change stores the new values and clears the changed field's error |
| RiskForm.FormState.EditUnchecked | frontend/src/features/projects/ProjectWorkspace.component.tsx:357 | a change to a field without a check leaves the errors alone |
| RiskForm.FormState.ClearError | frontend/src/features/projects/ProjectWorkspace.component.tsx:309-316 | `clearError` removes the key when it holds a message and otherwise changes nothing |
| RiskForm.FormState.Submit | frontend/src/features/projects/ProjectWorkspace.component.tsx:321-335 | the errors become the specified map; an accepted form is sent with the rating the form shows |
| RfiForm.HandlerBuildsErrors | frontend/src/features/projects/ProjectWorkspace.component.tsx:496-501 | the handler's five checks, taken in order, build exactly the specified error map |
| RfiForm.CollectErrors | frontend/src/features/projects/ProjectWorkspace.component.tsx:496-501 | the field-by-field fill yields the specified error map |
| RfiForm.ErrorsExact | frontend/src/features/projects/ProjectWorkspace.component.tsx:497-501 | a field has an error exactly when its check fails (blank number, title or raiser; empty raised-at or due date) |
| RfiForm.AcceptedIffNothingFails | frontend/src/features/projects/ProjectWorkspace.component.tsx:502-505 | the form is sent exactly when no check fails |
| RfiForm.HandlerSeesOnlyWhitespace | frontend/src/features/projects/ProjectWorkspace.component.tsx:518-599 | once the inputs' `required` pass, the handler can only flag an RFI number, title or raiser of blanks, and flags one exactly when one is blank |
| RfiForm.FormState.RequestSubmit | frontend/src/features/projects/ProjectWorkspace.component.tsx:492-511 | a submit the required checks stop changes nothing and sends nothing; any other runs the handler and sends the accepted form as its payload |
| RfiForm.PayloadShape | frontend/src/features/projects/ProjectWorkspace.component.tsx:506-510 | the sent RFI keeps every field but the two timestamps; raised-at is its ISO form, and an empty response time is sent as null |
| RfiForm.DefaultNeedsFilling | frontend/src/features/projects/ProjectWorkspace.component.tsx:909-923 | the browser stops a new RFI at its empty required inputs, and the handler would refuse it too until number, title, raiser, raised-at and due date are filled |
| RfiForm.EditUntouched | frontend/src/features/projects/ProjectWorkspace.component.tsx:1053-1066 | an untouched row without a response time is sent with null; with one, with its ISO form; a row without raised-at is refused |
| RfiForm.FormState.constructor | frontend/src/features/projects/ProjectWorkspace.component.tsx:478-479 | the form starts on its initial values with no errors |
| RfiForm.FormState.Edit | frontend/src/features/projects/ProjectWorkspace.component.tsx:521-524 | a change stores the new values and clears the changed field's error |
| RfiForm.FormState.EditUnchecked | frontend/src/features/projects/ProjectWorkspace.component.tsx:534 | a change to a field without a check leaves the errors alone |
| RfiForm.FormState.ClearError | frontend/src/features/projects/ProjectWorkspace.component.tsx:482-489 | `clearError` removes the key when it holds a message and otherwise changes nothing |
| RfiForm.FormState.Submit | frontend/src/features/projects/ProjectWorkspace.component.tsx:494-511 | the errors become the specified map; an accepted form is sent as its payload |
| FormErrors.ClearedErrors | frontend/src/features/projects/ProjectWorkspace.component.tsx:129-136 | a key with a message is removed, every other key keeps its message, and a key without a message leaves the map unchanged |
| FormErrors.ClearedErrorsIdempotent | frontend/src/features/projects/ProjectWorkspace.component.tsx:129-136 | clearing twice is clearing once, and clearing never adds keys |
| FormErrors.ClearedErrorsCommute | frontend/src/features/projects/ProjectWorkspace.component.tsx:129-136 | clearing two keys in either order gives the same map |
| FormErrors.ClearedErrorsDropsOne | frontend/src/features/projects/ProjectWorkspace.component.tsx:129-136 | clearing a key with a message removes exactly that one key |
| FormErrors.ErrorsAfterExact | frontend/src/features/projects/ProjectWorkspace.component.tsx:143-150 | after the first n checks of a submit handler the map holds exactly the failing fields among them, each with its own message |
| FormErrors.StepExtends | frontend/src/features/projects/ProjectWorkspace.component.tsx:143-150 | one more `if (…) nextErrors.f = …` line is the map of one more check |
| FormErrors.SubmitErrorCleared | frontend/src/features/projects/ProjectWorkspace.component.tsx:129-136 | editing a field the last submit flagged removes that key alone and keeps every other error |
| ApprovalActions.OfferedActions | frontend/src/features/projects/ProjectWorkspace.component.tsx:1641-1688 | a pending row offers exactly Approve and Reject, any other row exactly Reopen |
| ApprovalActions.OfferedActionsExclusive | frontend/src/features/projects/ProjectWorkspacePage.tsx:502-554 | Approve and Reject come together, Reopen exactly without them, and the deciding buttons show exactly on the rows whose badge has the warning tone |
| ApprovalActions.WithPending | frontend/src/features/projects/ProjectWorkspace.component.tsx:727-753 | starting or settling one mutation leaves the other two as they were |
| ApprovalActions.MarkerIffPending | frontend/src/features/projects/ProjectWorkspace.component.tsx:727-753 | in a consistent state the marker is set exactly while a mutation is pending |
| ApprovalActions.ComponentRowShape | frontend/src/features/projects/ProjectWorkspace.component.tsx:1641-1688 | the marked row shows Processing and no other does; other rows show the offered buttons, disabled exactly while updating |
| ApprovalActions.PageRowShape | frontend/src/features/projects/ProjectWorkspacePage.tsx:486-554 | the page shows the offered buttons in order, each busy exactly when its own mutation is pending with this row's id |
| ApprovalActions.RowsAgreeOnBusy | frontend/src/features/projects/ProjectWorkspacePage.tsx:487-490 | when the action in flight is one the row offers, the component shows Processing on the row exactly when the page marks one of its buttons busy |
| ApprovalActions.StaleMarkerDisagrees | frontend/src/features/projects/ProjectWorkspace.component.tsx:727-734 | when the refetch in `onSuccess` brings the row back with a status that no longer offers the action in flight, the component still shows Processing on it while the page marks none of its buttons busy |
| ApprovalActions.InFlightDisablesAll | frontend/src/features/projects/ProjectWorkspace.component.tsx:754-759 | while a call is in flight every button of every row is disabled |
| ApprovalActions.ApprovalRows.constructor | frontend/src/features/projects/ProjectWorkspace.component.tsx:646-649 | no marker and no pending mutation at first |
| ApprovalActions.ApprovalRows.Click | frontend/src/features/projects/ProjectWorkspace.component.tsx:727-753 | a click while updating does nothing; otherwise the mutation starts with the row's id and `onMutate` sets the marker to that row and action |
| ApprovalActions.ApprovalRows.Settle | frontend/src/features/projects/ProjectWorkspace.component.tsx:730-734 | when the pending call succeeds or fails, the marker is cleared and no mutation is pending |
| Drawer.DrawerTitleCases | frontend/src/features/projects/ProjectWorkspace.component.tsx:974-980 | the title is empty exactly for a closed drawer, starts with "Add" exactly in create mode, and two titles agree exactly when mode and kind do |
| Drawer.FormKeyDeterminesKindAndMode | frontend/src/features/projects/ProjectWorkspace.component.tsx:1004 | equal form keys mean the same kind and mode, so switching either remounts the form |
| Drawer.InitialForms | frontend/src/features/projects/ProjectWorkspace.component.tsx:983-1066 | a new entry starts on defaults that the browser stops at the required inputs and the handler refuses as they are; an edit copies the row's `project_id` field (none when the API sent only `project`) |
| Drawer.EditDropsProjectOnlyRef | frontend/src/features/projects/ProjectWorkspace.component.tsx:987-1055 | a row that names its project only through `project` resolves to that project, yet its edit form starts with no `project_id` |
| Drawer.SubmitCallCases | frontend/src/features/projects/ProjectWorkspace.component.tsx:1008-1014 | a submit creates exactly in create mode, updates only the edited row, and is dropped exactly in edit mode without a row |
| Drawer.DrawerHost.Title | frontend/src/features/projects/ProjectWorkspace.component.tsx:974-980 | the title is empty exactly when no drawer is open |
| Drawer.DrawerHost.constructor | frontend/src/features/projects/ProjectWorkspace.component.tsx:650-654 | the drawer starts closed with no save running |
| Drawer.DrawerHost.Open | frontend/src/features/projects/ProjectWorkspace.component.tsx:968-970 | opening sets the drawer unless a save is running |
| Drawer.DrawerHost.Close | frontend/src/features/projects/ProjectWorkspace.component.tsx:972 | closing clears the drawer unless a save is running |
| Drawer.DrawerHost.Submit | frontend/src/features/projects/ProjectWorkspace.component.tsx:1008-1014 | an accepted form makes the drawer's call, which starts a save unless it is dropped; nothing happens while a save runs |
| Drawer.DrawerHost.Settle | frontend/src/features/projects/ProjectWorkspace.component.tsx:771-822 | the save ends; success closes the drawer and an error leaves it open |
| Rollups.Filter | frontend/src/features/projects/ProjectWorkspacePage.tsx:123-154 | the filter keeps exactly the items that pass, and never more items than it was given |
| Rollups.FilterAppend | frontend/src/features/projects/ProjectWorkspacePage.tsx:123-154 | filtering a concatenation filters each part, so the original order is kept |
| Rollups.FilterIdempotent | frontend/src/features/projects/ProjectWorkspacePage.tsx:123-154 | filtering twice is filtering once |
| Rollups.FilterByProjectExact | frontend/src/features/projects/ProjectWorkspacePage.tsx:123-154 | an item is kept exactly when its resolved project id is the route's; without a route id nothing is kept; order follows any split of the input |
| Rollups.CountComplement | frontend/src/features/projects/ProjectWorkspacePage.tsx:210-213 | the items counted by a predicate and by its negation add up to all items |
| Rollups.SumBudgetsFieldwise | frontend/src/features/projects/ProjectWorkspacePage.tsx:199-208 | each budget total is the sum of its own field over the items |
| Rollups.SumBudgetsAppend | frontend/src/features/projects/ProjectWorkspacePage.tsx:199-208 | the totals of a concatenation are the sums of the parts' totals |
| Rollups.SumBudgetsPartition | frontend/src/features/projects/ProjectWorkspacePage.tsx:199-208 | the totals of a list are the totals of the items that pass a predicate plus those of the items that do not |
| Rollups.BudgetAccumulator.constructor | frontend/src/features/projects/ProjectWorkspace.component.tsx:960 | the accumulator starts at zero in every field |
| Rollups.BudgetAccumulator.Add | frontend/src/features/projects/ProjectWorkspace.component.tsx:954-957 | adding an item adds its four amounts in place |
| Rollups.ComputeBudgetTotals | frontend/src/features/projects/ProjectWorkspace.component.tsx:952-961 | the `reduce` over the project's items yields their field-wise totals |
| Rollups.StatsBounds | frontend/src/features/projects/ProjectWorkspace.component.tsx:963-966 | done milestones ≤ milestones; open items = non-closed risks + open RFIs; each count is at most its list's length; open and closed risks add up |
| Rollups.NoBudgetsZeroTotals | frontend/src/features/projects/ProjectWorkspacePage.tsx:199-208 | a project with no budget items has all-zero totals |
| Rollups.BudgetsSplitByProject | frontend/src/features/projects/ProjectWorkspacePage.tsx:199-208 | the programme's totals are the project's totals plus those of every other project |
| WorkspaceViews.PageFormatDate | frontend/src/features/projects/ProjectWorkspacePage.tsx:57-61 | no value shows a dash |
| WorkspaceViews.PageFormatDateCases | frontend/src/features/projects/ProjectWorkspacePage.tsx:57-61 | a value shows its text before the first 'T', or the whole value without one; never a 'T'; the same as the shared formatter wherever that needs no clock |
| WorkspaceViews.LeadingTShowsEmpty | frontend/src/features/projects/ProjectWorkspacePage.tsx:57-61 | a value starting with 'T' shows as empty text, not as a dash |
| WorkspaceViews.FindProject | frontend/src/features/projects/ProjectWorkspacePage.tsx:156 | a found project is in the list and has the route's id |
| WorkspaceViews.FindProjectExact | frontend/src/features/projects/ProjectWorkspacePage.tsx:156 | nothing is found exactly when no project has the route's id, otherwise the first that has it; without a route id nothing is found |
| WorkspaceViews.WorkspacePageGuards | frontend/src/features/projects/ProjectWorkspacePage.tsx:112-197 | loading wins; then a missing project with a failed query is unavailable; then a missing project is not found; only then the workspace, with the project's filtered roll-ups |
| WorkspaceViews.GuardsAgreeOnceLoaded | frontend/src/features/projects/ProjectWorkspace.component.tsx:925-950 | once nothing loads, the component's guards pick the page's view and project; while projects load it renders without a project where the page shows loading |
| ProgramSummary.AggregateSum | backend/core/features/projects/views.py:22-27 | `Sum` is null exactly over no rows, otherwise the total |
| ProgramSummary.SafeTotal | backend/core/features/projects/views.py:33-34 | a null aggregate becomes 0, any other value is kept |
| ProgramSummary.SummaryTotalsAreSums | backend/core/features/projects/views.py:22-40 | each of the four totals is the sum of its field over all budget items, never null, and they equal the front end's field-wise totals |
| ProgramSummary.SummaryCounts | backend/core/features/projects/views.py:28-46 | completed ≤ total = all milestones; open and closed risks add up to all risks; pending approvals are at most all approvals |
| ProgramSummary.SummarySpansAllProjects | backend/core/features/projects/views.py:21-31 | the summary's totals cover every item of every project: the route project's plus the rest |
| ProgramSummary.SingleProjectAgrees | backend/core/features/projects/views.py:21-47 | for data of one project, the program summary and the workspace roll-ups agree on every total and count |
| RiskSerializer.ValidateAcceptsIffConsistent | backend/core/features/risks/serializers.py:6-22 | the validator accepts exactly when the effective likelihood and impact are within 1..5 and a known rating is their product, and returns the attributes unchanged |
| RiskSerializer.FirstFailureReported | backend/core/features/risks/serializers.py:11-20 | the likelihood error, then the impact error, then the rating error with its expected product, each reported exactly when it is the first to fail |
| RiskSerializer.NoneSkipsChecks | backend/core/features/risks/serializers.py:11-15 | a null likelihood skips its own check and the product check |
| RiskSerializer.PartialUpdateFallsBack | backend/core/features/risks/serializers.py:7-9 | for any stored risk, a rating sent alone is accepted exactly when it fits the stored likelihood and impact, and a likelihood sent alone exactly when it fits the stored impact and rating |
| RiskSerializer.PartialUpdateExamples | backend/core/features/risks/serializers.py:7-22 | for a stored 3 × 4 risk rated 12: a rating of 12 alone passes, 9 alone fails naming 12, a likelihood of 4 alone fails naming 16, and 4 with 16 passes |
| RiskSerializer.CreateWithoutRatingSkipsProduct | backend/core/features/risks/serializers.py:15 | a new risk without a rating passes with any in-range likelihood and impact |
| MilestoneSerializer.ValidatePercentComplete | backend/core/features/milestones/serializers.py:6-9 | a value is accepted exactly within 0..100, returned unchanged, and refused with the range message |
| RisksPage.RatingTone | frontend/src/features/risks/RisksPage.tsx:5-9 | danger exactly from 16, warning exactly in 10..15, success exactly below 10 |
| RisksPage.RatingToneMonotone | frontend/src/features/risks/RisksPage.tsx:5-9 | a higher rating never has a lower severity |
| RisksPage.DangerNeedsHighLikelihoodAndImpact | frontend/src/features/risks/RisksPage.tsx:6 | on the 1..5 scales a danger rating needs likelihood and impact of at least 4, and is 16, 20 or 25 |
| WorkspaceUtils.BudgetStatusTone | frontend/src/features/projects/ProjectWorkspace.utils.ts:8-12 | on_track exactly is success, at_risk exactly is warning, anything else danger |
| WorkspaceUtils.MilestoneTone | frontend/src/features/projects/ProjectWorkspace.utils.ts:14-18 | done exactly is success, in_progress exactly is info, anything else warning |
| WorkspaceUtils.RfiTone | frontend/src/features/projects/ProjectWorkspace.utils.ts:20-24 | answered exactly is success, open exactly is warning, anything else neutral |
| WorkspaceUtils.ApprovalTone | frontend/src/features/projects/ProjectWorkspace.utils.ts:26-30 | approved exactly is success, pending exactly is warning, anything else danger |
| WorkspaceUtils.MediaTone | frontend/src/features/projects/ProjectWorkspace.utils.ts:32-36 | camera_feed exactly is info, photo exactly is success, anything else neutral |
| WorkspaceUtils.ClassifiersSeparateBackEndStatuses | frontend/src/features/projects/ProjectWorkspace.utils.ts:8-36 | every classifier gives the back end's distinct statuses distinct tones |
| WorkspaceUtils.ResolveProjectId | frontend/src/features/projects/ProjectWorkspace.utils.ts:57-58 | `project_id` when defined, else `project`, else the empty string |
| WorkspaceUtils.EmptyProjectIdShadowsProject | frontend/src/features/projects/ProjectWorkspace.utils.ts:57-58 | an empty `project_id` wins over a set `project` |
| WorkspaceUtils.FormatDateCases | frontend/src/features/projects/ProjectWorkspace.utils.ts:38-45 | no value shows a dash; a value without 'T' passes through; the clock is needed exactly for a value with 'T' |
| WorkspaceUtils.FormatDateFixedPoint | frontend/src/features/projects/ProjectWorkspace.utils.ts:38-45 | formatting what the formatter produced gives it back |
| WorkspaceUtils.ToDateInputCases | frontend/src/features/projects/ProjectWorkspace.utils.ts:60 | empty text exactly for no value; otherwise the formatter's result, so a date passes through |
| WorkspaceUtils.ToDateInputFixedPoint | frontend/src/features/projects/ProjectWorkspace.utils.ts:60 | converting a converted date gives it back |
| WorkspaceUtils.ToDateTimeInputCases | frontend/src/features/projects/ProjectWorkspace.utils.ts:62-70 | empty text exactly for no value; any value goes through the clock |
| WorkspaceUtils.ToDateTimePayload | frontend/src/features/projects/ProjectWorkspace.utils.ts:72 | null exactly for empty text, otherwise the ISO text of the value |
| ApiClient.PathPart | frontend/src/api/client.ts:8 | the part before the first '?' holds no '?' |
| ApiClient.QueryPart | frontend/src/api/client.ts:8 | the second piece of the split holds no '?' |
| ApiClient.WithSlash | frontend/src/api/client.ts:9 | the normalised base always ends in '/' |
| ApiClient.NoQueryShape | frontend/src/api/client.ts:7-11 | a path without '?' only gets a slash appended, and only when it lacks one |
| ApiClient.QueryReattached | frontend/src/api/client.ts:10 | a non-empty query is put back after the slash |
| ApiClient.TrailingQuestionMarkDropped | frontend/src/api/client.ts:10 | a path ending in '?' loses the '?' |
| ApiClient.SecondQueryDropped | frontend/src/api/client.ts:8-10 | the text from a second '?' on is dropped |
| ApiClient.EnsureTrailingSlashIdempotent | frontend/src/api/client.ts:7-11 | normalising twice is normalising once |
| ApiClient.UnwrapResults | frontend/src/api/client.ts:51-56 | an array payload is returned as it is, a paginated one as its results |
| ApiClient.UnwrapResultsShapeBlind | frontend/src/api/client.ts:51-56 | the same items come out whichever shape carried them |
| ApiClient.Lowered | frontend/src/api/client.ts:33 | the `Headers` object keeps every header under its lower-cased name, with its value |
| ApiClient.LoweredHasSameHeaders | frontend/src/api/client.ts:33-34 | `has` answers the same before and after the names are lower-cased |
| ApiClient.CsrfHeaderPresentIff | frontend/src/api/client.ts:34-39 | the request carries the CSRF header exactly when the caller supplied one, or the method is unsafe and the fetched token is not empty |
| ApiClient.SuppliedTokenNeverOverwritten | frontend/src/api/client.ts:34 | a caller-supplied CSRF header means no token is fetched and the headers are sent as supplied |
| ApiClient.SafeMethodsNeverFetch | frontend/src/api/client.ts:18-34 | GET, HEAD, OPTIONS and TRACE, in any letter case, and a missing method never fetch a token |
| ApiClient.MethodCaseIgnored | frontend/src/api/client.ts:32 | the decision depends on the upper-cased method only |
| ApiClient.EmptyMethodNeedsToken | frontend/src/api/client.ts:32-34 | an empty method is not defaulted to GET and needs a token; "get" does not; "delete" does |
| ApiClient.WithoutHeader | frontend/src/api/client.ts:37 | setting a header first drops every entry of that name, case-insensitively, and keeps the rest |
| ApiClient.WithoutAbsentHeader | frontend/src/api/client.ts:37 | dropping a name that is not there changes nothing |
| ApiClient.Headers.constructor | frontend/src/api/client.ts:33 | `new Headers` holds the supplied headers under lower-cased names |
| ApiClient.Headers.Set | frontend/src/api/client.ts:37 | `set` replaces every entry of the name with one new entry |
| ApiClient.PrepareHeaders | frontend/src/api/client.ts:31-39 | a token is requested exactly when needed, and the headers built in place are the specified request headers |
| Text.TrimStart | frontend/src/features/projects/ProjectWorkspace.component.tsx:144 | drops exactly the leading whitespace |
| Text.TrimEnd | frontend/src/features/projects/ProjectWorkspace.component.tsx:144 | drops exactly the trailing whitespace |
| Text.BlankIffTrimmedEmpty | frontend/src/features/projects/ProjectWorkspace.component.tsx:144 | a field is blank exactly when its trimmed text is empty |
| Text.NotBlankWhenVisible | frontend/src/features/projects/ProjectWorkspace.component.tsx:144 | a field with one visible character is not blank |
| Text.IndexOf | frontend/src/features/projects/ProjectWorkspacePage.tsx:59 | the position of the first occurrence, or none exactly when there is none |
| Text.Split | frontend/src/api/client.ts:8 | at least one piece, and no piece holds the separator |
| Text.JoinSplit | frontend/src/api/client.ts:8 | joining the pieces with the separator gives the text back |
| Text.SplitJoin | frontend/src/api/client.ts:8 | splitting joined pieces without the separator gives them back |
| Text.SplitHead | frontend/src/features/projects/ProjectWorkspacePage.tsx:59 | the first piece is the text before the first separator, or the whole text |
| Text.ToUpper | frontend/src/api/client.ts:32 | upper-cases every character in place |
| Text.ToUpperIdempotent | frontend/src/api/client.ts:32 | upper-casing twice is upper-casing once |
| Text.ToLowerIdempotent | frontend/src/api/client.ts:33 | lower-casing twice is lower-casing once |

## Left out

- Rendering is left out: the JSX, CSS classes, skeletons, the charts' SVG geometry, `StatCard`, `Badge` and `Spinner`.
- `formatCurrency` and `formatDateTime` rely on `Intl` and the local time zone. The `new Date(...)` branches of `formatDate`, `toDateInput` and `toDateTimeInput` yield a `ClockDependent` result instead of text. Rendering a parsed date is a function parameter (`local`).
- WorkspaceUtils.ToDateTimePayload: `toISOString` is the parameter `toIso`. The `RangeError` it throws on an invalid date is not modelled.
- Amounts are integers. `Number(...)` on the front end, `NaN`, and the `float(...)` of `safe_total` are not modelled.
- `fetch` and the responses are not modelled. `getCookie`, and the call to `ensureCsrfToken`, whose token is a parameter of `PrepareHeaders`, are not modelled either.
- React Query's caching, invalidation and refetching are not modelled. The "fetching" flags are inputs, and each mutation's start, success and error are the events `Click` and `Settle`.
- The server-side effect of approve, reject and reopen is not modelled; the back-end viewset is a plain model viewset. Only the offered actions and the in-flight state are modelled. Transitions such as pending → approved are not part of the code shown.
- Delete mutations and `window.confirm` are not modelled. Neither are the expanded-row toggles or each form's `submitting` flag, which only disables the Save button.
- ApprovalActions.ApprovalRows.Click: overlapping mutations are excluded by the disabled buttons, which `Click` models as a guard. A click that React delivers to a disabled button is not modelled.
- ActivityPagination.ActivityPager: a page left stale when the filtered list shrinks is not clamped, in the source as in the model. `PageItemsRange` states that such a page is empty.
- ActivityPagination.ActivityPager.SetPageSize: only the offered sizes, 10, 20 and 50, are accepted. This matches the select's options.
- The front-end type files disagree with the back end. Budgets use 'over' where the back end has 'off_track', and milestones add 'not_started'. Statuses are free strings here, and the distinct-status lemma uses the back end's choices.
- Authentication is not modelled: the login and session views, `AuthContext` and `RequireAuth`.
- Not modelled on the back end: the models, migrations, admin, `Risk.generate_id` and the ORM `get_queryset` filters. The front-end filter states the same rule.
- Page-local copies of the tone helpers in other pages duplicate `WorkspaceUtils` and are not modelled separately.
- The workspace page and the workspace component order their guards differently. The component has no loading guard, and it reports "not found" only once the projects have loaded. Both orders are modelled, and `GuardsAgreeOnceLoaded` states where they differ.
- The page's own `formatDate` has a `?? '—'` fallback that can never apply, because `split` always yields a first piece. A value that starts with 'T' therefore shows as empty text (`LeadingTShowsEmpty`).
- Text.ToUpper, Text.ToLower, ApiClient.RequestMethod: `toUpperCase` and `toLowerCase` are modelled on ASCII letters only, because the model has no Unicode case tables. JavaScript also maps 'ı' (U+0131) to 'I' and 'ſ' (U+017F) to 'S', so `fetchJson` treats a method written "optıons" as OPTIONS and fetches no token, while `NeedsCsrfToken` says that request needs one.
- BudgetForm.FormState.Submit, RiskForm.FormState.Submit, RfiForm.FormState.Submit: each models the `onSubmit` handler alone. The browser's own checks of the inputs run first and are modelled by `BrowserBlocks` and `RequestSubmit`: an empty required input, a negative budget amount, a likelihood or impact outside 1..5. Its other checks, such as a type mismatch or a `step`, are not modelled.
- ApiClient.Lowered, ApiClient.Headers.constructor: a real `Headers` object merges entries whose names differ only in case into one comma-joined value and iterates in name order; the model keeps them as separate entries in the given order. Whether the CSRF header is present does not depend on this.
