/**
 * What a project workspace renders before its content: the page's own date
 * formatter, the lookup of the route's project, and the guards that pick
 * the loading, unavailable or not-found view, in the workspace page and in
 * the workspace component, which order them differently.
 */
module WorkspaceViews {
  import opened Wrappers
  import opened Text
  import opened Entities
  import opened WorkspaceUtils
  import opened Rollups

  /**
   * The page's `formatDate`: a dash for no value, otherwise the first piece
   * of `value.split('T')` (the `?? '—'` fallback never applies, since a split
   * always has a first piece).
   */
  function PageFormatDate(value: Option<string>): (r: string)
    ensures Falsy(value) ==> r == Dash
  {
    if Falsy(value) then Dash else Split(value.value, 'T')[0]
  }

  /**
   * The page's formatter shows the text before the first 'T', or the whole
   * value when it has none; it never shows a 'T'; and it agrees with the
   * shared formatter wherever that one does not need the clock.
   */
  lemma PageFormatDateCases(value: Option<string>)
    ensures !Falsy(value) ==> 'T' !in PageFormatDate(value)
    ensures !Falsy(value) && 'T' in value.value ==>
              var i := IndexOf(value.value, 'T').value;
              PageFormatDate(value) == value.value[..i] && value.value[i..] != []
    ensures !Falsy(value) && 'T' !in value.value ==> PageFormatDate(value) == value.value
    ensures FormatDate(value).Text? ==> PageFormatDate(value) == FormatDate(value).s
  {
    if !Falsy(value) {
      SplitHead(value.value, 'T');
    }
  }

  /** A value that starts with 'T' shows as the empty string, not as a dash. */
  lemma LeadingTShowsEmpty(rest: string)
    ensures PageFormatDate(Some(['T'] + rest)) == ""
  {
    SplitHead(['T'] + rest, 'T');
  }

  /** `projects.find((item) => item.id === projectId)`: the first project with the route's id. */
  function FindProject(projects: seq<Project>, projectId: Option<string>): (r: Option<Project>)
    ensures r.Some? ==> r.value in projects && projectId == Some(r.value.id)
  {
    if |projects| == 0 then None
    else if projectId == Some(projects[0].id) then Some(projects[0])
    else FindProject(projects[1..], projectId)
  }

  /**
   * The lookup finds a project exactly when one has the route's id, and then
   * the first such; without a route id it finds nothing.
   */
  lemma {:induction false} FindProjectExact(projects: seq<Project>, projectId: Option<string>)
    ensures FindProject(projects, projectId).None? <==> forall p :: p in projects ==> projectId != Some(p.id)
    ensures FindProject(projects, projectId).Some? ==>
              exists k :: 0 <= k < |projects| && projects[k] == FindProject(projects, projectId).value
                          && forall j :: 0 <= j < k ==> projectId != Some(projects[j].id)
    ensures projectId.None? ==> FindProject(projects, projectId).None?
  {
    if |projects| > 0 && projectId != Some(projects[0].id) {
      FindProjectExact(projects[1..], projectId);
      assert forall p :: p in projects ==> p == projects[0] || p in projects[1..];
      if FindProject(projects, projectId).Some? {
        var k :| 0 <= k < |projects[1..]| && projects[1..][k] == FindProject(projects, projectId).value
                 && forall j :: 0 <= j < k ==> projectId != Some(projects[1..][j].id);
        assert projects[k + 1] == FindProject(projects, projectId).value;
      }
    } else if |projects| > 0 {
      assert projects[0] == FindProject(projects, projectId).value;
    }
  }

  /** The `isLoading` flags of the nine queries the page waits for. */
  datatype Loading = Loading(
    projects: bool, budgets: bool, milestones: bool, risks: bool, rfis: bool,
    documents: bool, media: bool, approvals: bool, activity: bool)

  predicate AnyLoading(l: Loading) {
    l.projects || l.budgets || l.milestones || l.risks || l.rfis || l.documents || l.media
    || l.approvals || l.activity
  }

  /** The lists the queries returned (`[]` while a query has no data). */
  datatype Lists = Lists(
    projects: seq<Project>, budgets: seq<BudgetItem>, milestones: seq<Milestone>, risks: seq<Risk>,
    rfis: seq<Rfi>, approvals: seq<Approval>)

  /** What the page renders: one of the three notices, or the workspace with its stat cards. */
  datatype PageView = LoadingView | Unavailable | NotFound | Workspace(project: Project, stats: WorkspaceStats)

  /**
   * The page's guards: any loading flag first, then a missing project with a
   * failed project query, then a missing project; the stat cards are rolled
   * up only past all three.
   */
  function WorkspacePage(loading: Loading, projectsError: bool, lists: Lists, projectId: Option<string>): PageView {
    var project := FindProject(lists.projects, projectId);
    if AnyLoading(loading) then LoadingView
    else if project.None? && projectsError then Unavailable
    else if project.None? then NotFound
    else Workspace(project.value,
                   ProjectStats(lists.budgets, lists.milestones, lists.risks, lists.rfis, lists.approvals, projectId))
  }

  /**
   * Each view of the page and exactly when it shows: loading wins over
   * everything, an error only matters when the project is missing, and the
   * workspace shows the route's project with its own filtered roll-ups.
   */
  lemma WorkspacePageGuards(loading: Loading, projectsError: bool, lists: Lists, projectId: Option<string>)
    ensures var v := WorkspacePage(loading, projectsError, lists, projectId);
            var found := FindProject(lists.projects, projectId);
            && (v.LoadingView? <==> AnyLoading(loading))
            && (v.Unavailable? <==> !AnyLoading(loading) && found.None? && projectsError)
            && (v.NotFound? <==> !AnyLoading(loading) && found.None? && !projectsError)
            && (v.Workspace? <==> !AnyLoading(loading) && found.Some?)
            && (v.Workspace? ==>
                  && v.project in lists.projects && projectId == Some(v.project.id)
                  && v.stats == Stats(FilterByProject(lists.budgets, BudgetRef, projectId),
                                      FilterByProject(lists.milestones, MilestoneRef, projectId),
                                      FilterByProject(lists.risks, RiskRef, projectId),
                                      FilterByProject(lists.rfis, RfiRef, projectId),
                                      FilterByProject(lists.approvals, ApprovalRef, projectId)))
  {
  }

  /**
   * What the component renders: the two notices, or the workspace, which it
   * also renders while the projects are still loading and none is found.
   */
  datatype ComponentView = ComponentUnavailable | ComponentNotFound | Rendered(project: Option<Project>)

  /** The component's guards: no loading guard, and not-found only once the projects have loaded. */
  function WorkspaceComponent(loadingProjects: bool, projectsError: bool, projects: seq<Project>,
                              projectId: Option<string>): ComponentView {
    var project := FindProject(projects, projectId);
    if project.None? && projectsError then ComponentUnavailable
    else if project.None? && !loadingProjects then ComponentNotFound
    else Rendered(project)
  }

  /**
   * Once nothing is loading the page and the component pick the same view
   * and the same project; while the projects load, the component renders
   * without one where the page shows its loading view.
   */
  lemma GuardsAgreeOnceLoaded(loading: Loading, projectsError: bool, lists: Lists, projectId: Option<string>)
    ensures !AnyLoading(loading) ==>
              var page := WorkspacePage(loading, projectsError, lists, projectId);
              var component := WorkspaceComponent(loading.projects, projectsError, lists.projects, projectId);
              && (page.Unavailable? <==> component.ComponentUnavailable?)
              && (page.NotFound? <==> component.ComponentNotFound?)
              && (page.Workspace? <==> component.Rendered?)
              && (page.Workspace? ==> component.project == Some(page.project))
    ensures loading.projects && !projectsError && FindProject(lists.projects, projectId).None? ==>
              && WorkspacePage(loading, projectsError, lists, projectId).LoadingView?
              && WorkspaceComponent(loading.projects, projectsError, lists.projects, projectId) == Rendered(None)
  {
  }
}
