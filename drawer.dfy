/**
 * The workspace's edit drawer: which form it holds (budget, risk or RFI,
 * to add or to edit), its title, the key that remounts the form, the form's
 * starting values, the call a submit makes, and the open/save/close cycle.
 */
module Drawer {
  import opened Wrappers
  import opened Entities
  import BudgetForm
  import RiskForm
  import RfiForm
  import WorkspaceUtils

  datatype Mode = Create | Edit

  /** `drawerState`: the form's kind and mode, and the row being edited, if any. */
  datatype DrawerState =
    | BudgetDrawer(mode: Mode, budget: Option<BudgetItem>)
    | RiskDrawer(mode: Mode, risk: Option<Risk>)
    | RfiDrawer(mode: Mode, rfi: Option<Rfi>)

  /** `drawerState.item?.id`. */
  function ItemId(s: DrawerState): Option<string> {
    match s
    case BudgetDrawer(_, b) => if b.Some? then Some(b.value.id) else None
    case RiskDrawer(_, r) => if r.Some? then Some(r.value.id) else None
    case RfiDrawer(_, r) => if r.Some? then Some(r.value.id) else None
  }

  /** `drawerState.type`, as the form key spells it. */
  function KindName(s: DrawerState): string {
    match s
    case BudgetDrawer(_, _) => "budget"
    case RiskDrawer(_, _) => "risk"
    case RfiDrawer(_, _) => "rfi"
  }

  /** The noun of the drawer's title. */
  function KindNoun(s: DrawerState): string {
    match s
    case BudgetDrawer(_, _) => "budget"
    case RiskDrawer(_, _) => "risk"
    case RfiDrawer(_, _) => "RFI"
  }

  function ModeName(m: Mode): string {
    if m == Create then "create" else "edit"
  }

  /** `drawerTitle`: nothing for a closed drawer, otherwise "Add" or "Edit" and the kind. */
  function DrawerTitle(s: Option<DrawerState>): string {
    if s.None? then ""
    else (if s.value.mode == Create then "Add" else "Edit") + " " + KindNoun(s.value)
  }

  /**
   * The title is empty exactly for a closed drawer, starts with "Add" exactly
   * for a new entry, and names the kind; two open drawers share a title
   * exactly when they share kind and mode.
   */
  lemma DrawerTitleCases(s: Option<DrawerState>, t: Option<DrawerState>)
    ensures DrawerTitle(s) == "" <==> s.None?
    ensures s.Some? ==> (DrawerTitle(s)[..3] == "Add" <==> s.value.mode == Create)
    ensures s.Some? && t.Some? ==>
              (DrawerTitle(s) == DrawerTitle(t) <==> s.value.mode == t.value.mode && KindNoun(s.value) == KindNoun(t.value))
  {
    if s.Some? {
      if s.value.mode == Create {
        assert DrawerTitle(s)[..3] == "Add";
      } else {
        assert DrawerTitle(s)[0] == 'E';
      }
    }
    if s.Some? && t.Some? && DrawerTitle(s) == DrawerTitle(t) {
      var a := DrawerTitle(s);
      var b := DrawerTitle(t);
      assert a[0] == b[0];
      assert s.value.mode == t.value.mode;
      var n := if s.value.mode == Create then 4 else 5;
      assert a[n..] == KindNoun(s.value) && b[n..] == KindNoun(t.value);
    }
  }

  /** The form's `key`: kind, mode and row id (`new` without one); a new key remounts the form. */
  function FormKey(s: DrawerState): string {
    KindName(s) + "-" + ModeName(s.mode) + "-" + ItemId(s).GetOr("new")
  }

  /**
   * Switching kind or mode always changes the key, so the form restarts
   * from its new initial values and an empty error map.
   */
  lemma FormKeyDeterminesKindAndMode(s: DrawerState, t: DrawerState)
    requires FormKey(s) == FormKey(t)
    ensures KindName(s) == KindName(t) && s.mode == t.mode
  {
    var a := FormKey(s);
    assert a[0] == FormKey(t)[0] && a[1] == FormKey(t)[1];
    assert KindName(s) == KindName(t);
    var n := |KindName(s)| + 1;
    assert a[n] == FormKey(t)[n];
  }

  /** The budget form's starting values: the row's own, or the defaults for the route's project. */
  function BudgetInitial(item: Option<BudgetItem>, projectKey: string): BudgetForm.BudgetInput {
    if item.Some? then BudgetForm.Initial(item.value) else BudgetForm.Default(projectKey)
  }

  /** The risk form's starting values; `local` renders a parsed due date. */
  function RiskInitial(item: Option<Risk>, projectKey: string, local: string -> string): RiskForm.RiskInput {
    if item.Some? then RiskForm.Initial(item.value, local) else RiskForm.Default(projectKey)
  }

  /** The RFI form's starting values; `localDate` and `localDateTime` render parsed dates. */
  function RfiInitial(item: Option<Rfi>, projectKey: string, localDate: string -> string,
                      localDateTime: string -> string): RfiForm.RfiInput {
    if item.Some? then RfiForm.Initial(item.value, localDate, localDateTime) else RfiForm.Default(projectKey)
  }

  /**
   * A drawer for a new entry starts on the defaults, which the browser stops
   * at the empty required inputs and the submit handler would refuse as
   * well; an edit drawer copies the row's `project_id` field, which is
   * none when the API sent only `project`.
   */
  lemma InitialForms(projectKey: string, local: string -> string, localDateTime: string -> string,
                     b: BudgetItem, r: Risk, q: Rfi)
    ensures BudgetForm.ErrorsFor(BudgetInitial(None, projectKey)) != map[]
    ensures RiskForm.ErrorsFor(RiskInitial(None, projectKey, local)) != map[]
    ensures RfiForm.ErrorsFor(RfiInitial(None, projectKey, local, localDateTime)) != map[]
    ensures BudgetForm.BrowserBlocks(BudgetInitial(None, projectKey))
    ensures RiskForm.BrowserBlocks(RiskInitial(None, projectKey, local))
    ensures RfiForm.BrowserBlocks(RfiInitial(None, projectKey, local, localDateTime))
    ensures BudgetInitial(Some(b), projectKey).project_id == b.projectRef.project_id
    ensures RiskInitial(Some(r), projectKey, local).project_id == r.projectRef.project_id
    ensures RfiInitial(Some(q), projectKey, local, localDateTime).project_id == q.projectRef.project_id
  {
    BudgetForm.DefaultNeedsFilling(projectKey);
    assert BudgetForm.Category in BudgetForm.ErrorsFor(BudgetInitial(None, projectKey)).Keys;
    RiskForm.DefaultNeedsFilling(projectKey);
    assert RiskForm.Title in RiskForm.ErrorsFor(RiskInitial(None, projectKey, local)).Keys;
    RfiForm.DefaultNeedsFilling(projectKey);
    assert RfiForm.Title in RfiForm.ErrorsFor(RfiInitial(None, projectKey, local, localDateTime)).Keys;
  }

  /**
   * A row that names its project only through `project` belongs to that
   * project, yet its edit form starts with no `project_id`: the form copies
   * the field, not the resolved id.
   */
  lemma EditDropsProjectOnlyRef(projectKey: string, local: string -> string, localDateTime: string -> string,
                                b: BudgetItem, r: Risk, q: Rfi)
    requires b.projectRef.project_id.None? && b.projectRef.project.Some?
    requires r.projectRef.project_id.None? && r.projectRef.project.Some?
    requires q.projectRef.project_id.None? && q.projectRef.project.Some?
    ensures WorkspaceUtils.ResolveProjectId(b.projectRef) == b.projectRef.project.value
    ensures BudgetInitial(Some(b), projectKey).project_id.None?
    ensures WorkspaceUtils.ResolveProjectId(r.projectRef) == r.projectRef.project.value
    ensures RiskInitial(Some(r), projectKey, local).project_id.None?
    ensures WorkspaceUtils.ResolveProjectId(q.projectRef) == q.projectRef.project.value
    ensures RfiInitial(Some(q), projectKey, local, localDateTime).project_id.None?
  {
    InitialForms(projectKey, local, localDateTime, b, r, q);
  }

  /** The call an accepted form makes. */
  datatype Call = CreateCall | UpdateCall(id: string) | NoCall

  /** `onSubmit`: create in create mode, update the row in edit mode, and nothing in edit mode without a row. */
  function SubmitCall(s: DrawerState): Call {
    if s.mode == Create then CreateCall
    else if ItemId(s).Some? then UpdateCall(ItemId(s).value)
    else NoCall
  }

  /**
   * A submit creates exactly in create mode, updates only the edited row,
   * and is dropped exactly in an edit drawer without a row.
   */
  lemma SubmitCallCases(s: DrawerState)
    ensures SubmitCall(s) == CreateCall <==> s.mode == Create
    ensures SubmitCall(s).UpdateCall? ==> s.mode == Edit && ItemId(s) == Some(SubmitCall(s).id)
    ensures SubmitCall(s) == NoCall <==> s.mode == Edit && ItemId(s).None?
  {
  }

  /**
   * The drawer's state in the component: `drawerState`, and the save call in
   * flight (`drawerBusy` while there is one).
   */
  class DrawerHost {
    var drawerState: Option<DrawerState>
    var saving: Option<Call>

    /** A save in flight is the call of the open drawer, never a dropped one. */
    ghost predicate Valid()
      reads this
    {
      saving.Some? ==> drawerState.Some? && saving.value == SubmitCall(drawerState.value) && saving.value != NoCall
    }

    function Title(): (t: string)
      reads this
      ensures t == "" <==> drawerState.None?
    {
      DrawerTitle(drawerState)
    }

    constructor ()
      ensures Valid() && drawerState == None && saving == None
    {
      drawerState := None;
      saving := None;
    }

    /** `openDrawer`: the Add and Edit buttons are disabled while a save runs. */
    method Open(s: DrawerState)
      requires Valid()
      modifies this
      ensures Valid() && saving == old(saving)
      ensures drawerState == if old(saving).Some? then old(drawerState) else Some(s)
    {
      if saving.Some? {
        return;
      }
      drawerState := Some(s);
    }

    /** `closeDrawer` from the overlay, the Close button or Cancel, all disabled while a save runs. */
    method Close()
      requires Valid()
      modifies this
      ensures Valid() && saving == old(saving)
      ensures drawerState == if old(saving).Some? then old(drawerState) else None
    {
      if saving.Some? {
        return;
      }
      drawerState := None;
    }

    /**
     * An accepted form's `onSubmit` (the Save button is disabled while a save
     * runs): the call is made, and any call but a dropped one starts a save.
     */
    method Submit() returns (call: Call)
      requires Valid() && drawerState.Some?
      modifies this
      ensures Valid() && drawerState == old(drawerState)
      ensures old(saving).Some? ==> call == NoCall && saving == old(saving)
      ensures old(saving).None? ==>
                && call == SubmitCall(drawerState.value)
                && saving == (if call == NoCall then None else Some(call))
    {
      if saving.Some? {
        return NoCall;
      }
      call := SubmitCall(drawerState.value);
      if call != NoCall {
        saving := Some(call);
      }
    }

    /** The save settles: success closes the drawer after the refetch; an error leaves it open. */
    method Settle(succeeded: bool)
      requires Valid() && saving.Some?
      modifies this
      ensures Valid() && saving == None
      ensures drawerState == if succeeded then None else old(drawerState)
    {
      saving := None;
      if succeeded {
        drawerState := None;
      }
    }
  }
}
