/**
 * The approval rows of a workspace: which action buttons a row offers, the
 * in-flight marker the workspace component keeps while an approve, reject or
 * reopen request runs, and the per-mutation busy rule of the workspace page.
 * The requests themselves, and whatever they change on the server, are
 * abstract events.
 */
module ApprovalActions {
  import opened Wrappers
  import opened Entities
  import opened WorkspaceUtils

  /** The three row actions: `approve`, `reject` and `reopen` (the submit mutation). */
  datatype Action = Approve | Reject | Reopen

  /** The buttons a row offers: a pending approval can be decided, any other can be reopened. */
  function OfferedActions(status: string): (r: seq<Action>)
    ensures status == ApprovalPending ==> r == [Approve, Reject]
    ensures status != ApprovalPending ==> r == [Reopen]
  {
    if status == ApprovalPending then [Approve, Reject] else [Reopen]
  }

  /**
   * The offers split the statuses: approve and reject come together, reopen
   * comes exactly when they do not, and the deciding buttons appear exactly
   * on the rows whose badge has the warning tone.
   */
  lemma OfferedActionsExclusive(status: string)
    ensures Approve in OfferedActions(status) <==> Reject in OfferedActions(status)
    ensures Reopen in OfferedActions(status) <==> Approve !in OfferedActions(status)
    ensures Approve in OfferedActions(status) <==> ApprovalTone(status) == Warning
  {
  }

  /** `approvalAction`: the row id and kind of the request in flight. */
  datatype InFlight = InFlight(id: string, action: Action)

  /**
   * The three mutations: while one is pending, the approval id it was called
   * with (its `variables`), and no value when it is idle.
   */
  datatype Mutations = Mutations(approving: Option<string>, rejecting: Option<string>, reopening: Option<string>)

  const Idle := Mutations(None, None, None)

  /** The pending call of one mutation. */
  function PendingOf(m: Mutations, a: Action): Option<string> {
    match a
    case Approve => m.approving
    case Reject => m.rejecting
    case Reopen => m.reopening
  }

  /** `m` with the mutation of `a` set to `call`. */
  function WithPending(m: Mutations, a: Action, call: Option<string>): (r: Mutations)
    ensures PendingOf(r, a) == call
    ensures forall b :: b != a ==> PendingOf(r, b) == PendingOf(m, b)
  {
    match a
    case Approve => m.(approving := call)
    case Reject => m.(rejecting := call)
    case Reopen => m.(reopening := call)
  }

  predicate AnyPending(m: Mutations) {
    m.approving.Some? || m.rejecting.Some? || m.reopening.Some?
  }

  /** `approvalsUpdating`: a mutation is pending, or the approvals or the activity are refetching. */
  predicate Updating(m: Mutations, approvalsFetching: bool, activityFetching: bool) {
    AnyPending(m) || approvalsFetching || activityFetching
  }

  /**
   * How the marker and the mutations stand while the buttons do their job:
   * a marker names a pending call of its own kind, and a pending call is the
   * one the marker names (so at most one call is pending).
   */
  predicate Consistent(marker: Option<InFlight>, m: Mutations) {
    && (marker.Some? ==> PendingOf(m, marker.value.action) == Some(marker.value.id))
    && (forall a :: PendingOf(m, a).Some? ==> marker == Some(InFlight(PendingOf(m, a).value, a)))
  }

  /** A consistent state has a marker exactly when a call is pending. */
  lemma MarkerIffPending(marker: Option<InFlight>, m: Mutations)
    requires Consistent(marker, m)
    ensures marker.Some? <==> AnyPending(m)
  {
    if AnyPending(m) {
      if m.approving.Some? { assert PendingOf(m, Approve).Some?; }
      else if m.rejecting.Some? { assert PendingOf(m, Reject).Some?; }
      else { assert PendingOf(m, Reopen).Some?; }
    }
  }

  /** One button: its action, whether it shows its spinner, and whether it is disabled. */
  datatype Button = Button(action: Action, busy: bool, disabled: bool)

  /** A row's action cell: the Processing spinner, or its buttons in order. */
  datatype RowControls = Processing | Buttons(buttons: seq<Button>)

  /** The component's cell: the marked row shows Processing; any other row its offered buttons. */
  function ComponentRow(item: Approval, marker: Option<InFlight>, updating: bool): RowControls {
    if marker.Some? && marker.value.id == item.id then Processing
    else Buttons(seq(|OfferedActions(item.status)|, k requires 0 <= k < |OfferedActions(item.status)| =>
                   Button(OfferedActions(item.status)[k], false, updating)))
  }

  /**
   * The page's cell: always the offered buttons, each busy exactly when its
   * own mutation is pending with this row's id.
   */
  function PageRow(item: Approval, m: Mutations, updating: bool): RowControls {
    Buttons(seq(|OfferedActions(item.status)|, k requires 0 <= k < |OfferedActions(item.status)| =>
              var a := OfferedActions(item.status)[k];
              Button(a, PendingOf(m, a) == Some(item.id), updating)))
  }

  /**
   * The component's cell: Processing exactly on the marked row; every other
   * row shows exactly the offered actions, none busy, all disabled exactly
   * while the approvals are updating.
   */
  lemma ComponentRowShape(item: Approval, marker: Option<InFlight>, updating: bool)
    ensures ComponentRow(item, marker, updating).Processing? <==> marker.Some? && marker.value.id == item.id
    ensures ComponentRow(item, marker, updating).Buttons? ==>
              var bs := ComponentRow(item, marker, updating).buttons;
              && |bs| == |OfferedActions(item.status)|
              && forall k :: 0 <= k < |bs| ==>
                   bs[k].action == OfferedActions(item.status)[k] && !bs[k].busy && bs[k].disabled == updating
  {
  }

  /**
   * The page's cell: the offered actions in order, a button busy exactly when
   * its mutation runs on this row, all disabled exactly while updating.
   */
  lemma PageRowShape(item: Approval, m: Mutations, updating: bool)
    ensures PageRow(item, m, updating).Buttons?
    ensures var bs := PageRow(item, m, updating).buttons;
            && |bs| == |OfferedActions(item.status)|
            && forall k :: 0 <= k < |bs| ==>
                 && bs[k].action == OfferedActions(item.status)[k]
                 && (bs[k].busy <==> PendingOf(m, bs[k].action) == Some(item.id))
                 && bs[k].disabled == updating
  {
  }

  /**
   * The two pages agree on the busy row: when the call in flight is one the
   * row offers, the component shows Processing on that row exactly when the
   * page marks one of its buttons busy.
   */
  lemma RowsAgreeOnBusy(item: Approval, marker: Option<InFlight>, m: Mutations, updating: bool)
    requires Consistent(marker, m)
    requires marker.Some? ==> marker.value.action in OfferedActions(item.status)
    ensures ComponentRow(item, marker, updating).Processing?
            <==> exists k :: 0 <= k < |PageRow(item, m, updating).buttons| && PageRow(item, m, updating).buttons[k].busy
  {
    var bs := PageRow(item, m, updating).buttons;
    var offered := OfferedActions(item.status);
    if marker.Some? && marker.value.id == item.id {
      var k :| 0 <= k < |offered| && offered[k] == marker.value.action;
      assert bs[k].busy;
    }
    if exists k :: 0 <= k < |bs| && bs[k].busy {
      var k :| 0 <= k < |bs| && bs[k].busy;
      assert PendingOf(m, offered[k]) == Some(item.id);
    }
  }

  /**
   * Where the two pages part: `onSuccess` refetches the approvals before it
   * clears the marker, and the mutation stays pending until it returns, so a
   * row can come back with a status whose offers no longer include the
   * action in flight (an approved row that now offers only reopen). The
   * component still shows Processing on that row, while the page marks none
   * of its buttons busy.
   */
  lemma StaleMarkerDisagrees(item: Approval, a: Action, m: Mutations, updating: bool)
    requires Consistent(Some(InFlight(item.id, a)), m)
    requires a !in OfferedActions(item.status)
    ensures ComponentRow(item, Some(InFlight(item.id, a)), updating).Processing?
    ensures forall k :: 0 <= k < |PageRow(item, m, updating).buttons| ==> !PageRow(item, m, updating).buttons[k].busy
  {
  }

  /**
   * While a call is in flight every button of every row is disabled, so no
   * second call can start.
   */
  lemma InFlightDisablesAll(item: Approval, marker: Option<InFlight>, m: Mutations,
                            approvalsFetching: bool, activityFetching: bool)
    requires Consistent(marker, m) && marker.Some?
    ensures var row := ComponentRow(item, marker, Updating(m, approvalsFetching, activityFetching));
            row.Buttons? ==> forall k :: 0 <= k < |row.buttons| ==> row.buttons[k].disabled
  {
    MarkerIffPending(marker, m);
  }

  /**
   * The component's approval state: the marker and the three mutations,
   * driven by clicks and by the settling of the calls.
   */
  class ApprovalRows {
    var approvalAction: Option<InFlight>
    var mutations: Mutations

    ghost predicate Valid()
      reads this
    {
      Consistent(approvalAction, mutations)
    }

    /** `useState(null)`, and no call pending. */
    constructor ()
      ensures Valid()
      ensures approvalAction == None && mutations == Idle
    {
      approvalAction := None;
      mutations := Idle;
    }

    /**
     * A click on the button of `action` in row `id`: a disabled button does
     * nothing; otherwise the mutation starts with `id` and `onMutate` sets
     * the marker.
     */
    method Click(action: Action, id: string, approvalsFetching: bool, activityFetching: bool)
      requires Valid()
      modifies this
      ensures Valid()
      ensures old(Updating(mutations, approvalsFetching, activityFetching)) ==>
                approvalAction == old(approvalAction) && mutations == old(mutations)
      ensures !old(Updating(mutations, approvalsFetching, activityFetching)) ==>
                approvalAction == Some(InFlight(id, action)) && mutations == WithPending(Idle, action, Some(id))
    {
      if Updating(mutations, approvalsFetching, activityFetching) {
        return;
      }
      mutations := WithPending(mutations, action, Some(id));
      approvalAction := Some(InFlight(id, action));
    }

    /**
     * The pending call of `action` settles: on success after the refetch,
     * on error at once, the marker is cleared, and the mutation is idle.
     */
    method Settle(action: Action)
      requires Valid() && PendingOf(mutations, action).Some?
      modifies this
      ensures Valid()
      ensures approvalAction == None && mutations == Idle
    {
      assert approvalAction == Some(InFlight(PendingOf(mutations, action).value, action));
      assert forall b :: b != action ==> PendingOf(mutations, b).None?;
      approvalAction := None;
      mutations := WithPending(mutations, action, None);
      assert PendingOf(mutations, Approve).None? && PendingOf(mutations, Reject).None?
             && PendingOf(mutations, Reopen).None?;
    }
  }
}
