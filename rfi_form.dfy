/**
 * The drawer form for an RFI: required number, title, raiser and two dates,
 * and the conversion of the local date-time inputs to ISO timestamps on
 * submit.
 */
module RfiForm {
  import opened Wrappers
  import opened Text
  import opened Entities
  import opened WorkspaceUtils
  import opened FormErrors

  datatype RfiInput = RfiInput(
    project_id: Option<string>, rfi_number: string, title: string, question: string, status: string,
    raised_by: string, raised_at: string, due_date: string, responded_at: Option<string>,
    response_summary: string)

  /** The fields the form checks, named in the error map as `rfi_number`, `title`, … */
  datatype Field = RfiNumber | Title | RaisedBy | RaisedAt | DueDate

  /** The checks in the order the submit handler runs them. */
  const CheckOrder: seq<Field> := [RfiNumber, Title, RaisedBy, RaisedAt, DueDate]

  /** The position of a field's check in the handler. */
  function Position(field: Field): (i: nat)
    ensures i < |CheckOrder| && CheckOrder[i] == field
  {
    match field
    case RfiNumber => 0
    case Title => 1
    case RaisedBy => 2
    case RaisedAt => 3
    case DueDate => 4
  }

  /** Whether a field fails its check: blank text, or an empty date. */
  predicate Fails(f: RfiInput, field: Field) {
    match field
    case RfiNumber => IsBlank(f.rfi_number)
    case Title => IsBlank(f.title)
    case RaisedBy => IsBlank(f.raised_by)
    case RaisedAt => f.raised_at == ""
    case DueDate => f.due_date == ""
  }

  function Message(field: Field): string {
    match field
    case RfiNumber => "RFI number is required."
    case Title => "Title is required."
    case RaisedBy => "Raised by is required."
    case RaisedAt => "Raised at is required."
    case DueDate => "Due date is required."
  }

  /** The form's checks as one predicate over its fields. */
  function FailsOn(f: RfiInput): Field -> bool {
    field => Fails(f, field)
  }

  /** The error map a submit leaves: the checks run in `CheckOrder` from `{}`. */
  function ErrorsFor(f: RfiInput): Errors<Field> {
    ErrorsAfter(CheckOrder, FailsOn(f), Message, |CheckOrder|)
  }

  /** The handler's lines, run in order from `{}`, build the map the checks define. */
  lemma HandlerBuildsErrors(f: RfiInput)
    ensures ErrorsFor(f) ==
      var e0: Errors<Field> := map[];
      var e1 := if IsBlank(f.rfi_number) then e0[RfiNumber := "RFI number is required."] else e0;
      var e2 := if IsBlank(f.title) then e1[Title := "Title is required."] else e1;
      var e3 := if IsBlank(f.raised_by) then e2[RaisedBy := "Raised by is required."] else e2;
      var e4 := if f.raised_at == "" then e3[RaisedAt := "Raised at is required."] else e3;
      var e5 := if f.due_date == "" then e4[DueDate := "Due date is required."] else e4;
      e5
  {
    var e0: Errors<Field> := map[];
    var e1 := Step(e0, RfiNumber, FailsOn(f), Message);
    StepExtends(CheckOrder, FailsOn(f), Message, 0, e0, e1);
    var e2 := Step(e1, Title, FailsOn(f), Message);
    StepExtends(CheckOrder, FailsOn(f), Message, 1, e1, e2);
    var e3 := Step(e2, RaisedBy, FailsOn(f), Message);
    StepExtends(CheckOrder, FailsOn(f), Message, 2, e2, e3);
    var e4 := Step(e3, RaisedAt, FailsOn(f), Message);
    StepExtends(CheckOrder, FailsOn(f), Message, 3, e3, e4);
    var e5 := Step(e4, DueDate, FailsOn(f), Message);
    StepExtends(CheckOrder, FailsOn(f), Message, 4, e4, e5);
  }

  /** The submit handler fills `nextErrors` one check at a time. */
  method CollectErrors(f: RfiInput) returns (errors: Errors<Field>)
    ensures errors == ErrorsFor(f)
  {
    errors := map[];
    if IsBlank(f.rfi_number) { errors := errors[RfiNumber := "RFI number is required."]; }
    if IsBlank(f.title) { errors := errors[Title := "Title is required."]; }
    if IsBlank(f.raised_by) { errors := errors[RaisedBy := "Raised by is required."]; }
    if f.raised_at == "" { errors := errors[RaisedAt := "Raised at is required."]; }
    if f.due_date == "" { errors := errors[DueDate := "Due date is required."]; }
    HandlerBuildsErrors(f);
  }

  /** An RFI the form lets through. */
  predicate Accepted(f: RfiInput) {
    && !IsBlank(f.rfi_number) && !IsBlank(f.title) && !IsBlank(f.raised_by)
    && f.raised_at != "" && f.due_date != ""
  }

  /** An RFI is accepted exactly when none of its checks fails. */
  lemma AcceptedIffNothingFails(f: RfiInput)
    ensures Accepted(f) <==> forall field :: !Fails(f, field)
  {
    if !Accepted(f) {
      if IsBlank(f.rfi_number) { assert Fails(f, RfiNumber); }
      else if IsBlank(f.title) { assert Fails(f, Title); }
      else if IsBlank(f.raised_by) { assert Fails(f, RaisedBy); }
      else if f.raised_at == "" { assert Fails(f, RaisedAt); }
      else { assert Fails(f, DueDate); }
    }
  }

  /**
   * The form submits exactly when number, title and raiser are non-blank
   * and both dates are set; otherwise exactly the failing fields carry a
   * message, each its own and none empty.
   */
  lemma ErrorsExact(f: RfiInput)
    ensures forall field :: field in ErrorsFor(f) <==> Fails(f, field)
    ensures forall field :: field in ErrorsFor(f) ==> ErrorsFor(f)[field] == Message(field) != ""
    ensures ErrorsFor(f) == map[] <==> Accepted(f)
  {
    ErrorsAfterExact(CheckOrder, FailsOn(f), Message, |CheckOrder|);
    assert CheckOrder[..|CheckOrder|] == CheckOrder;
    forall field: Field
      ensures field in CheckOrder && Message(field) != ""
    {
      assert CheckOrder[Position(field)] == field;
    }
    AcceptedIffNothingFails(f);
    if ErrorsFor(f) != map[] {
      var field :| field in ErrorsFor(f);
    }
  }

  /**
   * What a submit sends: `raised_at` through `toDateTimePayload`, falling
   * back to the input as typed, and `responded_at` converted when set and
   * null otherwise. `toIso` is the browser's `new Date(v).toISOString()`.
   */
  function Payload(f: RfiInput, toIso: string -> string): RfiInput {
    f.(raised_at := ToDateTimePayload(f.raised_at, toIso).GetOr(f.raised_at),
       responded_at := if !Falsy(f.responded_at) then ToDateTimePayload(f.responded_at.value, toIso) else None)
  }

  /**
   * What an accepted form sends: both set timestamps in ISO form (the
   * fallback to the raw `raised_at` never applies once the date is
   * required), no response time when none was entered, and every other
   * field as edited.
   */
  lemma PayloadShape(f: RfiInput, toIso: string -> string)
    requires Accepted(f)
    ensures var p := Payload(f, toIso);
            && p.raised_at == toIso(f.raised_at)
            && (p.responded_at.None? <==> Falsy(f.responded_at))
            && (!Falsy(f.responded_at) ==> p.responded_at == Some(toIso(f.responded_at.value)))
            && p.(raised_at := f.raised_at, responded_at := f.responded_at) == f
  {
  }

  /**
   * The browser's own validation of the inputs, which runs before the submit
   * handler: a `required` input left empty cancels the submit.
   */
  predicate BrowserBlocks(f: RfiInput) {
    f.rfi_number == "" || f.title == "" || f.raised_by == "" || f.raised_at == "" || f.due_date == ""
  }

  /**
   * What the handler still refuses once the browser lets a submit through: a
   * number, title or raiser of whitespace alone. The date checks never fire.
   */
  lemma HandlerSeesOnlyWhitespace(f: RfiInput)
    requires !BrowserBlocks(f)
    ensures ErrorsFor(f).Keys <= {RfiNumber, Title, RaisedBy}
    ensures ErrorsFor(f) != map[] <==> IsBlank(f.rfi_number) || IsBlank(f.title) || IsBlank(f.raised_by)
  {
    ErrorsExact(f);
  }

  /** `defaultRfi` for the route's project (`projectId ?? ''`). */
  function Default(projectKey: string): RfiInput {
    RfiInput(Some(projectKey), "", "", "", RfiOpen, "", "", "", None, "")
  }

  /** A new RFI cannot be saved untouched: every checked field starts empty and fails. */
  lemma DefaultNeedsFilling(projectKey: string)
    ensures BrowserBlocks(Default(projectKey))
    ensures ErrorsFor(Default(projectKey)).Keys == {RfiNumber, Title, RaisedBy, RaisedAt, DueDate}
  {
    assert IsBlank("");
    ErrorsExact(Default(projectKey));
    assert forall field :: field in ErrorsFor(Default(projectKey));
  }

  /**
   * The edit form of an existing RFI: its own values, with the dates as
   * `toDateInput` and `toDateTimeInput` show them; `localDate` and
   * `localDateTime` are the browser's renderings of a parsed date.
   */
  function Initial(item: Rfi, localDate: string -> string, localDateTime: string -> string): RfiInput {
    RfiInput(item.projectRef.project_id, item.rfi_number, item.title, item.question, item.status,
             item.raised_by, Shown(ToDateTimeInput(Some(item.raised_at)), localDateTime),
             Shown(ToDateInput(Some(item.due_date)), localDate),
             Some(Shown(ToDateTimeInput(item.responded_at), localDateTime)), item.response_summary)
  }

  /**
   * Saving an existing RFI untouched: one never answered is sent with no
   * response time, one answered gets its response time as shown re-encoded
   * (none if the browser could not show it), and one stored without a raise
   * date is refused by the form.
   */
  lemma EditUntouched(item: Rfi, localDate: string -> string, localDateTime: string -> string,
                      toIso: string -> string)
    ensures Falsy(item.responded_at) ==> Payload(Initial(item, localDate, localDateTime), toIso).responded_at == None
    ensures !Falsy(item.responded_at) ==>
              Payload(Initial(item, localDate, localDateTime), toIso).responded_at
              == ToDateTimePayload(localDateTime(item.responded_at.value), toIso)
    ensures item.raised_at == "" ==> RaisedAt in ErrorsFor(Initial(item, localDate, localDateTime))
  {
    ErrorsExact(Initial(item, localDate, localDateTime));
  }

  /** The form's state: `form` and `errors`. */
  class FormState {
    var form: RfiInput
    var errors: Errors<Field>

    /** `useState(initial)`, `useState({})`. */
    constructor (initial: RfiInput)
      ensures form == initial && errors == map[]
    {
      form := initial;
      errors := map[];
    }

    /** A checked field's change handler: the new form, then that field's error cleared. */
    method Edit(next: RfiInput, field: Field)
      modifies this
      ensures form == next && errors == ClearedErrors(old(errors), field)
    {
      form := next;
      ClearError(field);
    }

    /** Question, status, response time and summary have no check and no error to clear. */
    method EditUnchecked(next: RfiInput)
      modifies this
      ensures form == next && errors == old(errors)
    {
      form := next;
    }

    /** `clearError`: return when there is no message, else copy the map and delete the key. */
    method ClearError(field: Field)
      modifies this
      ensures form == old(form) && errors == ClearedErrors(old(errors), field)
    {
      if field !in errors || errors[field] == "" {
        return;
      }
      var next := errors;
      next := next - {field};
      errors := next;
    }

    /** Submit: the new error map replaces the old; only an accepted form goes out, converted. */
    method Submit(toIso: string -> string) returns (payload: Option<RfiInput>)
      modifies this
      ensures form == old(form) && errors == ErrorsFor(form)
      ensures payload.Some? <==> Accepted(form)
      ensures payload.Some? ==> payload.value == Payload(form, toIso)
    {
      var nextErrors := CollectErrors(form);
      errors := nextErrors;
      ErrorsExact(form);
      if |nextErrors| > 0 {
        return None;
      }
      var raisedAt := ToDateTimePayload(form.raised_at, toIso);
      var respondedAt := None;
      if form.responded_at.Some? && form.responded_at.value != "" {
        respondedAt := ToDateTimePayload(form.responded_at.value, toIso);
      }
      payload := Some(form.(raised_at := raisedAt.GetOr(form.raised_at), responded_at := respondedAt));
    }

    /**
     * A click on Save: the browser validates the inputs first and, when it
     * blocks, no handler runs and nothing changes; otherwise the submit
     * handler runs.
     */
    method RequestSubmit(toIso: string -> string) returns (payload: Option<RfiInput>)
      modifies this
      ensures form == old(form)
      ensures BrowserBlocks(form) ==> errors == old(errors) && payload.None?
      ensures !BrowserBlocks(form) ==>
                && errors == ErrorsFor(form)
                && (payload.Some? <==> Accepted(form))
                && (payload.Some? ==> payload.value == Payload(form, toIso))
    {
      if BrowserBlocks(form) {
        return None;
      }
      payload := Submit(toIso);
    }
  }
}
