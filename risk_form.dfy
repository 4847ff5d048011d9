/**
 * The drawer form for a risk: required title, category, owner and due date,
 * likelihood and impact on the 1..5 scale, and a rating the form derives as
 * their product and sends with the rest of the fields.
 */
module RiskForm {
  import opened Wrappers
  import opened Text
  import opened Entities
  import opened WorkspaceUtils
  import opened FormErrors
  import RiskSerializer

  datatype RiskInput = RiskInput(
    project_id: Option<string>, title: string, description: string, category: string,
    likelihood: int, impact: int, rating: int, status: string, owner: string,
    due_date: string, mitigation_plan: string)

  /** The fields the form checks, named in the error map as `title`, `category`, … */
  datatype Field = Title | Category | Owner | DueDate | Likelihood | Impact

  /** The checks in the order the submit handler runs them. */
  const CheckOrder: seq<Field> := [Title, Category, Owner, DueDate, Likelihood, Impact]

  /** The position of a field's check in the handler. */
  function Position(field: Field): (i: nat)
    ensures i < |CheckOrder| && CheckOrder[i] == field
  {
    match field
    case Title => 0
    case Category => 1
    case Owner => 2
    case DueDate => 3
    case Likelihood => 4
    case Impact => 5
  }

  /** Whether a value lies off the 1..5 scale the form accepts. */
  predicate OffScale(v: int) {
    v < 1 || v > 5
  }

  /** Whether a field fails its check: blank text, an empty date, or a score off the scale. */
  predicate Fails(f: RiskInput, field: Field) {
    match field
    case Title => IsBlank(f.title)
    case Category => IsBlank(f.category)
    case Owner => IsBlank(f.owner)
    case DueDate => f.due_date == ""
    case Likelihood => OffScale(f.likelihood)
    case Impact => OffScale(f.impact)
  }

  function Message(field: Field): string {
    match field
    case Title => "Title is required."
    case Category => "Category is required."
    case Owner => "Owner is required."
    case DueDate => "Due date is required."
    case _ => "1\U{2013}5 required."
  }

  /** The form's checks as one predicate over its fields. */
  function FailsOn(f: RiskInput): Field -> bool {
    field => Fails(f, field)
  }

  /** The error map a submit leaves: the checks run in `CheckOrder` from `{}`. */
  function ErrorsFor(f: RiskInput): Errors<Field> {
    ErrorsAfter(CheckOrder, FailsOn(f), Message, |CheckOrder|)
  }

  /** The handler's lines, run in order from `{}`, build the map the checks define. */
  lemma HandlerBuildsErrors(f: RiskInput)
    ensures ErrorsFor(f) ==
      var e0: Errors<Field> := map[];
      var e1 := if IsBlank(f.title) then e0[Title := "Title is required."] else e0;
      var e2 := if IsBlank(f.category) then e1[Category := "Category is required."] else e1;
      var e3 := if IsBlank(f.owner) then e2[Owner := "Owner is required."] else e2;
      var e4 := if f.due_date == "" then e3[DueDate := "Due date is required."] else e3;
      var e5 := if f.likelihood < 1 || f.likelihood > 5 then e4[Likelihood := "1\U{2013}5 required."] else e4;
      var e6 := if f.impact < 1 || f.impact > 5 then e5[Impact := "1\U{2013}5 required."] else e5;
      e6
  {
    var e0: Errors<Field> := map[];
    var e1 := Step(e0, Title, FailsOn(f), Message);
    StepExtends(CheckOrder, FailsOn(f), Message, 0, e0, e1);
    var e2 := Step(e1, Category, FailsOn(f), Message);
    StepExtends(CheckOrder, FailsOn(f), Message, 1, e1, e2);
    var e3 := Step(e2, Owner, FailsOn(f), Message);
    StepExtends(CheckOrder, FailsOn(f), Message, 2, e2, e3);
    var e4 := Step(e3, DueDate, FailsOn(f), Message);
    StepExtends(CheckOrder, FailsOn(f), Message, 3, e3, e4);
    var e5 := Step(e4, Likelihood, FailsOn(f), Message);
    StepExtends(CheckOrder, FailsOn(f), Message, 4, e4, e5);
    var e6 := Step(e5, Impact, FailsOn(f), Message);
    StepExtends(CheckOrder, FailsOn(f), Message, 5, e5, e6);
  }

  /** The submit handler fills `nextErrors` one check at a time. */
  method CollectErrors(f: RiskInput) returns (errors: Errors<Field>)
    ensures errors == ErrorsFor(f)
  {
    errors := map[];
    if IsBlank(f.title) { errors := errors[Title := "Title is required."]; }
    if IsBlank(f.category) { errors := errors[Category := "Category is required."]; }
    if IsBlank(f.owner) { errors := errors[Owner := "Owner is required."]; }
    if f.due_date == "" { errors := errors[DueDate := "Due date is required."]; }
    if f.likelihood < 1 || f.likelihood > 5 { errors := errors[Likelihood := "1\U{2013}5 required."]; }
    if f.impact < 1 || f.impact > 5 { errors := errors[Impact := "1\U{2013}5 required."]; }
    HandlerBuildsErrors(f);
  }

  /** A risk the form lets through. */
  predicate Accepted(f: RiskInput) {
    && !IsBlank(f.title) && !IsBlank(f.category) && !IsBlank(f.owner) && f.due_date != ""
    && 1 <= f.likelihood <= 5 && 1 <= f.impact <= 5
  }

  /** A risk is accepted exactly when none of its checks fails. */
  lemma AcceptedIffNothingFails(f: RiskInput)
    ensures Accepted(f) <==> forall field :: !Fails(f, field)
  {
    if !Accepted(f) {
      if IsBlank(f.title) { assert Fails(f, Title); }
      else if IsBlank(f.category) { assert Fails(f, Category); }
      else if IsBlank(f.owner) { assert Fails(f, Owner); }
      else if f.due_date == "" { assert Fails(f, DueDate); }
      else if OffScale(f.likelihood) { assert Fails(f, Likelihood); }
      else { assert Fails(f, Impact); }
    }
  }

  /**
   * The form submits exactly when title, category and owner are non-blank,
   * a due date is set and both scores are in 1..5; otherwise exactly the
   * failing fields carry a message, each its own and none empty.
   */
  lemma ErrorsExact(f: RiskInput)
    ensures forall field :: field in ErrorsFor(f) <==> Fails(f, field)
    ensures forall field :: field in ErrorsFor(f) ==> ErrorsFor(f)[field] == Message(field) != ""
    ensures ErrorsFor(f) == map[] <==> Accepted(f)
  {
    ErrorsAfterExact(CheckOrder, FailsOn(f), Message, |CheckOrder|);
    assert CheckOrder[..|CheckOrder|] == CheckOrder;
    forall field: Field
      ensures field in CheckOrder && Message(field) != ""
    {
      assert CheckOrder[Position(field)] == field;
    }
    AcceptedIffNothingFails(f);
    if ErrorsFor(f) != map[] {
      var field :| field in ErrorsFor(f);
    }
  }

  /** The read-only rating the form shows: likelihood times impact. */
  function Rating(f: RiskInput): int {
    f.likelihood * f.impact
  }

  /** `{ ...form, rating }`: what a successful submit sends. */
  function Payload(f: RiskInput): RiskInput {
    f.(rating := Rating(f))
  }

  /** Two scores on the 1..5 scale give a rating on the 1..25 scale. */
  lemma RatingBounds(likelihood: int, impact: int)
    requires 1 <= likelihood <= 5 && 1 <= impact <= 5
    ensures 1 <= likelihood * impact <= 25
  {
    assert likelihood * impact <= 5 * impact;
  }

  /**
   * What an accepted form sends: a rating in 1..25 that is the product of
   * the scores sent with it, whatever rating the form held, and every other
   * field as edited.
   */
  lemma PayloadShape(f: RiskInput)
    requires Accepted(f)
    ensures var p := Payload(f);
            && p.rating == p.likelihood * p.impact && 1 <= p.rating <= 25
            && p.(rating := f.rating) == f
  {
    RatingBounds(f.likelihood, f.impact);
  }

  /** The request body's `likelihood`, `impact` and `rating`, all present, as the back end reads them. */
  function SentAttrs(p: RiskInput, others: map<string, string>): RiskSerializer.RiskAttrs {
    RiskSerializer.RiskAttrs(
      RiskSerializer.Present(Some(p.likelihood)), RiskSerializer.Present(Some(p.impact)),
      RiskSerializer.Present(Some(p.rating)), others)
  }

  /**
   * The back end's validation never rejects what the form sends: on create
   * and on update of any stored risk, the three values pass unchanged.
   */
  lemma ServerAcceptsPayload(f: RiskInput, instance: Option<RiskSerializer.StoredRisk>, others: map<string, string>)
    requires Accepted(f)
    ensures RiskSerializer.Validate(SentAttrs(Payload(f), others), instance) == Ok(SentAttrs(Payload(f), others))
  {
    var attrs := SentAttrs(Payload(f), others);
    assert RiskSerializer.EffectiveLikelihood(attrs, instance) == Some(f.likelihood);
    assert RiskSerializer.EffectiveImpact(attrs, instance) == Some(f.impact);
    assert RiskSerializer.EffectiveRating(attrs, instance) == Some(f.likelihood * f.impact);
  }

  /**
   * Conversely, scores the form refuses are the ones the back end refuses:
   * a likelihood off the scale is reported by both, under the same field.
   */
  lemma ServerRejectsOffScaleLikelihood(f: RiskInput, instance: Option<RiskSerializer.StoredRisk>,
                                        others: map<string, string>)
    requires OffScale(f.likelihood)
    ensures Fails(f, Likelihood)
    ensures RiskSerializer.Validate(SentAttrs(Payload(f), others), instance)
            == Err(RiskSerializer.LikelihoodOutOfRange)
  {
    var attrs := SentAttrs(Payload(f), others);
    assert RiskSerializer.EffectiveLikelihood(attrs, instance) == Some(f.likelihood);
  }

  /**
   * The browser's own validation of the inputs, which runs before the submit
   * handler: a `required` input left empty, or a score outside its
   * `min="1"`/`max="5"`, cancels the submit.
   */
  predicate BrowserBlocks(f: RiskInput) {
    || f.title == "" || f.category == "" || f.owner == "" || f.due_date == ""
    || OffScale(f.likelihood) || OffScale(f.impact)
  }

  /**
   * What the handler still refuses once the browser lets a submit through: a
   * title, category or owner of whitespace alone. The due-date and score
   * checks never fire.
   */
  lemma HandlerSeesOnlyWhitespace(f: RiskInput)
    requires !BrowserBlocks(f)
    ensures ErrorsFor(f).Keys <= {Title, Category, Owner}
    ensures ErrorsFor(f) != map[] <==> IsBlank(f.title) || IsBlank(f.category) || IsBlank(f.owner)
  {
    ErrorsExact(f);
  }

  /** `defaultRisk` for the route's project (`projectId ?? ''`). */
  function Default(projectKey: string): RiskInput {
    RiskInput(Some(projectKey), "", "", "", 3, 3, 9, RiskOpen, "", "", "")
  }

  /**
   * A new risk cannot be saved untouched: it lacks a title, category, owner
   * and due date, while its middling scores pass and its rating already
   * equals their product.
   */
  lemma DefaultNeedsFilling(projectKey: string)
    ensures BrowserBlocks(Default(projectKey))
    ensures ErrorsFor(Default(projectKey)).Keys == {Title, Category, Owner, DueDate}
    ensures Payload(Default(projectKey)) == Default(projectKey)
  {
    assert IsBlank("");
    ErrorsExact(Default(projectKey));
    assert forall field :: field in ErrorsFor(Default(projectKey)) <==>
      field == Title || field == Category || field == Owner || field == DueDate;
  }

  /**
   * The edit form of an existing risk: its own values, with the due date as
   * `toDateInput` shows it; `local` is the browser's rendering of a parsed
   * date.
   */
  function Initial(item: Risk, local: string -> string): RiskInput {
    RiskInput(item.projectRef.project_id, item.title, item.description, item.category,
              item.likelihood, item.impact, item.rating, item.status, item.owner,
              Shown(ToDateInput(Some(item.due_date)), local), item.mitigation_plan)
  }

  /**
   * Saving an existing risk untouched recomputes its rating from its scores,
   * so a stored rating that disagrees with them is corrected, and one that
   * agrees is sent back as it was; a date-only due date is sent back as
   * stored.
   */
  lemma EditUntouched(item: Risk, local: string -> string)
    ensures Payload(Initial(item, local)).rating == item.likelihood * item.impact
    ensures item.rating == item.likelihood * item.impact ==> Payload(Initial(item, local)) == Initial(item, local)
    ensures item.due_date != "" && 'T' !in item.due_date ==> Initial(item, local).due_date == item.due_date
  {
  }

  /** The form's state: `form` and `errors`. */
  class FormState {
    var form: RiskInput
    var errors: Errors<Field>

    /** `useState(initial)`, `useState({})`. */
    constructor (initial: RiskInput)
      ensures form == initial && errors == map[]
    {
      form := initial;
      errors := map[];
    }

    /** The rating field, recomputed from the form on every render. */
    function ShownRating(): int
      reads this
    {
      Rating(form)
    }

    /** A checked field's change handler: the new form, then that field's error cleared. */
    method Edit(next: RiskInput, field: Field)
      modifies this
      ensures form == next && errors == ClearedErrors(old(errors), field)
    {
      form := next;
      ClearError(field);
    }

    /** Description, status and mitigation plan have no check and no error to clear. */
    method EditUnchecked(next: RiskInput)
      modifies this
      ensures form == next && errors == old(errors)
    {
      form := next;
    }

    /** `clearError`: return when there is no message, else copy the map and delete the key. */
    method ClearError(field: Field)
      modifies this
      ensures form == old(form) && errors == ClearedErrors(old(errors), field)
    {
      if field !in errors || errors[field] == "" {
        return;
      }
      var next := errors;
      next := next - {field};
      errors := next;
    }

    /**
     * Submit: the new error map replaces the old; only an accepted form goes
     * out, with the rating shown on screen.
     */
    method Submit() returns (payload: Option<RiskInput>)
      modifies this
      ensures form == old(form) && errors == ErrorsFor(form)
      ensures payload.Some? <==> Accepted(form)
      ensures payload.Some? ==> payload.value == Payload(form) && payload.value.rating == ShownRating()
    {
      var nextErrors := CollectErrors(form);
      errors := nextErrors;
      ErrorsExact(form);
      if |nextErrors| > 0 {
        return None;
      }
      var rating := form.likelihood * form.impact;
      payload := Some(form.(rating := rating));
    }

    /**
     * A click on Save: the browser validates the inputs first and, when it
     * blocks, no handler runs and nothing changes; otherwise the submit
     * handler runs.
     */
    method RequestSubmit() returns (payload: Option<RiskInput>)
      modifies this
      ensures form == old(form)
      ensures BrowserBlocks(form) ==> errors == old(errors) && payload.None?
      ensures !BrowserBlocks(form) ==>
                && errors == ErrorsFor(form)
                && (payload.Some? <==> Accepted(form))
                && (payload.Some? ==> payload.value == Payload(form))
    {
      if BrowserBlocks(form) {
        return None;
      }
      payload := Submit();
    }
  }
}
