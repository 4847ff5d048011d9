/**
 * The drawer form for a budget line: required text fields, non-negative
 * amounts, and the form state (fields plus error map) the submit and change
 * handlers update.
 */
module BudgetForm {
  import opened Wrappers
  import opened Text
  import opened Entities
  import opened FormErrors

  datatype BudgetInput = BudgetInput(
    project_id: Option<string>, category: string, description: string,
    original_budget: int, approved_variations: int, forecast_cost: int, actual_spent: int,
    currency: string, cost_code: string, status: string)

  /** The fields the form checks, named in the error map as `category`, `cost_code`, … */
  datatype Field = Category | CostCode | Currency | OriginalBudget | ApprovedVariations | ForecastCost | ActualSpent

  /** The checks in the order the submit handler runs them. */
  const CheckOrder: seq<Field> :=
    [Category, CostCode, Currency, OriginalBudget, ApprovedVariations, ForecastCost, ActualSpent]

  /** The position of a field's check in the handler. */
  function Position(field: Field): (i: nat)
    ensures i < |CheckOrder| && CheckOrder[i] == field
  {
    match field
    case Category => 0
    case CostCode => 1
    case Currency => 2
    case OriginalBudget => 3
    case ApprovedVariations => 4
    case ForecastCost => 5
    case ActualSpent => 6
  }

  /** Whether a field fails its check: text blank after trimming, or an amount below zero. */
  predicate Fails(f: BudgetInput, field: Field) {
    match field
    case Category => IsBlank(f.category)
    case CostCode => IsBlank(f.cost_code)
    case Currency => IsBlank(f.currency)
    case OriginalBudget => f.original_budget < 0
    case ApprovedVariations => f.approved_variations < 0
    case ForecastCost => f.forecast_cost < 0
    case ActualSpent => f.actual_spent < 0
  }

  function Message(field: Field): string {
    match field
    case Category => "Category is required."
    case CostCode => "Cost code is required."
    case Currency => "Currency is required."
    case _ => "Must be 0 or greater."
  }

  /** The form's checks as one predicate over its fields. */
  function FailsOn(f: BudgetInput): Field -> bool {
    field => Fails(f, field)
  }

  /** The error map a submit leaves: the checks run in `CheckOrder` from `{}`. */
  function ErrorsFor(f: BudgetInput): Errors<Field> {
    ErrorsAfter(CheckOrder, FailsOn(f), Message, |CheckOrder|)
  }

  /** The handler's seven lines, run in order from `{}`, build the map the checks define. */
  lemma HandlerBuildsErrors(f: BudgetInput)
    ensures ErrorsFor(f) ==
      var e0: Errors<Field> := map[];
      var e1 := if IsBlank(f.category) then e0[Category := "Category is required."] else e0;
      var e2 := if IsBlank(f.cost_code) then e1[CostCode := "Cost code is required."] else e1;
      var e3 := if IsBlank(f.currency) then e2[Currency := "Currency is required."] else e2;
      var e4 := if f.original_budget < 0 then e3[OriginalBudget := "Must be 0 or greater."] else e3;
      var e5 := if f.approved_variations < 0 then e4[ApprovedVariations := "Must be 0 or greater."] else e4;
      var e6 := if f.forecast_cost < 0 then e5[ForecastCost := "Must be 0 or greater."] else e5;
      var e7 := if f.actual_spent < 0 then e6[ActualSpent := "Must be 0 or greater."] else e6;
      e7
  {
    var e0: Errors<Field> := map[];
    var e1 := Step(e0, Category, FailsOn(f), Message);
    StepExtends(CheckOrder, FailsOn(f), Message, 0, e0, e1);
    var e2 := Step(e1, CostCode, FailsOn(f), Message);
    StepExtends(CheckOrder, FailsOn(f), Message, 1, e1, e2);
    var e3 := Step(e2, Currency, FailsOn(f), Message);
    StepExtends(CheckOrder, FailsOn(f), Message, 2, e2, e3);
    var e4 := Step(e3, OriginalBudget, FailsOn(f), Message);
    StepExtends(CheckOrder, FailsOn(f), Message, 3, e3, e4);
    var e5 := Step(e4, ApprovedVariations, FailsOn(f), Message);
    StepExtends(CheckOrder, FailsOn(f), Message, 4, e4, e5);
    var e6 := Step(e5, ForecastCost, FailsOn(f), Message);
    StepExtends(CheckOrder, FailsOn(f), Message, 5, e5, e6);
    var e7 := Step(e6, ActualSpent, FailsOn(f), Message);
    StepExtends(CheckOrder, FailsOn(f), Message, 6, e6, e7);
  }

  /** The submit handler fills `nextErrors` one check at a time. */
  method CollectErrors(f: BudgetInput) returns (errors: Errors<Field>)
    ensures errors == ErrorsFor(f)
  {
    errors := map[];
    if IsBlank(f.category) { errors := errors[Category := "Category is required."]; }
    if IsBlank(f.cost_code) { errors := errors[CostCode := "Cost code is required."]; }
    if IsBlank(f.currency) { errors := errors[Currency := "Currency is required."]; }
    if f.original_budget < 0 { errors := errors[OriginalBudget := "Must be 0 or greater."]; }
    if f.approved_variations < 0 { errors := errors[ApprovedVariations := "Must be 0 or greater."]; }
    if f.forecast_cost < 0 { errors := errors[ForecastCost := "Must be 0 or greater."]; }
    if f.actual_spent < 0 { errors := errors[ActualSpent := "Must be 0 or greater."]; }
    HandlerBuildsErrors(f);
  }

  /** A budget line the form lets through. */
  predicate Accepted(f: BudgetInput) {
    && !IsBlank(f.category) && !IsBlank(f.cost_code) && !IsBlank(f.currency)
    && f.original_budget >= 0 && f.approved_variations >= 0 && f.forecast_cost >= 0 && f.actual_spent >= 0
  }

  /**
   * The form submits exactly when category, cost code and currency are
   * non-blank and no amount is negative; otherwise exactly the failing
   * fields carry a message, each its own and none empty.
   */
  lemma ErrorsExact(f: BudgetInput)
    ensures forall field :: field in ErrorsFor(f) <==> Fails(f, field)
    ensures forall field :: field in ErrorsFor(f) ==> ErrorsFor(f)[field] == Message(field) != ""
    ensures ErrorsFor(f) == map[] <==> Accepted(f)
  {
    ErrorsAfterExact(CheckOrder, FailsOn(f), Message, |CheckOrder|);
    assert CheckOrder[..|CheckOrder|] == CheckOrder;
    forall field: Field
      ensures field in CheckOrder && Message(field) != ""
    {
      assert CheckOrder[Position(field)] == field;
    }
    AcceptedIffNothingFails(f);
    if ErrorsFor(f) != map[] {
      var field :| field in ErrorsFor(f);
    }
  }

  /** A budget line is accepted exactly when none of its checks fails. */
  lemma AcceptedIffNothingFails(f: BudgetInput)
    ensures Accepted(f) <==> forall field :: !Fails(f, field)
  {
    if !Accepted(f) {
      if IsBlank(f.category) { assert Fails(f, Category); }
      else if IsBlank(f.cost_code) { assert Fails(f, CostCode); }
      else if IsBlank(f.currency) { assert Fails(f, Currency); }
      else if f.original_budget < 0 { assert Fails(f, OriginalBudget); }
      else if f.approved_variations < 0 { assert Fails(f, ApprovedVariations); }
      else if f.forecast_cost < 0 { assert Fails(f, ForecastCost); }
      else { assert Fails(f, ActualSpent); }
    }
  }

  /**
   * The browser's own validation of the inputs, which runs before the submit
   * handler: a `required` text input left empty, or an amount below its
   * `min="0"`, cancels the submit.
   */
  predicate BrowserBlocks(f: BudgetInput) {
    || f.category == "" || f.currency == "" || f.cost_code == ""
    || f.original_budget < 0 || f.approved_variations < 0 || f.forecast_cost < 0 || f.actual_spent < 0
  }

  /**
   * What the handler still refuses once the browser lets a submit through: a
   * category, cost code or currency of whitespace alone. The amount checks
   * never fire.
   */
  lemma HandlerSeesOnlyWhitespace(f: BudgetInput)
    requires !BrowserBlocks(f)
    ensures ErrorsFor(f).Keys <= {Category, CostCode, Currency}
    ensures ErrorsFor(f) != map[] <==> IsBlank(f.category) || IsBlank(f.cost_code) || IsBlank(f.currency)
  {
    ErrorsExact(f);
  }

  /** `defaultBudget` for the route's project (`projectId ?? ''`). */
  function Default(projectKey: string): BudgetInput {
    BudgetInput(Some(projectKey), "", "", 0, 0, 0, 0, "AUD", "", BudgetOnTrack)
  }

  /**
   * A new budget line cannot be saved untouched: it lacks a category and a
   * cost code, while its currency (AUD) and zero amounts already pass.
   */
  lemma DefaultNeedsFilling(projectKey: string)
    ensures BrowserBlocks(Default(projectKey))
    ensures ErrorsFor(Default(projectKey)).Keys == {Category, CostCode}
  {
    assert IsBlank("");
    NotBlankWhenVisible("AUD", 0);
    ErrorsExact(Default(projectKey));
    assert forall field :: field in ErrorsFor(Default(projectKey)) <==> field == Category || field == CostCode;
  }

  /** The edit form of an existing line: its own values, the amounts through `Number`. */
  function Initial(item: BudgetItem): BudgetInput {
    BudgetInput(item.projectRef.project_id, item.category, item.description,
                item.original_budget, item.approved_variations, item.forecast_cost, item.actual_spent,
                item.currency, item.cost_code, item.status)
  }

  /**
   * Opening a budget line for editing and saving it untouched succeeds
   * exactly when the line itself passes the checks, and then sends the
   * line's own values.
   */
  lemma EditUntouched(item: BudgetItem)
    ensures ErrorsFor(Initial(item)) == map[] <==>
              && !IsBlank(item.category) && !IsBlank(item.cost_code) && !IsBlank(item.currency)
              && item.original_budget >= 0 && item.approved_variations >= 0
              && item.forecast_cost >= 0 && item.actual_spent >= 0
    ensures var p := Initial(item);
            && p.category == item.category && p.cost_code == item.cost_code && p.currency == item.currency
            && p.original_budget == item.original_budget && p.approved_variations == item.approved_variations
            && p.forecast_cost == item.forecast_cost && p.actual_spent == item.actual_spent
            && p.status == item.status && p.description == item.description
  {
    ErrorsExact(Initial(item));
  }

  /** The form's state: `form` and `errors`. */
  class FormState {
    var form: BudgetInput
    var errors: Errors<Field>

    /** `useState(initial)`, `useState({})`. */
    constructor (initial: BudgetInput)
      ensures form == initial && errors == map[]
    {
      form := initial;
      errors := map[];
    }

    /** A checked field's change handler: the new form, then that field's error cleared. */
    method Edit(next: BudgetInput, field: Field)
      modifies this
      ensures form == next && errors == ClearedErrors(old(errors), field)
    {
      form := next;
      ClearError(field);
    }

    /** Description and status have no check and no error to clear. */
    method EditUnchecked(next: BudgetInput)
      modifies this
      ensures form == next && errors == old(errors)
    {
      form := next;
    }

    /** `clearError`: return when there is no message, else copy the map and delete the key. */
    method ClearError(field: Field)
      modifies this
      ensures form == old(form) && errors == ClearedErrors(old(errors), field)
    {
      if field !in errors || errors[field] == "" {
        return;
      }
      var next := errors;
      next := next - {field};
      errors := next;
    }

    /** Submit: the new error map replaces the old; the form goes out only when it is empty. */
    method Submit() returns (payload: Option<BudgetInput>)
      modifies this
      ensures form == old(form) && errors == ErrorsFor(form)
      ensures payload.Some? <==> Accepted(form)
      ensures payload.Some? ==> payload.value == form
    {
      var nextErrors := CollectErrors(form);
      errors := nextErrors;
      ErrorsExact(form);
      if |nextErrors| > 0 {
        return None;
      }
      payload := Some(form);
    }

    /**
     * A click on Save: the browser validates the inputs first and, when it
     * blocks, no handler runs and nothing changes; otherwise the submit
     * handler runs.
     */
    method RequestSubmit() returns (payload: Option<BudgetInput>)
      modifies this
      ensures form == old(form)
      ensures BrowserBlocks(form) ==> errors == old(errors) && payload.None?
      ensures !BrowserBlocks(form) ==>
                && errors == ErrorsFor(form)
                && (payload.Some? <==> Accepted(form))
                && (payload.Some? ==> payload.value == form)
    {
      if BrowserBlocks(form) {
        return None;
      }
      payload := Submit();
    }
  }
}
