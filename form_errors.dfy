/**
 * The per-field error map every drawer form keeps, and `clearError`, the
 * rule by which editing a field removes that field's message. Keys are the
 * form's own field enumeration; each stands for the field name the form
 * writes into its `Record<string, string>`.
 */
module FormErrors {
  type Errors<K> = map<K, string>

  /** `clearError(key)`: a no-op unless the key holds a message, otherwise a copy without it. */
  function ClearedErrors<K(!new)>(errors: Errors<K>, key: K): (r: Errors<K>)
    ensures key in errors && errors[key] != "" ==> key !in r
    ensures forall k :: k != key ==> (k in r <==> k in errors) && (k in r ==> r[k] == errors[k])
    ensures key !in errors || errors[key] == "" ==> r == errors
  {
    if key !in errors || errors[key] == "" then errors else errors - {key}
  }

  /** Clearing the same field twice is clearing it once; clearing only ever removes. */
  lemma ClearedErrorsIdempotent<K(!new)>(errors: Errors<K>, key: K)
    ensures ClearedErrors(ClearedErrors(errors, key), key) == ClearedErrors(errors, key)
    ensures ClearedErrors(errors, key).Keys <= errors.Keys
  {
  }

  /** Clearing one field's error never touches another's, so the order of edits does not matter. */
  lemma ClearedErrorsCommute<K(!new)>(errors: Errors<K>, a: K, b: K)
    ensures ClearedErrors(ClearedErrors(errors, a), b) == ClearedErrors(ClearedErrors(errors, b), a)
  {
  }

  /** A field holding a message loses exactly that entry. */
  lemma ClearedErrorsDropsOne<K(!new)>(errors: Errors<K>, key: K)
    requires key in errors && errors[key] != ""
    ensures ClearedErrors(errors, key).Keys == errors.Keys - {key}
    ensures |ClearedErrors(errors, key)| == |errors| - 1
  {
    assert ClearedErrors(errors, key).Keys == errors.Keys - {key};
  }

  /** One line of a submit handler: a failing check writes its message under its field. */
  function Step<K(!new)>(errors: Errors<K>, field: K, fails: K -> bool, message: K -> string): Errors<K> {
    if fails(field) then errors[field := message(field)] else errors
  }

  /**
   * The map a submit handler has built after the first `n` of its checks,
   * run in `order` from `{}`.
   */
  function ErrorsAfter<K(!new)>(order: seq<K>, fails: K -> bool, message: K -> string, n: nat): Errors<K>
    requires n <= |order|
  {
    if n == 0 then map[]
    else Step(ErrorsAfter(order, fails, message, n - 1), order[n - 1], fails, message)
  }

  /** After `n` checks the map holds exactly the failing fields among them, each with its message. */
  lemma {:induction false} ErrorsAfterExact<K(!new)>(order: seq<K>, fails: K -> bool, message: K -> string, n: nat)
    requires n <= |order|
    ensures forall k :: k in ErrorsAfter(order, fails, message, n) <==> k in order[..n] && fails(k)
    ensures forall k :: k in ErrorsAfter(order, fails, message, n) ==> ErrorsAfter(order, fails, message, n)[k] == message(k)
  {
    if n > 0 {
      ErrorsAfterExact(order, fails, message, n - 1);
      assert order[..n] == order[..n - 1] + [order[n - 1]];
    }
  }

  /** Running check `n` extends the map of the first `n` checks by that check's outcome. */
  lemma StepExtends<K(!new)>(order: seq<K>, fails: K -> bool, message: K -> string, n: nat,
                             before: Errors<K>, after: Errors<K>)
    requires n < |order|
    requires before == ErrorsAfter(order, fails, message, n)
    requires after == Step(before, order[n], fails, message)
    ensures after == ErrorsAfter(order, fails, message, n + 1)
  {
  }

  /** Every message a submit shows goes away, alone, when its field is edited. */
  lemma SubmitErrorCleared<K(!new)>(order: seq<K>, fails: K -> bool, message: K -> string, field: K)
    requires field in ErrorsAfter(order, fails, message, |order|)
    requires message(field) != ""
    ensures ClearedErrors(ErrorsAfter(order, fails, message, |order|), field).Keys
            == ErrorsAfter(order, fails, message, |order|).Keys - {field}
  {
    ErrorsAfterExact(order, fails, message, |order|);
    ClearedErrorsDropsOne(ErrorsAfter(order, fails, message, |order|), field);
  }
}
