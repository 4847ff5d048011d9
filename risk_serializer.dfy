/**
 * The back end's risk validation: likelihood and impact on a 1..5 scale and
 * a rating equal to their product, each value taken from the request or,
 * on a partial update, from the stored risk.
 */
module RiskSerializer {
  import opened Wrappers

  /** A key of the request's `attrs`: absent, or present with a value that may be None. */
  datatype Field = Absent | Present(value: Option<int>)

  /** The keys of `attrs` the validator reads; `others` stands for every other key, passed through. */
  datatype RiskAttrs = RiskAttrs(likelihood: Field, impact: Field, rating: Field, others: map<string, string>)

  /** The stored risk a partial update starts from (`self.instance`). */
  datatype StoredRisk = StoredRisk(likelihood: Option<int>, impact: Option<int>, rating: Option<int>)

  /** The `ValidationError`s `validate` raises, each under one field name. */
  datatype RiskError = LikelihoodOutOfRange | ImpactOutOfRange | RatingMismatch(expected: int)

  /** The field the error is reported under. */
  function ErrorField(e: RiskError): string {
    match e
    case LikelihoodOutOfRange => "likelihood"
    case ImpactOutOfRange => "impact"
    case RatingMismatch(_) => "rating"
  }

  /** `attrs.get(key, getattr(self.instance, key, None))`. */
  function Effective(f: Field, instance: Option<StoredRisk>, stored: StoredRisk -> Option<int>): Option<int> {
    match f
    case Present(v) => v
    case Absent => if instance.Some? then stored(instance.value) else None
  }

  function EffectiveLikelihood(attrs: RiskAttrs, instance: Option<StoredRisk>): Option<int> {
    Effective(attrs.likelihood, instance, (s: StoredRisk) => s.likelihood)
  }

  function EffectiveImpact(attrs: RiskAttrs, instance: Option<StoredRisk>): Option<int> {
    Effective(attrs.impact, instance, (s: StoredRisk) => s.impact)
  }

  function EffectiveRating(attrs: RiskAttrs, instance: Option<StoredRisk>): Option<int> {
    Effective(attrs.rating, instance, (s: StoredRisk) => s.rating)
  }

  /** A known value outside 1..5. */
  predicate OffScale(v: Option<int>) {
    v.Some? && (v.value < 1 || v.value > 5)
  }

  /** `RiskSerializer.validate`: the first failing check raises, otherwise `attrs` is returned as given. */
  function Validate(attrs: RiskAttrs, instance: Option<StoredRisk>): Result<RiskAttrs, RiskError> {
    var likelihood := EffectiveLikelihood(attrs, instance);
    var impact := EffectiveImpact(attrs, instance);
    var rating := EffectiveRating(attrs, instance);
    if OffScale(likelihood) then Err(LikelihoodOutOfRange)
    else if OffScale(impact) then Err(ImpactOutOfRange)
    else if likelihood.Some? && impact.Some? && rating.Some?
            && rating.value != likelihood.value * impact.value then
      Err(RatingMismatch(likelihood.value * impact.value))
    else Ok(attrs)
  }

  /**
   * What an accepted risk satisfies: every known likelihood and impact is in
   * 1..5, and when all three values are known the rating is their product.
   */
  predicate Consistent(likelihood: Option<int>, impact: Option<int>, rating: Option<int>) {
    && (likelihood.Some? ==> 1 <= likelihood.value <= 5)
    && (impact.Some? ==> 1 <= impact.value <= 5)
    && (likelihood.Some? && impact.Some? && rating.Some? ==> rating.value == likelihood.value * impact.value)
  }

  /** Validation accepts exactly the consistent effective values, and then returns `attrs` unchanged. */
  lemma ValidateAcceptsIffConsistent(attrs: RiskAttrs, instance: Option<StoredRisk>)
    ensures Validate(attrs, instance).Ok?
        <==> Consistent(EffectiveLikelihood(attrs, instance), EffectiveImpact(attrs, instance),
                        EffectiveRating(attrs, instance))
    ensures Validate(attrs, instance).Ok? ==> Validate(attrs, instance).value == attrs
  {
  }

  /**
   * Checks run likelihood, impact, rating, and only the first failure is
   * reported: an impact error means the likelihood passed, a rating error
   * means both passed and names the expected product.
   */
  lemma FirstFailureReported(attrs: RiskAttrs, instance: Option<StoredRisk>)
    ensures var l := EffectiveLikelihood(attrs, instance);
            var i := EffectiveImpact(attrs, instance);
            var r := EffectiveRating(attrs, instance);
            && (Validate(attrs, instance) == Err(LikelihoodOutOfRange) <==> OffScale(l))
            && (Validate(attrs, instance) == Err(ImpactOutOfRange) <==> !OffScale(l) && OffScale(i))
            && (Validate(attrs, instance).Err? && Validate(attrs, instance).error.RatingMismatch?
                <==> !OffScale(l) && !OffScale(i) && l.Some? && i.Some? && r.Some? && r.value != l.value * i.value)
            && (Validate(attrs, instance).Err? && Validate(attrs, instance).error.RatingMismatch?
                ==> Validate(attrs, instance).error.expected == l.value * i.value)
  {
  }

  /** A None value skips every check that needs it: with no likelihood only the impact is checked. */
  lemma NoneSkipsChecks(impact: Option<int>, rating: Option<int>, others: map<string, string>)
    ensures Validate(RiskAttrs(Present(None), Present(impact), Present(rating), others), None).Ok?
        <==> !OffScale(impact)
  {
  }

  /**
   * On a partial update an absent key takes the stored risk's value: a
   * rating alone is checked against the stored likelihood and impact, and a
   * likelihood alone against the stored impact and rating.
   */
  lemma PartialUpdateFallsBack(s: StoredRisk, r: int, l: int, others: map<string, string>)
    ensures Validate(RiskAttrs(Absent, Absent, Present(Some(r)), others), Some(s)).Ok?
        <==> Consistent(s.likelihood, s.impact, Some(r))
    ensures Validate(RiskAttrs(Present(Some(l)), Absent, Absent, others), Some(s)).Ok?
        <==> Consistent(Some(l), s.impact, s.rating)
  {
    ValidateAcceptsIffConsistent(RiskAttrs(Absent, Absent, Present(Some(r)), others), Some(s));
    ValidateAcceptsIffConsistent(RiskAttrs(Present(Some(l)), Absent, Absent, others), Some(s));
  }

  /**
   * For a stored 3 x 4 risk rated 12: changing only the rating to 12 passes,
   * to 9 fails naming 12, and raising only the likelihood to 4 makes the
   * stored rating stale unless the rating moves to 16 with it.
   */
  lemma PartialUpdateExamples(others: map<string, string>)
    ensures var stored := Some(StoredRisk(Some(3), Some(4), Some(12)));
            && Validate(RiskAttrs(Absent, Absent, Present(Some(12)), others), stored).Ok?
            && Validate(RiskAttrs(Absent, Absent, Present(Some(9)), others), stored) == Err(RatingMismatch(12))
            && Validate(RiskAttrs(Present(Some(4)), Absent, Absent, others), stored) == Err(RatingMismatch(16))
            && Validate(RiskAttrs(Present(Some(4)), Absent, Present(Some(16)), others), stored).Ok?
  {
  }

  /** Without a stored risk an absent key is unknown, so a create with no rating is not checked against the product. */
  lemma CreateWithoutRatingSkipsProduct(likelihood: int, impact: int, others: map<string, string>)
    requires 1 <= likelihood <= 5 && 1 <= impact <= 5
    ensures Validate(RiskAttrs(Present(Some(likelihood)), Present(Some(impact)), Absent, others), None).Ok?
  {
  }
}
