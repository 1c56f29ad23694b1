/** The template-driven service-level validator: the free-standing range
    check with its bounds fixed to 1 and 3. */
module ServiceLevelDirective {
  import opened Forms
  import CustomValidators

  /** `ServiceLevelDirective.validate`. */
  function Validate(c: Control<NumberValue>): (r: Option<ValidationErrors>)
    ensures r == None || r == Some(CustomValidators.ServiceLevelError)
  {
    CustomValidators.CheckServiceLevel(c, 1.0, 3.0)
  }

  /** The directive accepts exactly the undefined value and the numbers in
      [1, 3]. */
  lemma ValidateAccepts(c: Control<NumberValue>)
    ensures Validate(c) == None <==> c.value.Undefined? || (c.value.Num? && 1.0 <= c.value.r <= 3.0)
  {
  }

  /** The directive reports `serviceLevel` exactly for `NaN` and for the
      numbers below 1 or above 3. */
  lemma ValidateRejects(c: Control<NumberValue>)
    ensures Validate(c) == Some(CustomValidators.ServiceLevelError)
        <==> c.value.NaN? || (c.value.Num? && (c.value.r < 1.0 || c.value.r > 3.0))
  {
  }

  /** The directive is the range-validator factory's validator for [1, 3]. */
  lemma ValidateIsRangeOneToThree(c: Control<NumberValue>)
    ensures Validate(c) == CustomValidators.ServiceLevelRange(1.0, 3.0)(c)
  {
    CustomValidators.CheckServiceLevelIsRange(c, 1.0, 3.0);
  }
}
