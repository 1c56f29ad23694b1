/** The validator functions of the signup form: three copies of the
    service-level range check, the cross-field email check and the decision
    of the simulated email-uniqueness check. */
module CustomValidators {
  import opened Forms

  const ServiceLevelError: ValidationErrors := ["serviceLevel"]
  const EmailMatchError: ValidationErrors := ["emailMatch"]
  const AsyncEmailInvalidError: ValidationErrors := ["asyncEmailInvalid"]

  /** The one address the simulated server says is taken. */
  const ExistingEmail := "existsemail@example.com"

  /** The email group: the two child controls the group validator looks up
      by name. */
  datatype EmailGroupControls = EmailGroupControls(email: Control<string>, confirmEmail: Control<string>)

  /** `CustomValidators.serviceLevel`: the range check fixed to [1, 5]. */
  function ServiceLevel(c: Control<NumberValue>): (r: Option<ValidationErrors>)
    ensures r == None || r == Some(ServiceLevelError)
  {
    if c.value != Undefined && (c.value.NaN? || c.value.r < 1.0 || c.value.r > 5.0) then
      Some(ServiceLevelError)
    else
      None
  }

  /** `CustomValidators.serviceLevelRange(min, max)`: builds a validator
      function that checks the control's value against [min, max]. */
  function ServiceLevelRange(min: real, max: real): (validator: Control<NumberValue> -> Option<ValidationErrors>)
    ensures forall c :: validator(c) == None || validator(c) == Some(ServiceLevelError)
  {
    (c: Control<NumberValue>) =>
      if c.value != Undefined && (c.value.NaN? || c.value.r < min || c.value.r > max) then
        Some(ServiceLevelError)
      else
        None
  }

  /** `checkServiceLevel(c, min = 1, max = 5)`: the free-standing range check
      used by the template-driven directive. */
  function CheckServiceLevel(c: Control<NumberValue>, min: real := 1.0, max: real := 5.0): (r: Option<ValidationErrors>)
    ensures r == None || r == Some(ServiceLevelError)
  {
    if c.value != Undefined && (c.value.NaN? || c.value.r < min || c.value.r > max) then
      Some(ServiceLevelError)
    else
      None
  }

  /** The decision the simulated server makes in
      `asyncEmailPromiseValidator`, once its delay is over. */
  function AsyncEmailPromiseValidator(c: Control<string>): (r: Option<ValidationErrors>)
    ensures r == None || r == Some(AsyncEmailInvalidError)
  {
    if c.value == ExistingEmail then Some(AsyncEmailInvalidError) else None
  }

  /** `CustomValidators.emailMatcher`: the group-level check that the two
      email fields agree once the user has edited both. */
  function EmailMatcher(g: EmailGroupControls): (r: Option<ValidationErrors>)
    ensures r == None || r == Some(EmailMatchError)
  {
    if g.email.pristine || g.confirmEmail.pristine then None
    else if g.email.value == g.confirmEmail.value then None
    else Some(EmailMatchError)
  }

  // ---- The range check -------------------------------------------------

  /** A control without a value is never reported as out of range. */
  lemma RangeAcceptsUndefined(min: real, max: real, c: Control<NumberValue>)
    requires c.value == Undefined
    ensures ServiceLevelRange(min, max)(c) == None
  {
  }

  /** `NaN` is rejected whatever the bounds are, even when min > max. */
  lemma RangeRejectsNaN(min: real, max: real, c: Control<NumberValue>)
    requires c.value == NaN
    ensures ServiceLevelRange(min, max)(c) == Some(ServiceLevelError)
  {
  }

  /** A number passes exactly when it lies in the closed interval
      [min, max]; otherwise the single `serviceLevel` error is reported. */
  lemma RangeOnNumber(min: real, max: real, c: Control<NumberValue>)
    requires c.value.Num?
    ensures ServiceLevelRange(min, max)(c) == None <==> min <= c.value.r <= max
    ensures ServiceLevelRange(min, max)(c) == Some(ServiceLevelError) <==> !(min <= c.value.r <= max)
  {
  }

  /** An empty interval rejects every defined value. */
  lemma EmptyRangeRejectsEveryValue(min: real, max: real, c: Control<NumberValue>)
    requires max < min && c.value != Undefined
    ensures ServiceLevelRange(min, max)(c) == Some(ServiceLevelError)
  {
  }

  /** The fixed check is the range check with bounds 1 and 5. */
  lemma ServiceLevelIsRangeOneToFive(c: Control<NumberValue>)
    ensures ServiceLevel(c) == ServiceLevelRange(1.0, 5.0)(c)
  {
  }

  /** The free-standing check agrees with the range-validator factory for
      every pair of bounds, and its defaults are 1 and 5. */
  lemma CheckServiceLevelIsRange(c: Control<NumberValue>, min: real, max: real)
    ensures CheckServiceLevel(c, min, max) == ServiceLevelRange(min, max)(c)
    ensures CheckServiceLevel(c) == ServiceLevel(c)
  {
  }

  // ---- The email checks ------------------------------------------------

  /** The group check passes while either field is still pristine, whatever
      the two values are. */
  lemma EmailMatcherIgnoresPristine(g: EmailGroupControls)
    requires g.email.pristine || g.confirmEmail.pristine
    ensures EmailMatcher(g) == None
  {
  }

  /** Once both fields have been edited, the group check passes exactly
      when the two values are equal, and otherwise reports `emailMatch`. */
  lemma EmailMatcherComparesEdited(g: EmailGroupControls)
    requires !g.email.pristine && !g.confirmEmail.pristine
    ensures EmailMatcher(g) == None <==> g.email.value == g.confirmEmail.value
    ensures EmailMatcher(g) == Some(EmailMatchError) <==> g.email.value != g.confirmEmail.value
  {
  }

  /** The uniqueness check reports `asyncEmailInvalid` for exactly one
      address and passes every other one; it has no failure outcome. */
  lemma AsyncEmailRejectsOnlyExisting(c: Control<string>)
    ensures AsyncEmailPromiseValidator(c) == Some(AsyncEmailInvalidError) <==> c.value == ExistingEmail
    ensures AsyncEmailPromiseValidator(c) == None <==> c.value != ExistingEmail
  {
  }
}
