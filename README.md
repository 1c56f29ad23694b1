# Signup form: validators, notification toggle, message builder, address list

A Dafny model of the core logic of an Angular reactive signup form, in
four modules:

- `Forms` (forms.dfy): the state of a form control that the validators
  read (value, `pristine`, `touched`, `dirty`, current errors); a numeric
  value that is `undefined`, `NaN` or a number; validation errors as the
  ordered list of the error object's keys, with `None` standing for `null`.
- `CustomValidators` (custom_validators.dfy): the service-level range check
  in its three forms (`serviceLevel` fixed to [1, 5], the factory
  `serviceLevelRange(min, max)` returning a validator function, the
  free-standing `checkServiceLevel` with defaults 1 and 5); the cross-field
  `emailMatcher`; the decision of the simulated uniqueness check
  `asyncEmailPromiseValidator`.
- `ServiceLevelDirective` (service_level_directive.dfy): the
  template-driven validator, `checkServiceLevel` fixed to [1, 3].
- `SignupReactiveForm` (signup_reactive_form.dfy): the component. The
  validators attached to each control are named tokens in sets (sync and
  async per control). The pure function `Notified` states what
  `setNotification` leaves behind. The class `SignupReactiveFormComponent`
  holds the mutable fields: validators, placeholders, validation message,
  address list. Its methods change them in place, and their postconditions
  tie the new state to the pure functions. `SetNotification` keeps the
  `forEach` loop that clears the email controls in text mode. The class
  invariant `Valid()` says three things:
  - every control is present;
  - the async validators of phone, confirmEmail and emailGroup stay empty;
  - each placeholder carries " (required)" exactly when its control has the
    `required` validator.

Three points where the code is easy to misread, and what the model does:
- `emailMatcher` waits until neither field is pristine. That means both
  fields must have been edited, not merely touched.
- Nothing keeps the address list non-empty. Removing the only entry leaves
  it empty (`RemoveOnlyEntry`).
- In email mode the toggle sets only the sync validators of phone,
  confirmEmail and emailGroup, and keeps their async validators. In text
  mode it clears both kinds on the email controls.

## Model

| member | source | states |
|---|---|---|
| CustomValidators.ServiceLevel | src/app/validators/custom.validators.ts:5-17 | the fixed check yields either no error or exactly the `serviceLevel` error |
| CustomValidators.ServiceLevelRange | src/app/validators/custom.validators.ts:18-32 | the factory builds a validator whose every result is no error or exactly the `serviceLevel` error |
| CustomValidators.CheckServiceLevel | src/app/validators/custom.validators.ts:68-82 | the free-standing check yields either no error or exactly the `serviceLevel` error |
| CustomValidators.AsyncEmailPromiseValidator | src/app/validators/custom.validators.ts:34-50 | the uniqueness decision yields no error or exactly `asyncEmailInvalid`. It has no failure outcome |
| CustomValidators.EmailMatcher | src/app/validators/custom.validators.ts:52-65 | the group check yields no error or exactly `emailMatch` |
| CustomValidators.RangeAcceptsUndefined | src/app/validators/custom.validators.ts:20-28 | an undefined value passes the range check for every pair of bounds |
| CustomValidators.RangeRejectsNaN | src/app/validators/custom.validators.ts:20-27 | `NaN` is rejected with `serviceLevel` for every pair of bounds |
| CustomValidators.RangeOnNumber | src/app/validators/custom.validators.ts:20-28 | a number passes exactly when min <= value <= max, and is otherwise rejected with the single `serviceLevel` key |
| CustomValidators.EmptyRangeRejectsEveryValue | src/app/validators/custom.validators.ts:20-28 | with max < min every defined value is rejected |
| CustomValidators.ServiceLevelIsRangeOneToFive | src/app/validators/custom.validators.ts:5-32 | `serviceLevel(c)` equals `serviceLevelRange(1, 5)(c)` for every control |
| CustomValidators.CheckServiceLevelIsRange | src/app/validators/custom.validators.ts:68-82 | `checkServiceLevel(c, min, max)` equals `serviceLevelRange(min, max)(c)`, and with its defaults it equals `serviceLevel(c)` |
| CustomValidators.EmailMatcherIgnoresPristine | src/app/validators/custom.validators.ts:56-58 | while either field is pristine the group check passes, whatever the values |
| CustomValidators.EmailMatcherComparesEdited | src/app/validators/custom.validators.ts:60-64 | once both fields are edited the check passes exactly when the values are equal, and otherwise reports `emailMatch` |
| CustomValidators.AsyncEmailRejectsOnlyExisting | src/app/validators/custom.validators.ts:39-49 | `asyncEmailInvalid` is reported exactly for `existsemail@example.com`. Every other address passes |
| ServiceLevelDirective.Validate | src/app/validators/service-level.directive.ts:16-18 | the directive yields no error or exactly the `serviceLevel` error |
| ServiceLevelDirective.ValidateAccepts | src/app/validators/service-level.directive.ts:16-18 | the directive accepts exactly the undefined value and the numbers in [1, 3] |
| ServiceLevelDirective.ValidateRejects | src/app/validators/service-level.directive.ts:16-18 | the directive rejects exactly `NaN` and the numbers below 1 or above 3 |
| ServiceLevelDirective.ValidateIsRangeOneToThree | src/app/validators/service-level.directive.ts:17 | `validate(c)` equals `serviceLevelRange(1, 3)(c)` |
| SignupReactiveForm.ServiceLevelChecksAgree | src/app/reactive-forms/signup-reactive-form/signup-reactive-form.component.ts:127-130 | the reactive form attaches `serviceLevelRange(rMin, rMax)` to serviceLevel, and that validator agrees with the directive on every control |
| SignupReactiveForm.InitialConfig | src/app/reactive-forms/signup-reactive-form/signup-reactive-form.component.ts:99-134 | the built form has every control, and no control has an async validator |
| SignupReactiveForm.PlaceholderMarks | src/app/reactive-forms/signup-reactive-form/signup-reactive-form.component.ts:213-236 | of the placeholder texts, exactly the two email ones of email mode and the phone one of text mode end in " (required)" |
| SignupReactiveForm.InitialPlaceholdersInStep | src/app/reactive-forms/signup-reactive-form/signup-reactive-form.component.ts:43-47 | the initial placeholders mark exactly the controls built with `required` |
| SignupReactiveForm.ClearingLookupEntries | src/app/reactive-forms/signup-reactive-form/signup-reactive-form.component.ts:206-211 | the loop over the four-entry lookup map clears emailGroup, email and confirmEmail and skips phone |
| SignupReactiveForm.Notified | src/app/reactive-forms/signup-reactive-form/signup-reactive-form.component.ts:194-239 | the toggle keeps every control present |
| SignupReactiveForm.TextModeAttaches | src/app/reactive-forms/signup-reactive-form/signup-reactive-form.component.ts:204-211 | in text mode phone's sync validators are exactly {required}, and email, confirmEmail and emailGroup have no validators of either kind |
| SignupReactiveForm.EmailModeAttaches | src/app/reactive-forms/signup-reactive-form/signup-reactive-form.component.ts:218-230 | in any other mode email has {required, pattern, email} and async {asyncEmailPromiseValidator}, confirmEmail has {required}, emailGroup has {emailMatcher}, and phone has no sync validator |
| SignupReactiveForm.NotificationFrame | src/app/reactive-forms/signup-reactive-form/signup-reactive-form.component.ts:194-239 | every control other than the four looked up is unchanged, and phone's async validators are never touched |
| SignupReactiveForm.NotificationIdempotent | src/app/reactive-forms/signup-reactive-form/signup-reactive-form.component.ts:204-237 | validators are replaced, not accumulated, so toggling twice to the same mode is toggling once |
| SignupReactiveForm.LastModeWins | src/app/reactive-forms/signup-reactive-form/signup-reactive-form.component.ts:204-237 | from a configuration the form can reach, toggling to one mode and then another is the same as toggling only to the second |
| SignupReactiveForm.NotificationKeepsStrayAsyncFree | src/app/reactive-forms/signup-reactive-form/signup-reactive-form.component.ts:204-237 | the toggle keeps the async validators of phone, confirmEmail and emailGroup empty |
| SignupReactiveForm.NotificationPlaceholdersInStep | src/app/reactive-forms/signup-reactive-form/signup-reactive-form.component.ts:204-237 | after the toggle each placeholder is marked required exactly when its control has `required`. Text mode marks only phone, and any other mode marks only the two email fields |
| SignupReactiveForm.EmailModeAfterBuildAddsOnlyAsync | src/app/reactive-forms/signup-reactive-form/signup-reactive-form.component.ts:111-122 | switching the built form to email mode changes only one thing: email gains the async uniqueness check. Its sync validators stay those of `buildForm` |
| SignupReactiveForm.JoinLength | src/app/reactive-forms/signup-reactive-form/signup-reactive-form.component.ts:93-95 | the joined message is exactly as long as its parts plus one separator between each pair of neighbours |
| SignupReactiveForm.JoinPart | src/app/reactive-forms/signup-reactive-form/signup-reactive-form.component.ts:93-95 | every part appears unchanged, in order, at its offset in the joined message |
| SignupReactiveForm.JoinSeparator | src/app/reactive-forms/signup-reactive-form/signup-reactive-form.component.ts:93-95 | the separator stands just before every part but the first |
| SignupReactiveForm.JoinFirst | src/app/reactive-forms/signup-reactive-form/signup-reactive-form.component.ts:93-95 | the joined message opens with the first part |
| SignupReactiveForm.JoinSpaced | src/app/reactive-forms/signup-reactive-form/signup-reactive-form.component.ts:93-95 | in a space-joined message every part stands at its offset with a space before it (all but the first), and the message ends with the last part |
| SignupReactiveForm.JoinSmall | src/app/reactive-forms/signup-reactive-form/signup-reactive-form.component.ts:93-95 | joining no parts gives "", and joining one part gives that part |
| SignupReactiveForm.ValidationMessageShape | src/app/reactive-forms/signup-reactive-form/signup-reactive-form.component.ts:89-97 | the message is "" unless the control is touched or dirty and has errors, and "" for an empty error list. Otherwise the looked-up text of each key stands at its place in key order, one space between neighbours, and the message ends where the last text does. The lookup throws exactly for a non-empty error list under a control name the table lacks |
| SignupReactiveForm.EmailRequiredMessage | src/app/reactive-forms/signup-reactive-form/signup-reactive-form.component.ts:52-60 | a `required` error on email shows the table's `required` text |
| SignupReactiveForm.EmailFormatMessage | src/app/reactive-forms/signup-reactive-form/signup-reactive-form.component.ts:52-60 | `pattern` and `email` errors show the invalid-address text twice, one space apart |
| SignupReactiveForm.BuildAddress | src/app/reactive-forms/signup-reactive-form/signup-reactive-form.component.ts:136-145 | a new address has type "home" and empty country, city, zip and street lines |
| SignupReactiveForm.RemovalStart | src/app/reactive-forms/signup-reactive-form/signup-reactive-form.component.ts:151-153 | the removal position is the index when in range, counts from the end when negative, and is clamped to the list |
| SignupReactiveForm.RemoveAt | src/app/reactive-forms/signup-reactive-form/signup-reactive-form.component.ts:151-153 | removing from a non-empty list at an index below its length shortens it by one. An index at or past the end changes nothing |
| SignupReactiveForm.RemoveAtInRange | src/app/reactive-forms/signup-reactive-form/signup-reactive-form.component.ts:151-153 | for 0 <= i < length the result is `s[..i] + s[i+1..]`: the entries before i stay put and the later ones move up by one |
| SignupReactiveForm.RemoveAtNegative | src/app/reactive-forms/signup-reactive-form/signup-reactive-form.component.ts:151-153 | a negative index removes the entry that far from the end |
| SignupReactiveForm.RemoveOnlyEntry | src/app/reactive-forms/signup-reactive-form/signup-reactive-form.component.ts:151-153 | nothing guards the last address: removing the only entry leaves the list empty |
| SignupReactiveForm.SignupReactiveFormComponent.constructor | src/app/reactive-forms/signup-reactive-form/signup-reactive-form.component.ts:99-134 | the built component satisfies the invariant, has the `buildForm` validators and placeholders, exactly one blank home address, and no message yet |
| SignupReactiveForm.SignupReactiveFormComponent.SetNotification | src/app/reactive-forms/signup-reactive-form/signup-reactive-form.component.ts:194-239 | the new validators and placeholders are `Notified` of the old ones, and the invariant is kept |
| SignupReactiveForm.SignupReactiveFormComponent.SetValidationMessage | src/app/reactive-forms/signup-reactive-form/signup-reactive-form.component.ts:89-97 | the message becomes the `ValidationMessage` text. After a failed lookup it stays the "" assigned first, and the failure is reported |
| SignupReactiveForm.SignupReactiveFormComponent.OnBlur | src/app/reactive-forms/signup-reactive-form/signup-reactive-form.component.ts:189-192 | leaving the email field recomputes its message from the email table, which never throws |
| SignupReactiveForm.SignupReactiveFormComponent.OnAddAddress | src/app/reactive-forms/signup-reactive-form/signup-reactive-form.component.ts:147-149 | the list grows by one, the old entries are unchanged, and the new last entry is a blank home address |
| SignupReactiveForm.SignupReactiveFormComponent.OnRemoveAddress | src/app/reactive-forms/signup-reactive-form/signup-reactive-form.component.ts:151-153 | the new list is `RemoveAt` of the old list and the index |

## Left out

- The form framework: `FormBuilder`, `FormGroup`, `FormArray` and `FormControl` are not part of this model. Validators are named tokens, not run. The `updateValueAndValidity` pass (component.ts:238) that recomputes each control's status is not modelled. Neither is the merging of several validators' results into a control's `errors`, which `SetValidationMessage` takes as input.
- The built-in validators `required`, `minLength`, `maxLength`, `pattern` and `email`: they are library code, so they appear only as tokens, with the regular expression kept as a string.
- Event wiring: `watchValueChanges`, the subscriptions, `debounceTime(1000)` and `ngOnDestroy`. They are about timing and events. The methods they would call are modelled directly.
- The two-second `setTimeout` and the Promise around `asyncEmailPromiseValidator`: timing only. The decision it resolves with is modelled.
- `onSave`: console output only.
- `createForm`, `setFormValues`, `patchFormValues`: never called, and they depend on framework `setValue`/`patchValue` semantics.
- JavaScript coercion in `<` and `>` on values that are not numbers, such as the initial `''` service level. Also `null` values and floating-point behaviour beyond `NaN`. Numeric values are `undefined`, `NaN` or an exact real. Email values are strings, compared with string equality.
- `FormGroup.get` of a missing child: the email group always has both children, so `EmailMatcher` takes the two child controls directly.
- Form values other than the address list are not modelled (first and last name, phone, notification, sendProducts), nor are `updateOn: 'blur'`, the `countries` and `user` display data, the templates or the styling.
- RemoveAt: removal is modelled as the one-element splice that the framework's `removeAt` performs on its control list. That covers a negative index counting from the end and an index past the end doing nothing. The framework code itself is not part of this model.
- SetValidationMessage: a name that only the object prototype supplies (such as `constructor`) is treated as absent from the message table.
