/** The reactive signup form component: which validators are attached to
    which control, how the notification toggle swaps them, the validation
    message shown under the email field, and the list of address entries. */
module SignupReactiveForm {
  import opened Forms
  import CustomValidators
  import ServiceLevelDirective

  // ---- Controls and validator tokens -------------------------------------

  /** The controls of the form (the address entries live inside Addresses). */
  datatype ControlName =
    | FirstName | LastName | EmailGroup | Email | ConfirmEmail
    | Phone | Notification | ServiceLevel | SendProducts | Addresses

  const AllControls: set<ControlName> :=
    {FirstName, LastName, EmailGroup, Email, ConfirmEmail, Phone, Notification, ServiceLevel, SendProducts, Addresses}

  /** A validator, named rather than run: the built-in ones of the framework
      and the custom ones of CustomValidators. */
  datatype ValidatorToken =
    | Required
    | MinLength(n: nat)
    | MaxLength(n: nat)
    | Pattern(regex: string)
    | EmailFormat
    | EmailMatcherToken
    | ServiceLevelRangeToken(min: real, max: real)
    | AsyncEmailPromise

  /** The synchronous and asynchronous validators attached to one control. */
  datatype Attached = Attached(sync: set<ValidatorToken>, async: set<ValidatorToken>)

  const NoValidators := Attached({}, {})

  const EmailPattern := "[a-z0-9._%+-]+@[a-z0-9.-]+"
  const EmailSyncValidators: set<ValidatorToken> := {Required, Pattern(EmailPattern), EmailFormat}

  /** The placeholder texts of the three fields the toggle affects. */
  datatype Placeholder = Placeholder(email: string, confirmEmail: string, phone: string)

  const EmailModePlaceholder := Placeholder("Email (required)", "Confirm Email (required)", "Phone")
  const TextModePlaceholder := Placeholder("Email", "Confirm Email", "Phone (required)")

  /** What the notification toggle reads and writes. */
  datatype FormConfig = FormConfig(validators: map<ControlName, Attached>, placeholder: Placeholder)

  /** Every control of the form is present. */
  predicate WellFormed(cfg: FormConfig) {
    cfg.validators.Keys == AllControls
  }

  /** The asynchronous validators that no branch of the toggle ever sets are
      empty: those of phone, confirmEmail and emailGroup. */
  predicate StrayAsyncFree(cfg: FormConfig)
    requires WellFormed(cfg)
  {
    && cfg.validators[Phone].async == {}
    && cfg.validators[ConfirmEmail].async == {}
    && cfg.validators[EmailGroup].async == {}
  }

  const RequiredMark := " (required)"

  /** A placeholder that tells the user the field is required. */
  predicate MarkedRequired(text: string) {
    |text| >= |RequiredMark| && text[|text| - |RequiredMark|..] == RequiredMark
  }

  /** Which of the component's placeholder texts carry the required mark. */
  lemma PlaceholderMarks()
    ensures MarkedRequired(EmailModePlaceholder.email) && MarkedRequired(EmailModePlaceholder.confirmEmail)
    ensures !MarkedRequired(EmailModePlaceholder.phone)
    ensures !MarkedRequired(TextModePlaceholder.email) && !MarkedRequired(TextModePlaceholder.confirmEmail)
    ensures MarkedRequired(TextModePlaceholder.phone)
  {
    var confirm := TextModePlaceholder.confirmEmail;
    assert confirm[|confirm| - |RequiredMark|..][0] != RequiredMark[0];
  }

  /** Each of the three placeholders carries the required mark exactly when
      its control has the `required` validator. */
  predicate PlaceholdersInStep(cfg: FormConfig)
    requires WellFormed(cfg)
  {
    && (MarkedRequired(cfg.placeholder.email) <==> Required in cfg.validators[Email].sync)
    && (MarkedRequired(cfg.placeholder.confirmEmail) <==> Required in cfg.validators[ConfirmEmail].sync)
    && (MarkedRequired(cfg.placeholder.phone) <==> Required in cfg.validators[Phone].sync)
  }

  // ---- Building the form ---------------------------------------------------

  /** The validators `buildForm` attaches, and the initial placeholders.
      The asynchronous uniqueness check on email is not attached here. */
  function InitialConfig(rMin: real, rMax: real): (cfg: FormConfig)
    ensures WellFormed(cfg) && StrayAsyncFree(cfg)
    ensures forall k :: k in cfg.validators ==> cfg.validators[k].async == {}
  {
    FormConfig(
      map[
        FirstName := Attached({Required, MinLength(3)}, {}),
        LastName := Attached({Required, MaxLength(50)}, {}),
        EmailGroup := Attached({EmailMatcherToken}, {}),
        Email := Attached(EmailSyncValidators, {}),
        ConfirmEmail := Attached({Required}, {}),
        Phone := NoValidators,
        Notification := NoValidators,
        ServiceLevel := Attached({ServiceLevelRangeToken(rMin, rMax)}, {}),
        SendProducts := NoValidators,
        Addresses := NoValidators],
      EmailModePlaceholder)
  }

  /** The built form already shows the required marks that match its
      validators. */
  lemma InitialPlaceholdersInStep(rMin: real, rMax: real)
    ensures PlaceholdersInStep(InitialConfig(rMin, rMax))
  {
    PlaceholderMarks();
  }

  // ---- The notification toggle -----------------------------------------------

  /** The validators after choosing text notification. */
  function TextModeValidators(v: map<ControlName, Attached>): (r: map<ControlName, Attached>)
    requires Phone in v
  {
    v[Phone := Attached({Required}, v[Phone].async)]
     [EmailGroup := NoValidators]
     [Email := NoValidators]
     [ConfirmEmail := NoValidators]
  }

  /** The validators after choosing any other notification channel. */
  function EmailModeValidators(v: map<ControlName, Attached>): (r: map<ControlName, Attached>)
    requires Phone in v && ConfirmEmail in v && EmailGroup in v
  {
    v[Email := Attached(EmailSyncValidators, {AsyncEmailPromise})]
     [ConfirmEmail := Attached({Required}, v[ConfirmEmail].async)]
     [EmailGroup := Attached({EmailMatcherToken}, v[EmailGroup].async)]
     [Phone := Attached({}, v[Phone].async)]
  }

  /** The validators once the first `i` of `names` other than phone have
      been cleared of every validator, one after another. */
  ghost function ClearedUpTo(v: map<ControlName, Attached>, names: seq<ControlName>, i: nat): (r: map<ControlName, Attached>)
    requires i <= |names|
  {
    if i == 0 then v
    else
      var w := ClearedUpTo(v, names, i - 1);
      if names[i - 1] != Phone then w[names[i - 1] := NoValidators] else w
  }

  /** Clearing the lookup map's entries other than phone, in its order,
      clears emailGroup, email and confirmEmail. */
  lemma ClearingLookupEntries(v: map<ControlName, Attached>)
    ensures ClearedUpTo(v, [Phone, EmailGroup, Email, ConfirmEmail], 4)
         == v[EmailGroup := NoValidators][Email := NoValidators][ConfirmEmail := NoValidators]
  {
    var names := [Phone, EmailGroup, Email, ConfirmEmail];
    assert ClearedUpTo(v, names, 1) == v;
    assert ClearedUpTo(v, names, 2) == v[EmailGroup := NoValidators];
    assert ClearedUpTo(v, names, 3) == v[EmailGroup := NoValidators][Email := NoValidators];
  }

  /** The configuration `setNotification(notifyVia)` leaves behind. */
  function Notified(cfg: FormConfig, notifyVia: string): (r: FormConfig)
    requires WellFormed(cfg)
    ensures WellFormed(r)
  {
    if notifyVia == "text" then
      FormConfig(TextModeValidators(cfg.validators), TextModePlaceholder)
    else
      FormConfig(EmailModeValidators(cfg.validators), EmailModePlaceholder)
  }

  /** Text mode: only phone is required; the email fields and their group
      carry no validator of either kind. */
  lemma TextModeAttaches(cfg: FormConfig)
    requires WellFormed(cfg)
    ensures Notified(cfg, "text").validators[Phone].sync == {Required}
    ensures Notified(cfg, "text").validators[Email] == NoValidators
    ensures Notified(cfg, "text").validators[ConfirmEmail] == NoValidators
    ensures Notified(cfg, "text").validators[EmailGroup] == NoValidators
  {
  }

  /** Any other mode: email is required, pattern- and format-checked and
      checked for uniqueness; confirmEmail is required; the group compares
      the two; phone has no synchronous validator. */
  lemma EmailModeAttaches(cfg: FormConfig, notifyVia: string)
    requires WellFormed(cfg) && notifyVia != "text"
    ensures Notified(cfg, notifyVia).validators[Email].sync == {Required, Pattern(EmailPattern), EmailFormat}
    ensures Notified(cfg, notifyVia).validators[Email].async == {AsyncEmailPromise}
    ensures Notified(cfg, notifyVia).validators[ConfirmEmail].sync == {Required}
    ensures Notified(cfg, notifyVia).validators[EmailGroup].sync == {EmailMatcherToken}
    ensures Notified(cfg, notifyVia).validators[Phone].sync == {}
  {
  }

  /** The toggle touches only phone, email, confirmEmail and emailGroup, and
      never phone's asynchronous validators. */
  lemma NotificationFrame(cfg: FormConfig, notifyVia: string, k: ControlName)
    requires WellFormed(cfg)
    ensures k !in {Phone, Email, ConfirmEmail, EmailGroup} ==>
      Notified(cfg, notifyVia).validators[k] == cfg.validators[k]
    ensures Notified(cfg, notifyVia).validators[Phone].async == cfg.validators[Phone].async
  {
  }

  /** Validators are replaced, not accumulated: switching twice to the same
      mode is switching once. */
  lemma NotificationIdempotent(cfg: FormConfig, notifyVia: string)
    requires WellFormed(cfg)
    ensures Notified(Notified(cfg, notifyVia), notifyVia) == Notified(cfg, notifyVia)
  {
  }

  /** From a configuration the form can reach, the result depends only on the
      last mode chosen. */
  lemma LastModeWins(cfg: FormConfig, first: string, second: string)
    requires WellFormed(cfg) && StrayAsyncFree(cfg)
    ensures Notified(Notified(cfg, first), second) == Notified(cfg, second)
  {
  }

  /** The toggle keeps the reachable configurations reachable. */
  lemma NotificationKeepsStrayAsyncFree(cfg: FormConfig, notifyVia: string)
    requires WellFormed(cfg) && StrayAsyncFree(cfg)
    ensures StrayAsyncFree(Notified(cfg, notifyVia))
  {
  }

  /** The placeholders move in lock-step with the required validators: in
      text mode only phone is marked, in any other mode only the two email
      fields are. */
  lemma NotificationPlaceholdersInStep(cfg: FormConfig, notifyVia: string)
    requires WellFormed(cfg)
    ensures PlaceholdersInStep(Notified(cfg, notifyVia))
    ensures notifyVia == "text" ==>
      var p := Notified(cfg, notifyVia).placeholder;
      MarkedRequired(p.phone) && !MarkedRequired(p.email) && !MarkedRequired(p.confirmEmail)
    ensures notifyVia != "text" ==>
      var p := Notified(cfg, notifyVia).placeholder;
      !MarkedRequired(p.phone) && MarkedRequired(p.email) && MarkedRequired(p.confirmEmail)
  {
    PlaceholderMarks();
  }

  /** Switching to email mode after `buildForm` changes exactly one thing:
      email gains the asynchronous uniqueness check, which the built form
      leaves out. Its synchronous validators are the ones it was built with. */
  lemma EmailModeAfterBuildAddsOnlyAsync(rMin: real, rMax: real, notifyVia: string)
    requires notifyVia != "text"
    ensures var init := InitialConfig(rMin, rMax);
      Notified(init, notifyVia)
        == init.(validators := init.validators[Email := Attached(init.validators[Email].sync, {AsyncEmailPromise})])
    ensures InitialConfig(rMin, rMax).validators[Email].async == {}
    ensures Notified(InitialConfig(rMin, rMax), notifyVia).validators[Email].sync
         == InitialConfig(rMin, rMax).validators[Email].sync
  {
  }

  // ---- The validation message ------------------------------------------------

  /** `parts` joined with `sep` between neighbours, as `Array.join` does. */
  function Join(parts: seq<string>, sep: string): (s: string)
    decreases |parts|
  {
    if |parts| == 0 then ""
    else if |parts| == 1 then parts[0]
    else parts[0] + sep + Join(parts[1..], sep)
  }

  /** Where part `i` starts in `Join(parts, sep)`. */
  function Offset(parts: seq<string>, sep: string, i: nat): (o: nat)
    requires i <= |parts|
    decreases i
  {
    if i == 0 then 0 else |parts[0]| + |sep| + Offset(parts[1..], sep, i - 1)
  }

  /** The joined string is as long as its parts and the separators between
      them: it ends where the last part does. */
  lemma {:induction false} JoinLength(parts: seq<string>, sep: string)
    requires |parts| > 0
    ensures |Join(parts, sep)| == Offset(parts, sep, |parts| - 1) + |parts[|parts| - 1]|
    decreases |parts|
  {
    if |parts| > 1 {
      JoinLength(parts[1..], sep);
      assert parts[1..][|parts| - 2] == parts[|parts| - 1];
    }
  }

  /** A slice that lies inside the right operand of a concatenation. */
  lemma SliceOfRight(a: string, b: string, lo: nat, hi: nat)
    requires |a| <= lo <= hi <= |a| + |b|
    ensures (a + b)[lo..hi] == b[lo - |a|..hi - |a|]
  {
  }

  /** A slice that lies inside the left operand of a concatenation. */
  lemma SliceOfLeft(a: string, b: string, lo: nat, hi: nat)
    requires lo <= hi <= |a|
    ensures (a + b)[lo..hi] == a[lo..hi]
  {
  }

  /** The first part opens the joined string. */
  lemma JoinFirst(parts: seq<string>, sep: string)
    requires |parts| > 0
    ensures |parts[0]| <= |Join(parts, sep)|
    ensures Join(parts, sep)[..|parts[0]|] == parts[0]
  {
    if |parts| > 1 {
      SliceOfLeft(parts[0] + sep, Join(parts[1..], sep), 0, |parts[0]|);
      assert (parts[0] + sep)[0..|parts[0]|] == parts[0];
    }
  }

  /** Part `i` appears unchanged at `Offset(parts, sep, i)`. */
  lemma {:induction false} JoinPart(parts: seq<string>, sep: string, i: nat)
    requires i < |parts|
    ensures Offset(parts, sep, i) + |parts[i]| <= |Join(parts, sep)|
    ensures Join(parts, sep)[Offset(parts, sep, i)..Offset(parts, sep, i) + |parts[i]|] == parts[i]
    decreases |parts|
  {
    if i == 0 {
      JoinFirst(parts, sep);
    } else {
      var rest := parts[1..];
      var head := parts[0] + sep;
      var tail := Join(rest, sep);
      assert Join(parts, sep) == head + tail;
      JoinPart(rest, sep, i - 1);
      assert rest[i - 1] == parts[i];
      var o := Offset(rest, sep, i - 1);
      assert Offset(parts, sep, i) == |head| + o;
      SliceOfRight(head, tail, |head| + o, |head| + o + |parts[i]|);
    }
  }

  /** The separator stands just before every part but the first. */
  lemma {:induction false} JoinSeparator(parts: seq<string>, sep: string, i: nat)
    requires 0 < i < |parts|
    ensures |sep| <= Offset(parts, sep, i) <= |Join(parts, sep)|
    ensures Join(parts, sep)[Offset(parts, sep, i) - |sep|..Offset(parts, sep, i)] == sep
    decreases |parts|
  {
    var rest := parts[1..];
    var head := parts[0] + sep;
    var tail := Join(rest, sep);
    assert Join(parts, sep) == head + tail;
    var o := Offset(rest, sep, i - 1);
    assert Offset(parts, sep, i) == |head| + o;
    if i == 1 {
      SliceOfLeft(head, tail, |parts[0]|, |head|);
      assert head[|parts[0]|..|head|] == sep;
    } else {
      JoinSeparator(rest, sep, i - 1);
      SliceOfRight(head, tail, |head| + o - |sep|, |head| + o);
    }
  }

  /** Joining a single message gives that message; joining nothing gives the
      empty string. */
  lemma JoinSmall(sep: string, a: string)
    ensures Join([], sep) == ""
    ensures Join([a], sep) == a
  {
  }

  /** The text shown for one error key: the table's entry, or the empty
      string when the table has none (`join` prints `undefined` as ""). */
  function ErrorText(messages: map<string, string>, key: string): (text: string) {
    if key in messages then messages[key] else ""
  }

  function ErrorTexts(messages: map<string, string>, keys: seq<string>): (texts: seq<string>) {
    seq(|keys|, i requires 0 <= i < |keys| => ErrorText(messages, keys[i]))
  }

  /** What `setValidationMessage` leaves in the message field, or that it
      throws: looking up an error key under an untabled control name fails. */
  datatype MessageOutcome = Shown(text: string) | Throws

  function ValidationMessage<V>(table: map<string, map<string, string>>, c: Control<V>, controlName: string): (m: MessageOutcome) {
    if (c.touched || c.dirty) && c.errors.Some? then
      var keys := c.errors.value;
      if |keys| == 0 then Shown("")
      else if controlName !in table then Throws
      else Shown(Join(ErrorTexts(table[controlName], keys), " "))
    else
      Shown("")
  }

  /** Part `i` of a space-joined list, the space before it and the end of
      the joined string, in one statement. */
  lemma JoinSpaced(parts: seq<string>, i: nat)
    requires i < |parts|
    ensures var s := Join(parts, " ");
      var o := Offset(parts, " ", i);
      o + |parts[i]| <= |s| && s[o..o + |parts[i]|] == parts[i]
      && (0 < i ==> 1 <= o && s[o - 1] == ' ')
      && |s| == Offset(parts, " ", |parts| - 1) + |parts[|parts| - 1]|
  {
    JoinLength(parts, " ");
    JoinPart(parts, " ", i);
    var o := Offset(parts, " ", i);
    if 0 < i {
      JoinSeparator(parts, " ", i);
      assert Join(parts, " ")[o - 1..o] == " ";
      assert Join(parts, " ")[o - 1] == Join(parts, " ")[o - 1..o][0];
    }
  }

  /** No message is shown for a control the user has not interacted with or
      one without errors; a control with errors gets the looked-up text of
      each error key, in key order, one space between neighbours, and the
      message ends where the last text does. */
  lemma ValidationMessageShape<V>(table: map<string, map<string, string>>, c: Control<V>, controlName: string, i: nat)
    ensures !(c.touched || c.dirty) || c.errors.None? ==> ValidationMessage(table, c, controlName) == Shown("")
    ensures c.errors == Some([]) ==> ValidationMessage(table, c, controlName) == Shown("")
    ensures ValidationMessage(table, c, controlName).Throws?
        <==> (c.touched || c.dirty) && c.errors.Some? && |c.errors.value| > 0 && controlName !in table
    ensures (c.touched || c.dirty) && c.errors.Some? && controlName in table && i < |c.errors.value| ==>
      var texts := ErrorTexts(table[controlName], c.errors.value);
      var s := ValidationMessage(table, c, controlName).text;
      var o := Offset(texts, " ", i);
      o + |texts[i]| <= |s| && s[o..o + |texts[i]|] == ErrorText(table[controlName], c.errors.value[i])
      && (0 < i ==> 1 <= o && s[o - 1] == ' ')
      && |s| == Offset(texts, " ", |texts| - 1) + |texts[|texts| - 1]|
  {
    if (c.touched || c.dirty) && c.errors.Some? && controlName in table && i < |c.errors.value| {
      var texts := ErrorTexts(table[controlName], c.errors.value);
      assert ValidationMessage(table, c, controlName) == Shown(Join(texts, " "));
      assert texts[i] == ErrorText(table[controlName], c.errors.value[i]);
      JoinSpaced(texts, i);
    }
  }

  const RequiredEmailText := "Please enter your email address11111."
  const InvalidEmailText := "Please enter a valid email address."
  const ExistingEmailText := "This email already exists. Please enter other email address."

  /** The message table of the component. */
  const ValidationMessagesMap: map<string, map<string, string>> := map[
    "email" := map[
      "required" := RequiredEmailText,
      "pattern" := InvalidEmailText,
      "email" := InvalidEmailText,
      "asyncEmailInvalid" := ExistingEmailText]]

  /** A missing email gets the `required` text alone. */
  lemma EmailRequiredMessage(c: Control<string>)
    requires (c.touched || c.dirty) && c.errors == Some(["required"])
    ensures ValidationMessage(ValidationMessagesMap, c, "email") == Shown(RequiredEmailText)
  {
    assert ErrorTexts(ValidationMessagesMap["email"], ["required"]) == [RequiredEmailText];
  }

  /** A malformed email that fails both format checks gets the same text
      twice, one space apart. */
  lemma EmailFormatMessage(c: Control<string>)
    requires (c.touched || c.dirty) && c.errors == Some(["pattern", "email"])
    ensures ValidationMessage(ValidationMessagesMap, c, "email") == Shown(InvalidEmailText + " " + InvalidEmailText)
  {
    assert ErrorTexts(ValidationMessagesMap["email"], ["pattern", "email"]) == [InvalidEmailText, InvalidEmailText];
    assert Join([InvalidEmailText, InvalidEmailText], " ") == InvalidEmailText + " " + Join([InvalidEmailText], " ");
  }

  // ---- Address entries -------------------------------------------------------

  datatype Address = Address(addressType: string, country: string, city: string, zip: string, street1: string, street2: string)

  /** `buildAddress`: a blank home address. */
  function BuildAddress(): (a: Address)
    ensures a.addressType == "home"
    ensures a.country == "" && a.city == "" && a.zip == "" && a.street1 == "" && a.street2 == ""
  {
    Address("home", "", "", "", "", "")
  }

  /** Where removal by `index` starts: a negative index counts from the end,
      and the result is clamped to [0, len]. */
  function RemovalStart(len: nat, index: int): (k: nat)
    ensures k <= len
    ensures 0 <= index < len ==> k == index
    ensures -(len as int) <= index < 0 ==> k == len + index
    ensures index < -(len as int) ==> k == 0
    ensures index >= len ==> k == len
  {
    if index < 0 then (if len + index < 0 then 0 else len + index)
    else if index > len then len
    else index
  }

  /** The address list after removing the entry at `index`, with the
      semantics of removing one element by splicing. */
  function RemoveAt<T>(s: seq<T>, index: int): (r: seq<T>)
    ensures |s| > 0 && index < |s| ==> |r| == |s| - 1
    ensures index >= |s| ==> r == s
    ensures |s| > 0 && index < -|s| ==> r == s[1..]
  {
    var k := RemovalStart(|s|, index);
    if k < |s| then s[..k] + s[k + 1..] else s
  }

  /** Removing an entry in range keeps every other entry, in order. */
  lemma RemoveAtInRange<T>(s: seq<T>, i: int)
    requires 0 <= i < |s|
    ensures RemoveAt(s, i) == s[..i] + s[i + 1..]
    ensures forall j :: 0 <= j < i ==> RemoveAt(s, i)[j] == s[j]
    ensures forall j :: i <= j < |s| - 1 ==> RemoveAt(s, i)[j] == s[j + 1]
  {
  }

  /** A negative index removes the entry that far from the end. */
  lemma RemoveAtNegative<T>(s: seq<T>, i: int)
    requires -|s| <= i < 0
    ensures RemoveAt(s, i) == s[..|s| + i] + s[|s| + i + 1..]
  {
  }

  /** Nothing stops the last entry from being removed. */
  lemma RemoveOnlyEntry<T>(x: T)
    ensures RemoveAt([x], 0) == []
  {
  }

  // ---- The component ---------------------------------------------------------

  class SignupReactiveFormComponent {
    const rMin: real := 1.0
    const rMax: real := 3.0

    var validators: map<ControlName, Attached>
    var placeholder: Placeholder
    /** `None` until the first message is computed. */
    var validationMessage: Option<string>
    var addresses: seq<Address>

    function Config(): (cfg: FormConfig)
      reads this
    {
      FormConfig(validators, placeholder)
    }

    predicate Valid()
      reads this
    {
      WellFormed(Config()) && StrayAsyncFree(Config()) && PlaceholdersInStep(Config())
    }

    /** Creating the component and running `buildForm`. */
    constructor ()
      ensures Valid()
      ensures Config() == InitialConfig(rMin, rMax)
      ensures addresses == [BuildAddress()] && |addresses| == 1
      ensures validationMessage == None
    {
      var cfg := InitialConfig(1.0, 3.0);
      validators := cfg.validators;
      placeholder := cfg.placeholder;
      validationMessage := None;
      addresses := [BuildAddress()];
      InitialPlaceholdersInStep(1.0, 3.0);
    }

    /** `setNotification`: swap the validators and placeholders for the
        chosen notification channel. */
    method SetNotification(notifyVia: string)
      requires Valid()
      modifies this`validators, this`placeholder
      ensures Valid()
      ensures Config() == Notified(old(Config()), notifyVia)
    {
      ghost var cfg0 := Config();
      // the lookup map, in its insertion order
      var controls := [Phone, EmailGroup, Email, ConfirmEmail];
      if notifyVia == "text" {
        validators := validators[Phone := Attached({Required}, validators[Phone].async)];
        ghost var start := validators;
        var i := 0;
        while i < |controls|
          invariant 0 <= i <= |controls|
          invariant validators == ClearedUpTo(start, controls, i)
        {
          if controls[i] != Phone {
            validators := validators[controls[i] := NoValidators];
          }
          i := i + 1;
        }
        ClearingLookupEntries(start);
        placeholder := TextModePlaceholder;
      } else {
        validators := validators[Email := Attached(EmailSyncValidators, {AsyncEmailPromise})];
        validators := validators[ConfirmEmail := Attached({Required}, validators[ConfirmEmail].async)];
        validators := validators[EmailGroup := Attached({EmailMatcherToken}, validators[EmailGroup].async)];
        validators := validators[Phone := Attached({}, validators[Phone].async)];
        placeholder := EmailModePlaceholder;
      }
      NotificationKeepsStrayAsyncFree(cfg0, notifyVia);
      NotificationPlaceholdersInStep(cfg0, notifyVia);
    }

    /** `setValidationMessage(c, controlName)`: the message is cleared first,
        then replaced by the joined texts of the control's errors when the
        user has interacted with it. `thrown` reports the failed lookup. */
    method SetValidationMessage<V>(c: Control<V>, controlName: string) returns (thrown: bool)
      modifies this`validationMessage
      ensures thrown <==> ValidationMessage(ValidationMessagesMap, c, controlName).Throws?
      ensures validationMessage == Some(if thrown then "" else ValidationMessage(ValidationMessagesMap, c, controlName).text)
    {
      validationMessage := Some("");
      thrown := false;
      if (c.touched || c.dirty) && c.errors.Some? {
        var keys := c.errors.value;
        if |keys| > 0 && controlName !in ValidationMessagesMap {
          thrown := true;
        } else {
          var texts := if |keys| == 0 then [] else ErrorTexts(ValidationMessagesMap[controlName], keys);
          validationMessage := Some(Join(texts, " "));
        }
      }
    }

    /** `onBlur`: recompute the email field's message. */
    method OnBlur(emailControl: Control<string>)
      modifies this`validationMessage
      ensures validationMessage == Some(ValidationMessage(ValidationMessagesMap, emailControl, "email").text)
    {
      var thrown := SetValidationMessage(emailControl, "email");
    }

    /** `onAddAddress`: append a blank home address. */
    method OnAddAddress()
      modifies this`addresses
      ensures |addresses| == |old(addresses)| + 1
      ensures addresses[..|old(addresses)|] == old(addresses)
      ensures addresses[|addresses| - 1] == BuildAddress()
    {
      addresses := addresses + [BuildAddress()];
    }

    /** `onRemoveAddress(index)`: remove the entry at `index`. */
    method OnRemoveAddress(index: int)
      modifies this`addresses
      ensures addresses == RemoveAt(old(addresses), index)
    {
      addresses := RemoveAt(addresses, index);
    }
  }

  /** The template-driven directive and the reactive form's service-level
      validator, built from the component's bounds, accept and reject the
      same values. */
  lemma ServiceLevelChecksAgree(comp: SignupReactiveFormComponent, c: Control<NumberValue>)
    ensures InitialConfig(comp.rMin, comp.rMax).validators[ServiceLevel].sync == {ServiceLevelRangeToken(comp.rMin, comp.rMax)}
    ensures ServiceLevelDirective.Validate(c) == CustomValidators.ServiceLevelRange(comp.rMin, comp.rMax)(c)
  {
    ServiceLevelDirective.ValidateIsRangeOneToThree(c);
  }
}
