/**
 * The text-field component's validation: the decision `validateField`
 * takes (required, e-mail shape, date shape and parse, custom validator, in
 * that order, the first failure wins) and the field's state (input value,
 * error text, error visibility) that validation, `setValue`, `setError` and
 * `clear` update.
 *
 * `new Date(value)` is host code: whether it yields a valid date is an
 * input of the decision. The custom validator is a function the field is
 * built with.
 */
module TextField {
  import opened Wrappers

  datatype InputType = Text | Email | Password | Date | Number

  /**
   * The characters `String.prototype.trim` removes and the regular-expression
   * class `\s` matches: the ECMAScript WhiteSpace and LineTerminator code points.
   */
  predicate IsSpace(c: char)
  {
    || c == ' ' || c == '\t' || c == '\n' || c == '\r' || c == '\U{B}' || c == '\U{C}'
    || c == '\U{A0}' || c == '\U{1680}' || ('\U{2000}' <= c <= '\U{200A}')
    || c == '\U{2028}' || c == '\U{2029}' || c == '\U{202F}' || c == '\U{205F}'
    || c == '\U{3000}' || c == '\U{FEFF}'
  }

  function TrimStart(s: string): (r: string)
    ensures |r| <= |s|
    decreases |s|
  {
    if s != [] && IsSpace(s[0]) then TrimStart(s[1..]) else s
  }

  function TrimEnd(s: string): (r: string)
    ensures |r| <= |s|
    decreases |s|
  {
    if s != [] && IsSpace(s[|s| - 1]) then TrimEnd(s[..|s| - 1]) else s
  }

  /** `s.trim()` */
  function Trim(s: string): (r: string)
    ensures |r| <= |s|
  {
    TrimEnd(TrimStart(s))
  }

  /** Every character is white space. */
  predicate Blank(s: string)
  {
    forall i :: 0 <= i < |s| ==> IsSpace(s[i])
  }

  lemma {:induction false} TrimStartBlank(s: string)
    ensures TrimStart(s) == [] <==> Blank(s)
    ensures TrimStart(s) != [] ==> !IsSpace(TrimStart(s)[0])
  {
    if s != [] && IsSpace(s[0]) {
      TrimStartBlank(s[1..]);
      assert Blank(s) <==> Blank(s[1..]) by {
        if Blank(s[1..]) {
          forall i | 0 <= i < |s| ensures IsSpace(s[i]) {
            if i > 0 { assert s[i] == s[1..][i - 1]; }
          }
        }
      }
    }
  }

  lemma {:induction false} TrimEndKeepsFirst(s: string)
    requires s != [] && !IsSpace(s[0])
    ensures TrimEnd(s) != []
  {
    if |s| > 1 && IsSpace(s[|s| - 1]) {
      TrimEndKeepsFirst(s[..|s| - 1]);
    }
  }

  /** `!value.trim()`: the trimmed value is empty exactly when the value is all white space. */
  lemma TrimEmptyIffBlank(s: string)
    ensures Trim(s) == [] <==> Blank(s)
  {
    TrimStartBlank(s);
    if TrimStart(s) != [] {
      TrimEndKeepsFirst(TrimStart(s));
    }
  }

  // ---------------------------------------------------------------------
  // The two patterns

  /** One run of `[^\s@]+`. */
  predicate EmailPart(s: string)
  {
    |s| > 0 && forall i :: 0 <= i < |s| ==> !IsSpace(s[i]) && s[i] != '@'
  }

  /** `/^[^\s@]+@[^\s@]+\.[^\s@]+$/.test(s)`: some split into local part, `@`, domain, `.`, suffix. */
  predicate EmailShape(s: string)
  {
    exists at, dot :: 0 < at < dot < |s| && s[at] == '@' && s[dot] == '.'
      && EmailPart(s[..at]) && EmailPart(s[at + 1..dot]) && EmailPart(s[dot + 1..])
  }

  /** A slice is one run of `[^\s@]+` exactly when it is non-empty and each of its characters qualifies. */
  lemma EmailPartSlice(s: string, lo: nat, hi: nat)
    requires lo <= hi <= |s|
    ensures EmailPart(s[lo..hi]) <==> lo < hi && forall i :: lo <= i < hi ==> !IsSpace(s[i]) && s[i] != '@'
  {
    assert forall i :: lo <= i < hi ==> s[i] == s[lo..hi][i - lo];
  }

  /** The pattern in plain words: no white space, exactly one `@` and not at the start, a `.` at least two characters after it and not at the end. */
  predicate PlainEmail(s: string)
  {
    && (forall i :: 0 <= i < |s| ==> !IsSpace(s[i]))
    && exists at, dot :: 0 < at && at + 1 < dot < |s| - 1 && s[at] == '@' && s[dot] == '.'
         && (forall k :: 0 <= k < |s| && s[k] == '@' ==> k == at)
  }

  lemma EmailShapeIsPlain(s: string)
    requires EmailShape(s)
    ensures PlainEmail(s)
  {
    var at, dot :| 0 < at < dot < |s| && s[at] == '@' && s[dot] == '.'
      && EmailPart(s[..at]) && EmailPart(s[at + 1..dot]) && EmailPart(s[dot + 1..]);
    SplitIsPlain(s, at, dot);
  }

  /** A split the pattern accepts names the `@` and the `.` that make the value a plain e-mail address. */
  lemma SplitIsPlain(s: string, at: nat, dot: nat)
    requires 0 < at < dot < |s| && s[at] == '@' && s[dot] == '.'
    requires EmailPart(s[..at]) && EmailPart(s[at + 1..dot]) && EmailPart(s[dot + 1..])
    ensures PlainEmail(s)
  {
    assert s[..at] == s[0..at] && s[dot + 1..] == s[dot + 1..|s|];
    forall i | 0 <= i < |s|
      ensures !IsSpace(s[i]) && (s[i] == '@' ==> i == at)
    {
      if i < at {
        EmailPartAt(s, 0, at, i);
      } else if at < i < dot {
        EmailPartAt(s, at + 1, dot, i);
      } else if dot < i {
        EmailPartAt(s, dot + 1, |s|, i);
      }
    }
    assert 0 < at && at + 1 < dot < |s| - 1 && s[at] == '@' && s[dot] == '.';
  }

  /** Each character of a run of `[^\s@]+` is neither white space nor `@`. */
  lemma EmailPartAt(s: string, lo: nat, hi: nat, i: nat)
    requires lo <= i < hi <= |s| && EmailPart(s[lo..hi])
    ensures !IsSpace(s[i]) && s[i] != '@'
  {
    assert s[lo..hi][i - lo] == s[i];
  }

  lemma PlainIsEmailShape(s: string)
    requires PlainEmail(s)
    ensures EmailShape(s)
  {
    var at, dot :| 0 < at && at + 1 < dot < |s| - 1 && s[at] == '@' && s[dot] == '.'
      && (forall k :: 0 <= k < |s| && s[k] == '@' ==> k == at);
    EmailPartSlice(s, 0, at);
    EmailPartSlice(s, at + 1, dot);
    EmailPartSlice(s, dot + 1, |s|);
    assert s[..at] == s[0..at] && s[dot + 1..] == s[dot + 1..|s|];
  }

  /** The regular expression accepts exactly the values `PlainEmail` describes. */
  lemma EmailShapeIff(s: string)
    ensures EmailShape(s) <==> PlainEmail(s)
  {
    if EmailShape(s) {
      EmailShapeIsPlain(s);
    }
    if PlainEmail(s) {
      PlainIsEmailShape(s);
    }
  }

  predicate Digit(c: char)
  {
    '0' <= c <= '9'
  }

  /** `/^\d{4}-\d{2}-\d{2}$/.test(s)` */
  predicate DateShape(s: string)
  {
    && |s| == 10
    && Digit(s[0]) && Digit(s[1]) && Digit(s[2]) && Digit(s[3]) && s[4] == '-'
    && Digit(s[5]) && Digit(s[6]) && s[7] == '-'
    && Digit(s[8]) && Digit(s[9])
  }

  // ---------------------------------------------------------------------
  // The decision

  /** What the field is built with. `labelText` (the `label` option) is absent when the option is not given. */
  datatype FieldConfig = FieldConfig(labelText: Option<string>, inputType: InputType, required: bool)

  /** The outcome of validation: accepted, or rejected with the message shown. */
  datatype Outcome = Accepted | Rejected(message: string)

  /** `${label || 'This field'} is required` */
  function RequiredMessage(labelText: Option<string>): string
  {
    (if labelText.Some? && labelText.value != "" then labelText.value else "This field") + " is required"
  }

  const InvalidEmailMessage: string := "Please enter a valid email address"
  const InvalidDateFormatMessage: string := "Please enter a valid date (YYYY-MM-DD)"
  const InvalidDateMessage: string := "Please enter a valid date"

  /**
   * The decision of `validateField` on the current value. `dateIsValid` is
   * whether `new Date(value)` is a valid date; `custom` is what the custom
   * validator returned (`None` for no validator or `null`).
   */
  function Validate(cfg: FieldConfig, value: string, dateIsValid: bool, custom: Option<string>): (r: Outcome)
    ensures r.Rejected? ==> r.message != []
    ensures cfg.required && Trim(value) == [] ==> r.Rejected?
    ensures custom.Some? && custom.value != "" ==> r.Rejected?
  {
    if cfg.required && Trim(value) == [] then Rejected(RequiredMessage(cfg.labelText))
    else if cfg.inputType == Email && Trim(value) != [] && !EmailShape(value) then Rejected(InvalidEmailMessage)
    else if cfg.inputType == Date && Trim(value) != [] && !DateShape(value) then Rejected(InvalidDateFormatMessage)
    else if cfg.inputType == Date && Trim(value) != [] && !dateIsValid then Rejected(InvalidDateMessage)
    // `if (customError)`: an empty message is falsy and does not fail
    else if custom.Some? && custom.value != "" then Rejected(custom.value)
    else Accepted
  }

  /** A required field whose value is all white space fails with the required message. */
  lemma RequiredBlankFails(cfg: FieldConfig, value: string, dateIsValid: bool, custom: Option<string>)
    requires cfg.required && Blank(value)
    ensures Validate(cfg, value, dateIsValid, custom) == Rejected(RequiredMessage(cfg.labelText))
    ensures cfg.labelText.None? ==> Validate(cfg, value, dateIsValid, custom) == Rejected("This field is required")
  {
    TrimEmptyIffBlank(value);
  }

  /** A non-blank e-mail value that does not have the e-mail shape fails with the e-mail message. */
  lemma BadEmailFails(cfg: FieldConfig, value: string, dateIsValid: bool, custom: Option<string>)
    requires cfg.inputType == Email && !Blank(value) && !EmailShape(value)
    ensures Validate(cfg, value, dateIsValid, custom) == Rejected(InvalidEmailMessage)
  {
    TrimEmptyIffBlank(value);
  }

  /**
   * A non-blank date value fails with the format message unless it is
   * `dddd-dd-dd`, and then with the date message if it does not parse.
   */
  lemma BadDateFails(cfg: FieldConfig, value: string, dateIsValid: bool, custom: Option<string>)
    requires cfg.inputType == Date && !Blank(value)
    ensures !DateShape(value) ==> Validate(cfg, value, dateIsValid, custom) == Rejected(InvalidDateFormatMessage)
    ensures DateShape(value) && !dateIsValid ==> Validate(cfg, value, dateIsValid, custom) == Rejected(InvalidDateMessage)
  {
    TrimEmptyIffBlank(value);
  }

  /**
   * A value that is not required and blank skips the e-mail and date checks:
   * only the custom validator can reject it.
   */
  lemma OptionalBlankSkipsFormats(cfg: FieldConfig, value: string, dateIsValid: bool, custom: Option<string>)
    requires !cfg.required && Blank(value)
    ensures Validate(cfg, value, dateIsValid, custom) == if custom.Some? && custom.value != "" then Rejected(custom.value) else Accepted
  {
    TrimEmptyIffBlank(value);
  }

  /** Whether a built-in check fails, whatever the custom validator says. */
  predicate BuiltInFails(cfg: FieldConfig, value: string, dateIsValid: bool)
  {
    || (cfg.required && Blank(value))
    || (cfg.inputType == Email && !Blank(value) && !EmailShape(value))
    || (cfg.inputType == Date && !Blank(value) && (!DateShape(value) || !dateIsValid))
  }

  /**
   * The custom validator is consulted only after the built-in checks pass:
   * when one of them fails, its answer makes no difference; when none fails,
   * a non-empty answer is the message.
   */
  lemma CustomOnlyAfterBuiltIns(cfg: FieldConfig, value: string, dateIsValid: bool, c1: Option<string>, c2: Option<string>)
    ensures BuiltInFails(cfg, value, dateIsValid) ==> Validate(cfg, value, dateIsValid, c1) == Validate(cfg, value, dateIsValid, c2)
    ensures !BuiltInFails(cfg, value, dateIsValid) && c1.Some? && c1.value != "" ==>
      Validate(cfg, value, dateIsValid, c1) == Rejected(c1.value)
  {
    TrimEmptyIffBlank(value);
  }

  /** A value is accepted exactly when no built-in check fails and the custom validator has no message. */
  lemma AcceptedIff(cfg: FieldConfig, value: string, dateIsValid: bool, custom: Option<string>)
    ensures Validate(cfg, value, dateIsValid, custom) == Accepted <==>
      !BuiltInFails(cfg, value, dateIsValid) && (custom.None? || custom.value == "")
  {
    TrimEmptyIffBlank(value);
  }

  // ---------------------------------------------------------------------
  // The field

  /** What a custom validator returns for a value, `None` for no validator. */
  function CustomResult(validator: Option<string -> Option<string>>, value: string): Option<string>
  {
    match validator
    case None => None
    case Some(f) => f(value)
  }

  class TextFieldWidget {
    const config: FieldConfig
    const validator: Option<string -> Option<string>>
    var value: string          // input.value
    var errorText: string      // errorEl.textContent
    var errorHidden: bool      // errorEl has the 'hidden' class

    constructor (config: FieldConfig, validator: Option<string -> Option<string>>, initialValue: string)
      ensures this.config == config && this.validator == validator
      ensures value == initialValue && errorText == "" && errorHidden
    {
      this.config := config;
      this.validator := validator;
      value := initialValue;
      errorText := "";
      errorHidden := true;
    }

    /**
     * `validateField`: hides the error, then on the first failing check shows
     * its message. `dateIsValid` says whether `new Date(v)` is valid for a value `v`.
     */
    method ValidateField(dateIsValid: string -> bool) returns (ok: bool)
      modifies this`errorText, this`errorHidden
      ensures var outcome := Validate(config, value, dateIsValid(value), CustomResult(validator, value));
        && ok == outcome.Accepted?
        && (outcome.Rejected? ==> errorText == outcome.message && !errorHidden)
        && (outcome.Accepted? ==> errorText == old(errorText) && errorHidden)
    {
      errorHidden := true;
      var outcome := Validate(config, value, dateIsValid(value), CustomResult(validator, value));
      if outcome.Rejected? {
        errorText := outcome.message;
        errorHidden := false;
        return false;
      }
      return true;
    }

    /** `getValue` */
    function GetValue(): string
      reads this
    {
      value
    }

    /** `setValue`: replaces the value and nothing else. */
    method SetValue(v: string)
      modifies this`value
      ensures value == v
    {
      value := v;
    }

    /** `setError`: a non-empty message is shown; `null` or an empty message hides the error. */
    method SetError(error: Option<string>)
      modifies this`errorText, this`errorHidden
      ensures error.Some? && error.value != "" ==> errorText == error.value && !errorHidden
      ensures !(error.Some? && error.value != "") ==> errorText == old(errorText) && errorHidden
    {
      if error.Some? && error.value != "" {
        errorText := error.value;
        errorHidden := false;
      } else {
        errorHidden := true;
      }
    }

    /** `clear`: empties the value and hides the error; the error text stays. */
    method Clear()
      modifies this`value, this`errorHidden
      ensures value == "" && errorHidden
    {
      value := "";
      errorHidden := true;
    }
  }

  /** After `clear`, a field that is not required and has no validator validates. */
  method ClearedOptionalFieldValidates(cfg: FieldConfig, initialValue: string, dateIsValid: string -> bool) returns (ok: bool)
    requires !cfg.required
    ensures ok
  {
    var field := new TextFieldWidget(cfg, None, initialValue);
    field.Clear();
    assert Blank(field.value);
    OptionalBlankSkipsFormats(cfg, field.value, dateIsValid(field.value), None);
    ok := field.ValidateField(dateIsValid);
  }
}
