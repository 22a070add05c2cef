/**
 * The observer location form of src/components/ObserverLocationForm.tsx: the
 * field editor `onChange`, the validator `validateAndParse`, the submit
 * handler `onSetLocation` and `applyPreset`.
 *
 * JavaScript's `Number(text)` is the parameter `parse`: None stands for NaN.
 * `String(x)` is the parameter `show`.
 */
module ObserverLocationForm {
  import opened Wrappers
  import opened N2yoApi

  datatype Field = Lat | Lng | Alt

  /** The three input texts. */
  datatype FormState = FormState(lat: string, lng: string, alt: string)

  /** The error shown under each input; None is a missing or undefined key. */
  datatype FormErrors = FormErrors(lat: Option<string>, lng: Option<string>, alt: Option<string>)

  const NoErrors := FormErrors(None, None, None)

  const LatitudeMessage := "Latitude must be a number between -90 and 90."
  const LongitudeMessage := "Longitude must be a number between -180 and 180."
  const AltitudeMessage := "Altitude must be a number between -413 and 8850 km."

  function Text(form: FormState, f: Field): string {
    match f
    case Lat => form.lat
    case Lng => form.lng
    case Alt => form.alt
  }

  function ErrorOf(errors: FormErrors, f: Field): Option<string> {
    match f
    case Lat => errors.lat
    case Lng => errors.lng
    case Alt => errors.alt
  }

  // ---------------------------------------------------------------- trim

  /** ECMAScript WhiteSpace and LineTerminator, the characters `String.prototype.trim` removes. */
  const JsWhitespace: set<char> := {
    '\U{0009}', '\U{000A}', '\U{000B}', '\U{000C}', '\U{000D}', '\U{0020}', '\U{00A0}', '\U{1680}',
    '\U{2000}', '\U{2001}', '\U{2002}', '\U{2003}', '\U{2004}', '\U{2005}', '\U{2006}', '\U{2007}',
    '\U{2008}', '\U{2009}', '\U{200A}', '\U{2028}', '\U{2029}', '\U{202F}', '\U{205F}', '\U{3000}',
    '\U{FEFF}'}

  predicate IsJsWhitespace(c: char) {
    c in JsWhitespace
  }

  predicate AllWhitespace(s: string) {
    forall k :: 0 <= k < |s| ==> IsJsWhitespace(s[k])
  }

  function TrimStart(s: string): (r: string)
    ensures |r| <= |s|
    ensures r == s[|s| - |r|..]
    ensures AllWhitespace(s[..|s| - |r|])
    ensures r != [] ==> !IsJsWhitespace(r[0])
  {
    if s != [] && IsJsWhitespace(s[0]) then
      var r := TrimStart(s[1..]);
      assert s[1..][..|s| - 1 - |r|] == s[1..|s| - |r|];
      r
    else s
  }

  function TrimEnd(s: string): (r: string)
    ensures |r| <= |s|
    ensures r == s[..|r|]
    ensures AllWhitespace(s[|r|..])
    ensures r != [] ==> !IsJsWhitespace(r[|r| - 1])
  {
    if s != [] && IsJsWhitespace(s[|s| - 1]) then
      var r := TrimEnd(s[..|s| - 1]);
      assert s[|r|..] == s[..|s| - 1][|r|..] + [s[|s| - 1]];
      r
    else s
  }

  /** `s.trim()`: the text without its whitespace margins, which has no whitespace at either end. */
  function Trim(s: string): (r: string)
    ensures r == [] || (!IsJsWhitespace(r[0]) && !IsJsWhitespace(r[|r| - 1]))
  {
    var front := TrimStart(s);
    var r := TrimEnd(front);
    assert r != [] ==> r[0] == front[0];
    r
  }

  /**
   * What `trim` takes away is whitespace only: the trimmed text is the infix
   * of `s` between a whitespace prefix and a whitespace suffix, so no longer
   * such infix exists.
   */
  lemma {:induction false} TrimIsInfix(s: string)
    ensures var start := |s| - |TrimStart(s)|;
            && start + |Trim(s)| <= |s|
            && Trim(s) == s[start..start + |Trim(s)|]
            && AllWhitespace(s[..start]) && AllWhitespace(s[start + |Trim(s)|..])
  {
    PrefixOfSuffix(s, TrimStart(s), Trim(s));
  }

  /** A prefix `r` of the suffix `front` of `s` is an infix of `s` between the same margins. */
  lemma PrefixOfSuffix(s: string, front: string, r: string)
    requires |front| <= |s| && front == s[|s| - |front|..]
    requires |r| <= |front| && r == front[..|r|]
    requires AllWhitespace(s[..|s| - |front|]) && AllWhitespace(front[|r|..])
    ensures var start := |s| - |front|;
            && start + |r| <= |s|
            && r == s[start..start + |r|]
            && AllWhitespace(s[..start]) && AllWhitespace(s[start + |r|..])
  {
    assert front[|r|..] == s[|s| - |front| + |r|..];
  }

  /** A string with no whitespace at either end is its own trim. */
  lemma TrimKeepsTrimmed(s: string)
    requires s == [] || (!IsJsWhitespace(s[0]) && !IsJsWhitespace(s[|s| - 1]))
    ensures Trim(s) == s
  {
  }

  lemma TrimIdempotent(s: string)
    ensures Trim(Trim(s)) == Trim(s)
  {
  }

  /** A text trims to "" exactly when it is whitespace only. */
  lemma TrimEmptyIffBlank(s: string)
    ensures Trim(s) == "" <==> AllWhitespace(s)
  {
  }

  // ---------------------------------------------------------------- validation

  /** The latitude text is accepted: non-empty, a number, within [-90, 90]. */
  predicate LatitudeOk(text: string, parse: string -> Option<real>) {
    text != "" && parse(text).Some? && -90.0 <= parse(text).value <= 90.0
  }

  /** The longitude text is accepted: non-empty, a number, within [-180, 180]. */
  predicate LongitudeOk(text: string, parse: string -> Option<real>) {
    text != "" && parse(text).Some? && -180.0 <= parse(text).value <= 180.0
  }

  /** The altitude text is accepted when empty or a number; there is no range check. */
  predicate AltitudeOk(text: string, parse: string -> Option<real>) {
    text == "" || parse(text).Some?
  }

  /** `trimmed.alt === "" ? 0 : Number(trimmed.alt)` for an accepted altitude. */
  function AltitudeValue(text: string, parse: string -> Option<real>): (a: real)
    requires AltitudeOk(text, parse)
    ensures text == "" ==> a == 0.0
    ensures text != "" ==> Some(a) == parse(text)
  {
    if text == "" then 0.0 else parse(text).value
  }

  /** `Object.keys(outErrors).length`. */
  function ErrorCount(errors: FormErrors): (n: nat)
    ensures n <= 3
    ensures n == 0 <==> errors == NoErrors
  {
    (if errors.lat.Some? then 1 else 0) + (if errors.lng.Some? then 1 else 0) +
    (if errors.alt.Some? then 1 else 0)
  }

  /**
   * What `validateAndParse` promises for `form`: each trimmed text gets its
   * message exactly when it is rejected, and the result is the parsed triple
   * exactly when nothing is rejected.
   */
  predicate ValidationResult(form: FormState, parse: string -> Option<real>,
                             errors: FormErrors, parsed: Option<ObserverLocation>) {
    var lat, lng, alt := Trim(form.lat), Trim(form.lng), Trim(form.alt);
    && errors.lat == (if LatitudeOk(lat, parse) then None else Some(LatitudeMessage))
    && errors.lng == (if LongitudeOk(lng, parse) then None else Some(LongitudeMessage))
    && errors.alt == (if AltitudeOk(alt, parse) then None else Some(AltitudeMessage))
    && (parsed.Some? <==> LatitudeOk(lat, parse) && LongitudeOk(lng, parse) && AltitudeOk(alt, parse))
    && (parsed.Some? ==>
          && LatitudeOk(lat, parse) && LongitudeOk(lng, parse) && AltitudeOk(alt, parse)
          && parsed.value == ObserverLocation(parse(lat).value, parse(lng).value, AltitudeValue(alt, parse)))
  }

  /** A form has exactly one validation result. */
  lemma ValidationResultIsUnique(form: FormState, parse: string -> Option<real>,
                                 e1: FormErrors, p1: Option<ObserverLocation>,
                                 e2: FormErrors, p2: Option<ObserverLocation>)
    requires ValidationResult(form, parse, e1, p1) && ValidationResult(form, parse, e2, p2)
    ensures e1 == e2 && p1 == p2
  {
  }

  /** `validateAndParse`: trim, convert, fill the errors field by field, then decide. */
  method ValidateAndParse(form: FormState, parse: string -> Option<real>)
    returns (errors: FormErrors, parsed: Option<ObserverLocation>)
    ensures ValidationResult(form, parse, errors, parsed)
    ensures parsed.None? <==> ErrorCount(errors) > 0
  {
    var lat, lng, alt := Trim(form.lat), Trim(form.lng), Trim(form.alt);
    var latNum, lngNum := parse(lat), parse(lng);
    var altNum := if alt == "" then Some(0.0) else parse(alt);
    var outErrors := NoErrors;
    if lat == "" || latNum.None? || latNum.value < -90.0 || latNum.value > 90.0 {
      outErrors := outErrors.(lat := Some(LatitudeMessage));
    }
    if lng == "" || lngNum.None? || lngNum.value < -180.0 || lngNum.value > 180.0 {
      outErrors := outErrors.(lng := Some(LongitudeMessage));
    }
    if alt != "" && altNum.None? {
      outErrors := outErrors.(alt := Some(AltitudeMessage));
    }
    errors := outErrors;
    if ErrorCount(outErrors) > 0 {
      return errors, None;
    }
    parsed := Some(ObserverLocation(latNum.value, lngNum.value, altNum.value));
  }

  lemma {:induction false} TrimStartSkipsBlank(w: string, s: string)
    requires AllWhitespace(w)
    ensures TrimStart(w + s) == TrimStart(s)
  {
    if w != [] {
      assert (w + s)[1..] == w[1..] + s;
      TrimStartSkipsBlank(w[1..], s);
    } else {
      assert w + s == s;
    }
  }

  lemma {:induction false} TrimStartKeepsTail(s: string, w: string)
    requires !AllWhitespace(s)
    ensures TrimStart(s + w) == TrimStart(s) + w
  {
    assert s != [];
    assert (s + w)[0] == s[0];
    if IsJsWhitespace(s[0]) {
      assert !AllWhitespace(s[1..]) by {
        var k :| 0 <= k < |s| && !IsJsWhitespace(s[k]);
        assert s[1..][k - 1] == s[k];
      }
      assert (s + w)[1..] == s[1..] + w;
      TrimStartKeepsTail(s[1..], w);
    }
  }

  lemma {:induction false} TrimEndSkipsBlank(s: string, w: string)
    requires AllWhitespace(w)
    ensures TrimEnd(s + w) == TrimEnd(s)
    decreases |w|
  {
    if w != [] {
      var x := s + w;
      assert x[|x| - 1] == w[|w| - 1];
      assert x[..|x| - 1] == s + w[..|w| - 1];
      TrimEndSkipsBlank(s, w[..|w| - 1]);
    } else {
      assert s + w == s;
    }
  }

  /** Whitespace typed around a value never changes what is validated. */
  lemma PaddingIgnored(before: string, s: string, after: string)
    requires AllWhitespace(before) && AllWhitespace(after)
    ensures Trim(before + s + after) == Trim(s)
  {
    assert before + s + after == before + (s + after);
    TrimStartSkipsBlank(before, s + after);
    if AllWhitespace(s) {
      assert AllWhitespace(s + after);
      TrimEmptyIffBlank(s + after);
      TrimEmptyIffBlank(s);
    } else {
      TrimStartKeepsTail(s, after);
      TrimEndSkipsBlank(TrimStart(s), after);
    }
  }

  /** An altitude the parser reads as a number is accepted however far out of range it is. */
  lemma AltitudeHasNoRange(text: string, parse: string -> Option<real>)
    requires text != "" && parse(text).Some?
    ensures AltitudeOk(text, parse) && AltitudeValue(text, parse) == parse(text).value
  {
  }

  // ---------------------------------------------------------------- the handlers

  /** The form component's state. */
  datatype FormView = FormView(form: FormState, errors: FormErrors)

  /** The initial state, from the current observer. */
  function InitialView(observer: ObserverLocation, show: real -> string): (v: FormView)
    ensures v.errors == NoErrors
    ensures v.form == FormState(show(observer.lat), show(observer.lng), show(observer.alt))
  {
    FormView(FormState(show(observer.lat), show(observer.lng), show(observer.alt)), NoErrors)
  }

  /** `onChange(field, value)`: only that field's text changes and only its error clears. */
  function OnChange(view: FormView, field: Field, value: string): (v: FormView)
    ensures Text(v.form, field) == value && ErrorOf(v.errors, field) == None
    ensures forall f :: f != field ==> Text(v.form, f) == Text(view.form, f)
    ensures forall f :: f != field ==> ErrorOf(v.errors, f) == ErrorOf(view.errors, f)
  {
    match field
    case Lat => FormView(view.form.(lat := value), view.errors.(lat := None))
    case Lng => FormView(view.form.(lng := value), view.errors.(lng := None))
    case Alt => FormView(view.form.(alt := value), view.errors.(alt := None))
  }

  /** Editing a field twice keeps only the second edit. */
  lemma OnChangeLastWins(view: FormView, field: Field, first: string, second: string)
    ensures OnChange(OnChange(view, field, first), field, second) == OnChange(view, field, second)
  {
  }

  /** `applyPreset(lat, lng, alt = 0)`: all three texts from the arguments and no errors. */
  function ApplyPreset(view: FormView, show: real -> string, lat: real, lng: real, alt: real := 0.0): (v: FormView)
    ensures v.errors == NoErrors
    ensures forall f :: Text(v.form, f) == show(match f case Lat => lat case Lng => lng case Alt => alt)
  {
    FormView(FormState(show(lat), show(lng), show(alt)), NoErrors)
  }

  /**
   * `onSetLocation`: the errors shown become validateAndParse's, and the
   * location is submitted exactly when it returned a value.
   */
  method OnSetLocation(view: FormView, parse: string -> Option<real>)
    returns (next: FormView, submitted: Option<ObserverLocation>)
    ensures next.form == view.form
    ensures ValidationResult(view.form, parse, next.errors, submitted)
  {
    var errors, parsed := ValidateAndParse(view.form, parse);
    next := view.(errors := errors);
    submitted := parsed;
  }
}
