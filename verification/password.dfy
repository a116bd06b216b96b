/**
 * The password rules of the user service, in the two copies the service
 * carries: the standalone `validatePassword` and the `pre('validate')`
 * hook of the user schema. Both list the unmet requirements in a fixed
 * order and fail validation on path `password` when any is unmet.
 */
module Password {
  import opened Wrappers
  import Text

  datatype Requirement = MinLength | Lowercase | Uppercase | Digit | Special

  /** The order in which the requirements are checked and reported. */
  const Requirements: seq<Requirement> := [MinLength, Lowercase, Uppercase, Digit, Special]

  function Rank(r: Requirement): nat {
    match r
    case MinLength => 0
    case Lowercase => 1
    case Uppercase => 2
    case Digit => 3
    case Special => 4
  }

  function Label(r: Requirement): string {
    match r
    case MinLength => "at least 8 characters"
    case Lowercase => "a lowercase letter"
    case Uppercase => "an uppercase letter"
    case Digit => "a number"
    case Special => "a special character"
  }

  /** The characters of the class `[!@#$%^&*()_+\-=\[\]{};':"\\|,.<>\/?]`. */
  const SpecialChars: set<char> := {
    '!', '@', '#', '$', '%', '^', '&', '*', '(', ')', '_', '+', '-', '=', '[', ']',
    '{', '}', ';', '\'', ':', '"', '\\', '|', ',', '.', '<', '>', '/', '?'
  }

  predicate SomeCharIn(pw: string, lo: char, hi: char) {
    exists i :: 0 <= i < |pw| && lo <= pw[i] <= hi
  }

  /** Code units of `c` in UTF-16: two for a character outside the Basic Multilingual Plane. */
  function CodeUnits(c: char): nat {
    if c as int > 0xFFFF then 2 else 1
  }

  /** `pw.length`: JavaScript strings count UTF-16 code units, not characters. */
  function Utf16Length(pw: string): (n: nat)
    ensures |pw| <= n <= 2 * |pw|
  {
    if |pw| == 0 then 0 else CodeUnits(pw[0]) + Utf16Length(pw[1..])
  }

  /** On text within the Basic Multilingual Plane the two lengths agree. */
  lemma {:induction false} Utf16LengthOfBmp(pw: string)
    requires forall i :: 0 <= i < |pw| ==> pw[i] as int <= 0xFFFF
    ensures Utf16Length(pw) == |pw|
  {
    if |pw| > 0 {
      Utf16LengthOfBmp(pw[1..]);
    }
  }

  /**
   * Six characters, two of them outside the plane, already make eight code
   * units, so the length requirement is met.
   */
  lemma AstralCharactersCountTwice()
    ensures |"Aa1!\U{1F600}\U{1F600}"| == 6
    ensures Utf16Length("Aa1!\U{1F600}\U{1F600}") == 8
    ensures MinLength !in Missing("Aa1!\U{1F600}\U{1F600}")
  {
    LengthReportedIffShort("Aa1!\U{1F600}\U{1F600}");
  }

  predicate Holds(r: Requirement, pw: string) {
    match r
    case MinLength => Utf16Length(pw) >= 8
    case Lowercase => SomeCharIn(pw, 'a', 'z')
    case Uppercase => SomeCharIn(pw, 'A', 'Z')
    case Digit => SomeCharIn(pw, '0', '9')
    case Special => HasSpecial(pw)
  }

  predicate HasSpecial(pw: string) {
    exists i :: 0 <= i < |pw| && pw[i] in SpecialChars
  }

  predicate StrictlyRanked(rs: seq<Requirement>) {
    forall i, j :: 0 <= i < j < |rs| ==> Rank(rs[i]) < Rank(rs[j])
  }

  /** `[r]` when `r` is unmet, else nothing: one `if (…) errors.push(…)`. */
  function IfMissing(r: Requirement, pw: string): seq<Requirement> {
    if Holds(r, pw) then [] else [r]
  }

  /**
   * One `if (…) errors.push(…)` on an `errors` array holding only
   * requirements checked earlier: the array stays in check order.
   */
  function Push(m: seq<Requirement>, r: Requirement, pw: string): (m': seq<Requirement>)
    requires StrictlyRanked(m)
    requires forall k :: 0 <= k < |m| ==> Rank(m[k]) < Rank(r)
    ensures StrictlyRanked(m')
    ensures forall k :: 0 <= k < |m'| ==> Rank(m'[k]) <= Rank(r)
  {
    m + IfMissing(r, pw)
  }

  /**
   * The `errors` array of either copy, for a password that is checked:
   * the unmet requirements in the fixed order, each at most once.
   */
  function Missing(pw: string): (m: seq<Requirement>)
    ensures StrictlyRanked(m)
  {
    var m0 := Push([], MinLength, pw);
    var m1 := Push(m0, Lowercase, pw);
    var m2 := Push(m1, Uppercase, pw);
    var m3 := Push(m2, Digit, pw);
    Push(m3, Special, pw)
  }

  /** A requirement is listed exactly when the password fails it. */
  lemma MissingIffUnmet(pw: string, r: Requirement)
    ensures r in Missing(pw) <==> !Holds(r, pw)
  {
    var m := Missing(pw);
    var a, b, c, d, e := IfMissing(MinLength, pw), IfMissing(Lowercase, pw), IfMissing(Uppercase, pw),
      IfMissing(Digit, pw), IfMissing(Special, pw);
    assert m == a + b + c + d + e;
    assert r in m <==> r in a || r in b || r in c || r in d || r in e;
    InIfMissing(pw, r, MinLength);
    InIfMissing(pw, r, Lowercase);
    InIfMissing(pw, r, Uppercase);
    InIfMissing(pw, r, Digit);
    InIfMissing(pw, r, Special);
  }

  lemma InIfMissing(pw: string, x: Requirement, r: Requirement)
    ensures x in IfMissing(r, pw) <==> x == r && !Holds(r, pw)
  {
  }

  /** Nothing is listed exactly when every requirement holds. */
  lemma NoneMissingIffAllHold(pw: string)
    ensures Missing(pw) == [] <==> forall r :: Holds(r, pw)
  {
    if Missing(pw) == [] {
      forall r ensures Holds(r, pw) {
        MissingIffUnmet(pw, r);
      }
    }
  }

  function Labels(rs: seq<Requirement>): (ls: seq<string>)
    ensures |ls| == |rs|
    ensures forall i :: 0 <= i < |rs| ==> ls[i] == Label(rs[i])
  {
    if |rs| == 0 then [] else [Label(rs[0])] + Labels(rs[1..])
  }

  function MissingMessage(m: seq<Requirement>): string {
    "Password must contain " + Text.Join(Labels(m), ", ")
  }

  /** The `ValidatorError` attached to the validation error. */
  datatype ValidatorError = ValidatorError(path: string, message: string, value: string)

  /** One invocation of the hook's `next` callback. */
  datatype Callback = Next(error: Option<ValidatorError>)

  /** The callbacks a hook made, in order, and what it threw afterwards. */
  datatype HookRun = HookRun(calls: seq<Callback>, thrown: Option<string>)

  /**
   * The checks shared by both copies, on a password that reaches them: no
   * error exactly when all five requirements hold; otherwise an error on
   * path `password`, carrying the password, listing the unmet ones.
   */
  function CheckPassword(pw: string): (e: Option<ValidatorError>)
    ensures e.None? <==> forall r :: Holds(r, pw)
    ensures e.Some? ==> e.value == ValidatorError("password", MissingMessage(Missing(pw)), pw)
  {
    var m := Missing(pw);
    NoneMissingIffAllHold(pw);
    if |m| > 0 then Some(ValidatorError("password", MissingMessage(m), pw)) else None
  }

  /** "at least 8 characters" is reported exactly for passwords under 8 code units. */
  lemma LengthReportedIffShort(pw: string)
    ensures MinLength in Missing(pw) <==> Utf16Length(pw) < 8
  {
    MissingIffUnmet(pw, MinLength);
  }

  /**
   * The schema's `pre('validate')` hook: an absent or empty password goes
   * straight to `next()`; any other password is checked, and `next` is
   * called exactly once, with the error when a requirement is unmet.
   */
  function PasswordHook(password: Option<string>): (run: HookRun)
    ensures |run.calls| == 1 && run.thrown.None?
    ensures password.None? || password == Some("") ==> run.calls == [Next(None)]
    ensures password.Some? && password.value != "" ==>
      (run.calls == [Next(None)] <==> forall r :: Holds(r, password.value))
    ensures password.Some? && password.value != "" ==> run.calls == [Next(CheckPassword(password.value))]
  {
    if password.None? || password.value == "" then HookRun([Next(None)], None)
    else HookRun([Next(CheckPassword(password.value))], None)
  }

  /**
   * The standalone `validatePassword` as written: its guard calls `next()`
   * without returning, so an empty password goes on to be checked and
   * `next` is called a second time, with an error; an absent password
   * calls `next()` and then throws reading `length` of `undefined`.
   */
  function ValidatePasswordAsWritten(password: Option<string>): (run: HookRun)
    ensures password.Some? && password.value != "" ==> run == PasswordHook(password)
    ensures password == Some("") ==> run.calls == [Next(None), Next(CheckPassword(password.value))]
    ensures password.None? ==> run.calls == [Next(None)] && run.thrown.Some?
  {
    match password
    case None => HookRun([Next(None)], Some("TypeError: Cannot read properties of undefined (reading 'length')"))
    case Some(pw) =>
      if pw == "" then HookRun([Next(None), Next(CheckPassword(pw))], None)
      else HookRun([Next(CheckPassword(pw))], None)
  }

  /** The empty password meets none of the requirements. */
  lemma MissingOfEmpty()
    ensures Missing("") == Requirements
  {
    assert IfMissing(MinLength, "") == [MinLength];
    assert IfMissing(Lowercase, "") == [Lowercase];
    assert IfMissing(Uppercase, "") == [Uppercase];
    assert IfMissing(Digit, "") == [Digit];
    assert IfMissing(Special, "") == [Special];
  }

  /**
   * The discrepancy: for the empty password the standalone validator calls
   * `next` twice, first without and then with an error listing all five
   * requirements, where the hook calls it once.
   */
  lemma EmptyPasswordCallsNextTwice()
    ensures |ValidatePasswordAsWritten(Some("")).calls| == 2
    ensures ValidatePasswordAsWritten(Some("")).calls[1]
         == Next(Some(ValidatorError("password", MissingMessage(Requirements), "")))
    ensures |PasswordHook(Some("")).calls| == 1
  {
    MissingOfEmpty();
    assert !Holds(MinLength, "");
  }
}
