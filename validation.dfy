/** Field validation: the inclusive integer bounds declared on the schema's
    integer columns, and the phone-number pattern shared by the user's phone
    number and the patient's emergency contact. */
module Validation {

  // ------------------------------------------------------ integer validators

  /** A bound validator attached to an integer column. */
  datatype Validator = MinValue(limit: int) | MaxValue(limit: int)

  predicate Passes(v: Validator, x: int) {
    match v
    case MinValue(lo) => lo <= x
    case MaxValue(hi) => x <= hi
  }

  /** Runs every validator of a column on `x` and collects the ones that
      fail, as cleaning a field does: a value is accepted when the list is
      empty. */
  function RunValidators(vs: seq<Validator>, x: int): (failed: seq<Validator>)
    ensures forall v :: v in failed ==> v in vs && !Passes(v, x)
    ensures forall v :: v in vs && !Passes(v, x) ==> v in failed
    ensures failed == [] <==> forall v :: v in vs ==> Passes(v, x)
  {
    if vs == [] then []
    else
      var rest := RunValidators(vs[1..], x);
      assert forall v :: v in vs <==> v == vs[0] || v in vs[1..];
      if Passes(vs[0], x) then rest else [vs[0]] + rest
  }

  /** The integer columns that carry bound validators. */
  datatype IntegerField =
    | Year | SystolicValue | DiastolicValue | HeartRateValue | RespiratoryRateValue
    | YearsOfExperience

  /** The bound the positive-integer column type adds to a column that
      declares no non-negative minimum of its own. */
  const NonNegative: seq<Validator> := [MinValue(0)]

  /** The validators run on each column: the ones it declares and, where it
      declares no minimum of at least zero, the column type's own minimum. */
  function Validators(f: IntegerField): seq<Validator> {
    match f
    case Year => [MinValue(1900), MaxValue(2100)]
    case SystolicValue => [MinValue(50), MaxValue(250)]
    case DiastolicValue => [MinValue(30), MaxValue(150)]
    case HeartRateValue => [MinValue(30), MaxValue(220)]
    case RespiratoryRateValue => [MinValue(5), MaxValue(60)]
    case YearsOfExperience => [MaxValue(70)] + NonNegative
  }

  predicate Accepts(f: IntegerField, x: int) {
    RunValidators(Validators(f), x) == []
  }

  /** A column with validators `a` and `b` accepts `x` exactly when both
      pass. */
  lemma AcceptsTwo(a: Validator, b: Validator, x: int)
    ensures RunValidators([a, b], x) == [] <==> Passes(a, x) && Passes(b, x)
  {
    assert a in [a, b] && b in [a, b];
  }

  /** The inclusive lower bound each column declares. */
  function Low(f: IntegerField): int {
    match f
    case Year => 1900
    case SystolicValue => 50
    case DiastolicValue => 30
    case HeartRateValue => 30
    case RespiratoryRateValue => 5
    case YearsOfExperience => 0
  }

  /** The inclusive upper bound each column declares. */
  function High(f: IntegerField): int {
    match f
    case Year => 2100
    case SystolicValue => 250
    case DiastolicValue => 150
    case HeartRateValue => 220
    case RespiratoryRateValue => 60
    case YearsOfExperience => 70
  }

  /** Each column accepts exactly the integers of its inclusive range. */
  lemma AcceptedRange(f: IntegerField, x: int)
    ensures Accepts(f, x) <==> Low(f) <= x <= High(f)
  {
    if f == YearsOfExperience {
      assert Validators(f) == [MaxValue(70), MinValue(0)];
      AcceptsTwo(MaxValue(70), MinValue(0), x);
    } else {
      AcceptsTwo(MinValue(Low(f)), MaxValue(High(f)), x);
    }
  }

  /** Each bound is itself accepted and the integer one past it is not. */
  lemma RangeEnds(f: IntegerField)
    ensures Accepts(f, Low(f)) && Accepts(f, High(f))
    ensures !Accepts(f, Low(f) - 1) && !Accepts(f, High(f) + 1)
  {
    AcceptedRange(f, Low(f));
    AcceptedRange(f, High(f));
    AcceptedRange(f, Low(f) - 1);
    AcceptedRange(f, High(f) + 1);
  }

  // ------------------------------------------------------------ phone number

  predicate IsDigit(c: char) {
    '0' <= c <= '9'
  }

  predicate AllDigits(s: string) {
    forall i :: 0 <= i < |s| ==> IsDigit(s[i])
  }

  /** `s` matches the phone pattern `^\+?1?\d{9,15}$` taking the optional
      plus sign when `plus` holds and the optional one when `one` holds. */
  ghost predicate MatchesWith(s: string, plus: bool, one: bool) {
    var i := if plus then 1 else 0;
    var j := i + (if one then 1 else 0);
    && j <= |s|
    && (plus ==> s[0] == '+')
    && (one ==> s[i] == '1')
    && 9 <= |s| - j <= 15
    && AllDigits(s[j..])
  }

  /** The phone pattern, read as the regular expression reads it: some choice
      of the two optional parts lets the rest be 9 to 15 digits. */
  ghost predicate PhonePattern(s: string) {
    exists plus: bool, one: bool :: MatchesWith(s, plus, one)
  }

  /** Decides the phone pattern without backtracking: after an optional plus
      sign come only digits, 9 to 15 of them, or 16 when the first is a one
      (the optional one then takes it). */
  function PhoneMatches(s: string): bool {
    var digits := if |s| > 0 && s[0] == '+' then s[1..] else s;
    AllDigits(digits) && (9 <= |digits| <= 15 || (|digits| == 16 && digits[0] == '1'))
  }

  /** The direct decision agrees with the pattern on every string. */
  lemma PhoneMatchesPattern(s: string)
    ensures PhoneMatches(s) <==> PhonePattern(s)
  {
    var plus := |s| > 0 && s[0] == '+';
    var i := if plus then 1 else 0;
    var digits := s[i..];
    if PhoneMatches(s) {
      var one := !(9 <= |digits| <= 15);
      if one {
        assert s[i + 1..] == digits[1..];
      } else {
        assert s[i..] == digits;
      }
      assert MatchesWith(s, plus, one);
    }
    if PhonePattern(s) {
      var p, o :| MatchesWith(s, p, o);
      var j := (if p then 1 else 0) + (if o then 1 else 0);
      assert IsDigit(s[j]);
      assert p == plus;
      if o {
        assert digits == [s[i]] + s[j..];
      } else {
        assert digits == s[j..];
      }
    }
  }

  /** Every string the pattern accepts is 9 to 17 characters long, so the
      column width of 17 never rejects a string the pattern accepts. */
  lemma PhonePatternLength(s: string)
    requires PhonePattern(s)
    ensures 9 <= |s| <= 17
  {
    var p, o :| MatchesWith(s, p, o);
  }

  /** A phone column is optional: the empty string skips the validators;
      any other value must fit the width of 17 and match the pattern. */
  predicate PhoneFieldAccepts(s: string) {
    s == "" || (|s| <= 17 && PhoneMatches(s))
  }

  /** The width limit adds nothing to the pattern. */
  lemma PhoneFieldIsPattern(s: string)
    ensures PhoneFieldAccepts(s) <==> s == "" || PhonePattern(s)
  {
    PhoneMatchesPattern(s);
    if PhonePattern(s) {
      PhonePatternLength(s);
    }
  }

  /** The pattern admits sixteen digits when the first is a one, although
      the validator's message speaks of at most 15; seventeen digits, or
      sixteen starting with another digit, are refused. */
  lemma PhoneDigitCounts()
    ensures PhoneMatches("+999999999")
    ensures PhoneMatches("+1234567890123456")
    ensures !PhoneMatches("2234567890123456")
    ensures !PhoneMatches("12345678901234567")
    ensures !PhoneMatches("12345678")
  {
  }
}
