/**
 * The Password value object: a plain password of 6 to 100 UTF-16 code units, or
 * a hash taken as is, with a strength grade.
 */
module PasswordValue {
  import opened Outcomes
  import Text

  datatype Password = Password(value: string, isHashed: bool)

  datatype Strength = Weak | Medium | Strong

  const TooShort := "La contraseña debe tener al menos 6 caracteres"
  const MinLength := 6
  const MaxLength := 100

  /** The Password constructor: a hash is taken as is, a plain password needs 6 to 100 code units. */
  function NewPassword(raw: string, isHashed: bool): (r: Result<Password>)
    ensures r.Ok? <==> isHashed || MinLength <= Text.Utf16Length(raw) <= MaxLength
    ensures r.Ok? ==> r.value == Password(raw, isHashed)
    ensures r.Err? ==> r.failure == Failed(TooShort)
  {
    if !isHashed && !(MinLength <= Text.Utf16Length(raw) <= MaxLength) then Err(Failed(TooShort))
    else Ok(Password(raw, isHashed))
  }

  predicate IsLower(c: char) { 'a' <= c <= 'z' }

  predicate IsUpper(c: char) { 'A' <= c <= 'Z' }

  /** Outside `[a-zA-Z0-9]`. */
  predicate IsSpecial(c: char) { !IsLower(c) && !IsUpper(c) && !Text.IsDigit(c) }

  /** `/[a-z]/.test(s)` */
  predicate HasLower(s: string) { exists i :: 0 <= i < |s| && IsLower(s[i]) }

  /** `/[A-Z]/.test(s)` */
  predicate HasUpper(s: string) { exists i :: 0 <= i < |s| && IsUpper(s[i]) }

  /** `/[0-9]/.test(s)` */
  predicate HasDigit(s: string) { exists i :: 0 <= i < |s| && Text.IsDigit(s[i]) }

  /** `/[^a-zA-Z0-9]/.test(s)` */
  predicate HasSpecial(s: string) { exists i :: 0 <= i < |s| && IsSpecial(s[i]) }

  function Flag(b: bool): nat { if b then 1 else 0 }

  /** One point each for 8+ code units, 12+ code units, a lower-case letter, an upper-case letter, a digit and a special character. */
  function Score(s: string): (n: nat)
    ensures n <= 6
    ensures n == 6 <==> Text.Utf16Length(s) >= 12 && HasLower(s) && HasUpper(s) && HasDigit(s) && HasSpecial(s)
    ensures Text.Utf16Length(s) < 8 ==> n <= 4
  {
    Flag(Text.Utf16Length(s) >= 8) + Flag(Text.Utf16Length(s) >= 12) + Flag(HasLower(s)) + Flag(HasUpper(s)) + Flag(HasDigit(s)) + Flag(HasSpecial(s))
  }

  /** The shared thresholds: 2 or less is weak, 3 or 4 is medium, more is strong. */
  function Grade(score: int): Strength
  {
    if score <= 2 then Weak else if score <= 4 then Medium else Strong
  }

  function Rank(s: Strength): nat
  {
    match s
    case Weak => 0
    case Medium => 1
    case Strong => 2
  }

  /** `getStrength`: a hash is taken to be strong; a plain password is graded by its score. */
  function StrengthOf(p: Password): Strength
  {
    if p.isHashed then Strong else Grade(Score(p.value))
  }

  predicate HasMinimumLength(p: Password) { Text.Utf16Length(p.value) >= MinLength }

  predicate HasUpperCase(p: Password) { HasUpper(p.value) }

  predicate HasLowerCase(p: Password) { HasLower(p.value) }

  predicate HasNumber(p: Password) { HasDigit(p.value) }

  predicate HasSpecialChar(p: Password) { HasSpecial(p.value) }

  // ---------------------------------------------------------------------
  // Properties

  /** Every plain password the constructor accepts has the minimum length. */
  lemma BuiltPlainHasMinimumLength(raw: string)
    requires NewPassword(raw, false).Ok?
    ensures HasMinimumLength(NewPassword(raw, false).value)
    ensures !NewPassword(raw, false).value.isHashed
  {
  }

  /** The grade never goes down as the score goes up. */
  lemma GradeMonotone(a: int, b: int)
    requires a <= b
    ensures Rank(Grade(a)) <= Rank(Grade(b))
  {
  }

  /** Every character falls in one of the four classes, so a non-empty password scores at least one point. */
  lemma NonEmptyScores(s: string)
    requires s != []
    ensures Score(s) >= 1
  {
    var c := s[0];
    if IsLower(c) {
      assert HasLower(s);
    } else if IsUpper(c) {
      assert HasUpper(s);
    } else if Text.IsDigit(c) {
      assert HasDigit(s);
    } else {
      assert HasSpecial(s);
    }
  }

  /** A plain password shorter than 8 code units is never strong, and one of 12 or more with all four classes always is. */
  lemma StrengthByLength(p: Password)
    requires !p.isHashed
    ensures Text.Utf16Length(p.value) < 8 ==> StrengthOf(p) != Strong
    ensures Text.Utf16Length(p.value) >= 12 && HasLowerCase(p) && HasUpperCase(p) && HasNumber(p) && HasSpecialChar(p)
      ==> StrengthOf(p) == Strong
  {
  }
}

/**
 * `PasswordValidationService`: the strength report used at registration and
 * password change, and the check against a fixed list of common passwords.
 */
module PasswordPolicy {
  import Text
  import opened PasswordValue

  /** The five common patterns, in the order the loop tries them. */
  datatype Pattern =
    | LeadingOneTwoThree   // `/^123+/`
    | LeadingAbc           // `/^abc+/i`
    | ContainsPassword     // `/password/i`
    | LeadingQwerty        // `/^qwerty/i`
    | RepeatedLead         // `/^(.)\1{2,}/`, where `.` is one UTF-16 code unit

  const CommonPatterns: seq<Pattern> := [LeadingOneTwoThree, LeadingAbc, ContainsPassword, LeadingQwerty, RepeatedLead]

  /** The characters `.` does not match. */
  predicate IsLineTerminator(c: char)
  {
    c == '\n' || c == '\r' || c == '\U{2028}' || c == '\U{2029}'
  }

  /**
   * Whether the pattern's regular expression finds a match in `s`. The
   * expressions have no `u` flag, so they read code units: a character
   * above U+FFFF is a surrogate pair and can never be repeated by `\1`.
   */
  predicate Matches(p: Pattern, s: string)
  {
    match p
    case LeadingOneTwoThree => "123" <= s
    case LeadingAbc => |s| >= 3 && Text.Lower(s[..3]) == "abc"
    case ContainsPassword => Text.Contains(Text.Lower(s), "password")
    case LeadingQwerty => |s| >= 6 && Text.Lower(s[..6]) == "qwerty"
    case RepeatedLead => |s| >= 3 && Text.Units(s[0]) == 1 && !IsLineTerminator(s[0]) && s[1] == s[0] && s[2] == s[0]
  }

  /** Some common pattern matches. */
  predicate IsCommon(s: string)
  {
    exists k :: 0 <= k < |CommonPatterns| && Matches(CommonPatterns[k], s)
  }

  const CommonPatternError := "La contraseña contiene patrones comunes o débiles"
  const UseEight := "Usa al menos 8 caracteres para mayor seguridad"
  const AddLower := "Agrega letras minúsculas"
  const AddUpper := "Agrega letras mayúsculas"
  const AddNumber := "Agrega números"
  const AddSpecial := "Agrega caracteres especiales (!@#$%^&*)"

  datatype Report = Report(isValid: bool, strength: Strength, errors: seq<string>, suggestions: seq<string>)

  /** The suggestions for what the password lacks, in the order they are checked. */
  function Suggestions(s: string): seq<string>
  {
    (if Text.Utf16Length(s) < MinLength then [UseEight] else [])
    + (if HasLower(s) then [] else [AddLower])
    + (if HasUpper(s) then [] else [AddUpper])
    + (if HasDigit(s) then [] else [AddNumber])
    + (if HasSpecial(s) then [] else [AddSpecial])
  }

  /** The score: a point for the minimum length, the Password score, and a point off for a common pattern. */
  function PolicyScore(s: string): int
  {
    Flag(Text.Utf16Length(s) >= MinLength) + Score(s) - Flag(IsCommon(s))
  }

  /** What `validateStrength` reports, stated declaratively. */
  function ExpectedReport(s: string): Report
  {
    var errors := (if Text.Utf16Length(s) < MinLength then [TooShort] else []) + (if IsCommon(s) then [CommonPatternError] else []);
    var strength := Grade(PolicyScore(s));
    Report(errors == [] && Text.Utf16Length(s) >= MinLength, strength, errors, if strength == Strong then [] else Suggestions(s))
  }

  /** `validateStrength`: the step-by-step accumulator with its pattern loop. */
  method ValidateStrength(password: string) returns (r: Report)
    ensures r == ExpectedReport(password)
  {
    var errors: seq<string> := [];
    var score, suggestions := ScoreAndSuggest(password);
    if Text.Utf16Length(password) < 6 {
      errors := errors + [TooShort];
    }
    var found := FindCommonPattern(password);
    if found {
      score := score - 1;
      errors := errors + [CommonPatternError];
    }
    var strength: Strength;
    if score <= 2 {
      strength := Weak;
    } else if score <= 4 {
      strength := Medium;
    } else {
      strength := Strong;
    }
    r := Report(|errors| == 0 && Text.Utf16Length(password) >= 6, strength, errors, if strength == Strong then [] else suggestions);
  }

  /** The length and character-class checks of `validateStrength`: the points they earn and the tips they add, in order. */
  method ScoreAndSuggest(password: string) returns (score: int, suggestions: seq<string>)
    ensures score == Flag(Text.Utf16Length(password) >= MinLength) + Score(password)
    ensures suggestions == Suggestions(password)
  {
    suggestions := [];
    score := 0;
    if Text.Utf16Length(password) < 6 {
      suggestions := suggestions + [UseEight];
    } else {
      score := score + 1;
    }
    ghost var expected := if Text.Utf16Length(password) < MinLength then [UseEight] else [];
    assert suggestions == expected && score == Flag(Text.Utf16Length(password) >= MinLength);
    if Text.Utf16Length(password) >= 8 { score := score + 1; }
    if Text.Utf16Length(password) >= 12 { score := score + 1; }
    if HasLower(password) { score := score + 1; } else { suggestions := suggestions + [AddLower]; }
    expected := expected + (if HasLower(password) then [] else [AddLower]);
    assert suggestions == expected;
    if HasUpper(password) { score := score + 1; } else { suggestions := suggestions + [AddUpper]; }
    expected := expected + (if HasUpper(password) then [] else [AddUpper]);
    assert suggestions == expected;
    if HasDigit(password) { score := score + 1; } else { suggestions := suggestions + [AddNumber]; }
    expected := expected + (if HasDigit(password) then [] else [AddNumber]);
    assert suggestions == expected;
    if HasSpecial(password) { score := score + 1; } else { suggestions := suggestions + [AddSpecial]; }
    expected := expected + (if HasSpecial(password) then [] else [AddSpecial]);
  }

  /** The loop over the common patterns, which stops at the first match. */
  method FindCommonPattern(password: string) returns (found: bool)
    ensures found <==> IsCommon(password)
  {
    found := false;
    var i := 0;
    while i < |CommonPatterns|
      invariant 0 <= i <= |CommonPatterns|
      invariant forall k :: 0 <= k < i ==> !Matches(CommonPatterns[k], password)
    {
      if Matches(CommonPatterns[i], password) {
        found := true;
        break;
      }
      i := i + 1;
    }
  }

  /**
   * Three emoji make a six-unit password: the constructor accepts it, and
   * the repeated-character pattern does not see a repeated character.
   */
  lemma ThreeEmojiPassword()
    ensures NewPassword("\U{1F600}\U{1F600}\U{1F600}", false).Ok?
    ensures !Matches(RepeatedLead, "\U{1F600}\U{1F600}\U{1F600}")
  {
    var e := "\U{1F600}\U{1F600}\U{1F600}";
    Text.Utf16LengthAppend("\U{1F600}", "\U{1F600}\U{1F600}");
    Text.TwoEmojiAreFourUnits();
    assert e == "\U{1F600}" + "\U{1F600}\U{1F600}";
    assert "\U{1F600}"[1..] == [];
  }

  /** The fixed list of compromised passwords. */
  const CommonPasswords: seq<string> := [
    "123456", "password", "12345678", "qwerty", "123456789", "12345", "1234", "111111",
    "1234567", "dragon", "123123", "baseball", "iloveyou", "trustno1", "1234567890", "sunshine",
    "master", "welcome", "shadow", "ashley", "football", "jesus", "michael", "ninja",
    "mustang", "password1"]

  /** `isCompromised`: the lower-cased password is on the list. */
  predicate IsCompromised(password: string)
  {
    Text.Lower(password) in CommonPasswords
  }

  // ---------------------------------------------------------------------
  // Properties

  /** The report is valid exactly when the password has the minimum length and no common pattern. */
  lemma ValidIff(s: string)
    ensures ExpectedReport(s).isValid <==> Text.Utf16Length(s) >= MinLength && !IsCommon(s)
  {
  }

  /** A short password always carries the length error and is never valid. */
  lemma ShortIsInvalid(s: string)
    requires Text.Utf16Length(s) < MinLength
    ensures !ExpectedReport(s).isValid && ExpectedReport(s).errors[0] == TooShort
  {
  }

  /** There are at most two errors, and a common pattern contributes exactly one. */
  lemma AtMostTwoErrors(s: string)
    ensures |ExpectedReport(s).errors| <= 2
    ensures IsCommon(s) <==> CommonPatternError in ExpectedReport(s).errors
  {
    var e := ExpectedReport(s).errors;
    if !IsCommon(s) {
      assert forall k :: 0 <= k < |e| ==> e[k] == TooShort;
      assert TooShort != CommonPatternError by { assert TooShort[14] != CommonPatternError[14]; }
    }
  }

  /** A strong report has no suggestions; any other lists one per missing requirement. */
  lemma SuggestionsOnlyWhenNotStrong(s: string)
    ensures ExpectedReport(s).strength == Strong ==> ExpectedReport(s).suggestions == []
    ensures ExpectedReport(s).strength != Strong ==> ExpectedReport(s).suggestions == Suggestions(s)
  {
  }

  /** A matching common pattern lowers the grade by one point relative to the same password without it. */
  lemma CommonCostsOnePoint(s: string)
    ensures PolicyScore(s) == Flag(Text.Utf16Length(s) >= MinLength) + Score(s) - (if IsCommon(s) then 1 else 0)
    ensures -1 <= PolicyScore(s) <= 7
  {
  }

  /** Whether a password is compromised does not depend on letter case. */
  lemma CompromisedIgnoresCase(s: string)
    ensures IsCompromised(s) <==> IsCompromised(Text.Lower(s))
  {
    Text.LowerIdempotent(s);
  }

  /** The word "password" in any letter case is a common pattern. */
  lemma PasswordWordIsCommon(pre: string, word: string, post: string)
    requires Text.Lower(word) == "password"
    ensures IsCommon(pre + word + post)
  {
    var s := pre + word + post;
    Text.LowerAppend(pre, word);
    Text.LowerAppend(pre + word, post);
    var l := Text.Lower(s);
    assert l == Text.Lower(pre) + "password" + Text.Lower(post);
    assert "password" <= l[|pre|..];
    assert Matches(CommonPatterns[2], s);
  }
}
