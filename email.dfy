/**
 * The Email value object: trimmed, validated against the backend's pattern
 * and extra rules, then stored lower-cased.
 */
module EmailValue {
  import opened Outcomes
  import Text

  /** An address as stored: trimmed and lower-cased. */
  datatype Email = Email(value: string)

  const InvalidEmail := "Email inválido"

  /** The class `[a-zA-Z0-9._%+-]` of the local part. */
  predicate IsLocalChar(c: char)
  {
    Text.IsLetter(c) || Text.IsDigit(c) || c == '.' || c == '_' || c == '%' || c == '+' || c == '-'
  }

  /** The class `[a-zA-Z0-9.-]` of the domain's head. */
  predicate IsDomainChar(c: char)
  {
    Text.IsLetter(c) || Text.IsDigit(c) || c == '.' || c == '-'
  }

  predicate AllLocal(s: string) { forall i :: 0 <= i < |s| ==> IsLocalChar(s[i]) }

  predicate AllDomain(s: string) { forall i :: 0 <= i < |s| ==> IsDomainChar(s[i]) }

  predicate AllLetters(s: string) { forall i :: 0 <= i < |s| ==> Text.IsLetter(s[i]) }

  /**
   * `[a-zA-Z0-9.-]+\.[a-zA-Z]{2,}$`: some '.' cuts the domain into a non-empty
   * head of domain characters and a tail of at least two letters.
   */
  predicate DomainPattern(d: string)
  {
    exists i :: 1 <= i <= |d| - 3 && DomainCut(d, i)
  }

  /** The conditions of the domain pattern with its last '.' at position `i`. */
  predicate DomainCut(d: string, i: int)
  {
    1 <= i <= |d| - 3 && d[i] == '.' && AllDomain(d[..i]) && AllLetters(d[i + 1..])
  }

  /** The whole pattern `^[a-zA-Z0-9._%+-]+@[a-zA-Z0-9.-]+\.[a-zA-Z]{2,}$`. */
  predicate Pattern(e: string)
  {
    exists j :: 1 <= j < |e| && AddressCut(e, j)
  }

  /** The conditions of the whole pattern with its '@' at position `j`. */
  predicate AddressCut(e: string, j: int)
  {
    1 <= j < |e| && e[j] == '@' && AllLocal(e[..j]) && DomainPattern(e[j + 1..])
  }

  /** `s.includes('..')`. */
  predicate HasDoubleDot(s: string)
  {
    exists i :: 0 <= i < |s| - 1 && s[i] == '.' && s[i + 1] == '.'
  }

  /** `isValid`: the pattern, then the checks on the two parts split at '@'. */
  predicate IsValidAddress(e: string)
  {
    e != [] && Pattern(e)
    && var parts := Text.Split(e, '@');
    |parts| == 2
    && 1 <= |parts[0]| <= 64 && 1 <= |parts[1]| <= 255
    && parts[0][0] != '.' && parts[0][|parts[0]| - 1] != '.'
    && !HasDoubleDot(parts[0])
  }

  /** The Email constructor: trim, validate, lower-case. */
  function NewEmail(raw: string): (r: Result<Email>)
    ensures r.Ok? <==> IsValidAddress(Text.Trim(raw))
    ensures r.Ok? ==> r.value.value == Text.Lower(Text.Trim(raw))
    ensures r.Err? ==> r.failure == Failed(InvalidEmail)
  {
    var trimmed := Text.Trim(raw);
    if IsValidAddress(trimmed) then Ok(Email(Text.Lower(trimmed))) else Err(Failed(InvalidEmail))
  }

  /** `getLocalPart`: the text before '@'. */
  function LocalPart(e: Email): string
  {
    Text.Split(e.value, '@')[0]
  }

  /** `getDomain`: the text after '@'. */
  function Domain(e: Email): string
    requires |Text.Split(e.value, '@')| >= 2
  {
    Text.Split(e.value, '@')[1]
  }

  /** `equals`: same stored value. */
  predicate Equals(a: Email, b: Email)
  {
    a.value == b.value
  }

  /** `toMasked`: at most three leading characters of the local part, then "***@" and the domain. */
  function Masked(e: Email): (r: string)
    requires |Text.Split(e.value, '@')| >= 2 && LocalPart(e) != []
  {
    var local := LocalPart(e);
    var domain := Domain(e);
    if |local| <= 3 then [local[0]] + "***@" + domain
    else local[..3] + "***@" + domain
  }

  // ---------------------------------------------------------------------
  // The trailing-letter-run reading of the domain pattern

  /** The length of the run of letters that ends the string. */
  function LetterRun(d: string): (n: nat)
    ensures n <= |d|
    ensures forall k :: |d| - n <= k < |d| ==> Text.IsLetter(d[k])
    ensures n < |d| ==> !Text.IsLetter(d[|d| - n - 1])
  {
    if d == [] || !Text.IsLetter(d[|d| - 1]) then 0
    else LetterRun(d[..|d| - 1]) + 1
  }

  /** A suffix of letters is never longer than the trailing letter run. */
  lemma {:induction false} LetterRunCovers(d: string, k: nat)
    requires k <= |d|
    requires forall m :: |d| - k <= m < |d| ==> Text.IsLetter(d[m])
    ensures LetterRun(d) >= k
  {
    if k > 0 {
      var d' := d[..|d| - 1];
      forall m | |d'| - (k - 1) <= m < |d'| ensures Text.IsLetter(d'[m]) {
        assert d'[m] == d[m];
      }
      LetterRunCovers(d', k - 1);
    }
  }

  /**
   * The domain pattern holds exactly when the trailing letter run has at
   * least two letters, a '.' precedes it, and a non-empty head of domain
   * characters precedes that: the backtracking of the pattern has only one
   * place to put the last '.'.
   */
  predicate DomainMatches(d: string)
  {
    var n := LetterRun(d);
    n >= 2 && |d| >= n + 2 && d[|d| - n - 1] == '.' && AllDomain(d[..|d| - n - 1])
  }

  lemma DomainPatternIff(d: string)
    ensures DomainPattern(d) <==> DomainMatches(d)
  {
    var n := LetterRun(d);
    if DomainMatches(d) {
      var i := |d| - n - 1;
      var tail := d[i + 1..];
      assert AllLetters(tail) by {
        forall m | 0 <= m < |tail| ensures Text.IsLetter(tail[m]) {
          assert tail[m] == d[i + 1 + m];
        }
      }
      assert DomainCut(d, i);
    }
    if DomainPattern(d) {
      var i :| 1 <= i <= |d| - 3 && DomainCut(d, i);
      forall m | |d| - (|d| - i - 1) <= m < |d| ensures Text.IsLetter(d[m]) {
        assert d[m] == d[i + 1..][m - i - 1];
      }
      LetterRunCovers(d, |d| - i - 1);
      assert !Text.IsLetter(d[i]);
      assert n == |d| - i - 1;
    }
  }

  // ---------------------------------------------------------------------
  // The pattern admits exactly one '@'

  lemma NoAtInLocal(s: string)
    requires AllLocal(s)
    ensures !Text.Has(s, '@')
  {
    forall i | 0 <= i < |s| ensures s[i] != '@' {
      assert IsLocalChar(s[i]);
    }
  }

  lemma NoAtInDomain(d: string)
    requires DomainPattern(d)
    ensures !Text.Has(d, '@')
  {
    var i :| 1 <= i <= |d| - 3 && DomainCut(d, i);
    forall m | 0 <= m < |d| ensures d[m] != '@' {
      if m < i {
        assert IsDomainChar(d[..i][m]);
      } else if m > i {
        assert Text.IsLetter(d[i + 1..][m - i - 1]);
      }
    }
  }

  /** The parts the pattern sees, and the conditions it puts on them. */
  predicate SplitShape(e: string)
  {
    var parts := Text.Split(e, '@');
    |parts| == 2 && parts[0] != [] && AllLocal(parts[0]) && DomainPattern(parts[1])
  }

  lemma PatternGivesSplit(e: string)
    requires Pattern(e)
    ensures SplitShape(e)
  {
    var j :| 1 <= j < |e| && AddressCut(e, j);
    var local, domain := e[..j], e[j + 1..];
    NoAtInLocal(local);
    NoAtInDomain(domain);
    Text.SplitNone(domain, '@');
    assert e == local + ['@'] + domain;
    Text.SplitAt(local, domain, '@');
    assert Text.Split(e, '@') == [local, domain];
  }

  lemma SplitGivesPattern(e: string)
    requires SplitShape(e)
    ensures Pattern(e)
  {
    var parts := Text.Split(e, '@');
    Text.SplitJoin(e, '@');
    assert Text.Join(parts, "@") == parts[0] + "@" + parts[1];
    var j := |parts[0]|;
    assert e[..j] == parts[0];
    assert e[j + 1..] == parts[1];
    assert AddressCut(e, j);
  }

  /**
   * An address matches the pattern exactly when splitting it at '@' gives
   * two parts, a non-empty local part of local characters and a domain that
   * matches the domain pattern. So the later `parts.length !== 2` check
   * never rejects an address the pattern accepted.
   */
  lemma PatternBySplit(e: string)
    ensures Pattern(e) <==> SplitShape(e)
  {
    if Pattern(e) { PatternGivesSplit(e); }
    if SplitShape(e) { SplitGivesPattern(e); }
  }

  // ---------------------------------------------------------------------
  // Lower-casing keeps an address valid, so the stored value is valid too

  /** Lower-casing one character keeps it in each class the rules test. */
  lemma LowerCharClasses(c: char)
    ensures IsLocalChar(Text.LowerChar(c)) <==> IsLocalChar(c)
    ensures IsDomainChar(Text.LowerChar(c)) <==> IsDomainChar(c)
    ensures Text.IsLetter(Text.LowerChar(c)) <==> Text.IsLetter(c)
    ensures Text.LowerChar(c) == '@' <==> c == '@'
    ensures Text.LowerChar(c) == '.' <==> c == '.'
    ensures Text.IsSpace(Text.LowerChar(c)) <==> Text.IsSpace(c)
  {
  }

  /** Splitting a lower-cased string at '@' gives the lower-cased pieces. */
  lemma {:induction false} SplitLower(s: string)
    ensures |Text.Split(Text.Lower(s), '@')| == |Text.Split(s, '@')|
    ensures forall k :: 0 <= k < |Text.Split(s, '@')| ==>
      Text.Split(Text.Lower(s), '@')[k] == Text.Lower(Text.Split(s, '@')[k])
    decreases |s|
  {
    if s != [] {
      var l := Text.Lower(s);
      assert l[1..] == Text.Lower(s[1..]);
      LowerCharClasses(s[0]);
      SplitLower(s[1..]);
      var rest := Text.Split(s[1..], '@');
      if s[0] != '@' {
        Text.LowerAppend([s[0]], rest[0]);
      }
    }
  }

  lemma LowerAllLocal(s: string)
    ensures AllLocal(Text.Lower(s)) <==> AllLocal(s)
  {
    forall i | 0 <= i < |s| { LowerCharClasses(s[i]); }
  }

  lemma LowerSlice(s: string, a: nat, b: nat)
    requires a <= b <= |s|
    ensures Text.Lower(s)[a..b] == Text.Lower(s[a..b])
  {
  }

  lemma LowerAllDomain(s: string)
    ensures AllDomain(Text.Lower(s)) <==> AllDomain(s)
  {
    forall i | 0 <= i < |s| { LowerCharClasses(s[i]); }
  }

  lemma LowerAllLetters(s: string)
    ensures AllLetters(Text.Lower(s)) <==> AllLetters(s)
  {
    forall i | 0 <= i < |s| { LowerCharClasses(s[i]); }
  }

  lemma LowerDomainCut(d: string, i: int)
    ensures DomainCut(Text.Lower(d), i) <==> DomainCut(d, i)
  {
    if 1 <= i <= |d| - 3 {
      var l := Text.Lower(d);
      LowerCharClasses(d[i]);
      LowerSlice(d, 0, i);
      LowerSlice(d, i + 1, |d|);
      assert l[..i] == l[0..i] && d[..i] == d[0..i];
      assert l[i + 1..] == l[i + 1..|d|] && d[i + 1..] == d[i + 1..|d|];
      LowerAllDomain(d[..i]);
      LowerAllLetters(d[i + 1..]);
    }
  }

  lemma LowerDomainPattern(d: string)
    ensures DomainPattern(Text.Lower(d)) <==> DomainPattern(d)
  {
    var l := Text.Lower(d);
    if DomainPattern(d) {
      var i :| 1 <= i <= |d| - 3 && DomainCut(d, i);
      LowerDomainCut(d, i);
      assert DomainCut(l, i);
    }
    if DomainPattern(l) {
      var i :| DomainCut(l, i);
      LowerDomainCut(d, i);
      assert DomainCut(d, i);
    }
  }

  lemma LowerDoubleDot(s: string)
    ensures HasDoubleDot(Text.Lower(s)) <==> HasDoubleDot(s)
  {
    forall i | 0 <= i < |s| { LowerCharClasses(s[i]); }
  }

  /** Validity does not depend on letter case. */
  lemma LowerKeepsValidity(t: string)
    ensures IsValidAddress(Text.Lower(t)) <==> IsValidAddress(t)
  {
    var l := Text.Lower(t);
    var parts := Text.Split(t, '@');
    var lparts := Text.Split(l, '@');
    SplitLower(t);
    PatternBySplit(t);
    PatternBySplit(l);
    LowerAllLocal(parts[0]);
    if |parts| == 2 {
      LowerDomainPattern(parts[1]);
      LowerDoubleDot(parts[0]);
      if parts[0] != [] {
        LowerCharClasses(parts[0][0]);
        LowerCharClasses(parts[0][|parts[0]| - 1]);
      }
    }
  }

  /** Lower-casing a trimmed string leaves it trimmed. */
  lemma LowerKeepsTrimmed(t: string)
    requires Text.Trim(t) == t
    ensures Text.Trim(Text.Lower(t)) == Text.Lower(t)
  {
    Text.TrimShape(t);
    var l := Text.Lower(t);
    if t != [] {
      LowerCharClasses(t[0]);
      LowerCharClasses(t[|t| - 1]);
      Text.TrimOfTrimmed(l);
    }
  }

  /**
   * The stored value is itself an accepted input that normalises to itself:
   * building an Email again from `getValue()` gives the same Email.
   */
  lemma NormalisedRoundTrip(raw: string)
    requires NewEmail(raw).Ok?
    ensures IsValidAddress(NewEmail(raw).value.value)
    ensures NewEmail(NewEmail(raw).value.value) == NewEmail(raw)
  {
    var t := Text.Trim(raw);
    Text.TrimIdempotent(raw);
    LowerKeepsValidity(t);
    LowerKeepsTrimmed(t);
    Text.LowerIdempotent(t);
  }

  /** Two inputs that differ only in letter case and surrounding white space give equal Emails. */
  lemma EqualsIgnoresCase(a: string, b: string)
    requires NewEmail(a).Ok?
    requires Text.Lower(Text.Trim(a)) == Text.Lower(Text.Trim(b))
    ensures NewEmail(b).Ok? && Equals(NewEmail(a).value, NewEmail(b).value)
  {
    LowerKeepsValidity(Text.Trim(a));
    LowerKeepsValidity(Text.Trim(b));
  }

  /** `getLocalPart() + "@" + getDomain()` rebuilds the stored value, and both parts are non-empty. */
  lemma PartsRebuildValue(raw: string)
    requires NewEmail(raw).Ok?
    ensures var e := NewEmail(raw).value;
      |Text.Split(e.value, '@')| == 2
      && LocalPart(e) != [] && Domain(e) != []
      && LocalPart(e) + "@" + Domain(e) == e.value
  {
    var e := NewEmail(raw).value;
    NormalisedRoundTrip(raw);
    Text.SplitJoin(e.value, '@');
  }

  /** Masking shows one character of a short local part, three of a longer one, and keeps the domain. */
  lemma MaskedParts(e: Email)
    requires |Text.Split(e.value, '@')| >= 2 && LocalPart(e) != []
    ensures var k := if |LocalPart(e)| <= 3 then 1 else 3;
      var m := Masked(e);
      |m| == k + 4 + |Domain(e)|
      && m[..k] == LocalPart(e)[..k]
      && m[k..k + 4] == "***@"
      && m[k + 4..] == Domain(e)
  {
    var local, domain := LocalPart(e), Domain(e);
    var k := if |local| <= 3 then 1 else 3;
    assert Masked(e) == local[..k] + "***@" + domain;
  }

  /** Every Email the constructor builds can be masked. */
  lemma MaskedDefined(raw: string)
    requires NewEmail(raw).Ok?
    ensures |Text.Split(NewEmail(raw).value.value, '@')| == 2 && LocalPart(NewEmail(raw).value) != []
  {
    PartsRebuildValue(raw);
  }
}
