/**
 * The Phone value object: a Mexican ten-digit number, stored without
 * separators, with display formatters.
 */
module PhoneValue {
  import opened Outcomes
  import Text

  /** A phone number as stored: its cleaned ten-digit text. */
  datatype Phone = Phone(value: string)

  const InvalidPhone := "El teléfono debe tener 10 dígitos"

  /** The separators the constructor strips: white space, '-', '(', ')' and '+'. */
  predicate IsSeparator(c: char)
  {
    Text.IsSpace(c) || c == '-' || c == '(' || c == ')' || c == '+'
  }

  /** `cleanPhone`: drops every separator and keeps the other characters in order. */
  function Clean(s: string): (r: string)
    ensures |r| <= |s|
    ensures forall i :: 0 <= i < |r| ==> !IsSeparator(r[i])
  {
    Text.Remove(s, IsSeparator)
  }

  /** Every character of `s` equals its first one. */
  predicate AllSame(s: string)
  {
    forall i :: 0 <= i < |s| ==> s[i] == s[0]
  }

  /** `isValid` on a cleaned string: ten ASCII digits, not all alike, not starting with '0'. */
  predicate IsValidNumber(s: string)
  {
    |s| == 10 && Text.AllDigits(s) && !AllSame(s) && s[0] != '0'
  }

  /** The Phone constructor: clean, then validate; the cleaned text is stored. */
  function NewPhone(raw: string): (r: Result<Phone>)
    ensures r.Ok? <==> IsValidNumber(Clean(raw))
    ensures r.Ok? ==> r.value.value == Clean(raw) && |r.value.value| == 10
    ensures r.Err? ==> r.failure == Failed(InvalidPhone)
  {
    var cleaned := Clean(raw);
    if IsValidNumber(cleaned) then Ok(Phone(cleaned)) else Err(Failed(InvalidPhone))
  }

  /** `getFormatted`: "(ddd) ddd-dddd". */
  function Formatted(p: Phone): string
    requires |p.value| == 10
  {
    "(" + p.value[..3] + ") " + p.value[3..6] + "-" + p.value[6..]
  }

  /** `getFormattedWithSpaces`: "ddd ddd dddd". */
  function FormattedWithSpaces(p: Phone): string
    requires |p.value| == 10
  {
    p.value[..3] + " " + p.value[3..6] + " " + p.value[6..]
  }

  /** `getFormattedWithDashes`: "ddd-ddd-dddd". */
  function FormattedWithDashes(p: Phone): string
    requires |p.value| == 10
  {
    p.value[..3] + "-" + p.value[3..6] + "-" + p.value[6..]
  }

  /** `toTelLink`: the value behind the Mexican country prefix. */
  function TelLink(p: Phone): (r: string)
    requires IsValidNumber(p.value)
    ensures |r| == 17 && r[..7] == "tel:+52" && r[7..] == p.value
  {
    "tel:+52" + p.value
  }

  /** `equals`: same stored value. */
  predicate Equals(p: Phone, q: Phone)
  {
    p.value == q.value
  }

  /** A cleaned, valid number has no separator left to strip. */
  lemma CleanValid(s: string)
    requires IsValidNumber(s)
    ensures Clean(s) == s
  {
    Text.RemoveNothing(s, IsSeparator);
  }

  /** Cleaning twice is cleaning once. */
  lemma CleanIdempotent(s: string)
    ensures Clean(Clean(s)) == Clean(s)
  {
    Text.RemoveNothing(Clean(s), IsSeparator);
  }

  lemma CleanAppend(a: string, b: string)
    ensures Clean(a + b) == Clean(a) + Clean(b)
  {
    Text.RemoveAppend(a, b, IsSeparator);
  }

  /** Digits are never separators, so cleaning keeps them. */
  lemma CleanDigits(a: string)
    requires Text.AllDigits(a)
    ensures Clean(a) == a
  {
    Text.RemoveNothing(a, IsSeparator);
  }

  /** A run of separators cleans to nothing. */
  lemma CleanSeparators(sep: string)
    requires forall i :: 0 <= i < |sep| ==> IsSeparator(sep[i])
    ensures Clean(sep) == []
  {
    Text.RemoveAll(sep, IsSeparator);
  }

  /** A number laid out as three digit groups between separator runs cleans to the three groups joined. */
  lemma CleanPieces(pre: string, a: string, sepA: string, b: string, sepB: string, c: string)
    requires forall i :: 0 <= i < |pre| ==> IsSeparator(pre[i])
    requires forall i :: 0 <= i < |sepA| ==> IsSeparator(sepA[i])
    requires forall i :: 0 <= i < |sepB| ==> IsSeparator(sepB[i])
    requires Text.AllDigits(a) && Text.AllDigits(b) && Text.AllDigits(c)
    ensures Clean(pre + a + sepA + b + sepB + c) == a + b + c
  {
    CleanSeparators(pre);
    CleanSeparators(sepA);
    CleanSeparators(sepB);
    CleanDigits(a);
    CleanDigits(b);
    CleanDigits(c);
    CleanAppend(pre, a);
    assert Clean(pre + a) == a;
    CleanAppend(pre + a, sepA);
    assert Clean(pre + a + sepA) == a;
    CleanAppend(pre + a + sepA, b);
    assert Clean(pre + a + sepA + b) == a + b;
    CleanAppend(pre + a + sepA + b, sepB);
    assert Clean(pre + a + sepA + b + sepB) == a + b;
    CleanAppend(pre + a + sepA + b + sepB, c);
  }

  /** Building a Phone from its "(ddd) ddd-dddd" form gives the same phone back. */
  lemma FormattedRoundTrip(p: Phone)
    requires IsValidNumber(p.value)
    ensures NewPhone(Formatted(p)) == Ok(p)
  {
    var v := p.value;
    CleanPieces("(", v[..3], ") ", v[3..6], "-", v[6..]);
    assert v[..3] + v[3..6] + v[6..] == v;
  }

  /** Building a Phone from its "ddd ddd dddd" form gives the same phone back. */
  lemma SpacedRoundTrip(p: Phone)
    requires IsValidNumber(p.value)
    ensures NewPhone(FormattedWithSpaces(p)) == Ok(p)
  {
    var v := p.value;
    CleanPieces("", v[..3], " ", v[3..6], " ", v[6..]);
    assert "" + v[..3] == v[..3];
    assert v[..3] + v[3..6] + v[6..] == v;
  }

  /** Building a Phone from its "ddd-ddd-dddd" form gives the same phone back. */
  lemma DashedRoundTrip(p: Phone)
    requires IsValidNumber(p.value)
    ensures NewPhone(FormattedWithDashes(p)) == Ok(p)
  {
    var v := p.value;
    CleanPieces("", v[..3], "-", v[3..6], "-", v[6..]);
    assert "" + v[..3] == v[..3];
    assert v[..3] + v[3..6] + v[6..] == v;
  }

  /** Two accepted inputs give equal phones exactly when they clean to the same digits. */
  lemma EqualsIffSameDigits(a: string, b: string)
    requires NewPhone(a).Ok? && NewPhone(b).Ok?
    ensures Equals(NewPhone(a).value, NewPhone(b).value) <==> Clean(a) == Clean(b)
  {
  }
}
