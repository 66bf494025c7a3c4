/**
 * String work done by the route handlers: the slug derivation
 * `name.toLowerCase().replace(/\s+/g, '-')` and `Date.now().toString()`
 * for new identifiers (app/api/categories/route.ts:18-20,
 * app/api/weapons/route.ts:18-20).
 *
 * `toLowerCase` is Unicode library behaviour and is passed in as a function;
 * the `\s` class is written out as ECMAScript defines it.
 */
module Text {
  import opened Types

  /** JavaScript truthiness of an optional string: present and not empty. */
  predicate Truthy(s: Option<string>) {
    s.Some? && s.value != ""
  }

  /** The characters of the regular-expression class `\s` (ECMAScript WhiteSpace and LineTerminator). */
  predicate IsSpace(c: char) {
    || c == '\t' || c == '\n' || c == '\U{000B}' || c == '\U{000C}' || c == '\r'
    || c == ' ' || c == '\U{00A0}' || c == '\U{1680}'
    || ('\U{2000}' <= c <= '\U{200A}')
    || c == '\U{2028}' || c == '\U{2029}' || c == '\U{202F}' || c == '\U{205F}'
    || c == '\U{3000}' || c == '\U{FEFF}'
  }

  predicate NoSpace(s: string) {
    forall i :: 0 <= i < |s| ==> !IsSpace(s[i])
  }

  /** The length of the whitespace run at the start of `s`. */
  function LeadingSpaces(s: string): (n: nat)
    ensures n <= |s|
    ensures forall i :: 0 <= i < n ==> IsSpace(s[i])
    ensures n < |s| ==> !IsSpace(s[n])
  {
    if s == [] || !IsSpace(s[0]) then 0 else 1 + LeadingSpaces(s[1..])
  }

  /** `s.replace(/\s+/g, '-')`: every maximal whitespace run becomes one `-`. */
  function ReplaceWhitespaceRuns(s: string): (r: string)
    ensures NoSpace(r)
    ensures |r| <= |s|
    decreases |s|
  {
    if s == [] then []
    else if IsSpace(s[0]) then "-" + ReplaceWhitespaceRuns(s[LeadingSpaces(s)..])
    else [s[0]] + ReplaceWhitespaceRuns(s[1..])
  }

  /** A string without whitespace is left as it is. */
  lemma {:induction false} ReplaceKeepsSpaceFree(s: string)
    requires NoSpace(s)
    ensures ReplaceWhitespaceRuns(s) == s
  {
    if s != [] {
      ReplaceKeepsSpaceFree(s[1..]);
    }
  }

  lemma {:induction false} LeadingSpacesAppend(a: string, b: string)
    ensures LeadingSpaces(a + b) == if LeadingSpaces(a) < |a| then LeadingSpaces(a) else |a| + LeadingSpaces(b)
  {
    if a == [] {
      assert a + b == b;
    } else if IsSpace(a[0]) {
      assert (a + b)[1..] == a[1..] + b;
      LeadingSpacesAppend(a[1..], b);
    }
  }

  /** Replacing runs commutes with concatenation unless the cut falls inside a whitespace run. */
  lemma {:induction false} ReplaceAppend(a: string, b: string)
    requires a == [] || b == [] || !IsSpace(a[|a| - 1]) || !IsSpace(b[0])
    ensures ReplaceWhitespaceRuns(a + b) == ReplaceWhitespaceRuns(a) + ReplaceWhitespaceRuns(b)
    decreases |a|
  {
    if a == [] {
      assert a + b == b;
    } else if !IsSpace(a[0]) {
      assert (a + b)[1..] == a[1..] + b;
      ReplaceAppend(a[1..], b);
    } else {
      var k := LeadingSpaces(a);
      LeadingSpacesAppend(a, b);
      if k == |a| {
        assert (a + b)[k..] == b;
        assert a[k..] == [];
      } else {
        assert (a + b)[k..] == a[k..] + b;
        ReplaceAppend(a[k..], b);
      }
    }
  }

  /** A whitespace run followed by a non-space (or nothing) becomes one `-`. */
  lemma {:induction false} LeadingRunBecomesDash(w: string, b: string)
    requires |w| > 0 && forall i :: 0 <= i < |w| ==> IsSpace(w[i])
    requires b == [] || !IsSpace(b[0])
    ensures ReplaceWhitespaceRuns(w + b) == "-" + ReplaceWhitespaceRuns(b)
  {
    var wb := w + b;
    assert LeadingSpaces(w) == |w|;
    LeadingSpacesAppend(w, b);
    assert wb[0] == w[0];
    assert wb[LeadingSpaces(wb)..] == b;
  }

  /** A maximal whitespace run `w` between `a` and `b` turns into exactly one `-`. */
  lemma {:induction false} RunBecomesOneDash(a: string, w: string, b: string)
    requires |w| > 0 && forall i :: 0 <= i < |w| ==> IsSpace(w[i])
    requires a == [] || !IsSpace(a[|a| - 1])
    requires b == [] || !IsSpace(b[0])
    ensures ReplaceWhitespaceRuns(a + w + b) == ReplaceWhitespaceRuns(a) + "-" + ReplaceWhitespaceRuns(b)
  {
    var wb := w + b;
    assert a + w + b == a + wb;
    assert wb[0] == w[0];
    ReplaceAppend(a, wb);
    LeadingRunBecomesDash(w, b);
    var ra, rb := ReplaceWhitespaceRuns(a), ReplaceWhitespaceRuns(b);
    assert ra + ("-" + rb) == ra + "-" + rb;
  }

  /**
   * `body.slug || body.name.toLowerCase().replace(/\s+/g, '-')`: a truthy
   * slug is taken as given, otherwise it is derived from the lower-cased name.
   */
  function DeriveSlug(slug: Option<string>, name: string, lower: string -> string): (r: string)
    ensures Truthy(slug) ==> r == slug.value
    ensures !Truthy(slug) ==> NoSpace(r) && |r| <= |lower(name)|
  {
    if Truthy(slug) then slug.value else ReplaceWhitespaceRuns(lower(name))
  }

  /** A derived slug of a name whose lower-cased form has no whitespace is that lower-cased form. */
  lemma {:induction false} DerivedSlugOfOneWord(name: string, lower: string -> string)
    requires NoSpace(lower(name))
    ensures DeriveSlug(None, name, lower) == lower(name)
  {
    ReplaceKeepsSpaceFree(lower(name));
  }

  // ---- identifiers: Number.prototype.toString on an integer time ----

  predicate IsDigit(c: char) {
    '0' <= c <= '9'
  }

  predicate AllDigits(s: string) {
    forall i :: 0 <= i < |s| ==> IsDigit(s[i])
  }

  function DigitChar(d: nat): (c: char)
    requires d < 10
    ensures IsDigit(c)
  {
    ('0' as int + d) as char
  }

  /** The decimal numeral of `n`, without leading zeros. */
  function Digits(n: nat): (r: string)
    ensures |r| >= 1 && AllDigits(r)
    ensures |r| > 1 ==> r[0] != '0'
  {
    if n < 10 then [DigitChar(n)] else Digits(n / 10) + [DigitChar(n % 10)]
  }

  /** The value of a numeral (the reference reading of `Digits`). */
  function DigitsValue(s: string): nat
    requires AllDigits(s)
  {
    if s == [] then 0
    else DigitsValue(s[..|s| - 1]) * 10 + (s[|s| - 1] as int - '0' as int)
  }

  /** `String(t)` for an integral time stamp `t`. */
  function TimeToString(t: int): (r: string)
    ensures |r| >= 1
  {
    if t < 0 then "-" + Digits(-t) else Digits(t)
  }

  /** Reads back an optionally signed numeral. */
  function ParseInteger(s: string): Option<int> {
    if s != [] && s[0] == '-' then
      if |s| > 1 && AllDigits(s[1..]) then Some(-(DigitsValue(s[1..]) as int)) else None
    else if s != [] && AllDigits(s) then Some(DigitsValue(s))
    else None
  }

  lemma {:induction false} DigitsRoundTrip(n: nat)
    ensures DigitsValue(Digits(n)) == n
  {
    if n >= 10 {
      var s := Digits(n);
      assert s[..|s| - 1] == Digits(n / 10);
      DigitsRoundTrip(n / 10);
    }
  }

  /** Reading back the identifier made from a time gives that time. */
  lemma {:induction false} TimeToStringRoundTrip(t: int)
    ensures ParseInteger(TimeToString(t)) == Some(t)
  {
    if t < 0 {
      DigitsRoundTrip(-t);
      assert TimeToString(t)[1..] == Digits(-t);
    } else {
      DigitsRoundTrip(t);
    }
  }

  /** Identifiers made at different milliseconds differ, and only those. */
  lemma {:induction false} TimeIdsDistinct(t1: int, t2: int)
    ensures TimeToString(t1) == TimeToString(t2) <==> t1 == t2
  {
    TimeToStringRoundTrip(t1);
    TimeToStringRoundTrip(t2);
  }
}
