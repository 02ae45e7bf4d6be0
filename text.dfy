/**
 * The parts of Go's `strings` and `strconv` packages that the derivation
 * rules call: `strings.TrimSpace`, `strings.Contains` and `strconv.Atoi`.
 * `Itoa`, the usual decimal spelling of an integer, is not called by the
 * rules; it is here to state what `Atoi` reads back. Strings are sequences of Unicode code points; for
 * valid UTF-8 the byte-level operations of Go agree with these.
 */
module Text {
  import opened Wrappers

  /** `unicode.IsSpace`: the characters `strings.TrimSpace` removes. */
  predicate IsSpace(c: char) {
    || c == ' ' || c == '\t' || c == '\n' || c == '\U{000B}' || c == '\U{000C}' || c == '\r'
    || c == '\U{0085}' || c == '\U{00A0}' || c == '\U{1680}'
    || ('\U{2000}' <= c <= '\U{200A}')
    || c == '\U{2028}' || c == '\U{2029}' || c == '\U{202F}' || c == '\U{205F}' || c == '\U{3000}'
  }

  predicate AllSpace(s: string) {
    forall k :: 0 <= k < |s| ==> IsSpace(s[k])
  }

  /** Neither starts nor ends with white space. */
  predicate Trimmed(s: string) {
    s == [] || (!IsSpace(s[0]) && !IsSpace(s[|s| - 1]))
  }

  /** `strings.Contains`: `sub` occurs somewhere in `s` (the empty string occurs everywhere). */
  predicate Contains(s: string, sub: string) {
    exists i: nat :: i <= |s| && OccursAt(s, sub, i)
  }

  predicate OccursAt(s: string, sub: string, i: nat) {
    i + |sub| <= |s| && s[i..i + |sub|] == sub
  }

  /** The first index at or after i that holds no white space. */
  function LeadEnd(s: string, i: nat): (k: nat)
    requires i <= |s|
    ensures i <= k <= |s| && (k == |s| || !IsSpace(s[k]))
    decreases |s| - i
  {
    if i < |s| && IsSpace(s[i]) then LeadEnd(s, i + 1) else i
  }

  /** The index after the last non-space character in s[a..j], or a when there is none. */
  function TrailStart(s: string, a: nat, j: nat): (k: nat)
    requires a <= j <= |s|
    ensures a <= k <= j && (k == a || !IsSpace(s[k - 1]))
    decreases j
  {
    if j > a && IsSpace(s[j - 1]) then TrailStart(s, a, j - 1) else j
  }

  lemma {:induction false} LeadIsSpace(s: string, i: nat)
    requires i <= |s|
    ensures forall x :: i <= x < LeadEnd(s, i) ==> IsSpace(s[x])
    decreases |s| - i
  {
    if i < |s| && IsSpace(s[i]) {
      LeadIsSpace(s, i + 1);
    }
  }

  lemma {:induction false} TrailIsSpace(s: string, a: nat, j: nat)
    requires a <= j <= |s|
    ensures forall x :: TrailStart(s, a, j) <= x < j ==> IsSpace(s[x])
    decreases j
  {
    if j > a && IsSpace(s[j - 1]) {
      TrailIsSpace(s, a, j - 1);
    }
  }

  /**
   * `strings.TrimSpace`: the piece of `s` left once leading and trailing white
   * space is gone. It is empty exactly for blank input, and it leaves a string
   * that is already trimmed as it is (so trimming twice is trimming once).
   */
  function TrimSpace(s: string): (r: string)
    ensures Trimmed(r)
    ensures r == [] <==> AllSpace(s)
    ensures Trimmed(s) ==> r == s
  {
    var a := LeadEnd(s, 0);
    var b := TrailStart(s, a, |s|);
    LeadIsSpace(s, 0);
    TrailIsSpace(s, a, |s|);
    assert a < |s| ==> b > a;
    s[a..b]
  }

  /** What trimming leaves is a piece of the original text. */
  lemma TrimSpaceInside(s: string)
    ensures Contains(s, TrimSpace(s))
  {
    assert OccursAt(s, TrimSpace(s), LeadEnd(s, 0));
  }

  lemma {:induction false} LeadOverPadding(t: string, pad: nat, i: nat)
    requires i <= pad <= |t| && (pad == |t| || !IsSpace(t[pad]))
    requires forall x :: 0 <= x < pad ==> IsSpace(t[x])
    ensures LeadEnd(t, i) == pad
    decreases pad - i
  {
    if i < pad {
      LeadOverPadding(t, pad, i + 1);
    }
  }

  lemma {:induction false} TrailOverPadding(t: string, a: nat, end: nat, j: nat)
    requires a <= end <= j <= |t| && (end == a || !IsSpace(t[end - 1]))
    requires forall x :: end <= x < |t| ==> IsSpace(t[x])
    ensures TrailStart(t, a, j) == end
    decreases j
  {
    if j > end {
      TrailOverPadding(t, a, end, j - 1);
    }
  }

  /** Trimming removes exactly the white-space padding around a trimmed text. */
  lemma TrimSpacePadding(pre: string, s: string, post: string)
    requires AllSpace(pre) && AllSpace(post) && Trimmed(s)
    ensures TrimSpace(pre + s + post) == s
  {
    var t := pre + s + post;
    forall x | 0 <= x < |t| && !(|pre| <= x < |pre| + |s|) ensures IsSpace(t[x]) {
      if x < |pre| { assert t[x] == pre[x]; } else { assert t[x] == post[x - |pre| - |s|]; }
    }
    if s == [] {
      assert AllSpace(t);
    } else {
      assert t[|pre|] == s[0] && t[|pre| + |s| - 1] == s[|s| - 1];
      LeadOverPadding(t, |pre|, 0);
      TrailOverPadding(t, |pre|, |pre| + |s|, |t|);
      assert t[|pre|..|pre| + |s|] == s;
    }
  }

  /** What occurs in a text still occurs in any text that extends it on either side. */
  lemma ContainsExtended(s: string, t: string, sub: string)
    requires Contains(s, sub)
    ensures Contains(s + t, sub) && Contains(t + s, sub)
  {
    var i :| 0 <= i <= |s| && OccursAt(s, sub, i);
    assert (s + t)[i..i + |sub|] == sub;
    assert OccursAt(s + t, sub, i);
    assert (t + s)[|t| + i..|t| + i + |sub|] == sub;
    assert OccursAt(t + s, sub, |t| + i);
  }

  /** Every character of an occurring text is a character of the text it occurs in. */
  lemma ContainsChar(s: string, sub: string, k: nat)
    requires Contains(s, sub) && k < |sub|
    ensures sub[k] in s
  {
    var i :| 0 <= i <= |s| && OccursAt(s, sub, i);
    assert s[i + k] == sub[k];
  }

  /** Containment is transitive: what occurs in an occurring text occurs in the whole. */
  lemma ContainsTransitive(s: string, sub: string, t: string)
    requires Contains(s, sub) && Contains(sub, t)
    ensures Contains(s, t)
  {
    var i :| 0 <= i <= |s| && OccursAt(s, sub, i);
    var j :| 0 <= j <= |sub| && OccursAt(sub, t, j);
    forall x | 0 <= x < |t| ensures s[i + j + x] == t[x] {
      assert s[i..i + |sub|][j + x] == sub[j + x];
    }
    assert s[i + j..i + j + |t|] == t;
    assert OccursAt(s, t, i + j);
  }

  /** A text missing one of a string's characters does not contain that string. */
  lemma MissingChar(s: string, sub: string, k: nat)
    requires k < |sub| && sub[k] !in s
    ensures !Contains(s, sub)
  {
    if Contains(s, sub) {
      ContainsChar(s, sub, k);
    }
  }

  // ---------------------------------------------------------------- integers

  /** Go regular expressions' `\d`: an ASCII digit. */
  predicate IsDigit(c: char) {
    '0' <= c <= '9'
  }

  predicate AllDigits(s: string) {
    forall k :: 0 <= k < |s| ==> IsDigit(s[k])
  }

  /** The number a string of decimal digits spells. */
  function DigitsValue(s: string): nat
    requires AllDigits(s)
  {
    if s == [] then 0
    else DigitsValue(s[..|s| - 1]) * 10 + (s[|s| - 1] as int - '0' as int)
  }

  function DigitChar(d: nat): (c: char)
    requires d < 10
    ensures IsDigit(c) && c as int - '0' as int == d
  {
    ('0' as int + d) as char
  }

  /** The shortest decimal spelling of a natural number. */
  function Decimal(n: nat): (r: string)
    ensures r != [] && AllDigits(r)
  {
    if n < 10 then [DigitChar(n)] else Decimal(n / 10) + [DigitChar(n % 10)]
  }

  lemma {:induction false} DecimalValue(n: nat)
    ensures DigitsValue(Decimal(n)) == n
  {
    if n >= 10 {
      var d := Decimal(n);
      assert d[..|d| - 1] == Decimal(n / 10);
      DecimalValue(n / 10);
    }
  }

  /** `strconv.Itoa`. */
  function Itoa(n: int): (r: string)
    ensures r != []
  {
    if n < 0 then "-" + Decimal(-n) else Decimal(n)
  }

  /** An optional sign followed by at least one ASCII digit, and nothing else. */
  predicate IntegerText(s: string) {
    (s != [] && AllDigits(s)) || (|s| >= 2 && (s[0] == '+' || s[0] == '-') && AllDigits(s[1..]))
  }

  /**
   * `strconv.Atoi`: an optional `+` or `-` followed by at least one ASCII digit,
   * nothing else (no white space, no underscores); leading zeros are allowed.
   */
  function Atoi(s: string): (r: Option<int>)
    ensures r.Some? <==> IntegerText(s)
    ensures s != [] && AllDigits(s) ==> r == Some(DigitsValue(s))
    ensures |s| >= 2 && s[0] == '+' && AllDigits(s[1..]) ==> r == Some(DigitsValue(s[1..]))
    ensures |s| >= 2 && s[0] == '-' && AllDigits(s[1..]) ==> r == Some(-(DigitsValue(s[1..]) as int))
  {
    if |s| >= 1 && (s[0] == '+' || s[0] == '-') then
      var digits := s[1..];
      if digits != [] && AllDigits(digits) then
        assert IsDigit(s[1]) by { assert s[1] == digits[0]; }
        var v: int := if s[0] == '-' then -(DigitsValue(digits) as int) else DigitsValue(digits);
        Some(v)
      else None
    else if s != [] && AllDigits(s) then Some(DigitsValue(s))
    else None
  }

  /** `strconv.Atoi` takes an explicit plus sign, leading zeros and a signed zero, and nothing around the number. */
  lemma AtoiForms()
    ensures Atoi("+5") == Some(5)
    ensures Atoi("007") == Some(7)
    ensures Atoi("-0") == Some(0)
    ensures Atoi("+") == None && Atoi(" 5") == None && Atoi("5 ") == None
  {
    assert "+5"[1..] == "5";
    assert "-0"[1..] == "0";
    assert "007"[..2] == "00" && "00"[..1] == "0";
    assert !IsDigit(" 5"[0]) && !IsDigit("5 "[1]);
  }

  /** Atoi reads back what Itoa writes. */
  lemma AtoiItoa(n: int)
    ensures Atoi(Itoa(n)) == Some(n)
  {
    if n < 0 {
      assert Itoa(n)[1..] == Decimal(-n);
      DecimalValue(-n);
    } else {
      DecimalValue(n);
    }
  }
}
