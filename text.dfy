/** Text helpers shared by the backend and the browser code: ASCII case
    folding, substring search, joining and decimal rendering of integers. */
module Text {
  import opened Wrappers

  /** Lower-cases one character; only the ASCII letters A-Z change. */
  function LowerChar(c: char): (r: char)
    ensures 'A' <= c <= 'Z' ==> r != c && 'a' <= r <= 'z'
    ensures !('A' <= c <= 'Z') ==> r == c
  {
    if 'A' <= c <= 'Z' then (c as int + 32) as char else c
  }

  /** `toLowerCase()` / `lower()` on text whose letters are ASCII. */
  function Lower(s: string): (r: string)
    ensures |r| == |s|
    ensures forall i :: 0 <= i < |s| ==> r[i] == LowerChar(s[i])
  {
    if s == [] then [] else [LowerChar(s[0])] + Lower(s[1..])
  }

  /** Lower-casing twice is lower-casing once. */
  lemma LowerIdempotent(s: string)
    ensures Lower(Lower(s)) == Lower(s)
  {
    assert forall i :: 0 <= i < |s| ==> LowerChar(LowerChar(s[i])) == LowerChar(s[i]);
  }

  /** True when `needle` occurs in `s` starting at position 0. */
  predicate StartsWith(s: string, needle: string) {
    |needle| <= |s| && s[..|needle|] == needle
  }

  /** `s.includes(needle)`: some suffix of `s` starts with `needle`. */
  predicate Includes(s: string, needle: string)
    decreases |s|
  {
    StartsWith(s, needle) || (s != [] && Includes(s[1..], needle))
  }

  /** `needle` occurs in `s` at position `i`. */
  predicate OccursAt(s: string, needle: string, i: int) {
    0 <= i <= |s| - |needle| && s[i..i + |needle|] == needle
  }

  /** An occurrence in `s[1..]` is an occurrence in `s`, one place later. */
  lemma OccursInTail(s: string, needle: string, j: int)
    requires s != [] && OccursAt(s[1..], needle, j)
    ensures OccursAt(s, needle, j + 1)
  {
    assert s[j + 1..j + 1 + |needle|] == s[1..][j..j + |needle|];
  }

  /** An occurrence in `s` after its first place is an occurrence in `s[1..]`. */
  lemma OccursInTailBack(s: string, needle: string, i: int)
    requires s != [] && 1 <= i && OccursAt(s, needle, i)
    ensures OccursAt(s[1..], needle, i - 1)
  {
    assert s[i..i + |needle|] == s[1..][i - 1..i - 1 + |needle|];
  }

  /** An occurrence in `s` without its last character is an occurrence in `s`. */
  lemma OccursInFront(s: string, needle: string, j: int)
    requires s != [] && OccursAt(s[..|s| - 1], needle, j)
    ensures OccursAt(s, needle, j)
  {
    assert s[j..j + |needle|] == s[..|s| - 1][j..j + |needle|];
  }

  /** The recursive search agrees with "there is a position where `needle` occurs". */
  lemma {:induction false} IncludesIffOccurs(s: string, needle: string)
    ensures Includes(s, needle) <==> exists i :: OccursAt(s, needle, i)
    decreases |s|
  {
    if StartsWith(s, needle) {
      assert OccursAt(s, needle, 0);
    } else if s == [] {
    } else {
      IncludesIffOccurs(s[1..], needle);
      if Includes(s[1..], needle) {
        var i :| OccursAt(s[1..], needle, i);
        OccursInTail(s, needle, i);
      } else {
        forall i | OccursAt(s, needle, i)
          ensures false
        {
          if i != 0 {
            OccursInTailBack(s, needle, i);
          }
        }
      }
    }
  }

  /** Every text includes the empty text, so an empty search term matches anything. */
  lemma {:induction false} IncludesEmpty(s: string)
    ensures Includes(s, "")
  {
    assert StartsWith(s, "");
  }

  /** `parts.join(sep)`. */
  function Join(parts: seq<string>, sep: string): (r: string)
    ensures parts == [] ==> r == ""
    ensures |parts| == 1 ==> r == parts[0]
  {
    if parts == [] then ""
    else if |parts| == 1 then parts[0]
    else parts[0] + sep + Join(parts[1..], sep)
  }

  /** With a non-empty separator a join is empty only when there is at most one piece and it is empty. */
  lemma {:induction false} JoinEmptyIffAllEmpty(parts: seq<string>, sep: string)
    requires sep != ""
    ensures Join(parts, sep) == "" <==> (|parts| == 0 || (|parts| == 1 && parts[0] == ""))
  {
    if |parts| > 1 {
      assert |Join(parts, sep)| >= |sep|;
    }
  }

  /** Python's `str.isspace()`: the characters `str.strip()` removes. */
  predicate IsSpace(c: char) {
    c == ' ' || ('\t' <= c <= '\r') || ('\U{1c}' <= c <= '\U{1f}')
    || c == '\U{85}' || c == '\U{a0}' || c == '\U{1680}' || ('\U{2000}' <= c <= '\U{200a}')
    || c == '\U{2028}' || c == '\U{2029}' || c == '\U{202f}' || c == '\U{205f}' || c == '\U{3000}'
  }

  /** Every character of `s` is whitespace. */
  predicate AllSpace(s: string) {
    forall i :: 0 <= i < |s| ==> IsSpace(s[i])
  }

  /** `s.strip()`, which DRF's `CharField` applies before any other check:
      leading and then trailing whitespace is removed one character at a time. */
  function Trim(s: string): (r: string)
    ensures |r| <= |s|
    ensures r == [] || (!IsSpace(r[0]) && !IsSpace(r[|r| - 1]))
    decreases |s|
  {
    if s != [] && IsSpace(s[0]) then Trim(s[1..])
    else if s != [] && IsSpace(s[|s| - 1]) then Trim(s[..|s| - 1])
    else s
  }

  /** Trimming finds nothing exactly when the text is all whitespace. */
  lemma {:induction false} TrimEmptyIffAllSpace(s: string)
    ensures Trim(s) == "" <==> AllSpace(s)
    decreases |s|
  {
    if s != [] && IsSpace(s[0]) {
      TrimEmptyIffAllSpace(s[1..]);
      assert AllSpace(s) <==> AllSpace(s[1..]) by {
        if AllSpace(s[1..]) {
          forall k | 0 <= k < |s|
            ensures IsSpace(s[k])
          {
            if k > 0 {
              assert s[k] == s[1..][k - 1];
            }
          }
        }
      }
    } else if s != [] && IsSpace(s[|s| - 1]) {
      var front := s[..|s| - 1];
      TrimEmptyIffAllSpace(front);
      assert AllSpace(s) <==> AllSpace(front) by {
        if AllSpace(front) {
          forall k | 0 <= k < |s|
            ensures IsSpace(s[k])
          {
            if k < |s| - 1 {
              assert s[k] == front[k];
            }
          }
        }
      }
    }
  }

  /** `Trim` removes characters only from the two ends: what it keeps occurs in `s`. */
  lemma {:induction false} TrimIsInner(s: string)
    ensures exists i :: OccursAt(s, Trim(s), i)
    decreases |s|
  {
    if s != [] && IsSpace(s[0]) {
      TrimIsInner(s[1..]);
      var j :| OccursAt(s[1..], Trim(s[1..]), j);
      OccursInTail(s, Trim(s[1..]), j);
      assert Trim(s) == Trim(s[1..]);
      assert OccursAt(s, Trim(s), j + 1);
    } else if s != [] && IsSpace(s[|s| - 1]) {
      TrimIsInner(s[..|s| - 1]);
      var j :| OccursAt(s[..|s| - 1], Trim(s[..|s| - 1]), j);
      OccursInFront(s, Trim(s[..|s| - 1]), j);
      assert Trim(s) == Trim(s[..|s| - 1]);
      assert OccursAt(s, Trim(s), j);
    } else {
      assert s[0..|s|] == s;
      assert OccursAt(s, Trim(s), 0);
    }
  }

  /** A trimmed text has nothing more to trim. */
  lemma {:induction false} TrimIdempotent(s: string)
    ensures Trim(Trim(s)) == Trim(s)
  {
  }

  function DigitChar(d: nat): (c: char)
    requires d < 10
    ensures '0' <= c <= '9' && c as int - '0' as int == d
  {
    "0123456789"[d]
  }

  /** Every character of `s` is a decimal digit. */
  predicate AllDigits(s: string) {
    forall i :: 0 <= i < |s| ==> '0' <= s[i] <= '9'
  }

  /** The number a string of decimal digits denotes, most significant digit first. */
  function DigitsValue(s: string): nat
    requires AllDigits(s)
  {
    if s == [] then 0 else DigitsValue(s[..|s| - 1]) * 10 + (s[|s| - 1] as int - '0' as int)
  }

  /** Decimal rendering of a natural number, as `str(n)` / `String(n)` give it:
      a non-empty string of digits that reads back as `n`, without a leading zero. */
  function NatToString(n: nat): (r: string)
    ensures r != [] && AllDigits(r)
    ensures DigitsValue(r) == n
    ensures |r| > 1 ==> r[0] != '0'
    decreases n
  {
    if n < 10 then [DigitChar(n)]
    else
      var front := NatToString(n / 10);
      var r := front + [DigitChar(n % 10)];
      assert r[..|r| - 1] == front;
      r
  }

  /** The two decimal digits of a number below 100, with a leading zero. */
  function TwoDigits(n: nat): (r: string)
    requires n < 100
    ensures |r| == 2 && AllDigits(r)
    ensures DigitsValue(r) == n
  {
    var r := [DigitChar(n / 10), DigitChar(n % 10)];
    assert r[..1] == [DigitChar(n / 10)];
    assert r[..1][..0] == [];
    assert DigitsValue(r[..1]) == n / 10;
    r
  }

  /** The cents an unsigned two-decimal text such as "12.50" denotes: digits,
      a point, then exactly two digits. */
  function UnsignedCents(b: string): Option<nat> {
    if |b| >= 4 && b[|b| - 3] == '.' && AllDigits(b[..|b| - 3]) && AllDigits(b[|b| - 2..])
    then Some(DigitsValue(b[..|b| - 3]) * 100 + DigitsValue(b[|b| - 2..]))
    else None
  }

  /** The unsigned two-decimal text of `m` cents: "12.50" for 1250, "0.05" for 5. */
  function UnsignedCentsText(m: nat): (b: string)
    ensures |b| >= 4 && b[0] != '-' && b[|b| - 3] == '.'
  {
    NatToString(m / 100) + "." + TwoDigits(m % 100)
  }

  /** The unsigned two-decimal text of `m` cents reads back as `m`. */
  lemma UnsignedCentsTextReadsBack(m: nat)
    ensures UnsignedCents(UnsignedCentsText(m)) == Some(m)
  {
    var whole := NatToString(m / 100);
    var cents := TwoDigits(m % 100);
    var b := whole + "." + cents;
    assert b[..|b| - 3] == whole;
    assert b[|b| - 2..] == cents;
    assert b[|b| - 3] == '.';
    assert m / 100 * 100 + m % 100 == m;
    assert UnsignedCents(b) == Some(m);
  }

  /** An amount of cents as a decimal with two places, the way a
      `DecimalField(decimal_places=2)` is rendered: `1250` is "12.50", `-5` is "-0.05".
      It starts with '-' exactly for a negative amount. */
  function CentsToText(cents: int): (r: string)
    ensures |r| >= 4 && r[|r| - 3] == '.'
    ensures (r[0] == '-') <==> cents < 0
  {
    if cents < 0 then "-" + UnsignedCentsText(-cents) else UnsignedCentsText(cents)
  }

  /** The cents a two-decimal text denotes when the browser reads it as a
      number (`"12.50" * 3`), with an optional leading '-'; `None` for any
      text not in that form. */
  function CentsOfText(t: string): Option<int> {
    if t != [] && t[0] == '-' then
      match UnsignedCents(t[1..])
      case Some(c) => Some(-(c as int))
      case None => None
    else
      match UnsignedCents(t)
      case Some(c) => Some(c)
      case None => None
  }

  /** The text a `DecimalField` is sent as reads back as the same amount. */
  lemma CentsTextRoundTrip(cents: int)
    ensures CentsOfText(CentsToText(cents)) == Some(cents)
  {
    var m: nat := if cents < 0 then -cents else cents;
    UnsignedCentsTextReadsBack(m);
    SignedCentsOfText(UnsignedCentsText(m), m);
  }

  /** An unsigned two-decimal text reads back as its cents, and with a '-'
      in front as their negation. */
  lemma SignedCentsOfText(b: string, m: nat)
    requires b != [] && b[0] != '-' && UnsignedCents(b) == Some(m)
    ensures CentsOfText(b) == Some(m)
    ensures CentsOfText("-" + b) == Some(-(m as int))
  {
    assert ("-" + b)[1..] == b;
  }



  /** Decimal rendering of an integer, with a leading '-' when negative;
      the digits after the sign read back as the magnitude. */
  function IntToString(i: int): (r: string)
    ensures r != []
    ensures (r[0] == '-') <==> i < 0
    ensures var d := if i < 0 then r[1..] else r;
            AllDigits(d) && DigitsValue(d) == (if i < 0 then -i else i)
  {
    if i < 0 then
      var r := "-" + NatToString(-i);
      assert r[1..] == NatToString(-i);
      r
    else NatToString(i)
  }
}
