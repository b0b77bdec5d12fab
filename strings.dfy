/**
 * The string operations the front end borrows from JavaScript, restricted to
 * what its validators and input normalisers use: ASCII character classes of
 * regular expressions, `toUpperCase`/`toLowerCase` on ASCII, `trim`,
 * `includes`, `startsWith`, `replace(/[^...]/g, "")`, `join`, number-to-text
 * and `Number(text)` on integer text.
 */
module Strings {

  // ---------------------------------------------------------------------------
  // Character classes
  // ---------------------------------------------------------------------------

  predicate IsUpper(c: char) { 'A' <= c <= 'Z' }
  predicate IsLower(c: char) { 'a' <= c <= 'z' }
  /** `[A-Za-z]` */
  predicate IsLetter(c: char) { IsUpper(c) || IsLower(c) }
  /** `\d`, `[0-9]` */
  predicate IsDigit(c: char) { '0' <= c <= '9' }
  /** `[A-Za-z ]` */
  predicate IsLetterOrSpace(c: char) { IsLetter(c) || c == ' ' }
  /** `[A-Z0-9]` */
  predicate IsUpperOrDigit(c: char) { IsUpper(c) || IsDigit(c) }
  /** `[\W_]`: anything that is not an ASCII letter or digit */
  predicate IsSymbol(c: char) { !IsLetter(c) && !IsDigit(c) }

  /** The characters a regular expression `.` does not match. */
  predicate IsLineTerminator(c: char) {
    c == '\n' || c == '\r' || c == '\U{2028}' || c == '\U{2029}'
  }

  /**
   * `\s`, and what `trim()` removes: the ECMAScript WhiteSpace and
   * LineTerminator code points.
   */
  predicate IsSpace(c: char) {
    || c == ' ' || c == '\t' || c == '\U{B}' || c == '\U{C}'
    || c == '\U{A0}' || c == '\U{FEFF}' || c == '\U{1680}'
    || ('\U{2000}' <= c <= '\U{200A}')
    || c == '\U{202F}' || c == '\U{205F}' || c == '\U{3000}'
    || IsLineTerminator(c)
  }

  predicate All(s: string, p: char -> bool) {
    forall i :: 0 <= i < |s| ==> p(s[i])
  }

  predicate Any(s: string, p: char -> bool) {
    exists i :: 0 <= i < |s| && p(s[i])
  }

  // ---------------------------------------------------------------------------
  // Case mapping (ASCII)
  // ---------------------------------------------------------------------------

  function UpperChar(c: char): (r: char)
    ensures IsLetter(r) <==> IsLetter(c)
    ensures IsDigit(r) <==> IsDigit(c)
    ensures !IsLower(r)
  {
    if IsLower(c) then (c as int - 32) as char else c
  }

  function LowerChar(c: char): (r: char)
    ensures IsLetter(r) <==> IsLetter(c)
    ensures IsDigit(r) <==> IsDigit(c)
    ensures !IsUpper(r)
  {
    if IsUpper(c) then (c as int + 32) as char else c
  }

  /** `toUpperCase()` */
  function Upper(s: string): (r: string)
    ensures |r| == |s|
  {
    seq(|s|, i requires 0 <= i < |s| => UpperChar(s[i]))
  }

  /** `toLowerCase()` */
  function Lower(s: string): (r: string)
    ensures |r| == |s|
  {
    seq(|s|, i requires 0 <= i < |s| => LowerChar(s[i]))
  }

  /**
   * `s.charAt(0).toUpperCase() + s.slice(1).toLowerCase()`; `charAt(0)` of the
   * empty string is the empty string.
   */
  function Capitalize(s: string): (r: string)
    ensures |r| == |s|
    ensures r != [] ==> r[0] == UpperChar(s[0])
    ensures forall i :: 0 < i < |s| ==> r[i] == LowerChar(s[i])
  {
    if s == [] then [] else [UpperChar(s[0])] + Lower(s[1..])
  }

  /** Capitalizing loses no character: every position is the same letter up to case. */
  lemma CapitalizePreservesLetters(s: string)
    ensures Lower(Capitalize(s)) == Lower(s)
    ensures forall i :: 0 <= i < |s| ==> (IsLetter(Capitalize(s)[i]) <==> IsLetter(s[i]))
  {
  }

  lemma CapitalizeIdempotent(s: string)
    ensures Capitalize(Capitalize(s)) == Capitalize(s)
  {
  }

  // ---------------------------------------------------------------------------
  // Keeping the characters of a class: `replace(/[^class]/g, "")`
  // ---------------------------------------------------------------------------

  function Keep(s: string, p: char -> bool): (r: string)
    ensures |r| <= |s|
    ensures All(r, p)
    ensures All(s, p) ==> r == s
    ensures forall c :: c in r ==> c in s
  {
    if s == [] then [] else if p(s[0]) then [s[0]] + Keep(s[1..], p) else Keep(s[1..], p)
  }

  /** Nothing is removed exactly when every character already belongs to the class. */
  lemma {:induction false} KeepUnchangedIff(s: string, p: char -> bool)
    ensures Keep(s, p) == s <==> All(s, p)
  {
    if s != [] {
      KeepUnchangedIff(s[1..], p);
      if !p(s[0]) {
        // Keep(s, p) == Keep(s[1..], p) is too short to equal s
        assert |Keep(s[1..], p)| <= |s[1..]| < |s|;
      } else {
        assert Keep(s, p) == [s[0]] + Keep(s[1..], p);
        assert All(s, p) <==> All(s[1..], p) by {
          if All(s[1..], p) {
            forall i | 0 <= i < |s| ensures p(s[i]) { if i > 0 { assert s[i] == s[1..][i - 1]; } }
          }
        }
      }
    }
  }

  lemma KeepIdempotent(s: string, p: char -> bool)
    ensures Keep(Keep(s, p), p) == Keep(s, p)
  {
  }

  /** A string concatenation keeps piecewise. */
  lemma {:induction false} KeepAppend(s: string, t: string, p: char -> bool)
    ensures Keep(s + t, p) == Keep(s, p) + Keep(t, p)
  {
    if s == [] {
      assert s + t == t;
    } else {
      assert (s + t)[0] == s[0];
      assert (s + t)[1..] == s[1..] + t;
      KeepAppend(s[1..], t, p);
    }
  }

  // ---------------------------------------------------------------------------
  // trim()
  // ---------------------------------------------------------------------------

  function TrimStart(s: string): (r: string)
    ensures |r| <= |s|
  {
    if s != [] && IsSpace(s[0]) then TrimStart(s[1..]) else s
  }

  function TrimEnd(s: string): (r: string)
    ensures |r| <= |s|
  {
    if s != [] && IsSpace(s[|s| - 1]) then TrimEnd(s[..|s| - 1]) else s
  }

  /** `s.trim()` */
  function Trim(s: string): string {
    TrimEnd(TrimStart(s))
  }

  /** `!s.trim()`: the trimmed string is empty, i.e. falsy. */
  predicate IsBlank(s: string) {
    Trim(s) == []
  }

  lemma {:induction false} TrimStartEmptyIff(s: string)
    ensures TrimStart(s) == [] <==> All(s, IsSpace)
  {
    if s != [] && IsSpace(s[0]) {
      TrimStartEmptyIff(s[1..]);
      assert All(s, IsSpace) <==> All(s[1..], IsSpace) by {
        if All(s[1..], IsSpace) {
          forall i | 0 <= i < |s| ensures IsSpace(s[i]) { if i > 0 { assert s[i] == s[1..][i - 1]; } }
        }
      }
    }
  }

  lemma {:induction false} TrimEndEmptyIff(s: string)
    ensures TrimEnd(s) == [] <==> All(s, IsSpace)
  {
    if s != [] && IsSpace(s[|s| - 1]) {
      var init := s[..|s| - 1];
      TrimEndEmptyIff(init);
      assert All(s, IsSpace) <==> All(init, IsSpace) by {
        if All(init, IsSpace) {
          forall i | 0 <= i < |s| ensures IsSpace(s[i]) { if i < |s| - 1 { assert s[i] == init[i]; } }
        }
      }
    }
  }

  lemma {:induction false} TrimStartOfSpaces(s: string)
    requires TrimStart(s) != []
    ensures !IsSpace(TrimStart(s)[0])
  {
    if s != [] && IsSpace(s[0]) { TrimStartOfSpaces(s[1..]); }
  }

  /** A string is blank exactly when it consists of white space only. */
  lemma BlankIffAllSpace(s: string)
    ensures IsBlank(s) <==> All(s, IsSpace)
  {
    TrimStartEmptyIff(s);
    TrimEndEmptyIff(TrimStart(s));
    if TrimStart(s) != [] {
      TrimStartOfSpaces(s);
      assert !All(TrimStart(s), IsSpace);
    }
  }

  lemma {:induction false} TrimOfNoSpace(s: string)
    requires !Any(s, IsSpace)
    ensures Trim(s) == s
  {
    if s != [] {
      assert !IsSpace(s[0]) && !IsSpace(s[|s| - 1]);
    }
  }

  // ---------------------------------------------------------------------------
  // startsWith / includes
  // ---------------------------------------------------------------------------

  /** `s.startsWith(p)` */
  predicate StartsWith(s: string, p: string) {
    p <= s
  }

  /** `hay.includes(needle)` */
  predicate Contains(hay: string, needle: string)
    decreases |hay|
  {
    needle <= hay || (hay != [] && Contains(hay[1..], needle))
  }

  lemma ContainsEmpty(hay: string)
    ensures Contains(hay, [])
  {
  }

  /** `needle` occurs in `hay` starting at offset `i`. */
  predicate OccursAt(hay: string, needle: string, i: int) {
    0 <= i <= |hay| - |needle| && hay[i..i + |needle|] == needle
  }

  /** An occurrence exists at some offset exactly when `Contains` holds. */
  lemma {:induction false} ContainsIffOccurrence(hay: string, needle: string)
    ensures Contains(hay, needle) <==> exists i :: OccursAt(hay, needle, i)
  {
    if needle <= hay {
      assert OccursAt(hay, needle, 0);
    }
    if hay != [] {
      ContainsIffOccurrence(hay[1..], needle);
      if exists i :: OccursAt(hay, needle, i) {
        var i :| OccursAt(hay, needle, i);
        if i > 0 {
          assert hay[1..][i - 1..i - 1 + |needle|] == hay[i..i + |needle|];
          assert OccursAt(hay[1..], needle, i - 1);
        } else {
          assert needle <= hay;
        }
      }
      if Contains(hay[1..], needle) {
        var i :| OccursAt(hay[1..], needle, i);
        assert hay[i + 1..i + 1 + |needle|] == hay[1..][i..i + |needle|];
        assert OccursAt(hay, needle, i + 1);
      }
    } else {
      if exists i :: OccursAt(hay, needle, i) {
        var i :| OccursAt(hay, needle, i);
        assert needle == [];
      }
    }
  }

  /** Nothing but the empty string is found in the empty string. */
  lemma ContainsInEmpty(needle: string)
    ensures Contains([], needle) <==> needle == []
  {
  }

  // ---------------------------------------------------------------------------
  // Number to text, text to number
  // ---------------------------------------------------------------------------

  function DigitChar(d: nat): (c: char)
    requires d < 10
    ensures IsDigit(c)
  {
    ('0' as int + d) as char
  }

  function DigitValue(c: char): (d: nat)
    requires IsDigit(c)
    ensures d < 10 && DigitChar(d) == c
  {
    c as int - '0' as int
  }

  /** Decimal text of a natural number, as `String(n)`. */
  function NatToString(n: nat): (r: string)
    ensures r != [] && All(r, IsDigit)
  {
    if n < 10 then [DigitChar(n)] else NatToString(n / 10) + [DigitChar(n % 10)]
  }

  /** `String(n)` for an integer. */
  function IntToString(n: int): string {
    if n < 0 then "-" + NatToString(-n) else NatToString(n)
  }

  /** The value of a string of decimal digits. */
  function DecimalValue(s: string): (n: nat)
    requires All(s, IsDigit)
  {
    if s == [] then 0 else DecimalValue(s[..|s| - 1]) * 10 + DigitValue(s[|s| - 1])
  }

  /** Reading back the decimal text of a number gives the number. */
  lemma {:induction false} DecimalValueOfNatToString(n: nat)
    ensures DecimalValue(NatToString(n)) == n
  {
    if n >= 10 {
      var r := NatToString(n);
      assert r[..|r| - 1] == NatToString(n / 10);
      DecimalValueOfNatToString(n / 10);
    }
  }

  /** A digit string has value zero exactly when all its digits are `0`. */
  lemma {:induction false} DecimalValueZeroIff(s: string)
    requires All(s, IsDigit)
    ensures DecimalValue(s) == 0 <==> All(s, c => c == '0')
  {
    if s != [] {
      var init := s[..|s| - 1];
      assert All(init, IsDigit);
      DecimalValueZeroIff(init);
      assert All(s, c => c == '0') <==> All(init, c => c == '0') && s[|s| - 1] == '0' by {
        if All(init, c => c == '0') && s[|s| - 1] == '0' {
          forall i | 0 <= i < |s| ensures s[i] == '0' { if i < |s| - 1 { assert s[i] == init[i]; } }
        }
      }
    }
  }

  /**
   * `Number(s)` on text that is an optionally signed decimal integer with
   * surrounding white space; blank text is 0 and any other text is not a
   * number (None).
   */
  function ParseInteger(s: string): (r: Option<int>)
  {
    var t := Trim(s);
    if t == [] then Some(0)
    else if (t[0] == '+' || t[0] == '-') && |t| > 1 && All(t[1..], IsDigit) then
      var magnitude: int := DecimalValue(t[1..]);
      Some(if t[0] == '-' then -magnitude else magnitude)
    else if All(t, IsDigit) then Some(DecimalValue(t))
    else None
  }

  /** Every string of digits is a number, and it is its decimal value. */
  lemma ParseDigits(s: string)
    requires All(s, IsDigit)
    ensures ParseInteger(s) == Some(DecimalValue(s))
  {
    assert !Any(s, IsSpace);
    TrimOfNoSpace(s);
  }

  /** The decimal text of an integer parses back to it. */
  lemma ParseIntToString(n: int)
    ensures ParseInteger(IntToString(n)) == Some(n)
  {
    if n < 0 {
      var digits := NatToString(-n);
      var t := "-" + digits;
      assert t[1..] == digits;
      forall i | 0 <= i < |t| ensures !IsSpace(t[i]) {
        if i > 0 { assert t[i] == digits[i - 1]; assert IsDigit(digits[i - 1]); }
      }
      TrimOfNoSpace(t);
      DecimalValueOfNatToString(-n);
    } else {
      ParseDigits(NatToString(n));
      DecimalValueOfNatToString(n);
    }
  }

  // ---------------------------------------------------------------------------
  // join
  // ---------------------------------------------------------------------------

  /** `parts.join(sep)` */
  function Join(parts: seq<string>, sep: string): string {
    if |parts| == 0 then []
    else if |parts| == 1 then parts[0]
    else parts[0] + sep + Join(parts[1..], sep)
  }

  function CountChar(s: string, c: char): (n: nat)
    ensures n <= |s|
  {
    if s == [] then 0 else (if s[0] == c then 1 else 0) + CountChar(s[1..], c)
  }

  lemma {:induction false} CountCharAppend(s: string, t: string, c: char)
    ensures CountChar(s + t, c) == CountChar(s, c) + CountChar(t, c)
  {
    if s == [] {
      assert s + t == t;
    } else {
      assert (s + t)[1..] == s[1..] + t;
      CountCharAppend(s[1..], t, c);
    }
  }

  lemma {:induction false} CountCharAbsent(s: string, c: char)
    requires c !in s
    ensures CountChar(s, c) == 0
  {
    if s != [] { CountCharAbsent(s[1..], c); }
  }

  /** A character occurs exactly once when there is one position holding it and no other. */
  lemma {:induction false} CountCharOneIff(s: string, c: char)
    ensures CountChar(s, c) == 1 <==>
      exists i :: 0 <= i < |s| && s[i] == c && forall k :: 0 <= k < |s| && k != i ==> s[k] != c
  {
    if s != [] {
      CountCharOneIff(s[1..], c);
      if s[0] == c {
        if CountChar(s, c) == 1 {
          CountCharZeroIff(s[1..], c);
          assert forall k :: 0 <= k < |s| && k != 0 ==> s[k] != c by {
            forall k | 0 < k < |s| ensures s[k] != c { assert s[k] == s[1..][k - 1]; }
          }
        }
        if exists i :: 0 <= i < |s| && s[i] == c && forall k :: 0 <= k < |s| && k != i ==> s[k] != c {
          var i :| 0 <= i < |s| && s[i] == c && forall k :: 0 <= k < |s| && k != i ==> s[k] != c;
          assert i == 0;
          assert forall k :: 0 <= k < |s[1..]| ==> s[1..][k] != c by {
            forall k | 0 <= k < |s[1..]| ensures s[1..][k] != c { assert s[1..][k] == s[k + 1]; }
          }
          CountCharZeroIff(s[1..], c);
        }
      } else {
        if CountChar(s, c) == 1 {
          var i :| 0 <= i < |s[1..]| && s[1..][i] == c && forall k :: 0 <= k < |s[1..]| && k != i ==> s[1..][k] != c;
          assert s[i + 1] == c;
          forall k | 0 <= k < |s| && k != i + 1 ensures s[k] != c { if k > 0 { assert s[k] == s[1..][k - 1]; } }
        }
        if exists i :: 0 <= i < |s| && s[i] == c && forall k :: 0 <= k < |s| && k != i ==> s[k] != c {
          var i :| 0 <= i < |s| && s[i] == c && forall k :: 0 <= k < |s| && k != i ==> s[k] != c;
          assert i > 0;
          assert s[1..][i - 1] == c;
          forall k | 0 <= k < |s[1..]| && k != i - 1 ensures s[1..][k] != c { assert s[1..][k] == s[k + 1]; }
        }
      }
    }
  }

  lemma {:induction false} CountCharZeroIff(s: string, c: char)
    ensures CountChar(s, c) == 0 <==> forall k :: 0 <= k < |s| ==> s[k] != c
  {
    if s != [] {
      CountCharZeroIff(s[1..], c);
      if forall k :: 0 <= k < |s[1..]| ==> s[1..][k] != c {
        if s[0] != c {
          forall k | 0 <= k < |s| ensures s[k] != c { if k > 0 { assert s[k] == s[1..][k - 1]; } }
        }
      } else {
        var k :| 0 <= k < |s[1..]| && s[1..][k] == c;
        assert s[k + 1] == c;
      }
    }
  }

  /** Joining n parts that do not contain the separator character puts n - 1 of them in. */
  lemma {:induction false} JoinCount(parts: seq<string>, c: char)
    requires |parts| > 0
    requires forall i :: 0 <= i < |parts| ==> c !in parts[i]
    ensures CountChar(Join(parts, [c]), c) == |parts| - 1
  {
    if |parts| == 1 {
      CountCharAbsent(parts[0], c);
    } else {
      CountCharAbsent(parts[0], c);
      JoinCount(parts[1..], c);
      CountCharAppend(parts[0] + [c], Join(parts[1..], [c]), c);
      CountCharAppend(parts[0], [c], c);
    }
  }

  datatype Option<+T> = None | Some(value: T)
}
