/** String operations of the JavaScript and Python runtimes that the business
    rules rely on: `String(n)` for a non-negative integer, `includes`,
    `toLowerCase` (ASCII letters only), `trim` and `parseFloat`. */
module Text {
  import opened JsValues
  import opened Common

  // ----- decimal digits -------------------------------------------------

  predicate IsDigit(c: char)
  {
    '0' <= c <= '9'
  }

  function DigitChar(d: nat): (c: char)
    requires d < 10
    ensures IsDigit(c)
  {
    "0123456789"[d]
  }

  function DigitValue(c: char): nat
  {
    if IsDigit(c) then (c as int - '0' as int) else 0
  }

  /** The value of a run of decimal digits, most significant first. */
  function DigitsValue(s: string): nat
  {
    if |s| == 0 then 0 else DigitsValue(s[..|s| - 1]) * 10 + DigitValue(s[|s| - 1])
  }

  /** `String(n)` / `${n}` for a non-negative integer: its decimal digits, no leading zeros. */
  function NatToString(n: nat): (s: string)
    ensures |s| >= 1
  {
    if n < 10 then [DigitChar(n)] else NatToString(n / 10) + [DigitChar(n % 10)]
  }

  /** Reading back the decimal digits of `n` gives `n`. */
  lemma {:induction false} NatToStringDigits(n: nat)
    ensures forall i :: 0 <= i < |NatToString(n)| ==> IsDigit(NatToString(n)[i])
    ensures DigitsValue(NatToString(n)) == n
  {
    var s := NatToString(n);
    if n >= 10 {
      NatToStringDigits(n / 10);
      assert s[..|s| - 1] == NatToString(n / 10);
      assert DigitValue(s[|s| - 1]) == n % 10 by {
        assert s[|s| - 1] == DigitChar(n % 10);
      }
    }
  }

  /** `String(n)` for any integer: a minus sign before the digits of a negative one. */
  function IntToString(n: int): (s: string)
    ensures n >= 0 ==> s == NatToString(n)
    ensures n < 0 ==> s == "-" + NatToString(-n)
  {
    if n >= 0 then NatToString(n) else "-" + NatToString(-n)
  }

  /** Distinct numbers print differently. */
  lemma NatToStringInjective(a: nat, b: nat)
    requires a != b
    ensures NatToString(a) != NatToString(b)
  {
    NatToStringDigits(a);
    NatToStringDigits(b);
  }

  /** `prefix + NatToString(a) == prefix + NatToString(b)` only for `a == b`. */
  lemma PrefixedNatInjective(prefix: string, a: nat, b: nat)
    requires a != b
    ensures prefix + NatToString(a) != prefix + NatToString(b)
  {
    NatToStringInjective(a, b);
    assert (prefix + NatToString(a))[|prefix|..] == NatToString(a);
    assert (prefix + NatToString(b))[|prefix|..] == NatToString(b);
  }

  // ----- includes -------------------------------------------------------

  /** `s.includes(sub)` (Python `sub in s`): `sub` occurs contiguously in `s`. */
  predicate Contains(s: string, sub: string)
  {
    exists i :: 0 <= i <= |s| - |sub| && OccursAt(s, sub, i)
  }

  /** `sub` occurs in `s` starting at position `i`. */
  predicate OccursAt(s: string, sub: string, i: int)
  {
    0 <= i && i + |sub| <= |s| && s[i..i + |sub|] == sub
  }

  lemma ContainsEmpty(s: string)
    ensures Contains(s, "")
  {
    assert OccursAt(s, "", 0);
  }

  lemma ContainsItself(s: string)
    ensures Contains(s, s)
  {
    assert OccursAt(s, s, 0);
  }

  /** A text that contains `sub` contains every character of `sub`. */
  lemma CharOfContained(s: string, sub: string, c: char)
    requires c in sub
    ensures Contains(s, sub) ==> c in s
  {
    if Contains(s, sub) {
      var i :| 0 <= i <= |s| - |sub| && OccursAt(s, sub, i);
      var j :| 0 <= j < |sub| && sub[j] == c;
      assert s[i + j] == s[i..i + |sub|][j];
    }
  }

  /** A text that contains `sub` contains each pair of adjacent characters of `sub`. */
  lemma PairOfContained(s: string, sub: string, j: nat, c: char, d: char)
    requires j + 1 < |sub| && sub[j] == c && sub[j + 1] == d
    ensures Contains(s, sub) ==> exists k :: 0 <= k < |s| - 1 && s[k] == c && s[k + 1] == d
  {
    if Contains(s, sub) {
      var i :| 0 <= i <= |s| - |sub| && OccursAt(s, sub, i);
      assert s[i + j] == s[i..i + |sub|][j];
      assert s[i + j + 1] == s[i..i + |sub|][j + 1];
    }
  }

  // ----- toLowerCase ----------------------------------------------------

  function LowerChar(c: char): char
  {
    if 'A' <= c <= 'Z' then (c as int + 32) as char else c
  }

  /** `s.toLowerCase()`, restricted to the ASCII letters. */
  function Lower(s: string): (r: string)
    ensures |r| == |s|
    ensures forall i :: 0 <= i < |s| ==> r[i] == LowerChar(s[i])
  {
    seq(|s|, i requires 0 <= i < |s| => LowerChar(s[i]))
  }

  /** Case-insensitive containment as the front ends write it:
      `s.toLowerCase().includes(q.toLowerCase())`. */
  predicate ContainsIgnoringCase(s: string, q: string)
  {
    Contains(Lower(s), Lower(q))
  }

  /** The store search of the front ends: the name or the address contains
      the term, ignoring case. */
  predicate NameOrAddressContains(name: string, address: string, term: string)
  {
    ContainsIgnoringCase(name, term) || ContainsIgnoringCase(address, term)
  }

  // ----- trim -----------------------------------------------------------

  /** The characters `String.prototype.trim` and `parseFloat` skip:
      WhiteSpace and LineTerminator of ECMAScript, including U+3000 (ideographic space). */
  predicate IsWhitespace(c: char)
  {
    c == '\t' || c == '\n' || c == '\U{000B}' || c == '\U{000C}' || c == '\r' || c == ' '
    || c == '\U{00A0}' || c == '\U{1680}' || ('\U{2000}' <= c <= '\U{200A}')
    || c == '\U{2028}' || c == '\U{2029}' || c == '\U{202F}' || c == '\U{205F}'
    || c == '\U{3000}' || c == '\U{FEFF}'
  }

  function TrimStart(s: string): (r: string)
    ensures |r| <= |s|
  {
    if |s| > 0 && IsWhitespace(s[0]) then TrimStart(s[1..]) else s
  }

  /** `TrimStart` cuts whitespace only, and up to the first other character. */
  lemma {:induction false} TrimStartCuts(s: string)
    ensures TrimStart(s) == s[|s| - |TrimStart(s)|..]
    ensures TrimStart(s) != [] ==> !IsWhitespace(TrimStart(s)[0])
    ensures forall i :: 0 <= i < |s| - |TrimStart(s)| ==> IsWhitespace(s[i])
  {
    if |s| > 0 && IsWhitespace(s[0]) {
      TrimStartCuts(s[1..]);
      forall i | 0 < i < |s| - |TrimStart(s)| ensures IsWhitespace(s[i]) {
        assert s[i] == s[1..][i - 1];
      }
    }
  }

  function TrimEnd(s: string): (r: string)
    ensures |r| <= |s|
  {
    if |s| > 0 && IsWhitespace(s[|s| - 1]) then TrimEnd(s[..|s| - 1]) else s
  }

  /** `TrimEnd` cuts whitespace only, back to the last other character. */
  lemma {:induction false} TrimEndCuts(s: string)
    ensures TrimEnd(s) == s[..|TrimEnd(s)|]
    ensures TrimEnd(s) != [] ==> !IsWhitespace(TrimEnd(s)[|TrimEnd(s)| - 1])
    ensures forall i :: |TrimEnd(s)| <= i < |s| ==> IsWhitespace(s[i])
  {
    if |s| > 0 && IsWhitespace(s[|s| - 1]) {
      TrimEndCuts(s[..|s| - 1]);
      forall i | |TrimEnd(s)| <= i < |s| - 1 ensures IsWhitespace(s[i]) {
        assert s[i] == s[..|s| - 1][i];
      }
    }
  }

  /** `s.trim()`. */
  function Trim(s: string): (r: string)
    ensures |r| <= |s|
  {
    TrimEnd(TrimStart(s))
  }

  /** The trimmed text is empty exactly when every character is whitespace
      (this is what `!text.trim()` tests). */
  lemma TrimEmptyIffBlank(s: string)
    ensures Trim(s) == "" <==> forall i :: 0 <= i < |s| ==> IsWhitespace(s[i])
  {
    var t := TrimStart(s);
    TrimStartCuts(s);
    TrimEndCuts(t);
    if Trim(s) == "" {
      assert t == [];
    } else {
      assert s[|s| - |t|] == t[0];
    }
  }

  // ----- parseFloat -----------------------------------------------------

  /** The length of the longest prefix of `s` made of decimal digits. */
  function DigitRun(s: string): (n: nat)
    ensures n <= |s|
    ensures forall i :: 0 <= i < n ==> IsDigit(s[i])
    ensures n < |s| ==> !IsDigit(s[n])
  {
    if |s| > 0 && IsDigit(s[0]) then 1 + DigitRun(s[1..]) else 0
  }

  function Pow10(n: nat): (r: real)
    ensures r >= 1.0
  {
    if n == 0 then 1.0 else 10.0 * Pow10(n - 1)
  }

  /** `x` times ten to the power `e`. */
  function Scale(x: real, e: int): (r: real)
    ensures e == 0 ==> r == x
  {
    if e >= 0 then x * Pow10(e) else x / Pow10(-e)
  }

  /** The exponent of an ExponentPart (`e`/`E`, an optional sign, at least one
      digit) at the start of `s`; `0` when `s` does not start with one. */
  function ExponentOf(s: string): int
  {
    if |s| >= 2 && (s[0] == 'e' || s[0] == 'E') then
      var start := if s[1] == '+' || s[1] == '-' then 2 else 1;
      var n := DigitRun(s[start..]);
      if n == 0 then 0
      else
        var v: int := DigitsValue(s[start..start + n]);
        if s[1] == '-' then -v else v
    else 0
  }

  /** `parseFloat(s)`: skip leading whitespace, then read the longest prefix
      that is a decimal literal (sign, digits, point, digits, exponent) or
      `Infinity`; `NaN` when no such prefix exists. The value is the exact
      decimal; IEEE rounding, overflow to Infinity and -0 are not modelled. */
  function ParseFloat(input: string): (v: Value)
    ensures IsNumber(v)
  {
    var t := TrimStart(input);
    var negative := |t| > 0 && t[0] == '-';
    var body := if |t| > 0 && (t[0] == '+' || t[0] == '-') then t[1..] else t;
    if StartsWithInfinity(body) then Inf(negative)
    else
      match ParseUnsigned(body)
      case None => NaN
      case Some(m) => Num(if negative then -m else m)
  }

  predicate StartsWithInfinity(s: string)
  {
    |s| >= 8 && s[..8] == "Infinity"
  }

  /** The value of the longest prefix of `body` of the form
      digits [`.` digits] [exponent] with at least one digit before the exponent. */
  function ParseUnsigned(body: string): (m: Option<real>)
    ensures m.Some? ==> |body| > 0 && (IsDigit(body[0]) || body[0] == '.')
  {
    var i := DigitRun(body);
    var hasPoint := i < |body| && body[i] == '.';
    var f := if hasPoint then DigitRun(body[i + 1..]) else 0;
    if i == 0 && f == 0 then None
    else
      var fraction := if hasPoint then DigitsValue(body[i + 1..i + 1 + f]) as real / Pow10(f) else 0.0;
      var mantissa := DigitsValue(body[..i]) as real + fraction;
      var rest := if hasPoint then body[i + 1 + f..] else body[i..];
      Some(Scale(mantissa, ExponentOf(rest)))
  }

  lemma {:induction false} DigitRunAll(s: string)
    requires forall i :: 0 <= i < |s| ==> IsDigit(s[i])
    ensures DigitRun(s) == |s|
  {
    if |s| > 0 {
      DigitRunAll(s[1..]);
    }
  }

  /** `parseFloat(String(n)) === n`: the decimal text of a number reads back as that number. */
  lemma ParseFloatOfNatToString(n: nat)
    ensures ParseFloat(NatToString(n)) == Num(n as real)
  {
    NatToStringDigits(n);
    ParseFloatOfDigits(NatToString(n));
  }

  /** A non-empty run of decimal digits parses to its value. */
  lemma ParseFloatOfDigits(s: string)
    requires |s| > 0 && forall i :: 0 <= i < |s| ==> IsDigit(s[i])
    ensures ParseFloat(s) == Num(DigitsValue(s) as real)
  {
    TrimStartOfDigits(s);
    NotInfinityOfDigits(s);
    ParseUnsignedOfDigits(s);
  }

  lemma TrimStartOfDigits(s: string)
    requires |s| > 0 && IsDigit(s[0])
    ensures TrimStart(s) == s
  {
    assert !IsWhitespace(s[0]);
  }

  lemma NotInfinityOfDigits(s: string)
    requires |s| > 0 && IsDigit(s[0])
    ensures !StartsWithInfinity(s)
  {
    if |s| >= 8 {
      assert s[..8][0] == s[0];
    }
  }

  lemma ParseUnsignedOfDigits(s: string)
    requires |s| > 0 && forall i :: 0 <= i < |s| ==> IsDigit(s[i])
    ensures ParseUnsigned(s) == Some(DigitsValue(s) as real)
  {
    DigitRunAll(s);
    assert s[..|s|] == s;
    assert s[|s|..] == "";
    assert ExponentOf(s[|s|..]) == 0;
  }

  /** A text without any digit never parses to a finite number. */
  lemma {:induction false} ParseFloatNeedsDigit(s: string)
    requires forall i :: 0 <= i < |s| ==> !IsDigit(s[i])
    ensures !ParseFloat(s).Num?
  {
    var t := TrimStart(s);
    TrimStartCuts(s);
    assert forall i :: 0 <= i < |t| ==> !IsDigit(t[i]) by {
      forall i | 0 <= i < |t| ensures !IsDigit(t[i]) {
        assert t[i] == s[|s| - |t| + i];
      }
    }
    var body := if |t| > 0 && (t[0] == '+' || t[0] == '-') then t[1..] else t;
    assert forall i :: 0 <= i < |body| ==> !IsDigit(body[i]) by {
      forall i | 0 <= i < |body| ensures !IsDigit(body[i]) {
        if |t| > 0 && (t[0] == '+' || t[0] == '-') {
          assert body[i] == t[i + 1];
        }
      }
    }
    var i := DigitRun(body);
    assert i == 0;
    if i < |body| && body[i] == '.' {
      var after := body[i + 1..];
      if |after| > 0 {
        assert after[0] == body[i + 1];
      }
      assert DigitRun(after) == 0;
    }
    assert ParseUnsigned(body).None?;
  }
}
