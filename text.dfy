/**
 * The string primitives the frontend relies on, restated over `seq<char>`:
 * decimal formatting (`String(n)`, template literals), `parseInt(s)`,
 * `toLowerCase`, `trim`, `includes`, `endsWith` and `split`.
 */
module Text {
  import opened Base

  predicate IsDigit(c: char) { '0' <= c <= '9' }

  predicate AllDigits(s: string) { forall i :: 0 <= i < |s| ==> IsDigit(s[i]) }

  function DigitValue(c: char): (d: nat)
    requires IsDigit(c)
    ensures d < 10
  {
    c as int - '0' as int
  }

  function DigitChar(d: nat): (c: char)
    requires d < 10
    ensures IsDigit(c) && DigitValue(c) == d
  {
    (d + '0' as int) as char
  }

  /** The value of a run of decimal digits, most significant digit first. */
  function DecimalValue(ds: string): nat
    requires AllDigits(ds)
    decreases |ds|
  {
    if ds == [] then 0 else DecimalValue(ds[..|ds| - 1]) * 10 + DigitValue(ds[|ds| - 1])
  }

  /** The decimal text of a natural number, as JavaScript's `String(n)` and PHP's string interpolation write it. */
  function NatToString(n: nat): (s: string)
    ensures |s| > 0 && AllDigits(s)
    ensures s[0] == '0' ==> n == 0
    decreases n
  {
    if n < 10 then [DigitChar(n)] else NatToString(n / 10) + [DigitChar(n % 10)]
  }

  /** Reading back the text of `n` gives `n`: the formatting loses nothing. */
  lemma {:induction false} DecimalValueOfNatToString(n: nat)
    ensures DecimalValue(NatToString(n)) == n
  {
    if n >= 10 {
      var s := NatToString(n);
      assert s[..|s| - 1] == NatToString(n / 10);
      DecimalValueOfNatToString(n / 10);
    }
  }

  function IntToString(i: int): (s: string)
    ensures |s| > 0
  {
    if i < 0 then "-" + NatToString(-i) else NatToString(i)
  }

  /** The white space that JavaScript's `trim` and `parseInt` skip (the Latin subset of it). */
  predicate IsSpace(c: char)
  {
    c == ' ' || c == '\t' || c == '\n' || c == '\r' || c == '\U{B}' || c == '\U{C}' || c == '\U{A0}' || c == '\U{FEFF}'
  }

  /** The longest prefix of `s` made of decimal digits. */
  function DigitPrefix(s: string): (p: string)
    ensures p <= s && AllDigits(p)
    ensures |p| < |s| ==> !IsDigit(s[|p|])
    decreases |s|
  {
    if s != [] && IsDigit(s[0]) then [s[0]] + DigitPrefix(s[1..]) else []
  }

  lemma {:induction false} DigitPrefixOfDigits(ds: string, rest: string)
    requires AllDigits(ds)
    requires rest == [] || !IsDigit(rest[0])
    ensures DigitPrefix(ds + rest) == ds
    decreases |ds|
  {
    if ds != [] {
      assert (ds + rest)[1..] == ds[1..] + rest;
      DigitPrefixOfDigits(ds[1..], rest);
    } else {
      assert ds + rest == rest;
    }
  }

  function TrimStart(s: string): (r: string)
    ensures |r| <= |s|
    ensures r != [] ==> !IsSpace(r[0])
    decreases |s|
  {
    if s != [] && IsSpace(s[0]) then TrimStart(s[1..]) else s
  }

  function TrimEnd(s: string): (r: string)
    ensures r <= s
    ensures r != [] ==> !IsSpace(r[|r| - 1])
    decreases |s|
  {
    if s != [] && IsSpace(s[|s| - 1]) then TrimEnd(s[..|s| - 1]) else s
  }

  /** `s.trim()`. */
  function Trim(s: string): string
  {
    TrimEnd(TrimStart(s))
  }

  predicate IsHexDigit(c: char) { IsDigit(c) || 'a' <= c <= 'f' || 'A' <= c <= 'F' }

  predicate AllHexDigits(s: string) { forall i :: 0 <= i < |s| ==> IsHexDigit(s[i]) }

  function HexDigitValue(c: char): (d: nat)
    requires IsHexDigit(c)
    ensures d < 16
    ensures IsDigit(c) ==> d == DigitValue(c)
  {
    if IsDigit(c) then DigitValue(c)
    else if 'a' <= c <= 'f' then c as int - 'a' as int + 10
    else c as int - 'A' as int + 10
  }

  /** The value of a run of hexadecimal digits, most significant digit first. */
  function HexValue(hs: string): nat
    requires AllHexDigits(hs)
    decreases |hs|
  {
    if hs == [] then 0 else HexValue(hs[..|hs| - 1]) * 16 + HexDigitValue(hs[|hs| - 1])
  }

  /** The longest prefix of `s` made of hexadecimal digits. */
  function HexDigitPrefix(s: string): (p: string)
    ensures p <= s && AllHexDigits(p)
    ensures |p| < |s| ==> !IsHexDigit(s[|p|])
    decreases |s|
  {
    if s != [] && IsHexDigit(s[0]) then [s[0]] + HexDigitPrefix(s[1..]) else []
  }

  lemma {:induction false} HexDigitPrefixOfHexDigits(hs: string)
    requires AllHexDigits(hs)
    ensures HexDigitPrefix(hs) == hs
    decreases |hs|
  {
    if hs != [] {
      HexDigitPrefixOfHexDigits(hs[1..]);
    }
  }

  /** Text that `parseInt` without a radix reads in base 16: "0x" or "0X" after the sign. */
  predicate HexPrefixed(b: string)
  {
    |b| >= 2 && b[0] == '0' && (b[1] == 'x' || b[1] == 'X')
  }

  /**
   * `parseInt(s)` with no radix: leading white space, an optional sign, then
   * either "0x"/"0X" and the longest run of hexadecimal digits, or the
   * longest run of decimal digits; `None` stands for `NaN` (no digit in the
   * run that is read).
   */
  function ParseInt(s: string): (r: Option<int>)
    ensures var b := SignlessBody(TrimStart(s));
      r.None? <==> (if HexPrefixed(b) then HexDigitPrefix(b[2..]) == [] else DigitPrefix(b) == [])
  {
    var t := TrimStart(s);
    var b := SignlessBody(t);
    var magnitude :=
      if HexPrefixed(b) then
        var hs := HexDigitPrefix(b[2..]);
        if hs == [] then None else Some(HexValue(hs))
      else
        var ds := DigitPrefix(b);
        if ds == [] then None else Some(DecimalValue(ds));
    match magnitude
    case None => None
    case Some(m) => Some(if t[0] == '-' then -(m as int) else m)
  }

  function SignlessBody(t: string): string
  {
    if t != [] && (t[0] == '-' || t[0] == '+') then t[1..] else t
  }

  /** "0x" and a run of hexadecimal digits, alone, is read in base 16; "0x" with no digit is `NaN`. */
  lemma ParseIntOfHex(hs: string)
    requires AllHexDigits(hs)
    ensures ParseInt("0x" + hs) == if hs == [] then None else Some(HexValue(hs))
  {
    var s := "0x" + hs;
    assert TrimStart(s) == s;
    assert s[2..] == hs;
    HexDigitPrefixOfHexDigits(hs);
  }

  /** A signed run of digits with nothing around it is read whole. */
  lemma ParseIntOfNumeral(s: string, ds: string)
    requires s != [] && !IsSpace(s[0])
    requires ds != [] && AllDigits(ds) && SignlessBody(s) == ds
    ensures ParseInt(s) == Some(if s[0] == '-' then -(DecimalValue(ds) as int) else DecimalValue(ds))
  {
    DigitPrefixOfDigits(ds, []);
    assert ds + [] == ds;
    assert TrimStart(s) == s;
    assert |ds| >= 2 ==> IsDigit(ds[1]);
  }

  /** `parseInt` reads back every integer that `String(i)` writes. */
  lemma ParseIntOfIntToString(i: int)
    ensures ParseInt(IntToString(i)) == Some(i)
  {
    var s := IntToString(i);
    if i < 0 {
      var ds := NatToString(-i);
      assert s[1..] == ds;
      ParseIntOfNumeral(s, ds);
      DecimalValueOfNatToString(-i);
    } else {
      var ds := NatToString(i);
      assert IsDigit(s[0]);
      ParseIntOfNumeral(s, ds);
      DecimalValueOfNatToString(i);
    }
  }

  /** `toLowerCase` for ASCII and the Latin-1 letters French text uses (É, À, Ç, ...), plus Œ and Ÿ. */
  function LowerChar(c: char): char
  {
    if 'A' <= c <= 'Z' || ('À' <= c <= 'Þ' && c != '×') then (c as int + 32) as char
    else if c == 'Œ' then 'œ'
    else if c == 'Ÿ' then 'ÿ'
    else c
  }

  function ToLower(s: string): (r: string)
    ensures |r| == |s|
    ensures forall i :: 0 <= i < |s| ==> r[i] == LowerChar(s[i])
  {
    seq(|s|, i requires 0 <= i < |s| => LowerChar(s[i]))
  }

  /** Lower-casing twice is lower-casing once. */
  lemma ToLowerIdempotent(s: string)
    ensures ToLower(ToLower(s)) == ToLower(s)
  {
  }

  /** `s.includes(t)`. */
  predicate Contains(s: string, t: string)
  {
    exists i :: 0 <= i <= |s| && OccursAt(s, t, i)
  }

  predicate OccursAt(s: string, t: string, i: nat)
  {
    i + |t| <= |s| && s[i..i + |t|] == t
  }

  /** `s.endsWith(t)`. */
  predicate EndsWith(s: string, t: string)
  {
    |t| <= |s| && s[|s| - |t|..] == t
  }

  function IndexOf(s: string, c: char): (k: nat)
    requires c in s
    ensures k < |s| && s[k] == c && c !in s[..k]
  {
    if s[0] == c then 0 else 1 + IndexOf(s[1..], c)
  }

  /** `s.split(sep)` for a one-character separator. */
  function Split(s: string, sep: char): (parts: seq<string>)
    ensures |parts| >= 1
    decreases |s|
  {
    if sep !in s then [s]
    else
      var k := IndexOf(s, sep);
      [s[..k]] + Split(s[k + 1..], sep)
  }

  lemma SplitCons(a: string, sep: char, rest: string)
    requires sep !in a
    ensures Split(a + [sep] + rest, sep) == [a] + Split(rest, sep)
  {
    var s := a + [sep] + rest;
    assert s[|a|] == sep;
    var k := IndexOf(s, sep);
    assert forall j :: 0 <= j < |a| ==> s[j] == a[j];
    assert k == |a|;
    assert s[..k] == a && s[k + 1..] == rest;
    assert sep in s;
    assert Split(s, sep) == [s[..k]] + Split(s[k + 1..], sep);
  }

  /** Code-point order on strings, the model's stand-in for `localeCompare(...) <= 0`. */
  predicate LexLeq(a: string, b: string)
    decreases |a|
  {
    a == [] || (b != [] && (a[0] < b[0] || (a[0] == b[0] && LexLeq(a[1..], b[1..]))))
  }

  lemma {:induction false} LexLeqTotal(a: string, b: string)
    ensures LexLeq(a, b) || LexLeq(b, a)
    decreases |a|
  {
    if a != [] && b != [] && a[0] == b[0] {
      LexLeqTotal(a[1..], b[1..]);
    }
  }

  lemma {:induction false} LexLeqTransitive(a: string, b: string, c: string)
    requires LexLeq(a, b) && LexLeq(b, c)
    ensures LexLeq(a, c)
    decreases |a|
  {
    if a != [] && a[0] == b[0] && b[0] == c[0] {
      LexLeqTransitive(a[1..], b[1..], c[1..]);
    }
  }

  lemma {:induction false} LexLeqReflexive(a: string)
    ensures LexLeq(a, a)
    decreases |a|
  {
    if a != [] {
      LexLeqReflexive(a[1..]);
    }
  }
}
