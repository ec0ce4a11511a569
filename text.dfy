/**
 * The string operations the command handlers rely on: Python's
 * `str.split()` with no argument, `int()` on a decimal string and
 * `str()` of an integer (as used by f-strings and the csv writer).
 */
module Text {
  import opened Wrappers

  /** Python's `str.isspace` for one character. */
  predicate IsSpace(c: char) {
    var n := c as int;
    n == 0x20 || 0x09 <= n <= 0x0D || 0x1C <= n <= 0x1F || n == 0x85 || n == 0xA0
    || n == 0x1680 || 0x2000 <= n <= 0x200A || n == 0x2028 || n == 0x2029
    || n == 0x202F || n == 0x205F || n == 0x3000
  }

  /** A word produced by `split()`: non-empty and free of whitespace. */
  predicate IsToken(t: string) {
    |t| > 0 && forall i :: 0 <= i < |t| ==> !IsSpace(t[i])
  }

  /** Length of the longest whitespace-free prefix of `s`. */
  function RunLength(s: string): (n: nat)
    ensures n <= |s|
    ensures forall i :: 0 <= i < n ==> !IsSpace(s[i])
    ensures n < |s| ==> IsSpace(s[n])
  {
    if s == [] || IsSpace(s[0]) then 0 else 1 + RunLength(s[1..])
  }

  /** `s.split()`: the maximal whitespace-free runs of `s`, in order. */
  function Split(s: string): (r: seq<string>)
    ensures forall i :: 0 <= i < |r| ==> IsToken(r[i])
    decreases |s|
  {
    if s == [] then []
    else if IsSpace(s[0]) then Split(s[1..])
    else
      var n := RunLength(s);
      [s[..n]] + Split(s[n..])
  }

  /** `' '.join(ts)`. */
  function JoinSpace(ts: seq<string>): string {
    if ts == [] then ""
    else if |ts| == 1 then ts[0]
    else ts[0] + " " + JoinSpace(ts[1..])
  }

  lemma {:induction false} RunLengthOfToken(t: string, rest: string)
    requires IsToken(t)
    requires rest == [] || IsSpace(rest[0])
    ensures RunLength(t + rest) == |t|
    decreases |t|
  {
    var s := t + rest;
    assert s[0] == t[0];
    if |t| > 1 {
      assert s[1..] == t[1..] + rest;
      RunLengthOfToken(t[1..], rest);
    } else {
      assert s[1..] == rest;
    }
  }

  /** Splitting words joined by single spaces gives the words back. */
  lemma {:induction false} SplitJoin(ts: seq<string>)
    requires forall i :: 0 <= i < |ts| ==> IsToken(ts[i])
    ensures Split(JoinSpace(ts)) == ts
  {
    if ts == [] {
    } else if |ts| == 1 {
      var t := ts[0];
      RunLengthOfToken(t, []);
      assert t + [] == t;
      assert t[..|t|] == t && t[|t|..] == [];
    } else {
      var t, rest := ts[0], JoinSpace(ts[1..]);
      var s := t + " " + rest;
      assert s == t + (" " + rest);
      RunLengthOfToken(t, " " + rest);
      assert s[..|t|] == t;
      assert s[|t|..] == " " + rest;
      assert (" " + rest)[1..] == rest;
      SplitJoin(ts[1..]);
    }
  }

  /** A string holding no word splits to nothing. */
  lemma {:induction false} SplitBlank(s: string)
    requires forall i :: 0 <= i < |s| ==> IsSpace(s[i])
    ensures Split(s) == []
    decreases |s|
  {
    if s != [] {
      SplitBlank(s[1..]);
    }
  }

  predicate IsDigit(c: char) {
    '0' <= c <= '9'
  }

  function DigitChar(d: nat): (c: char)
    requires d < 10
    ensures IsDigit(c)
  {
    "0123456789"[d]
  }

  function DigitValue(c: char): (d: nat)
    requires IsDigit(c)
    ensures d < 10
  {
    c as int - '0' as int
  }

  /** Decimal digits of `n`, most significant first, without leading zeros. */
  function NatToString(n: nat): (s: string)
    ensures |s| > 0 && forall i :: 0 <= i < |s| ==> IsDigit(s[i])
    ensures |s| > 1 ==> s[0] != '0'
  {
    if n < 10 then [DigitChar(n)] else NatToString(n / 10) + [DigitChar(n % 10)]
  }

  /** `str(i)` for a Python int. */
  function IntToString(i: int): string {
    if i < 0 then "-" + NatToString(-i) else NatToString(i)
  }

  /** `str(i)` is a single `split()` token. */
  lemma IntToStringToken(i: int)
    ensures IsToken(IntToString(i))
  {
    var t := IntToString(i);
    if i < 0 {
      var d := NatToString(-i);
      forall j | 0 <= j < |t| ensures !IsSpace(t[j]) {
        if j > 0 {
          assert t[j] == d[j - 1];
        }
      }
    }
  }

  /**
   * The digit part `int()` accepts: ASCII digits, single underscores
   * allowed only between two digits.
   */
  predicate IsDecimal(s: string) {
    && |s| > 0
    && DigitsOrUnderscores(s)
    && forall i :: 0 <= i < |s| && s[i] == '_' ==> 0 < i < |s| - 1 && IsDigit(s[i - 1]) && IsDigit(s[i + 1])
  }

  predicate DigitsOrUnderscores(s: string) {
    forall i :: 0 <= i < |s| ==> IsDigit(s[i]) || s[i] == '_'
  }

  /** Value of digits and underscores, underscores ignored. */
  function DecimalValue(s: string): nat
    requires DigitsOrUnderscores(s)
  {
    if s == [] then 0
    else if s[|s| - 1] == '_' then DecimalValue(s[..|s| - 1])
    else DecimalValue(s[..|s| - 1]) * 10 + DigitValue(s[|s| - 1])
  }

  function StripStart(s: string): (r: string)
    ensures r == [] || !IsSpace(r[0])
  {
    if s != [] && IsSpace(s[0]) then StripStart(s[1..]) else s
  }

  function StripEnd(s: string): (r: string)
    ensures r == [] || !IsSpace(r[|r| - 1])
  {
    if s != [] && IsSpace(s[|s| - 1]) then StripEnd(s[..|s| - 1]) else s
  }

  /** `s.strip()`: leading and trailing whitespace removed. */
  function Strip(s: string): string {
    StripEnd(StripStart(s))
  }

  /**
   * `int(s)` for base 10: surrounding whitespace, an optional sign, then a
   * decimal digit part; `None` where Python raises `ValueError`.
   */
  function ParseInt(s: string): Option<int> {
    var t := Strip(s);
    if |t| > 0 && (t[0] == '+' || t[0] == '-') then
      if IsDecimal(t[1..]) then
        var v := DecimalValue(t[1..]) as int;
        Some(if t[0] == '-' then -v else v)
      else None
    else if IsDecimal(t) then Some(DecimalValue(t))
    else None
  }

  lemma {:induction false} DecimalValueOfNat(n: nat)
    ensures IsDecimal(NatToString(n))
    ensures DecimalValue(NatToString(n)) == n
  {
    var s := NatToString(n);
    if n >= 10 {
      DecimalValueOfNat(n / 10);
      assert s[..|s| - 1] == NatToString(n / 10);
    }
  }

  /** `int(str(i)) == i`. */
  lemma ParseIntToString(i: int)
    ensures ParseInt(IntToString(i)) == Some(i)
  {
    var s := IntToString(i);
    var d := if i < 0 then -i else i;
    DecimalValueOfNat(d);
    var ds := NatToString(d);
    assert !IsSpace(s[0]) && !IsSpace(s[|s| - 1]);
    assert StripStart(s) == s;
    assert StripEnd(s) == s;
    if i < 0 {
      assert s[1..] == ds;
    } else {
      assert s == ds;
    }
  }

  /** A word with a character outside digits, `_`, `+` and `-` is not an integer. */
  lemma ParseIntRejects(t: string, k: nat)
    requires IsToken(t) && k < |t|
    requires !IsDigit(t[k]) && t[k] != '_' && t[k] != '+' && t[k] != '-'
    ensures ParseInt(t) == None
  {
    assert StripStart(t) == t;
    assert StripEnd(t) == t;
    if t[0] == '+' || t[0] == '-' {
      assert k > 0 && t[1..][k - 1] == t[k];
      assert !DigitsOrUnderscores(t[1..]);
    } else {
      assert !DigitsOrUnderscores(t);
    }
  }
}
