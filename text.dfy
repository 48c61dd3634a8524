/** The JavaScript string operations the site relies on: `trim`, `\s`,
    ASCII case folding, `startsWith`, substring search, `substring`, and the
    decimal rendering of a number. */
module Text {

  /** The characters JavaScript counts as white space or line terminators:
      what `\s` matches and what `trim` strips. */
  predicate IsSpace(c: char) {
    var n := c as int;
    (9 <= n <= 13) || n == 32 || n == 0xA0 || n == 0x1680 || (0x2000 <= n <= 0x200A) ||
    n == 0x2028 || n == 0x2029 || n == 0x202F || n == 0x205F || n == 0x3000 || n == 0xFEFF
  }

  /** The characters a regular-expression `.` does not match. */
  predicate IsLineTerminator(c: char) {
    c == '\n' || c == '\r' || c as int == 0x2028 || c as int == 0x2029
  }

  /** The characters of `\w`, which decide where `\b` sits. */
  predicate IsWordChar(c: char) {
    ('a' <= c <= 'z') || ('A' <= c <= 'Z') || ('0' <= c <= '9') || c == '_'
  }

  predicate AllSpace(s: string) {
    forall i :: 0 <= i < |s| ==> IsSpace(s[i])
  }

  /** The emptiness test the form and the chat apply to `s.trim()`:
      `TrimEmptyIff` shows it holds exactly when trimming leaves nothing. */
  predicate IsBlank(s: string) {
    AllSpace(s)
  }

  function TrimStart(s: string): (r: string)
    ensures |r| <= |s| && r == s[|s| - |r|..]
    ensures forall i :: 0 <= i < |s| - |r| ==> IsSpace(s[i])
    ensures r == [] || !IsSpace(r[0])
  {
    if s != [] && IsSpace(s[0]) then
      var r := TrimStart(s[1..]);
      assert s[1..][|s| - 1 - |r|..] == s[|s| - |r|..];
      r
    else s
  }

  function TrimEnd(s: string): (r: string)
    ensures |r| <= |s| && r == s[..|r|]
    ensures forall i :: |r| <= i < |s| ==> IsSpace(s[i])
    ensures r == [] || !IsSpace(r[|r| - 1])
  {
    if s != [] && IsSpace(s[|s| - 1]) then TrimEnd(s[..|s| - 1]) else s
  }

  /** `String.prototype.trim`: white space cut from both ends. */
  function Trim(s: string): (r: string)
    ensures |r| <= |s|
    ensures r == [] || (!IsSpace(r[0]) && !IsSpace(r[|r| - 1]))
  {
    TrimEnd(TrimStart(s))
  }

  /** What `trim` keeps is an infix of the string, and what it cuts on
      either side is all white space. */
  lemma TrimInfix(s: string) returns (k: nat)
    ensures k <= |s| && |Trim(s)| <= |s[k..]|
    ensures Trim(s) == s[k..][..|Trim(s)|]
    ensures AllSpace(s[..k]) && AllSpace(s[k..][|Trim(s)|..])
  {
    var t := TrimStart(s);
    k := |s| - |t|;
    assert s[k..] == t;
  }

  /** A string trims to nothing exactly when it is all white space. */
  lemma TrimEmptyIff(s: string)
    ensures Trim(s) == [] <==> IsBlank(s)
  {
    var t := TrimStart(s);
    if Trim(s) == [] {
      assert TrimEnd(t) == [];
      assert s == s[..|s| - |t|];
    }
  }

  /** Lower-cases the ASCII letters and leaves every other character alone. */
  function LowerChar(c: char): char {
    if 'A' <= c <= 'Z' then (c as int + 32) as char else c
  }

  function ToLower(s: string): (r: string)
    ensures |r| == |s|
    ensures forall i :: 0 <= i < |r| ==> !('A' <= r[i] <= 'Z')
    ensures forall i :: 0 <= i < |r| ==> r[i] == s[i] || ('A' <= s[i] <= 'Z' && r[i] as int == s[i] as int + 32)
  {
    seq(|s|, i requires 0 <= i < |s| => LowerChar(s[i]))
  }

  predicate StartsWith(s: string, prefix: string) {
    |prefix| <= |s| && s[..|prefix|] == prefix
  }

  /** `s.includes(p)`: `p` occurs somewhere in `s`. */
  predicate Contains(s: string, p: string) {
    exists i :: 0 <= i <= |s| && StartsWith(s[i..], p)
  }

  /** `s.substring(from, to)` for `0 <= from <= to`: both ends are clamped
      to the length of `s`. */
  function Substring(s: string, from: nat, to: nat): (r: string)
    requires from <= to
    ensures |r| == (if to <= |s| then to else |s|) - (if from <= |s| then from else |s|)
    ensures to <= |s| ==> r == s[from..to]
  {
    var a := if from <= |s| then from else |s|;
    var b := if to <= |s| then to else |s|;
    s[a..b]
  }

  /** `s.replace(/\s+/g, '')`: every white-space character removed. */
  function RemoveSpaces(s: string): (r: string)
    ensures |r| <= |s|
    ensures forall i :: 0 <= i < |r| ==> !IsSpace(r[i])
    ensures (forall i :: 0 <= i < |s| ==> !IsSpace(s[i])) ==> r == s
    ensures |s| == 1 ==> r == if IsSpace(s[0]) then [] else s
  {
    if s == [] then []
    else (if IsSpace(s[0]) then [] else [s[0]]) + RemoveSpaces(s[1..])
  }

  /** Removing white space works piece by piece: with the one-character
      case of `RemoveSpaces`, this pins down the result for every string. */
  lemma {:induction false} RemoveSpacesAppend(a: string, b: string)
    ensures RemoveSpaces(a + b) == RemoveSpaces(a) + RemoveSpaces(b)
    decreases |a|
  {
    if a != [] {
      assert (a + b)[1..] == a[1..] + b;
      RemoveSpacesAppend(a[1..], b);
    } else {
      assert a + b == b;
    }
  }

  /** Three space-free groups separated by single spaces run together. */
  lemma RemoveSpacesGroups(a: string, b: string, c: string)
    requires forall i :: 0 <= i < |a| ==> !IsSpace(a[i])
    requires forall i :: 0 <= i < |b| ==> !IsSpace(b[i])
    requires forall i :: 0 <= i < |c| ==> !IsSpace(c[i])
    ensures RemoveSpaces(a + " " + b + " " + c) == a + b + c
  {
    var sp := RemoveSpaces(" ");
    assert sp == [];
    RemoveSpacesAppend(a, " ");
    assert RemoveSpaces(a + " ") == a;
    RemoveSpacesAppend(a + " ", b);
    assert RemoveSpaces(a + " " + b) == a + b;
    RemoveSpacesAppend(a + " " + b, " ");
    assert RemoveSpaces(a + " " + b + " ") == a + b;
    RemoveSpacesAppend(a + " " + b + " ", c);
  }

  predicate IsDigit(c: char) {
    '0' <= c <= '9'
  }

  predicate AllDigits(s: string) {
    forall i :: 0 <= i < |s| ==> IsDigit(s[i])
  }

  /** `n.toString()` for a non-negative integer: decimal, no leading zero. */
  function DecimalString(n: nat): (r: string)
    ensures |r| >= 1 && AllDigits(r)
    ensures |r| > 1 ==> r[0] != '0'
  {
    if n < 10 then [('0' as int + n) as char]
    else DecimalString(n / 10) + [('0' as int + n % 10) as char]
  }

  /** The number a string of decimal digits denotes. */
  function DigitsValue(s: string): nat
    requires AllDigits(s)
  {
    if s == [] then 0 else DigitsValue(s[..|s| - 1]) * 10 + (s[|s| - 1] as int - '0' as int)
  }

  /** Reading back the decimal rendering of `n` gives `n`. */
  lemma {:induction false} DecimalRoundTrip(n: nat)
    ensures DigitsValue(DecimalString(n)) == n
  {
    if n >= 10 {
      var r := DecimalString(n);
      DecimalRoundTrip(n / 10);
      assert r[..|r| - 1] == DecimalString(n / 10);
    }
  }

  /** `s.slice(-k)` for `k > 0`: the last `k` characters, or all of `s`. */
  function LastChars(s: string, k: nat): (r: string)
    ensures |r| == if |s| < k then |s| else k
    ensures r == s[|s| - |r|..]
  {
    if |s| < k then s else s[|s| - k..]
  }

  /** Ten to the power `k`. */
  function Pow10(k: nat): (r: nat)
    ensures r >= 1 && (k >= 1 ==> r >= 10)
  {
    if k == 0 then 1 else 10 * Pow10(k - 1)
  }

  /** `x % m` is the remainder of any split of `x` into a multiple of `m`
      and a part below `m`. */
  lemma ModOfSplit(x: int, m: int, a: int, b: int)
    requires m > 0 && 0 <= b < m && x == a * m + b
    ensures x % m == b
  {
    var a2 := x / m;
    var b2 := x % m;
    assert x == a2 * m + b2;
    var d := a - a2;
    assert d * m == a * m - a2 * m;
    assert d * m == b2 - b;
  }

  /** Dropping the last decimal digit and keeping `k - 1` more is keeping
      `k` digits: `(n / 10) % p * 10 + n % 10 == n % (10 * p)`. */
  lemma ModShift(n: nat, p: nat)
    requires p >= 1
    ensures (n / 10) % p * 10 + n % 10 == n % (10 * p)
  {
    var q := n / 10;
    assert n == 10 * q + n % 10;
    assert q == (q / p) * p + q % p;
    assert n == (q / p) * (10 * p) + (10 * (q % p) + n % 10);
    ModOfSplit(n, 10 * p, q / p, 10 * (q % p) + n % 10);
  }

  /** Appending a digit shifts the value one decimal place. */
  lemma DigitsValueSnoc(t: string, c: char)
    requires AllDigits(t) && IsDigit(c)
    ensures AllDigits(t + [c])
    ensures DigitsValue(t + [c]) == DigitsValue(t) * 10 + (c as int - '0' as int)
  {
    assert (t + [c])[..|t|] == t;
  }

  /** Keeping the last `k` characters of a string with one more character
      at its end keeps that character and `k - 1` before it. */
  lemma LastCharsSnoc(t: string, c: char, k: nat)
    requires k >= 1
    ensures LastChars(t + [c], k) == LastChars(t, k - 1) + [c]
  {
    var s := t + [c];
    if |s| >= k {
      assert s[|s| - k..] == t[|t| - (k - 1)..] + [c];
    }
  }

  /** The last characters of a digit string are digits. */
  lemma LastCharsDigits(s: string, k: nat)
    requires AllDigits(s)
    ensures AllDigits(LastChars(s, k))
  {
    var r := LastChars(s, k);
    forall i | 0 <= i < |r| ensures IsDigit(r[i]) {
      assert r[i] == s[|s| - |r| + i];
    }
  }

  /** The number the last `k` decimal digits of `n` denote, digit by
      digit. */
  function LowDigits(n: nat, k: nat): nat {
    if k == 0 then 0 else LowDigits(n / 10, k - 1) * 10 + n % 10
  }

  /** Digit by digit is the remainder by `10^k`. */
  lemma {:induction false} LowDigitsMod(n: nat, k: nat)
    ensures LowDigits(n, k) == n % Pow10(k)
  {
    if k > 0 {
      LowDigitsMod(n / 10, k - 1);
      ModShift(n, Pow10(k - 1));
    }
  }

  /** The last `k` digits of zero denote zero. */
  lemma {:induction false} LowDigitsZero(k: nat)
    ensures LowDigits(0, k) == 0
  {
    if k > 0 {
      LowDigitsZero(k - 1);
    }
  }

  /** Keeping at least as many characters as there are keeps them all. */
  lemma LastCharsWhole(s: string, k: nat)
    requires |s| <= k
    ensures LastChars(s, k) == s
  {
  }

  /** A one-digit number is its own last `k >= 1` digits. */
  lemma LowDigitsOfDigit(n: nat, k: nat)
    requires n < 10 && k >= 1
    ensures LowDigits(n, k) == n
  {
    LowDigitsZero(k - 1);
    assert n / 10 == 0 && n % 10 == n;
  }

  /** The last `k` characters of the rendering of `n >= 10` are the last
      `k - 1` of the rendering of `n / 10`, then the digit of `n % 10`. */
  lemma LastCharsStep(n: nat, k: nat) returns (c: char)
    requires n >= 10 && k >= 1
    ensures IsDigit(c) && c as int - '0' as int == n % 10
    ensures LastChars(DecimalString(n), k) == LastChars(DecimalString(n / 10), k - 1) + [c]
  {
    var t := DecimalString(n / 10);
    c := ('0' as int + n % 10) as char;
    assert DecimalString(n) == t + [c];
    LastCharsSnoc(t, c, k);
  }

  /** The last `k` characters of the decimal rendering of `n` are digits
      denoting its last `k` digits. */
  lemma {:induction false} LastCharsLowDigits(n: nat, k: nat)
    ensures AllDigits(LastChars(DecimalString(n), k))
    ensures DigitsValue(LastChars(DecimalString(n), k)) == LowDigits(n, k)
    decreases n
  {
    LastCharsDigits(DecimalString(n), k);
    if k == 0 {
    } else if n < 10 {
      LastCharsWhole(DecimalString(n), k);
      DecimalRoundTrip(n);
      LowDigitsOfDigit(n, k);
    } else {
      var c := LastCharsStep(n, k);
      LastCharsLowDigits(n / 10, k - 1);
      DigitsValueSnoc(LastChars(DecimalString(n / 10), k - 1), c);
    }
  }

  /** The last `k` characters of the decimal rendering of `n` denote
      `n % 10^k`: what `n.toString().slice(-k)` keeps of the number. */
  lemma LastDigitsValue(n: nat, k: nat)
    ensures AllDigits(LastChars(DecimalString(n), k))
    ensures DigitsValue(LastChars(DecimalString(n), k)) == n % Pow10(k)
  {
    LastCharsLowDigits(n, k);
    LowDigitsMod(n, k);
  }
}
