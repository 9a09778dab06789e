/**
 * The string primitives the source relies on, with JavaScript's meaning:
 * `trim`, `toLowerCase`, `includes`, `Number.prototype.toString` on
 * non-negative integers, `slice(-k)` and `parseInt` with radix 10.
 */
module Text {

  /** White space and line terminators as `String.prototype.trim` removes them. */
  predicate IsSpace(c: char) {
    || c == ' ' || c == '\t' || c == '\n' || c == '\U{000B}' || c == '\U{000C}' || c == '\r'
    || c == '\U{00A0}' || c == '\U{1680}' || ('\U{2000}' <= c <= '\U{200A}')
    || c == '\U{2028}' || c == '\U{2029}' || c == '\U{202F}' || c == '\U{205F}'
    || c == '\U{3000}' || c == '\U{FEFF}'
  }

  /** `s.trimStart()`: drops the leading run of white space and nothing else. */
  function TrimStart(s: string): (r: string)
    ensures |r| <= |s| && r == s[|s| - |r|..]
    ensures forall i :: 0 <= i < |s| - |r| ==> IsSpace(s[i])
    ensures r == [] || !IsSpace(r[0])
  {
    if s == [] || !IsSpace(s[0]) then s else TrimStart(s[1..])
  }

  /** `s.trimEnd()`: drops the trailing run of white space and nothing else. */
  function TrimEnd(s: string): (r: string)
    ensures |r| <= |s| && r == s[..|r|]
    ensures forall i :: |r| <= i < |s| ==> IsSpace(s[i])
    ensures r == [] || !IsSpace(r[|r| - 1])
  {
    if s == [] || !IsSpace(s[|s| - 1]) then s else TrimEnd(s[..|s| - 1])
  }

  /** `r` is `s` with `lead` white-space characters cut off the front and only white space off the back. */
  predicate TrimmedAt(s: string, r: string, lead: int) {
    && 0 <= lead <= |s| - |r| && r == s[lead..lead + |r|]
    && (forall i :: 0 <= i < lead ==> IsSpace(s[i]))
    && (forall i :: lead + |r| <= i < |s| ==> IsSpace(s[i]))
  }

  /** `s.trim()`: a contiguous piece of `s` with only white space cut off either side. */
  function Trim(s: string): (r: string)
    ensures |r| <= |s|
    ensures r == [] || (!IsSpace(r[0]) && !IsSpace(r[|r| - 1]))
  {
    TrimEnd(TrimStart(s))
  }

  /** Trimming in two stages cuts only white space overall. */
  lemma TrimmedCompose(s: string, t: string, r: string, a: nat, b: nat)
    requires TrimmedAt(s, t, a) && TrimmedAt(t, r, b)
    ensures TrimmedAt(s, r, a + b)
  {
    forall j | 0 <= j < |r| ensures r[j] == s[a + b + j] {
      assert r[j] == t[b + j];
    }
    forall i | a <= i < a + b ensures IsSpace(s[i]) {
      assert s[i] == t[i - a];
    }
    forall i | a + b + |r| <= i < a + |t| ensures IsSpace(s[i]) {
      assert s[i] == t[i - a];
    }
  }

  /** What `trim` cuts off either side of its result is white space, and nothing inside is touched. */
  lemma TrimCutsOnlySpace(s: string)
    ensures exists lead :: TrimmedAt(s, Trim(s), lead)
  {
    var t := TrimStart(s);
    var r := TrimEnd(t);
    assert TrimmedAt(s, t, |s| - |t|);
    assert TrimmedAt(t, r, 0);
    TrimmedCompose(s, t, r, |s| - |t|, 0);
    assert r == Trim(s);
  }

  /** `!s.trim()`: the string is empty or white space only. */
  predicate IsBlank(s: string) {
    Trim(s) == []
  }

  /** A string is blank exactly when every character of it is white space. */
  lemma BlankIsAllSpace(s: string)
    ensures IsBlank(s) <==> forall i :: 0 <= i < |s| ==> IsSpace(s[i])
  {
    TrimCutsOnlySpace(s);
  }

  /** A string without white space at either end is its own trim. */
  lemma TrimOfTrimmed(s: string)
    requires s == [] || (!IsSpace(s[0]) && !IsSpace(s[|s| - 1]))
    ensures Trim(s) == s
  {
    assert TrimStart(s) == s;
  }

  /** Trimming twice is trimming once. */
  lemma TrimIdempotent(s: string)
    ensures Trim(Trim(s)) == Trim(s)
  {
    var t := Trim(s);
    TrimOfTrimmed(t);
  }

  /**
   * `toLowerCase` on one character. Folded: ASCII A-Z, the Latin-1 capitals
   * U+00C0-U+00DE except the multiplication sign, and the Hungarian double-acute
   * capitals Ő and Ű. Every other character is left as it is.
   */
  function LowerChar(c: char): char {
    if 'A' <= c <= 'Z' then (c as int + 32) as char
    else if '\U{00C0}' <= c <= '\U{00DE}' && c != '\U{00D7}' then (c as int + 32) as char
    else if c == '\U{0150}' then '\U{0151}'
    else if c == '\U{0170}' then '\U{0171}'
    else c
  }

  /** Trimming again changes neither the text nor whether it is blank. */
  lemma TrimmedBlank(s: string)
    ensures Trim(Trim(s)) == Trim(s) && IsBlank(Trim(s)) == IsBlank(s)
  {
    TrimIdempotent(s);
  }

  /** `s.toLowerCase()`: folds character by character and keeps the length. */
  function Lower(s: string): (r: string)
    ensures |r| == |s| && forall i :: 0 <= i < |s| ==> r[i] == LowerChar(s[i])
  {
    if s == [] then [] else [LowerChar(s[0])] + Lower(s[1..])
  }

  /** Lower-casing twice is lower-casing once. */
  lemma LowerIdempotent(s: string)
    ensures Lower(Lower(s)) == Lower(s)
  {
    assert forall i :: 0 <= i < |s| ==> LowerChar(LowerChar(s[i])) == LowerChar(s[i]);
  }

  /** `q` occurs in `s` starting at index `i`. */
  predicate OccursAt(s: string, q: string, i: int) {
    0 <= i <= |s| - |q| && s[i..i + |q|] == q
  }

  /** `s.includes(q)`: `q` occurs somewhere in `s` as a contiguous piece. */
  function Contains(s: string, q: string): (b: bool)
    ensures b <==> exists i :: OccursAt(s, q, i)
  {
    if |q| <= |s| && s[..|q|] == q then
      assert OccursAt(s, q, 0);
      true
    else if s == [] then
      false
    else
      var b := Contains(s[1..], q);
      assert forall i :: OccursAt(s[1..], q, i) ==> OccursAt(s, q, i + 1);
      assert forall i :: OccursAt(s, q, i) ==> i == 0 || OccursAt(s[1..], q, i - 1);
      b
  }

  /** A character outside the Basic Multilingual Plane, which JavaScript stores as a surrogate pair. */
  predicate IsAstral(c: char) { c as int > 0xFFFF }

  /** `s.length`: the number of UTF-16 code units, so an astral character counts twice. */
  function JsLength(s: string): (n: nat)
    ensures |s| <= n <= 2 * |s|
    ensures n == |s| <==> forall i :: 0 <= i < |s| ==> !IsAstral(s[i])
  {
    if s == [] then 0
    else
      var n := (if IsAstral(s[0]) then 2 else 1) + JsLength(s[1..]);
      assert forall i :: 1 <= i < |s| ==> s[i] == s[1..][i - 1];
      n
  }

  /** The code units of two joined texts add up. */
  lemma {:induction false} JsLengthAppend(a: string, b: string)
    ensures JsLength(a + b) == JsLength(a) + JsLength(b)
  {
    if a == [] {
      assert a + b == b;
    } else {
      assert (a + b)[1..] == a[1..] + b;
      JsLengthAppend(a[1..], b);
    }
  }

  /** A piece cut from either end of a text has no more code units than the text. */
  lemma JsLengthOfPiece(s: string, k: nat)
    requires k <= |s|
    ensures JsLength(s[..k]) <= JsLength(s) && JsLength(s[k..]) <= JsLength(s)
  {
    assert s == s[..k] + s[k..];
    JsLengthAppend(s[..k], s[k..]);
  }

  /** Trimming never lengthens a text in code units. */
  lemma TrimShortens(s: string)
    ensures JsLength(Trim(s)) <= JsLength(s)
  {
    var t := TrimStart(s);
    JsLengthOfPiece(s, |s| - |t|);
    JsLengthOfPiece(t, |TrimEnd(t)|);
  }

  /** Two emoji are two characters here but four code units in JavaScript. */
  lemma JsLengthOfEmojiPair()
    ensures |"\U{1F600}\U{1F600}"| == 2 && JsLength("\U{1F600}\U{1F600}") == 4
  {
    var s := "\U{1F600}\U{1F600}";
    assert IsAstral(s[0]) && IsAstral(s[1]);
    assert s[1..][1..] == [];
  }

  /** Every string includes the empty string, and every string includes itself. */
  lemma ContainsTrivial(s: string)
    ensures Contains(s, "") && Contains(s, s)
  {
    assert OccursAt(s, "", 0);
    assert OccursAt(s, s, 0);
  }

  predicate IsDigit(c: char) { '0' <= c <= '9' }

  predicate AllDigits(s: string) { forall i :: 0 <= i < |s| ==> IsDigit(s[i]) }

  function DigitChar(d: nat): (c: char)
    requires d < 10
    ensures IsDigit(c)
  {
    ('0' as int + d) as char
  }

  function DigitValue(c: char): (d: nat)
    requires IsDigit(c)
    ensures d < 10 && DigitChar(d) == c
  {
    c as int - '0' as int
  }

  /** The number a string of decimal digits denotes (read left to right, as `parseInt` does). */
  function DigitsValue(s: string): nat
    requires AllDigits(s)
  {
    if s == [] then 0 else DigitsValue(s[..|s| - 1]) * 10 + DigitValue(s[|s| - 1])
  }

  /** `n.toString()` for a non-negative integer: decimal digits, no leading zero. */
  function NatToString(n: nat): (r: string)
    ensures |r| >= 1 && AllDigits(r)
    ensures |r| > 1 ==> r[0] != '0'
  {
    if n < 10 then [DigitChar(n)] else NatToString(n / 10) + [DigitChar(n % 10)]
  }

  /** `i.toString()` for any integer. */
  function IntToString(i: int): (r: string)
    ensures |r| >= 1
    ensures i < 0 <==> r[0] == '-'
  {
    if i < 0 then "-" + NatToString(-i) else NatToString(i)
  }

  /**
   * JavaScript's `a % b` for a positive `b`: the remainder takes the sign of
   * `a` (Dafny's `%` never goes negative).
   */
  function JsRemainder(a: int, b: int): (r: int)
    requires b > 0
    ensures a >= 0 ==> 0 <= r < b
    ensures a < 0 ==> -b < r <= 0
  {
    if a >= 0 then a % b else -((-a) % b)
  }

  /** The decimal digits of `n` denote `n`. */
  lemma {:induction false} NatToStringValue(n: nat)
    ensures DigitsValue(NatToString(n)) == n
  {
    if n >= 10 {
      NatToStringValue(n / 10);
      var s := NatToString(n);
      assert s[..|s| - 1] == NatToString(n / 10);
    }
  }

  function Pow10(k: nat): (p: nat)
    ensures p >= 1
  {
    if k == 0 then 1 else 10 * Pow10(k - 1)
  }

  /** A digit string of length `k` denotes a number below `10^k`. */
  lemma {:induction false} DigitsValueBound(s: string)
    requires AllDigits(s)
    ensures DigitsValue(s) < Pow10(|s|)
  {
    if s != [] {
      DigitsValueBound(s[..|s| - 1]);
    }
  }

  /** `s.slice(-k)` for `k > 0`: the last `k` characters, or all of `s` when it is shorter. */
  function LastChars(s: string, k: nat): (r: string)
    ensures |r| == if |s| < k then |s| else k
    ensures r == s[|s| - |r|..]
  {
    if |s| <= k then s else s[|s| - k..]
  }

  /** The value of a concatenation of digit strings: the front shifted left by the length of the back. */
  lemma {:induction false} DigitsValueAppend(a: string, b: string)
    requires AllDigits(a) && AllDigits(b)
    ensures AllDigits(a + b)
    ensures DigitsValue(a + b) == DigitsValue(a) * Pow10(|b|) + DigitsValue(b)
  {
    assert AllDigits(a + b) by {
      forall i | 0 <= i < |a + b| ensures IsDigit((a + b)[i]) {
        if i >= |a| { assert (a + b)[i] == b[i - |a|]; }
      }
    }
    if b == [] {
      assert a + b == a;
    } else {
      var b' := b[..|b| - 1];
      var d := DigitValue(b[|b| - 1]);
      DigitsValueAppend(a, b');
      assert (a + b)[..|a + b| - 1] == a + b';
      assert (a + b)[|a + b| - 1] == b[|b| - 1];
      ShiftDigit(DigitsValue(a), Pow10(|b'|), DigitsValue(b'), d);
    }
  }

  /** Appending digit `d` on the right of `a * p + l` multiplies the shift by ten. */
  lemma ShiftDigit(a: int, p: int, l: int, d: int)
    ensures (a * p + l) * 10 + d == a * (10 * p) + (l * 10 + d)
  {
  }

  /**
   * A digit string splits into its last `k` digits and the rest:
   * its value is `rest * 10^|last| + last`, and the last `k` digits denote less than `10^k`.
   */
  lemma LastDigitsValue(s: string, k: nat)
    requires AllDigits(s)
    ensures var last := LastChars(s, k);
            DigitsValue(s) == DigitsValue(s[..|s| - |last|]) * Pow10(|last|) + DigitsValue(last)
            && DigitsValue(last) < Pow10(k)
  {
    var last := LastChars(s, k);
    var front := s[..|s| - |last|];
    assert s == front + last;
    DigitsValueAppend(front, last);
    DigitsValueBound(last);
    PowMonotone(|last|, k);
  }

  lemma {:induction false} PowMonotone(i: nat, j: nat)
    requires i <= j
    ensures Pow10(i) <= Pow10(j)
  {
    if i < j { PowMonotone(i, j - 1); }
  }

  /** The number `parseInt` produces: a finite integer or `NaN`. */
  datatype JsNumber = Num(value: int) | NaN {
    /** `x <= 0` in JavaScript: false for NaN. */
    predicate AtMostZero() { Num? && value <= 0 }
  }

  /** The length of the leading run of decimal digits. */
  function DigitRun(s: string): (k: nat)
    ensures k <= |s| && AllDigits(s[..k])
    ensures k == |s| || !IsDigit(s[k])
  {
    if s == [] || !IsDigit(s[0]) then 0
    else
      var k := 1 + DigitRun(s[1..]);
      assert s[..k] == [s[0]] + s[1..][..k - 1];
      k
  }

  /** What follows one optional leading sign. */
  function AfterSign(t: string): string {
    if t != [] && (t[0] == '-' || t[0] == '+') then t[1..] else t
  }

  /**
   * `parseInt(s)` (radix 10): leading white space is skipped, one optional sign is
   * read, then the longest run of digits; anything after the digits is ignored, and
   * no digits at all gives `NaN`.
   */
  function ParseInt(s: string): (r: JsNumber)
    ensures r == NaN <==> (var u := AfterSign(TrimStart(s)); u == [] || !IsDigit(u[0]))
  {
    var t := TrimStart(s);
    var u := AfterSign(t);
    var k := DigitRun(u);
    if k == 0 then NaN
    else
      var v: int := DigitsValue(u[..k]);
      Num(if t[0] == '-' then -v else v)
  }

  /** `parseInt` reads back what `toString` printed, and ignores a tail that does not start with a digit. */
  lemma ParseIntOfIntToString(i: int, tail: string)
    requires tail == [] || !IsDigit(tail[0])
    ensures ParseInt(IntToString(i) + tail) == Num(i)
  {
    var n: nat := if i < 0 then -i else i;
    NatToStringValue(n);
    ParseIntReads(IntToString(i) + tail, i < 0, NatToString(n), tail);
  }

  /** Text that starts with anything but white space, a sign or a digit does not parse. */
  lemma NonNumericIsNaN(s: string)
    requires s != [] && !IsSpace(s[0]) && s[0] != '-' && s[0] != '+' && !IsDigit(s[0])
    ensures ParseInt(s) == NaN
  {
    NothingToTrim(s);
    assert AfterSign(s) == s;
  }

  /** `parseInt('1')` is 1. */
  lemma ParseIntOne()
    ensures ParseInt("1") == Num(1)
  {
    PrintedNumberParses(1);
    assert IntToString(1) == "1";
  }

  /** `parseInt` reads back a printed integer. */
  lemma PrintedNumberParses(i: int)
    ensures IntToString(i) != "" && ParseInt(IntToString(i)) == Num(i)
  {
    ParseIntOfIntToString(i, "");
    assert IntToString(i) + "" == IntToString(i);
  }

  /** `parseInt` on an optional minus sign, a run of digits and a tail that does not start with a digit. */
  lemma ParseIntReads(s: string, neg: bool, digits: string, tail: string)
    requires AllDigits(digits) && digits != []
    requires tail == [] || !IsDigit(tail[0])
    requires s == (if neg then "-" else "") + digits + tail
    ensures var v: int := DigitsValue(digits); ParseInt(s) == Num(if neg then -v else v)
  {
    var sign: string := if neg then "-" else "";
    var body := digits + tail;
    assert s == sign + body by {
      assert sign + digits + tail == sign + (digits + tail);
    }
    DigitsThenTail(digits, tail);
    SignedStart(s, neg, body);
    ParseIntSigned(s, neg, body, |digits|, DigitsValue(digits));
  }

  /** `parseInt` once its three steps (trim, sign, digit run) are known. */
  lemma ParseIntSigned(s: string, neg: bool, u: string, k: nat, v: int)
    requires TrimStart(s) == s && AfterSign(s) == u && s != [] && (s[0] == '-') == neg
    requires DigitRun(u) == k && k > 0 && DigitsValue(u[..k]) == v
    ensures ParseInt(s) == Num(if neg then -v else v)
  {
  }

  /** Digits followed by a tail that does not start with one: the run is exactly the digits. */
  lemma DigitsThenTail(digits: string, tail: string)
    requires AllDigits(digits) && digits != []
    requires tail == [] || !IsDigit(tail[0])
    ensures var body := digits + tail;
            body != [] && IsDigit(body[0]) && DigitRun(body) == |digits| && body[..|digits|] == digits
  {
    var body := digits + tail;
    assert body[0] == digits[0];
    DigitRunOfDigits(digits, tail);
    assert body[..|digits|] == digits;
  }

  /** Text made of an optional minus sign and then a digit has no white space to skip and one sign to read. */
  lemma SignedStart(s: string, neg: bool, body: string)
    requires body != [] && IsDigit(body[0])
    requires s == (if neg then "-" else "") + body
    ensures TrimStart(s) == s && AfterSign(s) == body && (s[0] == '-') == neg
  {
    if neg {
      assert s[0] == '-' && s[1..] == body;
    } else {
      assert s == body;
    }
    assert !IsSpace(s[0]);
    NothingToTrim(s);
  }

  lemma NothingToTrim(s: string)
    requires s != [] && !IsSpace(s[0])
    ensures TrimStart(s) == s
  {
  }

  lemma {:induction false} DigitRunOfDigits(digits: string, tail: string)
    requires AllDigits(digits)
    requires tail == [] || !IsDigit(tail[0])
    ensures DigitRun(digits + tail) == |digits|
  {
    if digits != [] {
      assert (digits + tail)[1..] == digits[1..] + tail;
      DigitRunOfDigits(digits[1..], tail);
    }
  }
}
