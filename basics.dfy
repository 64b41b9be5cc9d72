/**
 * Shared vocabulary: optional values, C-locale character classes, scanning
 * of white space and decimal digit runs, and the `std::stoi` conversion.
 */
module Basics {

  datatype Option<T> = None | Some(value: T)

  /** A value, or the message of the exception that replaced it. */
  datatype Result<T> = Ok(value: T) | Err(error: string)

  const INT_MAX: int := 0x7FFF_FFFF
  const INT_MIN: int := -0x8000_0000

  /** `static_cast<int>` of a wider integer: its low 32 bits, read as a signed value. */
  function ToInt32(n: int): (r: int)
    ensures INT_MIN <= r <= INT_MAX
    ensures INT_MIN <= n <= INT_MAX ==> r == n
    ensures 0 <= n ==> r <= n
  {
    (n - INT_MIN) % 0x1_0000_0000 + INT_MIN
  }

  /** `ToInt32` keeps the value modulo 2^32. */
  lemma ToInt32Wraps(n: int)
    ensures (ToInt32(n) - n) % 0x1_0000_0000 == 0
  {
  }

  function Min(a: int, b: int): (r: int)
    ensures r <= a && r <= b && (r == a || r == b)
  {
    if a <= b then a else b
  }

  /** `isdigit` in the C locale (what `\d` matches in `std::regex`). */
  predicate IsDigit(c: char) { '0' <= c <= '9' }

  /** `isspace` in the C locale (what `\s` matches in `std::regex`). */
  predicate IsSpace(c: char)
  {
    c == ' ' || c == '\t' || c == '\n' || c == '\U{000B}' || c == '\U{000C}' || c == '\r'
  }

  predicate AllDigits(s: string) { forall k :: 0 <= k < |s| ==> IsDigit(s[k]) }

  predicate AllSpaces(s: string) { forall k :: 0 <= k < |s| ==> IsSpace(s[k]) }

  predicate StartsWithDigit(s: string) { s != [] && IsDigit(s[0]) }

  predicate StartsWithSpace(s: string) { s != [] && IsSpace(s[0]) }

  /** `u` with its leading white space removed. */
  function DropSpaces(u: string): (r: string)
    ensures |r| <= |u| && !StartsWithSpace(r)
  {
    if StartsWithSpace(u) then DropSpaces(u[1..]) else u
  }

  /** The maximal run of digits at the start of `u`. */
  function DigitsPrefix(u: string): (r: string)
    ensures |r| <= |u| && AllDigits(r)
  {
    if StartsWithDigit(u) then [u[0]] + DigitsPrefix(u[1..]) else []
  }

  /** `u` with its leading digit run removed. */
  function DropDigits(u: string): (r: string)
    ensures |r| <= |u| && !StartsWithDigit(r)
  {
    if StartsWithDigit(u) then DropDigits(u[1..]) else u
  }

  function DigitValue(c: char): (r: nat)
    requires IsDigit(c)
    ensures r < 10
  {
    (c as int) - ('0' as int)
  }

  /** The number a run of decimal digits denotes (leading zeros allowed). */
  function DigitsValue(d: string): nat
    requires AllDigits(d)
  {
    if d == [] then 0 else DigitsValue(d[..|d| - 1]) * 10 + DigitValue(d[|d| - 1])
  }

  /** The value of the digit run at the start of `u` (what `stoi` reads of a `\d+` group). */
  function LeadingValue(u: string): nat
  {
    DigitsValue(DigitsPrefix(u))
  }

  function DigitChar(k: nat): (c: char)
    requires k < 10
    ensures IsDigit(c) && DigitValue(c) == k
  {
    ('0' as int + k) as char
  }

  /** Shortest decimal spelling of `n` (what `std::to_string` gives for `n >= 0`). */
  function Decimal(n: nat): (r: string)
    ensures StartsWithDigit(r) && AllDigits(r)
  {
    if n < 10 then [DigitChar(n)] else Decimal(n / 10) + [DigitChar(n % 10)]
  }

  lemma {:induction false} DecimalValue(n: nat)
    ensures DigitsValue(Decimal(n)) == n
  {
    if n >= 10 {
      var d := Decimal(n);
      assert d[..|d| - 1] == Decimal(n / 10);
      DecimalValue(n / 10);
    }
  }

  /** Leading white space is skipped as a whole. */
  lemma {:induction false} DropSpacesOver(w: string, y: string)
    requires AllSpaces(w)
    ensures DropSpaces(w + y) == DropSpaces(y)
  {
    if w == [] {
      assert w + y == y;
    } else {
      assert (w + y)[0] == w[0] && (w + y)[1..] == w[1..] + y;
      DropSpacesOver(w[1..], y);
    }
  }

  /** A digit run followed by a non-digit is read as exactly that run. */
  lemma {:induction false} DigitsOver(d: string, y: string)
    requires AllDigits(d) && !StartsWithDigit(y)
    ensures DigitsPrefix(d + y) == d && DropDigits(d + y) == y
  {
    if d == [] {
      assert d + y == y;
    } else {
      assert (d + y)[0] == d[0] && (d + y)[1..] == d[1..] + y;
      DigitsOver(d[1..], y);
    }
  }

  /** The digits of `n`, followed by a non-digit, are read back as `n`. */
  lemma DecimalOver(n: nat, y: string)
    requires !StartsWithDigit(y)
    ensures LeadingValue(Decimal(n) + y) == n && DropDigits(Decimal(n) + y) == y
  {
    DigitsOver(Decimal(n), y);
    DecimalValue(n);
  }

  /**
   * `std::stoi` on a whole string: leading white space, an optional sign, then
   * at least one digit; the rest of the string is ignored.  `None` stands for
   * both exceptions it throws: `invalid_argument` when no digit follows, and
   * `out_of_range` when the value does not fit a 32-bit `int`.
   */
  function Stoi(s: string): (r: Option<int>)
    ensures r.Some? ==> INT_MIN <= r.value <= INT_MAX
  {
    var u := DropSpaces(s);
    var neg := u != [] && u[0] == '-';
    var v := if u != [] && (u[0] == '-' || u[0] == '+') then u[1..] else u;
    if !StartsWithDigit(v) then None
    else
      var m: int := LeadingValue(v);
      var x := if neg then -m else m;
      if INT_MIN <= x <= INT_MAX then Some(x) else None
  }

  /** `DropSpaces` returns a suffix of its input. */
  lemma {:induction false} DropSpacesSuffix(u: string)
    ensures DropSpaces(u) == u[|u| - |DropSpaces(u)|..]
  {
    if StartsWithSpace(u) {
      DropSpacesSuffix(u[1..]);
    }
  }

  /** `stoi` throws on text without any digit. */
  lemma StoiNoDigits(s: string)
    requires forall k :: 0 <= k < |s| ==> !IsDigit(s[k])
    ensures Stoi(s) == None
  {
    var u := DropSpaces(s);
    DropSpacesSuffix(s);
    if u != [] {
      assert u[0] == s[|s| - |u|];
      if u[0] == '-' || u[0] == '+' {
        if u[1..] != [] {
          assert u[1..][0] == s[|s| - |u| + 1];
        }
      }
    }
  }

  /** `std::stoi(std::to_string(n))` gives `n` back, and ignores what follows. */
  lemma StoiDecimal(n: nat, rest: string)
    requires n <= INT_MAX
    requires !StartsWithDigit(rest)
    ensures Stoi(Decimal(n) + rest) == Some(n)
  {
    var s := Decimal(n) + rest;
    assert s[0] == Decimal(n)[0];
    DecimalOver(n, rest);
  }

  predicate StartsWith(s: string, p: string)
  {
    |p| <= |s| && s[..|p|] == p
  }

  /** `s.find(p) != npos`. */
  predicate ContainsText(s: string, p: string)
  {
    exists i: nat | i <= |s| :: StartsWith(s[i..], p)
  }

  /** `s.substr(i)`: `None` is the `out_of_range` exception. */
  function Substr(s: string, i: nat): (r: Option<string>)
    ensures r.Some? <==> i <= |s|
    ensures r.Some? ==> s == s[..i] + r.value
  {
    if i <= |s| then Some(s[i..]) else None
  }

  /** Index of the last occurrence of `c`, or -1 (`find_last_of` of one char). */
  function LastIndexOf(s: string, c: char): (r: int)
    ensures -1 <= r < |s|
    ensures r >= 0 ==> s[r] == c
    ensures forall k :: r < k < |s| ==> s[k] != c
  {
    if s == [] then -1
    else if s[|s| - 1] == c then |s| - 1
    else LastIndexOf(s[..|s| - 1], c)
  }

  /** `std::replace(s.begin(), s.end(), from, to)`. */
  function ReplaceChar(s: string, from: char, to: char): (r: string)
    ensures |r| == |s|
    ensures forall k :: 0 <= k < |s| ==> r[k] == (if s[k] == from then to else s[k])
  {
    if s == [] then [] else ReplaceChar(s[..|s| - 1], from, to) + [if s[|s| - 1] == from then to else s[|s| - 1]]
  }
}
