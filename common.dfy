/**
  Small helpers shared by every part of the model: an Option and a Result
  type for the error paths of the JavaScript code, and the few string
  operations the code applies (`trim`, `toLowerCase`, `substring(0, n)`,
  number-to-decimal conversion).
 */
module Common {

  datatype Option<+T> = None | Some(value: T) {
    function GetOr(default: T): T {
      match this
      case Some(v) => v
      case None => default
    }
  }

  datatype Result<+T, +E> = Success(value: T) | Failure(error: E)

  function Min(a: int, b: int): int {
    if a < b then a else b
  }

  /** The empty sequence is the unit of concatenation. A proof step only:
      it models nothing and keeps the solver's effort down where a branch
      appends nothing. */
  lemma Unit<T>(s: seq<T>)
    ensures [] + s == s && s + [] == s
  {
  }

  /** Strictly increasing positions: the indices a `filter` keeps. */
  predicate Increasing(ps: seq<nat>) {
    forall k, l :: 0 <= k < l < |ps| ==> ps[k] < ps[l]
  }

  /** The positions from `from` on whose flag is set, in increasing order:
      the indices `filter` keeps when `flags` says which elements pass. */
  function Positions(flags: seq<bool>, from: nat): (ps: seq<nat>)
    requires from <= |flags|
    ensures forall k :: 0 <= k < |ps| ==> from <= ps[k] < |flags|
    decreases |flags| - from
  {
    if from == |flags| then []
    else (if flags[from] then [from] else []) + Positions(flags, from + 1)
  }

  /** Putting a smaller position in front keeps the order. */
  lemma ConsIncreasing(x: nat, rest: seq<nat>)
    requires Increasing(rest)
    requires forall m :: 0 <= m < |rest| ==> x < rest[m]
    ensures Increasing([x] + rest)
  {
    var ps := [x] + rest;
    forall k, l | 0 <= k < l < |ps| ensures ps[k] < ps[l] {
      assert ps[l] == rest[l - 1];
      if k > 0 {
        assert ps[k] == rest[k - 1];
      }
    }
  }

  lemma {:induction false} PositionsOrdered(flags: seq<bool>, from: nat)
    requires from <= |flags|
    ensures Increasing(Positions(flags, from))
    decreases |flags| - from
  {
    if from < |flags| {
      PositionsOrdered(flags, from + 1);
      var rest := Positions(flags, from + 1);
      if flags[from] {
        ConsIncreasing(from, rest);
        assert Positions(flags, from) == [from] + rest;
      } else {
        assert Positions(flags, from) == rest;
      }
    }
  }

  /** A position is listed exactly when it is in range and flagged. */
  lemma {:induction false} PositionsMembers(flags: seq<bool>, from: nat, i: nat)
    requires from <= |flags|
    ensures i in Positions(flags, from) <==> from <= i < |flags| && flags[i]
    decreases |flags| - from
  {
    if from < |flags| {
      PositionsMembers(flags, from + 1, i);
      var ps, rest := Positions(flags, from), Positions(flags, from + 1);
      if flags[from] {
        assert ps == [from] + rest;
      } else {
        assert ps == rest;
      }
    }
  }

  /** JavaScript truthiness of a string: only the empty string is falsy. */
  predicate Truthy(s: string) {
    s != ""
  }

  /** `a || b` on two strings. */
  function OrElse(a: string, b: string): string {
    if Truthy(a) then a else b
  }

  // ---------------------------------------------------------------------
  // String.prototype.trim
  // ---------------------------------------------------------------------

  /** The ECMAScript WhiteSpace and LineTerminator code points, which
      `trim` removes from both ends of a string. */
  predicate IsSpace(c: char) {
    || c == '\t' || c == '\n' || c == '\r' || c == ' '
    || c == '\U{000B}' || c == '\U{000C}' || c == '\U{00A0}' || c == '\U{1680}'
    || ('\U{2000}' <= c <= '\U{200A}')
    || c == '\U{2028}' || c == '\U{2029}' || c == '\U{202F}' || c == '\U{205F}'
    || c == '\U{3000}' || c == '\U{FEFF}'
  }

  predicate IsBlank(s: string) {
    forall i :: 0 <= i < |s| ==> IsSpace(s[i])
  }

  /** Drops the longest all-space prefix. */
  function TrimStart(s: string): (r: string)
    ensures |r| <= |s| && r == s[|s| - |r|..]
    ensures r == [] <==> IsBlank(s)
    ensures r != [] ==> !IsSpace(r[0])
  {
    if s != [] && IsSpace(s[0]) then
      var r := TrimStart(s[1..]);
      assert IsBlank(s[1..]) ==> IsBlank(s) by {
        if IsBlank(s[1..]) {
          forall i | 0 < i < |s| ensures IsSpace(s[i]) {
            assert s[i] == s[1..][i - 1];
          }
        }
      }
      r
    else
      s
  }

  /** Drops the longest all-space suffix. */
  function TrimEnd(s: string): (r: string)
    ensures r <= s
    ensures r == [] <==> IsBlank(s)
    ensures r != [] ==> !IsSpace(r[|r| - 1])
  {
    if s != [] && IsSpace(s[|s| - 1]) then
      var r := TrimEnd(s[..|s| - 1]);
      assert IsBlank(s[..|s| - 1]) ==> IsBlank(s) by {
        if IsBlank(s[..|s| - 1]) {
          forall i | 0 <= i < |s| - 1 ensures IsSpace(s[i]) {
            assert s[i] == s[..|s| - 1][i];
          }
        }
      }
      r
    else
      s
  }

  /** `s.trim()`: the result is empty exactly when `s` holds nothing but
      white space. */
  function Trim(s: string): (r: string)
    ensures r == "" <==> IsBlank(s)
  {
    var t := TrimStart(s);
    assert t != [] ==> !IsBlank(t);
    TrimEnd(t)
  }

  /** A trimmed string that is not empty starts and ends with a non-space. */
  lemma TrimEnds(s: string)
    ensures var r := Trim(s);
      r != "" ==> !IsSpace(r[0]) && !IsSpace(r[|r| - 1])
  {
    var t := TrimStart(s);
    var r := TrimEnd(t);
    if r != "" {
      assert r[0] == t[0];
    }
  }

  /** `trim` only cuts: the result is a piece of the original. */
  lemma TrimPiece(s: string)
    ensures exists i, j :: 0 <= i <= j <= |s| && Trim(s) == s[i..j]
  {
    var t := TrimStart(s);
    var r := TrimEnd(t);
    var i, j := |s| - |t|, |s| - |t| + |r|;
    assert r == t[..|r|];
    assert t[..|r|] == s[i..j];
    assert 0 <= i <= j <= |s| && Trim(s) == s[i..j];
  }

  // ---------------------------------------------------------------------
  // String.prototype.toLowerCase (ASCII letters only)
  // ---------------------------------------------------------------------

  function LowerChar(c: char): char {
    if 'A' <= c <= 'Z' then (c as int - 'A' as int + 'a' as int) as char else c
  }

  /** Same length; ASCII capitals become the small letter 32 code points
      above, and every other character is kept. */
  function Lower(s: string): (r: string)
    ensures |r| == |s|
    ensures forall i :: 0 <= i < |s| ==> !('A' <= r[i] <= 'Z')
    ensures forall i :: 0 <= i < |s| ==>
      if 'A' <= s[i] <= 'Z' then r[i] as int == s[i] as int + 32 else r[i] == s[i]
  {
    seq(|s|, i requires 0 <= i < |s| => LowerChar(s[i]))
  }

  /** `s.includes(x)`: `x` occurs in `s` at some offset. */
  predicate Includes(s: string, x: string) {
    exists i :: 0 <= i <= |s| && x <= s[i..]
  }

  /** A string includes whatever sits between a prefix and a suffix. */
  lemma IncludesMiddle(a: string, x: string, b: string)
    ensures Includes(a + x + b, x)
  {
    assert x <= (a + x + b)[|a|..];
  }

  // ---------------------------------------------------------------------
  // String.prototype.substring(0, n)
  // ---------------------------------------------------------------------

  /** `s.substring(0, n)`: the first `n` characters, or all of `s` when it
      is shorter. */
  function Take(s: string, n: nat): (r: string)
    ensures r <= s
    ensures |r| == Min(n, |s|)
  {
    if n < |s| then s[..n] else s
  }

  // ---------------------------------------------------------------------
  // Number.prototype.toString() on non-negative integers
  // ---------------------------------------------------------------------

  function Digit(d: nat): char
    requires d < 10
  {
    ('0' as int + d) as char
  }

  /** Decimal text of `n`, without leading zeros. */
  function DecimalText(n: nat): (r: string)
    ensures |r| >= 1
    ensures forall i :: 0 <= i < |r| ==> '0' <= r[i] <= '9'
    ensures r[0] == '0' ==> n == 0
  {
    if n < 10 then [Digit(n)] else DecimalText(n / 10) + [Digit(n % 10)]
  }

  /** The number a string of decimal digits denotes. */
  function DecimalValue(s: string): nat
    requires forall i :: 0 <= i < |s| ==> '0' <= s[i] <= '9'
  {
    if s == [] then 0
    else DecimalValue(s[..|s| - 1]) * 10 + (s[|s| - 1] as int - '0' as int)
  }

  /** Reading the decimal text back gives the number. */
  lemma {:induction false} DecimalRoundTrip(n: nat)
    ensures DecimalValue(DecimalText(n)) == n
  {
    if n >= 10 {
      var s := DecimalText(n);
      assert s[..|s| - 1] == DecimalText(n / 10);
      DecimalRoundTrip(n / 10);
    }
  }
}
