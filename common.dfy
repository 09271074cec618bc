// Shared vocabulary of the storefront model: optional values and error
// outcomes, Java's 32-bit `int` arithmetic, and the string operations the
// front end (JavaScript) and the back end (Java) rely on.

module Outcomes {

  /** An absent JavaScript/Java value (`null`, `undefined`) or a present one. */
  datatype Option<+T> = None | Some(value: T)

  /** The value an operation returns, or the exception it throws. */
  datatype Result<+T, +E> = Success(value: T) | Failure(error: E)

  /** The outcome of a `void` operation: it returns, or it throws. */
  datatype Outcome<+E> = Pass | Fail(error: E)
}

/** Positions into a sequence, used to say that a filter keeps its input's order. */
module Positions {

  /** Each position is strictly after the one before it. */
  predicate StrictlyIncreasing(positions: seq<nat>) {
    forall i, j :: 0 <= i < j < |positions| ==> positions[i] < positions[j]
  }

  /** `kept` is the elements of `rows` at `positions`, in the order of
      `rows`, and a position is used exactly when `keep` holds there: the
      result of filtering `rows` by `keep`. */
  ghost predicate KeptInOrder<T>(rows: seq<T>, keep: T -> bool, kept: seq<T>, positions: seq<nat>) {
    && |positions| == |kept|
    && StrictlyIncreasing(positions)
    && (forall k :: 0 <= k < |positions| ==> positions[k] < |rows| && kept[k] == rows[positions[k]])
    && (forall i :: 0 <= i < |rows| ==> (i in positions <==> keep(rows[i])))
  }

  /** One more element at the end: it is kept, at the last position,
      exactly when `keep` holds for it. */
  lemma KeptInOrderStep<T>(rows: seq<T>, item: T, keep: T -> bool, kept: seq<T>, positions: seq<nat>)
    requires KeptInOrder(rows, keep, kept, positions)
    ensures keep(item) ==> KeptInOrder(rows + [item], keep, kept + [item], positions + [|rows|])
    ensures !keep(item) ==> KeptInOrder(rows + [item], keep, kept, positions)
  {
    var longer := rows + [item];
    forall i | 0 <= i < |rows|
      ensures longer[i] == rows[i]
    {
    }
    if keep(item) {
      var p := positions + [|rows|];
      forall i | 0 <= i < |longer|
        ensures i in p <==> i in positions || i == |rows|
      {
      }
    }
  }

}

/** Java `int` (and unboxed `Integer`) arithmetic, which wraps modulo 2^32. */
module JavaInt {

  const INT_MIN: int := -0x8000_0000
  const INT_MAX: int := 0x7FFF_FFFF

  type int32 = x: int | INT_MIN <= x <= INT_MAX

  /** Two's-complement wrap-around of an exact integer result. */
  function Wrap(x: int): (r: int32)
    ensures INT_MIN <= x <= INT_MAX ==> r == x
    ensures (r - x) % 0x1_0000_0000 == 0
  {
    (x - INT_MIN) % 0x1_0000_0000 + INT_MIN
  }

  function Add(a: int32, b: int32): (r: int32)
    ensures INT_MIN <= a + b <= INT_MAX ==> r == a + b
  {
    Wrap(a + b)
  }

  function Sub(a: int32, b: int32): (r: int32)
    ensures INT_MIN <= a - b <= INT_MAX ==> r == a - b
  {
    Wrap(a - b)
  }

  /** `Math.max(0, x)` */
  function MaxZero(x: int32): (r: int32)
    ensures r >= 0 && r >= x && (r == 0 || r == x)
  {
    if x < 0 then 0 else x
  }

  /** `Math.min(a, b)` */
  function Min(a: int32, b: int32): (r: int32)
    ensures r <= a && r <= b && (r == a || r == b)
  {
    if a <= b then a else b
  }
}

module Text {

  predicate StartsWith(s: string, prefix: string) {
    |prefix| <= |s| && s[..|prefix|] == prefix
  }

  predicate EndsWith(s: string, suffix: string) {
    |suffix| <= |s| && s[|s| - |suffix|..] == suffix
  }

  // ----- decimal rendering of numbers (template literals, StringBuilder.append(int))

  function DigitChar(d: nat): (c: char)
    requires d < 10
    ensures '0' <= c <= '9'
  {
    (48 + d) as char
  }

  /** Decimal digits of `n`, most significant first, without leading zeros. */
  function NatToString(n: nat): (r: string)
    ensures 1 <= |r|
    ensures n >= 10 ==> 2 <= |r|
    ensures forall i :: 0 <= i < |r| ==> '0' <= r[i] <= '9'
    decreases n
  {
    if n < 10 then [DigitChar(n)] else NatToString(n / 10) + [DigitChar(n % 10)]
  }

  /** Distinct numbers render as distinct digit strings. */
  lemma {:induction false} NatToStringInjective(a: nat, b: nat)
    requires NatToString(a) == NatToString(b)
    ensures a == b
    decreases a
  {
    var ra, rb := NatToString(a), NatToString(b);
    if a < 10 && b < 10 {
      assert ra[0] == rb[0];
    } else if a >= 10 && b >= 10 {
      var pa, pb := NatToString(a / 10), NatToString(b / 10);
      assert ra == pa + [DigitChar(a % 10)];
      assert rb == pb + [DigitChar(b % 10)];
      assert ra[|ra| - 1] == rb[|rb| - 1];
      assert a % 10 == b % 10;
      assert pa == ra[..|ra| - 1] == rb[..|rb| - 1] == pb;
      NatToStringInjective(a / 10, b / 10);
    }
  }

  /** Java's `Integer.toString` / `StringBuilder.append(int)`: a minus sign, then the digits. */
  function IntToString(i: int): (r: string)
    ensures i >= 0 ==> r == NatToString(i)
    ensures i < 0 ==> r == "-" + NatToString(-i)
  {
    if i < 0 then "-" + NatToString(-i) else NatToString(i)
  }

  // ----- splitting on a separator and joining back

  /** The pieces of `s` between occurrences of `sep`, empty pieces included
      (JavaScript's `split(c)` for a one-character separator). */
  function Split(s: string, sep: char): (r: seq<string>)
    ensures 1 <= |r|
    ensures forall i :: 0 <= i < |r| ==> sep !in r[i]
  {
    if s == [] then [""]
    else
      var rest := Split(s[1..], sep);
      if s[0] == sep then [""] + rest
      else [[s[0]] + rest[0]] + rest[1..]
  }

  /** `parts.join(sep)` */
  function Join(parts: seq<string>, sep: char): string {
    if |parts| == 0 then ""
    else if |parts| == 1 then parts[0]
    else parts[0] + [sep] + Join(parts[1..], sep)
  }

  /** Splitting loses nothing: joining the pieces back gives the input. */
  lemma {:induction false} JoinSplit(s: string, sep: char)
    ensures Join(Split(s, sep), sep) == s
  {
    if s != [] {
      var rest := Split(s[1..], sep);
      JoinSplit(s[1..], sep);
      if s[0] == sep {
        assert Split(s, sep) == [""] + rest;
        assert Join([""] + rest, sep) == "" + [sep] + Join(rest, sep);
      } else {
        var first := [s[0]] + rest[0];
        assert Split(s, sep) == [first] + rest[1..];
        if |rest| == 1 {
          assert Join([first] + rest[1..], sep) == first;
        } else {
          assert ([first] + rest[1..])[1..] == rest[1..];
          assert Join([first] + rest[1..], sep) == first + [sep] + Join(rest[1..], sep);
          assert Join(rest, sep) == rest[0] + [sep] + Join(rest[1..], sep);
        }
      }
    }
  }

  /** A piece free of the separator, followed by the separator, is split off whole. */
  lemma {:induction false} SplitAfterPiece(piece: string, rest: string, sep: char)
    requires sep !in piece
    ensures Split(piece + [sep] + rest, sep) == [piece] + Split(rest, sep)
  {
    var s := piece + [sep] + rest;
    if piece == [] {
      assert s[1..] == rest;
    } else {
      assert s[1..] == piece[1..] + [sep] + rest;
      assert piece[0] in piece;
      SplitAfterPiece(piece[1..], rest, sep);
      assert [piece[0]] + piece[1..] == piece;
    }
  }

  /** A separator splits the text around it into the pieces of each side. */
  lemma {:induction false} SplitConcat(a: string, b: string, sep: char)
    ensures Split(a + [sep] + b, sep) == Split(a, sep) + Split(b, sep)
  {
    if a == [] {
      assert a + [sep] + b == [sep] + b;
      assert ([sep] + b)[1..] == b;
    } else {
      var s := a + [sep] + b;
      assert s[0] == a[0] && s[1..] == a[1..] + [sep] + b;
      SplitConcat(a[1..], b, sep);
    }
  }

  /** A string without the separator splits into itself alone. */
  lemma {:induction false} SplitSinglePiece(piece: string, sep: char)
    requires sep !in piece
    ensures Split(piece, sep) == [piece]
  {
    if piece != [] {
      assert piece[0] in piece;
      SplitSinglePiece(piece[1..], sep);
      assert [piece[0]] + piece[1..] == piece;
    }
  }

  /** Joining separator-free pieces and splitting again gives the pieces back. */
  lemma {:induction false} SplitJoin(parts: seq<string>, sep: char)
    requires 1 <= |parts|
    requires forall i :: 0 <= i < |parts| ==> sep !in parts[i]
    ensures Split(Join(parts, sep), sep) == parts
  {
    if |parts| == 1 {
      SplitSinglePiece(parts[0], sep);
    } else {
      SplitJoin(parts[1..], sep);
      SplitAfterPiece(parts[0], Join(parts[1..], sep), sep);
      assert [parts[0]] + parts[1..] == parts;
    }
  }

  // ----- trimming

  /** Drops the leading characters that satisfy `isSpace`. */
  function TrimStart(s: string, isSpace: char -> bool): string {
    if s != [] && isSpace(s[0]) then TrimStart(s[1..], isSpace) else s
  }

  /** Drops the trailing characters that satisfy `isSpace`. */
  function TrimEnd(s: string, isSpace: char -> bool): string {
    if s != [] && isSpace(s[|s| - 1]) then TrimEnd(s[..|s| - 1], isSpace) else s
  }

  /** Trimming the front leaves a suffix that does not start with a space,
      and only spaces were dropped. */
  lemma {:induction false} TrimStartSpec(s: string, isSpace: char -> bool)
    ensures var r := TrimStart(s, isSpace);
            && |r| <= |s| && r == s[|s| - |r|..]
            && (forall i :: 0 <= i < |s| - |r| ==> isSpace(s[i]))
            && (r != [] ==> !isSpace(r[0]))
  {
    if s != [] && isSpace(s[0]) {
      TrimStartSpec(s[1..], isSpace);
      var r := TrimStart(s, isSpace);
      assert s[1..][|s| - 1 - |r|..] == s[|s| - |r|..];
      forall i | 0 <= i < |s| - |r| ensures isSpace(s[i]) {
        if i > 0 {
          assert s[i] == s[1..][i - 1];
        }
      }
    }
  }

  /** Trimming the back leaves a prefix that does not end with a space,
      and only spaces were dropped. */
  lemma {:induction false} TrimEndSpec(s: string, isSpace: char -> bool)
    ensures var r := TrimEnd(s, isSpace);
            && |r| <= |s| && r == s[..|r|]
            && (forall i :: |r| <= i < |s| ==> isSpace(s[i]))
            && (r != [] ==> !isSpace(r[|r| - 1]))
  {
    if s != [] && isSpace(s[|s| - 1]) {
      var init := s[..|s| - 1];
      TrimEndSpec(init, isSpace);
      var r := TrimEnd(s, isSpace);
      assert init[..|r|] == s[..|r|];
      forall i | |r| <= i < |s| ensures isSpace(s[i]) {
        if i < |s| - 1 {
          assert s[i] == init[i];
        }
      }
    }
  }

  function Trim(s: string, isSpace: char -> bool): string {
    TrimEnd(TrimStart(s, isSpace), isSpace)
  }

  /** A string trims to nothing exactly when every character is a space. */
  lemma TrimEmptyIff(s: string, isSpace: char -> bool)
    ensures Trim(s, isSpace) == "" <==> forall i :: 0 <= i < |s| ==> isSpace(s[i])
  {
    TrimStartSpec(s, isSpace);
    var front := TrimStart(s, isSpace);
    TrimEndSpec(front, isSpace);
    if !forall i :: 0 <= i < |s| ==> isSpace(s[i]) {
      var k :| 0 <= k < |s| && !isSpace(s[k]);
      assert front[k - (|s| - |front|)] == s[k];
    }
  }

  /** The trimmed string is the window of `s` left once a run of spaces is
      cut from each end. */
  lemma TrimIsWindow(s: string, isSpace: char -> bool) returns (start: nat)
    ensures var t := Trim(s, isSpace);
            && start + |t| <= |s| && t == s[start..start + |t|]
            && (forall i :: 0 <= i < start ==> isSpace(s[i]))
            && (forall i :: start + |t| <= i < |s| ==> isSpace(s[i]))
  {
    TrimStartSpec(s, isSpace);
    var front := TrimStart(s, isSpace);
    start := |s| - |front|;
    TrimEndSpec(front, isSpace);
    var t := TrimEnd(front, isSpace);
    assert front == s[start..];
    assert t == front[..|t|];
    assert t == s[start..start + |t|];
    forall i | start + |t| <= i < |s|
      ensures isSpace(s[i])
    {
      assert s[i] == front[i - start];
    }
  }

  /** Java's `String.trim()` strips every character at or below U+0020. */
  predicate IsJavaSpace(c: char) {
    c <= ' '
  }

  /** ECMAScript white space and line terminators, which `String.prototype.trim` strips. */
  predicate IsJsSpace(c: char) {
    c == '\t' || c == '\n' || c == '\U{000B}' || c == '\U{000C}' || c == '\r' || c == ' '
    || c == '\U{00A0}' || c == '\U{1680}' || ('\U{2000}' <= c <= '\U{200A}')
    || c == '\U{2028}' || c == '\U{2029}' || c == '\U{202F}' || c == '\U{205F}'
    || c == '\U{3000}' || c == '\U{FEFF}'
  }

  function JavaTrim(s: string): string {
    Trim(s, IsJavaSpace)
  }

  function JsTrim(s: string): string {
    Trim(s, IsJsSpace)
  }

  /** Java's `s.replaceAll("\"", "")` for a one-character literal pattern. */
  function RemoveAll(s: string, c: char): (r: string)
    ensures c !in r
    ensures forall x :: x in r <==> x in s && x != c
    ensures c !in s ==> r == s
  {
    if s == [] then "" else (if s[0] == c then "" else [s[0]]) + RemoveAll(s[1..], c)
  }
}
