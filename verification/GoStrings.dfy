/** The parts of Go's `strings` package that the gateway's parsers use.  A Go string is a
    sequence of bytes; every `char` below stands for one byte. */
module GoStrings {

  /** The ASCII spaces. */
  predicate IsSpace(c: char) {
    c == ' ' || c == '\t' || c == '\n' || c == '\r' || c as int == 11 || c as int == 12
  }

  /** The UTF-8 encodings of the other spaces of `unicode.IsSpace`: U+0085, U+00A0, U+1680, U+2000 to
      U+200A, U+2028, U+2029, U+202F, U+205F and U+3000. */
  predicate IsWideSpace(s: string) {
    || (|s| == 2 && s[0] as int == 0xC2 && (s[1] as int == 0x85 || s[1] as int == 0xA0))
    || (|s| == 3 && s[0] as int == 0xE1 && s[1] as int == 0x9A && s[2] as int == 0x80)
    || (|s| == 3 && s[0] as int == 0xE2 && s[1] as int == 0x80 &&
        (0x80 <= s[2] as int <= 0x8A || s[2] as int == 0xA8 || s[2] as int == 0xA9 || s[2] as int == 0xAF))
    || (|s| == 3 && s[0] as int == 0xE2 && s[1] as int == 0x81 && s[2] as int == 0x9F)
    || (|s| == 3 && s[0] as int == 0xE3 && s[1] as int == 0x80 && s[2] as int == 0x80)
  }

  predicate EndsWide(s: string, n: nat) {
    n <= |s| && IsWideSpace(s[|s| - n..])
  }

  /** The bytes of the space at the start of a string, and at its end; 0 when there is none. */
  function SpaceStart(s: string): (n: nat)
    ensures n <= |s|
  {
    if s != "" && IsSpace(s[0]) then 1
    else if |s| >= 2 && IsWideSpace(s[..2]) then 2
    else if |s| >= 3 && IsWideSpace(s[..3]) then 3
    else 0
  }

  function SpaceEnd(s: string): (n: nat)
    ensures n <= |s|
  {
    if s != "" && IsSpace(s[|s| - 1]) then 1
    else if EndsWide(s, 2) then 2
    else if EndsWide(s, 3) then 3
    else 0
  }

  function TrimLeft(s: string): string {
    if SpaceStart(s) > 0 then TrimLeft(s[SpaceStart(s)..]) else s
  }

  function TrimRight(s: string): string {
    if SpaceEnd(s) > 0 then TrimRight(s[..|s| - SpaceEnd(s)]) else s
  }

  function TrimSpace(s: string): string {
    TrimRight(TrimLeft(s))
  }

  /** No space at either end. */
  predicate Tight(s: string) {
    SpaceStart(s) == 0 && SpaceEnd(s) == 0
  }

  lemma {:induction false} TrimRightKeepsHead(s: string)
    ensures var r := TrimRight(s); r <= s && SpaceEnd(r) == 0
  {
    if SpaceEnd(s) > 0 {
      TrimRightKeepsHead(s[..|s| - SpaceEnd(s)]);
    }
  }

  lemma {:induction false} TrimLeftStartsTight(s: string)
    ensures SpaceStart(TrimLeft(s)) == 0
  {
    if SpaceStart(s) > 0 {
      TrimLeftStartsTight(s[SpaceStart(s)..]);
    }
  }

  lemma PrefixStartsTight(r: string, s: string)
    requires r <= s && SpaceStart(s) == 0
    ensures SpaceStart(r) == 0
  {
    assert |r| >= 2 ==> r[..2] == s[..2];
    assert |r| >= 3 ==> r[..3] == s[..3];
  }

  lemma TrimSpaceIsTight(s: string)
    ensures Tight(TrimSpace(s))
  {
    TrimLeftStartsTight(s);
    TrimRightKeepsHead(TrimLeft(s));
    PrefixStartsTight(TrimSpace(s), TrimLeft(s));
  }

  /** Trimming changes a string exactly when it has a space at one end. */
  lemma TrimSpaceFixes(s: string)
    ensures TrimSpace(s) == s <==> Tight(s)
  {
    TrimSpaceIsTight(s);
  }

  /** An ASCII character that is not a space. */
  predicate IsSolid(c: char) {
    c as int < 0x80 && !IsSpace(c)
  }

  lemma SolidStart(s: string)
    requires s != "" && IsSolid(s[0])
    ensures SpaceStart(s) == 0
  {
  }

  /** A word with ASCII ends is tight. */
  lemma SolidEnds(s: string)
    requires s != "" && IsSolid(s[0]) && IsSolid(s[|s| - 1])
    ensures Tight(s) && TrimSpace(s) == s
  {
    SolidStart(s);
    if |s| >= 2 {
      WideSpaceHoldsNoAscii(s[|s| - 2..], 1);
    }
    if |s| >= 3 {
      WideSpaceHoldsNoAscii(s[|s| - 3..], 2);
    }
    TrimSpaceFixes(s);
  }

  lemma WideSpaceHoldsNoAscii(s: string, i: nat)
    requires i < |s| && s[i] as int < 0x80
    ensures !IsWideSpace(s)
  {
  }

  /** Behind an ASCII character, the last `n` bytes are a wide space only if they do not reach it. */
  lemma EndReaches(a: string, b: string, n: nat)
    requires a != "" && a[|a| - 1] as int < 0x80
    ensures EndsWide(a + b, n) <==> EndsWide(b, n)
  {
    var s := a + b;
    if n <= |s| {
      var e := s[|s| - n..];
      if n > |b| {
        assert e[n - |b| - 1] == a[|a| - 1];
        WideSpaceHoldsNoAscii(e, n - |b| - 1);
      } else {
        assert e == b[|b| - n..];
      }
    }
  }

  /** A non-empty string keeps its end behind an ASCII character. */
  lemma EndBehindAscii(a: string, b: string)
    requires a != "" && a[|a| - 1] as int < 0x80 && b != ""
    ensures SpaceEnd(a + b) == SpaceEnd(b)
  {
    assert (a + b)[|a + b| - 1] == b[|b| - 1];
    EndReaches(a, b, 2);
    EndReaches(a, b, 3);
  }

  /** A byte more at the front: a newline starts a line, anything else extends the first one. */
  function Prepended(c: char, lines: seq<string>): (r: seq<string>)
    requires lines != []
    ensures r != []
  {
    if c == '\n' then [""] + lines else [[c] + lines[0]] + lines[1..]
  }

  /** `strings.Split(s, "\n")`. */
  function Lines(s: string): (r: seq<string>)
    ensures r != []
  {
    if s == "" then [""] else Prepended(s[0], Lines(s[1..]))
  }

  lemma PrependedAppend(c: char, x: seq<string>, y: seq<string>)
    requires x != []
    ensures Prepended(c, x + y) == Prepended(c, x) + y
  {
    assert (x + y)[0] == x[0] && (x + y)[1..] == x[1..] + y;
  }

  lemma {:induction false} LinesSingle(a: string)
    requires '\n' !in a
    ensures Lines(a) == [a]
  {
    if a != "" {
      LinesSingle(a[1..]);
      assert [a[0]] + a[1..] == a;
    }
  }

  /** Splitting commutes with cutting at a newline. */
  lemma {:induction false} LinesCut(a: string, b: string)
    ensures Lines(a + "\n" + b) == Lines(a) + Lines(b)
  {
    var s := a + "\n" + b;
    if a == "" {
      assert s[1..] == b;
    } else {
      LinesCut(a[1..], b);
      assert s[0] == a[0] && s[1..] == a[1..] + "\n" + b;
      PrependedAppend(a[0], Lines(a[1..]), Lines(b));
    }
  }

  lemma LinesAppend(a: string, b: string)
    requires '\n' !in a
    ensures Lines(a + "\n" + b) == [a] + Lines(b)
  {
    LinesCut(a, b);
    LinesSingle(a);
  }

  /** `strings.Join(parts, sep)`. */
  function Join(parts: seq<string>, sep: string): string {
    if |parts| == 0 then ""
    else if |parts| == 1 then parts[0]
    else parts[0] + sep + Join(parts[1..], sep)
  }

  function Concat(parts: seq<string>): string {
    if parts == [] then "" else parts[0] + Concat(parts[1..])
  }

  lemma {:induction false} ConcatAppend(a: seq<string>, b: seq<string>)
    ensures Concat(a + b) == Concat(a) + Concat(b)
  {
    if a == [] {
      assert a + b == b;
    } else {
      var s := a + b;
      assert s[0] == a[0] && s[1..] == a[1..] + b;
      ConcatAppend(a[1..], b);
      Assoc(a[0], Concat(a[1..]), Concat(b));
    }
  }

  lemma Assoc<T>(a: seq<T>, b: seq<T>, c: seq<T>)
    ensures a + (b + c) == (a + b) + c
  {
  }

  predicate HasSuffix(s: string, t: string) {
    |t| <= |s| && s[|s| - |t|..] == t
  }

  function Digit(n: nat): (d: string)
    requires n < 10
    ensures |d| == 1 && d[0] as int - '0' as int == n
  {
    ["0", "1", "2", "3", "4", "5", "6", "7", "8", "9"][n]
  }

  /** Decimal digits of a natural number, as `%d` prints them. */
  function Decimal(n: nat): string {
    if n < 10 then Digit(n) else Decimal(n / 10) + Digit(n % 10)
  }

  /** The number that decimal digits stand for. */
  function NumberOf(digits: string): int {
    if digits == "" then 0 else 10 * NumberOf(digits[..|digits| - 1]) + (digits[|digits| - 1] as int - '0' as int)
  }

  lemma {:induction false} DecimalIsNumber(n: nat)
    ensures var d := Decimal(n);
            && NumberOf(d) == n && d != "" && (d[0] == '0' ==> n == 0)
            && forall i :: 0 <= i < |d| ==> '0' <= d[i] <= '9'
  {
    var d := Decimal(n);
    if n >= 10 {
      DecimalIsNumber(n / 10);
      assert d[..|d| - 1] == Decimal(n / 10);
    } else {
      assert d[..0] == "";
    }
  }

  // ---- What trimming takes away

  /** The bytes of one space. */
  predicate IsOneSpace(s: string) {
    (|s| == 1 && IsSpace(s[0])) || IsWideSpace(s)
  }

  predicate AllSpaces(spaces: seq<string>) {
    forall i :: 0 <= i < |spaces| ==> IsOneSpace(spaces[i])
  }

  lemma StartIsSpace(s: string)
    requires SpaceStart(s) > 0
    ensures IsOneSpace(s[..SpaceStart(s)])
  {
  }

  lemma EndIsSpace(s: string)
    requires SpaceEnd(s) > 0
    ensures IsOneSpace(s[|s| - SpaceEnd(s)..])
  {
  }

  lemma {:induction false} TrimLeftSays(s: string) returns (spaces: seq<string>)
    ensures AllSpaces(spaces) && s == Concat(spaces) + TrimLeft(s)
  {
    var n := SpaceStart(s);
    if n == 0 {
      spaces := [];
      NothingCut(s);
    } else {
      var rest := TrimLeftSays(s[n..]);
      spaces := [s[..n]] + rest;
      StartIsSpace(s);
      FrontCut(s, n, rest, TrimLeft(s[n..]));
    }
  }

  lemma NothingCut(s: string)
    ensures s == Concat([]) + s && s == s + Concat([])
  {
  }

  lemma FrontCut(s: string, n: nat, rest: seq<string>, core: string)
    requires n <= |s| && s[n..] == Concat(rest) + core
    ensures s == Concat([s[..n]] + rest) + core
  {
    assert ([s[..n]] + rest)[1..] == rest;
    Assoc(s[..n], Concat(rest), core);
    assert s == s[..n] + s[n..];
  }

  lemma BackCut(s: string, m: nat, rest: seq<string>, core: string)
    requires m <= |s| && s[..m] == core + Concat(rest)
    ensures s == core + Concat(rest + [s[m..]])
  {
    ConcatAppend(rest, [s[m..]]);
    assert [s[m..]][1..] == [] && Concat([s[m..]]) == s[m..] + Concat([]) == s[m..];
    Assoc(core, Concat(rest), s[m..]);
    assert s == s[..m] + s[m..];
  }

  lemma {:induction false} TrimRightSays(s: string) returns (spaces: seq<string>)
    ensures AllSpaces(spaces) && s == TrimRight(s) + Concat(spaces)
  {
    var n := SpaceEnd(s);
    if n == 0 {
      spaces := [];
      NothingCut(s);
    } else {
      var rest := TrimRightSays(s[..|s| - n]);
      spaces := rest + [s[|s| - n..]];
      EndIsSpace(s);
      BackCut(s, |s| - n, rest, TrimRight(s[..|s| - n]));
    }
  }

  /** Trimming takes away spaces at the two ends, all of them, and nothing else. */
  lemma TrimSpaceSays(s: string) returns (left: seq<string>, right: seq<string>)
    ensures AllSpaces(left) && AllSpaces(right)
    ensures s == Concat(left) + (TrimSpace(s) + Concat(right)) && Tight(TrimSpace(s))
  {
    left := TrimLeftSays(s);
    right := TrimRightSays(TrimLeft(s));
    TrimSpaceIsTight(s);
  }
}
