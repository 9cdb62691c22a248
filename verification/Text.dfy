/** Go strings as byte strings (every character is a byte, 0..255) and the library functions the
    models share: TrimSpace, Cut, Split, Join, decimal numbers. */
module Text {
  import opened Options

  predicate IsBytes(s: string) {
    forall i :: 0 <= i < |s| ==> s[i] as int < 256
  }

  // ---- white space ----

  predicate AsciiSpace(c: char) {
    c == ' ' || c == '\t' || c == '\n' || c as int == 0x0B || c as int == 0x0C || c == '\r'
  }

  /** The three-byte UTF-8 forms of the remaining Unicode white space. */
  predicate WideSpace(a: int, b: int, c: int) {
    || (a == 0xE1 && b == 0x9A && c == 0x80)
    || (a == 0xE2 && b == 0x80 && (0x80 <= c <= 0x8A || c == 0xA8 || c == 0xA9 || c == 0xAF))
    || (a == 0xE2 && b == 0x81 && c == 0x9F)
    || (a == 0xE3 && b == 0x80 && c == 0x80)
  }

  predicate TwoByteSpace(a: int, b: int) { a == 0xC2 && (b == 0x85 || b == 0xA0) }

  /** How many bytes of white space character `s` starts with, 0 when none. */
  function LeadSpace(s: string): nat
    ensures LeadSpace(s) <= |s|
  {
    if |s| >= 1 && AsciiSpace(s[0]) then 1
    else if |s| >= 2 && TwoByteSpace(s[0] as int, s[1] as int) then 2
    else if |s| >= 3 && WideSpace(s[0] as int, s[1] as int, s[2] as int) then 3
    else 0
  }

  function TrailSpace(s: string): nat
    ensures TrailSpace(s) <= |s|
  {
    var n := |s|;
    if n >= 1 && AsciiSpace(s[n - 1]) then 1
    else if n >= 2 && TwoByteSpace(s[n - 2] as int, s[n - 1] as int) then 2
    else if n >= 3 && WideSpace(s[n - 3] as int, s[n - 2] as int, s[n - 1] as int) then 3
    else 0
  }

  function TrimLeft(s: string): string
    decreases |s|
  {
    if LeadSpace(s) == 0 then s else TrimLeft(s[LeadSpace(s)..])
  }

  function TrimRight(s: string): string
    decreases |s|
  {
    if TrailSpace(s) == 0 then s else TrimRight(s[..|s| - TrailSpace(s)])
  }

  /** `strings.TrimSpace`. */
  function Trim(s: string): string { TrimRight(TrimLeft(s)) }

  predicate Trimmed(s: string) { LeadSpace(s) == 0 && TrailSpace(s) == 0 }

  lemma TrimmedIsFixed(s: string)
    ensures Trimmed(s) ==> Trim(s) == s
  {
  }

  lemma {:induction false} TrimLeftClean(s: string)
    ensures LeadSpace(TrimLeft(s)) == 0
    decreases |s|
  {
    if LeadSpace(s) == 0 {
    } else {
      TrimLeftClean(s[LeadSpace(s)..]);
    }
  }

  lemma {:induction false} TrimRightClean(s: string)
    ensures TrailSpace(TrimRight(s)) == 0
    ensures LeadSpace(s) == 0 ==> LeadSpace(TrimRight(s)) == 0
    decreases |s|
  {
    if TrailSpace(s) == 0 {
    } else {
      TrimRightClean(s[..|s| - TrailSpace(s)]);
    }
  }

  lemma TrimIsTrimmed(s: string)
    ensures Trimmed(Trim(s)) && Trim(Trim(s)) == Trim(s)
  {
    TrimLeftClean(s);
    TrimRightClean(TrimLeft(s));
  }

  /** A visible ASCII character at each end keeps a string untouched. */
  predicate Visible(c: char) { 0x20 < c as int < 0x7F }

  lemma VisibleEndsAreTrimmed(s: string)
    requires s != [] && Visible(s[0]) && Visible(s[|s| - 1])
    ensures Trimmed(s) && Trim(s) == s
  {
  }

  // ---- cutting and joining ----

  /** `strings.Cut` at the first `c`: what is before it, what is after it, whether it was there. */
  function Cut(s: string, c: char): (string, string, bool) {
    if s == [] then ("", "", false)
    else if s[0] == c then ("", s[1..], true)
    else var (a, b, found) := Cut(s[1..], c); ([s[0]] + a, b, found)
  }

  lemma {:induction false} CutAt(a: string, c: char, b: string)
    requires c !in a
    ensures Cut(a + [c] + b, c) == (a, b, true)
  {
    if a == [] {
      assert a + [c] + b == [c] + b;
    } else {
      assert (a + [c] + b)[1..] == a[1..] + [c] + b;
      CutAt(a[1..], c, b);
      assert a == [a[0]] + a[1..];
    }
  }

  lemma {:induction false} CutMiss(s: string, c: char)
    requires c !in s
    ensures Cut(s, c) == (s, "", false)
  {
    if s == [] {
    } else {
      CutMiss(s[1..], c);
      assert s == [s[0]] + s[1..];
    }
  }

  /** Cut at the last `c`. */
  function CutLast(s: string, c: char): (string, string, bool) {
    if s == [] then ("", "", false)
    else
      var n := |s| - 1;
      if s[n] == c then (s[..n], "", true)
      else var (a, b, found) := CutLast(s[..n], c); (a, b + [s[n]], found)
  }

  lemma {:induction false} CutLastAt(a: string, c: char, b: string)
    requires c !in b
    ensures CutLast(a + [c] + b, c) == (a, b, true)
    decreases |b|
  {
    var s := a + [c] + b;
    if b == [] {
      assert s == a + [c];
      assert s[..|s| - 1] == a;
    } else {
      var n := |b| - 1;
      assert s[..|s| - 1] == a + [c] + b[..n];
      CutLastAt(a, c, b[..n]);
      assert b == b[..n] + [b[n]];
    }
  }

  lemma {:induction false} CutLastMiss(s: string, c: char)
    requires c !in s
    ensures !CutLast(s, c).2
  {
    if s == [] {
    } else {
      CutLastMiss(s[..|s| - 1], c);
    }
  }

  /** `strings.Split` by one character; never empty. */
  function Split(s: string, c: char): (r: seq<string>)
    ensures r != []
    decreases |s|
  {
    var (a, b, found) := Cut(s, c);
    if !found then [s] else
    CutShorter(s, c);
    [a] + Split(b, c)
  }

  lemma {:induction false} CutShorter(s: string, c: char)
    ensures Cut(s, c).2 ==> |Cut(s, c).1| < |s| && c !in Cut(s, c).0 && s == Cut(s, c).0 + [c] + Cut(s, c).1
    ensures !Cut(s, c).2 ==> c !in s
  {
    if s == [] {
    } else {
      CutShorter(s[1..], c);
      assert s == [s[0]] + s[1..];
      if s[0] != c && Cut(s, c).2 {
        var (a, b, _) := Cut(s[1..], c);
        assert [s[0]] + (a + [c] + b) == [s[0]] + a + [c] + b;
      }
    }
  }

  /** `strings.Join` with one character. */
  function Join(parts: seq<string>, c: char): string {
    if parts == [] then ""
    else if |parts| == 1 then parts[0]
    else parts[0] + [c] + Join(parts[1..], c)
  }

  lemma {:induction false} SplitJoin(parts: seq<string>, c: char)
    requires parts != [] && forall p :: p in parts ==> c !in p
    ensures Split(Join(parts, c), c) == parts
  {
    if |parts| == 1 {
      CutMiss(parts[0], c);
    } else {
      CutAt(parts[0], c, Join(parts[1..], c));
      SplitJoin(parts[1..], c);
      assert parts == [parts[0]] + parts[1..];
    }
  }

  lemma {:induction false} SplitFree(s: string, c: char)
    ensures forall p :: p in Split(s, c) ==> c !in p
    decreases |s|
  {
    CutShorter(s, c);
    var (a, b, found) := Cut(s, c);
    if !found {
    } else {
      SplitFree(b, c);
    }
  }

  // ---- bytes and characters ----

  function LowerAscii(c: char): char {
    if 'A' <= c <= 'Z' then (c as int + 32) as char else c
  }

  predicate Continues(s: string, i: nat) { i < |s| && 0x80 <= s[i] as int <= 0xBF }

  /** How many bytes the UTF-8 character at the start of `s` takes, 0 when there is none (section 4
      of RFC 3629). */
  function Utf8Width(s: string): (n: nat)
    ensures n <= |s|
  {
    if s == [] then 0
    else
      var a := s[0] as int;
      var b := if |s| > 1 then s[1] as int else 0;
      if a < 0x80 then 1
      else if 0xC2 <= a <= 0xDF && Continues(s, 1) then 2
      else if 0xE0 <= a <= 0xEF && Continues(s, 1) && Continues(s, 2)
              && (a == 0xE0 ==> b >= 0xA0) && (a == 0xED ==> b <= 0x9F) then 3
      else if 0xF0 <= a <= 0xF4 && Continues(s, 1) && Continues(s, 2) && Continues(s, 3)
              && (a == 0xF0 ==> b >= 0x90) && (a == 0xF4 ==> b <= 0x8F) then 4
      else 0
  }

  /** `s` is UTF-8 text. */
  predicate Utf8(s: string)
    decreases |s|
  {
    s == [] || (Utf8Width(s) > 0 && Utf8(s[Utf8Width(s)..]))
  }

  /** The replacement character U+FFFD. */
  const REPLACEMENT: string := [0xEF as char, 0xBF as char, 0xBD as char]

  /** Every byte that is not part of a UTF-8 character replaced, as encoding/json writes strings. */
  function Repair(s: string): string
    decreases |s|
  {
    if s == [] then ""
    else if Utf8Width(s) == 0 then REPLACEMENT + Repair(s[1..])
    else s[..Utf8Width(s)] + Repair(s[Utf8Width(s)..])
  }

  /** The width of a character does not depend on what follows it. */
  lemma WidthOfFirst(c: string, rest: string)
    requires 0 < Utf8Width(c) == |c|
    ensures Utf8Width(c + rest) == |c| && (c + rest)[|c|..] == rest
  {
    var s := c + rest;
    assert forall i :: 0 <= i < |c| ==> s[i] == c[i];
  }

  lemma WidthOfPrefix(s: string)
    ensures Utf8Width(s) > 0 ==> Utf8Width(s[..Utf8Width(s)]) == Utf8Width(s)
  {
    var c := s[..Utf8Width(s)];
    assert forall i :: 0 <= i < |c| ==> c[i] == s[i];
  }

  lemma FirstThenRest(c: string, rest: string)
    requires 0 < Utf8Width(c) == |c| && Utf8(rest)
    ensures Utf8(c + rest)
  {
    WidthOfFirst(c, rest);
  }

  lemma {:induction false} RepairedIsUtf8(s: string)
    ensures Utf8(Repair(s))
    decreases |s|
  {
    var w := Utf8Width(s);
    if s == [] {
    } else if w == 0 {
      RepairedIsUtf8(s[1..]);
      FirstThenRest(REPLACEMENT, Repair(s[1..]));
    } else {
      RepairedIsUtf8(s[w..]);
      WidthOfPrefix(s);
      FirstThenRest(s[..w], Repair(s[w..]));
    }
  }

  lemma {:induction false} Utf8IsKept(s: string)
    requires Utf8(s)
    ensures Repair(s) == s
    decreases |s|
  {
    if s == [] {
    } else {
      Utf8IsKept(s[Utf8Width(s)..]);
    }
  }

  /** Text is left alone exactly when it is UTF-8. */
  lemma KeptExactly(s: string)
    ensures Repair(s) == s <==> Utf8(s)
    ensures Repair(Repair(s)) == Repair(s)
  {
    RepairedIsUtf8(s);
    Utf8IsKept(Repair(s));
    if Utf8(s) {
      Utf8IsKept(s);
    }
  }

  function RepairAll(xs: seq<string>): (r: seq<string>)
    ensures |r| == |xs|
  {
    seq(|xs|, i requires 0 <= i < |xs| => Repair(xs[i]))
  }

  predicate AllUtf8(xs: seq<string>) { forall i :: 0 <= i < |xs| ==> Utf8(xs[i]) }

  lemma ListKeptExactly(xs: seq<string>)
    ensures RepairAll(xs) == xs <==> AllUtf8(xs)
    ensures RepairAll(RepairAll(xs)) == RepairAll(xs)
  {
    forall i | 0 <= i < |xs| ensures RepairAll(xs)[i] == xs[i] <==> Utf8(xs[i]) {
      KeptExactly(xs[i]);
    }
    forall i | 0 <= i < |xs| ensures RepairAll(RepairAll(xs))[i] == RepairAll(xs)[i] {
      KeptExactly(xs[i]);
    }
    if RepairAll(xs) == xs {
      forall i | 0 <= i < |xs| ensures Utf8(xs[i]) {
        assert RepairAll(xs)[i] == xs[i];
      }
    }
  }

  /** ASCII text is UTF-8. */
  lemma {:induction false} AsciiIsUtf8(s: string)
    requires forall i :: 0 <= i < |s| ==> s[i] as int < 0x80
    ensures Utf8(s)
  {
    if s == [] {
    } else {
      AsciiIsUtf8(s[1..]);
    }
  }

  // ---- decimal numbers ----

  predicate Digit(c: char) { '0' <= c <= '9' }

  predicate AllDigits(s: string) { forall i :: 0 <= i < |s| ==> Digit(s[i]) }

  function DigitValue(c: char): nat
    requires Digit(c)
  {
    c as int - '0' as int
  }

  /** The decimal digits of a natural number. */
  function Itoa(n: nat): (s: string)
    ensures s != [] && AllDigits(s)
  {
    var last := [('0' as int + n % 10) as char];
    if n < 10 then last else Itoa(n / 10) + last
  }

  /** `strconv.Itoa`. */
  function IntText(n: int): string { if n < 0 then "-" + Itoa(-n) else Itoa(n) }

  function Value(s: string): nat
    requires AllDigits(s)
  {
    if s == [] then 0 else Value(s[..|s| - 1]) * 10 + DigitValue(s[|s| - 1])
  }

  /** `strconv.Atoi`: an optional sign and at least one digit. */
  function Atoi(s: string): Option<int> {
    if s != [] && AllDigits(s) then Some(Value(s))
    else if |s| > 1 && s[0] == '+' && AllDigits(s[1..]) then Some(Value(s[1..]))
    else if |s| > 1 && s[0] == '-' && AllDigits(s[1..]) then Some(-1 * Value(s[1..]))
    else None
  }

  lemma {:induction false} AtoiItoa(n: nat)
    ensures Value(Itoa(n)) == n && Atoi(Itoa(n)) == Some(n)
  {
    var s := Itoa(n);
    if n >= 10 {
      AtoiItoa(n / 10);
      assert s[..|s| - 1] == Itoa(n / 10);
    } else {
      assert s[..0] == [];
    }
  }
}
