/** Stripping escape sequences from log messages (core/log/ansi.go). */
module Ansi {

  const ESC: char := '\U{1B}'
  const BEL: char := '\U{07}'

  /** Where a byte-at-a-time reader stands: in text, after ESC, inside a control sequence (CSI,
      section 5.4 of ECMA-48), inside an operating system command, or after an ESC in one. */
  datatype Mode = Plain | Escape | Csi | Osc | OscEscape

  predicate FinalByte(c: char) { 0x40 <= c as int <= 0x7E }

  function InOsc(c: char): Mode {
    if c == BEL then Plain else if c == ESC then OscEscape else Osc
  }

  function Next(m: Mode, c: char): Mode {
    match m
    case Plain => if c == ESC then Escape else Plain
    case Escape => if c == '[' then Csi else if c == ']' then Osc else Plain
    case Csi => if FinalByte(c) then Plain else Csi
    case Osc => InOsc(c)
    case OscEscape => if c == '\\' then Plain else InOsc(c)
  }

  /** The text the automaton lets through, starting in mode `m`. */
  function Filter(m: Mode, s: string): string
    decreases |s|
  {
    if s == [] then []
    else (if m.Plain? && s[0] != ESC then [s[0]] else []) + Filter(Next(m, s[0]), s[1..])
  }

  lemma {:induction false} FilterDropsEscapes(m: Mode, s: string)
    ensures ESC !in Filter(m, s)
    decreases |s|
  {
    if s == [] {
    } else {
      FilterDropsEscapes(Next(m, s[0]), s[1..]);
    }
  }

  lemma {:induction false} FilterKeepsPlainText(s: string)
    requires ESC !in s
    ensures Filter(Plain, s) == s
  {
    if s == [] {
    } else {
      FilterKeepsPlainText(s[1..]);
      assert s == [s[0]] + s[1..];
    }
  }

  /** Stripping twice is stripping once. */
  lemma StripIdempotent(s: string)
    ensures Filter(Plain, Filter(Plain, s)) == Filter(Plain, s)
  {
    FilterDropsEscapes(Plain, s);
    FilterKeepsPlainText(Filter(Plain, s));
  }

  lemma FilterStep(m: Mode, s: string, i: nat)
    requires i < |s|
    ensures m.Plain? && s[i] != ESC ==> Filter(m, s[i..]) == [s[i]] + Filter(Plain, s[i + 1..])
    ensures !m.Plain? || s[i] == ESC ==> Filter(m, s[i..]) == Filter(Next(m, s[i]), s[i + 1..])
  {
    assert s[i..][1..] == s[i + 1..];
  }

  lemma FilterTake(s: string, i: nat, r: string)
    requires i < |s| && s[i] != ESC
    ensures r + Filter(Plain, s[i..]) == r + [s[i]] + Filter(Plain, s[i + 1..])
  {
    FilterStep(Plain, s, i);
    assert r + ([s[i]] + Filter(Plain, s[i + 1..])) == r + [s[i]] + Filter(Plain, s[i + 1..]);
  }

  lemma FilterEscape(s: string, i: nat)
    requires i + 1 < |s| && s[i] == ESC
    ensures Filter(Plain, s[i..]) == Filter(Next(Escape, s[i + 1]), s[i + 2..])
  {
    FilterStep(Plain, s, i);
    FilterStep(Escape, s, i + 1);
  }

  lemma FilterEnd(m: Mode, s: string)
    ensures Filter(m, s[|s|..]) == []
  {
  }

  // ---- sequences ----

  /** A control sequence disappears up to its final byte, 0x40 to 0x7E, whatever stands before it. */
  lemma {:induction false} CsiDisappears(params: string, final: char, rest: string)
    requires forall i :: 0 <= i < |params| ==> !(0x40 <= params[i] as int <= 0x7E)
    requires 0x40 <= final as int <= 0x7E
    ensures Filter(Csi, params + [final] + rest) == Filter(Plain, rest)
    decreases |params|
  {
    var s := params + [final] + rest;
    if params == "" {
      assert s[0] == final && s[1..] == rest;
    } else {
      assert s[0] == params[0] && s[1..] == params[1..] + [final] + rest;
      CsiDisappears(params[1..], final, rest);
    }
  }

  /** An operating system command disappears up to its BEL. */
  lemma {:induction false} OscDisappears(body: string, rest: string)
    requires forall i :: 0 <= i < |body| ==> body[i] as int != 0x07 && body[i] as int != 0x1B
    ensures Filter(Osc, body + [0x07 as char] + rest) == Filter(Plain, rest)
    ensures Filter(Osc, body + [0x1B as char, '\\'] + rest) == Filter(Plain, rest)
    decreases |body|
  {
    var s, t := body + [0x07 as char] + rest, body + [0x1B as char, '\\'] + rest;
    if body == "" {
      assert s[0] as int == 0x07 && s[1..] == rest;
      assert t[0] as int == 0x1B && t[1] == '\\' && t[1..][1..] == rest;
    } else {
      assert s[0] == body[0] && s[1..] == body[1..] + [0x07 as char] + rest;
      assert t[0] == body[0] && t[1..] == body[1..] + [0x1B as char, '\\'] + rest;
      OscDisappears(body[1..], rest);
    }
  }

  /** What the scanner drops: a control sequence, a command with either terminator, any other pair, a
      lone ESC at the end, and nothing else. */
  lemma EscapeSequences(params: string, final: char, body: string, other: char, rest: string)
    requires forall i :: 0 <= i < |params| ==> !(0x40 <= params[i] as int <= 0x7E)
    requires 0x40 <= final as int <= 0x7E
    requires forall i :: 0 <= i < |body| ==> body[i] as int != 0x07 && body[i] as int != 0x1B
    requires other != '[' && other != ']'
    ensures Filter(Plain, [0x1B as char, '['] + (params + [final] + rest)) == Filter(Plain, rest)
    ensures Filter(Plain, [0x1B as char, ']'] + (body + [0x07 as char] + rest)) == Filter(Plain, rest)
    ensures Filter(Plain, [0x1B as char, ']'] + (body + [0x1B as char, '\\'] + rest)) == Filter(Plain, rest)
    ensures Filter(Plain, [0x1B as char, other] + rest) == Filter(Plain, rest)
    ensures Filter(Plain, [0x1B as char]) == ""
  {
    CsiDisappears(params, final, rest);
    OscDisappears(body, rest);
    Introduced('[', params + [final] + rest);
    Introduced(']', body + [0x07 as char] + rest);
    Introduced(']', body + [0x1B as char, '\\'] + rest);
    Introduced(other, rest);
    assert [0x1B as char][1..] == "";
  }

  lemma Introduced(c: char, s: string)
    ensures Filter(Plain, [0x1B as char, c] + s) == Filter(if c == '[' then Csi else if c == ']' then Osc else Plain, s)
  {
    var t := [0x1B as char, c] + s;
    assert t[0] as int == 0x1B && t[1..][0] == c && t[1..][1..] == s;
  }

  /** The scanner with its nested skip loops computes what the automaton lets through. */
  method StripANSI(s: string) returns (r: string)
    ensures r == Filter(Plain, s)
    ensures ESC !in r
  {
    FilterDropsEscapes(Plain, s);
    if ESC !in s {
      FilterKeepsPlainText(s);
      return s;
    }
    r := "";
    var i := 0;
    assert s[0..] == s;
    while i < |s|
      invariant 0 <= i <= |s|
      invariant r + Filter(Plain, s[i..]) == Filter(Plain, s)
    {
      FilterStep(Plain, s, i);
      if s[i] != ESC {
        FilterTake(s, i, r);
        r := r + [s[i]];
        i := i + 1;
        continue;
      }
      if i + 1 >= |s| {
        FilterEnd(Escape, s);
        return;
      }
      FilterEscape(s, i);
      var next := s[i + 1];
      i := i + 2;
      if next == '[' {
        i := SkipCsi(s, i);
      } else if next == ']' {
        i := SkipOsc(s, i);
      }
    }
    FilterEnd(Plain, s);
  }

  method SkipCsi(s: string, start: nat) returns (i: nat)
    requires start <= |s|
    ensures start <= i <= |s|
    ensures Filter(Plain, s[i..]) == Filter(Csi, s[start..])
  {
    i := start;
    while i < |s|
      invariant start <= i <= |s|
      invariant Filter(Csi, s[i..]) == Filter(Csi, s[start..])
    {
      FilterStep(Csi, s, i);
      var c := s[i];
      i := i + 1;
      if FinalByte(c) {
        return;
      }
    }
    FilterEnd(Csi, s);
    FilterEnd(Plain, s);
  }

  method SkipOsc(s: string, start: nat) returns (i: nat)
    requires start <= |s|
    ensures start <= i <= |s|
    ensures Filter(Plain, s[i..]) == Filter(Osc, s[start..])
  {
    i := start;
    while i < |s|
      invariant start <= i <= |s|
      invariant Filter(Osc, s[i..]) == Filter(Osc, s[start..])
    {
      FilterStep(Osc, s, i);
      var c := s[i];
      i := i + 1;
      if c == BEL {
        return;
      }
      if i < |s| {
        FilterStep(OscEscape, s, i);
        FilterStep(Osc, s, i);
      } else {
        FilterEnd(OscEscape, s);
        FilterEnd(Osc, s);
      }
      if c == ESC && i < |s| && s[i] == '\\' {
        i := i + 1;
        return;
      }
    }
    FilterEnd(Osc, s);
    FilterEnd(Plain, s);
  }
}
