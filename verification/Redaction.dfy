/** Redacting registered secrets from log messages (core/log/redactor.go, core/log/logger.go).

    Case folding is a parameter: `fold` stands both for the lowering of the registry and for the
    comparison of the case-insensitive pattern, over an alphabet on which the two agree. */
module Redaction {
  import opened Options
  import opened Text
  import Ansi

  type Fold = char -> char

  const MARKER := "[REDACTED]"

  function Lower(fold: Fold, s: string): string {
    seq(|s|, i requires 0 <= i < |s| => fold(s[i]))
  }

  // ---- the registry ----

  /** The part of a candidate that is registered, or None when too short. */
  function Candidate(s: string): Option<string> {
    if |Trim(s)| < 3 then None else Some(Trim(s))
  }

  function AddOne(fold: Fold, secrets: map<string, string>, s: string): map<string, string> {
    match Candidate(s)
    case None => secrets
    case Some(t) => secrets[Lower(fold, t) := t]
  }

  function AddAll(fold: Fold, secrets: map<string, string>, ss: seq<string>): map<string, string>
    decreases |ss|
  {
    if ss == [] then secrets else AddAll(fold, AddOne(fold, secrets, ss[0]), ss[1..])
  }

  /** The registry after a history of Add calls. */
  function Registry(fold: Fold, secrets: map<string, string>, history: seq<seq<string>>): map<string, string>
    decreases |history|
  {
    if history == [] then secrets else Registry(fold, AddAll(fold, secrets, history[0]), history[1..])
  }

  /** Every entry is stored under its lowered form and is worth matching. */
  ghost predicate RegistryOk(fold: Fold, secrets: map<string, string>) {
    forall key :: key in secrets ==> Lower(fold, secrets[key]) == key && |secrets[key]| >= 3
  }

  ghost predicate Known(fold: Fold, secrets: map<string, string>, t: string) { Lower(fold, t) in secrets }

  lemma {:induction false} AddAllKeeps(fold: Fold, secrets: map<string, string>, ss: seq<string>)
    requires RegistryOk(fold, secrets)
    ensures RegistryOk(fold, AddAll(fold, secrets, ss))
    ensures secrets.Keys <= AddAll(fold, secrets, ss).Keys
    ensures forall s :: s in ss && Candidate(s).Some? ==> Known(fold, AddAll(fold, secrets, ss), Candidate(s).value)
    decreases |ss|
  {
    if ss == [] {
    } else {
      AddAllKeeps(fold, AddOne(fold, secrets, ss[0]), ss[1..]);
    }
  }

  /** Registration is additive: whatever any Add call of the history was given, long enough, stays
      known, and nothing else about the registry can go wrong. */
  lemma {:induction false} NothingIsForgotten(fold: Fold, secrets: map<string, string>, history: seq<seq<string>>)
    requires RegistryOk(fold, secrets)
    ensures RegistryOk(fold, Registry(fold, secrets, history))
    ensures secrets.Keys <= Registry(fold, secrets, history).Keys
    ensures forall ss, s :: ss in history && s in ss && Candidate(s).Some? ==>
      Known(fold, Registry(fold, secrets, history), Candidate(s).value)
    decreases |history|
  {
    if history == [] {
    } else {
      AddAllKeeps(fold, secrets, history[0]);
      NothingIsForgotten(fold, AddAll(fold, secrets, history[0]), history[1..]);
    }
  }

  // ---- whether it compiles ----

  /** The pattern compiles: the regexp package refuses text that is not UTF-8, and `MustCompile`
      turns the refusal into a panic. */
  ghost predicate Compiles(secrets: map<string, string>) {
    forall key :: key in secrets ==> Utf8(secrets[key])
  }

  /** Two texts that differ in case only are UTF-8 together or not at all. */
  ghost predicate FoldKeepsUtf8(fold: Fold) {
    forall a, b {:trigger Lower(fold, a), Lower(fold, b)} :: Lower(fold, a) == Lower(fold, b) ==> (Utf8(a) <==> Utf8(b))
  }

  lemma SameWidth(s: string, l: string)
    requires l == Lower(LowerAscii, s)
    ensures Utf8Width(l) == Utf8Width(s)
  {
    forall i | 0 <= i < |s| ensures l[i] == s[i] || (l[i] as int < 0x80 && s[i] as int < 0x80) {
      assert l[i] == LowerAscii(s[i]);
    }
  }

  lemma {:induction false} LowerAsciiKeepsUtf8(s: string)
    ensures Utf8(Lower(LowerAscii, s)) <==> Utf8(s)
    decreases |s|
  {
    var l := Lower(LowerAscii, s);
    var n := Utf8Width(s);
    SameWidth(s, l);
    if n == 0 {
    } else {
      assert l[n..] == Lower(LowerAscii, s[n..]);
      LowerAsciiKeepsUtf8(s[n..]);
    }
  }

  /** The lowering of ASCII letters is such a folding. */
  lemma AsciiFolds()
    ensures FoldKeepsUtf8(LowerAscii)
  {
    forall a, b | Lower(LowerAscii, a) == Lower(LowerAscii, b) ensures Utf8(a) <==> Utf8(b) {
      LowerAsciiKeepsUtf8(a);
      LowerAsciiKeepsUtf8(b);
    }
  }

  lemma {:induction false} AddAllCompiles(fold: Fold, secrets: map<string, string>, ss: seq<string>)
    requires FoldKeepsUtf8(fold) && RegistryOk(fold, secrets)
    ensures Compiles(AddAll(fold, secrets, ss)) <==>
      Compiles(secrets) && forall s :: s in ss && Candidate(s).Some? ==> Utf8(Candidate(s).value)
    decreases |ss|
  {
    if ss == [] {
    } else {
      var next := AddOne(fold, secrets, ss[0]);
      AddAllCompiles(fold, next, ss[1..]);
      AddOneCompiles(fold, secrets, ss[0]);
      assert ss == [ss[0]] + ss[1..];
    }
  }

  lemma AddOneCompiles(fold: Fold, secrets: map<string, string>, s: string)
    requires FoldKeepsUtf8(fold) && RegistryOk(fold, secrets)
    ensures RegistryOk(fold, AddOne(fold, secrets, s))
    ensures Compiles(AddOne(fold, secrets, s)) <==>
      Compiles(secrets) && (Candidate(s).Some? ==> Utf8(Candidate(s).value))
  {
    var next := AddOne(fold, secrets, s);
    if Candidate(s).Some? {
      var t := Candidate(s).value;
      var key := Lower(fold, t);
      assert next[key] == t;
      if Compiles(next) {
        forall k | k in secrets ensures Utf8(secrets[k]) {
          if k == key {
            assert Lower(fold, secrets[k]) == Lower(fold, t);
          } else {
            assert next[k] == secrets[k];
          }
        }
      }
    }
  }

  /** Over any history: the pattern compiles exactly when every candidate ever kept is UTF-8. One
      that is not makes its own Add and every later one panic. */
  lemma {:induction false} CompilesExactly(fold: Fold, secrets: map<string, string>, history: seq<seq<string>>)
    requires FoldKeepsUtf8(fold) && RegistryOk(fold, secrets)
    ensures Compiles(Registry(fold, secrets, history)) <==>
      && Compiles(secrets)
      && forall ss, s :: ss in history && s in ss && Candidate(s).Some? ==> Utf8(Candidate(s).value)
    decreases |history|
  {
    if history == [] {
    } else {
      AddAllKeeps(fold, secrets, history[0]);
      AddAllCompiles(fold, secrets, history[0]);
      CompilesExactly(fold, AddAll(fold, secrets, history[0]), history[1..]);
      assert history == [history[0]] + history[1..];
    }
  }

  // ---- the pattern ----

  /** `parts` lists the alternatives in whatever order the registry was iterated. */
  ghost predicate Compiled(secrets: map<string, string>, parts: seq<string>) {
    forall t :: t in parts <==> t in secrets.Values
  }

  predicate MatchAt(fold: Fold, s: string, i: nat, t: string) {
    i + |t| <= |s| && forall j :: 0 <= j < |t| ==> fold(s[i + j]) == fold(t[j])
  }

  /** `t` occurs in `s`, up to case. */
  ghost predicate Contains(fold: Fold, s: string, t: string) {
    exists i: nat :: MatchAt(fold, s, i, t)
  }

  /** The first alternative that matches at position i. */
  function FirstAlternative(fold: Fold, parts: seq<string>, s: string, i: nat): Option<string> {
    if parts == [] then None
    else if MatchAt(fold, s, i, parts[0]) then Some(parts[0])
    else FirstAlternative(fold, parts[1..], s, i)
  }

  datatype Hit = Hit(at: nat, alternative: string)

  /** The leftmost match from position `from` on, earlier alternatives preferred. */
  function NextHit(fold: Fold, parts: seq<string>, s: string, from: nat): Option<Hit>
    decreases |s| + 1 - from
  {
    if from > |s| then None
    else
      match FirstAlternative(fold, parts, s, from)
      case Some(t) => Some(Hit(from, t))
      case None => NextHit(fold, parts, s, from + 1)
  }

  lemma {:induction false} FirstAlternativeSpec(fold: Fold, parts: seq<string>, s: string, i: nat)
    ensures var r := FirstAlternative(fold, parts, s, i);
      && (r.Some? ==> r.value in parts && MatchAt(fold, s, i, r.value))
      && (r.None? ==> forall t :: t in parts ==> !MatchAt(fold, s, i, t))
  {
    if parts == [] || MatchAt(fold, s, i, parts[0]) {
    } else {
      FirstAlternativeSpec(fold, parts[1..], s, i);
    }
  }

  lemma {:induction false} NextHitSpec(fold: Fold, parts: seq<string>, s: string, from: nat)
    ensures var r := NextHit(fold, parts, s, from);
      && (r.Some? ==>
            && from <= r.value.at && r.value.alternative in parts && MatchAt(fold, s, r.value.at, r.value.alternative)
            && forall i: nat, t :: from <= i < r.value.at && t in parts ==> !MatchAt(fold, s, i, t))
      && (r.None? ==> forall i: nat, t :: from <= i <= |s| && t in parts ==> !MatchAt(fold, s, i, t))
    decreases |s| + 1 - from
  {
    if from > |s| {
    } else {
      FirstAlternativeSpec(fold, parts, s, from);
      if FirstAlternative(fold, parts, s, from).None? {
        NextHitSpec(fold, parts, s, from + 1);
      }
    }
  }

  // ---- replacing ----

  datatype Piece = Literal(text: string) | Redacted(text: string)

  ghost predicate Usable(parts: seq<string>) { forall t :: t in parts ==> t != "" }

  /** The message from position `from` on, cut into kept text and matches. */
  function Pieces(fold: Fold, parts: seq<string>, s: string, from: nat): seq<Piece>
    requires from <= |s|
    decreases |s| - from
  {
    match NextHit(fold, parts, s, from)
    case None => [Literal(s[from..])]
    case Some(hit) =>
      var end := hit.at + |hit.alternative|;
      // A match outside the message, or an empty one, does not arise: see PiecesSpec.
      if hit.at < from || end > |s| || end <= from then [Literal(s[from..])]
      else [Literal(s[from..hit.at]), Redacted(s[hit.at..end])] + Pieces(fold, parts, s, end)
  }

  function Render(ps: seq<Piece>): string {
    if ps == [] then ""
    else (if ps[0].Literal? then ps[0].text else MARKER) + Render(ps[1..])
  }

  function Original(ps: seq<Piece>): string {
    if ps == [] then "" else ps[0].text + Original(ps[1..])
  }

  /** What one piece may look like. */
  ghost predicate PieceOk(fold: Fold, parts: seq<string>, p: Piece) {
    match p
    case Literal(text) => forall t :: t in parts ==> !Contains(fold, text, t)
    case Redacted(text) => exists t :: t in parts && Lower(fold, text) == Lower(fold, t)
  }

  lemma CleanStretch(fold: Fold, parts: seq<string>, s: string, from: nat, to: nat)
    requires Usable(parts) && from <= to <= |s|
    requires forall i: nat, t :: from <= i < to && t in parts ==> !MatchAt(fold, s, i, t)
    ensures PieceOk(fold, parts, Literal(s[from..to]))
  {
    var text := s[from..to];
    forall t, i: nat | t in parts ensures !MatchAt(fold, text, i, t) {
      if MatchAt(fold, text, i, t) {
        forall j | 0 <= j < |t| ensures fold(s[from + i + j]) == fold(t[j]) {
          assert text[i + j] == s[from + i + j];
        }
        assert MatchAt(fold, s, from + i, t);
      }
    }
  }

  lemma MatchedStretch(fold: Fold, parts: seq<string>, s: string, at: nat, t: string)
    requires t in parts && MatchAt(fold, s, at, t)
    ensures PieceOk(fold, parts, Redacted(s[at..at + |t|]))
  {
    var text := s[at..at + |t|];
    assert Lower(fold, text) == Lower(fold, t);
  }

  lemma OriginalConcat2(a: Piece, b: Piece, ps: seq<Piece>)
    ensures Original([a, b] + ps) == a.text + b.text + Original(ps)
  {
    assert ([a, b] + ps)[1..] == [b] + ps;
    assert ([b] + ps)[1..] == ps;
  }

  /** Nothing is lost and nothing slips through: the pieces spell the message, a kept stretch
      contains no alternative, a redacted one is an alternative up to case. */
  lemma {:induction false} PiecesSpec(fold: Fold, parts: seq<string>, s: string, from: nat)
    requires from <= |s| && Usable(parts)
    ensures var ps := Pieces(fold, parts, s, from);
      && Original(ps) == s[from..]
      && forall p :: p in ps ==> PieceOk(fold, parts, p)
    decreases |s| - from
  {
    NextHitSpec(fold, parts, s, from);
    var hit := NextHit(fold, parts, s, from);
    if hit.None? {
      assert s[from..] == s[from..|s|];
      CleanStretch(fold, parts, s, from, |s|);
      assert Original([Literal(s[from..])]) == s[from..] + Original([]);
    } else {
      var at, t := hit.value.at, hit.value.alternative;
      var end := at + |t|;
      assert t != "";
      CleanStretch(fold, parts, s, from, at);
      MatchedStretch(fold, parts, s, at, t);
      PiecesSpec(fold, parts, s, end);
      OriginalConcat2(Literal(s[from..at]), Redacted(s[at..end]), Pieces(fold, parts, s, end));
      assert s[from..] == s[from..at] + s[at..end] + s[end..];
    }
  }

  // ---- the log line ----

  /** What `Logger.log` passes on: the stripped, redacted message. */
  function Logged(fold: Fold, parts: seq<string>, message: string): string {
    Render(Pieces(fold, parts, Ansi.Filter(Ansi.Plain, message), 0))
  }

  lemma {:induction false} RenderNoEscape(ps: seq<Piece>)
    requires Ansi.ESC !in Original(ps)
    ensures Ansi.ESC !in Render(ps)
  {
    if ps == [] {
    } else {
      assert Original(ps) == ps[0].text + Original(ps[1..]);
      RenderNoEscape(ps[1..]);
    }
  }

  lemma MatchFolds(fold: Fold, s: string, i: nat, t: string, u: string)
    requires Lower(fold, t) == Lower(fold, u) && MatchAt(fold, s, i, t)
    ensures MatchAt(fold, s, i, u)
  {
    assert |Lower(fold, t)| == |t| && |Lower(fold, u)| == |u|;
    forall j | 0 <= j < |u| ensures fold(s[i + j]) == fold(u[j]) {
      assert Lower(fold, t)[j] == fold(t[j]) && Lower(fold, u)[j] == fold(u[j]);
    }
  }

  /** For every history of Add calls, every order in which the alternatives were compiled and every
      message: the line contains no ESC, is the stripped message with whole occurrences of secrets
      replaced, and no kept stretch contains any secret ever registered, in any casing. */
  lemma LogLineIsClean(fold: Fold, history: seq<seq<string>>, parts: seq<string>, message: string)
    requires Compiled(Registry(fold, map[], history), parts)
    ensures Ansi.ESC !in Logged(fold, parts, message)
    ensures var plain := Ansi.Filter(Ansi.Plain, message); var ps := Pieces(fold, parts, plain, 0);
      && Original(ps) == plain
      && (forall p, ss, s :: p in ps && p.Literal? && ss in history && s in ss && Candidate(s).Some? ==>
            !Contains(fold, p.text, Candidate(s).value))
      && (forall p :: p in ps && p.Redacted? ==> Known(fold, Registry(fold, map[], history), p.text))
  {
    var registry := Registry(fold, map[], history);
    NothingIsForgotten(fold, map[], history);
    var plain := Ansi.Filter(Ansi.Plain, message);
    forall t | t in parts ensures t != "" && Lower(fold, t) in registry {
      ValueIsKnown(fold, registry, t);
    }
    PiecesSpec(fold, parts, plain, 0);
    assert plain[0..] == plain;
    var ps := Pieces(fold, parts, plain, 0);
    Ansi.FilterDropsEscapes(Ansi.Plain, message);
    RenderNoEscape(ps);
    forall p, ss, s | p in ps && p.Literal? && ss in history && s in ss && Candidate(s).Some?
      ensures !Contains(fold, p.text, Candidate(s).value)
    {
      RegisteredIsAbsent(fold, registry, parts, p, Candidate(s).value);
    }
    forall p | p in ps && p.Redacted? ensures Known(fold, registry, p.text) {
      assert PieceOk(fold, parts, p);
    }
  }

  lemma ValueIsKnown(fold: Fold, registry: map<string, string>, t: string)
    requires RegistryOk(fold, registry) && t in registry.Values
    ensures t != "" && Lower(fold, t) in registry
  {
    var key :| key in registry && registry[key] == t;
  }

  lemma RegisteredIsAbsent(fold: Fold, registry: map<string, string>, parts: seq<string>, p: Piece, secret: string)
    requires RegistryOk(fold, registry) && Compiled(registry, parts) && Known(fold, registry, secret)
    requires p.Literal? && PieceOk(fold, parts, p)
    ensures !Contains(fold, p.text, secret)
  {
    var t := registry[Lower(fold, secret)];
    assert t in registry.Values;
    assert t in parts && Lower(fold, t) == Lower(fold, secret);
    if Contains(fold, p.text, secret) {
      var i: nat :| MatchAt(fold, p.text, i, secret);
      MatchFolds(fold, p.text, i, secret, t);
      assert Contains(fold, p.text, t);
    }
  }

  // ---- the logged text ----

  /** Kept texts with fillings in between: k0 + m1 + k1 + ... + mn + kn. */
  function Weave(kept: seq<string>, fills: seq<string>): string
    requires |kept| == |fills| + 1
  {
    if fills == [] then kept[0] else kept[0] + fills[0] + Weave(kept[1..], fills[1..])
  }

  /** The literal marker, n times. */
  function Markers(n: nat): (r: seq<string>)
    ensures |r| == n
  {
    seq(n, i requires 0 <= i < n => "[REDACTED]")
  }

  /** How a message is cut: kept stretches without any alternative, matches that are one up to case. */
  ghost predicate Cutting(fold: Fold, parts: seq<string>, kept: seq<string>, cut: seq<string>) {
    && |kept| == |cut| + 1
    && (forall i, t :: 0 <= i < |kept| && t in parts ==> !Contains(fold, kept[i], t))
    && (forall i :: 0 <= i < |cut| ==> IsSecret(fold, parts, cut[i]))
  }

  ghost predicate IsSecret(fold: Fold, parts: seq<string>, text: string) {
    exists t :: t in parts && Lower(fold, text) == Lower(fold, t)
  }

  function KeptTexts(ps: seq<Piece>): seq<string>
  {
    if ps == [] then []
    else (if ps[0].Literal? then [ps[0].text] else []) + KeptTexts(ps[1..])
  }

  function CutTexts(ps: seq<Piece>): seq<string>
  {
    if ps == [] then []
    else (if ps[0].Literal? then [] else [ps[0].text]) + CutTexts(ps[1..])
  }

  /** A kept stretch first and last, kept and cut in turn. */
  predicate Alternating(ps: seq<Piece>) {
    && ps != [] && ps[0].Literal?
    && (|ps| > 1 ==> ps[1].Redacted? && Alternating(ps[2..]))
  }

  lemma {:induction false} PiecesAlternate(fold: Fold, parts: seq<string>, s: string, from: nat)
    requires from <= |s| && Usable(parts)
    ensures Alternating(Pieces(fold, parts, s, from))
    decreases |s| - from
  {
    NextHitSpec(fold, parts, s, from);
    var hit := NextHit(fold, parts, s, from);
    if hit.None? {
    } else {
      var end := hit.value.at + |hit.value.alternative|;
      PiecesAlternate(fold, parts, s, end);
      var ps := Pieces(fold, parts, s, from);
      assert ps[2..] == Pieces(fold, parts, s, end);
    }
  }

  lemma TwoTexts(ps: seq<Piece>)
    requires Alternating(ps) && |ps| > 1
    ensures KeptTexts(ps) == [ps[0].text] + KeptTexts(ps[2..]) && CutTexts(ps) == [ps[1].text] + CutTexts(ps[2..])
  {
    assert ps[1..][1..] == ps[2..];
    assert KeptTexts(ps[1..]) == [] + KeptTexts(ps[2..]);
    assert CutTexts(ps) == [] + CutTexts(ps[1..]);
  }

  lemma Regrouped(x: string, y: string, z: string)
    ensures x + (y + z) == x + y + z
  {
  }

  lemma TwoOriginals(ps: seq<Piece>)
    requires Alternating(ps) && |ps| > 1
    ensures Original(ps) == ps[0].text + ps[1].text + Original(ps[2..])
  {
    assert ps[1..][1..] == ps[2..];
    Regrouped(ps[0].text, ps[1].text, Original(ps[2..]));
  }

  lemma TwoRendered(ps: seq<Piece>)
    requires Alternating(ps) && |ps| > 1
    ensures Render(ps) == ps[0].text + "[REDACTED]" + Render(ps[2..])
  {
    assert ps[1..][1..] == ps[2..];
    Regrouped(ps[0].text, "[REDACTED]", Render(ps[2..]));
  }

  /** What the pieces spell, and what the line says. */
  lemma {:induction false} PiecesWeave(ps: seq<Piece>)
    requires Alternating(ps)
    ensures |KeptTexts(ps)| == |CutTexts(ps)| + 1
    ensures Original(ps) == Weave(KeptTexts(ps), CutTexts(ps))
    ensures Render(ps) == Weave(KeptTexts(ps), Markers(|CutTexts(ps)|))
    decreases |ps|
  {
    if |ps| == 1 {
      assert ps[1..] == [];
    } else {
      var rest := ps[2..];
      PiecesWeave(rest);
      TwoOriginals(ps);
      TwoRendered(ps);
      TwoTexts(ps);
      var kept, cut := KeptTexts(ps), CutTexts(ps);
      assert kept[1..] == KeptTexts(rest) && cut[1..] == CutTexts(rest);
      assert Markers(|cut|)[1..] == Markers(|CutTexts(rest)|);
    }
  }

  lemma {:induction false} KeptAndCut(fold: Fold, parts: seq<string>, ps: seq<Piece>)
    requires forall p :: p in ps ==> PieceOk(fold, parts, p)
    ensures forall k, t :: k in KeptTexts(ps) && t in parts ==> !Contains(fold, k, t)
    ensures forall m :: m in CutTexts(ps) ==> IsSecret(fold, parts, m)
  {
    if ps == [] {
    } else {
      KeptAndCut(fold, parts, ps[1..]);
      assert PieceOk(fold, parts, ps[0]);
    }
  }

  /** The logged line: the stripped message with each match replaced by the literal marker, the
      stretches in between kept as they are and free of every alternative. */
  lemma LoggedLine(fold: Fold, parts: seq<string>, message: string) returns (kept: seq<string>, cut: seq<string>)
    requires Usable(parts)
    ensures Cutting(fold, parts, kept, cut)
    ensures Ansi.Filter(Ansi.Plain, message) == Weave(kept, cut)
    ensures Logged(fold, parts, message) == Weave(kept, Markers(|cut|))
  {
    var plain := Ansi.Filter(Ansi.Plain, message);
    var ps := Pieces(fold, parts, plain, 0);
    PiecesSpec(fold, parts, plain, 0);
    assert plain[0..] == plain;
    PiecesAlternate(fold, parts, plain, 0);
    PiecesWeave(ps);
    KeptAndCut(fold, parts, ps);
    kept, cut := KeptTexts(ps), CutTexts(ps);
    forall i, t | 0 <= i < |kept| && t in parts ensures !Contains(fold, kept[i], t) {
      assert kept[i] in kept;
    }
    forall i | 0 <= i < |cut| ensures IsSecret(fold, parts, cut[i]) {
      assert cut[i] in cut;
    }
  }

  /** `t` occurs somewhere in `s`, up to case, for some alternative `t`. */
  ghost predicate HasSecret(fold: Fold, parts: seq<string>, s: string) {
    exists t :: t in parts && Contains(fold, s, t)
  }

  /** A message without secrets is logged as it is. */
  lemma CleanMessageIsKept(fold: Fold, parts: seq<string>, message: string)
    requires Usable(parts) && !HasSecret(fold, parts, Ansi.Filter(Ansi.Plain, message))
    ensures Logged(fold, parts, message) == Ansi.Filter(Ansi.Plain, message)
  {
    var plain := Ansi.Filter(Ansi.Plain, message);
    NextHitSpec(fold, parts, plain, 0);
    if NextHit(fold, parts, plain, 0).Some? {
      var hit := NextHit(fold, parts, plain, 0).value;
      assert Contains(fold, plain, hit.alternative);
    }
    assert plain[0..] == plain;
    assert Render([Literal(plain)]) == plain + Render([]);
  }

  lemma WeaveNone(kept: seq<string>)
    requires |kept| == 1
    ensures Weave(kept, []) == kept[0] && Weave(kept, Markers(0)) == kept[0]
  {
  }

  lemma {:induction false} WeaveFirst(kept: seq<string>, fills: seq<string>)
    requires |kept| == |fills| + 1 && fills != []
    ensures kept[0] + fills[0] <= Weave(kept, fills)
  {
  }

  /** A message with a secret is logged otherwise, unless it contains the literal marker itself. */
  lemma SecretMessageIsChanged(fold: Fold, parts: seq<string>, message: string)
    requires Usable(parts) && HasSecret(fold, parts, Ansi.Filter(Ansi.Plain, message))
    ensures Logged(fold, parts, message) == Ansi.Filter(Ansi.Plain, message) ==>
      Occurs("[REDACTED]", Ansi.Filter(Ansi.Plain, message))
  {
    var plain := Ansi.Filter(Ansi.Plain, message);
    var kept, cut := LoggedLine(fold, parts, message);
    if cut == [] {
      WeaveNone(kept);
    } else {
      WeaveFirst(kept, Markers(|cut|));
      FirstMarker(kept[0], Logged(fold, parts, message));
    }
  }

  lemma FirstMarker(k: string, line: string)
    requires k + "[REDACTED]" <= line
    ensures Occurs("[REDACTED]", line)
  {
    assert (k + "[REDACTED]")[|k|..|k| + 10] == "[REDACTED]";
    assert line[|k|..|k| + 10] == "[REDACTED]";
    assert OccursAt("[REDACTED]", line, |k|);
  }

  /** `t` occurs in `s` as it stands. */
  ghost predicate Occurs(t: string, s: string) { exists i: nat :: OccursAt(t, s, i) }

  predicate OccursAt(t: string, s: string, i: nat) { i + |t| <= |s| && s[i..i + |t|] == t }

  /** So for a message that does not contain the marker: it is logged unchanged exactly when it
      contains no secret. */
  lemma LoggedUnchangedExactly(fold: Fold, parts: seq<string>, message: string)
    requires Usable(parts) && !Occurs("[REDACTED]", Ansi.Filter(Ansi.Plain, message))
    ensures Logged(fold, parts, message) == Ansi.Filter(Ansi.Plain, message) <==>
      !HasSecret(fold, parts, Ansi.Filter(Ansi.Plain, message))
  {
    if HasSecret(fold, parts, Ansi.Filter(Ansi.Plain, message)) {
      SecretMessageIsChanged(fold, parts, message);
    } else {
      CleanMessageIsKept(fold, parts, message);
    }
  }

  /** The exception exists: who registers the marker itself gets it logged as it stands. */
  lemma MarkerAsSecret(fold: Fold)
    ensures var parts := ["[REDACTED]"]; var message := "[REDACTED]";
      Usable(parts) && HasSecret(fold, parts, Ansi.Filter(Ansi.Plain, message))
      && Logged(fold, parts, message) == Ansi.Filter(Ansi.Plain, message)
  {
    var message := "[REDACTED]";
    Ansi.FilterKeepsPlainText(message);
    OneMatch(fold, [message], message);
    RenderMarker(message);
  }

  /** A message that is a secret as a whole is one match. */
  lemma OneMatch(fold: Fold, parts: seq<string>, message: string)
    requires parts == [message] && message != ""
    ensures Usable(parts) && HasSecret(fold, parts, message)
    ensures Pieces(fold, parts, message, 0) == [Literal(""), Redacted(message)] + [Literal("")]
  {
    assert message in parts && MatchAt(fold, message, 0, message) && Contains(fold, message, message);
    assert NextHit(fold, parts, message, 0) == Some(Hit(0, message));
    NothingLeft(fold, parts, message);
    assert message[0..0] == "" && message[0..|message|] == message;
  }

  lemma NothingLeft(fold: Fold, parts: seq<string>, message: string)
    requires parts == [message] && message != ""
    ensures Pieces(fold, parts, message, |message|) == [Literal("")]
  {
    NextHitSpec(fold, parts, message, |message|);
    assert message[|message|..] == "";
  }

  lemma RenderMarker(message: string)
    ensures Render([Literal(""), Redacted(message)] + [Literal("")]) == "[REDACTED]"
  {
    var ps := [Literal(""), Redacted(message)] + [Literal("")];
    assert ps[1..] == [Redacted(message), Literal("")] && ps[1..][1..] == [Literal("")];
    assert Render([Literal("")]) == "" + Render([]);
    assert Render(ps[1..]) == MARKER + Render([Literal("")]);
  }

  /** Where the j-th marker of a line starts. */
  function MarkerAt(kept: seq<string>, j: nat): nat
    requires j < |kept|
  {
    if j == 0 then |kept[0]| else |kept[0]| + 10 + MarkerAt(kept[1..], j - 1)
  }

  /** Positions i .. i+n-1 share one with the j-th marker. */
  predicate Overlaps(kept: seq<string>, j: nat, i: nat, n: nat)
    requires j < |kept|
  {
    i < MarkerAt(kept, j) + 10 && MarkerAt(kept, j) < i + n
  }

  /** Wherever a secret still occurs in a line, it overlaps a marker. */
  lemma {:induction false} OccurrenceOverlaps(fold: Fold, kept: seq<string>, n: nat, i: nat, t: string)
    requires |kept| == n + 1 && t != "" && (forall k :: 0 <= k < |kept| ==> !Contains(fold, kept[k], t))
    requires MatchAt(fold, Weave(kept, Markers(n)), i, t)
    ensures exists j :: 0 <= j < n && Overlaps(kept, j, i, |t|)
    decreases n
  {
    var line := Weave(kept, Markers(n));
    var k := |kept[0]|;
    if n == 0 {
      WeaveNone(kept);
    } else {
      var rest := Weave(kept[1..], Markers(n)[1..]);
      assert Markers(n)[1..] == Markers(n - 1);
      assert line == kept[0] + "[REDACTED]" + rest;
      if i + |t| <= k {
        assert line == kept[0] + ("[REDACTED]" + rest);
        InsideFirst(fold, kept[0], "[REDACTED]" + rest, i, t);
      } else if i >= k + 10 {
        InsideRest(fold, kept[0] + "[REDACTED]", rest, i, t);
        OccurrenceOverlaps(fold, kept[1..], n - 1, i - k - 10, t);
        var j :| 0 <= j < n - 1 && Overlaps(kept[1..], j, i - k - 10, |t|);
        assert Overlaps(kept, j + 1, i, |t|);
      } else {
        assert Overlaps(kept, 0, i, |t|);
      }
    }
  }

  lemma InsideFirst(fold: Fold, a: string, b: string, i: nat, t: string)
    requires MatchAt(fold, a + b, i, t) && i + |t| <= |a|
    ensures Contains(fold, a, t)
  {
    assert forall x :: 0 <= x < |a| ==> (a + b)[x] == a[x];
    assert MatchAt(fold, a, i, t);
  }

  lemma InsideRest(fold: Fold, a: string, b: string, i: nat, t: string)
    requires MatchAt(fold, a + b, i, t) && i >= |a|
    ensures MatchAt(fold, b, i - |a|, t)
  {
    assert forall x :: 0 <= x < |b| ==> b[x] == (a + b)[|a| + x];
  }

  /** A registered secret does not occur in the logged line, except across a marker. */
  lemma NoSecretBetweenMarkers(fold: Fold, parts: seq<string>, message: string, i: nat, t: string)
    returns (kept: seq<string>, cut: seq<string>)
    requires Usable(parts) && t in parts && MatchAt(fold, Logged(fold, parts, message), i, t)
    ensures Cutting(fold, parts, kept, cut) && Logged(fold, parts, message) == Weave(kept, Markers(|cut|))
    ensures exists j :: 0 <= j < |cut| && Overlaps(kept, j, i, |t|)
  {
    kept, cut := LoggedLine(fold, parts, message);
    OccurrenceOverlaps(fold, kept, |cut|, i, t);
  }

  /** The alternatives compiled from a registry can be used, and are what it holds. */
  lemma CompiledUsable(fold: Fold, registry: map<string, string>, parts: seq<string>)
    requires RegistryOk(fold, registry) && Compiled(registry, parts)
    ensures Usable(parts)
  {
    forall t | t in parts ensures t != "" {
      ValueIsKnown(fold, registry, t);
    }
  }

  // ---- the pattern held over a run ----

  /** A redactor: its registry and the alternatives of the pattern in use. */
  datatype Held = Held(secrets: map<string, string>, parts: seq<string>)

  const NEW: Held := Held(map[], [])

  /** One Add call. When the new registry does not compile the call panics and the old pattern stays. */
  ghost predicate AddStep(fold: Fold, h: Held, ss: seq<string>, h': Held) {
    && h'.secrets == AddAll(fold, h.secrets, ss)
    && (if Compiles(h'.secrets) then Compiled(h'.secrets, h'.parts) else h'.parts == h.parts)
  }

  ghost predicate AddRun(fold: Fold, hs: seq<Held>, history: seq<seq<string>>) {
    && |hs| == |history| + 1
    && hs[0] == NEW
    && forall i {:trigger history[i]} :: 0 <= i < |history| ==> AddStep(fold, hs[i], history[i], hs[i + 1])
  }

  /** Every candidate of the call is UTF-8. */
  ghost predicate Legal(ss: seq<string>) {
    forall s :: s in ss && Candidate(s).Some? ==> Utf8(Candidate(s).value)
  }

  /** How many calls there are before the first that panics. */
  ghost function LegalCalls(history: seq<seq<string>>): (n: nat)
    ensures n <= |history|
    ensures forall i :: 0 <= i < n ==> Legal(history[i])
    ensures n < |history| ==> !Legal(history[n])
  {
    if history == [] || !Legal(history[0]) then 0 else 1 + LegalCalls(history[1..])
  }

  lemma {:induction false} RegistrySnoc(fold: Fold, secrets: map<string, string>, history: seq<seq<string>>,
                                        ss: seq<string>)
    ensures Registry(fold, secrets, history + [ss]) == AddAll(fold, Registry(fold, secrets, history), ss)
    decreases |history|
  {
    if history == [] {
      assert history + [ss] == [ss] && [ss][1..] == [];
    } else {
      assert (history + [ss])[1..] == history[1..] + [ss];
      RegistrySnoc(fold, AddAll(fold, secrets, history[0]), history[1..], ss);
    }
  }

  /** The registry compiles as long as no call was illegal, and never again after one. */
  lemma PrefixCompiles(fold: Fold, history: seq<seq<string>>, i: nat)
    requires FoldKeepsUtf8(fold) && i <= |history|
    ensures Compiles(Registry(fold, map[], history[..i])) <==> i <= LegalCalls(history)
  {
    CompilesExactly(fold, map[], history[..i]);
    var n := LegalCalls(history);
    if i <= n {
      forall ss, s | ss in history[..i] && s in ss && Candidate(s).Some? ensures Utf8(Candidate(s).value) {
        var k :| 0 <= k < i && history[k] == ss;
        assert Legal(history[k]);
      }
    } else {
      assert history[..i][n] == history[n];
    }
  }

  lemma {:induction false} HeldRegistry(fold: Fold, hs: seq<Held>, history: seq<seq<string>>, i: nat)
    requires AddRun(fold, hs, history) && i <= |history|
    ensures hs[i].secrets == Registry(fold, map[], history[..i])
    decreases i
  {
    if i == 0 {
      assert history[..0] == [];
    } else {
      HeldRegistry(fold, hs, history, i - 1);
      assert AddStep(fold, hs[i - 1], history[i - 1], hs[i]);
      assert history[..i] == history[..i - 1] + [history[i - 1]];
      RegistrySnoc(fold, map[], history[..i - 1], history[i - 1]);
    }
  }

  /** Of the first `i` calls, those before the first panic. */
  ghost function BeforePanic(history: seq<seq<string>>, i: nat): seq<seq<string>>
    requires i <= |history|
  {
    history[..if i <= LegalCalls(history) then i else LegalCalls(history)]
  }

  lemma PatternStep(fold: Fold, history: seq<seq<string>>, i: nat, h: Held, h': Held)
    requires FoldKeepsUtf8(fold) && i < |history| && AddStep(fold, h, history[i], h')
    requires h'.secrets == Registry(fold, map[], history[..i + 1])
    requires Compiled(Registry(fold, map[], BeforePanic(history, i)), h.parts)
    ensures Compiled(Registry(fold, map[], BeforePanic(history, i + 1)), h'.parts)
  {
    PrefixCompiles(fold, history, i + 1);
  }

  /** The pattern in use after `i` calls is that of the calls before the first panic. */
  lemma {:induction false} HeldPattern(fold: Fold, hs: seq<Held>, history: seq<seq<string>>, i: nat)
    requires FoldKeepsUtf8(fold) && AddRun(fold, hs, history) && i <= |history|
    ensures Compiled(Registry(fold, map[], BeforePanic(history, i)), hs[i].parts)
    decreases i
  {
    if i == 0 {
      assert BeforePanic(history, 0) == [];
    } else {
      HeldPattern(fold, hs, history, i - 1);
      HeldRegistry(fold, hs, history, i);
      assert AddStep(fold, hs[i - 1], history[i - 1], hs[i]);
      PatternStep(fold, history, i - 1, hs[i - 1], hs[i]);
    }
  }

  /** For every run of Add calls, panicking ones included, every order in which alternatives were
      compiled, and every message: the logged line is clean of every secret registered before the
      first panic. */
  lemma LogLineOfRun(fold: Fold, hs: seq<Held>, history: seq<seq<string>>, message: string)
    requires FoldKeepsUtf8(fold) && AddRun(fold, hs, history)
    ensures var parts := hs[|history|].parts; var before := history[..LegalCalls(history)];
      var plain := Ansi.Filter(Ansi.Plain, message); var ps := Pieces(fold, parts, plain, 0);
      && Ansi.ESC !in Logged(fold, parts, message)
      && Original(ps) == plain
      && (forall p, ss, s :: p in ps && p.Literal? && ss in before && s in ss && Candidate(s).Some? ==>
            !Contains(fold, p.text, Candidate(s).value))
      && (forall p :: p in ps && p.Redacted? ==> Known(fold, Registry(fold, map[], before), p.text))
  {
    HeldPattern(fold, hs, history, |history|);
    LogLineIsClean(fold, history[..LegalCalls(history)], hs[|history|].parts, message);
  }

  /** And what it says is, stretch by stretch, the stripped message with the literal marker for each
      match of a secret registered before the first panic. */
  lemma LoggedLineOfRun(fold: Fold, hs: seq<Held>, history: seq<seq<string>>, message: string)
    returns (kept: seq<string>, cut: seq<string>)
    requires FoldKeepsUtf8(fold) && AddRun(fold, hs, history)
    ensures |kept| == |cut| + 1
    ensures Ansi.Filter(Ansi.Plain, message) == Weave(kept, cut)
    ensures Logged(fold, hs[|history|].parts, message) == Weave(kept, Markers(|cut|))
    ensures var before := history[..LegalCalls(history)];
      && (forall i, ss, s :: 0 <= i < |kept| && ss in before && s in ss && Candidate(s).Some? ==>
            !Contains(fold, kept[i], Candidate(s).value))
      && (forall i :: 0 <= i < |cut| ==> Known(fold, Registry(fold, map[], before), cut[i]))
  {
    var parts, before := hs[|history|].parts, history[..LegalCalls(history)];
    var registry := Registry(fold, map[], before);
    HeldPattern(fold, hs, history, |history|);
    NothingIsForgotten(fold, map[], before);
    CompiledUsable(fold, registry, parts);
    kept, cut := LoggedLine(fold, parts, message);
    forall i, ss, s | 0 <= i < |kept| && ss in before && s in ss && Candidate(s).Some?
      ensures !Contains(fold, kept[i], Candidate(s).value)
    {
      RegisteredIsAbsent(fold, registry, parts, Literal(kept[i]), Candidate(s).value);
    }
    forall i | 0 <= i < |cut| ensures Known(fold, registry, cut[i]) {
      var t :| t in parts && Lower(fold, cut[i]) == Lower(fold, t);
      ValueIsKnown(fold, registry, t);
    }
  }

  /** Candidates are trimmed and at least three bytes long. */
  lemma CandidatesByExample()
    ensures Candidate("ab") == None && Candidate("abc") == Some("abc") && Candidate(" ab ") == None
    ensures Candidate(" abc") == Some("abc") && Candidate("") == None
  {
    VisibleEndsAreTrimmed("ab");
    VisibleEndsAreTrimmed("abc");
    assert " abc"[1..] == "abc" && " ab "[1..] == "ab " && "ab "[..2] == "ab";
    assert TrimLeft(" ab ") == TrimLeft("ab ") == "ab ";
    assert TrimRight("ab ") == TrimRight("ab") == "ab";
    assert TrimLeft(" abc") == TrimLeft("abc") == "abc";
  }

  // ---- the mutable object ----

  class Redactor {
    var secrets: map<string, string>
    var parts: seq<string>
    const fold: Fold

    ghost predicate Valid()
      reads this
    {
      RegistryOk(fold, secrets)
    }

    constructor (f: Fold)
      ensures Valid() && Held(secrets, parts) == NEW && fold == f
    {
      secrets, parts, fold := map[], [], f;
    }

    /** Registers and compiles. When the pattern does not compile the call panics: the registry has
        grown by then, and the old pattern stays in use. */
    method Add(ss: seq<string>) returns (panics: bool)
      requires Valid()
      modifies this
      ensures Valid() && AddStep(fold, old(Held(secrets, parts)), ss, Held(secrets, parts))
      ensures panics <==> !Compiles(secrets)
    {
      var i := 0;
      while i < |ss|
        invariant 0 <= i <= |ss| && parts == old(parts)
        invariant AddAll(fold, secrets, ss[i..]) == AddAll(fold, old(secrets), ss)
      {
        assert ss[i..][0] == ss[i] && ss[i..][1..] == ss[i + 1..];
        var t := Trim(ss[i]);
        if |t| >= 3 {
          secrets := secrets[Lower(fold, t) := t];
        }
        i := i + 1;
      }
      assert ss[i..] == [];
      AddAllKeeps(fold, old(secrets), ss);
      var compiled := Compile();
      if compiled.None? {
        return true;
      }
      parts := compiled.value;
      return false;
    }

    /** The alternatives in the order a map iteration happens to yield them, unless one of them is
        not UTF-8. */
    method Compile() returns (ps: Option<seq<string>>)
      ensures ps.None? <==> !Compiles(secrets)
      ensures ps.Some? ==> Compiled(secrets, ps.value)
    {
      var found: seq<string> := [];
      var legal := true;
      var left := secrets.Keys;
      while left != {}
        invariant left <= secrets.Keys
        invariant forall t :: t in found <==> exists key :: key in secrets && key !in left && secrets[key] == t
        invariant legal <==> forall key :: key in secrets && key !in left ==> Utf8(secrets[key])
        decreases |left|
      {
        var key :| key in left;
        left := left - {key};
        found := found + [secrets[key]];
        legal := legal && Utf8(secrets[key]);
      }
      return if legal then Some(found) else None;
    }
  }
}
