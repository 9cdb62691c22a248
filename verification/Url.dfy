/** The URL syntax share links use: authority (section 3.2 of RFC 3986), form-encoded query and
    fragment, as Go's net/url prints and parses them. */
module Url {
  import opened Options
  import opened Text
  import opened Percent

  datatype User = User(name: string, password: Option<string>)

  /** What `url.Parse` yields for "omniproxy://..." (the path is not used by any caller). */
  datatype Parsed = Parsed(user: Option<User>, host: string, rawQuery: string)

  /** Whether bracketed text is an IPv6 literal is the library's decision; none is without a colon. */
  type IPv6 = f: string -> bool | forall s :: f(s) ==> ':' in s
    witness s => false

  // ---- printing ----

  /** `net.JoinHostPort`. */
  function JoinHostPort(host: string, port: string): string {
    if ':' in host then "[" + host + "]:" + port else host + ":" + port
  }

  function UserText(u: User): string {
    if u.name == "" && (u.password.None? || u.password.value == "") then ""
    else Escape(u.name, UserInfo) + (if u.password.Some? then ":" + Escape(u.password.value, UserInfo) else "")
  }

  /** User information, host and query, without scheme and fragment. */
  function CoreText(user: Option<User>, host: string, query: string): string {
    (if user.Some? then UserText(user.value) + "@" else "") + Escape(host, Host)
    + (if query == "" then "" else "?" + query)
  }

  /** `URL.String` for a URL without a path. */
  function UrlText(scheme: string, user: Option<User>, host: string, query: string, fragment: string): string {
    scheme + "://" + CoreText(user, host, query)
    + (if fragment == "" then "" else "#" + Escape(fragment, Fragment))
  }

  // ---- parsing ----

  predicate Control(c: char) { c as int < 0x20 || c as int == 0x7F }

  predicate ValidUserChar(c: char) { Alnum(c) || c in "-._:~!$&'()*+,;=%@" }

  predicate ValidOptionalPort(s: string) { s == "" || (s[0] == ':' && AllDigits(s[1..])) }

  /** The first position of "%25", which opens the zone of an IPv6 literal; the length if none. */
  function ZoneIndex(s: string): (z: nat)
    ensures z <= |s|
  {
    if s == [] || "%25" <= s then 0 else 1 + ZoneIndex(s[1..])
  }

  /** The text between the brackets: address and zone have rules of their own. */
  function UnescapeLiteral(s: string): Option<string> {
    var z := ZoneIndex(s);
    var address, zone := Unescape(s[..z], Host), Unescape(s[z..], Zone);
    if address.None? || zone.None? then None else Some(address.value + zone.value)
  }

  /** What follows the opening bracket: a literal, its bracket (the last there is), maybe a port. */
  function LiteralHost(v6: IPv6, rest: string): Option<string> {
    var (inside, after, found) := CutLast(rest, ']');
    var literal := UnescapeLiteral(inside);
    if !found || !ValidOptionalPort(after) || literal.None? || !v6(literal.value) then None
    else Some("[" + literal.value + "]" + after)
  }

  /** The last '[' must open the host. */
  function ParseHost(v6: IPv6, h: string): Option<string> {
    var (before, rest, bracketed) := CutLast(h, '[');
    if bracketed then if before != "" then None else LiteralHost(v6, rest)
    else
      var (a, b, found) := CutLast(h, ':');
      if found && (!AllDigits(b) || ':' in a) then None else Unescape(h, Host)
  }

  function ParseUser(ui: string): Option<User> {
    if exists i :: 0 <= i < |ui| && !ValidUserChar(ui[i]) then None
    else if ':' in ui then
      var (a, b, _) := Cut(ui, ':');
      var name, password := Unescape(a, UserInfo), Unescape(b, UserInfo);
      if name.None? || password.None? then None else Some(User(name.value, Some(password.value)))
    else
      var name := Unescape(ui, UserInfo);
      if name.None? then None else Some(User(name.value, None))
  }

  function ParseAuthority(v6: IPv6, auth: string): Option<Parsed> {
    var (ui, h, found) := CutLast(auth, '@');
    if !found then
      var host := ParseHost(v6, auth);
      if host.None? then None else Some(Parsed(None, host.value, ""))
    else
      var host, user := ParseHost(v6, h), ParseUser(ui);
      if host.None? || user.None? then None else Some(Parsed(user, host.value, ""))
  }

  /** `url.Parse("omniproxy://" + rest)` for a rest without '#'. */
  function Parse(v6: IPv6, rest: string): Option<Parsed> {
    if exists i :: 0 <= i < |rest| && Control(rest[i]) then None
    else
      var (hier, query, _) := Cut(rest, '?');
      var (auth, path, _) := Cut(hier, '/');
      var p := ParseAuthority(v6, auth);
      if p.None? || Unescape(path, UserInfo).None? then None else Some(p.value.(rawQuery := query))
  }

  function StripBrackets(h: string): string {
    if |h| >= 2 && h[0] == '[' && h[|h| - 1] == ']' then h[1..|h| - 1] else h
  }

  /** `Hostname()` and `Port()` of the parsed host. */
  function SplitHostPort(h: string): (string, string) {
    var (a, b, found) := CutLast(h, ':');
    if found && AllDigits(b) then (StripBrackets(a), b) else (StripBrackets(h), "")
  }

  // ---- authorities read back ----

  /** Text net/url reads back from between brackets: host characters up to the first percent sign,
      zone characters after it. */
  predicate LiteralText(s: string) {
    var (a, b, found) := Cut(s, '%');
    AllReadable(a, Host) && (found ==> AllReadable(b, Zone))
  }

  /** Addresses a URL authority can hold: host characters and, with a colon, an IPv6 literal. */
  predicate Addressable(v6: IPv6, s: string) {
    '[' !in s && if ':' in s then LiteralText(s) && v6(s) else AllReadable(s, Host)
  }

  lemma DigitsKept(s: string)
    requires AllDigits(s)
    ensures forall i :: 0 <= i < |s| ==> Kept(s[i], Host)
    ensures ':' !in s && '@' !in s && '[' !in s && ']' !in s && IsBytes(s)
  {
    forall c | c in s ensures c != ':' && c != '@' && c != '[' && c != ']' {
      var i :| 0 <= i < |s| && s[i] == c;
      assert Digit(s[i]);
    }
  }

  lemma BracketsKept()
    ensures Kept('[', Host) && Kept(']', Host) && Kept(':', Host) && !Kept('%', Host)
  {
  }

  /** Escaping a host keeps its colons and brackets, and makes none. */
  lemma {:induction false} EscapedMarks(s: string, mark: char)
    requires mark == ':' || mark == '[' || mark == ']'
    ensures mark in Escape(s, Host) <==> mark in s
  {
    if s == [] {
    } else {
      EscapedMarks(s[1..], mark);
      assert s == [s[0]] + s[1..];
      EscapedMark(s[0], mark);
    }
  }

  lemma EscapedMark(c: char, mark: char)
    requires mark == ':' || mark == '[' || mark == ']'
    ensures mark in EscapeChar(c, Host) <==> c == mark
  {
    BracketsKept();
  }

  /** Host and port are joined, and escaped, around the colon. */
  lemma PlainJoin(host: string, port: string)
    requires ':' !in host && AllDigits(port)
    ensures JoinHostPort(host, port) == host + [':'] + port
    ensures Escape(JoinHostPort(host, port), Host) == Escape(host, Host) + [':'] + port
  {
    EscapeJoined(host, ":", port);
    assert host + ":" + port == host + [':'] + port;
  }

  lemma LiteralJoin(host: string, port: string)
    requires ':' in host && AllDigits(port)
    ensures JoinHostPort(host, port) == "[" + host + "]:" + port
    ensures Escape(JoinHostPort(host, port), Host) == "[" + Escape(host, Host) + "]:" + port
  {
    EscapeJoined("[" + host, "]:", port);
    EscapeConcat("[", host, Host);
    BracketsKept();
    EscapeKept("[", Host);
  }

  lemma EscapeJoined(a: string, mark: string, port: string)
    requires (mark == ":" || mark == "]:") && AllDigits(port)
    ensures Escape(a + mark + port, Host) == Escape(a, Host) + mark + port
  {
    DigitsKept(port);
    BracketsKept();
    EscapeConcat(a + mark, port, Host);
    EscapeConcat(a, mark, Host);
    EscapeKept(mark, Host);
    EscapeKept(port, Host);
  }

  // ---- plain hosts ----

  lemma PlainHostIsUnescaped(v6: IPv6, e: string, port: string)
    requires '[' !in e && ':' !in e && AllDigits(port)
    ensures ParseHost(v6, e + [':'] + port) == Unescape(e + [':'] + port, Host)
  {
    DigitsKept(port);
    CutLastAt(e, ':', port);
    CutLastMiss(e + [':'] + port, '[');
  }

  lemma PlainReadable(host: string, port: string)
    requires AllDigits(port)
    ensures AllReadable(host + [':'] + port, Host) <==> AllReadable(host, Host)
  {
    var h := host + [':'] + port;
    DigitsKept(port);
    BracketsKept();
    assert forall i :: 0 <= i < |host| ==> h[i] == host[i];
    assert forall i :: |host| < i < |h| ==> h[i] == port[i - |host| - 1];
  }

  /** A host without colon and '[' is read back with its port exactly when it consists of host
      characters. */
  lemma PlainTrip(v6: IPv6, host: string, port: string)
    requires ':' !in host && '[' !in host && IsBytes(host) && AllDigits(port)
    ensures var h := JoinHostPort(host, port);
      ParseHost(v6, Escape(h, Host)) == if AllReadable(host, Host) then Some(h) else None
  {
    var h := host + [':'] + port;
    PlainJoin(host, port);
    EscapedMarks(host, ':');
    EscapedMarks(host, '[');
    PlainHostIsUnescaped(v6, Escape(host, Host), port);
    DigitsKept(port);
    HostText(h, Host);
    PlainReadable(host, port);
  }

  lemma PlainSplits(host: string, port: string)
    requires '[' !in host && AllDigits(port)
    ensures SplitHostPort(host + [':'] + port) == (host, port)
  {
    DigitsKept(port);
    CutLastAt(host, ':', port);
    assert host != "" ==> host[0] in host;
  }

  // ---- bracketed hosts ----

  /** No "%25" hides in escaped text without percent signs. */
  lemma {:induction false} ZoneAfter(s: string, rest: string)
    requires '%' !in s && IsBytes(s)
    ensures ZoneIndex(Escape(s, Host) + rest) == |Escape(s, Host)| + ZoneIndex(rest)
  {
    if s == [] {
      assert Escape(s, Host) + rest == rest;
    } else {
      ZoneAfter(s[1..], rest);
      var tail := Escape(s[1..], Host) + rest;
      assert Escape(s, Host) + rest == EscapeChar(s[0], Host) + tail;
      ZoneSkips(s[0], tail);
    }
  }

  lemma ZoneSkips(c: char, tail: string)
    requires c != '%' && c as int < 256
    ensures ZoneIndex(EscapeChar(c, Host) + tail) == |EscapeChar(c, Host)| + ZoneIndex(tail)
  {
    var w := EscapeChar(c, Host);
    if Kept(c, Host) {
      assert (w + tail)[0] == c && (w + tail)[1..] == tail;
      BracketsKept();
    } else {
      assert w == ['%', HexDigit(c as int / 16 % 16), HexDigit(c as int % 16)];
      HexPairSkips(c, w[1], w[2], tail);
    }
  }

  lemma ZoneStep(c: char, tail: string)
    requires c != '%'
    ensures ZoneIndex([c] + tail) == 1 + ZoneIndex(tail)
  {
    assert ([c] + tail)[0] == c && ([c] + tail)[1..] == tail;
  }

  lemma HexPairSkips(c: char, x: char, y: char, tail: string)
    requires c != '%' && c as int < 256 && x == HexDigit(c as int / 16 % 16) && y == HexDigit(c as int % 16)
    ensures ZoneIndex(['%', x, y] + tail) == 3 + ZoneIndex(tail)
  {
    var t := ['%', x, y] + tail;
    NoPercentPair(c, x, y);
    assert t[1] == x && t[2] == y;
    assert t[1..] == [x] + ([y] + tail);
    ZoneStep(x, [y] + tail);
    ZoneStep(y, tail);
  }

  /** Only the percent sign is written "%25". */
  lemma NoPercentPair(c: char, x: char, y: char)
    requires c != '%' && c as int < 256 && x == HexDigit(c as int / 16 % 16) && y == HexDigit(c as int % 16)
    ensures x != '%' && y != '%' && !(x == '2' && y == '5')
  {
  }

  lemma NoZoneReads(s: string)
    requires IsBytes(s) && '%' !in s
    ensures UnescapeLiteral(Escape(s, Host)) == if AllReadable(s, Host) then Some(s) else None
  {
    ZoneAfter(s, "");
    assert Escape(s, Host) + Escape("", Host) == Escape(s, Host) && s + "" == s;
    LiteralParts(s, "");
  }

  /** Bracketed text is read back exactly when both its parts are accepted. */
  lemma LiteralReads(s: string)
    requires IsBytes(s)
    ensures UnescapeLiteral(Escape(s, Host)) == if LiteralText(s) then Some(s) else None
  {
    var (a, b, found) := Cut(s, '%');
    CutShorter(s, '%');
    if found {
      LiteralWithZone(s, a, b);
    } else {
      CutMiss(s, '%');
      NoZoneReads(s);
    }
  }

  lemma LiteralWithZone(s: string, a: string, b: string)
    requires IsBytes(s) && s == a + ['%'] + b && '%' !in a
    ensures UnescapeLiteral(Escape(s, Host)) == if AllReadable(a, Host) && AllReadable(b, Zone) then Some(s) else None
  {
    BytesOfParts(a, '%', b);
    assert s == a + ("%" + b);
    ZoneReads(a, b);
  }

  lemma BytesOfParts(a: string, c: char, b: string)
    requires IsBytes(a + [c] + b)
    ensures IsBytes(a) && IsBytes(b)
  {
    var s := a + [c] + b;
    assert forall i :: 0 <= i < |a| ==> a[i] == s[i];
    assert forall i :: 0 <= i < |b| ==> b[i] == s[|a| + 1 + i];
  }

  lemma ZoneReads(a: string, b: string)
    requires IsBytes(a) && IsBytes(b) && '%' !in a
    ensures UnescapeLiteral(Escape(a + ("%" + b), Host)) ==
      if AllReadable(a, Host) && AllReadable(b, Zone) then Some(a + ("%" + b)) else None
  {
    var zone := "%" + b;
    EscapeConcat(a, zone, Host);
    ZoneOpens(b);
    ZoneAfter(a, Escape(zone, Host));
    LiteralParts(a, zone);
    ZoneChars(b);
  }

  lemma ZoneChars(b: string)
    ensures AllReadable("%" + b, Zone) <==> AllReadable(b, Zone)
  {
    var zone := "%" + b;
    if AllReadable(zone, Zone) {
      forall i | 0 <= i < |b| ensures Readable(b[i], Zone) {
        assert b[i] == zone[i + 1];
      }
    }
    if AllReadable(b, Zone) {
      forall i | 0 <= i < |zone| ensures Readable(zone[i], Zone) {
        assert i > 0 ==> zone[i] == b[i - 1];
      }
    }
  }

  /** The first percent sign opens the zone. */
  lemma ZoneOpens(b: string)
    ensures ZoneIndex(Escape("%" + b, Host)) == 0
  {
    BracketsKept();
    assert ("%" + b)[0] == '%';
    assert EscapeChar('%', Host) == "%25" by {
      assert '%' as int == 0x25;
    }
    assert "%25" <= Escape("%" + b, Host);
  }

  lemma LiteralParts(a: string, zone: string)
    requires IsBytes(a) && IsBytes(zone) && ZoneIndex(Escape(a, Host) + Escape(zone, Host)) == |Escape(a, Host)|
    ensures UnescapeLiteral(Escape(a, Host) + Escape(zone, Host)) ==
      if AllReadable(a, Host) && AllReadable(zone, Zone) then Some(a + zone) else None
  {
    var e, z := Escape(a, Host), Escape(zone, Host);
    assert (e + z)[..|e|] == e && (e + z)[|e|..] == z;
    HostText(a, Host);
    HostText(zone, Zone);
  }

  lemma Opens(v6: IPv6, rest: string)
    requires '[' !in rest
    ensures ParseHost(v6, "[" + rest) == LiteralHost(v6, rest)
  {
    assert "[" + rest == "" + ['['] + rest;
    CutLastAt("", '[', rest);
  }

  lemma BracketsParse(v6: IPv6, e: string, port: string)
    requires '[' !in e && AllDigits(port)
    ensures var text := UnescapeLiteral(e);
      ParseHost(v6, "[" + e + "]:" + port) ==
      if text.None? || !v6(text.value) then None else Some("[" + text.value + "]:" + port)
  {
    DigitsKept(port);
    var tail := ":" + port;
    var rest := e + [']'] + tail;
    assert tail[1..] == port;
    assert "[" + e + "]:" + port == "[" + rest;
    Opens(v6, rest);
    CutLastAt(e, ']', tail);
    var text := UnescapeLiteral(e);
    assert text.Some? ==> "[" + text.value + "]" + tail == "[" + text.value + "]:" + port;
  }

  /** A host with a colon but no '[' is read back with its port exactly when its text is accepted and
      the library takes it for an IPv6 literal. */
  lemma LiteralTrip(v6: IPv6, host: string, port: string)
    requires ':' in host && '[' !in host && IsBytes(host) && AllDigits(port)
    ensures var h := JoinHostPort(host, port);
      ParseHost(v6, Escape(h, Host)) == if LiteralText(host) && v6(host) then Some(h) else None
  {
    LiteralJoin(host, port);
    LiteralReads(host);
    EscapedMarks(host, '[');
    BracketsParse(v6, Escape(host, Host), port);
  }

  lemma LiteralSplits(host: string, port: string)
    requires AllDigits(port)
    ensures SplitHostPort("[" + host + "]:" + port) == (host, port)
  {
    var h := "[" + host + "]:" + port;
    DigitsKept(port);
    var b := "[" + host + "]";
    assert h == b + [':'] + port;
    CutLastAt(b, ':', port);
    assert b[1..|b| - 1] == host;
  }

  // ---- hosts with a '[' of their own ----

  /** Where the last `c` is, when one is in the second part. */
  lemma {:induction false} CutLastDeep(a: string, b: string, c: char)
    requires c in b
    ensures var (x, _, found) := CutLast(a + b, c); found && |a| <= |x|
    decreases |b|
  {
    var n := |b| - 1;
    assert (a + b)[..|a + b| - 1] == a + b[..n];
    if b[n] == c {
    } else {
      assert b == b[..n] + [b[n]];
      CutLastDeep(a, b[..n], c);
    }
  }

  lemma {:induction false} CutLastParts(s: string, c: char)
    ensures var (x, y, found) := CutLast(s, c); (found <==> c in s) && (found ==> s == x + [c] + y && c !in y)
    decreases |s|
  {
    if s == [] {
    } else {
      var n := |s| - 1;
      assert s == s[..n] + [s[n]];
      if s[n] != c {
        CutLastParts(s[..n], c);
        var (x, y, found) := CutLast(s[..n], c);
        assert found ==> x + [c] + y + [s[n]] == x + [c] + (y + [s[n]]);
      }
    }
  }

  /** Text before the last '[' is refused. */
  lemma DeepRefused(v6: IPv6, a: string, b: string)
    requires a != "" && '[' in b
    ensures ParseHost(v6, a + b) == None
  {
    CutLastDeep(a, b, '[');
  }

  lemma EscapeAround(a: string, mark: char, z: string)
    requires Kept(mark, Host)
    ensures Escape(a + [mark] + z, Host) == Escape(a, Host) + [mark] + Escape(z, Host)
  {
    EscapeConcat(a + [mark], z, Host);
    EscapeConcat(a, [mark], Host);
    EscapeKept([mark], Host);
  }

  /** Where a literal closes: a port must follow, and what is inside must be a literal. */
  lemma Closes(v6: IPv6, a: string, after: string)
    requires ':' !in a && ']' !in after && IsBytes(a)
    ensures LiteralHost(v6, Escape(a, Host) + [']'] + after) == None
  {
    CutLastAt(Escape(a, Host), ']', after);
    LiteralReads(a);
  }

  /** A literal without a colon is not one. */
  lemma NoLiteral(v6: IPv6, y: string, port: string)
    requires ':' !in y && '[' !in y && IsBytes(y) && AllDigits(port)
    ensures ParseHost(v6, "[" + (Escape(y, Host) + [':'] + port)) == None
  {
    var rest := Escape(y, Host) + [':'] + port;
    DigitsKept(port);
    EscapedMarks(y, '[');
    EscapedMarks(y, ']');
    Opens(v6, rest);
    if ']' in y {
      LastBracket(v6, y, port);
    } else {
      CutLastMiss(rest, ']');
    }
  }

  lemma LastBracket(v6: IPv6, y: string, port: string)
    requires ':' !in y && ']' in y && IsBytes(y) && AllDigits(port)
    ensures LiteralHost(v6, Escape(y, Host) + [':'] + port) == None
  {
    var (a, z, _) := CutLast(y, ']');
    CutLastParts(y, ']');
    BytesOfParts(a, ']', z);
    LastBracketAt(v6, a, z, port);
  }

  lemma LastBracketAt(v6: IPv6, a: string, z: string, port: string)
    requires ':' !in a && ']' !in z && IsBytes(a) && AllDigits(port)
    ensures LiteralHost(v6, Escape(a + [']'] + z, Host) + [':'] + port) == None
  {
    var after := Escape(z, Host) + [':'] + port;
    EscapedMarks(z, ']');
    DigitsKept(port);
    Closes(v6, a, after);
    CloseText(a, z, port);
  }

  lemma CloseText(a: string, z: string, port: string)
    ensures Escape(a + [']'] + z, Host) + [':'] + port == Escape(a, Host) + [']'] + (Escape(z, Host) + [':'] + port)
  {
    BracketsKept();
    EscapeAround(a, ']', z);
    Regrouped(Escape(a, Host) + [']'], Escape(z, Host), [':'] + port);
    Regrouped(Escape(z, Host), [':'], port);
    Regrouped(Escape(a, Host) + [']'] + Escape(z, Host), [':'], port);
  }

  lemma Regrouped(x: string, y: string, z: string)
    ensures x + y + z == x + (y + z)
  {
  }

  lemma OwnBracketLiteral(v6: IPv6, e: string, port: string)
    requires '[' in e
    ensures ParseHost(v6, "[" + e + "]:" + port) == None
  {
    var tail := e + "]:" + port;
    assert "[" + e + "]:" + port == "[" + tail;
    DeepRefused(v6, "[", tail);
  }

  lemma OwnBracketRefused(v6: IPv6, host: string, port: string)
    requires '[' in host && IsBytes(host) && AllDigits(port)
    ensures ParseHost(v6, Escape(JoinHostPort(host, port), Host)) == None
  {
    EscapedMarks(host, '[');
    if ':' in host {
      LiteralJoin(host, port);
      OwnBracketLiteral(v6, Escape(host, Host), port);
    } else {
      PlainJoin(host, port);
      OwnBracketPlain(v6, host, port);
    }
  }

  lemma OwnBracketPlain(v6: IPv6, host: string, port: string)
    requires '[' in host && ':' !in host && IsBytes(host) && AllDigits(port)
    ensures ParseHost(v6, Escape(host, Host) + [':'] + port) == None
  {
    var first, e := EscapeChar(host[0], Host), Escape(host[1..], Host);
    EscapedMarks(host[1..], '[');
    Regrouped(first, e, [':'] + port);
    Regrouped(e, [':'], port);
    Regrouped(first + e, [':'], port);
    if '[' in host[1..] {
      DeepRefused(v6, first, e + [':'] + port);
    } else {
      FirstBracket(host[0]);
      NoLiteral(v6, host[1..], port);
    }
  }

  lemma FirstBracket(c: char)
    ensures c == '[' ==> EscapeChar(c, Host) == "["
  {
    BracketsKept();
  }

  // ---- all hosts ----

  /** host:port, printed and parsed, comes back unchanged or is refused, the former exactly for
      addressable hosts. */
  lemma HostTrip(v6: IPv6, host: string, port: string)
    requires IsBytes(host) && port != "" && AllDigits(port)
    ensures var h := JoinHostPort(host, port);
      ParseHost(v6, Escape(h, Host)) == if Addressable(v6, host) then Some(h) else None
    ensures Addressable(v6, host) ==> SplitHostPort(JoinHostPort(host, port)) == (host, port)
  {
    if '[' in host {
      OwnBracketRefused(v6, host, port);
    } else if ':' in host {
      LiteralTrip(v6, host, port);
      LiteralJoin(host, port);
      LiteralSplits(host, port);
    } else {
      PlainTrip(v6, host, port);
      PlainJoin(host, port);
      PlainSplits(host, port);
    }
  }

  // ---- hosts without a port ----

  /** How a host stands alone. */
  function HostAlone(host: string): string { if ':' in host then "[" + host + "]" else host }

  /** An addressable host without a port is read back, and no port is found. */
  lemma HostAloneTrip(v6: IPv6, host: string)
    requires IsBytes(host) && Addressable(v6, host)
    ensures ParseHost(v6, Escape(HostAlone(host), Host)) == Some(HostAlone(host))
    ensures SplitHostPort(HostAlone(host)) == (host, "")
  {
    if ':' in host {
      LiteralAlone(v6, host);
    } else {
      EscapedMarks(host, ':');
      EscapedMarks(host, '[');
      CutLastMiss(Escape(host, Host), '[');
      CutLastMiss(Escape(host, Host), ':');
      HostText(host, Host);
      CutLastMiss(host, ':');
      assert host != "" ==> host[0] in host;
    }
  }

  lemma EscapeBracketed(host: string)
    ensures Escape("[" + host + "]", Host) == "[" + (Escape(host, Host) + "]")
  {
    BracketsKept();
    EscapeConcat("[", host + "]", Host);
    EscapeConcat(host, "]", Host);
    EscapeKept("[", Host);
    EscapeKept("]", Host);
    assert "[" + host + "]" == "[" + (host + "]");
  }

  lemma ClosedLiteral(v6: IPv6, host: string)
    requires IsBytes(host) && LiteralText(host) && v6(host)
    ensures LiteralHost(v6, Escape(host, Host) + "]") == Some("[" + host + "]")
  {
    var e := Escape(host, Host);
    assert e + "]" == e + [']'] + "";
    CutLastAt(e, ']', "");
    LiteralReads(host);
    assert "[" + host + "]" + "" == "[" + host + "]";
  }

  lemma LiteralAlone(v6: IPv6, host: string)
    requires IsBytes(host) && ':' in host && Addressable(v6, host)
    ensures ParseHost(v6, Escape("[" + host + "]", Host)) == Some("[" + host + "]")
    ensures SplitHostPort("[" + host + "]") == (host, "")
  {
    EscapeBracketed(host);
    EscapedMarks(host, '[');
    Opens(v6, Escape(host, Host) + "]");
    ClosedLiteral(v6, host);
    ClosingBracket(host);
  }

  lemma ClosingBracket(host: string)
    ensures SplitHostPort("[" + host + "]") == (host, "")
  {
    var h := "[" + host + "]";
    CutLastParts(h, ':');
    var (a, b, found) := CutLast(h, ':');
    if found {
      assert b != "" && b[|b| - 1] == h[|h| - 1] == ']' by {
        assert h == a + [':'] + b;
      }
      assert !Digit(b[|b| - 1]);
    }
    assert h[1..|h| - 1] == host;
  }

  predicate UserOk(u: User) {
    u.name != "" && IsBytes(u.name) && (u.password.Some? ==> IsBytes(u.password.value))
  }

  lemma UserCharValid(c: char)
    requires Written(c, UserInfo) || c == ':'
    ensures ValidUserChar(c)
  {
  }

  lemma UserChars(u: User)
    requires UserOk(u)
    ensures forall c :: c in UserText(u) ==> Written(c, UserInfo) || c == ':'
  {
    EscapedText(u.name, UserInfo);
    if u.password.Some? {
      EscapedText(u.password.value, UserInfo);
    }
  }

  lemma UserTrip(u: User)
    requires UserOk(u)
    ensures ParseUser(UserText(u)) == Some(u)
  {
    var a := Escape(u.name, UserInfo);
    UserValid(u);
    NoColon(u.name);
    UnescapeEscape(u.name, UserInfo);
    if u.password.Some? {
      var b := Escape(u.password.value, UserInfo);
      UnescapeEscape(u.password.value, UserInfo);
      assert UserText(u) == a + ":" + b;
      PairParses(a, b);
    } else {
      assert UserText(u) == a;
      NameParses(a);
    }
  }

  lemma UserValid(u: User)
    requires UserOk(u)
    ensures forall c :: c in UserText(u) ==> ValidUserChar(c)
  {
    UserChars(u);
    forall c | c in UserText(u) ensures ValidUserChar(c) {
      UserCharValid(c);
    }
  }

  lemma NameParses(a: string)
    requires ':' !in a && forall c :: c in a ==> ValidUserChar(c)
    ensures var name := Unescape(a, UserInfo);
      ParseUser(a) == if name.None? then None else Some(User(name.value, None))
  {
  }

  lemma PairParses(a: string, b: string)
    requires ':' !in a && forall c :: c in a + ":" + b ==> ValidUserChar(c)
    ensures var name, password := Unescape(a, UserInfo), Unescape(b, UserInfo);
      ParseUser(a + ":" + b)
      == if name.None? || password.None? then None else Some(User(name.value, Some(password.value)))
  {
    var t := a + ":" + b;
    assert t == a + [':'] + b;
    assert t[|a|] == ':';
    CutAt(a, ':', b);
  }

  lemma NoColon(s: string)
    ensures ':' !in Escape(s, UserInfo)
  {
    EscapedText(s, UserInfo);
    forall c | c in Escape(s, UserInfo) ensures c != ':' {
      WrittenIsVisible(c, UserInfo);
    }
  }

  /** Characters of a query string. */
  predicate QueryChar(c: char) { Written(c, Query) || c == '&' || c == '=' }

  /** What a core is made of: no '#', no control character, no white space. */
  lemma CoreVisible(user: Option<User>, host: string, query: string)
    requires user.Some? ==> UserOk(user.value)
    requires forall c :: c in query ==> QueryChar(c)
    ensures forall c :: c in CoreText(user, host, query) ==> Visible(c) && c != '#'
  {
    EscapedText(host, Host);
    if user.Some? {
      UserChars(user.value);
    }
    forall c | c in CoreText(user, host, query) ensures Visible(c) && c != '#' {
      if c in query {
        if Written(c, Query) {
          WrittenIsVisible(c, Query);
        }
      } else if c in Escape(host, Host) {
        WrittenIsVisible(c, Host);
      } else if user.Some? && c in UserText(user.value) && c != ':' {
        WrittenIsVisible(c, UserInfo);
      }
    }
  }

  lemma CoreSplits(auth: string, query: string)
    requires '?' !in auth && '/' !in auth
    ensures var (hier, q, _) := Cut(auth + (if query == "" then "" else "?" + query), '?');
      hier == auth && q == query && Cut(auth, '/') == (auth, "", false)
  {
    CutMiss(auth, '/');
    if query == "" {
      assert auth + "" == auth;
      CutMiss(auth, '?');
    } else {
      assert auth + ("?" + query) == auth + ['?'] + query;
      CutAt(auth, '?', query);
    }
  }

  /** A core is parsed into user information, what is made of its host, and query. */
  lemma CoreParses(v6: IPv6, user: Option<User>, h: string, query: string)
    requires user.Some? ==> UserOk(user.value)
    requires forall c :: c in query ==> QueryChar(c)
    ensures var host := ParseHost(v6, Escape(h, Host));
      Parse(v6, CoreText(user, h, query)) == if host.None? then None else Some(Parsed(user, host.value, query))
  {
    var core := CoreText(user, h, query);
    CoreVisible(user, h, query);
    forall i | 0 <= i < |core| ensures !Control(core[i]) {
      assert core[i] in core;
    }
    AuthorityParses(v6, user, h);
    CoreSplits((if user.Some? then UserText(user.value) + "@" else "") + Escape(h, Host), query);
  }

  lemma AuthorityParses(v6: IPv6, user: Option<User>, h: string)
    requires user.Some? ==> UserOk(user.value)
    ensures var auth := (if user.Some? then UserText(user.value) + "@" else "") + Escape(h, Host);
      var host := ParseHost(v6, Escape(h, Host));
      && ParseAuthority(v6, auth) == (if host.None? then None else Some(Parsed(user, host.value, "")))
      && '?' !in auth && '/' !in auth
  {
    var e := Escape(h, Host);
    EscapedText(h, Host);
    forall c | c in e ensures c != '@' && c != '/' && c != '?' {
      WrittenIsVisible(c, Host);
    }
    if user.Some? {
      WithUser(v6, user.value, e);
    } else {
      assert "" + e == e;
      CutLastMiss(e, '@');
    }
  }

  /** A printed core is parsed into its parts, or refused, the former exactly for addressable
      hosts. */
  lemma CoreTrip(v6: IPv6, user: Option<User>, host: string, port: string, query: string)
    requires user.Some? ==> UserOk(user.value)
    requires IsBytes(host) && port != "" && AllDigits(port)
    requires forall c :: c in query ==> QueryChar(c)
    ensures Parse(v6, CoreText(user, JoinHostPort(host, port), query))
         == if Addressable(v6, host) then Some(Parsed(user, JoinHostPort(host, port), query)) else None
  {
    CoreParses(v6, user, JoinHostPort(host, port), query);
    HostTrip(v6, host, port);
  }

  lemma WithUser(v6: IPv6, u: User, e: string)
    requires UserOk(u) && '@' !in e && '/' !in e && '?' !in e
    ensures var auth := UserText(u) + "@" + e; var host := ParseHost(v6, e);
      && ParseAuthority(v6, auth) == (if host.None? then None else Some(Parsed(Some(u), host.value, "")))
      && '?' !in auth && '/' !in auth
  {
    UserTrip(u);
    UserPlain(u);
    BeforeTheSign(v6, UserText(u), e);
  }

  lemma UserPlain(u: User)
    requires UserOk(u)
    ensures '/' !in UserText(u) && '?' !in UserText(u)
  {
    UserChars(u);
    forall c | c in UserText(u) ensures c != '/' && c != '?' {
      if c != ':' {
        WrittenIsVisible(c, UserInfo);
      }
    }
  }

  lemma BeforeTheSign(v6: IPv6, t: string, e: string)
    requires '@' !in e
    ensures var host, user := ParseHost(v6, e), ParseUser(t);
      ParseAuthority(v6, t + "@" + e)
      == if host.None? || user.None? then None else Some(Parsed(user, host.value, ""))
  {
    assert t + "@" + e == t + ['@'] + e;
    CutLastAt(t, '@', e);
  }

  // ---- queries ----

  datatype Pair = Pair(key: string, value: string)

  function PairText(p: Pair): string { Escape(p.key, Query) + "=" + Escape(p.value, Query) }

  /** `Values.Encode` for pairs in key order. */
  function QueryText(ps: seq<Pair>): string {
    if ps == [] then ""
    else if |ps| == 1 then PairText(ps[0])
    else PairText(ps[0]) + "&" + QueryText(ps[1..])
  }

  function ParsePair(part: string): Option<Pair> {
    if part == "" || ';' in part then None
    else
      var (k, v, _) := Cut(part, '=');
      var key, value := Unescape(k, Query), Unescape(v, Query);
      if key.None? || value.None? then None else Some(Pair(key.value, value.value))
  }

  /** `ParseQuery`: malformed parts are skipped. */
  function ParseQuery(raw: string): seq<Pair>
    decreases |raw|
  {
    if raw == "" then []
    else
      var (part, rest, found) := Cut(raw, '&');
      var first := if ParsePair(part).Some? then [ParsePair(part).value] else [];
      CutShorter(raw, '&');
      first + (if found then ParseQuery(rest) else [])
  }

  /** `Values.Get`: the first value, or the empty string. */
  function Lookup(ps: seq<Pair>, key: string): string {
    if ps == [] then "" else if ps[0].key == key then ps[0].value else Lookup(ps[1..], key)
  }

  predicate PairOk(p: Pair) { IsBytes(p.key) && IsBytes(p.value) }

  lemma PairTrip(p: Pair)
    requires PairOk(p)
    ensures ParsePair(PairText(p)) == Some(p)
    ensures '&' !in PairText(p)
    ensures forall c :: c in PairText(p) ==> QueryChar(c)
  {
    var k, v := Escape(p.key, Query), Escape(p.value, Query);
    EscapedText(p.key, Query);
    EscapedText(p.value, Query);
    UnescapeEscape(p.key, Query);
    UnescapeEscape(p.value, Query);
    forall c | c in k || c in v ensures c != '&' && c != '=' && c != ';' {
      WrittenIsVisible(c, Query);
    }
    assert PairText(p) == k + ['='] + v;
    CutAt(k, '=', v);
  }

  lemma LastPart(t: string, p: Pair)
    requires t != "" && '&' !in t && ParsePair(t) == Some(p)
    ensures ParseQuery(t) == [p]
  {
    CutMiss(t, '&');
  }

  lemma FirstPart(t: string, p: Pair, rest: string, ps: seq<Pair>)
    requires '&' !in t && ParsePair(t) == Some(p) && ParseQuery(rest) == ps
    ensures ParseQuery(t + "&" + rest) == [p] + ps
  {
    assert t + "&" + rest == t + ['&'] + rest;
    CutAt(t, '&', rest);
  }

  lemma {:induction false} QueryChars(ps: seq<Pair>)
    requires forall p :: p in ps ==> PairOk(p)
    ensures forall c :: c in QueryText(ps) ==> QueryChar(c)
  {
    if ps == [] {
    } else {
      PairTrip(ps[0]);
      QueryChars(ps[1..]);
    }
  }

  lemma {:induction false} QueryReads(ps: seq<Pair>)
    requires forall p :: p in ps ==> PairOk(p)
    ensures ParseQuery(QueryText(ps)) == ps
  {
    if ps == [] {
    } else {
      var t := PairText(ps[0]);
      PairTrip(ps[0]);
      assert ps == [ps[0]] + ps[1..];
      if |ps| == 1 {
        LastPart(t, ps[0]);
      } else {
        QueryReads(ps[1..]);
        FirstPart(t, ps[0], QueryText(ps[1..]), ps[1..]);
      }
    }
  }

  /** A written query is read back pair by pair. */
  lemma QueryTrip(ps: seq<Pair>)
    requires forall p :: p in ps ==> PairOk(p)
    ensures ParseQuery(QueryText(ps)) == ps
    ensures forall c :: c in QueryText(ps) ==> QueryChar(c)
  {
    QueryReads(ps);
    QueryChars(ps);
  }
}
