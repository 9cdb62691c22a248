/** The normal form of share links: when it changes nothing, when it is stable, and when a
    shadowsocks link can be read at all (core/server/linkgen.go, core/server/links.go). */
module LinkNorm {
  import opened Options
  import opened Text
  import opened Percent
  import opened Url
  import opened Profile
  import opened Links
  import opened LinkRoundTrip
  import Rows

  // ---- lists of ALPN items ----

  predicate CleanItem(s: string) { Trim(s) == s != "" && ',' !in s }

  predicate AllClean(items: seq<string>) { forall i :: 0 <= i < |items| ==> CleanItem(items[i]) }

  lemma {:induction false} TrimFree(s: string, c: char)
    requires c !in s
    ensures c !in Trim(s)
  {
    TrimLeftFree(s, c);
    TrimRightFree(TrimLeft(s), c);
  }

  lemma {:induction false} TrimLeftFree(s: string, c: char)
    requires c !in s
    ensures c !in TrimLeft(s)
    decreases |s|
  {
    if LeadSpace(s) == 0 {
    } else {
      TrimLeftFree(s[LeadSpace(s)..], c);
    }
  }

  lemma {:induction false} TrimRightFree(s: string, c: char)
    requires c !in s
    ensures c !in TrimRight(s)
    decreases |s|
  {
    if TrailSpace(s) == 0 {
    } else {
      TrimRightFree(s[..|s| - TrailSpace(s)], c);
    }
  }

  lemma {:induction false} CleanItemsAreClean(parts: seq<string>)
    requires forall p :: p in parts ==> ',' !in p
    ensures AllClean(CleanItems(parts))
  {
    if parts == [] {
    } else {
      CleanItemsAreClean(parts[1..]);
      TrimIsTrimmed(parts[0]);
      TrimFree(parts[0], ',');
    }
  }

  lemma {:induction false} CleanItemsKept(items: seq<string>)
    requires AllClean(items)
    ensures CleanItems(items) == items
  {
    if items == [] {
    } else {
      assert CleanItem(items[0]);
      CleanItemsKept(items[1..]);
      assert items == [items[0]] + items[1..];
    }
  }

  /** Splitting what was joined gives the list back exactly when its items are trimmed, not empty
      and free of commas; whatever was split is such a list. */
  lemma AlpnTrip(items: seq<string>)
    ensures SplitComma(Join(items, ',')) == items <==> AllClean(items)
    ensures AllClean(SplitComma(Join(items, ',')))
  {
    SplitFree(Join(items, ','), ',');
    CleanItemsAreClean(Split(Join(items, ','), ','));
    if AllClean(items) {
      if items == [] {
        EmptySplit();
      } else {
        forall p | p in items ensures ',' !in p {
          var i :| 0 <= i < |items| && items[i] == p;
          assert CleanItem(items[i]);
        }
        SplitJoin(items, ',');
        CleanItemsKept(items);
      }
    }
  }

  // ---- names ----

  lemma PlusFree(s: string)
    ensures '+' !in PlusToSpace(s)
    ensures '+' !in s <==> PlusToSpace(s) == s
  {
    if '+' in s {
      var i :| 0 <= i < |s| && s[i] == '+';
      assert PlusToSpace(s)[i] == ' ';
    }
  }

  /** A name survives exactly when it is trimmed and has no plus sign. */
  lemma NameKept(lib: Lib, p: ServerProfile)
    requires Exportable(lib, p)
    ensures NormName(p, NormAddress(p)) == p.name <==> Trim(p.name) == p.name && '+' !in p.name
  {
    var t := Trim(PlusToSpace(p.name));
    PlusFree(p.name);
    TrimFree(PlusToSpace(p.name), '+');
    TrimIsTrimmed(PlusToSpace(p.name));
    if t == "" {
      DefaultNameKept(p.protocol, NormAddress(p), p.port);
      if p.name == DefaultName(p.protocol, NormAddress(p), p.port) {
        assert false;
      }
    }
  }

  /** A default name keeps its ends, so only a plus sign inside is lost. */
  lemma DefaultNameKept(protocol: Protocol, address: string, port: nat)
    requires Linkable(protocol)
    ensures var d := DefaultName(protocol, address, port); Trim(PlusToSpace(d)) == PlusToSpace(d) != ""
  {
    var d := DefaultName(protocol, address, port);
    DefaultNameVisible(protocol, address, port);
    DefaultNameEnds(protocol, address, port);
    VisibleEndsAreTrimmed(PlusToSpace(d));
  }

  lemma DefaultNameEnds(protocol: Protocol, address: string, port: nat)
    requires Linkable(protocol)
    ensures var d := DefaultName(protocol, address, port);
      d != "" && Alnum(d[0]) && Alnum(d[|d| - 1]) && ('+' in d <==> '+' in address)
  {
    var d := DefaultName(protocol, address, port);
    var n, t := Rows.ProtocolName(protocol), Itoa(port);
    assert n != "" && Alnum(n[0]) && '+' !in n;
    assert d[0] == n[0];
    assert d[|d| - 1] == t[|t| - 1] && Digit(t[|t| - 1]);
    DigitsKept(t);
    assert '+' !in t;
    assert d == n + " @ " + address + ":" + t;
  }

  // ---- link-normal profiles ----

  /** A transport a link carries in full: WebSocket without early data; TCP is no transport. */
  function ClearedTransport(p: ServerProfile): Option<TransportConfig> {
    if IsWS(p) then Some(p.transport.value.(maxEarlyData := 0, earlyDataHeaderName := "")) else None
  }

  /** The carried fields of `p` as they are, everything else blank. */
  function Cleared(p: ServerProfile): ServerProfile {
    var base := BLANK.(protocol := p.protocol, name := p.name, address := p.address, port := p.port);
    match p.protocol
    case VLESS => base.(uuid := p.uuid, flow := p.flow, packetEncoding := p.packetEncoding,
                        transport := ClearedTransport(p), tls := p.tls)
    case VMess => base.(uuid := p.uuid, security := p.security, packetEncoding := p.packetEncoding,
                        globalPadding := p.globalPadding, transport := ClearedTransport(p), tls := p.tls)
    case Trojan => base.(password := p.password, transport := ClearedTransport(p), tls := p.tls)
    case Shadowsocks => base.(cipher := p.cipher, password := p.password)
    case _ => base.(username := p.username, password := p.password)
  }

  predicate LinkNormalTls(tls: TLSConfig, fallback: string) {
    if !tls.enabled then tls == NO_TLS
    else Trim(tls.serverName) == tls.serverName && (tls.serverName == "" ==> Trim(fallback) == "") && AllClean(tls.alpn)
  }

  /** What a caller can check before exporting. */
  predicate LinkNormal(p: ServerProfile) {
    && Trim(p.name) == p.name && '+' !in p.name
    && match p.protocol
       case VLESS => Trim(p.address) == p.address && LinkNormalTls(p.tls, WsHost(p))
       case VMess =>
         Trim(p.address) == p.address && LinkNormalTls(p.tls, WsHost(p)) && Trim(p.security) == p.security != ""
       case Trojan => Trim(p.address) == p.address && p.tls.enabled && LinkNormalTls(p.tls, p.address)
       case Shadowsocks => Literal(p.address) && ':' !in p.cipher
       case _ => Trim(p.address) == p.address && (p.username == "" ==> p.password == "")
  }

  /** A host carries every character of `s` as it is. */
  predicate Literal(s: string) { forall i :: 0 <= i < |s| ==> Kept(s[i], Host) }

  lemma TlsKept(tls: TLSConfig, enabled: bool, fallback: string)
    requires tls.enabled ==> enabled
    ensures NormTls(tls, enabled, fallback) == tls <==> enabled == tls.enabled && LinkNormalTls(tls, fallback)
  {
    AlpnTrip(tls.alpn);
    TrimIsTrimmed(tls.serverName);
    TrimIsTrimmed(fallback);
  }

  lemma {:induction false} EscapeGrows(s: string, m: Component)
    ensures |Escape(s, m)| >= |s|
    ensures (exists i :: 0 <= i < |s| && !Kept(s[i], m) && (s[i] == ' ' ==> !m.Query?)) ==> |Escape(s, m)| > |s|
  {
    if s == [] {
    } else {
      EscapeGrows(s[1..], m);
      if i :| 0 <= i < |s| && !Kept(s[i], m) && (s[i] == ' ' ==> !m.Query?) {
        if i > 0 {
          assert s[1..][i - 1] == s[i];
        }
      }
    }
  }

  /** Text is written as it is exactly when all of it is host characters. */
  lemma HostKept(s: string)
    ensures Escape(s, Host) == s <==> Literal(s)
  {
    if Literal(s) {
      EscapeKept(s, Host);
    } else {
      EscapeGrows(s, Host);
    }
  }

  lemma PercentNotKept()
    ensures !Kept('%', Host)
  {
  }

  lemma CipherKept(cipher: string, password: string)
    ensures var (c, w, _) := Cut(cipher + ":" + password, ':'); (c == cipher && w == password) <==> ':' !in cipher
  {
    assert cipher + ":" + password == cipher + [':'] + password;
    CutBound(cipher, ':', password);
    CutShorter(cipher + ":" + password, ':');
    if ':' !in cipher {
      CutAt(cipher, ':', password);
    }
  }

  lemma SecurityKept(s: string)
    ensures NormSecurity(s) == s <==> Trim(s) == s != ""
  {
    TrimIsTrimmed(s);
  }

  /** The same, given what happens to the name. */
  lemma SettingsKept(p: ServerProfile, nameKept: bool)
    requires p.port >= 0 && !p.protocol.SSH? && !p.protocol.UnknownProtocol?
    requires nameKept <==> NormName(p, NormAddress(p)) == p.name
    requires nameKept <==> Trim(p.name) == p.name && '+' !in p.name
    ensures Norm(p) == Cleared(p) <==> LinkNormal(p)
  {
    match p.protocol {
      case VLESS => TlsKept(p.tls, p.tls.enabled, WsHost(p));
      case VMess =>
        TlsKept(p.tls, p.tls.enabled, WsHost(p));
        SecurityKept(p.security);
      case Trojan => TlsKept(p.tls, true, p.address);
      case Shadowsocks =>
        HostKept(p.address);
        CipherKept(p.cipher, p.password);
      case _ =>
    }
  }

  /** The link and its parser clear only what they do not carry exactly for link-normal profiles. */
  lemma NormClearsOnly(lib: Lib, p: ServerProfile)
    requires Exportable(lib, p)
    ensures Norm(p) == Cleared(p) <==> LinkNormal(p)
  {
    NameKept(lib, p);
    SettingsKept(p, NormName(p, NormAddress(p)) == p.name);
  }

  /** Link-normal profiles come back as they were, but for the fields no link carries. */
  lemma LinkNormalRoundTrip(lib: Lib, p: ServerProfile)
    requires Exportable(lib, p) && LinkNormal(p)
    ensures Link(p).Ok? && ParseLink(lib, Link(p).value) == Ok(Cleared(p))
  {
    LinkRoundTrips(lib, p);
    NormClearsOnly(lib, p);
  }

  // ---- stability ----

  /** Trimming removes no visible character. */
  lemma {:induction false} TrimKeepsVisible(s: string, c: char)
    requires Visible(c)
    ensures c in Trim(s) <==> c in s
  {
    TrimLeftKeepsVisible(s, c);
    TrimRightKeepsVisible(TrimLeft(s), c);
  }

  lemma {:induction false} TrimLeftKeepsVisible(s: string, c: char)
    requires Visible(c)
    ensures c in TrimLeft(s) <==> c in s
    decreases |s|
  {
    var k := LeadSpace(s);
    if k == 0 {
    } else {
      TrimLeftKeepsVisible(s[k..], c);
      assert s == s[..k] + s[k..];
      assert c !in s[..k];
    }
  }

  lemma {:induction false} TrimRightKeepsVisible(s: string, c: char)
    requires Visible(c)
    ensures c in TrimRight(s) <==> c in s
    decreases |s|
  {
    var k := |s| - TrailSpace(s);
    if k == |s| {
    } else {
      TrimRightKeepsVisible(s[..k], c);
      assert s == s[..k] + s[k..];
      assert c !in s[k..];
    }
  }

  lemma {:induction false} PercentWritten(s: string)
    requires exists i :: 0 <= i < |s| && !Kept(s[i], Host)
    ensures '%' in Escape(s, Host)
  {
    if Kept(s[0], Host) {
      var i :| 0 <= i < |s| && !Kept(s[i], Host);
      assert s[1..][i - 1] == s[i];
      PercentWritten(s[1..]);
    } else {
      assert EscapeChar(s[0], Host)[0] == '%';
    }
  }

  /** What escaping changes it changes again: a percent sign is not written as it is. */
  lemma EscapeUnstable(s: string)
    requires !Literal(s)
    ensures '%' in Escape(s, Host)
  {
    PercentWritten(s);
  }

  lemma AddressStable(lib: Lib, p: ServerProfile)
    requires Exportable(lib, p)
    ensures NormAddress(Norm(p)) == Norm(p).address <==> (p.protocol.Shadowsocks? ==> Literal(p.address))
    ensures (p.protocol.Shadowsocks? ==> Literal(p.address)) ==> ('+' in Norm(p).address <==> '+' in p.address)
  {
    NormFilled(p);
    if p.protocol.Shadowsocks? {
      ShadowsocksStable(p, Norm(p));
    } else {
      TrimIsTrimmed(p.address);
      TrimKeepsVisible(p.address, '+');
    }
  }

  lemma ShadowsocksStable(p: ServerProfile, n: ServerProfile)
    requires p.protocol.Shadowsocks? && n.protocol.Shadowsocks? && n.address == NormAddress(p)
    ensures NormAddress(n) == n.address <==> Literal(p.address)
    ensures Literal(p.address) ==> n.address == p.address
  {
    HostKept(p.address);
    HostKept(n.address);
    if !Literal(p.address) {
      EscapeUnstable(p.address);
      PercentNotKept();
      var i :| 0 <= i < |n.address| && n.address[i] == '%';
      assert !Literal(n.address);
    }
  }

  lemma NameStable(lib: Lib, p: ServerProfile, n: ServerProfile)
    requires Exportable(lib, p) && n == Norm(p) && NormAddress(n) == n.address
    ensures n.port >= 0
    ensures NormName(n, n.address) == n.name <==> (Trim(PlusToSpace(p.name)) == "" ==> '+' !in n.address)
  {
    NormFilled(p);
    var t := Trim(PlusToSpace(p.name));
    PlusFree(p.name);
    TrimFree(PlusToSpace(p.name), '+');
    TrimIsTrimmed(PlusToSpace(p.name));
    PlusFree(n.name);
    if t == "" {
      DefaultNameKept(p.protocol, n.address, p.port);
      DefaultNameEnds(p.protocol, n.address, p.port);
    }
  }

  lemma NormTlsStable(tls: TLSConfig, enabled: bool, f: string, g: string)
    requires Trim(g) == Trim(f)
    ensures var t := NormTls(tls, enabled, f); NormTls(t, t.enabled, g) == t && t.enabled == enabled
  {
    var t := NormTls(tls, enabled, f);
    AlpnTrip(tls.alpn);
    TrimIsTrimmed(tls.serverName);
    TrimIsTrimmed(f);
    TlsKept(t, t.enabled, g);
  }

  lemma SecurityStable(s: string)
    ensures NormSecurity(NormSecurity(s)) == NormSecurity(s)
  {
    TrimIsTrimmed(s);
    LiteralFacts();
  }

  lemma CipherStable(p: ServerProfile)
    requires p.cipher != "" && p.cipher[0] != ':' && p.password != ""
    ensures var (c, w, _) := Cut(p.cipher + ":" + p.password, ':'); Cut(c + ":" + w, ':') == (c, w, true)
  {
    CipherCut(p);
    CutShorter(p.cipher + ":" + p.password, ':');
    var (c, w, _) := Cut(p.cipher + ":" + p.password, ':');
    CutAt(c, ':', w);
  }

  /** Everything but name and address is always stable. */
  lemma SettingsStable(p: ServerProfile, n: ServerProfile)
    requires p.port >= 0 && n == Norm(p)
    requires p.protocol.Shadowsocks? ==> p.cipher != "" && p.cipher[0] != ':' && p.password != ""
    ensures n.port >= 0 && Norm(n) == n.(name := Norm(n).name, address := Norm(n).address)
  {
    match p.protocol {
      case VLESS => NormTlsStable(p.tls, p.tls.enabled, WsHost(p), WsHost(n));
      case VMess =>
        NormTlsStable(p.tls, p.tls.enabled, WsHost(p), WsHost(n));
        SecurityStable(p.security);
      case Trojan =>
        TrimIsTrimmed(p.address);
        NormTlsStable(p.tls, true, p.address, n.address);
      case Shadowsocks => CipherStable(p);
      case _ =>
    }
  }

  /** The normal form of a normal form is itself, except in two cases: a shadowsocks address with
      anything but host characters (its percent signs are escaped again), and a name of plus signs
      and blanks for an address with a plus sign (the default name then loses that sign). */
  lemma NormIdempotent(lib: Lib, p: ServerProfile)
    requires Exportable(lib, p)
    ensures Norm(p).port >= 0
    ensures Norm(Norm(p)) == Norm(p) <==>
      && (p.protocol.Shadowsocks? ==> Literal(p.address))
      && (Trim(PlusToSpace(p.name)) == "" ==> '+' !in p.address)
  {
    var n := Norm(p);
    NormFilled(p);
    NormFilled(n);
    AddressStable(lib, p);
    SettingsStable(p, n);
    if NormAddress(n) == n.address {
      NameStable(lib, p, n);
    }
  }

  // ---- which shadowsocks links can be read ----

  /** Between brackets the first colon comes before they close. */
  lemma LiteralCut(text: string, port: string)
    requires ':' in text
    ensures var (_, b, found) := Cut("[" + text + "]:" + port, ':'); found && ']' in b
  {
    var s := "[" + text + "]:" + port;
    var i :| 0 <= i < |text| && text[i] == ':';
    var front, back := "[" + text[..i], text[i + 1..] + "]:" + port;
    assert text == text[..i] + [':'] + text[i + 1..];
    assert s == front + [':'] + back;
    CutBound(front, ':', back);
    CutShorter(s, ':');
    var (a, b, _) := Cut(s, ':');
    assert s == a + [':'] + b && |a| <= i + 1;
    assert s[|text| + 1] == ']';
    assert b[|text| - |a|] == ']';
  }

  lemma NotAPort(s: string)
    requires ']' in s
    ensures ParsePort(s).None?
  {
    TrimKeepsVisible(s, ']');
    var t := Trim(s);
    var i :| 0 <= i < |t| && t[i] == ']';
    assert !Digit(t[i]);
    assert i > 0 ==> t[1..][i - 1] == ']';
  }

  lemma LiteralUnread(p: ServerProfile)
    requires Printable(p) && p.protocol.Shadowsocks? && ':' in p.address
    ensures ParseShadowsocks(Rest(Some(ShadowsocksUser(p)), p, "")).Err?
  {
    ShadowsocksParses(p);
    LiteralJoin(p.address, Itoa(p.port));
    EscapedMarks(p.address, ':');
    LiteralCut(Escape(p.address, Host), Itoa(p.port));
    NotAPort(Cut(Escape(HostPort(p), Host), ':').1);
  }

  lemma SeparatorUnread(p: ServerProfile)
    requires Printable(p) && p.protocol.Shadowsocks? && ':' !in p.address && p.cipher[0] == ':'
    ensures ParseShadowsocks(Rest(Some(ShadowsocksUser(p)), p, "")).Err?
  {
    ShadowsocksHost(p);
    ShadowsocksParses(p);
    LeadingSeparator(p.cipher + ":" + p.password);
  }

  lemma LeadingSeparator(s: string)
    requires s != "" && s[0] == ':'
    ensures Cut(s, ':').0 == ""
  {
  }

  lemma MalformedUnread(lib: Lib, protocol: Protocol, text: string)
    requires Linkable(protocol) && !protocol.Shadowsocks? && Parse(lib.isIPv6, SplitFragment(text).1).None?
    requires protocol.VMess? ==> '@' in text
    ensures ParseBody(lib, protocol, text).Err?
  {
  }

  lemma HostUnread(lib: Lib, p: ServerProfile)
    requires Printable(p) && !p.protocol.Shadowsocks? && !Addressable(lib.isIPv6, p.address)
    ensures ParseBody(lib, p.protocol, Rest(Parts(p).0, p, Encode(Parts(p).1))).Err?
  {
    var (user, q) := Parts(p);
    PartsOk(p);
    QueryValues(q);
    var query := Encode(q);
    FragmentReads(user, p, query);
    CoreTrip(lib.isIPv6, user, p.address, Itoa(p.port), query);
    if p.protocol.VMess? {
      AtSign(user.value, p, query);
    }
    MalformedUnread(lib, p.protocol, Rest(user, p, query));
  }

  lemma Unread(lib: Lib, p: ServerProfile)
    requires Printable(p) && !Exportable(lib, p)
    ensures ParseBody(lib, p.protocol, Rest(Parts(p).0, p, Encode(Parts(p).1))).Err?
  {
    if p.protocol.Shadowsocks? {
      EmptyQuery();
      if ':' in p.address {
        LiteralUnread(p);
      } else {
        SeparatorUnread(p);
      }
    } else {
      HostUnread(lib, p);
    }
  }

  lemma RefusedLink(lib: Lib, p: ServerProfile)
    requires Printable(p) && !Exportable(lib, p)
    ensures Link(p).Ok? && ParseLink(lib, Link(p).value).Err?
  {
    var rest := Rest(Parts(p).0, p, Encode(Parts(p).1));
    LinkText(p, rest);
    Unread(lib, p);
    BodyIsParsed(lib, p.protocol, rest, ParseBody(lib, p.protocol, rest));
  }

  /** A printed link is either read back as the normal form or refused, and which of the two can be
      told from address and cipher alone. */
  lemma PrintedLinksAreRead(lib: Lib, p: ServerProfile)
    requires Printable(p)
    ensures Link(p).Ok?
    ensures LinkCarries(lib, p) ==> ParseLink(lib, Link(p).value) == Ok(Norm(p))
    ensures !LinkCarries(lib, p) ==> ParseLink(lib, Link(p).value).Err?
  {
    if LinkCarries(lib, p) {
      LinkRoundTrips(lib, p);
    } else {
      RefusedLink(lib, p);
    }
  }

  /** The condition: a URL authority can hold the address; a shadowsocks link can hold it and the
      cipher. */
  predicate LinkCarries(lib: Lib, p: ServerProfile)
    requires Printable(p)
  {
    if p.protocol.Shadowsocks? then ':' !in p.address && p.cipher[0] != ':' else Addressable(lib.isIPv6, p.address)
  }

  // ---- concrete profiles ----

  function Proxy(name: string, address: string): ServerProfile {
    BLANK.(protocol := HTTP, name := name, address := address, port := 80)
  }

  /** Bytes a host carries as they are, no delimiters among them. */
  predicate HostName(s: string) { IsBytes(s) && AllReadable(s, Host) && ':' !in s && '[' !in s }

  lemma ProxyExportable(lib: Lib, name: string, address: string)
    requires IsBytes(name) && Trim(name) != "" && HostName(address) && Trim(address) != ""
    ensures Exportable(lib, Proxy(name, address))
  {
  }

  /** `p` has a link, and the link reads as `n`. */
  predicate ReadsAs(lib: Lib, p: ServerProfile, n: ServerProfile) {
    Link(p).Ok? && ParseLink(lib, Link(p).value) == Ok(n)
  }

  lemma ExportableReadsAs(lib: Lib, p: ServerProfile)
    requires Exportable(lib, p)
    ensures ReadsAs(lib, p, Norm(p))
  {
    LinkRoundTrips(lib, p);
  }

  lemma ProxyNorm(name: string, address: string)
    requires Trim(address) == address && Trim(PlusToSpace(name)) != ""
    ensures Norm(Proxy(name, address)) == Proxy(Trim(PlusToSpace(name)), address)
  {
  }

  lemma ProxyTrip(lib: Lib, name: string, address: string)
    requires IsBytes(name) && Trim(name) != "" && HostName(address) && Trim(address) == address != ""
    requires Trim(PlusToSpace(name)) != ""
    ensures ReadsAs(lib, Proxy(name, address), Proxy(Trim(PlusToSpace(name)), address))
  {
    ProxyExportable(lib, name, address);
    ProxyNorm(name, address);
    ExportableReadsAs(lib, Proxy(name, address));
  }

  lemma PlusTexts()
    ensures Trim(PlusToSpace("a+b")) == "a b" && Trim("a+b") == "a+b" && Trim("h") == "h" && HostName("h")
    ensures Trim(PlusToSpace("+")) == "" && Trim("+") == "+" && '+' in "a+b" && HostName("a+b")
  {
    VisibleEndsAreTrimmed("a+b");
    VisibleEndsAreTrimmed("h");
    VisibleEndsAreTrimmed("+");
    VisibleEndsAreTrimmed("a b");
    assert PlusToSpace("a+b") == "a b";
    assert PlusToSpace("+") == " ";
    assert " "[1..] == "";
    assert TrimLeft(" ") == TrimLeft("") == "";
    assert "a+b"[1] == '+';
  }

  /** A plus sign in a name does not survive the round trip. */
  lemma PlusIsLost(lib: Lib)
    ensures ReadsAs(lib, Proxy("a+b", "h"), Proxy("a b", "h"))
  {
    PlusTexts();
    ProxyTrip(lib, "a+b", "h");
  }

  /** A percent sign in a host name does. */
  lemma PercentIsKept(lib: Lib)
    ensures ReadsAs(lib, Proxy("n", "a%b"), Proxy("n", "a%b"))
  {
    PercentTexts();
    ProxyTrip(lib, "n", "a%b");
  }

  lemma PercentTexts()
    ensures Trim("n") == "n" && Trim(PlusToSpace("n")) == "n" && HostName("a%b") && Trim("a%b") == "a%b"
  {
    VisibleEndsAreTrimmed("n");
    VisibleEndsAreTrimmed("a%b");
    assert PlusToSpace("n") == "n";
  }

  /** A name of plus signs for an address with one: a second round trip changes the profile again. */
  lemma TwiceIsNotOnce(lib: Lib)
    ensures var p := Proxy("+", "a+b"); Exportable(lib, p) && Norm(p).port >= 0 && Norm(Norm(p)) != Norm(p)
  {
    PlusTexts();
    ProxyExportable(lib, "+", "a+b");
    NormIdempotent(lib, Proxy("+", "a+b"));
  }

  /** An IPv6 shadowsocks server has a link that cannot be read. */
  lemma IPv6ShadowsocksIsLost(lib: Lib)
    ensures var p := BLANK.(protocol := Shadowsocks, name := "s", address := "::1", port := 80, cipher := "c",
                            password := "w");
      Printable(p) && Link(p).Ok? && ParseLink(lib, Link(p).value).Err?
  {
    var p := BLANK.(protocol := Shadowsocks, name := "s", address := "::1", port := 80, cipher := "c", password := "w");
    VisibleEndsAreTrimmed("s");
    VisibleEndsAreTrimmed("::1");
    assert p.address[0] == ':';
    PrintedLinksAreRead(lib, p);
  }

  /** Three bytes that are not UTF-8. */
  const RAW: string := [0xFF as char, 0xFF as char, 0xFF as char]

  const RAW_TROJAN: ServerProfile :=
    BLANK.(protocol := Trojan, name := "s", address := "h", port := 80, password := RAW)

  lemma RawTrojanExportable(lib: Lib)
    ensures Exportable(lib, RAW_TROJAN) && Norm(RAW_TROJAN).password == RAW && !Utf8(RAW)
  {
    VisibleEndsAreTrimmed("s");
    VisibleEndsAreTrimmed("h");
  }

  /** A link can carry a secret the redactor cannot compile. */
  lemma RawBytesAreRead(lib: Lib)
    ensures Exportable(lib, RAW_TROJAN) && ReadsAs(lib, RAW_TROJAN, Norm(RAW_TROJAN))
    ensures Norm(RAW_TROJAN).password == RAW && !Utf8(RAW)
  {
    RawTrojanExportable(lib);
    ExportableReadsAs(lib, RAW_TROJAN);
  }
}
