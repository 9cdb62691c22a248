/** Every exportable profile comes back from its share link in link-normal form
    (core/server/linkgen.go against core/server/links.go). */
module LinkRoundTrip {
  import opened Options
  import opened Text
  import opened Percent
  import opened Url
  import opened Profile
  import opened Links
  import Base64
  import Rows

  // ---- what a link keeps ----

  /** A plus sign reads as a space, outer white space goes, and a name left blank is replaced by
      protocol, address and port. */
  function NormName(p: ServerProfile, address: string): string
    requires p.port >= 0
  {
    var n := Trim(PlusToSpace(p.name));
    if n == "" then DefaultName(p.protocol, address, p.port) else n
  }

  /** A WebSocket transport keeps path and host; plain TCP is the absence of a transport. */
  function NormTransport(p: ServerProfile): Option<TransportConfig> {
    if IsWS(p) then Some(TransportConfig(WS, p.transport.value.path, p.transport.value.host, 0, "")) else None
  }

  /** Enabled TLS keeps its settings, with the server name defaulting to `fallback` and ALPN items
      cleaned. */
  function NormTls(tls: TLSConfig, enabled: bool, fallback: string): TLSConfig {
    if !enabled then NO_TLS
    else TLSConfig(true, tls.allowInsecure,
                   if Trim(tls.serverName) == "" then Trim(fallback) else Trim(tls.serverName),
                   SplitComma(Join(tls.alpn, ',')), tls.fingerprint)
  }

  function WsHost(p: ServerProfile): string { if IsWS(p) then p.transport.value.host else "" }

  function NormSecurity(s: string): string { if Trim(s) == "" then "auto" else Trim(s) }

  /** Only shadowsocks links leave the host percent-encoded when they are read. */
  function NormAddress(p: ServerProfile): string {
    if p.protocol.Shadowsocks? then Escape(p.address, Host) else Trim(p.address)
  }

  /** The profile a link of `p` stands for: what the link or the parser does not carry is blank. */
  function Norm(p: ServerProfile): ServerProfile
    requires p.port >= 0
  {
    var a := NormAddress(p);
    var base := BLANK.(protocol := p.protocol, name := NormName(p, a), address := a, port := p.port);
    match p.protocol
    case VLESS => base.(uuid := p.uuid, flow := p.flow, packetEncoding := p.packetEncoding,
                        transport := NormTransport(p), tls := NormTls(p.tls, p.tls.enabled, WsHost(p)))
    case VMess => base.(uuid := p.uuid, security := NormSecurity(p.security), packetEncoding := p.packetEncoding,
                        globalPadding := p.globalPadding,
                        transport := NormTransport(p), tls := NormTls(p.tls, p.tls.enabled, WsHost(p)))
    case Trojan => base.(password := p.password, transport := NormTransport(p),
                         tls := NormTls(p.tls, true, p.address))
    case Shadowsocks =>
      var (cipher, password, _) := Cut(p.cipher + ":" + p.password, ':');
      base.(cipher := cipher, password := password)
    case SOCKS5 => base.(username := p.username, password := if p.username == "" then "" else p.password)
    case HTTP => base.(username := p.username, password := if p.username == "" then "" else p.password)
    case _ => base
  }

  /** Go strings hold bytes. */
  predicate Bytes(p: ServerProfile) {
    && IsBytes(p.name) && IsBytes(p.address) && IsBytes(p.uuid) && IsBytes(p.password) && IsBytes(p.username)
    && IsBytes(p.cipher)
    && IsBytes(p.flow) && IsBytes(p.security) && IsBytes(p.packetEncoding)
    && IsBytes(p.tls.serverName) && IsBytes(p.tls.fingerprint)
    && (forall a :: a in p.tls.alpn ==> IsBytes(a))
    && (p.transport.Some? ==> IsBytes(p.transport.value.path) && IsBytes(p.transport.value.host))
  }

  /** Valid profiles with a link form. */
  predicate Printable(p: ServerProfile) { Profile.Valid(p) && Bytes(p) && !p.protocol.SSH? }

  /** The address is one a URL authority can hold. */
  predicate Hosted(lib: Lib, p: ServerProfile) { IsBytes(p.address) && Addressable(lib.isIPv6, p.address) }

  /** Those a link can carry: an address a URL authority can hold or, for shadowsocks, one without a
      colon, and a cipher that does not start with one. */
  predicate Exportable(lib: Lib, p: ServerProfile) {
    && Printable(p)
    && (if p.protocol.Shadowsocks? then ':' !in p.address && p.cipher[0] != ':' else Hosted(lib, p))
  }

  // ---- queries ----

  lemma KeyTextInjective(a: Key, b: Key)
    requires KeyText(a) == KeyText(b)
    ensures a == b
  {
    assert |KeyText(a)| == |KeyText(b)| && KeyText(a)[0] == KeyText(b)[0];
  }

  lemma {:induction false} PairsLookup(keys: seq<Key>, q: Values, k: Key)
    ensures Lookup(Pairs(keys, q), KeyText(k)) == if k in keys then ValueOf(q, k) else ""
  {
    if keys == [] {
    } else {
      PairsLookup(keys[1..], q, k);
      assert keys == [keys[0]] + keys[1..];
      var first := if keys[0] in q then [Pair(KeyText(keys[0]), q[keys[0]])] else [];
      if keys[0] in q {
        assert Pairs(keys, q)[1..] == Pairs(keys[1..], q);
        if KeyText(keys[0]) == KeyText(k) {
          KeyTextInjective(keys[0], k);
        }
      } else {
        assert Pairs(keys, q) == Pairs(keys[1..], q);
      }
    }
  }

  lemma {:induction false} PairsOk(keys: seq<Key>, q: Values)
    requires forall k :: k in q ==> IsBytes(q[k])
    ensures forall p :: p in Pairs(keys, q) ==> PairOk(p)
  {
    if keys == [] {
    } else {
      PairsOk(keys[1..], q);
      KeyTextBytes(keys[0]);
    }
  }

  lemma KeyTextBytes(k: Key)
    ensures IsBytes(KeyText(k))
  {
  }

  lemma EveryKeyIsWritten(k: Key)
    ensures k in KEY_ORDER
  {
    match k {
      case AllowInsecure => assert KEY_ORDER[0] == k;
      case Alpn => assert KEY_ORDER[1] == k;
      case AuthenticatedLength => assert KEY_ORDER[2] == k;
      case Encryption => assert KEY_ORDER[3] == k;
      case Flow => assert KEY_ORDER[4] == k;
      case Fp => assert KEY_ORDER[5] == k;
      case GlobalPadding => assert KEY_ORDER[6] == k;
      case HostKey => assert KEY_ORDER[7] == k;
      case PacketEncoding => assert KEY_ORDER[8] == k;
      case PathKey => assert KEY_ORDER[9] == k;
      case Security => assert KEY_ORDER[10] == k;
      case Sni => assert KEY_ORDER[11] == k;
      case TypeKey => assert KEY_ORDER[12] == k;
    }
  }

  /** A written query reads back key by key. */
  lemma QueryValues(q: Values)
    requires forall k :: k in q ==> IsBytes(q[k])
    ensures forall k :: Get(Encode(q), k) == ValueOf(q, k)
    ensures forall c :: c in Encode(q) ==> QueryChar(c)
  {
    PairsOk(KEY_ORDER, q);
    QueryTrip(Pairs(KEY_ORDER, q));
    forall k: Key ensures Get(Encode(q), k) == ValueOf(q, k) {
      PairsLookup(KEY_ORDER, q, k);
      EveryKeyIsWritten(k);
    }
  }

  // ---- the shape of a link ----

  /** The name and the core of a printed link are told apart. */
  lemma FragmentReads(user: Option<User>, p: ServerProfile, query: string)
    requires user.Some? ==> UserOk(user.value)
    requires IsBytes(p.name)
    requires forall c :: c in query ==> QueryChar(c)
    ensures var core := CoreText(user, HostPort(p), query);
      SplitFragment(core + "#" + Escape(p.name, Fragment)) == (Trim(PlusToSpace(p.name)), core)
  {
    var core := CoreText(user, HostPort(p), query);
    CoreVisible(user, HostPort(p), query);
    var frag := Escape(p.name, Fragment);
    assert '#' !in core;
    CutAt(core, '#', frag);
    assert core + "#" + frag == core + ['#'] + frag;
    UnescapeFragment(p.name);
  }

  /** After its scheme a printed link splits into name and core, and the core into its parts. */
  lemma LinkReads(lib: Lib, user: Option<User>, p: ServerProfile, query: string)
    requires user.Some? ==> UserOk(user.value)
    requires Hosted(lib, p) && p.port >= 0 && p.name != "" && IsBytes(p.name)
    requires forall c :: c in query ==> QueryChar(c)
    ensures var core := CoreText(user, HostPort(p), query);
      && SplitFragment(core + "#" + Escape(p.name, Fragment)) == (Trim(PlusToSpace(p.name)), core)
      && Parse(lib.isIPv6, core) == Some(Parsed(user, HostPort(p), query))
      && SplitHostPort(HostPort(p)) == (p.address, Itoa(p.port))
  {
    FragmentReads(user, p, query);
    CoreTrip(lib.isIPv6, user, p.address, Itoa(p.port), query);
    HostTrip(lib.isIPv6, p.address, Itoa(p.port));
  }

  /** A link starts and ends with a visible character, contains only such, and no trimming of the
      whole changes it. */
  lemma LinkVisible(scheme: string, user: Option<User>, p: ServerProfile, query: string)
    requires scheme != "" && forall i :: 0 <= i < |scheme| ==> Visible(scheme[i])
    requires user.Some? ==> UserOk(user.value)
    requires forall c :: c in query ==> QueryChar(c)
    ensures var t := UrlText(scheme, user, HostPort(p), query, p.name);
      && (forall c :: c in t ==> Visible(c))
      && t != "" && Trim(t) == t
  {
    var t := UrlText(scheme, user, HostPort(p), query, p.name);
    CoreVisible(user, HostPort(p), query);
    EscapedText(p.name, Fragment);
    forall c | c in t ensures Visible(c) {
      if c in Escape(p.name, Fragment) {
        WrittenIsVisible(c, Fragment);
      }
    }
    assert t[0] in t && t[|t| - 1] in t;
    VisibleEndsAreTrimmed(t);
  }

  // ---- what the parser reads from a stream query ----

  lemma LowerFixed(s: string)
    requires forall i :: 0 <= i < |s| ==> LowerAscii(s[i]) == s[i]
    ensures ToLower(s) == s
  {
  }

  lemma LiteralFacts()
    ensures Truthy("1") && !Truthy("")
    ensures ToLower(Trim("ws")) == "ws" && ToLower(Trim("")) == ""
    ensures Trim("") == "" && Trim("none") == "none" && Trim("auto") == "auto"
  {
    VisibleEndsAreTrimmed("1");
    VisibleEndsAreTrimmed("ws");
    VisibleEndsAreTrimmed("none");
    VisibleEndsAreTrimmed("auto");
    TrimmedIsFixed("");
    LowerFixed("1");
    LowerFixed("ws");
    LowerFixed("");
  }

  lemma {:induction false} JoinBytes(parts: seq<string>, c: char)
    requires c as int < 256 && forall p :: p in parts ==> IsBytes(p)
    ensures IsBytes(Join(parts, c))
  {
    if |parts| == 1 {
      assert parts[0] in parts;
    } else if |parts| > 1 {
      JoinBytes(parts[1..], c);
      assert IsBytes(parts[0]);
    }
  }

  /** Every value of `q` is a byte string. */
  ghost predicate ByteValues(q: Values) { forall k :: k in q ==> IsBytes(q[k]) }

  ghost predicate CarriesTls(q: Values, tls: TLSConfig) {
    && ValueOf(q, Security) == (if tls.enabled then "tls" else "none")
    && ValueOf(q, Sni) == tls.serverName
    && ValueOf(q, Alpn) == Join(tls.alpn, ',')
    && ValueOf(q, Fp) == tls.fingerprint
    && ValueOf(q, AllowInsecure) == (if tls.allowInsecure then "1" else "")
  }

  lemma TlsValues(tls: TLSConfig, q: Values)
    requires q == TlsQuery(tls)
    ensures CarriesTls(q, tls)
    ensures q.Keys <= {Security, Sni, Alpn, Fp, AllowInsecure}
  {
  }

  lemma TransportValues(q: Values, t: Option<TransportConfig>, r: Values)
    requires TypeKey !in q && PathKey !in q && HostKey !in q && r == TransportQuery(q, t)
    ensures var ws := t.Some? && t.value.kind.WS?;
      && ValueOf(r, TypeKey) == (if ws then "ws" else "")
      && ValueOf(r, PathKey) == (if ws then t.value.path else "")
      && ValueOf(r, HostKey) == (if ws then t.value.host else "")
    ensures forall k :: k != TypeKey && k != PathKey && k != HostKey ==> ValueOf(r, k) == ValueOf(q, k)
    ensures r.Keys <= q.Keys + {TypeKey, PathKey, HostKey}
  {
  }

  /** `q` carries the TLS and transport settings of `p`. */
  ghost predicate CarriesStream(q: Values, p: ServerProfile) {
    && CarriesTls(q, p.tls)
    && ValueOf(q, TypeKey) == (if IsWS(p) then "ws" else "")
    && ValueOf(q, PathKey) == (if IsWS(p) then p.transport.value.path else "")
    && ValueOf(q, HostKey) == WsHost(p)
  }

  ghost predicate Carries(q: Values, p: ServerProfile) {
    CarriesStream(q, p) && ValueOf(q, PacketEncoding) == p.packetEncoding
  }

  predicate StreamKey(k: Key) {
    k.Security? || k.Sni? || k.Alpn? || k.Fp? || k.AllowInsecure? || k.TypeKey? || k.PathKey? || k.HostKey?
  }

  /** Setting a key the stream settings do not use keeps them. */
  lemma SetKeepsStream(q: Values, p: ServerProfile, present: bool, k: Key, v: string)
    requires CarriesStream(q, p) && !StreamKey(k)
    ensures CarriesStream(SetIf(q, present, k, v), p)
  {
    SetKeepsOthers(q, present, k, v);
  }

  lemma SetKeepsOthers(q: Values, present: bool, k: Key, v: string)
    ensures forall j :: j != k ==> ValueOf(SetIf(q, present, k, v), j) == ValueOf(q, j)
  {
  }

  lemma TlsPartKept(t: Values, q: Values, tls: TLSConfig)
    requires CarriesTls(t, tls)
    requires forall k :: k != TypeKey && k != PathKey && k != HostKey ==> ValueOf(q, k) == ValueOf(t, k)
    ensures CarriesTls(q, tls)
  {
  }

  lemma TransportPart(p: ServerProfile, t: Values, q: Values)
    requires TypeKey !in t && PathKey !in t && HostKey !in t && q == TransportQuery(t, p.transport)
    ensures ValueOf(q, TypeKey) == (if IsWS(p) then "ws" else "")
    ensures ValueOf(q, PathKey) == (if IsWS(p) then p.transport.value.path else "")
    ensures ValueOf(q, HostKey) == WsHost(p)
  {
    TransportValues(t, p.transport, q);
  }

  lemma OnlyStreamKeys(q: Values)
    requires q.Keys <= {Security, Sni, Alpn, Fp, AllowInsecure} + {TypeKey, PathKey, HostKey}
    ensures forall k :: k in q ==> StreamKey(k)
  {
  }

  lemma StreamPart(p: ServerProfile, t: Values, q: Values)
    requires CarriesTls(t, p.tls) && t.Keys <= {Security, Sni, Alpn, Fp, AllowInsecure}
    requires q == TransportQuery(t, p.transport)
    ensures CarriesStream(q, p)
    ensures forall k :: k in q ==> StreamKey(k)
  {
    TransportValues(t, p.transport, q);
    TlsPartKept(t, q, p.tls);
    TransportPart(p, t, q);
    OnlyStreamKeys(q);
  }

  /** The values of the stream query. */
  lemma StreamValues(p: ServerProfile, q: Values)
    requires StreamQuery(p) == Some(q)
    ensures Carries(q, p)
    ensures forall k :: k in q ==> StreamKey(k) || k.PacketEncoding?
  {
    var t := TlsQuery(p.tls);
    var u := TransportQuery(t, p.transport);
    TlsValues(p.tls, t);
    StreamPart(p, t, u);
    SetKeepsStream(u, p, p.packetEncoding != "", PacketEncoding, p.packetEncoding);
    assert PacketEncoding !in u;
  }

  /** Every value the printer sets is a byte string. */
  lemma StreamBytes(p: ServerProfile, q: Values)
    requires Bytes(p) && StreamQuery(p) == Some(q)
    ensures ByteValues(q)
  {
    JoinBytes(p.tls.alpn, ',');
    StreamValues(p, q);
    forall k | k in q ensures IsBytes(q[k]) {
      assert q[k] == ValueOf(q, k);
      assert StreamKey(k) || k.PacketEncoding?;
      ConstantBytes();
    }
  }

  lemma ConstantBytes()
    ensures IsBytes("tls") && IsBytes("none") && IsBytes("1") && IsBytes("ws") && IsBytes("auto") && IsBytes("")
  {
  }

  lemma TransportReads(p: ServerProfile)
    ensures TransportFromNetwork(if IsWS(p) then "ws" else "", WsHost(p),
                                 if IsWS(p) then p.transport.value.path else "")
         == Ok(NormTransport(p))
  {
    LiteralFacts();
  }

  lemma EmptySplit()
    ensures SplitComma("") == []
  {
    assert Cut("", ',') == ("", "", false);
    assert Split("", ',') == [""];
    LiteralFacts();
    assert [""][1..] == [];
    assert CleanItems([""]) == [] + CleanItems([]);
  }

  lemma TlsReads(tls: TLSConfig, enabled: bool, fallback: string)
    ensures TlsFromFields(enabled, tls.serverName, fallback, tls.fingerprint, Join(tls.alpn, ','),
                          Truthy(if tls.allowInsecure then "1" else ""))
         == NormTls(tls, enabled, fallback)
  {
    LiteralFacts();
    EmptySplit();
  }

  lemma StreamReads(q: Values, p: ServerProfile)
    requires Carries(q, p) && ByteValues(q)
    ensures StreamSettings(Encode(q)) ==
      Ok(BLANK.(transport := NormTransport(p), tls := NormTls(p.tls, p.tls.enabled, WsHost(p)),
                packetEncoding := p.packetEncoding))
    ensures Get(Encode(q), Security) != "reality"
  {
    QueryValues(q);
    TransportReads(p);
    TlsReads(p.tls, p.tls.enabled, WsHost(p));
    SecurityText(p.tls.enabled);
  }

  lemma SecurityText(enabled: bool)
    ensures var t := if enabled then "tls" else "none"; (t == "tls" <==> enabled) && t != "reality"
  {
    assert |"tls"| == 3 && |"none"| == 4 && |"reality"| == 7;
  }

  // ---- naming and validation ----

  lemma DefaultNameVisible(protocol: Protocol, address: string, port: nat)
    requires !protocol.UnknownProtocol?
    ensures Trim(DefaultName(protocol, address, port)) == DefaultName(protocol, address, port) != ""
  {
    var d := DefaultName(protocol, address, port);
    var n, t := Rows.ProtocolName(protocol), Itoa(port);
    assert n != "" && Visible(n[0]);
    assert d[0] == n[0];
    assert d[|d| - 1] == t[|t| - 1] && Digit(t[|t| - 1]);
    VisibleEndsAreTrimmed(d);
  }

  lemma EscapedHostTrimmed(p: ServerProfile)
    requires p.protocol.Shadowsocks? && p.address != ""
    ensures Trim(NormAddress(p)) == NormAddress(p) != ""
  {
    var e, n := Escape(p.address, Host), NormAddress(p);
    EscapedText(p.address, Host);
    assert e[0] in e && e[|e| - 1] in e;
    WrittenIsVisible(e[0], Host);
    WrittenIsVisible(e[|e| - 1], Host);
    VisibleEndsAreTrimmed(n);
  }

  lemma NormAddressStable(lib: Lib, p: ServerProfile)
    requires Exportable(lib, p)
    ensures Trim(NormAddress(p)) == NormAddress(p) != ""
  {
    if p.protocol.Shadowsocks? {
      EscapedHostTrimmed(p);
    } else {
      TrimIsTrimmed(p.address);
    }
  }

  /** Only the fields `newProfile` fills are set. */
  predicate Filled(n: ServerProfile) {
    n == BLANK.(protocol := n.protocol, name := n.name, address := n.address, port := n.port,
                username := n.username, password := n.password, cipher := n.cipher, uuid := n.uuid,
                flow := n.flow, security := n.security, tls := n.tls, transport := n.transport,
                globalPadding := n.globalPadding, packetEncoding := n.packetEncoding)
  }

  predicate SameExtras(x: ServerProfile, n: ServerProfile) {
    && x.username == n.username && x.password == n.password && x.cipher == n.cipher && x.uuid == n.uuid
    && x.flow == n.flow && x.security == n.security && x.tls == n.tls && x.transport == n.transport
    && x.globalPadding == n.globalPadding && x.packetEncoding == n.packetEncoding
  }

  lemma NewProfileBuilds(n: ServerProfile, name: string, address: string, extra: ServerProfile)
    requires Filled(n) && SameExtras(extra, n) && n.port >= 0 && Trim(address) == n.address
    requires n.name == if Trim(name) == "" then DefaultName(n.protocol, n.address, n.port) else Trim(name)
    requires Profile.Valid(n)
    ensures NewProfile(n.protocol, name, address, n.port, extra) == Ok(n)
  {
  }

  lemma NormFilled(p: ServerProfile)
    requires p.port >= 0
    ensures var n := Norm(p); Filled(n) && n.protocol == p.protocol && n.port == p.port
    ensures Norm(p).address == NormAddress(p) && Norm(p).name == NormName(p, NormAddress(p))
    ensures Norm(p).transport.None? || Norm(p).transport.value.kind.WS?
    ensures Norm(p).reality.None?
  {
  }

  /** `newProfile` names and accepts the parts of a norm. */
  lemma NewProfileIsNorm(lib: Lib, p: ServerProfile, n: ServerProfile, address: string, extra: ServerProfile)
    requires Exportable(lib, p) && Trim(address) == NormAddress(p) && n == Norm(p)
    requires SameExtras(extra, n) && CredentialsPresent(n)
    ensures NewProfile(p.protocol, Trim(PlusToSpace(p.name)), address, p.port, extra) == Ok(n)
    ensures Profile.Valid(n)
  {
    NormFilled(p);
    NormNames(lib, p);
    NewProfileBuilds(n, Trim(PlusToSpace(p.name)), address, extra);
  }

  lemma NormNames(lib: Lib, p: ServerProfile)
    requires Exportable(lib, p)
    ensures Trim(NormAddress(p)) == NormAddress(p) != ""
    ensures Trim(NormName(p, NormAddress(p))) == NormName(p, NormAddress(p)) != ""
    ensures Trim(Trim(PlusToSpace(p.name))) == Trim(PlusToSpace(p.name))
  {
    TrimIsTrimmed(PlusToSpace(p.name));
    NormAddressStable(lib, p);
    DefaultNameVisible(p.protocol, NormAddress(p), p.port);
  }

  // ---- the schemes ----

  lemma TrimHost(p: ServerProfile)
    requires p.port >= 0
    ensures Trim(HostPort(p)) != ""
  {
    var h := HostPort(p);
    var t := Itoa(p.port);
    assert h[|h| - 1] == t[|t| - 1] && Digit(t[|t| - 1]);
    TrimKeepsVisibleEnd(h);
  }

  lemma {:induction false} TrimKeepsVisibleEnd(s: string)
    requires s != "" && Visible(s[|s| - 1])
    ensures Trim(s) != ""
  {
    TrimLeftKeepsVisibleEnd(s);
  }

  lemma {:induction false} TrimLeftKeepsVisibleEnd(s: string)
    requires s != "" && Visible(s[|s| - 1])
    ensures TrimLeft(s) != "" && TrailSpace(TrimLeft(s)) == 0
    decreases |s|
  {
    if LeadSpace(s) == 0 {
    } else {
      assert LeadSpace(s) < |s|;
      TrimLeftKeepsVisibleEnd(s[LeadSpace(s)..]);
    }
  }

  /** The text after the scheme. */
  function Rest(user: Option<User>, p: ServerProfile, query: string): string {
    CoreText(user, HostPort(p), query) + "#" + Escape(p.name, Fragment)
  }

  /** Setting a key the stream query does not use. */
  lemma SetKeeps(q: Values, p: ServerProfile, present: bool, k: Key, v: string, r: Values)
    requires Carries(q, p) && ByteValues(q) && !StreamKey(k) && !k.PacketEncoding? && IsBytes(v)
    requires r == SetIf(q, present, k, v)
    ensures Carries(r, p) && ByteValues(r)
    ensures forall j :: j != k ==> ValueOf(r, j) == ValueOf(q, j)
    ensures ValueOf(r, k) == if present then v else ValueOf(q, k)
  {
    SetKeepsStream(q, p, present, k, v);
  }

  /** The stream query carries the settings of `p`, in bytes, and no other key. */
  lemma StreamQueryOk(p: ServerProfile, q: Values)
    requires Bytes(p) && StreamQuery(p) == Some(q)
    ensures Carries(q, p) && ByteValues(q)
    ensures Flow !in q && GlobalPadding !in q
  {
    StreamValues(p, q);
    StreamBytes(p, q);
  }

  /** What every stream parser finds in front of its query. */
  lemma FrontReads(lib: Lib, user: Option<User>, p: ServerProfile, q: Values)
    requires Printable(p) && Hosted(lib, p)
    requires (user.Some? ==> UserOk(user.value)) && ByteValues(q)
    ensures SplitFragment(Rest(user, p, Encode(q)))
         == (Trim(PlusToSpace(p.name)), CoreText(user, HostPort(p), Encode(q)))
    ensures Parse(lib.isIPv6, CoreText(user, HostPort(p), Encode(q))) == Some(Parsed(user, HostPort(p), Encode(q)))
    ensures SplitHostPort(HostPort(p)) == (p.address, Itoa(p.port))
    ensures Trim(HostPort(p)) != "" && forall fallback :: PortOr(Itoa(p.port), fallback) == p.port
  {
    QueryValues(q);
    assert p.name != "";
    LinkReads(lib, user, p, Encode(q));
    TrimHost(p);
    AtoiItoa(p.port);
  }

  lemma VLessValues(p: ServerProfile, base: Values, q: Values)
    requires IsBytes(p.flow) && Carries(base, p) && ByteValues(base) && Flow !in base
    requires q == VLessOptions(base, p)
    ensures Carries(q, p) && ByteValues(q)
    ensures ValueOf(q, Encryption) == "none" && ValueOf(q, Flow) == p.flow
  {
    ConstantBytes();
    var q1 := SetIf(base, true, Encryption, "none");
    SetKeeps(base, p, true, Encryption, "none", q1);
    SetKeeps(q1, p, p.flow != "", Flow, p.flow, q);
  }

  lemma VLessReads(lib: Lib, p: ServerProfile, q: Values, extra: ServerProfile)
    requires Printable(p) && Hosted(lib, p) && Trim(p.uuid) != "" && Carries(q, p) && ByteValues(q)
    requires ValueOf(q, Encryption) == "none" && ValueOf(q, Flow) == p.flow
    requires extra == BLANK.(transport := NormTransport(p), tls := NormTls(p.tls, p.tls.enabled, WsHost(p)),
                             packetEncoding := p.packetEncoding, uuid := p.uuid, flow := p.flow)
    ensures ParseVLess(lib, Rest(Some(User(p.uuid, None)), p, Encode(q)))
         == NewProfile(VLESS, Trim(PlusToSpace(p.name)), p.address, p.port, extra)
  {
    assert p.uuid != "";
    FrontReads(lib, Some(User(p.uuid, None)), p, q);
    QueryValues(q);
    StreamReads(q, p);
  }

  lemma VLessTrip(lib: Lib, p: ServerProfile, base: Values)
    requires Exportable(lib, p) && p.protocol.VLESS? && StreamQuery(p) == Some(base)
    ensures ParseVLess(lib, Rest(Some(User(p.uuid, None)), p, Encode(VLessOptions(base, p)))) == Ok(Norm(p))
    ensures ByteValues(VLessOptions(base, p))
  {
    var q, n := VLessOptions(base, p), Norm(p);
    StreamQueryOk(p, base);
    VLessValues(p, base, q);
    var extra := BLANK.(transport := NormTransport(p), tls := NormTls(p.tls, p.tls.enabled, WsHost(p)),
                        packetEncoding := p.packetEncoding, uuid := p.uuid, flow := p.flow);
    VLessReads(lib, p, q, extra);
    NewProfileIsNorm(lib, p, n, p.address, extra);
  }

  lemma VMessValues(p: ServerProfile, base: Values, q: Values)
    requires IsBytes(p.security) && Carries(base, p) && ByteValues(base) && GlobalPadding !in base
    requires q == VMessOptions(base, p)
    ensures Carries(q, p) && ByteValues(q)
    ensures ValueOf(q, Encryption) == if p.security == "" then "auto" else p.security
    ensures ValueOf(q, GlobalPadding) == if p.globalPadding then "1" else ""
  {
    ConstantBytes();
    VMessSets(p, base, q, if p.security == "" then "auto" else p.security, "1");
  }

  lemma VMessSets(p: ServerProfile, base: Values, q: Values, sec: string, one: string)
    requires IsBytes(sec) && IsBytes(one) && Carries(base, p) && ByteValues(base) && GlobalPadding !in base
    requires q == SetIf(SetIf(SetIf(base, true, Encryption, sec), p.globalPadding, GlobalPadding, one),
                        p.authenticatedLength, AuthenticatedLength, one)
    ensures Carries(q, p) && ByteValues(q)
    ensures ValueOf(q, Encryption) == sec
    ensures ValueOf(q, GlobalPadding) == if p.globalPadding then one else ""
  {
    var q1 := SetIf(base, true, Encryption, sec);
    SetKeeps(base, p, true, Encryption, sec, q1);
    FlagSets(p, q1, q, p.globalPadding, p.authenticatedLength, one);
  }

  lemma FlagSets(p: ServerProfile, q1: Values, q: Values, padding: bool, length: bool, one: string)
    requires IsBytes(one) && Carries(q1, p) && ByteValues(q1)
    requires q == SetIf(SetIf(q1, padding, GlobalPadding, one), length, AuthenticatedLength, one)
    ensures Carries(q, p) && ByteValues(q)
    ensures ValueOf(q, Encryption) == ValueOf(q1, Encryption)
    ensures ValueOf(q, GlobalPadding) == if padding then one else ValueOf(q1, GlobalPadding)
  {
    var q2 := SetIf(q1, padding, GlobalPadding, one);
    SetKeeps(q1, p, padding, GlobalPadding, one, q2);
    SetKeeps(q2, p, length, AuthenticatedLength, one, q);
  }

  lemma SecurityReads(p: ServerProfile)
    ensures var sec := Trim(if p.security == "" then "auto" else p.security);
      (if sec == "" then "auto" else sec) == NormSecurity(p.security)
    ensures Truthy(if p.globalPadding then "1" else "") == p.globalPadding
  {
    LiteralFacts();
  }

  lemma VMessReads(lib: Lib, p: ServerProfile, q: Values, extra: ServerProfile)
    requires Printable(p) && Hosted(lib, p) && Trim(p.uuid) != "" && Carries(q, p) && ByteValues(q)
    requires ValueOf(q, Encryption) == if p.security == "" then "auto" else p.security
    requires ValueOf(q, GlobalPadding) == if p.globalPadding then "1" else ""
    requires extra == BLANK.(transport := NormTransport(p), tls := NormTls(p.tls, p.tls.enabled, WsHost(p)),
                             packetEncoding := p.packetEncoding, uuid := p.uuid, security := NormSecurity(p.security),
                             globalPadding := p.globalPadding,
                             authenticatedLength := Truthy(Get(Encode(q), AuthenticatedLength)))
    ensures ParseVMessSIP002(lib, Rest(Some(User(p.uuid, None)), p, Encode(q)))
         == NewProfile(VMess, Trim(PlusToSpace(p.name)), p.address, p.port, extra)
  {
    assert p.uuid != "";
    FrontReads(lib, Some(User(p.uuid, None)), p, q);
    QueryValues(q);
    StreamReads(q, p);
    SecurityReads(p);
  }

  lemma VMessTrip(lib: Lib, p: ServerProfile, base: Values)
    requires Exportable(lib, p) && p.protocol.VMess? && StreamQuery(p) == Some(base)
    ensures ParseVMess(lib, Rest(Some(User(p.uuid, None)), p, Encode(VMessOptions(base, p)))) == Ok(Norm(p))
    ensures ByteValues(VMessOptions(base, p))
  {
    var q, n := VMessOptions(base, p), Norm(p);
    StreamQueryOk(p, base);
    VMessValues(p, base, q);
    var extra := BLANK.(transport := NormTransport(p), tls := NormTls(p.tls, p.tls.enabled, WsHost(p)),
                        packetEncoding := p.packetEncoding, uuid := p.uuid, security := NormSecurity(p.security),
                        globalPadding := p.globalPadding,
                        authenticatedLength := Truthy(Get(Encode(q), AuthenticatedLength)));
    VMessReads(lib, p, q, extra);
    AtSign(User(p.uuid, None), p, Encode(q));
    NewProfileIsNorm(lib, p, n, p.address, extra);
  }

  /** Text with user information is not taken for base64. */
  lemma AtSign(user: User, p: ServerProfile, query: string)
    ensures '@' in Rest(Some(user), p, query)
  {
    assert Rest(Some(user), p, query)[|UserText(user)|] == '@';
  }

  lemma TrojanReads(q: Values, p: ServerProfile)
    requires Carries(q, p) && ByteValues(q)
    ensures TrojanSettings(Encode(q), p.address)
         == Ok(BLANK.(transport := NormTransport(p), tls := NormTls(p.tls, true, p.address)))
  {
    QueryValues(q);
    TransportReads(p);
    TlsReads(p.tls, true, p.address);
  }

  lemma TrojanParses(lib: Lib, p: ServerProfile, q: Values, user: User, extra: ServerProfile)
    requires Printable(p) && Hosted(lib, p) && UserOk(user) && user.name == p.password && Carries(q, p) && ByteValues(q)
    requires extra == BLANK.(password := p.password, transport := NormTransport(p),
                             tls := NormTls(p.tls, true, p.address))
    ensures ParseTrojan(lib, Rest(Some(user), p, Encode(q)))
         == NewProfile(Trojan, Trim(PlusToSpace(p.name)), p.address, p.port, extra)
  {
    FrontReads(lib, Some(user), p, q);
    TrojanReads(q, p);
    TrojanFront(lib, Rest(Some(user), p, Encode(q)), Trim(PlusToSpace(p.name)), user,
                Parsed(Some(user), HostPort(p), Encode(q)), p.address, p.port, extra.(password := ""));
  }

  lemma TrojanFront(lib: Lib, text: string, name: string, user: User, u: Parsed, address: string, port: nat,
                    base: ServerProfile)
    requires u.user == Some(user) && user.name != "" && Trim(u.host) != ""
    requires SplitFragment(text).0 == name && Parse(lib.isIPv6, SplitFragment(text).1) == Some(u)
    requires SplitHostPort(u.host).0 == address && PortOr(SplitHostPort(u.host).1, 443) == port
    requires TrojanSettings(u.rawQuery, address) == Ok(base)
    ensures ParseTrojan(lib, text) == NewProfile(Trojan, name, address, port, base.(password := user.name))
  {
  }

  lemma TrojanTrip(lib: Lib, p: ServerProfile, q: Values)
    requires Exportable(lib, p) && p.protocol.Trojan? && StreamQuery(p) == Some(q)
    ensures ParseTrojan(lib, Rest(Some(User(p.password, Some(""))), p, Encode(q))) == Ok(Norm(p))
    ensures ByteValues(q)
  {
    var n := Norm(p);
    StreamQueryOk(p, q);
    var extra := BLANK.(password := p.password, transport := NormTransport(p), tls := NormTls(p.tls, true, p.address));
    TrojanParses(lib, p, q, User(p.password, Some("")), extra);
    NewProfileIsNorm(lib, p, n, p.address, extra);
  }

  lemma LoginUserOk(p: ServerProfile)
    requires IsBytes(p.username) && IsBytes(p.password)
    ensures LoginUser(p).Some? ==> UserOk(LoginUser(p).value)
  {
  }

  lemma EmptyQuery()
    ensures Encode(map[]) == ""
  {
    NoPairs(KEY_ORDER);
  }

  lemma {:induction false} NoPairs(keys: seq<Key>)
    ensures Pairs(keys, map[]) == []
  {
    if keys == [] {
    } else {
      NoPairs(keys[1..]);
    }
  }

  lemma UserPassParses(lib: Lib, p: ServerProfile, extra: ServerProfile)
    requires Exportable(lib, p) && (p.protocol.SOCKS5? || p.protocol.HTTP?)
    requires extra == BLANK.(username := p.username, password := if p.username == "" then "" else p.password)
    ensures ParseUserPass(lib, Rest(LoginUser(p), p, ""), p.protocol)
         == NewProfile(p.protocol, Trim(PlusToSpace(p.name)), p.address, p.port, extra)
  {
    LoginUserOk(p);
    EmptyQuery();
    FrontReads(lib, LoginUser(p), p, map[]);
  }

  lemma UserPassTrip(lib: Lib, p: ServerProfile)
    requires Exportable(lib, p) && (p.protocol.SOCKS5? || p.protocol.HTTP?)
    ensures ParseUserPass(lib, Rest(LoginUser(p), p, ""), p.protocol) == Ok(Norm(p))
  {
    var n := Norm(p);
    var extra := BLANK.(username := p.username, password := if p.username == "" then "" else p.password);
    UserPassParses(lib, p, extra);
    NewProfileIsNorm(lib, p, n, p.address, extra);
  }

  // ---- shadowsocks ----

  lemma SymbolKept(n: Base64.Sextet)
    ensures Kept(Base64.Symbol(Base64.RAW_URL, n), UserInfo)
  {
  }

  /** URL-safe base64 needs no escaping as user information. */
  lemma {:induction false} EncodedKept(s: string)
    ensures var e := Base64.Encode(Base64.RAW_URL, s); forall i :: 0 <= i < |e| ==> Kept(e[i], UserInfo)
    decreases |s|
  {
    forall n: Base64.Sextet ensures Kept(Base64.Symbol(Base64.RAW_URL, n), UserInfo) {
      SymbolKept(n);
    }
    if |s| < 3 {
    } else {
      var e := Base64.Encode(Base64.RAW_URL, s);
      EncodedKept(s[3..]);
      assert e[4..] == Base64.Encode(Base64.RAW_URL, s[3..]);
      forall i | 0 <= i < |e| ensures Kept(e[i], UserInfo) {
        if i >= 4 {
          assert e[i] == e[4..][i - 4];
        }
      }
    }
  }

  /** The core of a shadowsocks link: base64 text, '@', host and port. */
  lemma ShadowsocksCore(p: ServerProfile, t: string)
    requires Bytes(p) && p.cipher != "" && t == ShadowsocksUser(p).name
    ensures CoreText(Some(ShadowsocksUser(p)), HostPort(p), "") == t + "@" + Escape(HostPort(p), Host)
    ensures UserOk(ShadowsocksUser(p))
  {
    EncodedKept(p.cipher + ":" + p.password);
    Base64.EncodedText(Base64.RAW_URL, p.cipher + ":" + p.password);
    EscapeKept(t, UserInfo);
  }

  lemma ShadowsocksHost(p: ServerProfile)
    requires p.protocol.Shadowsocks? && ':' !in p.address && p.port >= 0
    ensures Cut(Escape(HostPort(p), Host), ':') == (NormAddress(p), Itoa(p.port), true)
  {
    EscapedMarks(p.address, ':');
    PlainJoin(p.address, Itoa(p.port));
    CutAt(NormAddress(p), ':', Itoa(p.port));
  }

  lemma PortReads(n: nat)
    requires 1 <= n <= 65535
    ensures ParsePort(Itoa(n)) == Some(n)
  {
    AtoiItoa(n);
    var t := Itoa(n);
    assert Digit(t[0]) && Digit(t[|t| - 1]);
    VisibleEndsAreTrimmed(t);
  }

  /** What the parser takes apart. */
  lemma ShadowsocksParts(p: ServerProfile, t: string, hp: string, text: string)
    requires Bytes(p) && t == Base64.Encode(Base64.RAW_URL, p.cipher + ":" + p.password)
    requires '?' !in t && '?' !in hp && '@' !in hp
    requires SplitFragment(text) == (Trim(PlusToSpace(p.name)), t + "@" + hp)
    ensures var (host, port, found) := Cut(hp, ':');
      found ==>
        ParseShadowsocks(text) == ShadowsocksProfile(Trim(PlusToSpace(p.name)), p.cipher + ":" + p.password, host, port)
  {
    var core := t + "@" + hp;
    CutMiss(core, '?');
    assert core == t + ['@'] + hp;
    CutLastAt(t, '@', hp);
    assert IsBytes(p.cipher + ":" + p.password);
    Base64.TryDecodesAll(Base64.RAW_URL, p.cipher + ":" + p.password);
    assert !HasPlugin("");
  }

  /** A cut never reaches past the first separator it was given. */
  lemma {:induction false} CutBound(a: string, c: char, b: string)
    ensures var (x, _, found) := Cut(a + [c] + b, c); found && |x| <= |a| && (a != "" && a[0] != c ==> x != "")
  {
    if a == "" {
      assert a + [c] + b == [c] + b;
    } else {
      assert (a + [c] + b)[1..] == a[1..] + [c] + b;
      CutBound(a[1..], c, b);
    }
  }

  /** The first colon splits the decoded text; it follows or lies in the cipher, never before. */
  lemma CipherCut(p: ServerProfile)
    requires p.cipher != "" && p.cipher[0] != ':' && p.password != ""
    ensures var (c, w, found) := Cut(p.cipher + ":" + p.password, ':'); found && c != "" && w != ""
  {
    CutBound(p.cipher, ':', p.password);
    CutShorter(p.cipher + ":" + p.password, ':');
  }

  lemma ShadowsocksParses(p: ServerProfile)
    requires Printable(p) && p.protocol.Shadowsocks?
    ensures var (host, port, found) := Cut(Escape(HostPort(p), Host), ':');
      found ==>
        ParseShadowsocks(Rest(Some(ShadowsocksUser(p)), p, "")) ==
        ShadowsocksProfile(Trim(PlusToSpace(p.name)), p.cipher + ":" + p.password, host, port)
  {
    var t := Base64.Encode(Base64.RAW_URL, p.cipher + ":" + p.password);
    ShadowsocksCore(p, t);
    FragmentReads(Some(ShadowsocksUser(p)), p, "");
    ShadowsocksChars(p, t);
    ShadowsocksParts(p, t, Escape(HostPort(p), Host), Rest(Some(ShadowsocksUser(p)), p, ""));
  }

  lemma ShadowsocksTrip(lib: Lib, p: ServerProfile)
    requires Exportable(lib, p) && p.protocol.Shadowsocks?
    ensures ParseShadowsocks(Rest(Some(ShadowsocksUser(p)), p, "")) == Ok(Norm(p))
  {
    var n := Norm(p);
    ShadowsocksHost(p);
    ShadowsocksParses(p);
    PortReads(p.port);
    CipherCut(p);
    EscapedHostTrimmed(p);
    var (c, w, _) := Cut(p.cipher + ":" + p.password, ':');
    NewProfileIsNorm(lib, p, n, NormAddress(p), BLANK.(cipher := c, password := w));
  }

  lemma ShadowsocksChars(p: ServerProfile, t: string)
    requires t == Base64.Encode(Base64.RAW_URL, p.cipher + ":" + p.password)
    ensures '?' !in t && '?' !in Escape(HostPort(p), Host) && '@' !in Escape(HostPort(p), Host)
  {
    EncodedKept(p.cipher + ":" + p.password);
    EscapedText(HostPort(p), Host);
    forall c | c in Escape(HostPort(p), Host) ensures c != '?' && c != '@' {
      WrittenIsVisible(c, Host);
    }
    forall c | c in t ensures c != '?' {
      WrittenIsVisible(c, UserInfo);
    }
  }

  // ---- the theorem ----

  function SchemeName(protocol: Protocol): string {
    match protocol
    case VLESS => "vless"
    case VMess => "vmess"
    case Shadowsocks => "ss"
    case Trojan => "trojan"
    case SOCKS5 => "socks5"
    case _ => "http"
  }

  predicate Linkable(protocol: Protocol) { !protocol.SSH? && !protocol.UnknownProtocol? }

  lemma Differs(a: string, b: string, i: nat, s: string)
    requires a <= s && i < |a| && i < |b| && a[i] != b[i]
    ensures !(b <= s)
  {
    assert s[i] == a[i];
  }

  lemma PrefixText(protocol: Protocol)
    requires Linkable(protocol)
    ensures SchemeName(protocol) + "://" == match protocol
      case VLESS => "vless://"
      case VMess => "vmess://"
      case Shadowsocks => "ss://"
      case Trojan => "trojan://"
      case SOCKS5 => "socks5://"
      case _ => "http://"
  {
  }

  /** The printed scheme selects the parser of its own protocol. */
  lemma SchemeReads(protocol: Protocol, s: string)
    requires Linkable(protocol) && SchemeName(protocol) + "://" <= s
    ensures Scheme(s) == Some((protocol, SchemeName(protocol) + "://"))
  {
    var t := SchemeName(protocol) + "://";
    PrefixText(protocol);
    if !protocol.VMess? {
      Differs(t, "vmess://", if protocol.VLESS? then 1 else 0, s);
      if !protocol.VLESS? {
        Differs(t, "vless://", 0, s);
        NotShadowed(protocol, t, s);
      }
    }
  }

  lemma NotShadowed(protocol: Protocol, t: string, s: string)
    requires Linkable(protocol) && !protocol.VMess? && !protocol.VLESS?
    requires t == SchemeName(protocol) + "://" <= s && !("vmess://" <= s) && !("vless://" <= s)
    ensures Scheme(s) == Some((protocol, t))
  {
    PrefixText(protocol);
    if !protocol.Shadowsocks? {
      Differs(t, "ss://", if protocol.SOCKS5? then 1 else 0, s);
      if !protocol.Trojan? {
        Differs(t, "trojan://", 0, s);
        if !protocol.SOCKS5? {
          Differs(t, "socks5://", 0, s);
          Differs(t, "socks://", 0, s);
        }
      }
    }
  }

  /** User information and query of a link. */
  function Parts(p: ServerProfile): (Option<User>, Values)
    requires Linkable(p.protocol)
    requires p.transport.Some? ==> !p.transport.value.kind.UnknownTransport?
  {
    match p.protocol
    case VLESS => (Some(User(p.uuid, None)), VLessOptions(StreamQuery(p).value, p))
    case VMess => (Some(User(p.uuid, None)), VMessOptions(StreamQuery(p).value, p))
    case Shadowsocks => (Some(ShadowsocksUser(p)), map[])
    case Trojan => (Some(User(p.password, Some(""))), StreamQuery(p).value)
    case _ => (LoginUser(p), map[])
  }

  lemma LinkIs(p: ServerProfile)
    requires Linkable(p.protocol)
    requires p.transport.Some? ==> !p.transport.value.kind.UnknownTransport?
    ensures Link(p) == Ok(UrlText(SchemeName(p.protocol), Parts(p).0, HostPort(p), Encode(Parts(p).1), p.name))
  {
    var (user, q) := Parts(p);
    var query := Encode(q);
    EmptyQuery();
    assert p.protocol.VLESS? ==> Link(p) == Ok(UrlText("vless", user, HostPort(p), query, p.name));
    assert p.protocol.VMess? ==> Link(p) == Ok(UrlText("vmess", user, HostPort(p), query, p.name));
    assert p.protocol.Trojan? ==> Link(p) == Ok(UrlText("trojan", user, HostPort(p), query, p.name));
    assert p.protocol.Shadowsocks? ==> Link(p) == Ok(UrlText("ss", user, HostPort(p), query, p.name));
  }

  lemma PartsOk(p: ServerProfile)
    requires Bytes(p) && Profile.Valid(p) && Linkable(p.protocol)
    ensures Parts(p).0.Some? ==> UserOk(Parts(p).0.value)
    ensures ByteValues(Parts(p).1)
  {
    match p.protocol {
      case VLESS =>
        StreamQueryOk(p, StreamQuery(p).value);
        VLessValues(p, StreamQuery(p).value, Parts(p).1);
      case VMess =>
        StreamQueryOk(p, StreamQuery(p).value);
        VMessValues(p, StreamQuery(p).value, Parts(p).1);
      case Shadowsocks => ShadowsocksCore(p, ShadowsocksUser(p).name);
      case Trojan => StreamQueryOk(p, StreamQuery(p).value);
      case _ => LoginUserOk(p);
    }
  }

  lemma RestTrip(lib: Lib, p: ServerProfile)
    requires Exportable(lib, p) && Linkable(p.protocol)
    ensures ParseBody(lib, p.protocol, Rest(Parts(p).0, p, Encode(Parts(p).1))) == Ok(Norm(p))
  {
    EmptyQuery();
    match p.protocol {
      case VLESS => VLessTrip(lib, p, StreamQuery(p).value);
      case VMess => VMessTrip(lib, p, StreamQuery(p).value);
      case Shadowsocks => ShadowsocksTrip(lib, p);
      case Trojan => TrojanTrip(lib, p, StreamQuery(p).value);
      case _ => UserPassTrip(lib, p);
    }
  }

  lemma SchemeVisible(protocol: Protocol)
    ensures var s := SchemeName(protocol); s != "" && forall i :: 0 <= i < |s| ==> Visible(s[i])
  {
  }

  lemma Assembled(scheme: string, user: Option<User>, p: ServerProfile, query: string)
    requires p.name != ""
    ensures UrlText(scheme, user, HostPort(p), query, p.name) == scheme + "://" + Rest(user, p, query)
  {
    var core, frag := CoreText(user, HostPort(p), query), Escape(p.name, Fragment);
    assert scheme + "://" + core + ("#" + frag) == scheme + "://" + (core + "#" + frag);
  }

  /** How a link begins and reads as a whole. */
  lemma LinkText(p: ServerProfile, rest: string)
    requires Bytes(p) && Profile.Valid(p) && Linkable(p.protocol)
    requires rest == Rest(Parts(p).0, p, Encode(Parts(p).1))
    ensures Link(p) == Ok(SchemeName(p.protocol) + "://" + rest)
    ensures var s := Link(p).value; Trim(s) == s && forall c :: c in s ==> Visible(c)
  {
    PartsOk(p);
    LinkIs(p);
    var (user, q) := Parts(p);
    QueryValues(q);
    SchemeVisible(p.protocol);
    LinkVisible(SchemeName(p.protocol), user, p, Encode(q));
    assert p.name != "";
    Assembled(SchemeName(p.protocol), user, p, Encode(q));
  }

  lemma BodyIsParsed(lib: Lib, protocol: Protocol, rest: string, r: Result<ServerProfile>)
    requires Linkable(protocol) && ParseBody(lib, protocol, rest) == r
    requires var s := SchemeName(protocol) + "://" + rest; Trim(s) == s
    ensures ParseLink(lib, SchemeName(protocol) + "://" + rest) == r
  {
    var s := SchemeName(protocol) + "://" + rest;
    SchemeReads(protocol, s);
    assert s[|SchemeName(protocol) + "://"|..] == rest;
  }

  /** A link is one visible word that starts with its scheme, and parses to the normal form of the
      profile it was printed from. */
  lemma LinkRoundTrips(lib: Lib, p: ServerProfile)
    requires Exportable(lib, p)
    ensures Link(p).Ok? && ParseLink(lib, Link(p).value) == Ok(Norm(p))
    ensures forall c :: c in Link(p).value ==> Visible(c)
    ensures SchemeName(p.protocol) + "://" <= Link(p).value
  {
    var rest := Rest(Parts(p).0, p, Encode(Parts(p).1));
    RestTrip(lib, p);
    LinkText(p, rest);
    BodyIsParsed(lib, p.protocol, rest, Ok(Norm(p)));
  }
}
