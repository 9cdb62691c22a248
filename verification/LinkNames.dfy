/** The wire names of link options (core/server/linkgen.go, core/server/links.go): under which names
    the printer writes a profile's settings, and what the parser makes of options found under those
    names, whoever wrote them. Every name stands here as it stands on the wire. */
module LinkNames {
  import opened Options
  import opened Text
  import opened Percent
  import opened Url
  import opened Profile
  import opened Links
  import opened LinkRoundTrip
  import Base64

  // ---- what the printer writes ----

  /** The options of a link: what stands between '?' and '#'. */
  function QueryOf(link: string): seq<Pair> { ParseQuery(Cut(Cut(link, '#').0, '?').1) }

  lemma HeadOfText(head: string, name: string)
    requires '#' !in head
    ensures Cut(head + (if name == "" then "" else "#" + Escape(name, Fragment)), '#').0 == head
  {
    if name == "" {
      assert head + "" == head;
      CutMiss(head, '#');
    } else {
      assert head + ("#" + Escape(name, Fragment)) == head + ['#'] + Escape(name, Fragment);
      CutAt(head, '#', Escape(name, Fragment));
    }
  }

  lemma QueryOfText(scheme: string, user: Option<User>, host: string, query: string, name: string)
    requires '#' !in scheme && '?' !in scheme
    requires user.Some? ==> UserOk(user.value)
    requires forall c :: c in query ==> QueryChar(c)
    ensures QueryOf(UrlText(scheme, user, host, query, name)) == ParseQuery(query)
  {
    var head := scheme + "://" + CoreText(user, host, query);
    CoreVisible(user, host, query);
    assert '#' !in CoreText(user, host, query) && '#' !in "://" && '#' !in head;
    HeadOfText(head, name);
    HeadQuery(scheme, user, host, query);
  }

  lemma AuthorityText(user: Option<User>, host: string)
    requires user.Some? ==> UserOk(user.value)
    ensures '?' !in (if user.Some? then UserText(user.value) + "@" else "") + Escape(host, Host)
  {
    EscapedText(host, Host);
    forall c | c in Escape(host, Host) ensures c != '?' {
      WrittenIsVisible(c, Host);
    }
    if user.Some? {
      UserPlain(user.value);
    }
  }

  lemma QueryAfter(front: string, query: string)
    requires '?' !in front
    ensures Cut(front + (if query == "" then "" else "?" + query), '?').1 == query
  {
    if query == "" {
      assert front + "" == front;
      CutMiss(front, '?');
    } else {
      assert front + ("?" + query) == front + ['?'] + query;
      CutAt(front, '?', query);
    }
  }

  lemma HeadQuery(scheme: string, user: Option<User>, host: string, query: string)
    requires '?' !in scheme && (user.Some? ==> UserOk(user.value))
    ensures Cut(scheme + "://" + CoreText(user, host, query), '?').1 == query
  {
    var auth := (if user.Some? then UserText(user.value) + "@" else "") + Escape(host, Host);
    var tail := if query == "" then "" else "?" + query;
    AuthorityText(user, host);
    assert '?' !in "://";
    Regrouped(scheme + "://", auth, tail);
    QueryAfter(scheme + "://" + auth, query);
  }

  /** The literal name of each option. */
  lemma WireNames()
    ensures KeyText(Security) == "security" && KeyText(Sni) == "sni" && KeyText(Alpn) == "alpn" && KeyText(Fp) == "fp"
    ensures KeyText(AllowInsecure) == "allowInsecure" && KeyText(TypeKey) == "type" && KeyText(PathKey) == "path"
    ensures KeyText(HostKey) == "host" && KeyText(PacketEncoding) == "packetEncoding"
    ensures KeyText(Encryption) == "encryption" && KeyText(Flow) == "flow"
    ensures KeyText(GlobalPadding) == "global_padding" && KeyText(AuthenticatedLength) == "authenticated_length"
  {
  }

  /** The TLS settings of `p` stand under their names. */
  predicate TlsPrinted(ps: seq<Pair>, tls: TLSConfig) {
    && Lookup(ps, "security") == (if tls.enabled then "tls" else "none")
    && Lookup(ps, "sni") == tls.serverName
    && Lookup(ps, "alpn") == Join(tls.alpn, ',')
    && Lookup(ps, "fp") == tls.fingerprint
    && Lookup(ps, "allowInsecure") == (if tls.allowInsecure then "1" else "")
  }

  /** So do those of its transport: a WebSocket by its type, plain TCP by the absence of all three. */
  predicate TransportPrinted(ps: seq<Pair>, t: Option<TransportConfig>) {
    if t.Some? && t.value.kind == WS then
      Lookup(ps, "type") == "ws" && Lookup(ps, "path") == t.value.path && Lookup(ps, "host") == t.value.host
    else
      Lookup(ps, "type") == "" && Lookup(ps, "path") == "" && Lookup(ps, "host") == ""
  }

  predicate StreamPrinted(ps: seq<Pair>, p: ServerProfile) {
    TlsPrinted(ps, p.tls) && TransportPrinted(ps, p.transport) && Lookup(ps, "packetEncoding") == p.packetEncoding
  }

  lemma CarriedIsPrinted(q: Values, p: ServerProfile, ps: seq<Pair>)
    requires Carries(q, p) && ByteValues(q) && ps == ParseQuery(Encode(q))
    ensures StreamPrinted(ps, p)
    ensures Lookup(ps, "encryption") == ValueOf(q, Encryption) && Lookup(ps, "flow") == ValueOf(q, Flow)
    ensures Lookup(ps, "global_padding") == ValueOf(q, GlobalPadding)
    ensures Lookup(ps, "authenticated_length") == ValueOf(q, AuthenticatedLength)
  {
    WireNames();
    QueryValues(q);
    NamedValues(q, ps);
  }

  lemma NamedValues(q: Values, ps: seq<Pair>)
    requires forall k :: Lookup(ps, KeyText(k)) == ValueOf(q, k)
    ensures Lookup(ps, "security") == ValueOf(q, Security) && Lookup(ps, "sni") == ValueOf(q, Sni)
    ensures Lookup(ps, "alpn") == ValueOf(q, Alpn) && Lookup(ps, "fp") == ValueOf(q, Fp)
    ensures Lookup(ps, "allowInsecure") == ValueOf(q, AllowInsecure) && Lookup(ps, "type") == ValueOf(q, TypeKey)
    ensures Lookup(ps, "path") == ValueOf(q, PathKey) && Lookup(ps, "host") == ValueOf(q, HostKey)
    ensures Lookup(ps, "packetEncoding") == ValueOf(q, PacketEncoding)
    ensures Lookup(ps, "encryption") == ValueOf(q, Encryption) && Lookup(ps, "flow") == ValueOf(q, Flow)
    ensures Lookup(ps, "global_padding") == ValueOf(q, GlobalPadding)
    ensures Lookup(ps, "authenticated_length") == ValueOf(q, AuthenticatedLength)
  {
    WireNames();
    assert Lookup(ps, KeyText(Security)) == ValueOf(q, Security) && Lookup(ps, KeyText(Sni)) == ValueOf(q, Sni);
    assert Lookup(ps, KeyText(Alpn)) == ValueOf(q, Alpn) && Lookup(ps, KeyText(Fp)) == ValueOf(q, Fp);
    assert Lookup(ps, KeyText(AllowInsecure)) == ValueOf(q, AllowInsecure);
    assert Lookup(ps, KeyText(TypeKey)) == ValueOf(q, TypeKey) && Lookup(ps, KeyText(PathKey)) == ValueOf(q, PathKey);
    assert Lookup(ps, KeyText(HostKey)) == ValueOf(q, HostKey);
    assert Lookup(ps, KeyText(PacketEncoding)) == ValueOf(q, PacketEncoding);
    assert Lookup(ps, KeyText(Encryption)) == ValueOf(q, Encryption) && Lookup(ps, KeyText(Flow)) == ValueOf(q, Flow);
    assert Lookup(ps, KeyText(GlobalPadding)) == ValueOf(q, GlobalPadding);
    assert Lookup(ps, KeyText(AuthenticatedLength)) == ValueOf(q, AuthenticatedLength);
  }

  /** What a link of `p` says, option by option. */
  predicate OptionsPrinted(ps: seq<Pair>, p: ServerProfile) {
    match p.protocol
    case VLESS =>
      && StreamPrinted(ps, p)
      && Lookup(ps, "encryption") == "none" && Lookup(ps, "flow") == p.flow
      && Lookup(ps, "global_padding") == "" && Lookup(ps, "authenticated_length") == ""
    case VMess =>
      && StreamPrinted(ps, p)
      && Lookup(ps, "encryption") == (if p.security == "" then "auto" else p.security) && Lookup(ps, "flow") == ""
      && Lookup(ps, "global_padding") == (if p.globalPadding then "1" else "")
      && Lookup(ps, "authenticated_length") == (if p.authenticatedLength then "1" else "")
    case Trojan => StreamPrinted(ps, p) && Lookup(ps, "encryption") == "" && Lookup(ps, "flow") == ""
    case _ => ps == []
  }

  lemma VLessFlags(p: ServerProfile, base: Values, q: Values)
    requires q == VLessOptions(base, p) && GlobalPadding !in base && AuthenticatedLength !in base
    ensures ValueOf(q, GlobalPadding) == "" && ValueOf(q, AuthenticatedLength) == ""
  {
  }

  lemma StreamHasNone(base: Values)
    requires forall k :: k in base ==> StreamKey(k) || k.PacketEncoding?
    ensures Encryption !in base && Flow !in base && GlobalPadding !in base && AuthenticatedLength !in base
  {
  }

  lemma VLessOptionsPrinted(p: ServerProfile, base: Values, q: Values)
    requires Bytes(p) && p.protocol.VLESS? && StreamQuery(p) == Some(base) && q == VLessOptions(base, p)
    ensures ByteValues(q) && OptionsPrinted(ParseQuery(Encode(q)), p)
  {
    StreamQueryOk(p, base);
    StreamValues(p, base);
    StreamHasNone(base);
    VLessValues(p, base, q);
    VLessFlags(p, base, q);
    CarriedIsPrinted(q, p, ParseQuery(Encode(q)));
  }

  lemma VMessFlags(p: ServerProfile, base: Values, q: Values)
    requires q == VMessOptions(base, p) && Flow !in base && AuthenticatedLength !in base
    ensures ValueOf(q, Flow) == "" && ValueOf(q, AuthenticatedLength) == if p.authenticatedLength then "1" else ""
  {
  }

  lemma VMessOptionsPrinted(p: ServerProfile, base: Values, q: Values)
    requires Bytes(p) && p.protocol.VMess? && StreamQuery(p) == Some(base) && q == VMessOptions(base, p)
    ensures ByteValues(q) && OptionsPrinted(ParseQuery(Encode(q)), p)
  {
    StreamQueryOk(p, base);
    StreamValues(p, base);
    StreamHasNone(base);
    VMessValues(p, base, q);
    VMessFlags(p, base, q);
    CarriedIsPrinted(q, p, ParseQuery(Encode(q)));
  }

  lemma TrojanOptionsPrinted(p: ServerProfile, q: Values)
    requires Bytes(p) && p.protocol.Trojan? && StreamQuery(p) == Some(q)
    ensures ByteValues(q) && OptionsPrinted(ParseQuery(Encode(q)), p)
  {
    StreamQueryOk(p, q);
    StreamValues(p, q);
    StreamHasNone(q);
    CarriedIsPrinted(q, p, ParseQuery(Encode(q)));
  }

  lemma PartsPrinted(p: ServerProfile)
    requires Printable(p) && Linkable(p.protocol)
    ensures ByteValues(Parts(p).1) && OptionsPrinted(ParseQuery(Encode(Parts(p).1)), p)
  {
    match p.protocol {
      case VLESS => VLessOptionsPrinted(p, StreamQuery(p).value, Parts(p).1);
      case VMess => VMessOptionsPrinted(p, StreamQuery(p).value, Parts(p).1);
      case Trojan => TrojanOptionsPrinted(p, Parts(p).1);
      case _ => EmptyQuery();
    }
  }

  lemma SchemeMarks(protocol: Protocol)
    ensures '#' !in SchemeName(protocol) && '?' !in SchemeName(protocol)
  {
  }

  /** Every printed link has exactly the profile's settings under their wire names. */
  lemma LinkOptions(p: ServerProfile)
    requires Printable(p)
    ensures Link(p).Ok? && OptionsPrinted(QueryOf(Link(p).value), p)
  {
    LinkIs(p);
    PartsOk(p);
    PartsPrinted(p);
    var (user, q) := Parts(p);
    QueryValues(q);
    SchemeMarks(p.protocol);
    QueryOfText(SchemeName(p.protocol), user, HostPort(p), Encode(q), p.name);
  }

  /** How a link starts: scheme, user information, host and port. */
  function WireFront(p: ServerProfile): string
    requires p.port >= 0
  {
    var host := if ':' in p.address then "[" + p.address + "]" else p.address;
    var at := Escape(host + ":" + Itoa(p.port), Host);
    match p.protocol
    case VLESS => "vless" + "://" + Escape(p.uuid, UserInfo) + "@" + at
    case VMess => "vmess" + "://" + Escape(p.uuid, UserInfo) + "@" + at
    case Trojan => "trojan" + "://" + Escape(p.password, UserInfo) + ":@" + at
    case Shadowsocks => "ss" + "://" + Base64.Encode(Base64.RAW_URL, p.cipher + ":" + p.password) + "@" + at
    case SOCKS5 => "socks5" + "://" + WireLogin(p) + at
    case _ => "http" + "://" + WireLogin(p) + at
  }

  /** A password without a user name is not printed. */
  function WireLogin(p: ServerProfile): string {
    if p.username == "" then ""
    else if p.password == "" then Escape(p.username, UserInfo) + "@"
    else Escape(p.username, UserInfo) + ":" + Escape(p.password, UserInfo) + "@"
  }

  /** And how it ends. */
  lemma LinkFrame(p: ServerProfile)
    requires Printable(p)
    ensures Link(p).Ok? && WireFront(p) <= Link(p).value
    ensures var tail := "#" + Escape(p.name, Fragment);
      |tail| <= |Link(p).value| && Link(p).value[|Link(p).value| - |tail|..] == tail
  {
    LinkIs(p);
    FrontIsPrinted(p);
    assert p.name != "";
    TextFrame(SchemeName(p.protocol), Parts(p).0, HostPort(p), Encode(Parts(p).1), p.name);
  }

  lemma Framed(front: string, mid: string, tail: string)
    ensures var t := front + mid + tail; front <= t && |tail| <= |t| && t[|t| - |tail|..] == tail
  {
  }

  lemma TextFrame(scheme: string, user: Option<User>, host: string, query: string, name: string)
    requires name != ""
    ensures var t := UrlText(scheme, user, host, query, name); var tail := "#" + Escape(name, Fragment);
      && UrlFront(scheme, user, host) <= t
      && |tail| <= |t| && t[|t| - |tail|..] == tail
  {
    var auth := (if user.Some? then UserText(user.value) + "@" else "") + Escape(host, Host);
    var q := if query == "" then "" else "?" + query;
    Regrouped(scheme + "://", auth, q);
    Framed(scheme + "://" + auth, q, "#" + Escape(name, Fragment));
  }

  /** The user information of a link. */
  function UserOf(p: ServerProfile): Option<User> {
    match p.protocol
    case VLESS => Some(User(p.uuid, None))
    case VMess => Some(User(p.uuid, None))
    case Shadowsocks => Some(ShadowsocksUser(p))
    case Trojan => Some(User(p.password, Some("")))
    case _ => LoginUser(p)
  }

  lemma UserOfParts(p: ServerProfile)
    requires Printable(p)
    ensures Linkable(p.protocol) && Parts(p).0 == UserOf(p)
  {
  }

  lemma HostPortText(p: ServerProfile)
    requires p.port >= 0
    ensures HostPort(p) == (if ':' in p.address then "[" + p.address + "]" else p.address) + ":" + Itoa(p.port)
  {
    if ':' in p.address {
      assert "[" + p.address + "]:" + Itoa(p.port) == "[" + p.address + "]" + ":" + Itoa(p.port);
    }
  }

  lemma FrontIsPrinted(p: ServerProfile)
    requires Printable(p)
    ensures Linkable(p.protocol)
    ensures WireFront(p) == UrlFront(SchemeName(p.protocol), Parts(p).0, HostPort(p))
  {
    UserOfParts(p);
    HostPortText(p);
    FrontText(p, UserOf(p), HostPort(p));
  }

  /** The front of a URL, as the printer assembles it. */
  function UrlFront(scheme: string, user: Option<User>, host: string): string {
    scheme + "://" + ((if user.Some? then UserText(user.value) + "@" else "") + Escape(host, Host))
  }

  lemma FrontText(p: ServerProfile, user: Option<User>, host: string)
    requires Linkable(p.protocol) && p.port >= 0 && CredentialsPresent(p) && user == UserOf(p)
    requires host == (if ':' in p.address then "[" + p.address + "]" else p.address) + ":" + Itoa(p.port)
    ensures WireFront(p) == UrlFront(SchemeName(p.protocol), user, host)
  {
    match p.protocol {
      case VLESS => PlainUserFront("vless", p.uuid, host);
      case VMess => PlainUserFront("vmess", p.uuid, host);
      case Trojan => TrojanFrontText(p.password, host);
      case Shadowsocks => ShadowsocksFront(p, host);
      case SOCKS5 => LoginFront("socks5", p, host);
      case _ => LoginFront("http", p, host);
    }
  }

  lemma ShadowsocksFront(p: ServerProfile, host: string)
    requires p.cipher != ""
    ensures UrlFront("ss", Some(ShadowsocksUser(p)), host)
         == "ss" + "://" + Base64.Encode(Base64.RAW_URL, p.cipher + ":" + p.password) + "@" + Escape(host, Host)
  {
    EncodedKept(p.cipher + ":" + p.password);
    Base64.EncodedText(Base64.RAW_URL, p.cipher + ":" + p.password);
    EscapeKept(ShadowsocksUser(p).name, UserInfo);
    PlainUserFront("ss", ShadowsocksUser(p).name, host);
  }

  lemma PlainUserFront(scheme: string, name: string, host: string)
    requires name != ""
    ensures UrlFront(scheme, Some(User(name, None)), host)
         == scheme + "://" + Escape(name, UserInfo) + "@" + Escape(host, Host)
  {
    assert UserText(User(name, None)) == Escape(name, UserInfo) + "" == Escape(name, UserInfo);
  }

  lemma TrojanFrontText(password: string, host: string)
    requires password != ""
    ensures UrlFront("trojan", Some(User(password, Some(""))), host)
         == "trojan" + "://" + Escape(password, UserInfo) + ":@" + Escape(host, Host)
  {
    assert UserText(User(password, Some(""))) == Escape(password, UserInfo) + (":" + "");
  }

  lemma LoginFront(scheme: string, p: ServerProfile, host: string)
    ensures UrlFront(scheme, LoginUser(p), host) == scheme + "://" + WireLogin(p) + Escape(host, Host)
  {
    var user := LoginUser(p);
    if user.Some? {
      assert UserText(user.value) + "@" == WireLogin(p);
    }
  }
}
