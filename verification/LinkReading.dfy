/** What the parser makes of a link, whoever wrote it (core/server/links.go). Options are named by
    their wire names; their values are arbitrary. */
module LinkReading {
  import opened Options
  import opened Text
  import opened Percent
  import opened Url
  import opened Profile
  import opened Links
  import opened LinkRoundTrip
  import opened LinkNames
  import Base64

  // ---- options ----

  predicate AllPairsOk(ps: seq<Pair>) { forall i :: 0 <= i < |ps| ==> PairOk(ps[i]) }

  predicate IsOn(v: string) {
    var t := ToLower(Trim(v)); t == "1" || t == "true" || t == "yes" || t == "on"
  }

  /** The text of the "type" option, as it is compared. */
  function TypeText(ps: seq<Pair>): string { ToLower(Trim(Lookup(ps, "type"))) }

  /** A transport the parser knows: TCP, without host and path, or WebSocket. */
  predicate TransportKnown(ps: seq<Pair>) {
    || ((TypeText(ps) == "" || TypeText(ps) == "tcp")
        && Trim(Lookup(ps, "host")) == "" && Trim(Lookup(ps, "path")) == "")
    || TypeText(ps) == "ws" || TypeText(ps) == "websocket"
  }

  predicate TransportRead(ps: seq<Pair>, t: Option<TransportConfig>) {
    if TypeText(ps) == "" || TypeText(ps) == "tcp" then t == None
    else t == Some(TransportConfig(WS, Lookup(ps, "path"), Lookup(ps, "host"), 0, ""))
  }

  predicate TlsRead(ps: seq<Pair>, tls: TLSConfig, enabled: bool, fallback: string) {
    if !enabled then tls == TLSConfig(false, false, "", [], "")
    else
      && tls.enabled && tls.fingerprint == Lookup(ps, "fp")
      && (tls.allowInsecure <==> IsOn(Lookup(ps, "allowInsecure")))
      && tls.serverName == (if Trim(Lookup(ps, "sni")) != "" then Trim(Lookup(ps, "sni")) else Trim(fallback))
      && tls.alpn == CleanItems(Split(Lookup(ps, "alpn"), ','))
  }

  /** Every option is read under its wire name. */
  lemma OptionsRead(ps: seq<Pair>, raw: string)
    requires AllPairsOk(ps) && raw == QueryText(ps)
    ensures Get(raw, Security) == Lookup(ps, "security") && Get(raw, Sni) == Lookup(ps, "sni")
    ensures Get(raw, Alpn) == Lookup(ps, "alpn") && Get(raw, Fp) == Lookup(ps, "fp")
    ensures Get(raw, AllowInsecure) == Lookup(ps, "allowInsecure") && Get(raw, TypeKey) == Lookup(ps, "type")
    ensures Get(raw, PathKey) == Lookup(ps, "path") && Get(raw, HostKey) == Lookup(ps, "host")
    ensures Get(raw, PacketEncoding) == Lookup(ps, "packetEncoding")
    ensures Get(raw, Encryption) == Lookup(ps, "encryption") && Get(raw, Flow) == Lookup(ps, "flow")
    ensures Get(raw, GlobalPadding) == Lookup(ps, "global_padding")
  {
    forall p | p in ps ensures PairOk(p) {
      var i :| 0 <= i < |ps| && ps[i] == p;
    }
    QueryTrip(ps);
    WireNames();
  }

  lemma OnIsTruthy(v: string)
    ensures Truthy(v) <==> IsOn(v)
  {
  }

  lemma TransportIsRead(ps: seq<Pair>, r: Result<Option<TransportConfig>>)
    requires r == TransportFromNetwork(Lookup(ps, "type"), Lookup(ps, "host"), Lookup(ps, "path"))
    ensures r.Ok? <==> TransportKnown(ps)
    ensures r.Ok? ==> TransportRead(ps, r.value) && (r.value.Some? ==> r.value.value.kind == WS)
  {
  }

  lemma TlsIsRead(ps: seq<Pair>, enabled: bool, fallback: string, tls: TLSConfig)
    requires tls == TlsFromFields(enabled, Lookup(ps, "sni"), fallback, Lookup(ps, "fp"), Lookup(ps, "alpn"),
                                  Truthy(Lookup(ps, "allowInsecure")))
    ensures TlsRead(ps, tls, enabled, fallback)
  {
    OnIsTruthy(Lookup(ps, "allowInsecure"));
    EmptySplit();
  }

  /** What vless and vmess share. */
  lemma StreamIsRead(ps: seq<Pair>, raw: string, r: Result<ServerProfile>)
    requires AllPairsOk(ps) && raw == QueryText(ps) && r == StreamSettings(raw)
    ensures r.Ok? <==> TransportKnown(ps)
    ensures r.Ok? ==>
      && r.value == BLANK.(transport := r.value.transport, tls := r.value.tls, packetEncoding := r.value.packetEncoding)
      && TransportRead(ps, r.value.transport) && (r.value.transport.Some? ==> r.value.transport.value.kind == WS)
      && TlsRead(ps, r.value.tls, Lookup(ps, "security") == "tls", Lookup(ps, "host"))
      && r.value.packetEncoding == Lookup(ps, "packetEncoding")
  {
    OptionsRead(ps, raw);
    var t := TransportFromNetwork(Lookup(ps, "type"), Lookup(ps, "host"), Lookup(ps, "path"));
    TransportIsRead(ps, t);
    TlsIsRead(ps, Lookup(ps, "security") == "tls", Lookup(ps, "host"),
              TlsFromFields(Lookup(ps, "security") == "tls", Lookup(ps, "sni"), Lookup(ps, "host"), Lookup(ps, "fp"),
                            Lookup(ps, "alpn"), Truthy(Lookup(ps, "allowInsecure"))));
  }

  /** And trojan. */
  lemma TrojanIsRead(ps: seq<Pair>, raw: string, host: string, r: Result<ServerProfile>)
    requires AllPairsOk(ps) && raw == QueryText(ps) && r == TrojanSettings(raw, host)
    ensures r.Ok? <==> TransportKnown(ps)
    ensures r.Ok? ==>
      && r.value == BLANK.(transport := r.value.transport, tls := r.value.tls)
      && TransportRead(ps, r.value.transport) && (r.value.transport.Some? ==> r.value.transport.value.kind == WS)
      && TlsRead(ps, r.value.tls, true, host)
  {
    OptionsRead(ps, raw);
    TransportIsRead(ps, TransportFromNetwork(Lookup(ps, "type"), Lookup(ps, "host"), Lookup(ps, "path")));
    TlsIsRead(ps, true, host, TlsFromFields(true, Lookup(ps, "sni"), host, Lookup(ps, "fp"), Lookup(ps, "alpn"),
                                            Truthy(Lookup(ps, "allowInsecure"))));
  }

  // ---- the profile ----

  /** Name, address and port of a read profile; the name defaults to protocol, address and port. */
  predicate Placed(r: ServerProfile, protocol: Protocol, name: string, host: string, port: nat) {
    && r.protocol == protocol && r.address == Trim(host) && r.port == port
    && r.name == (if Trim(name) != "" then Trim(name) else DefaultName(protocol, Trim(host), port))
  }

  /** The fields `newProfile` takes from the parser. */
  predicate Taken(r: ServerProfile, x: ServerProfile) {
    && r.username == x.username && r.password == x.password && r.cipher == x.cipher && r.uuid == x.uuid
    && r.flow == x.flow && r.security == x.security && r.tls == x.tls && r.transport == x.transport
    && r.globalPadding == x.globalPadding && r.packetEncoding == x.packetEncoding
    && !r.authenticatedLength && r.ssh == SSHConfig("", "", "") && r.reality == None
  }

  /** A place fit for a server. */
  predicate Fit(host: string, port: nat) { Trim(host) != "" && 1 <= port <= 65535 }

  lemma ProfileIsMade(protocol: Protocol, name: string, host: string, port: nat, x: ServerProfile,
                      r: Result<ServerProfile>)
    requires Linkable(protocol) && Fit(host, port) && r == NewProfile(protocol, name, host, port, x)
    requires x.transport.Some? ==> x.transport.value.kind == WS
    ensures r.Ok? <==> CredentialsPresent(x.(protocol := protocol))
    ensures r.Ok? ==> Placed(r.value, protocol, name, host, port) && Taken(r.value, x)
  {
    TrimIsTrimmed(host);
    TrimIsTrimmed(name);
    DefaultNameVisible(protocol, Trim(host), port);
  }

  // ---- what stands before the options ----

  /** Text `rest`, after its scheme, names `name`, and its core parses as `u`, with this host and
      port. */
  predicate Front(lib: Lib, rest: string, name: string, u: Parsed, host: string, port: string) {
    && SplitFragment(rest).0 == name
    && Parse(lib.isIPv6, SplitFragment(rest).1) == Some(u)
    && Trim(u.host) != "" && SplitHostPort(u.host) == (host, port)
  }

  // ---- vless ----

  /** When a vless link is accepted. */
  predicate VLessAccepted(ps: seq<Pair>, uuid: string) {
    && Trim(uuid) != "" && TransportKnown(ps) && Lookup(ps, "security") != "reality"
    && (Lookup(ps, "encryption") == "" || Lookup(ps, "encryption") == "none" || Lookup(ps, "encryption") == "auto")
  }

  predicate VLessRead(r: ServerProfile, ps: seq<Pair>, uuid: string) {
    && r.uuid == uuid && r.flow == Lookup(ps, "flow") && r.packetEncoding == Lookup(ps, "packetEncoding")
    && TransportRead(ps, r.transport) && TlsRead(ps, r.tls, Lookup(ps, "security") == "tls", Lookup(ps, "host"))
    && r.security == "" && r.username == "" && r.password == "" && r.cipher == "" && !r.globalPadding
  }

  /** The parser's cases, with the options already found. */
  lemma VLessCases(lib: Lib, rest: string, u: Parsed, base: Result<ServerProfile>, enc: string, sec: string)
    requires Parse(lib.isIPv6, SplitFragment(rest).1) == Some(u) && u.user.Some? && Trim(u.host) != ""
    requires base == StreamSettings(u.rawQuery)
    requires enc == Get(u.rawQuery, Encryption) && sec == Get(u.rawQuery, Security)
    ensures var r := ParseVLess(lib, rest); var (host, port) := SplitHostPort(u.host);
      if Trim(u.user.value.name) == "" || !VLessEncryption(enc) || sec == "reality" || base.Err?
      then r.Err?
      else r == NewProfile(VLESS, SplitFragment(rest).0, host, PortOr(port, 443),
                           base.value.(uuid := u.user.value.name, flow := Get(u.rawQuery, Flow)))
  {
  }

  lemma VLessIsRead(lib: Lib, rest: string, name: string, u: Parsed, host: string, port: string, ps: seq<Pair>,
                    r: Result<ServerProfile>)
    requires Front(lib, rest, name, u, host, port) && u.user.Some? && Fit(host, PortOr(port, 443))
    requires AllPairsOk(ps) && u.rawQuery == QueryText(ps) && r == ParseVLess(lib, rest)
    ensures r.Ok? <==> VLessAccepted(ps, u.user.value.name)
    ensures r.Ok? ==> Placed(r.value, VLESS, name, host, PortOr(port, 443)) && VLessRead(r.value, ps, u.user.value.name)
  {
    var base := StreamSettings(u.rawQuery);
    OptionsRead(ps, u.rawQuery);
    StreamIsRead(ps, u.rawQuery, base);
    VLessCases(lib, rest, u, base, Lookup(ps, "encryption"), Lookup(ps, "security"));
    VLessMade(name, u.user.value.name, host, PortOr(port, 443), ps, base, r);
  }

  lemma VLessMade(name: string, uuid: string, host: string, port: nat, ps: seq<Pair>, base: Result<ServerProfile>,
                  r: Result<ServerProfile>)
    requires Fit(host, port)
    requires base.Ok? <==> TransportKnown(ps)
    requires base.Ok? ==>
      && base.value == BLANK.(transport := base.value.transport, tls := base.value.tls,
                              packetEncoding := base.value.packetEncoding)
      && TransportRead(ps, base.value.transport)
      && (base.value.transport.Some? ==> base.value.transport.value.kind == WS)
      && TlsRead(ps, base.value.tls, Lookup(ps, "security") == "tls", Lookup(ps, "host"))
      && base.value.packetEncoding == Lookup(ps, "packetEncoding")
    requires var enc := Lookup(ps, "encryption");
      if Trim(uuid) == "" || !VLessEncryption(enc) || Lookup(ps, "security") == "reality" || base.Err?
      then r.Err?
      else r == NewProfile(VLESS, name, host, port, base.value.(uuid := uuid, flow := Lookup(ps, "flow")))
    ensures r.Ok? <==> VLessAccepted(ps, uuid)
    ensures r.Ok? ==> Placed(r.value, VLESS, name, host, port) && VLessRead(r.value, ps, uuid)
  {
    if base.Ok? {
      var x := base.value.(uuid := uuid, flow := Lookup(ps, "flow"));
      ProfileIsMade(VLESS, name, host, port, x, NewProfile(VLESS, name, host, port, x));
    }
  }

  // ---- vmess ----

  predicate VMessAccepted(ps: seq<Pair>, uuid: string) {
    Trim(uuid) != "" && TransportKnown(ps) && Lookup(ps, "security") != "reality"
  }

  predicate VMessRead(r: ServerProfile, ps: seq<Pair>, uuid: string) {
    && r.uuid == uuid && r.flow == "" && r.packetEncoding == Lookup(ps, "packetEncoding")
    && r.security == (if Trim(Lookup(ps, "encryption")) == "" then "auto" else Trim(Lookup(ps, "encryption")))
    && (r.globalPadding <==> IsOn(Lookup(ps, "global_padding")))
    && TransportRead(ps, r.transport) && TlsRead(ps, r.tls, Lookup(ps, "security") == "tls", Lookup(ps, "host"))
    && r.username == "" && r.password == "" && r.cipher == ""
  }

  lemma VMessCases(lib: Lib, rest: string, u: Parsed, base: Result<ServerProfile>, enc: string, sec: string,
                   pad: string)
    requires Parse(lib.isIPv6, SplitFragment(rest).1) == Some(u) && u.user.Some? && Trim(u.host) != ""
    requires base == StreamSettings(u.rawQuery)
    requires enc == Get(u.rawQuery, Encryption) && sec == Get(u.rawQuery, Security)
    requires pad == Get(u.rawQuery, GlobalPadding)
    ensures var r := ParseVMessSIP002(lib, rest); var (host, port) := SplitHostPort(u.host);
      if Trim(u.user.value.name) == "" || sec == "reality" || base.Err? then r.Err?
      else r == NewProfile(VMess, SplitFragment(rest).0, host, PortOr(port, 443),
                           base.value.(uuid := u.user.value.name,
                                       security := if Trim(enc) == "" then "auto" else Trim(enc),
                                       globalPadding := Truthy(pad),
                                       authenticatedLength := Truthy(Get(u.rawQuery, AuthenticatedLength))))
  {
  }

  lemma VMessIsRead(lib: Lib, rest: string, name: string, u: Parsed, host: string, port: string, ps: seq<Pair>,
                    r: Result<ServerProfile>)
    requires Front(lib, rest, name, u, host, port) && u.user.Some? && Fit(host, PortOr(port, 443))
    requires AllPairsOk(ps) && u.rawQuery == QueryText(ps) && r == ParseVMessSIP002(lib, rest)
    ensures r.Ok? <==> VMessAccepted(ps, u.user.value.name)
    ensures r.Ok? ==> Placed(r.value, VMess, name, host, PortOr(port, 443)) && VMessRead(r.value, ps, u.user.value.name)
  {
    var base := StreamSettings(u.rawQuery);
    OptionsRead(ps, u.rawQuery);
    StreamIsRead(ps, u.rawQuery, base);
    VMessCases(lib, rest, u, base, Lookup(ps, "encryption"), Lookup(ps, "security"), Lookup(ps, "global_padding"));
    VMessMade(name, u.user.value.name, host, PortOr(port, 443), ps, base,
              Truthy(Get(u.rawQuery, AuthenticatedLength)), r);
  }

  lemma VMessMade(name: string, uuid: string, host: string, port: nat, ps: seq<Pair>, base: Result<ServerProfile>,
                  length: bool, r: Result<ServerProfile>)
    requires Fit(host, port)
    requires base.Ok? <==> TransportKnown(ps)
    requires base.Ok? ==>
      && base.value == BLANK.(transport := base.value.transport, tls := base.value.tls,
                              packetEncoding := base.value.packetEncoding)
      && TransportRead(ps, base.value.transport)
      && (base.value.transport.Some? ==> base.value.transport.value.kind == WS)
      && TlsRead(ps, base.value.tls, Lookup(ps, "security") == "tls", Lookup(ps, "host"))
      && base.value.packetEncoding == Lookup(ps, "packetEncoding")
    requires var enc := Lookup(ps, "encryption");
      if Trim(uuid) == "" || Lookup(ps, "security") == "reality" || base.Err? then r.Err?
      else r == NewProfile(VMess, name, host, port,
                           base.value.(uuid := uuid, security := if Trim(enc) == "" then "auto" else Trim(enc),
                                       globalPadding := Truthy(Lookup(ps, "global_padding")),
                                       authenticatedLength := length))
    ensures r.Ok? <==> VMessAccepted(ps, uuid)
    ensures r.Ok? ==> Placed(r.value, VMess, name, host, port) && VMessRead(r.value, ps, uuid)
  {
    OnIsTruthy(Lookup(ps, "global_padding"));
    if base.Ok? {
      var enc := Trim(Lookup(ps, "encryption"));
      var x := base.value.(uuid := uuid, security := if enc == "" then "auto" else enc,
                           globalPadding := Truthy(Lookup(ps, "global_padding")), authenticatedLength := length);
      ProfileIsMade(VMess, name, host, port, x, NewProfile(VMess, name, host, port, x));
    }
  }

  // ---- trojan ----

  predicate TrojanRead(r: ServerProfile, ps: seq<Pair>, password: string, host: string) {
    && r.password == password && TransportRead(ps, r.transport) && TlsRead(ps, r.tls, true, host)
    && r.uuid == "" && r.username == "" && r.cipher == "" && r.flow == "" && r.security == ""
    && r.packetEncoding == "" && !r.globalPadding
  }

  lemma TrojanCases(lib: Lib, rest: string, u: Parsed, base: Result<ServerProfile>)
    requires Parse(lib.isIPv6, SplitFragment(rest).1) == Some(u) && u.user.Some? && Trim(u.host) != ""
    requires base == TrojanSettings(u.rawQuery, SplitHostPort(u.host).0)
    ensures var r := ParseTrojan(lib, rest); var (host, port) := SplitHostPort(u.host);
      if u.user.value.name == "" || base.Err? then r.Err?
      else r == NewProfile(Trojan, SplitFragment(rest).0, host, PortOr(port, 443),
                           base.value.(password := u.user.value.name))
  {
  }

  lemma TrojanLinkIsRead(lib: Lib, rest: string, name: string, u: Parsed, host: string, port: string, ps: seq<Pair>,
                         r: Result<ServerProfile>)
    requires Front(lib, rest, name, u, host, port) && u.user.Some? && Fit(host, PortOr(port, 443))
    requires AllPairsOk(ps) && u.rawQuery == QueryText(ps) && r == ParseTrojan(lib, rest)
    ensures r.Ok? <==> u.user.value.name != "" && TransportKnown(ps)
    ensures r.Ok? ==>
      Placed(r.value, Trojan, name, host, PortOr(port, 443)) && TrojanRead(r.value, ps, u.user.value.name, host)
  {
    var base := TrojanSettings(u.rawQuery, host);
    TrojanIsRead(ps, u.rawQuery, host, base);
    TrojanCases(lib, rest, u, base);
    if base.Ok? {
      var x := base.value.(password := u.user.value.name);
      ProfileIsMade(Trojan, name, host, PortOr(port, 443), x, NewProfile(Trojan, name, host, PortOr(port, 443), x));
    }
  }

  // ---- socks5 and http ----

  predicate LoginRead(r: ServerProfile, user: Option<User>) {
    && r.username == (if user.None? then "" else user.value.name)
    && r.password == (if user.None? || user.value.password.None? then "" else user.value.password.value)
    && r.tls == TLSConfig(false, false, "", [], "") && r.transport == None
    && r.uuid == "" && r.cipher == "" && r.flow == "" && r.security == "" && r.packetEncoding == "" && !r.globalPadding
  }

  lemma LoginIsRead(lib: Lib, rest: string, name: string, u: Parsed, host: string, port: string, protocol: Protocol,
                    r: Result<ServerProfile>)
    requires Front(lib, rest, name, u, host, port) && Fit(host, PortOr(port, 1080))
    requires (protocol == SOCKS5 || protocol == HTTP) && r == ParseUserPass(lib, rest, protocol)
    ensures r.Ok? && Placed(r.value, protocol, name, host, PortOr(port, 1080)) && LoginRead(r.value, u.user)
  {
    var password := if u.user.Some? && u.user.value.password.Some? then u.user.value.password.value else "";
    var x := BLANK.(username := Username(u), password := password);
    ProfileIsMade(protocol, name, host, PortOr(port, 1080), x, NewProfile(protocol, name, host, PortOr(port, 1080), x));
  }

  // ---- whole links ----

  /** Host and optional port as a link carries them. */
  function WireHost(host: string, port: Option<nat>): string {
    if port.None? then HostAlone(host) else JoinHostPort(host, Itoa(port.value))
  }

  function PortText(port: Option<nat>): string { if port.None? then "" else Itoa(port.value) }

  function PortFor(port: Option<nat>, fallback: nat): nat { if port.None? then fallback else port.value }

  /** A place a link can name. */
  predicate Reachable(lib: Lib, host: string, port: Option<nat>) {
    IsBytes(host) && Addressable(lib.isIPv6, host) && Trim(host) != "" && (port.Some? ==> 1 <= port.value <= 65535)
  }

  function RestText(user: Option<User>, hp: string, query: string, name: string): string {
    CoreText(user, hp, query) + (if name == "" then "" else "#" + Escape(name, Fragment))
  }

  lemma HostIsFound(lib: Lib, host: string, port: Option<nat>)
    requires Reachable(lib, host, port)
    ensures var hp := WireHost(host, port);
      ParseHost(lib.isIPv6, Escape(hp, Host)) == Some(hp) && SplitHostPort(hp) == (host, PortText(port))
    ensures forall fallback: nat :: PortOr(PortText(port), fallback) == PortFor(port, fallback)
  {
    if port.None? {
      HostAloneTrip(lib.isIPv6, host);
    } else {
      HostTrip(lib.isIPv6, host, Itoa(port.value));
      AtoiItoa(port.value);
    }
  }

  lemma WireHostVisible(host: string, port: Option<nat>)
    requires Trim(host) != ""
    ensures Trim(WireHost(host, port)) != ""
  {
    var hp := WireHost(host, port);
    if port.Some? {
      var t := Itoa(port.value);
      assert hp[|hp| - 1] == t[|t| - 1] && Digit(t[|t| - 1]);
      TrimKeepsVisibleEnd(hp);
    } else if ':' in host {
      TrimKeepsVisibleEnd(hp);
    }
  }

  lemma NameIsFound(core: string, name: string)
    requires '#' !in core && IsBytes(name)
    ensures SplitFragment(core + (if name == "" then "" else "#" + Escape(name, Fragment)))
         == (Trim(PlusToSpace(name)), core)
  {
    if name == "" {
      assert core + "" == core;
      CutMiss(core, '#');
      TrimmedIsFixed("");
    } else {
      var frag := Escape(name, Fragment);
      assert core + ("#" + frag) == core + ['#'] + frag;
      CutAt(core, '#', frag);
      UnescapeFragment(name);
    }
  }

  lemma QueryIsText(ps: seq<Pair>)
    requires AllPairsOk(ps)
    ensures forall c :: c in QueryText(ps) ==> QueryChar(c)
  {
    forall p | p in ps ensures PairOk(p) {
      var i :| 0 <= i < |ps| && ps[i] == p;
    }
    QueryChars(ps);
  }

  lemma TextHasFront(lib: Lib, user: Option<User>, host: string, port: Option<nat>, ps: seq<Pair>, name: string)
    requires (user.Some? ==> UserOk(user.value)) && Reachable(lib, host, port) && AllPairsOk(ps) && IsBytes(name)
    ensures var hp, query := WireHost(host, port), QueryText(ps);
      Front(lib, RestText(user, hp, query, name), Trim(PlusToSpace(name)), Parsed(user, hp, query), host,
            PortText(port))
  {
    var hp, query := WireHost(host, port), QueryText(ps);
    QueryIsText(ps);
    CoreVisible(user, hp, query);
    NameIsFound(CoreText(user, hp, query), name);
    HostIsFound(lib, host, port);
    CoreParses(lib.isIPv6, user, hp, query);
    WireHostVisible(host, port);
  }

  /** The scheme hands the text to its parser. */
  lemma TextIsParsed(lib: Lib, protocol: Protocol, user: Option<User>, hp: string, ps: seq<Pair>, name: string)
    requires Linkable(protocol) && (user.Some? ==> UserOk(user.value)) && AllPairsOk(ps)
    ensures var query := QueryText(ps);
      ParseLink(lib, UrlText(SchemeName(protocol), user, hp, query, name))
      == ParseBody(lib, protocol, RestText(user, hp, query, name))
  {
    var query := QueryText(ps);
    var rest := RestText(user, hp, query, name);
    var text := SchemeName(protocol) + "://" + rest;
    QueryIsText(ps);
    SchemeVisible(protocol);
    TextVisible(SchemeName(protocol), user, hp, query, name);
    assert UrlText(SchemeName(protocol), user, hp, query, name) == text by {
      var tail := if name == "" then "" else "#" + Escape(name, Fragment);
      Url.Regrouped(SchemeName(protocol) + "://", CoreText(user, hp, query), tail);
    }
    BodyIsParsed(lib, protocol, rest, ParseBody(lib, protocol, rest));
  }

  lemma TextVisible(scheme: string, user: Option<User>, hp: string, query: string, name: string)
    requires scheme != "" && forall i :: 0 <= i < |scheme| ==> Visible(scheme[i])
    requires user.Some? ==> UserOk(user.value)
    requires forall c :: c in query ==> QueryChar(c)
    ensures var t := UrlText(scheme, user, hp, query, name); Trim(t) == t
  {
    var t := UrlText(scheme, user, hp, query, name);
    CoreVisible(user, hp, query);
    EscapedText(name, Fragment);
    forall c | c in t ensures Visible(c) {
      if c in Escape(name, Fragment) {
        WrittenIsVisible(c, Fragment);
      }
    }
    assert t[0] in t && t[|t| - 1] in t;
    VisibleEndsAreTrimmed(t);
  }

  lemma VLessTextMeans(lib: Lib, user: User, host: string, port: Option<nat>, ps: seq<Pair>, name: string,
                       r: Result<ServerProfile>)
    requires UserOk(user) && Reachable(lib, host, port) && AllPairsOk(ps) && IsBytes(name)
    requires r == ParseVLess(lib, RestText(Some(user), WireHost(host, port), QueryText(ps), name))
    ensures r.Ok? <==> VLessAccepted(ps, user.name)
    ensures r.Ok? ==>
      && Placed(r.value, VLESS, Trim(PlusToSpace(name)), host, PortFor(port, 443))
      && VLessRead(r.value, ps, user.name)
  {
    var hp, query := WireHost(host, port), QueryText(ps);
    TextHasFront(lib, Some(user), host, port, ps, name);
    HostIsFound(lib, host, port);
    VLessIsRead(lib, RestText(Some(user), hp, query, name), Trim(PlusToSpace(name)), Parsed(Some(user), hp, query),
                host, PortText(port), ps, r);
  }

  /** Any vless link: the options in any order, number and text, the port or the name left out. */
  lemma VLessLinkMeans(lib: Lib, user: User, host: string, port: Option<nat>, ps: seq<Pair>, name: string)
    requires UserOk(user) && Reachable(lib, host, port) && AllPairsOk(ps) && IsBytes(name)
    ensures var r := ParseLink(lib, UrlText("vless", Some(user), WireHost(host, port), QueryText(ps), name));
      && (r.Ok? <==> VLessAccepted(ps, user.name))
      && (r.Ok? ==> Placed(r.value, VLESS, Trim(PlusToSpace(name)), host, PortFor(port, 443))
                    && VLessRead(r.value, ps, user.name))
  {
    var hp := WireHost(host, port);
    TextIsParsed(lib, VLESS, Some(user), hp, ps, name);
    VLessTextMeans(lib, user, host, port, ps, name, ParseVLess(lib, RestText(Some(user), hp, QueryText(ps), name)));
  }

  lemma TextHasAt(lib: Lib, user: User, hp: string, query: string, name: string)
    ensures var rest := RestText(Some(user), hp, query, name);
      ParseBody(lib, VMess, rest) == ParseVMessSIP002(lib, rest)
  {
    var rest := RestText(Some(user), hp, query, name);
    assert rest[|UserText(user)|] == '@';
  }

  lemma VMessTextMeans(lib: Lib, user: User, host: string, port: Option<nat>, ps: seq<Pair>, name: string,
                       r: Result<ServerProfile>)
    requires UserOk(user) && Reachable(lib, host, port) && AllPairsOk(ps) && IsBytes(name)
    requires r == ParseVMessSIP002(lib, RestText(Some(user), WireHost(host, port), QueryText(ps), name))
    ensures r.Ok? <==> VMessAccepted(ps, user.name)
    ensures r.Ok? ==>
      && Placed(r.value, VMess, Trim(PlusToSpace(name)), host, PortFor(port, 443))
      && VMessRead(r.value, ps, user.name)
  {
    var hp, query := WireHost(host, port), QueryText(ps);
    TextHasFront(lib, Some(user), host, port, ps, name);
    HostIsFound(lib, host, port);
    VMessIsRead(lib, RestText(Some(user), hp, query, name), Trim(PlusToSpace(name)), Parsed(Some(user), hp, query),
                host, PortText(port), ps, r);
  }

  /** Any vmess link in URL form. */
  lemma VMessLinkMeans(lib: Lib, user: User, host: string, port: Option<nat>, ps: seq<Pair>, name: string)
    requires UserOk(user) && Reachable(lib, host, port) && AllPairsOk(ps) && IsBytes(name)
    ensures var r := ParseLink(lib, UrlText("vmess", Some(user), WireHost(host, port), QueryText(ps), name));
      && (r.Ok? <==> VMessAccepted(ps, user.name))
      && (r.Ok? ==> Placed(r.value, VMess, Trim(PlusToSpace(name)), host, PortFor(port, 443))
                    && VMessRead(r.value, ps, user.name))
  {
    var hp := WireHost(host, port);
    TextIsParsed(lib, VMess, Some(user), hp, ps, name);
    TextHasAt(lib, user, hp, QueryText(ps), name);
    VMessTextMeans(lib, user, host, port, ps, name,
                   ParseVMessSIP002(lib, RestText(Some(user), hp, QueryText(ps), name)));
  }

  lemma TrojanTextMeans(lib: Lib, user: User, host: string, port: Option<nat>, ps: seq<Pair>, name: string,
                        r: Result<ServerProfile>)
    requires UserOk(user) && Reachable(lib, host, port) && AllPairsOk(ps) && IsBytes(name)
    requires r == ParseTrojan(lib, RestText(Some(user), WireHost(host, port), QueryText(ps), name))
    ensures r.Ok? <==> TransportKnown(ps)
    ensures r.Ok? ==>
      && Placed(r.value, Trojan, Trim(PlusToSpace(name)), host, PortFor(port, 443))
      && TrojanRead(r.value, ps, user.name, host)
  {
    var hp, query := WireHost(host, port), QueryText(ps);
    TextHasFront(lib, Some(user), host, port, ps, name);
    HostIsFound(lib, host, port);
    TrojanLinkIsRead(lib, RestText(Some(user), hp, query, name), Trim(PlusToSpace(name)), Parsed(Some(user), hp, query),
                     host, PortText(port), ps, r);
  }

  /** Any trojan link. */
  lemma TrojanLinkMeans(lib: Lib, user: User, host: string, port: Option<nat>, ps: seq<Pair>, name: string)
    requires UserOk(user) && Reachable(lib, host, port) && AllPairsOk(ps) && IsBytes(name)
    ensures var r := ParseLink(lib, UrlText("trojan", Some(user), WireHost(host, port), QueryText(ps), name));
      && (r.Ok? <==> TransportKnown(ps))
      && (r.Ok? ==> Placed(r.value, Trojan, Trim(PlusToSpace(name)), host, PortFor(port, 443))
                    && TrojanRead(r.value, ps, user.name, host))
  {
    var hp := WireHost(host, port);
    TextIsParsed(lib, Trojan, Some(user), hp, ps, name);
    TrojanTextMeans(lib, user, host, port, ps, name, ParseTrojan(lib, RestText(Some(user), hp, QueryText(ps), name)));
  }

  /** Any socks5 or http link; options are ignored. */
  lemma LoginLinkMeans(lib: Lib, protocol: Protocol, user: Option<User>, host: string, port: Option<nat>, ps: seq<Pair>,
                       name: string)
    requires (protocol == SOCKS5 || protocol == HTTP) && (user.Some? ==> UserOk(user.value))
    requires Reachable(lib, host, port) && AllPairsOk(ps) && IsBytes(name)
    ensures var scheme := if protocol == SOCKS5 then "socks5" else "http";
      var r := ParseLink(lib, UrlText(scheme, user, WireHost(host, port), QueryText(ps), name));
      r.Ok? && Placed(r.value, protocol, Trim(PlusToSpace(name)), host, PortFor(port, 1080)) && LoginRead(r.value, user)
  {
    var hp, query := WireHost(host, port), QueryText(ps);
    var rest := RestText(user, hp, query, name);
    TextHasFront(lib, user, host, port, ps, name);
    HostIsFound(lib, host, port);
    TextIsParsed(lib, protocol, user, hp, ps, name);
    LoginIsRead(lib, rest, Trim(PlusToSpace(name)), Parsed(user, hp, query), host, PortText(port), protocol,
                ParseUserPass(lib, rest, protocol));
  }

  // ---- shadowsocks ----

  /** Base64 text holds no delimiter of a link. */
  lemma {:induction false} Base64Marks(e: Base64.Encoding, s: string)
    ensures var t := Base64.Encode(e, s); '@' !in t && '?' !in t && '#' !in t
    decreases |s|
  {
    if |s| < 3 {
      SymbolMarks(e);
    } else {
      SymbolMarks(e);
      Base64Marks(e, s[3..]);
    }
  }

  lemma SymbolMarks(e: Base64.Encoding)
    ensures forall n: Base64.Sextet ::
      Base64.Symbol(e, n) != '@' && Base64.Symbol(e, n) != '?' && Base64.Symbol(e, n) != '#'
  {
  }

  /** The parts of a shadowsocks link. */
  predicate ShadowsocksFit(cipher: string, password: string, host: string, port: nat) {
    && IsBytes(cipher) && IsBytes(password) && IsBytes(host)
    && cipher != "" && ':' !in cipher && password != "" && Fit(host, port)
    && ':' !in host && '@' !in host && '?' !in host && '#' !in host
  }

  predicate ShadowsocksRead(r: ServerProfile, cipher: string, password: string) {
    && r.cipher == cipher && r.password == password
    && r.username == "" && r.uuid == "" && r.flow == "" && r.security == "" && r.packetEncoding == ""
    && r.tls == TLSConfig(false, false, "", [], "") && r.transport == None && !r.globalPadding
  }

  lemma ShadowsocksIsMade(name: string, cipher: string, password: string, host: string, port: nat)
    requires ShadowsocksFit(cipher, password, host, port)
    ensures var r := ShadowsocksProfile(name, cipher + ":" + password, host, Itoa(port));
      r.Ok? && Placed(r.value, Shadowsocks, name, host, port) && ShadowsocksRead(r.value, cipher, password)
  {
    assert cipher + ":" + password == cipher + [':'] + password;
    CutAt(cipher, ':', password);
    PortReads(port);
    var x := BLANK.(cipher := cipher, password := password);
    ProfileIsMade(Shadowsocks, name, host, port, x, NewProfile(Shadowsocks, name, host, port, x));
  }

  /** What follows '?' in a link, or nothing. */
  function QueryTail(query: Option<string>): string { if query.None? then "" else "?" + query.value }

  lemma QueryIsCut(head: string, query: Option<string>)
    requires '?' !in head
    ensures Cut(head + QueryTail(query), '?').0 == head
    ensures Cut(head + QueryTail(query), '?').1 == if query.None? then "" else query.value
  {
    if query.None? {
      assert head + "" == head;
      CutMiss(head, '?');
    } else {
      assert head + ("?" + query.value) == head + ['?'] + query.value;
      CutAt(head, '?', query.value);
    }
  }

  lemma DigitMarks(n: nat)
    ensures var t := Itoa(n); '@' !in t && '?' !in t && '#' !in t && IsBytes(t) && Visible(t[|t| - 1])
  {
    var t := Itoa(n);
    forall c | c in t ensures Digit(c) {
      var i :| 0 <= i < |t| && t[i] == c;
    }
    DigitsKept(t);
  }

  /** The core of a link: base64 of method and password, '@', host, ':', port and options. */
  function ShadowsocksText(t: string, host: string, port: nat, query: Option<string>): string {
    t + "@" + (host + ":" + Itoa(port)) + QueryTail(query)
  }

  lemma ShadowsocksCoreIsRead(e: Base64.Encoding, cipher: string, password: string, host: string, port: nat,
                              query: Option<string>, rest: string, name: string)
    requires ShadowsocksFit(cipher, password, host, port)
    requires SplitFragment(rest)
          == (name, ShadowsocksText(Base64.Encode(e, cipher + ":" + password), host, port, query))
    ensures var r := ParseShadowsocks(rest);
      if query.Some? && HasPlugin(query.value) then r.Err?
      else r == ShadowsocksProfile(name, cipher + ":" + password, host, Itoa(port))
  {
    var t := Base64.Encode(e, cipher + ":" + password);
    var hp := host + ":" + Itoa(port);
    Base64Marks(e, cipher + ":" + password);
    DigitMarks(port);
    QueryIsCut(t + "@" + hp, query);
    assert t + "@" + hp == t + ['@'] + hp;
    CutLastAt(t, '@', hp);
    assert hp == host + [':'] + Itoa(port);
    CutAt(host, ':', Itoa(port));
    Base64.TryDecodesAll(e, cipher + ":" + password);
    PortReads(port);
    assert !HasPlugin("");
  }

  /** Any shadowsocks link in URL form, in whichever base64: refused exactly for its plugin. */
  lemma ShadowsocksLinkMeans(lib: Lib, e: Base64.Encoding, cipher: string, password: string, host: string, port: nat,
                             query: Option<string>, name: string)
    requires ShadowsocksFit(cipher, password, host, port) && IsBytes(name) && (query.Some? ==> '#' !in query.value)
    requires var core := ShadowsocksText(Base64.Encode(e, cipher + ":" + password), host, port, query);
      var text := "ss" + "://" + (core + NameTail(name)); Trim(text) == text
    ensures var core := ShadowsocksText(Base64.Encode(e, cipher + ":" + password), host, port, query);
      var r := ParseLink(lib, "ss" + "://" + (core + NameTail(name)));
      && (r.Ok? <==> !(query.Some? && HasPlugin(query.value)))
      && (r.Ok? ==> Placed(r.value, Shadowsocks, Trim(PlusToSpace(name)), host, port)
                    && ShadowsocksRead(r.value, cipher, password))
  {
    var core := ShadowsocksText(Base64.Encode(e, cipher + ":" + password), host, port, query);
    ShadowsocksBody(e, cipher, password, host, port, query, name, ParseShadowsocks(core + NameTail(name)));
    ShadowsocksHands(lib, core + NameTail(name), ParseShadowsocks(core + NameTail(name)));
  }

  lemma ShadowsocksHands(lib: Lib, rest: string, r: Result<ServerProfile>)
    requires Trim("ss" + "://" + rest) == "ss" + "://" + rest && r == ParseShadowsocks(rest)
    ensures ParseLink(lib, "ss" + "://" + rest) == r
  {
    SchemeHands(lib, Shadowsocks, rest);
  }

  lemma ShadowsocksBody(e: Base64.Encoding, cipher: string, password: string, host: string, port: nat,
                        query: Option<string>, name: string, r: Result<ServerProfile>)
    requires ShadowsocksFit(cipher, password, host, port) && IsBytes(name) && (query.Some? ==> '#' !in query.value)
    requires var core := ShadowsocksText(Base64.Encode(e, cipher + ":" + password), host, port, query);
      r == ParseShadowsocks(core + NameTail(name))
    ensures r.Ok? <==> !(query.Some? && HasPlugin(query.value))
    ensures r.Ok? ==>
      Placed(r.value, Shadowsocks, Trim(PlusToSpace(name)), host, port) && ShadowsocksRead(r.value, cipher, password)
  {
    var t := Base64.Encode(e, cipher + ":" + password);
    var core := ShadowsocksText(t, host, port, query);
    TextMarks(e, cipher, password, host, port, query);
    NameIsFound(core, name);
    ShadowsocksCoreIsRead(e, cipher, password, host, port, query, core + NameTail(name), Trim(PlusToSpace(name)));
    ShadowsocksIsMade(Trim(PlusToSpace(name)), cipher, password, host, port);
  }

  lemma TextMarks(e: Base64.Encoding, cipher: string, password: string, host: string, port: nat, query: Option<string>)
    requires '#' !in host && (query.Some? ==> '#' !in query.value)
    ensures '#' !in ShadowsocksText(Base64.Encode(e, cipher + ":" + password), host, port, query)
  {
    Base64Marks(e, cipher + ":" + password);
    DigitMarks(port);
  }

  function NameTail(name: string): string { if name == "" then "" else "#" + Escape(name, Fragment) }

  lemma SchemeHands(lib: Lib, protocol: Protocol, rest: string)
    requires Linkable(protocol)
    requires Trim(SchemeName(protocol) + "://" + rest) == SchemeName(protocol) + "://" + rest
    ensures ParseLink(lib, SchemeName(protocol) + "://" + rest) == ParseBody(lib, protocol, rest)
  {
    BodyIsParsed(lib, protocol, rest, ParseBody(lib, protocol, rest));
  }

  /** The legacy form: everything in one base64 text. */
  lemma LegacyLinkMeans(lib: Lib, e: Base64.Encoding, cipher: string, password: string, host: string, port: nat,
                        name: string)
    requires ShadowsocksFit(cipher, password, host, port) && IsBytes(name) && '@' !in cipher && '@' !in password
    ensures var full := cipher + ":" + password + "@" + (host + ":" + Itoa(port));
      var r := ParseLink(lib, "ss" + "://" + (Base64.Encode(e, full) + NameTail(name)));
      && r.Ok? && Placed(r.value, Shadowsocks, Trim(PlusToSpace(name)), host, port)
      && ShadowsocksRead(r.value, cipher, password)
  {
    var full := cipher + ":" + password + "@" + (host + ":" + Itoa(port));
    var core := Base64.Encode(e, full);
    LegacyBody(e, cipher + ":" + password, host, port, full, name);
    ShadowsocksIsMade(Trim(PlusToSpace(name)), cipher, password, host, port);
    LegacyVisible(e, full, name);
    ShadowsocksHands(lib, core + NameTail(name), ParseShadowsocks(core + NameTail(name)));
  }

  lemma LegacyBody(e: Base64.Encoding, mp: string, host: string, port: nat, full: string, name: string)
    requires '@' !in mp && ':' !in host && IsBytes(mp) && IsBytes(host) && IsBytes(name)
    requires full == mp + "@" + (host + ":" + Itoa(port))
    ensures ParseShadowsocks(Base64.Encode(e, full) + NameTail(name))
         == ShadowsocksProfile(Trim(PlusToSpace(name)), mp, host, Itoa(port))
  {
    var core := Base64.Encode(e, full);
    Base64Marks(e, full);
    DigitMarks(port);
    NameIsFound(core, name);
    assert IsBytes(full);
    Base64.TryDecodesAll(e, full);
    LegacyCuts(mp, host, Itoa(port), full);
    LegacyCoreIsRead(core, full, mp, host, Itoa(port), core + NameTail(name), Trim(PlusToSpace(name)));
  }

  lemma LegacyVisible(e: Base64.Encoding, full: string, name: string)
    requires full != ""
    ensures var s := "ss" + "://" + (Base64.Encode(e, full) + NameTail(name)); Trim(s) == s
  {
    var t, tail := Base64.Encode(e, full), NameTail(name);
    var s := "ss" + "://" + (t + tail);
    Base64.EncodedText(e, full);
    EscapedText(name, Fragment);
    if tail == "" {
      assert s[|s| - 1] == t[|t| - 1];
    } else {
      var last := tail[|tail| - 1];
      assert s[|s| - 1] == last && last in Escape(name, Fragment);
      WrittenIsVisible(last, Fragment);
    }
    VisibleEndsAreTrimmed(s);
  }

  lemma LegacyCoreIsRead(core: string, full: string, mp: string, host: string, port: string, rest: string, name: string)
    requires '?' !in core && '@' !in core && Base64.TryDecode(core) == Some(full)
    requires SplitFragment(rest) == (name, core)
    requires Cut(full, '@') == (mp, host + ":" + port, true) && Cut(host + ":" + port, ':') == (host, port, true)
    ensures ParseShadowsocks(rest) == ShadowsocksProfile(name, mp, host, port)
  {
    CutMiss(core, '?');
    CutLastMiss(core, '@');
  }

  lemma LegacyCuts(mp: string, host: string, port: string, full: string)
    requires '@' !in mp && ':' !in host && full == mp + "@" + (host + ":" + port)
    ensures Cut(full, '@') == (mp, host + ":" + port, true) && Cut(host + ":" + port, ':') == (host, port, true)
  {
    assert full == mp + ['@'] + (host + ":" + port);
    CutAt(mp, '@', host + ":" + port);
    assert host + ":" + port == host + [':'] + port;
    CutAt(host, ':', port);
  }

  // ---- classic vmess ----

  /** When a classic body is accepted. */
  predicate ClassicAccepted(vm: VMessBody) {
    && Trim(vm.add) != "" && Trim(vm.id) != "" && ParsePort(vm.port).Some? && vm.tls != "reality"
    && var t := ToLower(Trim(vm.net));
    || ((t == "" || t == "tcp") && Trim(vm.host) == "" && Trim(vm.path) == "") || t == "ws" || t == "websocket"
  }

  predicate ClassicRead(r: ServerProfile, vm: VMessBody) {
    && r.uuid == Trim(vm.id) && r.security == vm.scy && r.packetEncoding == vm.packetEncoding
    && r.globalPadding == vm.globalPadding && r.flow == "" && r.username == "" && r.password == "" && r.cipher == ""
    && r.transport == (var t := ToLower(Trim(vm.net));
                       if t == "" || t == "tcp" then None else Some(TransportConfig(WS, vm.path, vm.host, 0, "")))
    && (if vm.tls != "tls" then r.tls == TLSConfig(false, false, "", [], "")
        else
          && r.tls.enabled && r.tls.allowInsecure == vm.allowInsecure && r.tls.fingerprint == vm.fp
          && r.tls.serverName == (if Trim(vm.sni) != "" then Trim(vm.sni) else Trim(vm.host))
          && r.tls.alpn == CleanItems(Split(vm.alpn, ',')))
  }

  lemma ClassicTransport(vm: VMessBody, r: Result<Option<TransportConfig>>)
    requires r == TransportFromNetwork(vm.net, vm.host, vm.path)
    ensures var t := ToLower(Trim(vm.net));
      && (r.Ok? <==>
            || ((t == "" || t == "tcp") && Trim(vm.host) == "" && Trim(vm.path) == "") || t == "ws" || t == "websocket")
      && (r.Ok? ==>
            r.value == if t == "" || t == "tcp" then None else Some(TransportConfig(WS, vm.path, vm.host, 0, "")))
  {
  }

  lemma ClassicIsRead(vm: VMessBody, r: Result<ServerProfile>)
    requires r == ClassicVMess(vm)
    ensures r.Ok? <==> ClassicAccepted(vm)
    ensures r.Ok? ==> Placed(r.value, VMess, vm.ps, vm.add, ParsePort(vm.port).value) && ClassicRead(r.value, vm)
  {
    var transport := TransportFromNetwork(vm.net, vm.host, vm.path);
    var tls := TlsFromFields(vm.tls == "tls", vm.sni, vm.host, vm.fp, vm.alpn, vm.allowInsecure);
    ClassicTransport(vm, transport);
    ClassicCases(vm, transport, tls);
    ClassicTls(vm, tls);
    if Trim(vm.add) != "" && Trim(vm.id) != "" && ParsePort(vm.port).Some? && vm.tls != "reality" && transport.Ok? {
      TrimIsTrimmed(vm.id);
      var x := ClassicExtra(vm, transport.value, tls);
      ProfileIsMade(VMess, vm.ps, vm.add, ParsePort(vm.port).value, x,
                    NewProfile(VMess, vm.ps, vm.add, ParsePort(vm.port).value, x));
    }
  }

  function ClassicExtra(vm: VMessBody, transport: Option<TransportConfig>, tls: TLSConfig): ServerProfile {
    BLANK.(uuid := Trim(vm.id), transport := transport, tls := tls, globalPadding := vm.globalPadding,
           packetEncoding := vm.packetEncoding, security := vm.scy)
  }

  lemma ClassicTls(vm: VMessBody, tls: TLSConfig)
    requires tls == TlsFromFields(vm.tls == "tls", vm.sni, vm.host, vm.fp, vm.alpn, vm.allowInsecure)
    ensures if vm.tls != "tls" then tls == TLSConfig(false, false, "", [], "")
      else
        && tls.enabled && tls.allowInsecure == vm.allowInsecure && tls.fingerprint == vm.fp
        && tls.serverName == (if Trim(vm.sni) != "" then Trim(vm.sni) else Trim(vm.host))
        && tls.alpn == CleanItems(Split(vm.alpn, ','))
  {
    EmptySplit();
  }

  lemma ClassicCases(vm: VMessBody, transport: Result<Option<TransportConfig>>, tls: TLSConfig)
    requires transport == TransportFromNetwork(vm.net, vm.host, vm.path)
    requires tls == TlsFromFields(vm.tls == "tls", vm.sni, vm.host, vm.fp, vm.alpn, vm.allowInsecure)
    ensures var r := ClassicVMess(vm);
      if Trim(vm.add) == "" || Trim(vm.id) == "" || ParsePort(vm.port).None? || vm.tls == "reality" || transport.Err?
      then r.Err?
      else r == NewProfile(VMess, vm.ps, vm.add, ParsePort(vm.port).value, ClassicExtra(vm, transport.value, tls))
  {
  }

  /** Any classic vmess link, in whichever base64. */
  lemma ClassicLinkMeans(lib: Lib, e: Base64.Encoding, raw: string, vm: VMessBody)
    requires IsBytes(raw) && raw != "" && lib.vmessBody(raw) == Some(vm)
    ensures var r := ParseLink(lib, "vmess" + "://" + Base64.Encode(e, raw));
      && (r.Ok? <==> ClassicAccepted(vm))
      && (r.Ok? ==> Placed(r.value, VMess, vm.ps, vm.add, ParsePort(vm.port).value) && ClassicRead(r.value, vm))
  {
    var t := Base64.Encode(e, raw);
    Base64Marks(e, raw);
    Base64.EncodedText(e, raw);
    VisibleEndsAreTrimmed(t);
    var s := "vmess" + "://" + t;
    assert s[|s| - 1] == t[|t| - 1];
    VisibleEndsAreTrimmed(s);
    SchemeHands(lib, VMess, t);
    Base64.TryDecodesAll(e, raw);
    ClassicBody(lib, t, raw, vm);
    ClassicIsRead(vm, ClassicVMess(vm));
  }

  lemma ClassicBody(lib: Lib, t: string, raw: string, vm: VMessBody)
    requires '@' !in t && Trim(t) == t && Base64.TryDecode(t) == Some(raw) && lib.vmessBody(raw) == Some(vm)
    ensures ParseBody(lib, VMess, t) == ClassicVMess(vm)
  {
  }

  /** "socks://" is read as "socks5://" is. */
  lemma SocksAlias(lib: Lib, rest: string)
    requires Trim("socks" + "://" + rest) == "socks" + "://" + rest
    ensures ParseLink(lib, "socks" + "://" + rest) == ParseUserPass(lib, rest, SOCKS5)
  {
    var s := "socks" + "://" + rest;
    assert "socks" + "://" == "socks://";
    Differs("socks://", "vmess://", 0, s);
    Differs("socks://", "vless://", 0, s);
    Differs("socks://", "ss://", 1, s);
    Differs("socks://", "trojan://", 0, s);
    Differs("socks://", "socks5://", 5, s);
    assert s[|"socks://"|..] == rest;
  }
}
