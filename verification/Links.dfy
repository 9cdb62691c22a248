/** Share links: printing a profile (core/server/linkgen.go) and parsing it back
    (core/server/links.go). */
module Links {
  import opened Options
  import opened Text
  import opened Percent
  import opened Url
  import opened Profile
  import Base64
  import Rows

  /** The JSON body of a classic vmess link; `port` is the text its number or string stands for. */
  datatype VMessBody = VMessBody(
    ps: string, add: string, port: string, id: string, scy: string, net: string, host: string, path: string,
    tls: string, sni: string, fp: string, alpn: string, allowInsecure: bool, globalPadding: bool,
    packetEncoding: string)

  /** What the parser takes from libraries outside the model: the IPv6 test of net/url and the JSON
      decoding of classic vmess bodies. */
  datatype Lib = Lib(isIPv6: IPv6, vmessBody: string -> Option<VMessBody>)

  // ---- query keys ----

  datatype Key =
    | AllowInsecure | Alpn | AuthenticatedLength | Encryption | Flow | Fp | GlobalPadding
    | HostKey | PacketEncoding | PathKey | Security | Sni | TypeKey

  function KeyText(k: Key): string {
    match k
    case AllowInsecure => "allowInsecure"
    case Alpn => "alpn"
    case AuthenticatedLength => "authenticated_length"
    case Encryption => "encryption"
    case Flow => "flow"
    case Fp => "fp"
    case GlobalPadding => "global_padding"
    case HostKey => "host"
    case PacketEncoding => "packetEncoding"
    case PathKey => "path"
    case Security => "security"
    case Sni => "sni"
    case TypeKey => "type"
  }

  /** The order in which `Values.Encode` writes them: ascending. */
  const KEY_ORDER: seq<Key> := [
    AllowInsecure, Alpn, AuthenticatedLength, Encryption, Flow, Fp, GlobalPadding,
    HostKey, PacketEncoding, PathKey, Security, Sni, TypeKey]

  type Values = map<Key, string>

  function Pairs(keys: seq<Key>, q: Values): seq<Pair> {
    if keys == [] then []
    else (if keys[0] in q then [Pair(KeyText(keys[0]), q[keys[0]])] else []) + Pairs(keys[1..], q)
  }

  function Encode(q: Values): string { QueryText(Pairs(KEY_ORDER, q)) }

  function ValueOf(q: Values, k: Key): string { if k in q then q[k] else "" }

  /** `Get` on a parsed query. */
  function Get(raw: string, k: Key): string { Lookup(ParseQuery(raw), KeyText(k)) }

  // ---- printing ----

  function SetIf(q: Values, present: bool, k: Key, v: string): Values {
    if present then q[k := v] else q
  }

  predicate IsWS(p: ServerProfile) { p.transport.Some? && p.transport.value.kind.WS? }

  /** The TLS part of `streamQuery`. */
  function TlsQuery(tls: TLSConfig): Values {
    var q0: Values := map[Security := if tls.enabled then "tls" else "none"];
    var q1 := SetIf(q0, tls.serverName != "", Sni, tls.serverName);
    var q2 := SetIf(q1, tls.alpn != [], Alpn, Join(tls.alpn, ','));
    var q3 := SetIf(q2, tls.fingerprint != "", Fp, tls.fingerprint);
    SetIf(q3, tls.allowInsecure, AllowInsecure, "1")
  }

  /** Its transport part; a TCP transport adds nothing. */
  function TransportQuery(q: Values, t: Option<TransportConfig>): Values {
    if t.None? || !t.value.kind.WS? then q
    else
      var q1 := SetIf(q[TypeKey := "ws"], t.value.path != "", PathKey, t.value.path);
      SetIf(q1, t.value.host != "", HostKey, t.value.host)
  }

  /** `streamQuery`; None when the transport cannot be exported. */
  function StreamQuery(p: ServerProfile): Option<Values> {
    if p.transport.Some? && p.transport.value.kind.UnknownTransport? then None
    else
      var q := TransportQuery(TlsQuery(p.tls), p.transport);
      Some(SetIf(q, p.packetEncoding != "", PacketEncoding, p.packetEncoding))
  }

  function HostPort(p: ServerProfile): string { JoinHostPort(p.address, IntText(p.port)) }

  /** What a vless link adds to the stream query. */
  function VLessOptions(q: Values, p: ServerProfile): Values {
    SetIf(SetIf(q, true, Encryption, "none"), p.flow != "", Flow, p.flow)
  }

  function VMessOptions(q: Values, p: ServerProfile): Values {
    var q1 := SetIf(q, true, Encryption, if p.security == "" then "auto" else p.security);
    var q2 := SetIf(q1, p.globalPadding, GlobalPadding, "1");
    SetIf(q2, p.authenticatedLength, AuthenticatedLength, "1")
  }

  /** User information of a socks5 or http link. */
  function LoginUser(p: ServerProfile): Option<User> {
    if p.username == "" then None
    else Some(User(p.username, if p.password == "" then None else Some(p.password)))
  }

  function ShadowsocksUser(p: ServerProfile): User {
    User(Base64.Encode(Base64.RAW_URL, p.cipher + ":" + p.password), None)
  }

  /** `Link`. */
  function Link(p: ServerProfile): Result<string> {
    match p.protocol
    case VLESS =>
      (match StreamQuery(p)
       case None => Err("server: cannot export transport as a share link")
       case Some(q) => Ok(UrlText("vless", Some(User(p.uuid, None)), HostPort(p), Encode(VLessOptions(q, p)), p.name)))
    case VMess =>
      (match StreamQuery(p)
       case None => Err("server: cannot export transport as a share link")
       case Some(q) => Ok(UrlText("vmess", Some(User(p.uuid, None)), HostPort(p), Encode(VMessOptions(q, p)), p.name)))
    case Shadowsocks => Ok(UrlText("ss", Some(ShadowsocksUser(p)), HostPort(p), "", p.name))
    case Trojan =>
      (match StreamQuery(p)
       case None => Err("server: cannot export transport as a share link")
       case Some(q) => Ok(UrlText("trojan", Some(User(p.password, Some(""))), HostPort(p), Encode(q), p.name)))
    case SOCKS5 => Ok(UrlText("socks5", LoginUser(p), HostPort(p), "", p.name))
    case HTTP => Ok(UrlText("http", LoginUser(p), HostPort(p), "", p.name))
    case SSH => Err("server: cannot export ssh as a share link")
    case UnknownProtocol(_) => Err("server: cannot export this protocol as a share link")
  }

  // ---- parsing ----

  const BLANK: ServerProfile := ServerProfile(
    "", "", UnknownProtocol(""), "", 0, "", "", "", "", "", "", NO_TLS, NO_SSH, None, false, false, "",
    false, "", [], None, false, 0, None, ZERO_TIME, ZERO_TIME)

  function DefaultName(protocol: Protocol, address: string, port: nat): string {
    Rows.ProtocolName(protocol) + " @ " + address + ":" + Itoa(port)
  }

  /** `newProfile`: copies what it copies (not AuthenticatedLength), names and validates. */
  function NewProfile(protocol: Protocol, name: string, address: string, port: nat, extra: ServerProfile)
    : (r: Result<ServerProfile>)
    ensures r.Ok? ==> Profile.Valid(r.value)
  {
    var a, n := Trim(address), Trim(name);
    var p := BLANK.(
      protocol := protocol, address := a, port := port,
      username := extra.username, password := extra.password, cipher := extra.cipher, uuid := extra.uuid,
      flow := extra.flow, security := extra.security, tls := extra.tls, transport := extra.transport,
      globalPadding := extra.globalPadding, packetEncoding := extra.packetEncoding,
      name := if n == "" then DefaultName(protocol, a, port) else n);
    if Profile.Valid(p) then Ok(p) else Err(Rows.ProtocolName(protocol) + ": validation failed")
  }

  function ToLower(s: string): string { seq(|s|, i requires 0 <= i < |s| => LowerAscii(s[i])) }

  predicate Truthy(v: string) {
    var t := ToLower(Trim(v));
    t == "1" || t == "true" || t == "yes" || t == "on"
  }

  function TransportFromNetwork(network: string, host: string, path: string): Result<Option<TransportConfig>> {
    var n := ToLower(Trim(network));
    if n == "" || n == "tcp" then
      if Trim(host) == "" && Trim(path) == "" then Ok(None) else Err("tcp links with host/path are malformed")
    else if n == "ws" || n == "websocket" then Ok(Some(TransportConfig(WS, path, host, 0, "")))
    else Err("transport is not supported")
  }

  /** `splitComma`: trimmed, non-empty items. */
  function CleanItems(parts: seq<string>): seq<string> {
    if parts == [] then []
    else (if Trim(parts[0]) == "" then [] else [Trim(parts[0])]) + CleanItems(parts[1..])
  }

  function SplitComma(s: string): seq<string> { CleanItems(Split(s, ',')) }

  method SplitCommaLoop(s: string) returns (out: seq<string>)
    ensures out == SplitComma(s)
  {
    var parts := Split(s, ',');
    out := [];
    var i := 0;
    assert parts[0..] == parts;
    while i < |parts|
      invariant 0 <= i <= |parts|
      invariant out + CleanItems(parts[i..]) == CleanItems(parts)
    {
      assert parts[i..][0] == parts[i] && parts[i..][1..] == parts[i + 1..];
      var p := Trim(parts[i]);
      ghost var rest := CleanItems(parts[i + 1..]);
      if p != "" {
        assert out + ([p] + rest) == out + [p] + rest;
        out := out + [p];
      } else {
        assert [] + rest == rest;
      }
      i := i + 1;
    }
    assert parts[i..] == [];
  }

  function TlsFromFields(enabled: bool, sni: string, host: string, fp: string, alpn: string, insecure: bool)
    : TLSConfig
  {
    if !enabled then NO_TLS
    else
      var name := if Trim(sni) == "" then Trim(host) else Trim(sni);
      TLSConfig(true, insecure, name, if alpn == "" then [] else SplitComma(alpn), fp)
  }

  /** `splitFragment`: the name and the rest. */
  function SplitFragment(rest: string): (string, string) {
    var (core, frag, found) := Cut(rest, '#');
    if !found then ("", rest)
    else
      var decoded := Unescape(frag, Query);
      (Trim(if decoded.Some? then decoded.value else frag), core)
  }

  function MustInt(s: string): nat {
    if Atoi(s).Some? && Atoi(s).value >= 0 then Atoi(s).value else 0
  }

  function PortOr(port: string, fallback: nat): nat { if port == "" then fallback else MustInt(port) }

  function Username(u: Parsed): string { if u.user.Some? then u.user.value.name else "" }

  /** The transport and TLS settings of a vless or vmess query. */
  function StreamSettings(raw: string): Result<ServerProfile> {
    match TransportFromNetwork(Get(raw, TypeKey), Get(raw, HostKey), Get(raw, PathKey))
    case Err(e) => Err(e)
    case Ok(transport) =>
      Ok(BLANK.(transport := transport,
                tls := TlsFromFields(Get(raw, Security) == "tls", Get(raw, Sni), Get(raw, HostKey), Get(raw, Fp),
                                     Get(raw, Alpn), Truthy(Get(raw, AllowInsecure))),
                packetEncoding := Get(raw, PacketEncoding)))
  }

  function ParseVMessSIP002(lib: Lib, rest: string): Result<ServerProfile> {
    var (name, core) := SplitFragment(rest);
    match Parse(lib.isIPv6, core)
    case None => Err("vmess: malformed url")
    case Some(u) =>
      if Trim(u.host) == "" || Trim(Username(u)) == "" then Err("vmess: missing host or uuid")
      else if Get(u.rawQuery, Security) == "reality" then Err("vmess: reality is not supported yet")
      else
        match StreamSettings(u.rawQuery)
        case Err(e) => Err(e)
        case Ok(base) =>
          var sec := Trim(Get(u.rawQuery, Encryption));
          NewProfile(VMess, name, SplitHostPort(u.host).0, PortOr(SplitHostPort(u.host).1, 443),
                     base.(uuid := Username(u), security := if sec == "" then "auto" else sec,
                           globalPadding := Truthy(Get(u.rawQuery, GlobalPadding)),
                           authenticatedLength := Truthy(Get(u.rawQuery, AuthenticatedLength))))
  }

  predicate VLessEncryption(enc: string) { enc == "" || enc == "none" || enc == "auto" }

  function ParseVLess(lib: Lib, rest: string): (r: Result<ServerProfile>)
    ensures r.Ok? ==> Profile.Valid(r.value)
  {
    var (name, core) := SplitFragment(rest);
    match Parse(lib.isIPv6, core)
    case None => Err("vless: malformed url")
    case Some(u) =>
      var enc := Get(u.rawQuery, Encryption);
      if Trim(u.host) == "" || Trim(Username(u)) == "" then Err("vless: missing host or uuid")
      else if !VLessEncryption(enc) then Err("vless: unsupported encryption")
      else if Get(u.rawQuery, Security) == "reality" then Err("vless: reality is not supported yet")
      else
        match StreamSettings(u.rawQuery)
        case Err(e) => Err(e)
        case Ok(base) =>
          NewProfile(VLESS, name, SplitHostPort(u.host).0, PortOr(SplitHostPort(u.host).1, 443),
                     base.(uuid := Username(u), flow := Get(u.rawQuery, Flow)))
  }

  /** Trojan always rides TLS; the server name falls back to the address. */
  function TrojanSettings(raw: string, host: string): Result<ServerProfile> {
    match TransportFromNetwork(Get(raw, TypeKey), Get(raw, HostKey), Get(raw, PathKey))
    case Err(e) => Err(e)
    case Ok(transport) =>
      Ok(BLANK.(transport := transport,
                tls := TlsFromFields(true, Get(raw, Sni), host, Get(raw, Fp), Get(raw, Alpn),
                                     Truthy(Get(raw, AllowInsecure)))))
  }

  function ParseTrojan(lib: Lib, rest: string): Result<ServerProfile> {
    var (name, core) := SplitFragment(rest);
    match Parse(lib.isIPv6, core)
    case None => Err("trojan: malformed url")
    case Some(u) =>
      if Trim(u.host) == "" || Username(u) == "" then Err("trojan: missing host or password")
      else
        match TrojanSettings(u.rawQuery, SplitHostPort(u.host).0)
        case Err(e) => Err(e)
        case Ok(base) =>
          NewProfile(Trojan, name, SplitHostPort(u.host).0, PortOr(SplitHostPort(u.host).1, 443),
                     base.(password := Username(u)))
  }

  function ParseUserPass(lib: Lib, rest: string, protocol: Protocol): Result<ServerProfile> {
    var (name, core) := SplitFragment(rest);
    match Parse(lib.isIPv6, core)
    case None => Err("malformed url")
    case Some(u) =>
      if Trim(u.host) == "" then Err("missing host")
      else
        var password := if u.user.Some? && u.user.value.password.Some? then u.user.value.password.value else "";
        NewProfile(protocol, name, SplitHostPort(u.host).0, PortOr(SplitHostPort(u.host).1, 1080),
                   BLANK.(username := Username(u), password := password))
  }

  function ParsePort(s: string): Option<nat> {
    var n := Atoi(Trim(s));
    if n.Some? && 1 <= n.value <= 65535 then Some(n.value) else None
  }

  /** method:password and host:port of a shadowsocks link, taken apart. */
  function ShadowsocksProfile(name: string, methodPass: string, host: string, port: string): Result<ServerProfile> {
    var (cipher, password, found) := Cut(methodPass, ':');
    var n := ParsePort(port);
    if n.None? then Err("invalid port")
    else if !found || cipher == "" || password == "" then Err("ss: expected method:password")
    else NewProfile(Shadowsocks, name, host, n.value, BLANK.(cipher := cipher, password := password))
  }

  predicate HasPlugin(query: string) {
    exists i :: 0 <= i <= |query| && "plugin=" <= query[i..]
  }

  function ParseShadowsocks(rest0: string): Result<ServerProfile> {
    var (name, core) := SplitFragment(rest0);
    var (rest, query, _) := Cut(core, '?');
    var (userInfo, hostPort, found) := CutLast(rest, '@');
    if !found then
      match Base64.TryDecode(rest)
      case None => Err("ss: invalid base64 payload")
      case Some(full) =>
        var (mp, hp, at) := Cut(full, '@');
        var (host, port, colon) := Cut(hp, ':');
        if !at then Err("ss: expected method:password@host:port")
        else if !colon then Err("ss: missing host:port")
        else ShadowsocksProfile(name, mp, host, port)
    else
      match Base64.TryDecode(userInfo)
      case None => Err("ss: invalid method:password encoding")
      case Some(mp) =>
        var (host, port, colon) := Cut(hostPort, ':');
        if !colon then Err("ss: missing host:port")
        else if ParsePort(port).Some? && HasPlugin(query) then Err("ss: plugins are not supported yet")
        else ShadowsocksProfile(name, mp, host, port)
  }

  /** The scheme that selects the parser, with the text that announces it. */
  function Scheme(s: string): (r: Option<(Protocol, string)>)
    ensures r.Some? ==> r.value.1 <= s
  {
    if "vmess://" <= s then Some((VMess, "vmess://"))
    else if "vless://" <= s then Some((VLESS, "vless://"))
    else if "ss://" <= s then Some((Shadowsocks, "ss://"))
    else if "trojan://" <= s then Some((Trojan, "trojan://"))
    else if "socks5://" <= s then Some((SOCKS5, "socks5://"))
    else if "socks://" <= s then Some((SOCKS5, "socks://"))
    else if "http://" <= s then Some((HTTP, "http://"))
    else None
  }

  /** The fields of a classic vmess body as a profile. */
  function ClassicVMess(vm: VMessBody): Result<ServerProfile> {
    var port := ParsePort(vm.port);
    if Trim(vm.add) == "" || Trim(vm.id) == "" then Err("vmess: missing address or uuid")
    else if port.None? then Err("invalid port")
    else if vm.tls == "reality" then Err("vmess: reality is not supported yet")
    else
      match TransportFromNetwork(vm.net, vm.host, vm.path)
      case Err(e) => Err(e)
      case Ok(transport) =>
        NewProfile(VMess, vm.ps, vm.add, port.value,
                   BLANK.(uuid := Trim(vm.id), transport := transport,
                          tls := TlsFromFields(vm.tls == "tls", vm.sni, vm.host, vm.fp, vm.alpn, vm.allowInsecure),
                          globalPadding := vm.globalPadding, packetEncoding := vm.packetEncoding,
                          security := vm.scy))
  }

  /** `parseVMess`: text with an '@' is a URL, the rest base64 of JSON. */
  function ParseVMess(lib: Lib, payload: string): Result<ServerProfile> {
    if '@' in payload then ParseVMessSIP002(lib, payload)
    else
      match Base64.TryDecode(Trim(payload))
      case None => Err("vmess: invalid base64 payload")
      case Some(raw) =>
        match lib.vmessBody(raw)
        case None => Err("vmess: payload is not JSON")
        case Some(vm) => ClassicVMess(vm)
  }

  function ParseBody(lib: Lib, protocol: Protocol, rest: string): Result<ServerProfile> {
    match protocol
    case VMess => ParseVMess(lib, rest)
    case VLESS => ParseVLess(lib, rest)
    case Shadowsocks => ParseShadowsocks(rest)
    case Trojan => ParseTrojan(lib, rest)
    case _ => ParseUserPass(lib, rest, protocol)
  }

  /** `ParseLink`. */
  function ParseLink(lib: Lib, link: string): Result<ServerProfile> {
    var s := Trim(link);
    match Scheme(s)
    case None => Err("server: unsupported link")
    case Some(found) => ParseBody(lib, found.0, s[|found.1|..])
  }

  // ---- what is parsed is valid ----

  predicate ValidIfOk(r: Result<ServerProfile>) { r.Ok? ==> Profile.Valid(r.value) }

  lemma SIP002Valid(lib: Lib, rest: string)
    ensures ValidIfOk(ParseVMessSIP002(lib, rest))
  {
  }

  lemma ClassicValid(vm: VMessBody)
    ensures ValidIfOk(ClassicVMess(vm))
  {
  }

  lemma VMessValid(lib: Lib, rest: string)
    ensures ValidIfOk(ParseVMess(lib, rest))
  {
    if '@' in rest {
      SIP002Valid(lib, rest);
    } else {
      var raw := Base64.TryDecode(Trim(rest));
      if raw.Some? && lib.vmessBody(raw.value).Some? {
        ClassicValid(lib.vmessBody(raw.value).value);
      }
    }
  }

  lemma TrojanValid(lib: Lib, rest: string)
    ensures ValidIfOk(ParseTrojan(lib, rest))
  {
  }

  lemma ShadowsocksValid(rest: string)
    ensures ValidIfOk(ParseShadowsocks(rest))
  {
  }

  /** Whatever text is taken for a link, the profile read from it is valid. */
  lemma ParsedLinksAreValid(lib: Lib, link: string)
    ensures ValidIfOk(ParseLink(lib, link))
  {
    var s := Trim(link);
    match Scheme(s) {
      case None =>
      case Some(found) => BodyValid(lib, found.0, s[|found.1|..]);
    }
  }

  lemma BodyValid(lib: Lib, protocol: Protocol, rest: string)
    ensures ValidIfOk(ParseBody(lib, protocol, rest))
  {
    match protocol {
      case VMess => VMessValid(lib, rest);
      case Trojan => TrojanValid(lib, rest);
      case Shadowsocks => ShadowsocksValid(rest);
      case _ =>
    }
  }
}
