/** Server profiles and their validation (core/models/server.go). */
module Profile {
  import opened Options
  import opened Text

  datatype Protocol =
    | VLESS | VMess | Shadowsocks | Trojan | SOCKS5 | HTTP | SSH
    | UnknownProtocol(name: string)

  datatype TransportType = TCP | WS | UnknownTransport(name: string)

  newtype uint32 = x: int | 0 <= x < 0x1_0000_0000

  datatype TransportConfig = TransportConfig(
    kind: TransportType, path: string, host: string, maxEarlyData: uint32, earlyDataHeaderName: string)

  datatype TLSConfig = TLSConfig(
    enabled: bool, allowInsecure: bool, serverName: string, alpn: seq<string>, fingerprint: string)

  const NO_TLS: TLSConfig := TLSConfig(false, false, "", [], "")

  datatype SSHConfig = SSHConfig(user: string, hostKey: string, privateKey: string)

  const NO_SSH: SSHConfig := SSHConfig("", "", "")

  datatype RealityConfig = RealityConfig(enabled: bool, publicKey: string, shortId: string, spiderX: string)

  /** Nanoseconds since the Unix epoch; Go's zero time is the start of year 1. */
  type Instant = int

  const SECOND := 1_000_000_000
  const ZERO_TIME: Instant := -62_135_596_800 * SECOND

  datatype ServerProfile = ServerProfile(
    id: string,
    name: string,
    protocol: Protocol,
    address: string,
    port: int,
    username: string,
    password: string,
    cipher: string,
    uuid: string,
    flow: string,
    security: string,
    tls: TLSConfig,
    ssh: SSHConfig,
    transport: Option<TransportConfig>,
    globalPadding: bool,
    authenticatedLength: bool,
    packetEncoding: string,
    enabled: bool,
    group: string,
    tags: seq<string>,
    reality: Option<RealityConfig>,
    favorite: bool,
    lastLatencyMs: int,
    lastTestedAt: Option<Instant>,
    createdAt: Instant,
    updatedAt: Instant)

  predicate CredentialsPresent(p: ServerProfile) {
    match p.protocol
    case VLESS => Trim(p.uuid) != ""
    case VMess => Trim(p.uuid) != ""
    case Shadowsocks => p.password != "" && p.cipher != ""
    case Trojan => p.password != ""
    case SSH => p.ssh.user != "" && (p.ssh.privateKey != "" || p.password != "")
    case SOCKS5 => true
    case HTTP => true
    case UnknownProtocol(_) => false
  }

  /** `Validate` finds nothing to object to. */
  predicate Valid(p: ServerProfile) {
    && Trim(p.name) != ""
    && Trim(p.address) != ""
    && 1 <= p.port <= 65535
    && CredentialsPresent(p)
    && (p.transport.Some? ==> p.transport.value.kind.TCP? || p.transport.value.kind.WS?)
    && (p.reality.Some? ==> !p.reality.value.enabled)
  }

  /** Which credentials each protocol asks for. */
  lemma CredentialsByProtocol(p: ServerProfile)
    ensures p.protocol == VLESS || p.protocol == VMess ==> (CredentialsPresent(p) <==> Trim(p.uuid) != "")
    ensures p.protocol == Shadowsocks ==> (CredentialsPresent(p) <==> p.password != "" && p.cipher != "")
    ensures p.protocol == Trojan ==> (CredentialsPresent(p) <==> p.password != "")
    ensures p.protocol == SOCKS5 || p.protocol == HTTP ==> CredentialsPresent(p)
    ensures p.protocol == SSH ==>
      (CredentialsPresent(p) <==> p.ssh.user != "" && (p.ssh.privateKey != "" || p.password != ""))
    ensures p.protocol.UnknownProtocol? ==> !Valid(p)
  {
  }
}
