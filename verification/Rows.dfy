/** The positional encoding of a profile as a table row (core/store/rows.go). */
module Rows {
  import opened Options
  import opened Text
  import opened Profile

  /** A column value as the database driver sees it. */
  datatype Cell = TextCell(text: string) | IntCell(num: int)

  type Row = seq<Cell>

  const COLUMNS: seq<string> := [
    "id", "name", "protocol", "address", "port",
    "username", "password", "cipher", "uuid", "flow",
    "security", "global_padding", "authenticated_length", "packet_encoding", "tls_enabled",
    "tls_allow_insecure", "tls_server_name", "tls_alpn", "tls_fingerprint", "transport_type",
    "transport_path", "transport_host", "transport_max_early_data", "transport_early_data_header_name", "ssh_user",
    "ssh_host_key", "ssh_private_key", "reality_enabled", "reality_public_key", "reality_short_id",
    "reality_spider_x", "enabled", "tags", "group_name", "favorite",
    "last_latency_ms", "last_tested_at", "created_at", "updated_at", "secret_refs"]

  /** The text codecs of the standard library: JSON string lists and RFC 3339 seconds. */
  datatype Codec = Codec(
    listText: seq<string> -> string,
    listOf: string -> Option<seq<string>>,
    timeText: int -> string,
    timeOf: string -> Option<int>)

  /** Years 0000 to 9999, in seconds since the epoch: what RFC 3339 can write and read back. */
  predicate SecondsOk(t: int) { -62_167_219_200 <= t <= 253_402_300_799 }

  /** What the model asks of the codecs: a list is read back with its items repaired to UTF-8, a time
      in range as it was. */
  ghost predicate Faithful(k: Codec) {
    && (forall xs {:trigger k.listText(xs)} ::
          && k.listOf(k.listText(xs)) == Some(RepairAll(xs))
          && k.listText(xs) != "" && (k.listText(xs) == "[]" ==> xs == []))
    && k.listOf("null") == Some([])
    && (forall t {:trigger k.timeText(t)} :: SecondsOk(t) ==>
          k.timeOf(k.timeText(t)) == Some(t) && k.timeText(t) != "")
  }

  function Seconds(t: Instant): int { t / SECOND }

  predicate InstantOk(t: Instant) { SecondsOk(Seconds(t)) }

  predicate TimesOk(p: ServerProfile) {
    && InstantOk(p.createdAt) && InstantOk(p.updatedAt)
    && (p.lastTestedAt.Some? ==> InstantOk(p.lastTestedAt.value))
  }

  function Truncated(t: Instant): Instant { Seconds(t) * SECOND }

  // ---- writing ----

  function ProtocolName(p: Protocol): string {
    match p
    case VLESS => "vless"
    case VMess => "vmess"
    case Shadowsocks => "shadowsocks"
    case Trojan => "trojan"
    case SOCKS5 => "socks5"
    case HTTP => "http"
    case SSH => "ssh"
    case UnknownProtocol(name) => name
  }

  function TransportName(t: TransportType): string {
    match t case TCP => "" case WS => "ws" case UnknownTransport(name) => name
  }

  function Flag(b: bool): Cell { IntCell(if b then 1 else 0) }

  /** A nil list is stored as "[]". */
  function ListCell(k: Codec, xs: seq<string>): Cell {
    TextCell(if xs == [] then "[]" else k.listText(xs))
  }

  /** The refs column marshals a nil list as "null". */
  function RefsCell(k: Codec, refs: seq<string>): Cell {
    TextCell(if refs == [] then "null" else k.listText(refs))
  }

  const BLANK_TRANSPORT: TransportConfig := TransportConfig(TCP, "", "", 0, "")
  const BLANK_REALITY: RealityConfig := RealityConfig(false, "", "", "")

  function EndpointColumn(k: Codec, p: ServerProfile, i: nat): Cell {
    match i
    case 0 => TextCell(p.id)
    case 1 => TextCell(p.name)
    case 2 => TextCell(ProtocolName(p.protocol))
    case 3 => TextCell(p.address)
    case 4 => IntCell(p.port)
    case 5 => TextCell(p.username)
    case 6 => TextCell(p.password)
    case 7 => TextCell(p.cipher)
    case 8 => TextCell(p.uuid)
    case _ => TextCell(p.flow)
  }

  function ProtocolColumn(k: Codec, p: ServerProfile, i: nat): Cell {
    var t := if p.transport.Some? then p.transport.value else BLANK_TRANSPORT;
    match i
    case 10 => TextCell(p.security)
    case 11 => Flag(p.globalPadding)
    case 12 => Flag(p.authenticatedLength)
    case 13 => TextCell(p.packetEncoding)
    case 14 => Flag(p.tls.enabled)
    case 15 => Flag(p.tls.allowInsecure)
    case 16 => TextCell(p.tls.serverName)
    case 17 => ListCell(k, p.tls.alpn)
    case 18 => TextCell(p.tls.fingerprint)
    case _ => TextCell(TransportName(t.kind))
  }

  function TransportColumn(k: Codec, p: ServerProfile, i: nat): Cell {
    var t := if p.transport.Some? then p.transport.value else BLANK_TRANSPORT;
    var r := if p.reality.Some? then p.reality.value else BLANK_REALITY;
    match i
    case 20 => TextCell(t.path)
    case 21 => TextCell(t.host)
    case 22 => IntCell(t.maxEarlyData as int)
    case 23 => TextCell(t.earlyDataHeaderName)
    case 24 => TextCell(p.ssh.user)
    case 25 => TextCell(p.ssh.hostKey)
    case 26 => TextCell(p.ssh.privateKey)
    case 27 => Flag(r.enabled)
    case 28 => TextCell(r.publicKey)
    case _ => TextCell(r.shortId)
  }

  function LabelColumn(k: Codec, p: ServerProfile, refs: seq<string>, i: nat): Cell {
    var r := if p.reality.Some? then p.reality.value else BLANK_REALITY;
    match i
    case 30 => TextCell(r.spiderX)
    case 31 => Flag(p.enabled)
    case 32 => ListCell(k, p.tags)
    case 33 => TextCell(p.group)
    case 34 => Flag(p.favorite)
    case 35 => IntCell(p.lastLatencyMs)
    case 36 => TextCell(if p.lastTestedAt.None? then "" else k.timeText(Seconds(p.lastTestedAt.value)))
    case 37 => TextCell(k.timeText(Seconds(p.createdAt)))
    case 38 => TextCell(k.timeText(Seconds(p.updatedAt)))
    case _ => RefsCell(k, refs)
  }

  /** What `serverValues` puts at position i of the row. */
  function Column(k: Codec, p: ServerProfile, refs: seq<string>, i: nat): Cell {
    if i < 10 then EndpointColumn(k, p, i)
    else if i < 20 then ProtocolColumn(k, p, i)
    else if i < 30 then TransportColumn(k, p, i)
    else LabelColumn(k, p, refs, i)
  }

  /** `serverValues`: one cell per entry of COLUMNS, in that order. */
  function ServerValues(k: Codec, p: ServerProfile, refs: seq<string>): (row: Row)
    ensures |row| == |COLUMNS|
  {
    seq(40, i requires 0 <= i => Column(k, p, refs, i))
  }

  // ---- reading ----

  function ProtocolOf(name: string): Protocol {
    if name == "vless" then VLESS
    else if name == "vmess" then VMess
    else if name == "shadowsocks" then Shadowsocks
    else if name == "trojan" then Trojan
    else if name == "socks5" then SOCKS5
    else if name == "http" then HTTP
    else if name == "ssh" then SSH
    else UnknownProtocol(name)
  }

  function TransportOf(name: string): TransportType {
    if name == "" then TCP else if name == "ws" then WS else UnknownTransport(name)
  }

  /** The column types `Scan` asks for. */
  predicate Scannable(row: Row) {
    && |row| == 40
    && row[0].TextCell? && row[1].TextCell? && row[2].TextCell? && row[3].TextCell? && row[4].IntCell?
    && row[5].TextCell? && row[6].TextCell? && row[7].TextCell? && row[8].TextCell? && row[9].TextCell?
    && row[10].TextCell? && row[11].IntCell? && row[12].IntCell? && row[13].TextCell? && row[14].IntCell?
    && row[15].IntCell? && row[16].TextCell? && row[17].TextCell? && row[18].TextCell? && row[19].TextCell?
    && row[20].TextCell? && row[21].TextCell? && row[22].IntCell? && row[23].TextCell? && row[24].TextCell?
    && row[25].TextCell? && row[26].TextCell? && row[27].IntCell? && row[28].TextCell? && row[29].TextCell?
    && row[30].TextCell? && row[31].IntCell? && row[32].TextCell? && row[33].TextCell? && row[34].IntCell?
    && row[35].IntCell? && row[36].TextCell? && row[37].TextCell? && row[38].TextCell? && row[39].TextCell?
  }

  function ReadList(k: Codec, text: string): Option<seq<string>> {
    if text == "" || text == "[]" then Some([]) else k.listOf(text)
  }

  /** An absent optional time stays absent. */
  function ReadOptionalTime(k: Codec, text: string): Option<Option<Instant>> {
    if text == "" then Some(None)
    else match k.timeOf(text) case None => None case Some(t) => Some(Some(t * SECOND))
  }

  function ReadTime(k: Codec, text: string): Option<Instant> {
    if text == "" then Some(ZERO_TIME)
    else match k.timeOf(text) case None => None case Some(t) => Some(t * SECOND)
  }

  function ReadTransport(kind: string, path: string, host: string, early: int, header: string)
    : Option<TransportConfig>
  {
    if kind != "" || path != "" || host != "" then
      Some(TransportConfig(TransportOf(kind), path, host, (early % 0x1_0000_0000) as uint32, header))
    else None
  }

  function ReadReality(enabled: int, key: string, shortId: string, spiderX: string): Option<RealityConfig> {
    if enabled != 0 || key != "" || shortId != "" || spiderX != "" then
      Some(RealityConfig(enabled != 0, key, shortId, spiderX))
    else None
  }

  datatype Scanned = Scanned(profile: ServerProfile, refs: seq<string>)

  /** `scanServer`: None stands for its error returns. */
  function ScanServer(k: Codec, row: Row): Option<Scanned> {
    if !Scannable(row) then None else
    var alpn := ReadList(k, row[17].text);
    var tags := ReadList(k, row[32].text);
    var tested := ReadOptionalTime(k, row[36].text);
    var created := ReadTime(k, row[37].text);
    var updated := ReadTime(k, row[38].text);
    var refs := ReadList(k, row[39].text);
    if alpn.None? || tags.None? || tested.None? || created.None? || updated.None? || refs.None? then None
    else
      Some(Scanned(
        ServerProfile(
          row[0].text, row[1].text, ProtocolOf(row[2].text), row[3].text, row[4].num,
          row[5].text, row[6].text, row[7].text, row[8].text, row[9].text, row[10].text,
          TLSConfig(row[14].num != 0, row[15].num != 0, row[16].text, alpn.value, row[18].text),
          SSHConfig(row[24].text, row[25].text, row[26].text),
          ReadTransport(row[19].text, row[20].text, row[21].text, row[22].num, row[23].text),
          row[11].num != 0, row[12].num != 0, row[13].text,
          row[31].num != 0, row[33].text, tags.value,
          ReadReality(row[27].num, row[28].text, row[29].text, row[30].text),
          row[34].num != 0, row[35].num, tested.value, created.value, updated.value),
        refs.value))
  }

  // ---- the round trip ----

  /** A plain TCP transport without path and host. */
  predicate SaysNothing(t: Option<TransportConfig>) {
    t.Some? && t.value.kind.TCP? && t.value.path == "" && t.value.host == ""
  }

  /** What survives a trip through the table: a transport or reality block that says nothing is
      dropped (early-data settings alone do not keep a TCP transport), list items are repaired to
      UTF-8, times keep whole seconds. */
  function Canonical(p: ServerProfile): ServerProfile {
    p.(tls := p.tls.(alpn := RepairAll(p.tls.alpn)),
       tags := RepairAll(p.tags),
       transport := if SaysNothing(p.transport) then None else p.transport,
       reality := if p.reality == Some(BLANK_REALITY) then None else p.reality,
       lastTestedAt := if p.lastTestedAt.None? then None else Some(Truncated(p.lastTestedAt.value)),
       createdAt := Truncated(p.createdAt),
       updatedAt := Truncated(p.updatedAt))
  }

  /** Names the table can tell apart: an unknown protocol or transport does not bear the name of a
      known one. */
  predicate NamesOk(p: ServerProfile) {
    && ProtocolOf(ProtocolName(p.protocol)) == p.protocol
    && (p.transport.Some? ==> TransportOf(TransportName(p.transport.value.kind)) == p.transport.value.kind)
  }

  lemma ValidNames(p: ServerProfile)
    requires Valid(p)
    ensures NamesOk(p)
  {
  }

  lemma TransportTrip(t: TransportConfig)
    requires TransportOf(TransportName(t.kind)) == t.kind
    ensures ReadTransport(TransportName(t.kind), t.path, t.host, t.maxEarlyData as int, t.earlyDataHeaderName)
         == if t.kind.TCP? && t.path == "" && t.host == "" then None else Some(t)
  {
  }

  lemma ListTrip(k: Codec, xs: seq<string>)
    requires Faithful(k)
    ensures ReadList(k, ListCell(k, xs).text) == Some(RepairAll(xs))
    ensures ReadList(k, RefsCell(k, xs).text) == Some(RepairAll(xs))
  {
    var t := k.listText(xs);
  }

  lemma TimeTrip(k: Codec, t: Instant)
    requires Faithful(k) && InstantOk(t)
    ensures k.timeText(Seconds(t)) != ""
    ensures ReadTime(k, k.timeText(Seconds(t))) == Some(Truncated(t))
    ensures ReadOptionalTime(k, k.timeText(Seconds(t))) == Some(Some(Truncated(t)))
  {
    var x := k.timeText(Seconds(t));
  }

  lemma WrittenScannable(k: Codec, p: ServerProfile, refs: seq<string>)
    ensures Scannable(ServerValues(k, p, refs))
  {
  }

  /** The row decodes to the fields of `p`, group by group. */
  predicate EndpointAt(row: Row, p: ServerProfile)
    requires Scannable(row)
  {
    && row[0].text == p.id && row[1].text == p.name && ProtocolOf(row[2].text) == p.protocol
    && row[3].text == p.address && row[4].num == p.port && row[5].text == p.username
    && row[6].text == p.password && row[7].text == p.cipher && row[8].text == p.uuid && row[9].text == p.flow
  }

  predicate SecurityAt(k: Codec, row: Row, p: ServerProfile)
    requires Scannable(row)
  {
    && row[10].text == p.security && (row[11].num != 0) == p.globalPadding
    && (row[12].num != 0) == p.authenticatedLength && row[13].text == p.packetEncoding
    && (row[14].num != 0) == p.tls.enabled && (row[15].num != 0) == p.tls.allowInsecure
    && row[16].text == p.tls.serverName && ReadList(k, row[17].text) == Some(RepairAll(p.tls.alpn))
    && row[18].text == p.tls.fingerprint
  }

  predicate BlocksAt(row: Row, p: ServerProfile)
    requires Scannable(row)
  {
    && ReadTransport(row[19].text, row[20].text, row[21].text, row[22].num, row[23].text) == Canonical(p).transport
    && row[24].text == p.ssh.user && row[25].text == p.ssh.hostKey && row[26].text == p.ssh.privateKey
    && ReadReality(row[27].num, row[28].text, row[29].text, row[30].text) == Canonical(p).reality
  }

  predicate LabelsAt(k: Codec, row: Row, p: ServerProfile, refs: seq<string>)
    requires Scannable(row)
  {
    && (row[31].num != 0) == p.enabled && ReadList(k, row[32].text) == Some(RepairAll(p.tags))
    && row[33].text == p.group && (row[34].num != 0) == p.favorite && row[35].num == p.lastLatencyMs
    && ReadOptionalTime(k, row[36].text) == Some(Canonical(p).lastTestedAt)
    && ReadTime(k, row[37].text) == Some(Canonical(p).createdAt)
    && ReadTime(k, row[38].text) == Some(Canonical(p).updatedAt)
    && ReadList(k, row[39].text) == Some(RepairAll(refs))
  }

  lemma EndpointTrip(k: Codec, p: ServerProfile, refs: seq<string>)
    requires NamesOk(p) && Scannable(ServerValues(k, p, refs))
    ensures EndpointAt(ServerValues(k, p, refs), p)
  {
  }

  lemma SecurityTrip(k: Codec, p: ServerProfile, refs: seq<string>)
    requires Faithful(k) && Scannable(ServerValues(k, p, refs))
    ensures SecurityAt(k, ServerValues(k, p, refs), p)
  {
    ListTrip(k, p.tls.alpn);
  }

  lemma BlocksTrip(k: Codec, p: ServerProfile, refs: seq<string>)
    requires NamesOk(p) && Scannable(ServerValues(k, p, refs))
    ensures BlocksAt(ServerValues(k, p, refs), p)
  {
    TransportTrip(if p.transport.Some? then p.transport.value else BLANK_TRANSPORT);
  }

  lemma LabelsTrip(k: Codec, p: ServerProfile, refs: seq<string>)
    requires Faithful(k) && TimesOk(p) && Scannable(ServerValues(k, p, refs))
    ensures LabelsAt(k, ServerValues(k, p, refs), p, refs)
  {
    ListTrip(k, p.tags);
    ListTrip(k, refs);
    TimeTrip(k, p.createdAt);
    TimeTrip(k, p.updatedAt);
    if p.lastTestedAt.Some? {
      TimeTrip(k, p.lastTestedAt.value);
    }
  }

  lemma ScanAssembles(k: Codec, row: Row, p: ServerProfile, refs: seq<string>)
    requires Scannable(row)
    requires EndpointAt(row, p) && SecurityAt(k, row, p) && BlocksAt(row, p) && LabelsAt(k, row, p, refs)
    ensures ScanServer(k, row) == Some(Scanned(Canonical(p), RepairAll(refs)))
  {
  }

  /** Reading a written row gives back the canonical profile and the refs: every one of the forty
      columns is read from the position it was written to. */
  lemma RowRoundTrip(k: Codec, p: ServerProfile, refs: seq<string>)
    requires Faithful(k) && TimesOk(p) && NamesOk(p)
    ensures ScanServer(k, ServerValues(k, p, refs)) == Some(Scanned(Canonical(p), RepairAll(refs)))
  {
    WrittenScannable(k, p, refs);
    EndpointTrip(k, p, refs);
    SecurityTrip(k, p, refs);
    BlocksTrip(k, p, refs);
    LabelsTrip(k, p, refs);
    ScanAssembles(k, ServerValues(k, p, refs), p, refs);
  }

  lemma CanonicalIdempotent(p: ServerProfile)
    ensures Canonical(Canonical(p)) == Canonical(p)
  {
    ListKeptExactly(p.tls.alpn);
    ListKeptExactly(p.tags);
    assert forall t: Instant :: Truncated(Truncated(t)) == Truncated(t);
  }

  predicate WholeSeconds(t: Instant) { t % SECOND == 0 }

  lemma TruncatedExactly(t: Instant)
    ensures Truncated(t) == t <==> WholeSeconds(t)
  {
  }

  /** A row keeps a profile as it is exactly when its list items are UTF-8, its times whole seconds,
      and it has no transport or reality block that says nothing. */
  lemma RowKeepsExactly(p: ServerProfile)
    ensures Canonical(p) == p <==>
      && AllUtf8(p.tls.alpn) && AllUtf8(p.tags)
      && !SaysNothing(p.transport)
      && p.reality != Some(BLANK_REALITY)
      && (p.lastTestedAt.Some? ==> WholeSeconds(p.lastTestedAt.value))
      && WholeSeconds(p.createdAt) && WholeSeconds(p.updatedAt)
  {
    ListKeptExactly(p.tls.alpn);
    ListKeptExactly(p.tags);
    TruncatedExactly(p.createdAt);
    TruncatedExactly(p.updatedAt);
    if p.lastTestedAt.Some? {
      TruncatedExactly(p.lastTestedAt.value);
    }
  }

  // ---- columns by name ----

  /** Position `i` is the column called `name`, and `row` has `cell` there. */
  predicate Has(row: Row, i: nat, name: string, cell: Cell) {
    i < |row| && i < |COLUMNS| && COLUMNS[i] == name && row[i] == cell
  }

  /** Every field is written to the column named after it. */
  lemma EndpointByName(k: Codec, p: ServerProfile, refs: seq<string>, row: Row)
    requires row == ServerValues(k, p, refs)
    ensures Has(row, 0, "id", TextCell(p.id))
    ensures Has(row, 1, "name", TextCell(p.name))
    ensures Has(row, 2, "protocol", TextCell(ProtocolName(p.protocol)))
    ensures Has(row, 3, "address", TextCell(p.address))
    ensures Has(row, 4, "port", IntCell(p.port))
  {
  }

  lemma LoginByName(k: Codec, p: ServerProfile, refs: seq<string>, row: Row)
    requires row == ServerValues(k, p, refs)
    ensures Has(row, 5, "username", TextCell(p.username))
    ensures Has(row, 6, "password", TextCell(p.password))
    ensures Has(row, 7, "cipher", TextCell(p.cipher))
    ensures Has(row, 8, "uuid", TextCell(p.uuid))
    ensures Has(row, 9, "flow", TextCell(p.flow))
  {
  }

  lemma SecurityByName(k: Codec, p: ServerProfile, refs: seq<string>, row: Row)
    requires row == ServerValues(k, p, refs)
    ensures Has(row, 10, "security", TextCell(p.security))
    ensures Has(row, 11, "global_padding", IntCell(if p.globalPadding then 1 else 0))
    ensures Has(row, 12, "authenticated_length", IntCell(if p.authenticatedLength then 1 else 0))
    ensures Has(row, 13, "packet_encoding", TextCell(p.packetEncoding))
    ensures Has(row, 14, "tls_enabled", IntCell(if p.tls.enabled then 1 else 0))
  {
  }

  lemma TlsByName(k: Codec, p: ServerProfile, refs: seq<string>, row: Row)
    requires row == ServerValues(k, p, refs)
    ensures Has(row, 15, "tls_allow_insecure", IntCell(if p.tls.allowInsecure then 1 else 0))
    ensures Has(row, 16, "tls_server_name", TextCell(p.tls.serverName))
    ensures Has(row, 17, "tls_alpn", TextCell(if p.tls.alpn == [] then "[]" else k.listText(p.tls.alpn)))
    ensures Has(row, 18, "tls_fingerprint", TextCell(p.tls.fingerprint))
  {
  }

  /** Without a transport or reality block its columns hold what an empty one would. */
  lemma TransportByName(k: Codec, p: ServerProfile, refs: seq<string>, row: Row, t: TransportConfig)
    requires row == ServerValues(k, p, refs)
    requires t == if p.transport.None? then TransportConfig(TCP, "", "", 0, "") else p.transport.value
    ensures Has(row, 19, "transport_type", TextCell(TransportName(t.kind)))
    ensures Has(row, 20, "transport_path", TextCell(t.path))
    ensures Has(row, 21, "transport_host", TextCell(t.host))
    ensures Has(row, 22, "transport_max_early_data", IntCell(t.maxEarlyData as int))
    ensures Has(row, 23, "transport_early_data_header_name", TextCell(t.earlyDataHeaderName))
  {
  }

  lemma SshByName(k: Codec, p: ServerProfile, refs: seq<string>, row: Row)
    requires row == ServerValues(k, p, refs)
    ensures Has(row, 24, "ssh_user", TextCell(p.ssh.user))
    ensures Has(row, 25, "ssh_host_key", TextCell(p.ssh.hostKey))
    ensures Has(row, 26, "ssh_private_key", TextCell(p.ssh.privateKey))
  {
  }

  lemma RealityByName(k: Codec, p: ServerProfile, refs: seq<string>, row: Row, r: RealityConfig)
    requires row == ServerValues(k, p, refs)
    requires r == if p.reality.None? then RealityConfig(false, "", "", "") else p.reality.value
    ensures Has(row, 27, "reality_enabled", IntCell(if r.enabled then 1 else 0))
    ensures Has(row, 28, "reality_public_key", TextCell(r.publicKey))
    ensures Has(row, 29, "reality_short_id", TextCell(r.shortId))
    ensures Has(row, 30, "reality_spider_x", TextCell(r.spiderX))
  {
  }

  lemma LabelsByName(k: Codec, p: ServerProfile, refs: seq<string>, row: Row)
    requires row == ServerValues(k, p, refs)
    ensures Has(row, 31, "enabled", IntCell(if p.enabled then 1 else 0))
    ensures Has(row, 32, "tags", TextCell(if p.tags == [] then "[]" else k.listText(p.tags)))
    ensures Has(row, 33, "group_name", TextCell(p.group))
    ensures Has(row, 34, "favorite", IntCell(if p.favorite then 1 else 0))
    ensures Has(row, 35, "last_latency_ms", IntCell(p.lastLatencyMs))
    ensures p.lastTestedAt.None? ==> Has(row, 36, "last_tested_at", TextCell(""))
    ensures p.lastTestedAt.Some? ==> Has(row, 36, "last_tested_at", TextCell(k.timeText(p.lastTestedAt.value / SECOND)))
    ensures Has(row, 37, "created_at", TextCell(k.timeText(p.createdAt / SECOND)))
    ensures Has(row, 38, "updated_at", TextCell(k.timeText(p.updatedAt / SECOND)))
    ensures Has(row, 39, "secret_refs", TextCell(if refs == [] then "null" else k.listText(refs)))
  {
  }

  /** The names protocols and transports are stored under. */
  lemma StoredNames()
    ensures ProtocolName(VLESS) == "vless" && ProtocolName(VMess) == "vmess" && ProtocolName(Trojan) == "trojan"
    ensures ProtocolName(Shadowsocks) == "shadowsocks" && ProtocolName(SOCKS5) == "socks5"
    ensures ProtocolName(HTTP) == "http" && ProtocolName(SSH) == "ssh"
    ensures TransportName(TCP) == "" && TransportName(WS) == "ws"
  {
  }
}
