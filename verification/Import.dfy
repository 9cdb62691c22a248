/** Bulk import and export (core/server/links.go ParseImportData, core/server/exchange.go,
    core/server/linkgen.go ExportLinks). */
module Import {
  import opened Options
  import opened Text
  import opened Profile
  import opened Links
  import opened LinkRoundTrip
  import opened Lines
  import Repository
  import Rows

  // ---- envelopes ----

  datatype Envelope = Envelope(format: string, version: int, server: Option<ServerProfile>)

  /** JSON decoding of one envelope and of an array of them; None stands for malformed text. */
  datatype Json = Json(single: string -> Option<Envelope>, list: string -> Option<seq<Envelope>>)

  const FORMAT := "onnproxy"
  const VERSION := 1

  predicate EnvelopeOk(e: Envelope) { e.format == FORMAT && e.version == VERSION && e.server.Some? }

  /** The servers of an array, or the first envelope refused. */
  function Servers(envs: seq<Envelope>): (r: Result<seq<ServerProfile>>)
    ensures r.Ok? <==> forall i :: 0 <= i < |envs| ==> EnvelopeOk(envs[i])
    ensures r.Ok? ==> |r.value| == |envs| && forall i :: 0 <= i < |envs| ==> Some(r.value[i]) == envs[i].server
  {
    if envs == [] then Ok([])
    else
      var n := |envs| - 1;
      match Servers(envs[..n])
      case Err(e) => Err(e)
      case Ok(front) => if EnvelopeOk(envs[n]) then Ok(front + [envs[n].server.value]) else Err("unsupported envelope")
  }

  /** The loop over an array's envelopes. */
  method CollectServers(envs: seq<Envelope>) returns (r: Result<seq<ServerProfile>>)
    ensures r.Ok? <==> forall i :: 0 <= i < |envs| ==>
      envs[i].format == "onnproxy" && envs[i].version == 1 && envs[i].server.Some?
    ensures r.Ok? ==> r == Servers(envs)
    ensures r.Ok? ==> |r.value| == |envs| && forall i :: 0 <= i < |envs| ==> Some(r.value[i]) == envs[i].server
  {
    var out: seq<ServerProfile> := [];
    for i := 0 to |envs|
      invariant Ok(out) == Servers(envs[..i])
    {
      assert envs[..i + 1][..i] == envs[..i] && envs[..i + 1][i] == envs[i];
      if !EnvelopeOk(envs[i]) {
        return Err("unsupported envelope");
      }
      out := out + [envs[i].server.value];
    }
    assert envs[..|envs|] == envs;
    r := Ok(out);
  }

  function ParseEnvelopes(j: Json, data: string): Result<seq<ServerProfile>> {
    var t := Trim(data);
    if t == "" then Err("import data is empty")
    else if t[0] == '[' then
      (match j.list(t)
       case None => Err("invalid onnproxy blob")
       case Some(envs) => Servers(envs))
    else
      match j.single(t)
      case None => Err("invalid onnproxy blob")
      case Some(env) => Servers([env])
  }

  // ---- payloads ----

  datatype ImportError = ImportError(index: nat, message: string)

  datatype Imported = Imported(profiles: seq<ServerProfile>, errors: seq<ImportError>)

  /** The two readers a payload is handed to: one for a link, one for envelopes. */
  datatype Parsers = Parsers(link: string -> Result<ServerProfile>, envelopes: string -> Result<seq<ServerProfile>>)

  function Readers(lib: Lib, j: Json): Parsers {
    Parsers(link => ParseLink(lib, link), text => ParseEnvelopes(j, text))
  }

  /** What one line adds. */
  function ParseLine(ps: Parsers, text: string, index: nat): Imported {
    var line := Trim(text);
    if line == "" then Imported([], [])
    else
      var r := if line[0] == '{' then ps.envelopes(line)
               else (match ps.link(line) case Ok(p) => Ok([p]) case Err(e) => Err(e));
      match r
      case Ok(found) => Imported(found, [])
      case Err(e) => Imported([], [ImportError(index, e)])
  }

  function ParseLines(ps: Parsers, lines: seq<string>): Imported {
    if lines == [] then Imported([], [])
    else
      var n := |lines| - 1;
      var front, last := ParseLines(ps, lines[..n]), ParseLine(ps, lines[n], n);
      Imported(front.profiles + last.profiles, front.errors + last.errors)
  }

  lemma NextLine(ps: Parsers, lines: seq<string>, i: nat)
    requires i < |lines|
    ensures var front, last := ParseLines(ps, lines[..i]), ParseLine(ps, lines[i], i);
      ParseLines(ps, lines[..i + 1]) == Imported(front.profiles + last.profiles, front.errors + last.errors)
  {
    assert lines[..i + 1][..i] == lines[..i] && lines[..i + 1][i] == lines[i];
  }

  predicate IsBlob(t: string) { t != "" && (t[0] == '{' || t[0] == '[') }

  /** `ParseImportData`. */
  function ParseImportData(ps: Parsers, data: string): Imported {
    var t := Trim(data);
    if t == "" then Imported([], [ImportError(0, "import data is empty")])
    else if IsBlob(t) then
      (match ps.envelopes(t)
       case Ok(found) => Imported(found, [])
       case Err(e) => Imported([], [ImportError(0, e)]))
    else ParseLines(ps, Split(t, '\n'))
  }

  method ParseImportDataLoop(ps: Parsers, data: string) returns (profiles: seq<ServerProfile>, errs: seq<ImportError>)
    ensures Imported(profiles, errs) == ParseImportData(ps, data)
  {
    var t := Trim(data);
    if t == "" {
      return [], [ImportError(0, "import data is empty")];
    }
    if t[0] == '{' || t[0] == '[' {
      var r := ps.envelopes(t);
      if r.Err? {
        return [], [ImportError(0, r.error)];
      }
      return r.value, [];
    }
    profiles, errs := [], [];
    var lines := Split(t, '\n');
    for i := 0 to |lines|
      invariant Imported(profiles, errs) == ParseLines(ps, lines[..i])
    {
      NextLine(ps, lines, i);
      var line := Trim(lines[i]);
      if line == "" {
        continue;
      }
      if line[0] == '{' {
        var envs := ps.envelopes(line);
        if envs.Err? {
          errs := errs + [ImportError(i, envs.error)];
          continue;
        }
        profiles := profiles + envs.value;
        continue;
      }
      var p := ps.link(line);
      if p.Err? {
        errs := errs + [ImportError(i, p.error)];
        continue;
      }
      profiles := profiles + [p.value];
    }
    assert lines[..|lines|] == lines;
  }

  // ---- importing ----

  /** What an import writes: a fresh, enabled profile. */
  function Fresh(p: ServerProfile): ServerProfile {
    p.(id := "", createdAt := ZERO_TIME, updatedAt := ZERO_TIME, lastLatencyMs := 0, lastTestedAt := None,
       enabled := true)
  }

  /** The i-th create call of an import, with the id and the time the system hands out. */
  function Creates(ps: seq<ServerProfile>, ids: nat -> string, clock: nat -> Instant): (ops: seq<Repository.Op>)
    ensures |ops| == |ps|
  {
    seq(|ps|, i requires 0 <= i < |ps| => Repository.CreateOp(Fresh(ps[i]), ids(i), clock(i)))
  }

  function CountValid(ps: seq<ServerProfile>): nat {
    if ps == [] then 0 else CountValid(ps[..|ps| - 1]) + (if Profile.Valid(ps[|ps| - 1]) then 1 else 0)
  }

  /** What a created import reads as: it bears the id and the times handed out, is enabled and
      unmeasured, and otherwise is what was parsed. */
  lemma ImportedReads(f: Repository.Format, v: Repository.Repo, p: ServerProfile, id: string, now: Instant)
    requires Repository.FormatOk(f) && Repository.Sound(f, v) && Profile.Valid(p)
    requires Rows.InstantOk(now) && Rows.InstantOk(ZERO_TIME)
    ensures var got := Repository.Get(f, Repository.Apply(f, v, Repository.CreateOp(Fresh(p), id, now)), id);
      && got.Ok? && got.value.id == id && got.value.enabled
      && got.value.lastLatencyMs == 0 && got.value.lastTestedAt == None
      && got.value.createdAt == Rows.Truncated(now) && got.value.updatedAt == Rows.Truncated(now)
      && got.value.name == p.name && got.value.protocol == p.protocol && got.value.address == p.address
      && got.value.port == p.port && got.value.password == p.password && got.value.uuid == p.uuid
  {
    FreshValid(p);
    Repository.CreatedReads(f, v, Fresh(p), id, now);
    FreshBody(p, Repository.Get(f, Repository.Apply(f, v, Repository.CreateOp(Fresh(p), id, now)), id).value);
  }

  lemma FreshBody(p: ServerProfile, q: ServerProfile)
    requires Repository.Body(q) == Repository.Body(Rows.Canonical(Fresh(p)))
    ensures q.enabled && q.lastLatencyMs == 0 && q.lastTestedAt == None
    ensures q.name == p.name && q.protocol == p.protocol && q.address == p.address && q.port == p.port
    ensures q.password == p.password && q.uuid == p.uuid
  {
    var b, c := Repository.Body(q), Repository.Body(Rows.Canonical(Fresh(p)));
    assert q.enabled == b.enabled && q.lastLatencyMs == b.lastLatencyMs && q.lastTestedAt == b.lastTestedAt;
    assert q.name == b.name && q.protocol == b.protocol && q.address == b.address && q.port == b.port;
    assert q.password == b.password && q.uuid == b.uuid;
  }

  lemma FreshValid(p: ServerProfile)
    ensures Profile.Valid(Fresh(p)) <==> Profile.Valid(p)
  {
  }

  lemma {:induction false} AllValid(ps: seq<ServerProfile>)
    requires forall p :: p in ps ==> Profile.Valid(p)
    ensures CountValid(ps) == |ps|
  {
    if ps == [] {
    } else {
      AllValid(ps[..|ps| - 1]);
    }
  }

  /** `ImportServers`: parse, then create one server after another. What was added or failed is, for
      a payload of lines, each of its non-blank lines once; what was added is each valid profile. */
  method ImportServers(lib: Lib, j: Json, data: string, repo: Repository.ServerRepository,
                       ids: nat -> string, clock: nat -> Instant)
    returns (added: nat, failed: nat, errs: seq<ImportError>)
    modifies repo
    ensures var parsed := ParseImportData(Readers(lib, j), data);
      && failed == |errs| && parsed.errors <= errs
      && added == CountValid(parsed.profiles)
      && added + failed == |parsed.profiles| + |parsed.errors|
      && repo.View() == Repository.Run(repo.format, old(repo.View()), Creates(parsed.profiles, ids, clock))
    ensures Trim(data) != "" && !IsBlob(Trim(data)) ==> added + failed == NonBlank(Split(data, '\n'))
  {
    ghost var parsed := ParseImportData(Readers(lib, j), data);
    var profiles;
    profiles, errs := ParseImportDataLoop(Readers(lib, j), data);
    if Trim(data) != "" && !IsBlob(Trim(data)) {
      EveryLineCountsOnce(lib, j, data);
    }
    added, failed, errs := CreateAll(profiles, errs, repo, ids, clock);
  }

  /** The loop over the parsed profiles. */
  method CreateAll(profiles: seq<ServerProfile>, parseErrs: seq<ImportError>, repo: Repository.ServerRepository,
                   ids: nat -> string, clock: nat -> Instant)
    returns (added: nat, failed: nat, errs: seq<ImportError>)
    modifies repo
    ensures failed == |errs| && parseErrs <= errs
    ensures added == CountValid(profiles) && added + failed == |profiles| + |parseErrs|
    ensures repo.View() == Repository.Run(repo.format, old(repo.View()), Creates(profiles, ids, clock))
  {
    ghost var ops := Creates(profiles, ids, clock);
    errs := parseErrs;
    failed, added := |errs|, 0;
    assert ops[0..] == ops;
    for i := 0 to |profiles|
      invariant failed == |errs| && parseErrs <= errs
      invariant added == CountValid(profiles[..i]) && added + failed == i + |parseErrs|
      invariant Repository.Run(repo.format, repo.View(), ops[i..])
             == Repository.Run(repo.format, old(repo.View()), ops)
    {
      assert profiles[..i + 1][..i] == profiles[..i];
      assert ops[i..][0] == Repository.CreateOp(Fresh(profiles[i]), ids(i), clock(i)) && ops[i..][1..] == ops[i + 1..];
      FreshValid(profiles[i]);
      var id := repo.CreateProfile(Fresh(profiles[i]), ids(i), clock(i));
      if id.Err? {
        failed := failed + 1;
        errs := errs + [ImportError(i, id.error)];
        continue;
      }
      added := added + 1;
    }
    assert profiles[..|profiles|] == profiles && ops[|profiles|..] == [];
  }

  // ---- every non-blank line is counted once ----

  /** An object holds one envelope. */
  ghost predicate OnePerObject(ps: Parsers) {
    forall t :: t != "" && t[0] == '{' && Trimmed(t) && ps.envelopes(t).Ok? ==> |ps.envelopes(t).value| == 1
  }

  lemma ReadersHaveOnePerObject(lib: Lib, j: Json)
    ensures OnePerObject(Readers(lib, j))
  {
    forall t | t != "" && t[0] == '{' && Trimmed(t) && ParseEnvelopes(j, t).Ok?
      ensures |ParseEnvelopes(j, t).value| == 1
    {
      TrimmedIsFixed(t);
    }
  }

  lemma LineCount(ps: Parsers, text: string, index: nat)
    requires OnePerObject(ps)
    ensures var r := ParseLine(ps, text, index);
      |r.profiles| + |r.errors| == (if Trim(text) == "" then 0 else 1)
  {
    TrimIsTrimmed(text);
  }

  lemma {:induction false} LinesCount(ps: Parsers, lines: seq<string>)
    requires OnePerObject(ps)
    ensures var r := ParseLines(ps, lines); |r.profiles| + |r.errors| == NonBlank(lines)
  {
    if lines == [] {
    } else {
      var n := |lines| - 1;
      LinesCount(ps, lines[..n]);
      LineCount(ps, lines[n], n);
    }
  }

  /** Every payload of lines, blank ones and white space around them included: profiles and errors
      together are as many as its non-blank lines. */
  lemma EveryLineCountsOnce(lib: Lib, j: Json, data: string)
    requires Trim(data) != "" && !IsBlob(Trim(data))
    ensures var r := ParseImportData(Readers(lib, j), data);
      |r.profiles| + |r.errors| == NonBlank(Split(data, '\n'))
  {
    ReadersHaveOnePerObject(lib, j);
    LinesCount(Readers(lib, j), Split(Trim(data), '\n'));
    TrimKeepsLines(data);
  }

  predicate Fails(ps: Parsers, lines: seq<string>, i: nat)
    requires i < |lines|
  {
    ParseLine(ps, lines[i], i).errors != []
  }

  /** Errors come in line order. */
  lemma {:induction false} ErrorsAscend(ps: Parsers, lines: seq<string>)
    ensures var es := ParseLines(ps, lines).errors;
      && (forall k :: 0 <= k < |es| ==> es[k].index < |lines| && Fails(ps, lines, es[k].index))
      && (forall k, l :: 0 <= k < l < |es| ==> es[k].index < es[l].index)
  {
    if lines == [] {
    } else {
      var n := |lines| - 1;
      ErrorsAscend(ps, lines[..n]);
      NextLine(ps, lines, n);
      assert lines[..n + 1] == lines;
      var front := ParseLines(ps, lines[..n]).errors;
      forall k | 0 <= k < |front| ensures Fails(ps, lines, front[k].index) {
        assert Fails(ps, lines[..n], front[k].index);
      }
    }
  }

  /** Every line whose reading fails is named by an error; with `ErrorsAscend`, exactly once, and no
      other line is. */
  lemma {:induction false} FailuresAreNamed(ps: Parsers, lines: seq<string>, i: nat)
    requires i < |lines| && Fails(ps, lines, i)
    ensures exists e :: e in ParseLines(ps, lines).errors && e.index == i
  {
    var n := |lines| - 1;
    NextLine(ps, lines, n);
    assert lines[..n + 1] == lines;
    if i < n {
      FailuresAreNamed(ps, lines[..n], i);
      var e :| e in ParseLines(ps, lines[..n]).errors && e.index == i;
      assert e in ParseLines(ps, lines).errors;
    } else {
      var e := ParseLine(ps, lines[n], n).errors[0];
      assert e in ParseLines(ps, lines).errors;
    }
  }

  // ---- exporting ----

  /** The profiles an export covers: all of them, or those named. */
  function Selected(servers: seq<ServerProfile>, ids: seq<string>): seq<ServerProfile> {
    if servers == [] then []
    else
      var n := |servers| - 1;
      Selected(servers[..n], ids) + (if ids == [] || servers[n].id in ids then [servers[n]] else [])
  }

  /** A selection holds the servers named, or all when none is named, in their order. */
  lemma {:induction false} SelectedExactly(servers: seq<ServerProfile>, ids: seq<string>)
    ensures forall p :: p in Selected(servers, ids) <==> p in servers && (ids == [] || p.id in ids)
    ensures ids == [] ==> Selected(servers, ids) == servers
    ensures |Selected(servers, ids)| <= |servers|
  {
    if servers == [] {
    } else {
      var n := |servers| - 1;
      SelectedExactly(servers[..n], ids);
      assert servers == servers[..n] + [servers[n]];
    }
  }

  /** A payload that is one object or array is its envelopes, or one error. */
  lemma BlobMeans(lib: Lib, j: Json, data: string, t: string)
    requires t == Trim(data) && t != ""
    ensures var r := ParseImportData(Readers(lib, j), data);
      && (t[0] == '{' ==>
            if j.single(t).Some? && EnvelopeOk(j.single(t).value)
            then r == Imported([j.single(t).value.server.value], []) else r.profiles == [] && |r.errors| == 1)
      && (t[0] == '[' ==>
            if j.list(t).Some? && Servers(j.list(t).value).Ok?
            then r == Imported(Servers(j.list(t).value).value, []) else r.profiles == [] && |r.errors| == 1)
  {
    TrimIsTrimmed(data);
    if t[0] == '{' && j.single(t).Some? {
      OneServer(j.single(t).value);
    }
  }

  lemma OneServer(e: Envelope)
    ensures Servers([e]).Ok? <==> EnvelopeOk(e)
    ensures EnvelopeOk(e) ==> Servers([e]).value == [e.server.value]
  {
    assert [e][0] == e;
  }

  /** `ExportLinks`: one link per line, or the reason why there are none. */
  method ExportLinks(servers: seq<ServerProfile>, ids: seq<string>) returns (r: Result<string>)
    ensures var chosen := Selected(servers, ids);
      && (r.Ok? <==> chosen != [] && AllOk(chosen, Link))
      && (r.Ok? ==> r.value == Join(LinksOf(chosen, Link), '\n'))
  {
    var chosen := Filter(servers, ids);
    if chosen == [] {
      return Err("server: nothing to export");
    }
    r := WriteLines(chosen, Link);
  }

  type Printer = ServerProfile -> Result<string>

  predicate AllOk(ps: seq<ServerProfile>, link: Printer) { forall i :: 0 <= i < |ps| ==> link(ps[i]).Ok? }

  /** The builder loop. */
  method WriteLines(chosen: seq<ServerProfile>, link: Printer) returns (r: Result<string>)
    requires chosen != []
    ensures r.Ok? <==> AllOk(chosen, link)
    ensures r.Ok? ==> r.value == Join(LinksOf(chosen, link), '\n')
  {
    var b := "";
    for i := 0 to |chosen|
      invariant AllOk(chosen[..i], link)
      invariant b == Terminated(LinksOf(chosen[..i], link))
    {
      var next := link(chosen[i]);
      if next.Err? {
        return next;
      }
      b := b + next.value + ['\n'];
      NextLink(chosen, link, i);
    }
    assert chosen[..|chosen|] == chosen;
    TerminatedIsJoined(LinksOf(chosen, link));
    r := Ok(b[..|b| - 1]);
  }

  lemma NextLink(chosen: seq<ServerProfile>, link: Printer, i: nat)
    requires i < |chosen| && link(chosen[i]).Ok?
    ensures Terminated(LinksOf(chosen[..i + 1], link))
         == Terminated(LinksOf(chosen[..i], link)) + link(chosen[i]).value + ['\n']
  {
    var front, last := LinksOf(chosen[..i], link), link(chosen[i]).value;
    assert LinksOf(chosen[..i + 1], link) == front + [last];
    assert (front + [last])[..i] == front;
  }

  method Filter(servers: seq<ServerProfile>, ids: seq<string>) returns (chosen: seq<ServerProfile>)
    ensures chosen == Selected(servers, ids)
  {
    chosen := [];
    for i := 0 to |servers|
      invariant chosen == Selected(servers[..i], ids)
    {
      assert servers[..i + 1][..i] == servers[..i];
      if |ids| == 0 || servers[i].id in ids {
        chosen := chosen + [servers[i]];
      }
    }
    assert servers[..|servers|] == servers;
  }

  /** The links of profiles; "" where there is none. */
  function LinksOf(ps: seq<ServerProfile>, link: Printer): (r: seq<string>)
    ensures |r| == |ps|
  {
    seq(|ps|, i requires 0 <= i < |ps| => if link(ps[i]).Ok? then link(ps[i]).value else "")
  }

  /** Every part followed by a line break. */
  function Terminated(parts: seq<string>): string {
    if parts == [] then "" else Terminated(parts[..|parts| - 1]) + parts[|parts| - 1] + ['\n']
  }

  lemma {:induction false} TerminatedIsJoined(parts: seq<string>)
    ensures parts != [] ==> Terminated(parts) == Join(parts, '\n') + ['\n']
  {
    if |parts| == 1 {
      assert parts[..0] == [];
    } else if |parts| > 1 {
      var n := |parts| - 1;
      TerminatedIsJoined(parts[..n]);
      JoinLast(parts[..n], parts[n], '\n');
      assert parts == parts[..n] + [parts[n]];
    }
  }

  lemma {:induction false} JoinLast(parts: seq<string>, x: string, c: char)
    requires parts != []
    ensures Join(parts + [x], c) == Join(parts, c) + [c] + x
  {
    assert (parts + [x])[1..] == parts[1..] + [x];
    if |parts| > 1 {
      JoinLast(parts[1..], x, c);
    } else {
      assert parts[1..] + [x] == [x];
    }
  }

  // ---- what is exported can be imported ----

  function Norms(lib: Lib, ps: seq<ServerProfile>): (r: seq<ServerProfile>)
    requires forall p :: p in ps ==> Exportable(lib, p)
    ensures |r| == |ps|
  {
    seq(|ps|, i requires 0 <= i < |ps| =>
      (assert ps[i] in ps && Exportable(lib, ps[i]) && Profile.Valid(ps[i]); Norm(ps[i])))
  }

  /** A line that holds a link as it was printed. */
  predicate LinkLine(ps: Parsers, line: string, p: ServerProfile) {
    && line != "" && Visible(line[0]) && Visible(line[|line| - 1]) && line[0] != '{' && line[0] != '[' && '\n' !in line
    && ps.link(line) == Ok(p)
  }

  lemma PrintedLine(lib: Lib, j: Json, p: ServerProfile, line: string, n: ServerProfile)
    requires Exportable(lib, p) && Link(p) == Ok(line) && n == Norm(p)
    ensures LinkLine(Readers(lib, j), line, n)
  {
    LinkRoundTrips(lib, p);
    LineShape(p.protocol, line);
  }

  lemma LineShape(protocol: Protocol, s: string)
    requires SchemeName(protocol) + "://" <= s && forall c :: c in s ==> Visible(c)
    ensures s != "" && Visible(s[0]) && Visible(s[|s| - 1]) && s[0] != '{' && s[0] != '[' && '\n' !in s
  {
    assert s[0] == (SchemeName(protocol) + "://")[0];
    assert s[0] in s && s[|s| - 1] in s;
  }

  lemma LinkLineParses(ps: Parsers, line: string, p: ServerProfile, index: nat)
    requires LinkLine(ps, line, p)
    ensures ParseLine(ps, line, index) == Imported([p], [])
  {
    VisibleEndsAreTrimmed(line);
  }

  lemma {:induction false} LinkLinesParse(ps: Parsers, lines: seq<string>, found: seq<ServerProfile>)
    requires |found| == |lines| && forall i :: 0 <= i < |lines| ==> LinkLine(ps, lines[i], found[i])
    ensures ParseLines(ps, lines) == Imported(found, [])
  {
    if lines == [] {
    } else {
      var n := |lines| - 1;
      LinkLinesParse(ps, lines[..n], found[..n]);
      LinkLineParses(ps, lines[n], found[n], n);
      assert found == found[..n] + [found[n]];
    }
  }

  lemma {:induction false} JoinEnds(lines: seq<string>, c: char)
    requires lines != [] && forall i :: 0 <= i < |lines| ==> lines[i] != ""
    ensures var t := Join(lines, c);
      t != "" && t[0] == lines[0][0] && t[|t| - 1] == lines[|lines| - 1][|lines[|lines| - 1]| - 1]
  {
    if |lines| == 1 {
    } else {
      JoinEnds(lines[1..], c);
    }
  }

  lemma PayloadParses(ps: Parsers, lines: seq<string>, found: seq<ServerProfile>)
    requires lines != [] && |found| == |lines| && forall i :: 0 <= i < |lines| ==> LinkLine(ps, lines[i], found[i])
    ensures ParseImportData(ps, Join(lines, '\n')) == Imported(found, [])
  {
    var t := Join(lines, '\n');
    JoinEnds(lines, '\n');
    VisibleEndsAreTrimmed(t);
    SplitJoin(lines, '\n');
    LinkLinesParse(ps, lines, found);
  }

  lemma PrintedLinksExist(lib: Lib, p: ServerProfile)
    requires Exportable(lib, p)
    ensures Link(p).Ok?
  {
    LinkIs(p);
  }

  lemma NormsAreValid(lib: Lib, ps: seq<ServerProfile>)
    requires forall p :: p in ps ==> Exportable(lib, p)
    ensures CountValid(Norms(lib, ps)) == |ps|
  {
    var ns := Norms(lib, ps);
    forall n | n in ns ensures Profile.Valid(n) {
      var i :| 0 <= i < |ns| && ns[i] == n;
      assert ps[i] in ps;
      NormIsValid(lib, ps[i]);
    }
    AllValid(ns);
  }

  lemma NormIsValid(lib: Lib, p: ServerProfile)
    requires Exportable(lib, p)
    ensures Profile.Valid(Norm(p))
  {
    LinkRoundTrips(lib, p);
    ParsedLinksAreValid(lib, Link(p).value);
  }

  /** Importing an export gives the normal forms, in order and without errors, and adds them all. */
  lemma ExportedIsImported(lib: Lib, j: Json, ps: seq<ServerProfile>)
    requires ps != [] && forall p :: p in ps ==> Exportable(lib, p)
    ensures ParseImportData(Readers(lib, j), Join(LinksOf(ps, Link), '\n')) == Imported(Norms(lib, ps), [])
    ensures CountValid(Norms(lib, ps)) == |ps|
  {
    NormsAreValid(lib, ps);
    var lines := LinksOf(ps, Link);
    forall i | 0 <= i < |lines| ensures LinkLine(Readers(lib, j), lines[i], Norms(lib, ps)[i]) {
      assert ps[i] in ps;
      PrintedLinksExist(lib, ps[i]);
      PrintedLine(lib, j, ps[i], lines[i], Norm(ps[i]));
    }
    PayloadParses(Readers(lib, j), lines, Norms(lib, ps));
  }

  /** Profiles read from link lines are valid, so an import adds every one of them. */
  lemma {:induction false} LinkProfilesAreAdded(lib: Lib, j: Json, lines: seq<string>)
    requires forall i :: 0 <= i < |lines| ==> !("{" <= Trim(lines[i]))
    ensures var ps := ParseLines(Readers(lib, j), lines).profiles;
      (forall p :: p in ps ==> Profile.Valid(p)) && CountValid(ps) == |ps|
  {
    if lines == [] {
    } else {
      var n := |lines| - 1;
      LinkProfilesAreAdded(lib, j, lines[..n]);
      assert !("{" <= Trim(lines[n]));
      LinkLineValid(lib, j, lines[n], n);
      AllValid(ParseLines(Readers(lib, j), lines).profiles);
    }
  }

  lemma LinkLineValid(lib: Lib, j: Json, text: string, index: nat)
    requires !("{" <= Trim(text))
    ensures forall p :: p in ParseLine(Readers(lib, j), text, index).profiles ==> Profile.Valid(p)
  {
    ParsedLinksAreValid(lib, Trim(text));
  }
}
