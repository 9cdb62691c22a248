/** Server profiles split between a table and a secret store (core/store/server_repository.go).
    Together they behave like one map from id to profile. Store errors are not modelled. */
module Repository {
  import opened Options
  import opened Text
  import opened Profile
  import opened Rows

  const REF_PASSWORD := "password"
  const REF_UUID := "uuid"
  const REF_SSH_KEY := "ssh.privatekey"

  predicate KnownRef(ref: string) { ref == REF_PASSWORD || ref == REF_UUID || ref == REF_SSH_KEY }

  const KEY_PREFIX := "omniproxy.server."

  /** The key of the at-rest data key, kept in the same store. */
  const DATA_KEY := "omniproxy.atrest.key"

  /** `SecretStoreKey`. */
  function Key(id: string, ref: string): string { KEY_PREFIX + id + "." + ref }

  datatype Repo = Repo(table: map<string, Row>, secrets: map<string, string>)

  // ---- the row format ----

  /** How a profile and its refs are written to and read from a row: `serverValues`, `scanServer`
      and `querySecretRefs`, which reads the refs column alone. */
  datatype Format = Format(
    values: (ServerProfile, seq<string>) -> Row,
    scan: Row -> Option<Scanned>,
    refs: Row -> Option<seq<string>>)

  function RowRefs(k: Codec, row: Row): Option<seq<string>> {
    if |row| == 40 && row[39].TextCell? then ReadList(k, row[39].text) else None
  }

  /** The format of core/store/rows.go. */
  function RowFormat(k: Codec): Format {
    Format((p, refs) => ServerValues(k, p, refs), row => ScanServer(k, row), row => RowRefs(k, row))
  }

  predicate BlankCredentials(row: Row) {
    |row| == 40 && row[6] == row[8] == row[26] == TextCell("")
  }

  /** What the repository needs of its format. */
  ghost predicate FormatOk(f: Format) {
    forall p, refs {:trigger f.values(p, refs)} :: TimesOk(p) && NamesOk(p) && AllKnown(refs) ==>
      && f.scan(f.values(p, refs)) == Some(Scanned(Canonical(p), refs))
      && f.refs(f.values(p, refs)) == Some(refs)
      && (p == Sanitized(p) ==> BlankCredentials(f.values(p, refs)))
  }

  /** The forty columns have it, given faithful codecs. */
  lemma RowFormatOk(k: Codec)
    requires Faithful(k)
    ensures FormatOk(RowFormat(k))
  {
    var f := RowFormat(k);
    forall p, refs | TimesOk(p) && NamesOk(p) && AllKnown(refs)
      ensures f.scan(f.values(p, refs)) == Some(Scanned(Canonical(p), refs))
      ensures f.refs(f.values(p, refs)) == Some(refs)
      ensures p == Sanitized(p) ==> BlankCredentials(f.values(p, refs))
    {
      WrittenRow(k, p, refs);
    }
  }

  lemma WrittenRow(k: Codec, p: ServerProfile, refs: seq<string>)
    requires Faithful(k) && TimesOk(p) && NamesOk(p) && AllKnown(refs)
    ensures var row := ServerValues(k, p, refs);
      && ScanServer(k, row) == Some(Scanned(Canonical(p), refs))
      && RowRefs(k, row) == Some(refs)
      && (p == Sanitized(p) ==> BlankCredentials(row))
  {
    KnownRefsAreKept(refs);
    RowRoundTrip(k, p, refs);
    WrittenScannable(k, p, refs);
    EndpointTrip(k, p, refs);
    BlocksTrip(k, p, refs);
    LabelsTrip(k, p, refs);
  }

  ghost predicate AllKnown(refs: seq<string>) { forall ref :: ref in refs ==> KnownRef(ref) }

  /** The names of the refs are ASCII. */
  lemma KnownRefsAreKept(refs: seq<string>)
    requires AllKnown(refs)
    ensures RepairAll(refs) == refs
  {
    forall i | 0 <= i < |refs| ensures Utf8(refs[i]) {
      assert refs[i] in refs;
      AsciiIsUtf8(refs[i]);
    }
    ListKeptExactly(refs);
  }

  // ---- secrets of a profile ----

  function RefsFor(p: ServerProfile): seq<string> {
    (if p.password != "" then [REF_PASSWORD] else [])
    + (if p.uuid != "" then [REF_UUID] else [])
    + (if p.ssh.privateKey != "" then [REF_SSH_KEY] else [])
  }

  function SecretValue(p: ServerProfile, ref: string): string {
    if ref == REF_PASSWORD then p.password
    else if ref == REF_UUID then p.uuid
    else if ref == REF_SSH_KEY then p.ssh.privateKey
    else ""
  }

  function SetSecret(p: ServerProfile, ref: string, v: string): ServerProfile {
    if ref == REF_PASSWORD then p.(password := v)
    else if ref == REF_UUID then p.(uuid := v)
    else if ref == REF_SSH_KEY then p.(ssh := p.ssh.(privateKey := v))
    else p
  }

  function Sanitized(p: ServerProfile): ServerProfile {
    p.(password := "", uuid := "", ssh := p.ssh.(privateKey := ""))
  }

  lemma RefsAreKnown(p: ServerProfile, ref: string)
    ensures ref in RefsFor(p) <==> KnownRef(ref) && SecretValue(p, ref) != ""
  {
  }

  // ---- the operations ----

  function StoreSecrets(secrets: map<string, string>, p: ServerProfile, refs: seq<string>): map<string, string>
    decreases |refs|
  {
    if refs == [] then secrets
    else StoreSecrets(secrets[Key(p.id, refs[0]) := SecretValue(p, refs[0])], p, refs[1..])
  }

  function DropSecrets(secrets: map<string, string>, id: string, refs: seq<string>): map<string, string>
    decreases |refs|
  {
    if refs == [] then secrets else DropSecrets(secrets - {Key(id, refs[0])}, id, refs[1..])
  }

  /** The refs of a row that a new profile no longer needs. */
  function Vanished(refs: seq<string>, kept: seq<string>): seq<string> {
    if refs == [] then []
    else (if refs[0] in kept then [] else [refs[0]]) + Vanished(refs[1..], kept)
  }

  /** `restoreSecrets`: a missing secret leaves the field as it is. */
  function Restore(secrets: map<string, string>, p: ServerProfile, refs: seq<string>): ServerProfile
    decreases |refs|
  {
    if refs == [] then p
    else
      var key := Key(p.id, refs[0]);
      Restore(secrets, if key in secrets then SetSecret(p, refs[0], secrets[key]) else p, refs[1..])
  }

  function Persist(f: Format, v: Repo, p: ServerProfile): Repo {
    Repo(v.table[p.id := f.values(Sanitized(p), RefsFor(p))],
         StoreSecrets(v.secrets, p, RefsFor(p)))
  }

  /** What `Create` fills in: an id and timestamps where absent. */
  function Stamped(p: ServerProfile, freshId: string, now: Instant): ServerProfile {
    p.(id := if p.id == "" then freshId else p.id,
       createdAt := if p.createdAt == ZERO_TIME then now else p.createdAt,
       updatedAt := if p.updatedAt == ZERO_TIME then now else p.updatedAt)
  }

  /** An operation either fails and changes nothing, or succeeds. */
  function Create(f: Format, v: Repo, p: ServerProfile, freshId: string, now: Instant): Result<Repo> {
    if !Valid(p) then Err("validation failed") else Ok(Persist(f, v, Stamped(p, freshId, now)))
  }

  function Replacement(p: ServerProfile, created: Instant, now: Instant): ServerProfile {
    p.(createdAt := created, updatedAt := now)
  }

  function Update(f: Format, v: Repo, p: ServerProfile, now: Instant): Result<Repo> {
    if !Valid(p) then Err("validation failed")
    else if p.id !in v.table then Err("store: server not found")
    else
      match f.scan(v.table[p.id])
      case None => Err("store: unreadable row")
      case Some(row) =>
        var dropped := DropSecrets(v.secrets, p.id, Vanished(row.refs, RefsFor(p)));
        Ok(Persist(f, v.(secrets := dropped), Replacement(p, row.profile.createdAt, now)))
  }

  function Get(f: Format, v: Repo, id: string): Result<ServerProfile> {
    if id !in v.table then Err("store: server not found")
    else
      match f.scan(v.table[id])
      case None => Err("store: unreadable row")
      case Some(row) => Ok(Restore(v.secrets, row.profile, row.refs))
  }

  function Delete(f: Format, v: Repo, id: string): Result<Repo> {
    if id !in v.table then Err("store: server not found")
    else
      match f.refs(v.table[id])
      case None => Err("store: unreadable row")
      case Some(refs) => Ok(Repo(v.table - {id}, DropSecrets(v.secrets, id, refs)))
  }

  // ---- keys ----

  /** A key names its server and its field: whatever the id contains, dots included. */
  lemma KeyInjective(id1: string, ref1: string, id2: string, ref2: string)
    requires KnownRef(ref1) && KnownRef(ref2) && Key(id1, ref1) == Key(id2, ref2)
    ensures id1 == id2 && ref1 == ref2
  {
    var k1, k2 := Key(id1, ref1), Key(id2, ref2);
    assert k1[|k1| - 1] == ref1[|ref1| - 1] && k2[|k2| - 1] == ref2[|ref2| - 1];
    assert k1[|k1| - 2] == ref1[|ref1| - 2] && k2[|k2| - 2] == ref2[|ref2| - 2];
    assert ref1 == ref2;
    assert |id1| == |id2|;
    assert k1[|KEY_PREFIX|..|KEY_PREFIX| + |id1|] == id1;
    assert k2[|KEY_PREFIX|..|KEY_PREFIX| + |id2|] == id2;
  }

  predicate ServerKey(key: string) { KEY_PREFIX <= key }

  lemma DataKeyIsNoServerKey(id: string, ref: string)
    ensures ServerKey(Key(id, ref)) && !ServerKey(DATA_KEY)
  {
    assert KEY_PREFIX[10] == 's' && DATA_KEY[10] == 'a';
    assert Key(id, ref) == KEY_PREFIX + (id + "." + ref);
  }

  // ---- what the loops over refs do ----

  ghost predicate KeyOf(key: string, id: string, refs: seq<string>) {
    exists ref :: ref in refs && key == Key(id, ref)
  }

  lemma {:induction false} StoreSecretsSpec(secrets: map<string, string>, p: ServerProfile, refs: seq<string>)
    requires AllKnown(refs)
    ensures var after := StoreSecrets(secrets, p, refs);
      && (forall key :: key in after <==> key in secrets || KeyOf(key, p.id, refs))
      && (forall ref :: ref in refs ==> after[Key(p.id, ref)] == SecretValue(p, ref))
      && (forall key :: key in secrets && !KeyOf(key, p.id, refs) ==> after[key] == secrets[key])
    decreases |refs|
  {
    if refs == [] {
    } else {
      var next := secrets[Key(p.id, refs[0]) := SecretValue(p, refs[0])];
      StoreSecretsSpec(next, p, refs[1..]);
      var after := StoreSecrets(next, p, refs[1..]);
      forall key ensures KeyOf(key, p.id, refs) <==> key == Key(p.id, refs[0]) || KeyOf(key, p.id, refs[1..]) {
        KeyOfCons(key, p.id, refs);
      }
      if !KeyOf(Key(p.id, refs[0]), p.id, refs[1..]) {
        assert after[Key(p.id, refs[0])] == SecretValue(p, refs[0]);
      } else {
        var ref :| ref in refs[1..] && Key(p.id, refs[0]) == Key(p.id, ref);
        KeyInjective(p.id, refs[0], p.id, ref);
      }
    }
  }

  lemma KeyOfCons(key: string, id: string, refs: seq<string>)
    requires refs != []
    ensures KeyOf(key, id, refs) <==> key == Key(id, refs[0]) || KeyOf(key, id, refs[1..])
  {
    assert refs == [refs[0]] + refs[1..];
  }

  lemma {:induction false} DropSecretsSpec(secrets: map<string, string>, id: string, refs: seq<string>)
    ensures var after := DropSecrets(secrets, id, refs);
      && (forall key :: key in after <==> key in secrets && !KeyOf(key, id, refs))
      && (forall key :: key in after ==> after[key] == secrets[key])
    decreases |refs|
  {
    if refs == [] {
      assert forall key :: !KeyOf(key, id, refs);
    } else {
      var next := secrets - {Key(id, refs[0])};
      DropSecretsSpec(next, id, refs[1..]);
      var after := DropSecrets(next, id, refs[1..]);
      forall key
        ensures key in after <==> key in secrets && !KeyOf(key, id, refs)
        ensures key in after ==> after[key] == secrets[key]
      {
        KeyOfCons(key, id, refs);
        assert key in next <==> key in secrets && key != Key(id, refs[0]);
      }
    }
  }

  lemma {:induction false} VanishedSpec(refs: seq<string>, kept: seq<string>, ref: string)
    ensures ref in Vanished(refs, kept) <==> ref in refs && ref !in kept
  {
    if refs == [] {
    } else {
      VanishedSpec(refs[1..], kept, ref);
      assert refs == [refs[0]] + refs[1..];
    }
  }

  /** The value a restored field takes. */
  function Restored(secrets: map<string, string>, id: string, refs: seq<string>, ref: string, was: string): string {
    if ref in refs && Key(id, ref) in secrets then secrets[Key(id, ref)] else was
  }

  lemma {:induction false} RestoreFields(secrets: map<string, string>, p: ServerProfile, refs: seq<string>)
    ensures var r := Restore(secrets, p, refs);
      && Sanitized(r) == Sanitized(p)
      && r.password == Restored(secrets, p.id, refs, REF_PASSWORD, p.password)
      && r.uuid == Restored(secrets, p.id, refs, REF_UUID, p.uuid)
      && r.ssh.privateKey == Restored(secrets, p.id, refs, REF_SSH_KEY, p.ssh.privateKey)
    decreases |refs|
  {
    if refs == [] {
    } else {
      var key := Key(p.id, refs[0]);
      var q := if key in secrets then SetSecret(p, refs[0], secrets[key]) else p;
      SetSecretFields(p, refs[0], if key in secrets then secrets[key] else "");
      RestoreFields(secrets, q, refs[1..]);
      RestoredCons(secrets, p.id, refs, REF_PASSWORD, p.password);
      RestoredCons(secrets, p.id, refs, REF_UUID, p.uuid);
      RestoredCons(secrets, p.id, refs, REF_SSH_KEY, p.ssh.privateKey);
    }
  }

  lemma SetSecretFields(p: ServerProfile, ref: string, v: string)
    ensures var q := SetSecret(p, ref, v);
      && q.id == p.id && Sanitized(q) == Sanitized(p)
      && q.password == (if ref == REF_PASSWORD then v else p.password)
      && q.uuid == (if ref == REF_UUID then v else p.uuid)
      && q.ssh.privateKey == (if ref == REF_SSH_KEY then v else p.ssh.privateKey)
  {
  }

  lemma RestoredCons(secrets: map<string, string>, id: string, refs: seq<string>, ref: string, was: string)
    requires refs != []
    ensures Restored(secrets, id, refs, ref, was)
         == Restored(secrets, id, refs[1..], ref,
                     if ref == refs[0] && Key(id, ref) in secrets then secrets[Key(id, ref)] else was)
  {
    assert refs == [refs[0]] + refs[1..];
  }

  /** A profile is its sanitized form plus its three credentials. */
  lemma SameProfile(p: ServerProfile, q: ServerProfile)
    requires Sanitized(p) == Sanitized(q)
    requires p.password == q.password && p.uuid == q.uuid && p.ssh.privateKey == q.ssh.privateKey
    ensures p == q
  {
    var c := Sanitized(p);
    assert p == c.(password := p.password, uuid := p.uuid, ssh := c.ssh.(privateKey := p.ssh.privateKey));
    assert q == c.(password := q.password, uuid := q.uuid, ssh := c.ssh.(privateKey := q.ssh.privateKey));
  }

  // ---- the invariant ----

  /** Row `id` reads back, holds no credential, and every secret it refers to is stored. */
  ghost predicate RowSound(f: Format, v: Repo, id: string)
    requires id in v.table
  {
    && BlankCredentials(v.table[id])
    && f.scan(v.table[id]).Some?
    && var row := f.scan(v.table[id]).value;
    && row.profile.id == id
    && f.refs(v.table[id]) == Some(row.refs)
    && AllKnown(row.refs)
    && InstantOk(row.profile.createdAt) && WholeSeconds(row.profile.createdAt)
    && (forall ref :: ref in row.refs ==> Key(id, ref) in v.secrets)
  }

  ghost predicate Sound(f: Format, v: Repo) {
    forall id :: id in v.table ==> RowSound(f, v, id)
  }

  /** The map the repository stands for. */
  ghost function Contents(f: Format, v: Repo): map<string, ServerProfile> {
    map id | id in v.table && Get(f, v, id).Ok? :: Get(f, v, id).value
  }

  lemma SoundIsReadable(f: Format, v: Repo)
    requires Sound(f, v)
    ensures Contents(f, v).Keys == v.table.Keys
  {
    forall id | id in v.table ensures Get(f, v, id).Ok? {
      assert RowSound(f, v, id);
    }
  }

  /** Secrets of server `id` as its row sees them are the same in both stores. */
  ghost predicate SameSecrets(a: map<string, string>, b: map<string, string>, id: string) {
    forall ref :: KnownRef(ref) ==>
      && (Key(id, ref) in a <==> Key(id, ref) in b)
      && (Key(id, ref) in a ==> a[Key(id, ref)] == b[Key(id, ref)])
  }

  /** An untouched row with untouched secrets is read as before. */
  lemma GetFrame(f: Format, v: Repo, w: Repo, id: string)
    requires id in v.table && id in w.table && v.table[id] == w.table[id]
    requires RowSound(f, v, id) && SameSecrets(v.secrets, w.secrets, id)
    ensures Get(f, w, id) == Get(f, v, id) && RowSound(f, w, id)
  {
    var row := f.scan(v.table[id]).value;
    RestoreFields(v.secrets, row.profile, row.refs);
    RestoreFields(w.secrets, row.profile, row.refs);
    SameProfile(Restore(v.secrets, row.profile, row.refs), Restore(w.secrets, row.profile, row.refs));
  }

  lemma OtherKeysDiffer(id: string, other: string, refs: seq<string>, ref: string)
    requires id != other && AllKnown(refs) && KnownRef(ref)
    ensures !KeyOf(Key(other, ref), id, refs)
  {
    if KeyOf(Key(other, ref), id, refs) {
      var r :| r in refs && Key(other, ref) == Key(id, r);
      KeyInjective(other, ref, id, r);
    }
  }

  lemma RefsForKnown(p: ServerProfile)
    ensures AllKnown(RefsFor(p))
  {
    forall ref | ref in RefsFor(p) ensures KnownRef(ref) {
      RefsAreKnown(p, ref);
    }
  }

  lemma StoreKeepsOthers(secrets: map<string, string>, p: ServerProfile, other: string)
    requires other != p.id
    ensures SameSecrets(secrets, StoreSecrets(secrets, p, RefsFor(p)), other)
  {
    RefsForKnown(p);
    StoreSecretsSpec(secrets, p, RefsFor(p));
    forall ref | KnownRef(ref) ensures !KeyOf(Key(other, ref), p.id, RefsFor(p)) {
      OtherKeysDiffer(p.id, other, RefsFor(p), ref);
    }
  }

  lemma DropKeepsOthers(secrets: map<string, string>, id: string, refs: seq<string>, other: string)
    requires other != id && AllKnown(refs)
    ensures SameSecrets(secrets, DropSecrets(secrets, id, refs), other)
  {
    DropSecretsSpec(secrets, id, refs);
    forall ref | KnownRef(ref) ensures !KeyOf(Key(other, ref), id, refs) {
      OtherKeysDiffer(id, other, refs, ref);
    }
  }

  /** The stored secrets of a persisted profile put its credentials back. */
  lemma PersistedSecrets(secrets: map<string, string>, p: ServerProfile)
    ensures var after := StoreSecrets(secrets, p, RefsFor(p));
      && Restore(after, Canonical(Sanitized(p)), RefsFor(p)) == Canonical(p)
      && (forall ref :: ref in RefsFor(p) ==> Key(p.id, ref) in after)
  {
    var refs := RefsFor(p);
    RefsForKnown(p);
    StoreSecretsSpec(secrets, p, refs);
    var after := StoreSecrets(secrets, p, refs);
    RestoreFields(after, Canonical(Sanitized(p)), refs);
    RefsAreKnown(p, REF_PASSWORD);
    RefsAreKnown(p, REF_UUID);
    RefsAreKnown(p, REF_SSH_KEY);
    forall ref | ref in refs ensures Key(p.id, ref) in after {
      assert KeyOf(Key(p.id, ref), p.id, refs);
    }
    SameProfile(Restore(after, Canonical(Sanitized(p)), refs), Canonical(p));
  }

  /** Reading what was just written gives the canonical profile, credentials included. */
  lemma GetAfterPersist(f: Format, v: Repo, p: ServerProfile)
    requires FormatOk(f) && TimesOk(p) && NamesOk(p)
    ensures Get(f, Persist(f, v, p), p.id) == Ok(Canonical(p))
    ensures RowSound(f, Persist(f, v, p), p.id)
  {
    var row := f.values(Sanitized(p), RefsFor(p));
    RefsForKnown(p);
    PersistedSecrets(v.secrets, p);
    assert Seconds(Truncated(p.createdAt)) == Seconds(p.createdAt);
  }

  lemma PersistKeepsOthers(f: Format, v: Repo, p: ServerProfile, id: string)
    requires id in v.table && id != p.id && RowSound(f, v, id)
    ensures Get(f, Persist(f, v, p), id) == Get(f, v, id) && RowSound(f, Persist(f, v, p), id)
  {
    StoreKeepsOthers(v.secrets, p, id);
    GetFrame(f, v, Persist(f, v, p), id);
  }

  // ---- operations as map updates ----

  datatype Op =
    | CreateOp(p: ServerProfile, freshId: string, now: Instant)
    | UpdateOp(p: ServerProfile, now: Instant)
    | DeleteOp(id: string)

  /** Times RFC 3339 can carry. */
  predicate OpTimesOk(op: Op) {
    match op
    case CreateOp(p, _, now) => TimesOk(p) && InstantOk(now)
    case UpdateOp(p, now) => TimesOk(p) && InstantOk(now)
    case DeleteOp(_) => true
  }

  function Apply(f: Format, v: Repo, op: Op): Repo {
    var r := match op
      case CreateOp(p, freshId, now) => Create(f, v, p, freshId, now)
      case UpdateOp(p, now) => Update(f, v, p, now)
      case DeleteOp(id) => Delete(f, v, id);
    if r.Ok? then r.value else v
  }

  /** The same operation on a plain map. */
  function MapApply(m: map<string, ServerProfile>, op: Op): map<string, ServerProfile> {
    match op
    case CreateOp(p, freshId, now) =>
      if !Valid(p) then m else m[Stamped(p, freshId, now).id := Canonical(Stamped(p, freshId, now))]
    case UpdateOp(p, now) =>
      if !Valid(p) || p.id !in m then m
      else m[p.id := Canonical(Replacement(p, m[p.id].createdAt, now))]
    case DeleteOp(id) => m - {id}
  }

  function Run(f: Format, v: Repo, ops: seq<Op>): Repo
    decreases |ops|
  {
    if ops == [] then v else Run(f, Apply(f, v, ops[0]), ops[1..])
  }

  function MapRun(m: map<string, ServerProfile>, ops: seq<Op>): map<string, ServerProfile>
    decreases |ops|
  {
    if ops == [] then m else MapRun(MapApply(m, ops[0]), ops[1..])
  }

  /** Repository `w` is `v` with the row of `id` rewritten so that it reads `q`. */
  ghost predicate Rewritten(f: Format, v: Repo, w: Repo, id: string, q: ServerProfile) {
    && w.table.Keys == v.table.Keys + {id}
    && RowSound(f, w, id) && Get(f, w, id) == Ok(q)
    && forall other :: other in v.table && other != id ==> RowSound(f, w, other) && Get(f, w, other) == Get(f, v, other)
  }

  lemma RewrittenSound(f: Format, v: Repo, w: Repo, id: string, q: ServerProfile)
    requires Sound(f, v) && Rewritten(f, v, w, id, q)
    ensures Sound(f, w)
  {
    forall other | other in w.table ensures RowSound(f, w, other) {
      assert other == id || other in v.table;
    }
  }

  lemma RewrittenContents(f: Format, v: Repo, w: Repo, id: string, q: ServerProfile)
    requires Contents(f, v).Keys == v.table.Keys && Contents(f, w).Keys == w.table.Keys
    requires w.table.Keys == v.table.Keys + {id} && Get(f, w, id) == Ok(q)
    requires forall other :: other in v.table && other != id ==> Get(f, w, other) == Get(f, v, other)
    ensures Contents(f, w) == Contents(f, v)[id := q]
  {
    MapsEqual(Contents(f, w), Contents(f, v)[id := q]);
  }

  lemma RewrittenRefines(f: Format, v: Repo, w: Repo, id: string, q: ServerProfile)
    requires Sound(f, v) && Rewritten(f, v, w, id, q)
    ensures Sound(f, w) && Contents(f, w) == Contents(f, v)[id := q]
  {
    RewrittenSound(f, v, w, id, q);
    SoundIsReadable(f, v);
    SoundIsReadable(f, w);
    RewrittenContents(f, v, w, id, q);
  }

  lemma PersistRewrites(f: Format, v: Repo, p: ServerProfile, w: Repo)
    requires FormatOk(f) && TimesOk(p) && NamesOk(p)
    requires forall id :: id in v.table && id != p.id ==> RowSound(f, v, id)
    requires w == Persist(f, v, p)
    ensures Rewritten(f, v, w, p.id, Canonical(p))
  {
    GetAfterPersist(f, v, p);
    forall id | id in v.table && id != p.id
      ensures RowSound(f, w, id) && Get(f, w, id) == Get(f, v, id)
    {
      PersistKeepsOthers(f, v, p, id);
    }
  }

  lemma PersistRefines(f: Format, v: Repo, p: ServerProfile, w: Repo)
    requires FormatOk(f) && TimesOk(p) && NamesOk(p) && Sound(f, v) && w == Persist(f, v, p)
    ensures Sound(f, w)
    ensures Contents(f, w) == Contents(f, v)[p.id := Canonical(p)]
  {
    PersistRewrites(f, v, p, w);
    RewrittenRefines(f, v, w, p.id, Canonical(p));
  }

  lemma MapsEqual(m: map<string, ServerProfile>, n: map<string, ServerProfile>)
    requires m.Keys == n.Keys && forall id :: id in m ==> m[id] == n[id]
    ensures m == n
  {
  }

  lemma CreateRefines(f: Format, v: Repo, op: Op)
    requires FormatOk(f) && Sound(f, v) && op.CreateOp? && OpTimesOk(op)
    ensures Sound(f, Apply(f, v, op))
    ensures Contents(f, Apply(f, v, op)) == MapApply(Contents(f, v), op)
  {
    if Valid(op.p) {
      var p := Stamped(op.p, op.freshId, op.now);
      ValidNames(op.p);
      PersistRefines(f, v, p, Persist(f, v, p));
    }
  }

  lemma DropRow(f: Format, v: Repo, id: string, refs: seq<string>)
    requires Sound(f, v) && AllKnown(refs)
    ensures var w := Repo(v.table - {id}, DropSecrets(v.secrets, id, refs));
      Sound(f, w) && Contents(f, w) == Contents(f, v) - {id}
  {
    var w := Repo(v.table - {id}, DropSecrets(v.secrets, id, refs));
    forall other | other in w.table ensures RowSound(f, w, other) && Get(f, w, other) == Get(f, v, other) {
      DropKeepsOthers(v.secrets, id, refs, other);
      assert RowSound(f, v, other);
      GetFrame(f, v, w, other);
    }
    SoundIsReadable(f, v);
    SoundIsReadable(f, w);
    MapsEqual(Contents(f, w), Contents(f, v) - {id});
  }

  lemma DeleteRefines(f: Format, v: Repo, id: string)
    requires Sound(f, v)
    ensures Sound(f, Apply(f, v, DeleteOp(id)))
    ensures Contents(f, Apply(f, v, DeleteOp(id))) == MapApply(Contents(f, v), DeleteOp(id))
  {
    SoundIsReadable(f, v);
    if id in v.table {
      assert RowSound(f, v, id);
      DropRow(f, v, id, f.refs(v.table[id]).value);
    } else {
      MapsEqual(Contents(f, v), Contents(f, v) - {id});
    }
  }

  /** Writing back over a row, after dropping secrets of that row. */
  lemma ReplaceRefines(f: Format, v: Repo, p: ServerProfile, refs: seq<string>, w: Repo)
    requires FormatOk(f) && TimesOk(p) && NamesOk(p) && Sound(f, v) && AllKnown(refs) && p.id in v.table
    requires w == Persist(f, v.(secrets := DropSecrets(v.secrets, p.id, refs)), p)
    ensures Sound(f, w) && Contents(f, w) == Contents(f, v)[p.id := Canonical(p)]
  {
    var u := v.(secrets := DropSecrets(v.secrets, p.id, refs));
    forall id | id in v.table && id != p.id ensures RowSound(f, u, id) && Get(f, u, id) == Get(f, v, id) {
      DropKeepsOthers(v.secrets, p.id, refs, id);
      assert RowSound(f, v, id);
      GetFrame(f, v, u, id);
    }
    PersistRewrites(f, u, p, w);
    assert Rewritten(f, v, w, p.id, Canonical(p));
    RewrittenRefines(f, v, w, p.id, Canonical(p));
  }

  lemma UpdateRefines(f: Format, v: Repo, op: Op)
    requires FormatOk(f) && Sound(f, v) && op.UpdateOp? && OpTimesOk(op)
    ensures Sound(f, Apply(f, v, op))
    ensures Contents(f, Apply(f, v, op)) == MapApply(Contents(f, v), op)
  {
    SoundIsReadable(f, v);
    var p := op.p;
    if Valid(p) && p.id in v.table {
      assert RowSound(f, v, p.id);
      var row := f.scan(v.table[p.id]).value;
      RestoreFields(v.secrets, row.profile, row.refs);
      var stored := Get(f, v, p.id).value;
      assert stored.createdAt == Sanitized(stored).createdAt == row.profile.createdAt;
      ValidNames(p);
      var refs := Vanished(row.refs, RefsFor(p));
      forall ref | ref in refs ensures KnownRef(ref) {
        VanishedSpec(row.refs, RefsFor(p), ref);
      }
      ReplaceRefines(f, v, Replacement(p, row.profile.createdAt, op.now), refs, Apply(f, v, op));
    }
  }

  /** After any sequence of operations the repository reads as the plain map after the same
      operations: Get returns, for every id, the canonical form of what was last written for it,
      with all credentials; an operation on one id never shows in another; and every stored row
      has blank credential columns. */
  lemma {:induction false} RepositoryIsAMap(f: Format, v: Repo, ops: seq<Op>)
    requires FormatOk(f) && Sound(f, v)
    requires forall op :: op in ops ==> OpTimesOk(op)
    ensures Sound(f, Run(f, v, ops))
    ensures Contents(f, Run(f, v, ops)) == MapRun(Contents(f, v), ops)
    ensures forall id :: id in Run(f, v, ops).table ==> BlankCredentials(Run(f, v, ops).table[id])
    decreases |ops|
  {
    if ops != [] {
      var op := ops[0];
      match op {
        case CreateOp(_, _, _) => CreateRefines(f, v, op);
        case UpdateOp(_, _) => UpdateRefines(f, v, op);
        case DeleteOp(id) => DeleteRefines(f, v, id);
      }
      RepositoryIsAMap(f, Apply(f, v, op), ops[1..]);
    } else {
      forall id | id in v.table ensures BlankCredentials(v.table[id]) {
        assert RowSound(f, v, id);
      }
    }
  }

  /** The same for the forty-column format, from an empty table and any secret store. */
  lemma ServersReadBackAsWritten(k: Codec, secrets: map<string, string>, ops: seq<Op>, id: string)
    requires Faithful(k) && forall op :: op in ops ==> OpTimesOk(op)
    ensures var v := Run(RowFormat(k), Repo(map[], secrets), ops);
      Get(RowFormat(k), v, id) ==
        if id in MapRun(map[], ops) then Ok(MapRun(map[], ops)[id]) else Err("store: server not found")
  {
    var f := RowFormat(k);
    RowFormatOk(k);
    var v := Repo(map[], secrets);
    assert Contents(f, v) == map[];
    RepositoryIsAMap(f, v, ops);
    SoundIsReadable(f, Run(f, v, ops));
  }

  // ---- what the operations write, field by field ----

  /** All fields but id and timestamps. */
  function Body(p: ServerProfile): ServerProfile {
    p.(id := "", createdAt := 0, updatedAt := 0)
  }

  /** A created server keeps the id and the times it brings, and gets those handed out for the ones it
      lacks; nothing else about it changes but what no row keeps. */
  lemma CreatedReads(f: Format, v: Repo, p: ServerProfile, freshId: string, now: Instant)
    requires FormatOk(f) && Sound(f, v) && Valid(p) && OpTimesOk(CreateOp(p, freshId, now))
    ensures var id := if p.id == "" then freshId else p.id;
      var got := Get(f, Apply(f, v, CreateOp(p, freshId, now)), id);
      && got.Ok? && got.value.id == id
      && got.value.createdAt == Truncated(if p.createdAt == ZERO_TIME then now else p.createdAt)
      && got.value.updatedAt == Truncated(if p.updatedAt == ZERO_TIME then now else p.updatedAt)
      && Body(got.value) == Body(Canonical(p))
  {
    var q := Stamped(p, freshId, now);
    ValidNames(p);
    StampedNames(p, freshId, now);
    GetAfterPersist(f, v, q);
    CanonicalStamped(p, freshId, now, q);
  }

  lemma StampedNames(p: ServerProfile, freshId: string, now: Instant)
    requires TimesOk(p) && NamesOk(p) && InstantOk(now)
    ensures TimesOk(Stamped(p, freshId, now)) && NamesOk(Stamped(p, freshId, now))
  {
  }

  lemma CanonicalStamped(p: ServerProfile, freshId: string, now: Instant, q: ServerProfile)
    requires q == Stamped(p, freshId, now)
    ensures q.id == (if p.id == "" then freshId else p.id) == Canonical(q).id
    ensures Canonical(q).createdAt == Truncated(if p.createdAt == ZERO_TIME then now else p.createdAt)
    ensures Canonical(q).updatedAt == Truncated(if p.updatedAt == ZERO_TIME then now else p.updatedAt)
    ensures Body(Canonical(q)) == Body(Canonical(p))
  {
  }

  lemma CanonicalReplaced(p: ServerProfile, created: Instant, now: Instant, q: ServerProfile)
    requires q == Replacement(p, created, now)
    ensures q.id == p.id == Canonical(q).id
    ensures Canonical(q).createdAt == Truncated(created) && Canonical(q).updatedAt == Truncated(now)
    ensures Body(Canonical(q)) == Body(Canonical(p))
  {
  }

  /** An updated server keeps its creation time and bumps its update time, whatever times it brings;
      everything else is what it brings. */
  lemma UpdatedReads(f: Format, v: Repo, p: ServerProfile, now: Instant)
    requires FormatOk(f) && Sound(f, v) && Valid(p) && OpTimesOk(UpdateOp(p, now)) && p.id in v.table
    ensures var was, got := Get(f, v, p.id), Get(f, Apply(f, v, UpdateOp(p, now)), p.id);
      && was.Ok? && got.Ok? && got.value.id == p.id
      && got.value.createdAt == was.value.createdAt
      && got.value.updatedAt == Truncated(now)
      && Body(got.value) == Body(Canonical(p))
  {
    assert RowSound(f, v, p.id);
    var row := f.scan(v.table[p.id]).value;
    StoredTime(v.secrets, row);
    ValidNames(p);
    UpdateWrites(f, v, p, now, row.profile.createdAt);
    CanonicalReplaced(p, row.profile.createdAt, now, Replacement(p, row.profile.createdAt, now));
    TruncatedExactly(row.profile.createdAt);
  }

  lemma UpdateWrites(f: Format, v: Repo, p: ServerProfile, now: Instant, created: Instant)
    requires FormatOk(f) && Valid(p) && NamesOk(p) && TimesOk(p) && InstantOk(now) && p.id in v.table
    requires f.scan(v.table[p.id]).Some? && f.scan(v.table[p.id]).value.profile.createdAt == created
    requires InstantOk(created)
    ensures Get(f, Apply(f, v, UpdateOp(p, now)), p.id) == Ok(Canonical(Replacement(p, created, now)))
  {
    var q := Replacement(p, created, now);
    var dropped := DropSecrets(v.secrets, p.id, Vanished(f.scan(v.table[p.id]).value.refs, RefsFor(p)));
    assert q.id == p.id && TimesOk(q) && NamesOk(q);
    GetAfterPersist(f, v.(secrets := dropped), q);
  }

  lemma StoredTime(secrets: map<string, string>, row: Scanned)
    ensures Restore(secrets, row.profile, row.refs).createdAt == row.profile.createdAt
  {
    RestoreFields(secrets, row.profile, row.refs);
    var r := Restore(secrets, row.profile, row.refs);
    assert r.createdAt == Sanitized(r).createdAt && row.profile.createdAt == Sanitized(row.profile).createdAt;
  }

  /** What is not accepted changes nothing. */
  lemma RefusedChangesNothing(f: Format, v: Repo, op: Op)
    requires op.CreateOp? ==> !Valid(op.p)
    requires op.UpdateOp? ==> !Valid(op.p) || op.p.id !in v.table
    requires op.DeleteOp? ==> op.id !in v.table
    ensures Apply(f, v, op) == v
  {
  }

  /** A deleted server is gone. */
  lemma DeletedReads(f: Format, v: Repo, id: string)
    requires Sound(f, v)
    ensures Get(f, Apply(f, v, DeleteOp(id)), id) == Err("store: server not found")
  {
    if id in v.table {
      assert RowSound(f, v, id);
    }
  }

  /** The operation creates or deletes server `id`. */
  predicate Replaces(op: Op, id: string) {
    match op
    case CreateOp(p, freshId, _) => (if p.id == "" then freshId else p.id) == id
    case UpdateOp(_, _) => false
    case DeleteOp(d) => d == id
  }

  /** The creation time of a server stays what it was, whatever updates it sees and whatever happens to
      others, until it is created again or deleted. */
  lemma {:induction false} CreationTimeStays(f: Format, v: Repo, ops: seq<Op>, id: string)
    requires FormatOk(f) && Sound(f, v) && id in v.table
    requires forall op :: op in ops ==> OpTimesOk(op) && !Replaces(op, id)
    ensures var was, got := Get(f, v, id), Get(f, Run(f, v, ops), id);
      was.Ok? && got.Ok? && got.value.createdAt == was.value.createdAt
    decreases |ops|
  {
    SoundIsReadable(f, v);
    assert RowSound(f, v, id);
    if ops == [] {
    } else {
      var op := ops[0];
      OneStepKeepsTime(f, v, op, id);
      CreationTimeStays(f, Apply(f, v, op), ops[1..], id);
    }
  }

  lemma OneStepKeepsTime(f: Format, v: Repo, op: Op, id: string)
    requires FormatOk(f) && Sound(f, v) && id in v.table && OpTimesOk(op) && !Replaces(op, id)
    ensures var w := Apply(f, v, op);
      && Sound(f, w) && id in w.table && Get(f, v, id).Ok? && Get(f, w, id).Ok?
      && Get(f, w, id).value.createdAt == Get(f, v, id).value.createdAt
  {
    var w := Apply(f, v, op);
    SoundIsReadable(f, v);
    match op {
      case CreateOp(_, _, _) => CreateRefines(f, v, op);
      case UpdateOp(p, now) =>
        UpdateRefines(f, v, op);
        if Valid(p) && p.id == id {
          UpdatedReads(f, v, p, now);
        }
      case DeleteOp(d) => DeleteRefines(f, v, d);
    }
    SoundIsReadable(f, w);
    assert id in Contents(f, v) && id in Contents(f, w);
  }

  /** Where the secrets of a created server are filed. */
  lemma SecretsAreFiled(f: Format, v: Repo, p: ServerProfile, freshId: string, now: Instant)
    requires FormatOk(f) && Valid(p)
    ensures var id := if p.id == "" then freshId else p.id;
      var secrets := Apply(f, v, CreateOp(p, freshId, now)).secrets;
      && (p.password != "" ==> Filed(secrets, "omniproxy.server." + id + "." + "password", p.password))
      && (p.uuid != "" ==> Filed(secrets, "omniproxy.server." + id + "." + "uuid", p.uuid))
      && (p.ssh.privateKey != "" ==>
            Filed(secrets, "omniproxy.server." + id + "." + "ssh.privatekey", p.ssh.privateKey))
  {
    var q := Stamped(p, freshId, now);
    CreatedSecrets(f, v, p, freshId, now, q);
    FiledUnder(v.secrets, q, "password");
    FiledUnder(v.secrets, q, "uuid");
    FiledUnder(v.secrets, q, "ssh.privatekey");
    RefNames(q);
  }

  lemma CreatedSecrets(f: Format, v: Repo, p: ServerProfile, freshId: string, now: Instant, q: ServerProfile)
    requires Valid(p) && q == Stamped(p, freshId, now)
    ensures Apply(f, v, CreateOp(p, freshId, now)).secrets == StoreSecrets(v.secrets, q, RefsFor(q))
    ensures q.id == if p.id == "" then freshId else p.id
    ensures q.password == p.password && q.uuid == p.uuid && q.ssh == p.ssh
  {
  }

  lemma RefNames(q: ServerProfile)
    ensures q.password != "" <==> "password" in RefsFor(q)
    ensures q.uuid != "" <==> "uuid" in RefsFor(q)
    ensures q.ssh.privateKey != "" <==> "ssh.privatekey" in RefsFor(q)
    ensures SecretValue(q, "password") == q.password && SecretValue(q, "uuid") == q.uuid
    ensures SecretValue(q, "ssh.privatekey") == q.ssh.privateKey
  {
    RefsAreKnown(q, "password");
    RefsAreKnown(q, "uuid");
    RefsAreKnown(q, "ssh.privatekey");
  }

  predicate Filed(secrets: map<string, string>, key: string, value: string) {
    key in secrets && secrets[key] == value
  }

  lemma FiledUnder(secrets: map<string, string>, p: ServerProfile, ref: string)
    ensures ref in RefsFor(p) ==>
      Filed(StoreSecrets(secrets, p, RefsFor(p)), "omniproxy.server." + p.id + "." + ref, SecretValue(p, ref))
  {
    RefsForKnown(p);
    StoreSecretsSpec(secrets, p, RefsFor(p));
    if ref in RefsFor(p) {
      assert KeyOf(Key(p.id, ref), p.id, RefsFor(p));
    }
  }

  /** A server reached over ssh is credible exactly when it names a user and a secret is filed for it. */
  lemma SshCredentials(p: ServerProfile)
    requires p.protocol == SSH
    ensures CredentialsPresent(p) <==>
      p.ssh.user != "" && ("password" in RefsFor(p) || "ssh.privatekey" in RefsFor(p))
  {
    RefsAreKnown(p, "password");
    RefsAreKnown(p, "ssh.privatekey");
  }

  // ---- which keys the secret store holds ----

  function RefsOf(f: Format, v: Repo, id: string): seq<string> {
    if id in v.table && f.refs(v.table[id]).Some? then f.refs(v.table[id]).value else []
  }

  ghost predicate Referenced(f: Format, v: Repo, key: string) {
    exists id :: id in v.table && KeyOf(key, id, RefsOf(f, v, id))
  }

  /** The keys under the server prefix are exactly those the rows refer to. */
  ghost predicate KeysExact(f: Format, v: Repo) {
    forall key :: ServerKey(key) ==> (key in v.secrets <==> Referenced(f, v, key))
  }

  /** Keys outside the server prefix, the data key among them, keep their values. */
  ghost predicate OthersUntouched(v: Repo, w: Repo) {
    forall key :: !ServerKey(key) ==>
      (key in w.secrets <==> key in v.secrets) && (key in v.secrets ==> w.secrets[key] == v.secrets[key])
  }

  lemma KeyOfIsServerKey(key: string, id: string, refs: seq<string>)
    ensures KeyOf(key, id, refs) ==> ServerKey(key)
  {
    if KeyOf(key, id, refs) {
      var ref :| ref in refs && key == Key(id, ref);
      DataKeyIsNoServerKey(id, ref);
    }
  }

  lemma KeyOfUnique(key: string, id: string, refs: seq<string>, id2: string, refs2: seq<string>)
    requires AllKnown(refs) && AllKnown(refs2) && KeyOf(key, id, refs) && KeyOf(key, id2, refs2)
    ensures id == id2
    ensures exists ref :: ref in refs && ref in refs2 && key == Key(id, ref)
  {
    var r1 :| r1 in refs && key == Key(id, r1);
    var r2 :| r2 in refs2 && key == Key(id2, r2);
    KeyInjective(id, r1, id2, r2);
  }

  /** `w` is `v` after row `id` was written with refs `new`, dropping the secrets of `dropped`. */
  ghost predicate Written(f: Format, v: Repo, w: Repo, id: string, stored: seq<string>, dropped: seq<string>) {
    && w.table.Keys == v.table.Keys + {id}
    && (forall other :: other in v.table && other != id ==> w.table[other] == v.table[other])
    && f.refs(w.table[id]) == Some(stored)
    && AllKnown(stored) && AllKnown(dropped)
    && forall key :: key in w.secrets <==> (key in v.secrets && !KeyOf(key, id, dropped)) || KeyOf(key, id, stored)
  }

  lemma SoundRefsKnown(f: Format, v: Repo, id: string)
    requires Sound(f, v)
    ensures AllKnown(RefsOf(f, v, id))
    ensures forall ref :: ref in RefsOf(f, v, id) ==> Key(id, ref) in v.secrets
  {
    if id in v.table {
      assert RowSound(f, v, id);
    }
  }

  /** No key is lost: whatever a row of `w` refers to is stored. */
  lemma WrittenKeysStored(f: Format, v: Repo, w: Repo, id: string, stored: seq<string>, dropped: seq<string>,
                          key: string)
    requires Sound(f, v) && Written(f, v, w, id, stored, dropped) && Referenced(f, w, key)
    ensures key in w.secrets
  {
    var at :| at in w.table && KeyOf(key, at, RefsOf(f, w, at));
    if at != id {
      SoundRefsKnown(f, v, at);
      assert RefsOf(f, w, at) == RefsOf(f, v, at);
      var ref :| ref in RefsOf(f, v, at) && key == Key(at, ref);
      if KeyOf(key, id, dropped) {
        KeyOfUnique(key, id, dropped, at, RefsOf(f, v, at));
      }
    }
  }

  lemma OldKeyHandled(f: Format, v: Repo, id: string, stored: seq<string>, dropped: seq<string>, key: string)
    requires KeyOf(key, id, RefsOf(f, v, id))
    requires forall ref :: ref in RefsOf(f, v, id) ==> ref in dropped || ref in stored
    ensures KeyOf(key, id, dropped) || KeyOf(key, id, stored)
  {
    var ref :| ref in RefsOf(f, v, id) && key == Key(id, ref);
    assert ref in dropped || ref in stored;
  }

  /** A key is kept only if its row still refers to it, provided every ref of the old row was
      dropped or is stored again. */
  lemma WrittenKeysReferenced(f: Format, v: Repo, w: Repo, id: string, stored: seq<string>, dropped: seq<string>,
                              key: string)
    requires Sound(f, v) && KeysExact(f, v) && Written(f, v, w, id, stored, dropped)
    requires forall ref :: ref in RefsOf(f, v, id) ==> ref in dropped || ref in stored
    requires ServerKey(key) && key in w.secrets
    ensures Referenced(f, w, key)
  {
    if KeyOf(key, id, stored) {
      assert id in w.table && KeyOf(key, id, RefsOf(f, w, id));
    } else {
      assert Referenced(f, v, key);
      var at :| at in v.table && KeyOf(key, at, RefsOf(f, v, at));
      if at == id {
        OldKeyHandled(f, v, id, stored, dropped, key);
      }
      assert RefsOf(f, w, at) == RefsOf(f, v, at);
      assert at in w.table && KeyOf(key, at, RefsOf(f, w, at));
    }
  }

  /** A ref of the old row that is neither dropped nor stored again leaves its secret behind. */
  lemma LeftoverSecret(f: Format, v: Repo, w: Repo, id: string, stored: seq<string>, dropped: seq<string>, ref: string)
    requires Sound(f, v) && Sound(f, w) && Written(f, v, w, id, stored, dropped)
    requires ref in RefsOf(f, v, id) && ref !in dropped && ref !in stored
    ensures var key := Key(id, ref); ServerKey(key) && key in w.secrets && !Referenced(f, w, key)
  {
    var key := Key(id, ref);
    DataKeyIsNoServerKey(id, ref);
    SoundRefsKnown(f, v, id);
    if KeyOf(key, id, dropped) {
      var d :| d in dropped && key == Key(id, d);
      KeyInjective(id, ref, id, d);
    }
    if Referenced(f, w, key) {
      var at :| at in w.table && KeyOf(key, at, RefsOf(f, w, at));
      SoundRefsKnown(f, w, at);
      var r :| r in RefsOf(f, w, at) && key == Key(at, r);
      KeyInjective(id, ref, at, r);
    }
  }

  /** Exactness survives a write exactly when no ref of the old row is left behind. */
  lemma WrittenKeys(f: Format, v: Repo, w: Repo, id: string, stored: seq<string>, dropped: seq<string>)
    requires Sound(f, v) && Sound(f, w) && KeysExact(f, v) && Written(f, v, w, id, stored, dropped)
    ensures KeysExact(f, w) <==> forall ref :: ref in RefsOf(f, v, id) ==> ref in dropped || ref in stored
  {
    if ref :| ref in RefsOf(f, v, id) && ref !in dropped && ref !in stored {
      LeftoverSecret(f, v, w, id, stored, dropped, ref);
    } else {
      forall key | ServerKey(key) ensures key in w.secrets <==> Referenced(f, w, key) {
        if key in w.secrets {
          WrittenKeysReferenced(f, v, w, id, stored, dropped, key);
        } else if Referenced(f, w, key) {
          WrittenKeysStored(f, v, w, id, stored, dropped, key);
        }
      }
    }
  }

  lemma PersistIsWritten(f: Format, v: Repo, u: Repo, p: ServerProfile, dropped: seq<string>)
    requires FormatOk(f) && TimesOk(p) && NamesOk(p) && AllKnown(dropped)
    requires u == v.(secrets := DropSecrets(v.secrets, p.id, dropped))
    ensures Written(f, v, Persist(f, u, p), p.id, RefsFor(p), dropped)
    ensures OthersUntouched(v, Persist(f, u, p))
  {
    var row := f.values(Sanitized(p), RefsFor(p));
    RefsForKnown(p);
    DropSecretsSpec(v.secrets, p.id, dropped);
    StoreSecretsSpec(u.secrets, p, RefsFor(p));
    forall key | !ServerKey(key) ensures !KeyOf(key, p.id, dropped) && !KeyOf(key, p.id, RefsFor(p)) {
      KeyOfIsServerKey(key, p.id, dropped);
      KeyOfIsServerKey(key, p.id, RefsFor(p));
    }
  }

  /** `Create` keeps the keys exact exactly when it does not overwrite a row holding a ref the new
      profile lacks: it is an upsert that drops nothing. */
  lemma CreateKeys(f: Format, v: Repo, op: Op)
    requires FormatOk(f) && Sound(f, v) && KeysExact(f, v)
    requires op.CreateOp? && OpTimesOk(op) && Valid(op.p)
    ensures var p := Stamped(op.p, op.freshId, op.now);
      KeysExact(f, Apply(f, v, op)) <==> forall ref :: ref in RefsOf(f, v, p.id) ==> ref in RefsFor(p)
    ensures OthersUntouched(v, Apply(f, v, op))
  {
    var p := Stamped(op.p, op.freshId, op.now);
    ValidNames(op.p);
    CreateRefines(f, v, op);
    assert DropSecrets(v.secrets, p.id, []) == v.secrets;
    PersistIsWritten(f, v, v, p, []);
    WrittenKeys(f, v, Persist(f, v, p), p.id, RefsFor(p), []);
  }

  /** `Update` drops precisely the vanished refs, so exactness is kept. */
  lemma UpdateKeys(f: Format, v: Repo, op: Op)
    requires FormatOk(f) && Sound(f, v) && KeysExact(f, v) && op.UpdateOp? && OpTimesOk(op)
    ensures KeysExact(f, Apply(f, v, op)) && OthersUntouched(v, Apply(f, v, op))
  {
    var p := op.p;
    UpdateRefines(f, v, op);
    if Valid(p) && p.id in v.table {
      assert RowSound(f, v, p.id);
      var row := f.scan(v.table[p.id]).value;
      var refs := Vanished(row.refs, RefsFor(p));
      forall ref ensures ref in refs <==> ref in row.refs && ref !in RefsFor(p) {
        VanishedSpec(row.refs, RefsFor(p), ref);
      }
      ValidNames(p);
      var q := Replacement(p, row.profile.createdAt, op.now);
      var u := v.(secrets := DropSecrets(v.secrets, p.id, refs));
      PersistIsWritten(f, v, u, q, refs);
      WrittenKeys(f, v, Persist(f, u, q), p.id, RefsFor(q), refs);
    }
  }

  /** `Delete` drops all refs of the row. */
  lemma DeleteKeys(f: Format, v: Repo, id: string)
    requires Sound(f, v) && KeysExact(f, v)
    ensures KeysExact(f, Apply(f, v, DeleteOp(id))) && OthersUntouched(v, Apply(f, v, DeleteOp(id)))
  {
    var w := Apply(f, v, DeleteOp(id));
    if id in v.table {
      assert RowSound(f, v, id);
      var refs := RefsOf(f, v, id);
      DropSecretsSpec(v.secrets, id, refs);
      forall key ensures ServerKey(key) ==> (key in w.secrets <==> Referenced(f, w, key))
        ensures !ServerKey(key) ==> !KeyOf(key, id, refs)
      {
        KeyOfIsServerKey(key, id, refs);
        if ServerKey(key) {
          DeletedKey(f, v, w, id, key);
        }
      }
    }
  }

  lemma DeletedKey(f: Format, v: Repo, w: Repo, id: string, key: string)
    requires Sound(f, v) && KeysExact(f, v) && ServerKey(key)
    requires id in v.table && w.table == v.table - {id}
    requires key in w.secrets <==> key in v.secrets && !KeyOf(key, id, RefsOf(f, v, id))
    ensures key in w.secrets <==> Referenced(f, w, key)
  {
    if key in w.secrets {
      var at :| at in v.table && KeyOf(key, at, RefsOf(f, v, at));
      assert at in w.table && RefsOf(f, w, at) == RefsOf(f, v, at);
    } else if Referenced(f, w, key) {
      var at :| at in w.table && KeyOf(key, at, RefsOf(f, w, at));
      assert RefsOf(f, w, at) == RefsOf(f, v, at);
      assert Referenced(f, v, key);
      SoundRefsKnown(f, v, id);
      SoundRefsKnown(f, v, at);
      KeyOfUnique(key, id, RefsOf(f, v, id), at, RefsOf(f, v, at));
    }
  }

  /** No Create of the run overwrites a row. */
  ghost predicate CreatesAreFresh(f: Format, v: Repo, ops: seq<Op>)
    decreases |ops|
  {
    ops != [] ==>
      && (ops[0].CreateOp? ==> Stamped(ops[0].p, ops[0].freshId, ops[0].now).id !in v.table)
      && CreatesAreFresh(f, Apply(f, v, ops[0]), ops[1..])
  }

  /** Over any run whose Creates are fresh, the secret store holds exactly the secrets the rows
      refer to; the data key and every other foreign key keep their values. */
  lemma {:induction false} SecretsMatchRows(f: Format, v: Repo, ops: seq<Op>)
    requires FormatOk(f) && Sound(f, v) && KeysExact(f, v)
    requires forall op :: op in ops ==> OpTimesOk(op)
    requires CreatesAreFresh(f, v, ops)
    ensures KeysExact(f, Run(f, v, ops)) && OthersUntouched(v, Run(f, v, ops))
    decreases |ops|
  {
    if ops == [] {
    } else {
      var op := ops[0];
      match op {
        case CreateOp(p, _, _) =>
          CreateRefines(f, v, op);
          if Valid(p) {
            CreateKeys(f, v, op);
          }
        case UpdateOp(_, _) =>
          UpdateRefines(f, v, op);
          UpdateKeys(f, v, op);
        case DeleteOp(id) =>
          DeleteRefines(f, v, id);
          DeleteKeys(f, v, id);
      }
      SecretsMatchRows(f, Apply(f, v, op), ops[1..]);
    }
  }

  // ---- a concrete overwrite ----

  function Server(id: string, protocol: Protocol, password: string): ServerProfile {
    ServerProfile(id, "s", protocol, "h", 80, "", password, "", "", "", "", NO_TLS, NO_SSH, None, false, false, "",
                  false, "", [], None, false, 0, None, ZERO_TIME, ZERO_TIME)
  }

  /** Two creates under the same id: a trojan server, then a socks5 server without password. */
  function First(id: string, now: Instant): Op { CreateOp(Server(id, Trojan, "pw"), "", now) }
  function Second(id: string, now: Instant): Op { CreateOp(Server(id, SOCKS5, ""), "", now) }

  lemma ServersValid(id: string)
    ensures Valid(Server(id, Trojan, "pw")) && Valid(Server(id, SOCKS5, ""))
    ensures RefsFor(Server(id, Trojan, "pw")) == [REF_PASSWORD] && RefsFor(Server(id, SOCKS5, "")) == []
    ensures InstantOk(ZERO_TIME)
  {
    VisibleEndsAreTrimmed("s");
    VisibleEndsAreTrimmed("h");
  }

  lemma StampedHere(p: ServerProfile, freshId: string, now: Instant)
    requires p.id != ""
    ensures var q := Stamped(p, freshId, now); q.id == p.id && RefsFor(q) == RefsFor(p)
  {
  }

  lemma EmptySound(f: Format, secrets: map<string, string>)
    requires forall key :: key in secrets ==> !ServerKey(key)
    ensures Sound(f, Repo(map[], secrets)) && KeysExact(f, Repo(map[], secrets))
  {
  }

  lemma FirstStored(f: Format, v: Repo, p: ServerProfile)
    requires FormatOk(f) && TimesOk(p) && NamesOk(p)
    ensures p.id in Persist(f, v, p).table && RefsOf(f, Persist(f, v, p), p.id) == RefsFor(p)
  {
    RefsForKnown(p);
    var row := f.values(Sanitized(p), RefsFor(p));
  }

  lemma AfterFirst(f: Format, id: string, now: Instant, v: Repo)
    requires FormatOk(f) && id != "" && InstantOk(now) && v == Apply(f, Repo(map[], map[]), First(id, now))
    ensures Sound(f, v) && KeysExact(f, v) && id in v.table && RefsOf(f, v, id) == [REF_PASSWORD]
  {
    var empty := Repo(map[], map[]);
    var op := First(id, now);
    ServersValid(id);
    StampedHere(op.p, "", now);
    ValidNames(op.p);
    FirstStored(f, empty, Stamped(op.p, "", now));
    CreateOnEmpty(f, op);
  }

  lemma CreateOnEmpty(f: Format, op: Op)
    requires FormatOk(f) && op.CreateOp? && OpTimesOk(op) && Valid(op.p)
    ensures Sound(f, Apply(f, Repo(map[], map[]), op)) && KeysExact(f, Apply(f, Repo(map[], map[]), op))
  {
    EmptySound(f, map[]);
    CreateRefines(f, Repo(map[], map[]), op);
    CreateKeys(f, Repo(map[], map[]), op);
  }

  /** The password of the first server outlives it: stored under the server prefix, referred to by no
      row. */
  lemma OverwriteLeavesSecret(f: Format, id: string, now: Instant)
    requires FormatOk(f) && id != "" && InstantOk(now)
    ensures var w := Run(f, Repo(map[], map[]), [First(id, now), Second(id, now)]);
      var key := Key(id, REF_PASSWORD);
      ServerKey(key) && key in w.secrets && !Referenced(f, w, key) && !KeysExact(f, w)
  {
    var v := Apply(f, Repo(map[], map[]), First(id, now));
    var op := Second(id, now);
    var w := Apply(f, v, op);
    AfterFirst(f, id, now, v);
    ServersValid(id);
    StampedHere(op.p, "", now);
    ValidNames(op.p);
    CreateRefines(f, v, op);
    DropNothing(v.secrets, id);
    PersistIsWritten(f, v, v, Stamped(op.p, "", now), []);
    LeftoverSecret(f, v, w, id, [], [], REF_PASSWORD);
    TwoRuns(f, Repo(map[], map[]), First(id, now), op);
  }

  lemma DropNothing(secrets: map<string, string>, id: string)
    ensures DropSecrets(secrets, id, []) == secrets
  {
  }

  lemma TwoRuns(f: Format, v: Repo, a: Op, b: Op)
    ensures Run(f, v, [a, b]) == Apply(f, Apply(f, v, a), b)
  {
    assert [a, b][1..] == [b];
    assert [b][1..] == [];
    assert Run(f, Apply(f, v, a), [b]) == Run(f, Apply(f, Apply(f, v, a), b), []);
  }

  // ---- the mutable object ----

  /** The repository with its two stores. Each method changes them as the function of the same name
      changes `View()`. */
  class ServerRepository {
    var table: map<string, Row>
    var secrets: map<string, string>
    const format: Format

    function View(): Repo
      reads this
    {
      Repo(table, secrets)
    }

    constructor (f: Format, store: map<string, string>)
      ensures View() == Repo(map[], store) && format == f
    {
      table, secrets, format := map[], store, f;
    }

    method PersistProfile(p: ServerProfile)
      modifies this
      ensures View() == Persist(format, old(View()), p)
    {
      var refs := RefsFor(p);
      var i := 0;
      while i < |refs|
        invariant 0 <= i <= |refs|
        invariant table == old(table)
        invariant StoreSecrets(secrets, p, refs[i..]) == StoreSecrets(old(secrets), p, refs)
      {
        assert refs[i..][1..] == refs[i + 1..];
        secrets := secrets[Key(p.id, refs[i]) := SecretValue(p, refs[i])];
        i := i + 1;
      }
      assert refs[i..] == [];
      table := table[p.id := format.values(Sanitized(p), refs)];
    }

    method CreateProfile(p: ServerProfile, freshId: string, now: Instant) returns (id: Result<string>)
      modifies this
      ensures id.Ok? <==> Valid(p)
      ensures id.Ok? ==> id.value == Stamped(p, freshId, now).id
      ensures View() == Apply(format, old(View()), CreateOp(p, freshId, now))
    {
      if !Valid(p) {
        return Err("validation failed");
      }
      var cp := Stamped(p, freshId, now);
      PersistProfile(cp);
      return Ok(cp.id);
    }

    method UpdateProfile(p: ServerProfile, now: Instant) returns (ok: bool)
      modifies this
      ensures ok <==> Update(format, old(View()), p, now).Ok?
      ensures View() == Apply(format, old(View()), UpdateOp(p, now))
    {
      if !Valid(p) || p.id !in table {
        return false;
      }
      var row := format.scan(table[p.id]);
      if row.None? {
        return false;
      }
      var refs, kept := row.value.refs, RefsFor(p);
      var i := 0;
      while i < |refs|
        invariant 0 <= i <= |refs|
        invariant table == old(table)
        invariant DropSecrets(secrets, p.id, Vanished(refs[i..], kept))
               == DropSecrets(old(secrets), p.id, Vanished(refs, kept))
      {
        assert refs[i..][0] == refs[i] && refs[i..][1..] == refs[i + 1..];
        if refs[i] !in kept {
          assert Vanished(refs[i..], kept)[1..] == Vanished(refs[i + 1..], kept);
          secrets := secrets - {Key(p.id, refs[i])};
        } else {
          assert Vanished(refs[i..], kept) == Vanished(refs[i + 1..], kept);
        }
        i := i + 1;
      }
      assert refs[i..] == [];
      PersistProfile(Replacement(p, row.value.profile.createdAt, now));
      return true;
    }

    method GetProfile(id: string) returns (p: Result<ServerProfile>)
      ensures p == Get(format, View(), id)
    {
      if id !in table {
        return Err("store: server not found");
      }
      var row := format.scan(table[id]);
      if row.None? {
        return Err("store: unreadable row");
      }
      var q, refs := row.value.profile, row.value.refs;
      var i := 0;
      while i < |refs|
        invariant 0 <= i <= |refs|
        invariant Restore(secrets, q, refs[i..]) == Restore(secrets, row.value.profile, refs)
        invariant q.id == row.value.profile.id
      {
        assert refs[i..][0] == refs[i] && refs[i..][1..] == refs[i + 1..];
        var key := Key(q.id, refs[i]);
        if key in secrets {
          q := SetSecret(q, refs[i], secrets[key]);
        }
        i := i + 1;
      }
      assert refs[i..] == [];
      return Ok(q);
    }

    method DeleteProfile(id: string) returns (ok: bool)
      modifies this
      ensures ok <==> Delete(format, old(View()), id).Ok?
      ensures View() == Apply(format, old(View()), DeleteOp(id))
    {
      if id !in table {
        return false;
      }
      var refs := format.refs(table[id]);
      if refs.None? {
        return false;
      }
      table := table - {id};
      var i := 0;
      while i < |refs.value|
        invariant 0 <= i <= |refs.value|
        invariant table == old(table) - {id}
        invariant DropSecrets(secrets, id, refs.value[i..]) == DropSecrets(old(secrets), id, refs.value)
      {
        assert refs.value[i..][1..] == refs.value[i + 1..];
        secrets := secrets - {Key(id, refs.value[i])};
        i := i + 1;
      }
      assert refs.value[i..] == [];
      return true;
    }
  }
}
