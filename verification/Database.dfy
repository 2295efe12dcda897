/**
  The rows the stores keep (internal/storage/sqlite, internal/storage/blob) and
  what each single store call does to them.

  Primary keys, unique indexes and the check on policy strategies are those of
  internal/storage/sqlite/migrations: an insert that breaks one fails and
  changes nothing. Foreign keys are not modelled; the invariants of
  Invariants show that none of them would ever fire.
 */
module Database {
  import opened ByteStrings

  datatype Result<+T> = Ok(value: T) | Err(error: Error)

  datatype Error =
    | Unavailable            // the store or the source could not be reached; nothing happened
    | InvalidReference
    | InvalidTagName
    | InvalidHash
    | ResourceNotFound
    | SnapshotNotFound
    | TagNotFound
    | TagSnapshotMismatch
    | MaterializationNotFound
    | BlobNotFound
    | RunNotFound
    | AlreadyCommitted(manifestId: Str)
    | ManifestNotFound
    | Conflict               // a primary key, unique index or check refused the row

  /******* Policies (internal/policy) *******/

  datatype Strategy = RequireFresh | AllowStale | Pinned | Unknown

  // maxAge is in nanoseconds, as time.Duration is; 0 means no limit.
  datatype Policy = Policy(strategy: Strategy, maxAge: int, pinnedSnapshotId: Str)

  datatype Decision = Fetch | UseCurrent | UsePinned | UseTag

  function Evaluate(p: Policy, hasCurrent: bool, currentObservedAt: int, now: int): Decision {
    match p.strategy
    case Pinned => UsePinned
    case RequireFresh => Fetch
    case AllowStale =>
      if !hasCurrent then Fetch
      else if p.maxAge > 0 && now - currentObservedAt > p.maxAge then Fetch
      else UseCurrent
    case Unknown => Fetch
  }

  const SECOND: int := 1_000_000_000

  // The highest power of two within n; 0 for 0.
  function Leading(n: nat): (p: nat)
    ensures p <= n
  {
    if n < 2 then n else 2 * Leading(n / 2)
  }

  const TWO_TO_53: int := 0x20_0000_0000_0000

  // time.Duration.Seconds adds the fraction to the whole seconds in a float64, whose
  // spacing there is Leading(seconds) / 2^52. The sum is the next whole second when what
  // is missing from it is at most half of that.
  predicate RoundsUp(maxAge: int)
    requires maxAge > 0
  {
    (SECOND - maxAge % SECOND) * TWO_TO_53 <= SECOND * Leading(maxAge / SECOND)
  }

  // resources.go keeps whole seconds of a positive maxAge; anything else reads back as 0.
  function StoredPolicy(p: Policy): Policy {
    p.(maxAge := if p.maxAge > 0 then (p.maxAge / SECOND + if RoundsUp(p.maxAge) then 1 else 0) * SECOND else 0)
  }

  /******* Rows *******/

  // What a snapshot says about its source: revision, content type, provenance.
  datatype Details = Details(sourceRevision: Str, contentType: Str, provenance: map<Str, Str>)

  datatype Fetched = Fetched(content: Bytes, details: Details)

  // currentSnapshotId is "" until the first successful resolve.
  datatype Resource = Resource(policy: Policy, currentSnapshotId: Str)

  datatype Snapshot = Snapshot(
    snapshotId: Str, resourceUri: Str, contentHash: Str, observedAt: int, size: nat, details: Details)

  datatype Materialization = Materialization(materializationId: Str, snapshotId: Str, contentHash: Str)

  // A run_mounts row, and the manifest_entries row Commit copies it to.
  datatype Entry = Entry(
    position: int, uri: Str, ref: Str, snapshotId: Str, materializationId: Str, contentHash: Str)

  datatype Run = Run(committed: bool, manifestId: Str)

  datatype Manifest = Manifest(manifestId: Str, runId: Str, createdAt: int, entries: seq<Entry>)

  datatype Db = Db(
    blobs: map<Str, Bytes>,             // by hex digest
    resources: map<Str, Resource>,      // by uri
    snapshots: map<Str, Snapshot>,
    materializations: map<Str, Materialization>,
    bySnapshot: map<Str, Str>,          // unique index materializations(snapshot_id, strategy)
    tags: map<(Str, Str), Str>,         // (uri, name) to snapshot id
    runs: map<Str, Run>,
    mounts: map<Str, seq<Entry>>,       // per run, ordered by position
    manifests: map<Str, Manifest>,
    byRun: map<Str, Str>)               // unique index manifests(run_id)

  const EMPTY: Db := Db(map[], map[], map[], map[], map[], map[], map[], map[], map[], map[])

  // ids.New: a prefix, "_" and a ULID.
  function NewId(prefix: Str, ulid: Str): (id: Str)
    ensures id != []
  {
    prefix + [95] + ulid
  }

  lemma IdsSpelled(ulid: Str)
    ensures Spells(NewId(SNAP, ulid)[..5], "snap_") && NewId(SNAP, ulid)[5..] == ulid
    ensures Spells(NewId(MAT, ulid)[..4], "mat_") && NewId(MAT, ulid)[4..] == ulid
    ensures Spells(NewId(MANIFEST, ulid)[..9], "manifest_") && NewId(MANIFEST, ulid)[9..] == ulid
  {
    var s, m, f := "snap_", "mat_", "manifest_";
    assert s[0] == 's' && s[1] == 'n' && s[2] == 'a' && s[3] == 'p' && s[4] == '_';
    assert m[0] == 'm' && m[1] == 'a' && m[2] == 't' && m[3] == '_';
    assert f[0] == 'm' && f[1] == 'a' && f[2] == 'n' && f[3] == 'i' && f[4] == 'f' && f[5] == 'e' && f[6] == 's';
    assert f[7] == 't' && f[8] == '_';
  }

  const SNAP: Str := [115, 110, 97, 112]
  const MAT: Str := [109, 97, 116]
  const MANIFEST: Str := [109, 97, 110, 105, 102, 101, 115, 116]

  /******* Reads *******/

  function GetBlob(db: Db, hash: Str): Result<Bytes> {
    if !IsContentHash(hash) then Err(InvalidHash)
    else if hash[7..] !in db.blobs then Err(BlobNotFound)
    else Ok(db.blobs[hash[7..]])
  }

  function GetSnapshot(db: Db, id: Str): Result<Snapshot> {
    if id in db.snapshots then Ok(db.snapshots[id]) else Err(SnapshotNotFound)
  }

  function GetMaterialization(db: Db, id: Str): Result<Materialization> {
    if id in db.materializations then Ok(db.materializations[id]) else Err(MaterializationNotFound)
  }

  function FindBySnapshot(db: Db, snapshotId: Str): Option<Materialization> {
    if snapshotId in db.bySnapshot && db.bySnapshot[snapshotId] in db.materializations
    then Some(db.materializations[db.bySnapshot[snapshotId]])
    else None
  }

  function ListMounts(db: Db, runId: Str): seq<Entry> {
    if runId in db.mounts then db.mounts[runId] else []
  }

  function GetByIdOrRun(db: Db, target: Str): Result<Manifest> {
    if target in db.manifests then Ok(db.manifests[target])
    else if target in db.byRun && db.byRun[target] in db.manifests then Ok(db.manifests[db.byRun[target]])
    else Err(ManifestNotFound)
  }

  /******* Writes *******/

  // Content-addressed: bytes already stored under the digest are kept.
  function PutBlob(sha: Sha, db: Db, content: Bytes): Db {
    db.(blobs := PutAt(db.blobs, HexEncode(sha(content)), content))
  }

  function PutAt(blobs: map<Str, Bytes>, key: Str, content: Bytes): (r: map<Str, Bytes>)
    ensures r.Keys == blobs.Keys + {key} && r[key] == if key in blobs then blobs[key] else content
    ensures forall k | k in blobs :: r[k] == blobs[k]
  {
    if key in blobs then blobs else blobs[key := content]
  }

  function CreateResource(db: Db, uri: Str, policy: Policy): Result<Db> {
    if policy.strategy == Unknown || uri in db.resources then Err(Conflict)
    else Ok(db.(resources := db.resources[uri := Resource(StoredPolicy(policy), [])]))
  }

  function SetCurrent(db: Db, uri: Str, snapshotId: Str): Result<Db> {
    if uri !in db.resources then Err(ResourceNotFound)
    else Ok(db.(resources := db.resources[uri := db.resources[uri].(currentSnapshotId := snapshotId)]))
  }

  function CreateSnapshot(db: Db, snap: Snapshot): Result<Db> {
    if snap.snapshotId in db.snapshots then Err(Conflict)
    else Ok(db.(snapshots := db.snapshots[snap.snapshotId := snap]))
  }

  function CreateMaterialization(db: Db, mat: Materialization): Result<Db> {
    if mat.materializationId in db.materializations || mat.snapshotId in db.bySnapshot then Err(Conflict)
    else Ok(db.(
      materializations := db.materializations[mat.materializationId := mat],
      bySnapshot := db.bySnapshot[mat.snapshotId := mat.materializationId]))
  }

  function UpsertTag(db: Db, uri: Str, name: Str, snapshotId: Str): Db {
    db.(tags := db.tags[(uri, name) := snapshotId])
  }

  function DeleteTag(db: Db, uri: Str, name: Str): Result<Db> {
    if (uri, name) !in db.tags then Err(TagNotFound) else Ok(db.(tags := db.tags - {(uri, name)}))
  }

  // A new run has no run_mounts rows.
  function StartRun(db: Db, runId: Str): Result<Db> {
    if runId in db.runs then Err(Conflict)
    else Ok(db.(runs := db.runs[runId := Run(false, [])], mounts := db.mounts[runId := []]))
  }

  // One row into a table ordered by position whose key includes the position.
  function Insert(rows: seq<Entry>, e: Entry): Option<seq<Entry>>
    decreases |rows|
  {
    if rows == [] then Some([e])
    else
      var last := rows[|rows| - 1];
      if last.position == e.position then None
      else if last.position < e.position then Some(rows + [e])
      else match Insert(rows[..|rows| - 1], e)
        case Some(front) => Some(front + [last])
        case None => None
  }

  function InsertAll(rows: seq<Entry>, entries: seq<Entry>): Option<seq<Entry>>
    decreases |entries|
  {
    if entries == [] then Some(rows)
    else match Insert(rows, entries[0])
      case Some(more) => InsertAll(more, entries[1..])
      case None => None
  }

  function AppendMount(db: Db, runId: Str, e: Entry): Result<Db> {
    match Insert(ListMounts(db, runId), e)
    case Some(rows) => Ok(db.(mounts := db.mounts[runId := rows]))
    case None => Err(Conflict)
  }

  // One transaction: the manifest row and every entry row, or nothing.
  function CreateManifest(db: Db, m: Manifest): Result<Db> {
    if m.manifestId in db.manifests || m.runId in db.byRun then Err(Conflict)
    else match InsertAll([], m.entries)
      case Some(rows) => Ok(db.(
        manifests := db.manifests[m.manifestId := m.(entries := rows)],
        byRun := db.byRun[m.runId := m.manifestId]))
      case None => Err(Conflict)
  }

  function MarkCommitted(db: Db, runId: Str, manifestId: Str): Db {
    if runId in db.runs then db.(runs := db.runs[runId := Run(true, manifestId)]) else db
  }
}
