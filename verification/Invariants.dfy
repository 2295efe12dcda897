/**
  What every store call keeps, whatever other calls are doing in between.
 */
module Invariants {
  import opened ByteStrings
  import opened References
  import opened Database
  import opened Clients

  /******* Tables that only grow *******/

  ghost predicate Within<K(!new), V(!new)>(m: map<K, V>, n: map<K, V>) {
    forall k | k in m :: k in n && n[k] == m[k]
  }

  // Later states keep every blob, snapshot, materialization and manifest as it
  // was, only append to mount lists, and never reopen a run or change a policy.
  ghost predicate Extends(s: Db, t: Db) {
    && Within(s.blobs, t.blobs)
    && Within(s.snapshots, t.snapshots)
    && Within(s.materializations, t.materializations)
    && Within(s.bySnapshot, t.bySnapshot)
    && Within(s.manifests, t.manifests)
    && Within(s.byRun, t.byRun)
    && (forall u | u in s.resources :: u in t.resources && t.resources[u].policy == s.resources[u].policy)
    && (forall r | r in s.runs :: r in t.runs && (s.runs[r].committed ==> t.runs[r] == s.runs[r]))
    && (forall r | r in s.mounts :: r in t.mounts && s.mounts[r] <= t.mounts[r])
  }

  lemma ExtendsTransitive(s: Db, t: Db, u: Db)
    requires Extends(s, t) && Extends(t, u)
    ensures Extends(s, u)
  {
  }

  /******* Referential closure *******/

  ghost predicate Stored(blobs: map<Str, Bytes>, hash: Str) {
    IsContentHash(hash) && hash[7..] in blobs
  }

  ghost predicate BlobsOk(sha: Sha, blobs: map<Str, Bytes>) {
    forall k | k in blobs :: HexEncode(sha(blobs[k])) == k
  }

  ghost predicate SnapshotsOk(snapshots: map<Str, Snapshot>, blobs: map<Str, Bytes>, resources: map<Str, Resource>) {
    forall id | id in snapshots ::
      && id != [] && snapshots[id].snapshotId == id
      && Stored(blobs, snapshots[id].contentHash)
      && snapshots[id].resourceUri in resources
  }

  ghost predicate MaterializationsOk(
    mats: map<Str, Materialization>, bySnapshot: map<Str, Str>, snapshots: map<Str, Snapshot>)
  {
    && (forall id | id in mats ::
          && mats[id].materializationId == id
          && mats[id].snapshotId in snapshots
          && mats[id].contentHash == snapshots[mats[id].snapshotId].contentHash
          && mats[id].snapshotId in bySnapshot && bySnapshot[mats[id].snapshotId] == id)
    && (forall s | s in bySnapshot :: bySnapshot[s] in mats && mats[bySnapshot[s]].snapshotId == s)
  }

  // A tag, like a current pointer, names a snapshot of its own resource.
  ghost predicate PointersOk(tags: map<(Str, Str), Str>, resources: map<Str, Resource>, snapshots: map<Str, Snapshot>) {
    && (forall t | t in tags :: tags[t] in snapshots && snapshots[tags[t]].resourceUri == t.0)
    && (forall u | u in resources && resources[u].currentSnapshotId != [] ::
          && resources[u].currentSnapshotId in snapshots
          && snapshots[resources[u].currentSnapshotId].resourceUri == u)
  }

  ghost predicate EntryOk(mats: map<Str, Materialization>, e: Entry) {
    && e.materializationId in mats
    && mats[e.materializationId].snapshotId == e.snapshotId
    && mats[e.materializationId].contentHash == e.contentHash
  }

  // Positions are 0, 1, 2, ... in list order.
  predicate Dense(rows: seq<Entry>) {
    forall i | 0 <= i < |rows| :: rows[i].position == i
  }

  ghost predicate MountsOk(mounts: map<Str, seq<Entry>>, runs: map<Str, Run>, mats: map<Str, Materialization>) {
    && mounts.Keys == runs.Keys
    && (forall r | r in mounts :: Dense(mounts[r]))
    && (forall r, i | r in mounts && 0 <= i < |mounts[r]| :: EntryOk(mats, mounts[r][i]))
  }

  ghost predicate ManifestsOk(
    manifests: map<Str, Manifest>, byRun: map<Str, Str>, mounts: map<Str, seq<Entry>>, runs: map<Str, Run>)
  {
    && (forall id | id in manifests ::
          && id != [] && manifests[id].manifestId == id
          && manifests[id].runId in byRun && byRun[manifests[id].runId] == id
          && manifests[id].runId in mounts && manifests[id].entries <= mounts[manifests[id].runId])
    && (forall r | r in byRun :: byRun[r] in manifests && manifests[byRun[r]].runId == r)
    && (forall r | r in runs && runs[r].committed :: r in byRun && byRun[r] == runs[r].manifestId)
  }

  ghost predicate DbOk(sha: Sha, db: Db) {
    && BlobsOk(sha, db.blobs)
    && SnapshotsOk(db.snapshots, db.blobs, db.resources)
    && MaterializationsOk(db.materializations, db.bySnapshot, db.snapshots)
    && PointersOk(db.tags, db.resources, db.snapshots)
    && MountsOk(db.mounts, db.runs, db.materializations)
    && ManifestsOk(db.manifests, db.byRun, db.mounts, db.runs)
  }

  /******* What a call in progress knows *******/

  ghost predicate HasSnapshot(db: Db, snap: Snapshot) {
    snap.snapshotId in db.snapshots && db.snapshots[snap.snapshotId] == snap
  }

  // The snapshot is stored and the content in hand hashes to what it records.
  ghost predicate HoldsContent(sha: Sha, db: Db, snap: Snapshot, content: Bytes) {
    HasSnapshot(db, snap) && ContentHash(sha, content) == snap.contentHash
  }

  ghost predicate ResolvedOk(sha: Sha, db: Db, r: Resolved) {
    && HoldsContent(sha, db, r.snapshot, r.content)
    && r.materialization.materializationId in db.materializations
    && db.materializations[r.materialization.materializationId] == r.materialization
    && r.materialization.snapshotId == r.snapshot.snapshotId
    && r.materialization.contentHash == r.snapshot.contentHash
  }

  ghost predicate EntryFor(entry: Entry, r: Resolved) {
    && entry.snapshotId == r.snapshot.snapshotId
    && entry.materializationId == r.materialization.materializationId
    && entry.contentHash == r.materialization.contentHash
  }

  ghost predicate JobOk(db: Db, job: Job) {
    && job.uri in db.resources
    && (job.purpose.IntoRun? ==> job.purpose.runId in db.runs)
  }

  ghost predicate MountRecorded(db: Db, runId: Str, entry: Entry) {
    && runId in db.mounts
    && 0 <= entry.position < |db.mounts[runId]|
    && db.mounts[runId][entry.position] == entry
  }

  ghost predicate ManifestRecorded(db: Db, m: Manifest) {
    m.manifestId in db.manifests && db.manifests[m.manifestId] == m
  }

  ghost predicate OutcomeOk(sha: Sha, db: Db, o: Outcome) {
    match o
    case Done => true
    case GotResolve(r) => ResolvedOk(sha, db, r)
    case GotMount(runId, entry, r) => ResolvedOk(sha, db, r) && EntryFor(entry, r) && MountRecorded(db, runId, entry)
    case GotManifest(m) => ManifestRecorded(db, m)
  }

  ghost predicate ClientOk(sha: Sha, db: Db, c: Client) {
    match c
    case AtResourceCreate(_, _) => true
    case AtResourceGet(job) => job.purpose.IntoRun? ==> job.purpose.runId in db.runs
    case AtTagGet(job) => JobOk(db, job)
    case AtCurrentGet(job, _, _) => JobOk(db, job)
    case AtSnapshotGet(job, _, _) => JobOk(db, job)
    case AtContentGet(job, snap, _) => JobOk(db, job) && HasSnapshot(db, snap)
    case AtFetch(job, _) => JobOk(db, job)
    case AtFetchedPut(job, _, _) => JobOk(db, job)
    case AtSnapshotCreate(job, _, fetched, hash) =>
      JobOk(db, job) && hash == ContentHash(sha, fetched.content) && Stored(db.blobs, hash)
    case AtCurrentSet(job, snap, content) =>
      JobOk(db, job) && HoldsContent(sha, db, snap, content) && snap.resourceUri == job.uri
    case AtMaterializationFind(job, snap, content, _) => JobOk(db, job) && HoldsContent(sha, db, snap, content)
    case AtMaterializationPut(job, snap, content, _) => JobOk(db, job) && HoldsContent(sha, db, snap, content)
    case AtMaterializationCreate(job, snap, content, _, hash) =>
      JobOk(db, job) && HoldsContent(sha, db, snap, content) && hash == ContentHash(sha, content)
    case AtMountRunGet(runId, job) => job.purpose == IntoRun(runId)
    case AtMountList(runId, job, r) => runId in db.runs && ResolvedOk(sha, db, r)
    case AtMountAppend(runId, entry, r) =>
      && runId in db.runs && ResolvedOk(sha, db, r) && EntryFor(entry, r)
      && 0 <= entry.position <= |ListMounts(db, runId)|
    case AtRunStart(_) => true
    case AtCommitRunGet(_) => true
    case AtCommitList(runId) => runId in db.runs
    case AtManifestCreate(runId, entries) =>
      runId in db.mounts && entries <= db.mounts[runId]
    case AtMarkCommitted(runId, m) =>
      m.runId == runId && runId in db.byRun && db.byRun[runId] == m.manifestId && ManifestRecorded(db, m)
    case AtTagOwner(_, _, _) => true
    case AtTagUpsert(uri, _, id) => id in db.snapshots && db.snapshots[id].resourceUri == uri
    case AtTagDelete(_, _) => true
    case Finished(result) => result.Ok? ==> OutcomeOk(sha, db, result.value)
  }

  // Nothing another call does can invalidate what this one knows.
  lemma ClientOkStable(sha: Sha, s: Db, t: Db, c: Client)
    requires Extends(s, t) && ClientOk(sha, s, c)
    ensures ClientOk(sha, t, c)
  {
  }

  /******* Each write only extends the tables *******/

  lemma WithinInsert<K(!new), V(!new)>(m: map<K, V>, k: K, v: V)
    requires k in m ==> m[k] == v
    ensures Within(m, m[k := v])
  {
  }

  lemma PutBlobExtends(sha: Sha, db: Db, content: Bytes)
    ensures Extends(db, PutBlob(sha, db, content))
  {
    var key := HexEncode(sha(content));
    if key !in db.blobs {
      WithinInsert(db.blobs, key, content);
    }
  }

  lemma ResourceWritesExtend(db: Db, uri: Str, policy: Policy, id: Str)
    ensures CreateResource(db, uri, policy).Ok? ==> Extends(db, CreateResource(db, uri, policy).value)
    ensures SetCurrent(db, uri, id).Ok? ==> Extends(db, SetCurrent(db, uri, id).value)
  {
  }

  lemma TagWritesExtend(db: Db, uri: Str, name: Str, id: Str)
    ensures Extends(db, UpsertTag(db, uri, name, id))
    ensures DeleteTag(db, uri, name).Ok? ==> Extends(db, DeleteTag(db, uri, name).value)
  {
  }

  lemma CreateSnapshotExtends(db: Db, snap: Snapshot)
    ensures CreateSnapshot(db, snap).Ok? ==> Extends(db, CreateSnapshot(db, snap).value)
  {
  }

  lemma CreateMaterializationExtends(db: Db, mat: Materialization)
    ensures CreateMaterialization(db, mat).Ok? ==> Extends(db, CreateMaterialization(db, mat).value)
  {
  }

  lemma CreateManifestExtends(db: Db, m: Manifest)
    ensures CreateManifest(db, m).Ok? ==> Extends(db, CreateManifest(db, m).value)
  {
  }

  lemma StartRunExtends(db: Db, runId: Str)
    requires db.mounts.Keys == db.runs.Keys
    ensures StartRun(db, runId).Ok? ==> Extends(db, StartRun(db, runId).value)
  {
  }

  lemma MarkCommittedExtends(db: Db, runId: Str, manifestId: Str)
    requires runId in db.runs && db.runs[runId].committed ==> db.runs[runId].manifestId == manifestId
    ensures Extends(db, MarkCommitted(db, runId, manifestId))
  {
  }

  /******* Each write keeps the tables consistent *******/

  lemma PutAtOk(sha: Sha, blobs: map<Str, Bytes>, key: Str, content: Bytes)
    requires BlobsOk(sha, blobs) && key == HexEncode(sha(content))
    ensures BlobsOk(sha, PutAt(blobs, key, content)) && Within(blobs, PutAt(blobs, key, content))
  {
  }

  lemma SnapshotsOkLater(
    snapshots: map<Str, Snapshot>, blobs: map<Str, Bytes>, resources: map<Str, Resource>,
    blobs': map<Str, Bytes>, resources': map<Str, Resource>)
    requires SnapshotsOk(snapshots, blobs, resources)
    requires Within(blobs, blobs') && resources.Keys <= resources'.Keys
    ensures SnapshotsOk(snapshots, blobs', resources')
  {
  }

  lemma PutBlobOk(sha: Sha, db: Db, content: Bytes)
    requires DbOk(sha, db)
    ensures DbOk(sha, PutBlob(sha, db, content))
    ensures Stored(PutBlob(sha, db, content).blobs, ContentHash(sha, content))
  {
    ContentHashIsValid(sha, content);
    var key := HexEncode(sha(content));
    PutAtOk(sha, db.blobs, key, content);
    SnapshotsOkLater(db.snapshots, db.blobs, db.resources, PutAt(db.blobs, key, content), db.resources);
  }

  lemma CreateResourceOk(sha: Sha, db: Db, uri: Str, policy: Policy)
    requires DbOk(sha, db) && CreateResource(db, uri, policy).Ok?
    ensures DbOk(sha, CreateResource(db, uri, policy).value)
  {
    SnapshotsOkLater(db.snapshots, db.blobs, db.resources, db.blobs, CreateResource(db, uri, policy).value.resources);
  }

  lemma SnapshotsOkInsert(
    snapshots: map<Str, Snapshot>, blobs: map<Str, Bytes>, resources: map<Str, Resource>, snap: Snapshot)
    requires SnapshotsOk(snapshots, blobs, resources) && snap.snapshotId !in snapshots
    requires snap.snapshotId != [] && Stored(blobs, snap.contentHash) && snap.resourceUri in resources
    ensures SnapshotsOk(snapshots[snap.snapshotId := snap], blobs, resources)
  {
  }

  lemma SnapshotRefsLater(
    mats: map<Str, Materialization>, bySnapshot: map<Str, Str>, tags: map<(Str, Str), Str>,
    resources: map<Str, Resource>, snapshots: map<Str, Snapshot>, snapshots': map<Str, Snapshot>)
    requires Within(snapshots, snapshots')
    ensures MaterializationsOk(mats, bySnapshot, snapshots) ==> MaterializationsOk(mats, bySnapshot, snapshots')
    ensures PointersOk(tags, resources, snapshots) ==> PointersOk(tags, resources, snapshots')
  {
  }

  lemma CreateSnapshotOk(sha: Sha, db: Db, snap: Snapshot)
    requires DbOk(sha, db) && CreateSnapshot(db, snap).Ok?
    requires snap.snapshotId != [] && Stored(db.blobs, snap.contentHash) && snap.resourceUri in db.resources
    ensures DbOk(sha, CreateSnapshot(db, snap).value) && HasSnapshot(CreateSnapshot(db, snap).value, snap)
  {
    SnapshotsOkInsert(db.snapshots, db.blobs, db.resources, snap);
    WithinInsert(db.snapshots, snap.snapshotId, snap);
    SnapshotRefsLater(db.materializations, db.bySnapshot, db.tags, db.resources,
                      db.snapshots, db.snapshots[snap.snapshotId := snap]);
  }

  lemma PointersOkCurrent(
    tags: map<(Str, Str), Str>, resources: map<Str, Resource>, snapshots: map<Str, Snapshot>, uri: Str, id: Str)
    requires PointersOk(tags, resources, snapshots) && uri in resources
    requires id in snapshots && snapshots[id].resourceUri == uri
    ensures PointersOk(tags, resources[uri := resources[uri].(currentSnapshotId := id)], snapshots)
  {
  }

  lemma SetCurrentOk(sha: Sha, db: Db, uri: Str, snap: Snapshot)
    requires DbOk(sha, db) && SetCurrent(db, uri, snap.snapshotId).Ok?
    requires HasSnapshot(db, snap) && snap.resourceUri == uri
    ensures DbOk(sha, SetCurrent(db, uri, snap.snapshotId).value)
  {
    PointersOkCurrent(db.tags, db.resources, db.snapshots, uri, snap.snapshotId);
    SnapshotsOkLater(db.snapshots, db.blobs, db.resources,
                     db.blobs, SetCurrent(db, uri, snap.snapshotId).value.resources);
  }

  lemma MaterializationsOkInsert(
    mats: map<Str, Materialization>, bySnapshot: map<Str, Str>, snapshots: map<Str, Snapshot>, mat: Materialization)
    requires MaterializationsOk(mats, bySnapshot, snapshots)
    requires mat.materializationId !in mats && mat.snapshotId !in bySnapshot
    requires mat.snapshotId in snapshots && mat.contentHash == snapshots[mat.snapshotId].contentHash
    ensures MaterializationsOk(
              mats[mat.materializationId := mat], bySnapshot[mat.snapshotId := mat.materializationId], snapshots)
  {
  }

  lemma MountsOkLater(
    mounts: map<Str, seq<Entry>>, runs: map<Str, Run>,
    mats: map<Str, Materialization>, mats': map<Str, Materialization>)
    requires MountsOk(mounts, runs, mats) && Within(mats, mats')
    ensures MountsOk(mounts, runs, mats')
  {
  }

  lemma CreateMaterializationOk(sha: Sha, db: Db, mat: Materialization)
    requires DbOk(sha, db) && CreateMaterialization(db, mat).Ok?
    requires mat.snapshotId in db.snapshots && mat.contentHash == db.snapshots[mat.snapshotId].contentHash
    ensures DbOk(sha, CreateMaterialization(db, mat).value)
  {
    MaterializationsOkInsert(db.materializations, db.bySnapshot, db.snapshots, mat);
    WithinInsert(db.materializations, mat.materializationId, mat);
    MountsOkLater(db.mounts, db.runs, db.materializations, db.materializations[mat.materializationId := mat]);
  }

  lemma UpsertTagOk(sha: Sha, db: Db, uri: Str, name: Str, id: Str)
    requires DbOk(sha, db) && id in db.snapshots && db.snapshots[id].resourceUri == uri
    ensures DbOk(sha, UpsertTag(db, uri, name, id))
  {
    assert PointersOk(UpsertTag(db, uri, name, id).tags, db.resources, db.snapshots);
  }

  lemma DeleteTagOk(sha: Sha, db: Db, uri: Str, name: Str)
    requires DbOk(sha, db) && DeleteTag(db, uri, name).Ok?
    ensures DbOk(sha, DeleteTag(db, uri, name).value)
  {
    assert PointersOk(DeleteTag(db, uri, name).value.tags, db.resources, db.snapshots);
  }

  lemma StartRunOk(sha: Sha, db: Db, runId: Str)
    requires DbOk(sha, db) && StartRun(db, runId).Ok?
    ensures DbOk(sha, StartRun(db, runId).value)
  {
    var db' := StartRun(db, runId).value;
    assert MountsOk(db'.mounts, db'.runs, db.materializations);
    assert ManifestsOk(db.manifests, db.byRun, db'.mounts, db'.runs);
  }

  // A row at a position at most the length of a dense list either goes at its
  // end or is refused; the list stays dense although its position was read earlier.
  lemma {:induction false} InsertDense(rows: seq<Entry>, e: Entry)
    requires Dense(rows) && 0 <= e.position <= |rows|
    ensures Insert(rows, e) == if e.position == |rows| then Some(rows + [e]) else None
    decreases |rows|
  {
    if rows == [] {
      assert rows + [e] == [e];
    } else {
      assert rows[|rows| - 1].position == |rows| - 1;
      if e.position < |rows| - 1 {
        InsertDense(rows[..|rows| - 1], e);
      }
    }
  }

  lemma {:induction false} InsertAllDense(rows: seq<Entry>, entries: seq<Entry>)
    requires Dense(rows + entries)
    ensures InsertAll(rows, entries) == Some(rows + entries)
    decreases |entries|
  {
    if entries == [] {
      assert rows + entries == rows;
    } else {
      assert (rows + entries)[|rows|] == entries[0];
      forall i | 0 <= i < |rows| ensures rows[i].position == i { assert (rows + entries)[i] == rows[i]; }
      InsertDense(rows, entries[0]);
      assert rows + [entries[0]] + entries[1..] == rows + entries;
      InsertAllDense(rows + [entries[0]], entries[1..]);
    }
  }

  lemma MountsOkAppend(
    mounts: map<Str, seq<Entry>>, runs: map<Str, Run>, mats: map<Str, Materialization>, runId: Str, e: Entry)
    requires MountsOk(mounts, runs, mats) && runId in mounts
    requires EntryOk(mats, e) && e.position == |mounts[runId]|
    ensures MountsOk(mounts[runId := mounts[runId] + [e]], runs, mats)
  {
  }

  lemma ManifestsOkAppend(
    manifests: map<Str, Manifest>, byRun: map<Str, Str>, mounts: map<Str, seq<Entry>>, runs: map<Str, Run>,
    runId: Str, e: Entry)
    requires ManifestsOk(manifests, byRun, mounts, runs) && runId in mounts
    ensures ManifestsOk(manifests, byRun, mounts[runId := mounts[runId] + [e]], runs)
  {
  }

  lemma AppendMountOk(sha: Sha, db: Db, runId: Str, e: Entry)
    requires DbOk(sha, db) && AppendMount(db, runId, e).Ok?
    requires runId in db.runs && EntryOk(db.materializations, e) && 0 <= e.position <= |ListMounts(db, runId)|
    ensures AppendMount(db, runId, e).value == db.(mounts := db.mounts[runId := db.mounts[runId] + [e]])
    ensures DbOk(sha, AppendMount(db, runId, e).value)
    ensures MountRecorded(AppendMount(db, runId, e).value, runId, e)
  {
    InsertDense(ListMounts(db, runId), e);
    MountsOkAppend(db.mounts, db.runs, db.materializations, runId, e);
    ManifestsOkAppend(db.manifests, db.byRun, db.mounts, db.runs, runId, e);
  }

  lemma AppendMountExtends(db: Db, runId: Str, e: Entry)
    requires runId in db.mounts
    ensures Extends(db, db.(mounts := db.mounts[runId := db.mounts[runId] + [e]]))
  {
  }

  lemma ManifestsOkInsert(
    manifests: map<Str, Manifest>, byRun: map<Str, Str>, mounts: map<Str, seq<Entry>>, runs: map<Str, Run>, m: Manifest)
    requires ManifestsOk(manifests, byRun, mounts, runs)
    requires m.manifestId !in manifests && m.runId !in byRun && m.manifestId != []
    requires m.runId in mounts && m.entries <= mounts[m.runId]
    ensures ManifestsOk(manifests[m.manifestId := m], byRun[m.runId := m.manifestId], mounts, runs)
  {
  }

  lemma CreateManifestOk(sha: Sha, db: Db, m: Manifest)
    requires DbOk(sha, db) && CreateManifest(db, m).Ok?
    requires m.manifestId != [] && m.runId in db.mounts && m.entries <= db.mounts[m.runId]
    ensures var db' := CreateManifest(db, m).value;
            DbOk(sha, db') && ManifestRecorded(db', m) && m.runId in db'.byRun && db'.byRun[m.runId] == m.manifestId
  {
    assert [] + m.entries == m.entries;
    InsertAllDense([], m.entries);
    ManifestsOkInsert(db.manifests, db.byRun, db.mounts, db.runs, m);
  }

  lemma MarkCommittedOk(sha: Sha, db: Db, runId: Str, manifestId: Str)
    requires DbOk(sha, db)
    requires runId in db.byRun && db.byRun[runId] == manifestId
    ensures DbOk(sha, MarkCommitted(db, runId, manifestId))
    ensures Extends(db, MarkCommitted(db, runId, manifestId))
  {
    MarkCommittedExtends(db, runId, manifestId);
    var runs := MarkCommitted(db, runId, manifestId).runs;
    assert MountsOk(db.mounts, runs, db.materializations);
    assert ManifestsOk(db.manifests, db.byRun, db.mounts, runs);
  }

  /******* Every step keeps everything *******/

  ghost predicate Keeps(sha: Sha, db: Db, r: (Db, Client)) {
    DbOk(sha, r.0) && Extends(db, r.0) && ClientOk(sha, r.0, r.1)
  }

  lemma ReadsOk(sha: Sha, db: Db, id: Str)
    requires DbOk(sha, db)
    ensures Extends(db, db)
    ensures GetSnapshot(db, id).Ok? ==> HasSnapshot(db, GetSnapshot(db, id).value)
    ensures FindBySnapshot(db, id).Some? && id in db.snapshots ==>
              var mat := FindBySnapshot(db, id).value;
              && mat.materializationId in db.materializations && db.materializations[mat.materializationId] == mat
              && mat.snapshotId == id && mat.contentHash == db.snapshots[id].contentHash
    ensures db.mounts.Keys == db.runs.Keys
  {
  }

  lemma GetBlobOk(sha: Sha, db: Db, hash: Str)
    requires DbOk(sha, db) && GetBlob(db, hash).Ok?
    ensures ContentHash(sha, GetBlob(db, hash).value) == hash
  {
    assert hash == hash[..7] + hash[7..];
  }

  lemma ReadStepKeeps(sha: Sha, db: Db, c: Client, env: Env)
    requires DbOk(sha, db) && ClientOk(sha, db, c) && !env.fail && (c.AtResourceGet? || c.AtTagGet? || c.AtFetch?)
    ensures Keeps(sha, db, Step(sha, db, c, env))
  {
    hide DbOk;
    hide Extends;
    ReadsOk(sha, db, []);
  }

  lemma SnapshotReadKeeps(sha: Sha, db: Db, c: Client, env: Env)
    requires DbOk(sha, db) && ClientOk(sha, db, c) && !env.fail && (c.AtCurrentGet? || c.AtSnapshotGet?)
    ensures Keeps(sha, db, Step(sha, db, c, env))
  {
    hide DbOk;
    hide Extends;
    ReadsOk(sha, db, if c.AtCurrentGet? then c.resource.currentSnapshotId else c.id);
  }

  lemma ContentGetKeeps(sha: Sha, db: Db, c: Client, env: Env)
    requires DbOk(sha, db) && ClientOk(sha, db, c) && !env.fail && c.AtContentGet?
    ensures Keeps(sha, db, Step(sha, db, c, env))
  {
    hide DbOk;
    hide Extends;
    ReadsOk(sha, db, []);
    if GetBlob(db, c.snap.contentHash).Ok? {
      GetBlobOk(sha, db, c.snap.contentHash);
    }
  }

  lemma FetchedPutKeeps(sha: Sha, db: Db, c: Client, env: Env)
    requires DbOk(sha, db) && ClientOk(sha, db, c) && !env.fail && c.AtFetchedPut?
    ensures Keeps(sha, db, Step(sha, db, c, env))
  {
    hide DbOk;
    hide Extends;
    hide PutBlob;
    PutBlobOk(sha, db, c.fetched.content);
    PutBlobExtends(sha, db, c.fetched.content);
    ClientOkStable(sha, db, PutBlob(sha, db, c.fetched.content), c);
  }

  lemma SnapshotCreateKeeps(sha: Sha, db: Db, c: Client, env: Env)
    requires DbOk(sha, db) && ClientOk(sha, db, c) && !env.fail && c.AtSnapshotCreate?
    ensures Keeps(sha, db, Step(sha, db, c, env))
  {
    hide DbOk;
    hide Extends;
    var snap := SnapshotOf(c.job, c.now, c.fetched, c.hash, env);
    ReadsOk(sha, db, []);
    if CreateSnapshot(db, snap).Ok? {
      CreateSnapshotOk(sha, db, snap);
      CreateSnapshotExtends(db, snap);
      ClientOkStable(sha, db, CreateSnapshot(db, snap).value, c);
    }
  }

  lemma CurrentSetKeeps(sha: Sha, db: Db, c: Client, env: Env)
    requires DbOk(sha, db) && ClientOk(sha, db, c) && !env.fail && c.AtCurrentSet?
    ensures Keeps(sha, db, Step(sha, db, c, env))
  {
    hide DbOk;
    hide Extends;
    SetCurrentOk(sha, db, c.job.uri, c.snap);
    ResourceWritesExtend(db, c.job.uri, Policy(Unknown, 0, []), c.snap.snapshotId);
    ClientOkStable(sha, db, SetCurrent(db, c.job.uri, c.snap.snapshotId).value, c);
  }

  lemma MaterializationFindKeeps(sha: Sha, db: Db, c: Client, env: Env)
    requires DbOk(sha, db) && ClientOk(sha, db, c) && !env.fail && c.AtMaterializationFind?
    ensures Keeps(sha, db, Step(sha, db, c, env))
  {
    hide DbOk;
    hide Extends;
    ReadsOk(sha, db, c.snap.snapshotId);
  }

  lemma MaterializationPutKeeps(sha: Sha, db: Db, c: Client, env: Env)
    requires DbOk(sha, db) && ClientOk(sha, db, c) && !env.fail && c.AtMaterializationPut?
    ensures Keeps(sha, db, Step(sha, db, c, env))
  {
    hide DbOk;
    hide Extends;
    hide PutBlob;
    PutBlobOk(sha, db, c.content);
    PutBlobExtends(sha, db, c.content);
    ClientOkStable(sha, db, PutBlob(sha, db, c.content), c);
  }

  lemma MaterializationCreateKeeps(sha: Sha, db: Db, c: Client, env: Env)
    requires DbOk(sha, db) && ClientOk(sha, db, c) && !env.fail && c.AtMaterializationCreate?
    ensures Keeps(sha, db, Step(sha, db, c, env))
  {
    hide DbOk;
    hide Extends;
    var mat := MaterializationOf(c.snap, c.hash, env);
    ReadsOk(sha, db, []);
    if CreateMaterialization(db, mat).Ok? {
      CreateMaterializationOk(sha, db, mat);
      CreateMaterializationExtends(db, mat);
      ClientOkStable(sha, db, CreateMaterialization(db, mat).value, c);
    }
  }

  lemma MountAppendKeeps(sha: Sha, db: Db, c: Client, env: Env)
    requires DbOk(sha, db) && ClientOk(sha, db, c) && !env.fail && c.AtMountAppend?
    ensures Keeps(sha, db, Step(sha, db, c, env))
  {
    hide DbOk;
    hide Extends;
    ReadsOk(sha, db, []);
    if AppendMount(db, c.runId, c.entry).Ok? {
      AppendMountOk(sha, db, c.runId, c.entry);
      AppendMountExtends(db, c.runId, c.entry);
      ClientOkStable(sha, db, AppendMount(db, c.runId, c.entry).value, c);
    }
  }

  lemma ManifestCreateKeeps(sha: Sha, db: Db, c: Client, env: Env)
    requires DbOk(sha, db) && ClientOk(sha, db, c) && !env.fail && c.AtManifestCreate?
    ensures Keeps(sha, db, Step(sha, db, c, env))
  {
    hide DbOk;
    hide Extends;
    var m := Manifest(NewId(MANIFEST, env.manifestUlid), c.runId, env.now, c.entries);
    ReadsOk(sha, db, []);
    if CreateManifest(db, m).Ok? {
      CreateManifestOk(sha, db, m);
      CreateManifestExtends(db, m);
    }
  }

  lemma RunReadKeeps(sha: Sha, db: Db, c: Client, env: Env)
    requires DbOk(sha, db) && ClientOk(sha, db, c) && !env.fail && (c.AtMountRunGet? || c.AtMountList?)
    ensures Keeps(sha, db, Step(sha, db, c, env))
  {
    hide DbOk;
    hide Extends;
    ReadsOk(sha, db, []);
  }

  lemma CommitReadKeeps(sha: Sha, db: Db, c: Client, env: Env)
    requires DbOk(sha, db) && ClientOk(sha, db, c) && !env.fail
    requires c.AtCommitRunGet? || c.AtCommitList? || c.AtTagOwner?
    ensures Keeps(sha, db, Step(sha, db, c, env))
  {
    hide DbOk;
    hide Extends;
    ReadsOk(sha, db, []);
  }

  lemma RegisterKeeps(sha: Sha, db: Db, c: Client, env: Env)
    requires DbOk(sha, db) && ClientOk(sha, db, c) && !env.fail && c.AtResourceCreate?
    ensures Keeps(sha, db, Step(sha, db, c, env))
  {
    hide DbOk;
    hide Extends;
    ReadsOk(sha, db, []);
    if CreateResource(db, c.uri, c.policy).Ok? {
      CreateResourceOk(sha, db, c.uri, c.policy);
    }
    ResourceWritesExtend(db, c.uri, c.policy, []);
  }

  lemma ExtendsItself(db: Db)
    ensures Extends(db, db)
  {
  }

  // A call that is over with no result to speak of knows nothing that could be wrong.
  lemma OverOk(sha: Sha, db: Db, e: Error)
    ensures ClientOk(sha, db, Finished(Err(e))) && ClientOk(sha, db, Finished(Ok(Done)))
  {
  }

  // The last step of a call that hands nothing back: its write, or the refusal.
  function Written(db: Db, made: Result<Db>): (Db, Client) {
    match made
    case Ok(t) => (t, Finished(Ok(Done)))
    case Err(e) => Fail(db, e)
  }

  lemma WrittenKeeps(sha: Sha, db: Db, made: Result<Db>)
    requires DbOk(sha, db) && (made.Ok? ==> DbOk(sha, made.value) && Extends(db, made.value))
    ensures Keeps(sha, db, Written(db, made))
  {
    ExtendsItself(db);
    hide DbOk;
    hide Extends;
    if made.Ok? {
      OverOk(sha, made.value, Conflict);
    } else {
      OverOk(sha, db, made.error);
    }
  }

  lemma RunStartStep(sha: Sha, db: Db, c: Client, env: Env)
    requires !env.fail && c.AtRunStart?
    ensures Step(sha, db, c, env) == Written(db, StartRun(db, c.runId))
  {
    hide StartRun;
  }

  lemma MountsOfRuns(sha: Sha, db: Db)
    requires DbOk(sha, db)
    ensures db.mounts.Keys == db.runs.Keys
  {
  }

  lemma RunStartKeeps(sha: Sha, db: Db, c: Client, env: Env)
    requires DbOk(sha, db) && ClientOk(sha, db, c) && !env.fail && c.AtRunStart?
    ensures Keeps(sha, db, Step(sha, db, c, env))
  {
    hide *;
    RunStartStep(sha, db, c, env);
    MountsOfRuns(sha, db);
    StartRunExtends(db, c.runId);
    if StartRun(db, c.runId).Ok? {
      StartRunOk(sha, db, c.runId);
    }
    WrittenKeeps(sha, db, StartRun(db, c.runId));
  }

  lemma MarkCommittedKeeps(sha: Sha, db: Db, c: Client, env: Env)
    requires DbOk(sha, db) && ClientOk(sha, db, c) && !env.fail && c.AtMarkCommitted?
    ensures Keeps(sha, db, Step(sha, db, c, env))
  {
    hide DbOk;
    hide Extends;
    MarkCommittedOk(sha, db, c.runId, c.manifest.manifestId);
  }

  lemma TagUpsertKeeps(sha: Sha, db: Db, c: Client, env: Env)
    requires DbOk(sha, db) && ClientOk(sha, db, c) && !env.fail && c.AtTagUpsert?
    ensures Keeps(sha, db, Step(sha, db, c, env))
  {
    hide DbOk;
    hide Extends;
    UpsertTagOk(sha, db, c.uri, c.name, c.id);
    TagWritesExtend(db, c.uri, c.name, c.id);
  }

  lemma TagDeleteStep(sha: Sha, db: Db, c: Client, env: Env)
    requires !env.fail && c.AtTagDelete?
    ensures Step(sha, db, c, env) == Written(db, DeleteTag(db, c.uri, c.name))
  {
    hide DeleteTag;
  }

  lemma TagDeleteKeeps(sha: Sha, db: Db, c: Client, env: Env)
    requires DbOk(sha, db) && ClientOk(sha, db, c) && !env.fail && c.AtTagDelete?
    ensures Keeps(sha, db, Step(sha, db, c, env))
  {
    hide *;
    TagDeleteStep(sha, db, c, env);
    TagWritesExtend(db, c.uri, c.name, []);
    if DeleteTag(db, c.uri, c.name).Ok? {
      DeleteTagOk(sha, db, c.uri, c.name);
    }
    WrittenKeeps(sha, db, DeleteTag(db, c.uri, c.name));
  }

  lemma StoppedKeeps(sha: Sha, db: Db, c: Client, env: Env)
    requires DbOk(sha, db) && ClientOk(sha, db, c) && (env.fail || c.Finished?)
    ensures Keeps(sha, db, Step(sha, db, c, env))
  {
    ExtendsItself(db);
    hide DbOk;
    hide Extends;
    hide ClientOk;
    if c.Finished? {
      assert Step(sha, db, c, env) == (db, c);
    } else {
      assert Step(sha, db, c, env) == (db, Finished(Err(Unavailable)));
      OverOk(sha, db, Unavailable);
    }
  }

  lemma StepKeeps(sha: Sha, db: Db, c: Client, env: Env)
    requires DbOk(sha, db) && ClientOk(sha, db, c)
    ensures Keeps(sha, db, Step(sha, db, c, env))
  {
    hide *;
    if env.fail || c.Finished? {
      StoppedKeeps(sha, db, c, env);
    } else {
      match c
      case AtResourceGet(_) => ReadStepKeeps(sha, db, c, env);
      case AtTagGet(_) => ReadStepKeeps(sha, db, c, env);
      case AtCurrentGet(_, _, _) => SnapshotReadKeeps(sha, db, c, env);
      case AtSnapshotGet(_, _, _) => SnapshotReadKeeps(sha, db, c, env);
      case AtContentGet(_, _, _) => ContentGetKeeps(sha, db, c, env);
      case AtFetch(_, _) => ReadStepKeeps(sha, db, c, env);
      case AtFetchedPut(_, _, _) => FetchedPutKeeps(sha, db, c, env);
      case AtSnapshotCreate(_, _, _, _) => SnapshotCreateKeeps(sha, db, c, env);
      case AtCurrentSet(_, _, _) => CurrentSetKeeps(sha, db, c, env);
      case AtMaterializationFind(_, _, _, _) => MaterializationFindKeeps(sha, db, c, env);
      case AtMaterializationPut(_, _, _, _) => MaterializationPutKeeps(sha, db, c, env);
      case AtMaterializationCreate(_, _, _, _, _) => MaterializationCreateKeeps(sha, db, c, env);
      case AtMountRunGet(_, _) => RunReadKeeps(sha, db, c, env);
      case AtMountList(_, _, _) => RunReadKeeps(sha, db, c, env);
      case AtMountAppend(_, _, _) => MountAppendKeeps(sha, db, c, env);
      case AtCommitRunGet(_) => CommitReadKeeps(sha, db, c, env);
      case AtCommitList(_) => CommitReadKeeps(sha, db, c, env);
      case AtTagOwner(_, _, _) => CommitReadKeeps(sha, db, c, env);
      case AtManifestCreate(_, _) => ManifestCreateKeeps(sha, db, c, env);
      case AtMarkCommitted(_, _) => MarkCommittedKeeps(sha, db, c, env);
      case AtResourceCreate(_, _) => RegisterKeeps(sha, db, c, env);
      case AtRunStart(_) => RunStartKeeps(sha, db, c, env);
      case AtTagUpsert(_, _, _) => TagUpsertKeeps(sha, db, c, env);
      case AtTagDelete(_, _) => TagDeleteKeeps(sha, db, c, env);
    }
  }
}
