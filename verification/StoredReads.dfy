/**
  Resolves that are answered from the store: by tag and by pin. The source is not
  asked, and only the materialization table can change.
 */
module StoredReads {
  import opened ByteStrings
  import opened References
  import opened Database
  import opened Clients
  import opened Invariants
  import opened Interleaving

  // The bytes a stored snapshot stands for.
  ghost function StoredContent(db: Db, snap: Snapshot): Bytes
    requires Stored(db.blobs, snap.contentHash)
  {
    db.blobs[snap.contentHash[7..]]
  }

  // t is s but for materializations.
  ghost predicate SameButMaterializations(s: Db, t: Db) {
    t == s.(materializations := t.materializations, bySnapshot := t.bySnapshot)
  }

  ghost predicate Delivers(sha: Sha, db: Db, call: (Db, Result<Outcome>), snap: Snapshot, decision: Decision) {
    && SameButMaterializations(db, call.0)
    && call.1.Ok? && call.1.value.GotResolve?
    && var r := call.1.value.resolved;
       && r.snapshot == snap && r.decision == decision
       && Stored(db.blobs, snap.contentHash) && r.content == StoredContent(db, snap)
       && ContentHash(sha, r.content) == snap.contentHash
       && r.materialization.snapshotId == snap.snapshotId && r.materialization.contentHash == snap.contentHash
       && Materialized(db, call.0, r.materialization)
  }

  // The materialization of its snapshot, if there is one, or else one row more.
  ghost predicate Materialized(s: Db, t: Db, mat: Materialization) {
    if mat.snapshotId in s.bySnapshot then
      t == s && s.bySnapshot[mat.snapshotId] in s.materializations
      && mat == s.materializations[s.bySnapshot[mat.snapshotId]]
    else
      && mat.materializationId !in s.materializations
      && t == s.(materializations := s.materializations[mat.materializationId := mat],
                 bySnapshot := s.bySnapshot[mat.snapshotId := mat.materializationId])
  }

  ghost predicate DeliversOrFails(
    sha: Sha, db: Db, call: (Db, Result<Outcome>), id: Str, decision: Decision)
  {
    if id in db.snapshots then Delivers(sha, db, call, db.snapshots[id], decision)
    else call == (db, Err(SnapshotNotFound))
  }

  ghost predicate FreshMaterialization(db: Db, env: Env) {
    NewId(MAT, env.materializationUlid) !in db.materializations
  }

  // The outcome of a client that ran to its end.
  ghost function Ended(sha: Sha, db: Db, c: Client, env: Env): (Db, Result<Outcome>) {
    var r := RunToEnd(sha, db, c, env);
    (r.0, r.1.result)
  }

  lemma EndedUnroll(sha: Sha, db: Db, c: Client, env: Env)
    requires !c.Finished?
    ensures Ended(sha, db, c, env) == Ended(sha, Step(sha, db, c, env).0, Step(sha, db, c, env).1, env)
  {
  }

  lemma EndedFinished(sha: Sha, db: Db, result: Result<Outcome>, env: Env)
    ensures Ended(sha, db, Finished(result), env) == (db, result)
  {
  }

  /******* From a snapshot in hand to the result *******/

  lemma ContentIsStored(sha: Sha, db: Db, id: Str)
    requires DbOk(sha, db) && id in db.snapshots
    ensures var snap := db.snapshots[id];
            && snap.snapshotId == id && Stored(db.blobs, snap.contentHash)
            && GetBlob(db, snap.contentHash) == Ok(StoredContent(db, snap))
            && ContentHash(sha, StoredContent(db, snap)) == snap.contentHash
            && PutBlob(sha, db, StoredContent(db, snap)) == db
  {
    var hash := db.snapshots[id].contentHash;
    assert Stored(db.blobs, hash);
    GetBlobOk(sha, db, hash);
    ContentHashIsValid(sha, db.blobs[hash[7..]]);
    assert db.(blobs := db.blobs) == db;
  }

  lemma FoundMaterialization(sha: Sha, db: Db, id: Str)
    requires DbOk(sha, db) && id in db.snapshots
    ensures var found := FindBySnapshot(db, id);
            && (found.Some? ==> found.value.snapshotId == id && found.value.contentHash == db.snapshots[id].contentHash)
            && (found.Some? ==> && id in db.bySnapshot && db.bySnapshot[id] in db.materializations
                                && found.value == db.materializations[db.bySnapshot[id]])
            && (found.None? ==> id !in db.bySnapshot)
  {
  }

  lemma CreatedMaterialization(sha: Sha, db: Db, snap: Snapshot, content: Bytes, decision: Decision, job: Job, env: Env)
    requires !env.fail && FreshMaterialization(db, env) && job.purpose.JustResolve?
    requires snap.snapshotId !in db.bySnapshot && PutBlob(sha, db, content) == db
    ensures var mat := MaterializationOf(snap, ContentHash(sha, content), env);
            Ended(sha, db, AtMaterializationPut(job, snap, content, decision), env) ==
            (db.(materializations := db.materializations[mat.materializationId := mat],
                 bySnapshot := db.bySnapshot[snap.snapshotId := mat.materializationId]),
             Ok(GotResolve(Resolved(snap, mat, content, decision))))
  {
    hide Ended;
    var hash := ContentHash(sha, content);
    var c := AtMaterializationPut(job, snap, content, decision);
    var d := AtMaterializationCreate(job, snap, content, decision, hash);
    assert Step(sha, db, c, env) == (db, d);
    EndedUnroll(sha, db, c, env);
    EndedUnroll(sha, db, d, env);
    var r := Step(sha, db, d, env);
    EndedFinished(sha, r.0, r.1.result, env);
  }

  lemma FindStep(sha: Sha, db: Db, snap: Snapshot, content: Bytes, decision: Decision, job: Job, env: Env)
    requires !env.fail && job.purpose.JustResolve?
    ensures var found := FindBySnapshot(db, snap.snapshotId);
            Ended(sha, db, AtMaterializationFind(job, snap, content, decision), env) ==
            if found.Some? then (db, Ok(GotResolve(Resolved(snap, found.value, content, decision))))
            else Ended(sha, db, AtMaterializationPut(job, snap, content, decision), env)
  {
    hide Ended;
    EndedUnroll(sha, db, AtMaterializationFind(job, snap, content, decision), env);
    var found := FindBySnapshot(db, snap.snapshotId);
    if found.Some? {
      EndedFinished(sha, db, Ok(GotResolve(Resolved(snap, found.value, content, decision))), env);
    }
  }

  lemma ContentStep(sha: Sha, db: Db, snap: Snapshot, content: Bytes, decision: Decision, job: Job, env: Env)
    requires !env.fail && GetBlob(db, snap.contentHash) == Ok(content)
    ensures Ended(sha, db, AtContentGet(job, snap, decision), env) ==
            Ended(sha, db, AtMaterializationFind(job, snap, content, decision), env)
  {
    hide Ended;
    EndedUnroll(sha, db, AtContentGet(job, snap, decision), env);
  }

  lemma SnapshotStep(sha: Sha, db: Db, id: Str, decision: Decision, job: Job, env: Env)
    requires !env.fail
    ensures Ended(sha, db, AtSnapshotGet(job, id, decision), env) ==
            if id in db.snapshots then Ended(sha, db, AtContentGet(job, db.snapshots[id], decision), env)
            else (db, Err(SnapshotNotFound))
  {
    hide Ended;
    EndedUnroll(sha, db, AtSnapshotGet(job, id, decision), env);
    if id !in db.snapshots {
      EndedFinished(sha, db, Err(SnapshotNotFound), env);
    }
  }

  lemma SnapshotDelivers(sha: Sha, db: Db, id: Str, decision: Decision, job: Job, env: Env)
    requires DbOk(sha, db) && !env.fail && FreshMaterialization(db, env) && job.purpose.JustResolve?
    requires id in db.snapshots
    ensures var snap := db.snapshots[id];
            Delivers(sha, db, Ended(sha, db, AtContentGet(job, snap, decision), env), snap, decision)
  {
    hide DbOk;
    hide Ended;
    hide PutBlob;
    hide GetBlob;
    hide FindBySnapshot;
    hide ContentHash;
    var snap := db.snapshots[id];
    ContentIsStored(sha, db, id);
    var content := StoredContent(db, snap);
    ContentStep(sha, db, snap, content, decision, job, env);
    FindStep(sha, db, snap, content, decision, job, env);
    FoundMaterialization(sha, db, id);
    if FindBySnapshot(db, id).None? {
      CreatedMaterialization(sha, db, snap, content, decision, job, env);
    } else {
      assert db == db.(materializations := db.materializations, bySnapshot := db.bySnapshot);
    }
  }

  /******* Tags *******/

  lemma TagSteps(sha: Sha, db: Db, job: Job, env: Env)
    requires !env.fail && job.ref != []
    ensures Ended(sha, db, AtResourceGet(job), env) ==
            if job.uri !in db.resources then (db, Err(ResourceNotFound))
            else if !ValidName(job.ref) then (db, Err(InvalidTagName))
            else if (job.uri, job.ref) !in db.tags then (db, Err(TagNotFound))
            else Ended(sha, db, AtSnapshotGet(job, db.tags[(job.uri, job.ref)], UseTag), env)
  {
    hide Ended;
    hide ValidName;
    EndedUnroll(sha, db, AtResourceGet(job), env);
    if job.uri !in db.resources {
      EndedFinished(sha, db, Err(ResourceNotFound), env);
    } else if !ValidName(job.ref) {
      EndedFinished(sha, db, Err(InvalidTagName), env);
    } else {
      EndedUnroll(sha, db, AtTagGet(job), env);
      if (job.uri, job.ref) !in db.tags {
        EndedFinished(sha, db, Err(TagNotFound), env);
      }
    }
  }

  lemma TagNamesSnapshot(sha: Sha, db: Db, uri: Str, name: Str)
    requires DbOk(sha, db) && (uri, name) in db.tags
    ensures db.tags[(uri, name)] in db.snapshots && db.snapshots[db.tags[(uri, name)]].resourceUri == uri
  {
  }

  lemma ResolveBegins(sha: Sha, db: Db, raw: Str, r: Reference, env: Env)
    requires SplitRef(raw) == Some(r)
    ensures Call(sha, db, Resolve(raw), env) == Ended(sha, db, AtResourceGet(Job(JustResolve, r.uri, r.ref)), env)
  {
  }

  // MAIN RESULT. A tagged resolve of a stored state fails exactly when the resource,
  // the name or the tag is missing. Otherwise it delivers the tagged snapshot, which
  // is one of that resource, and the very bytes stored for it, whatever the source
  // holds and whatever the policy says; nothing but materializations can change.
  lemma TaggedResolve(sha: Sha, db: Db, raw: Str, r: Reference, env: Env)
    requires DbOk(sha, db) && !env.fail && FreshMaterialization(db, env)
    requires SplitRef(raw) == Some(r) && r.ref != []
    ensures var call := Call(sha, db, Resolve(raw), env);
            if r.uri !in db.resources then call == (db, Err(ResourceNotFound))
            else if !ValidName(r.ref) then call == (db, Err(InvalidTagName))
            else if (r.uri, r.ref) !in db.tags then call == (db, Err(TagNotFound))
            else var id := db.tags[(r.uri, r.ref)];
                 && id in db.snapshots && db.snapshots[id].resourceUri == r.uri
                 && Delivers(sha, db, call, db.snapshots[id], UseTag)
  {
    hide DbOk;
    hide Ended;
    hide ValidName;
    hide SplitRef;
    hide Delivers;
    var job := Job(JustResolve, r.uri, r.ref);
    ResolveBegins(sha, db, raw, r, env);
    TagSteps(sha, db, job, env);
    if r.uri in db.resources && ValidName(r.ref) && (r.uri, r.ref) in db.tags {
      var id := db.tags[(r.uri, r.ref)];
      TagNamesSnapshot(sha, db, r.uri, r.ref);
      SnapshotStep(sha, db, id, UseTag, job, env);
      SnapshotDelivers(sha, db, id, UseTag, job, env);
    }
  }

  /******* Pins *******/

  lemma PinSteps(sha: Sha, db: Db, job: Job, env: Env)
    requires DbOk(sha, db) && !env.fail && job.ref == []
    requires job.uri in db.resources && db.resources[job.uri].policy.strategy == Pinned
    ensures Ended(sha, db, AtResourceGet(job), env) ==
            Ended(sha, db, AtSnapshotGet(job, db.resources[job.uri].policy.pinnedSnapshotId, UsePinned), env)
  {
    hide DbOk;
    hide Ended;
    EndedUnroll(sha, db, AtResourceGet(job), env);
    var resource := db.resources[job.uri];
    if resource.currentSnapshotId != [] {
      EndedUnroll(sha, db, AtCurrentGet(job, resource, env.now), env);
      CurrentIsStored(sha, db, job.uri);
    }
  }

  lemma CurrentIsStored(sha: Sha, db: Db, uri: Str)
    requires DbOk(sha, db) && uri in db.resources && db.resources[uri].currentSnapshotId != []
    ensures db.resources[uri].currentSnapshotId in db.snapshots
    ensures db.snapshots[db.resources[uri].currentSnapshotId].resourceUri == uri
  {
  }

  // A pinned resource always delivers its pin, or fails because there is no such snapshot.
  lemma PinnedResolve(sha: Sha, db: Db, raw: Str, r: Reference, env: Env)
    requires DbOk(sha, db) && !env.fail && FreshMaterialization(db, env)
    requires SplitRef(raw) == Some(r) && r.ref == []
    requires r.uri in db.resources && db.resources[r.uri].policy.strategy == Pinned
    ensures DeliversOrFails(
              sha, db, Call(sha, db, Resolve(raw), env), db.resources[r.uri].policy.pinnedSnapshotId, UsePinned)
  {
    hide DbOk;
    hide Ended;
    hide SplitRef;
    hide Delivers;
    var job := Job(JustResolve, r.uri, r.ref);
    var id := db.resources[r.uri].policy.pinnedSnapshotId;
    ResolveBegins(sha, db, raw, r, env);
    PinSteps(sha, db, job, env);
    SnapshotStep(sha, db, id, UsePinned, job, env);
    if id in db.snapshots {
      SnapshotDelivers(sha, db, id, UsePinned, job, env);
    }
  }

  // Two resolves of one tag deliver the same snapshot and bytes as long as the tag
  // is not moved, however much else happens in between.
  lemma TagIsStable(sha: Sha, actions: seq<Action>, after: seq<Action>, raw: Str, r: Reference, env: Env, later: Env)
    requires SplitRef(raw) == Some(r) && r.ref != [] && ValidName(r.ref) && !env.fail && !later.fail
    requires var s := Exec(sha, INITIAL, actions).db;
             && r.uri in s.resources && (r.uri, r.ref) in s.tags && FreshMaterialization(s, env)
    requires var s, t := Exec(sha, INITIAL, actions).db, Exec(sha, Exec(sha, INITIAL, actions), after).db;
             && (r.uri, r.ref) in t.tags && t.tags[(r.uri, r.ref)] == s.tags[(r.uri, r.ref)]
             && FreshMaterialization(t, later)
    ensures var s, t := Exec(sha, INITIAL, actions).db, Exec(sha, Exec(sha, INITIAL, actions), after).db;
            var a, b := Call(sha, s, Resolve(raw), env).1, Call(sha, t, Resolve(raw), later).1;
            && a.Ok? && a.value.GotResolve? && b.Ok? && b.value.GotResolve?
            && a.value.resolved.snapshot == b.value.resolved.snapshot
            && a.value.resolved.content == b.value.resolved.content
  {
    hide DbOk;
    hide SplitRef;
    hide ValidName;
    hide Exec;
    hide Call;
    var s := Exec(sha, INITIAL, actions);
    Reachable(sha, actions);
    ExecKeeps(sha, s, after);
    var t := Exec(sha, s, after);
    TaggedResolve(sha, s.db, raw, r, env);
    TaggedResolve(sha, t.db, raw, r, later);
  }

  /******* Setting and removing tags *******/

  // Setting a tag succeeds exactly when its name is well formed and the snapshot was
  // observed for that very resource; it then changes that tag and nothing else.
  lemma SetTagEffect(sha: Sha, db: Db, uri: Str, name: Str, id: Str, env: Env)
    requires !env.fail
    ensures Call(sha, db, SetTag(uri, name, id), env) ==
            if !ValidName(name) then (db, Err(InvalidTagName))
            else if id !in db.snapshots then (db, Err(SnapshotNotFound))
            else if db.snapshots[id].resourceUri != uri then (db, Err(TagSnapshotMismatch))
            else (db.(tags := db.tags[(uri, name) := id]), Ok(Done))
  {
    hide Ended;
    hide ValidName;
    if ValidName(name) {
      var c, d := AtTagOwner(uri, name, id), AtTagUpsert(uri, name, id);
      BeginsAt(sha, db, SetTag(uri, name, id), c, env);
      EndedUnroll(sha, db, c, env);
      EndedUnroll(sha, db, d, env);
      if id !in db.snapshots {
        EndedFinished(sha, db, Err(SnapshotNotFound), env);
      } else if db.snapshots[id].resourceUri != uri {
        EndedFinished(sha, db, Err(TagSnapshotMismatch), env);
      } else {
        EndedFinished(sha, UpsertTag(db, uri, name, id), Ok(Done), env);
      }
    }
  }

  lemma RemoveTagEffect(sha: Sha, db: Db, uri: Str, name: Str, env: Env)
    requires !env.fail
    ensures Call(sha, db, RemoveTag(uri, name), env) ==
            if (uri, name) in db.tags then (db.(tags := db.tags - {(uri, name)}), Ok(Done)) else (db, Err(TagNotFound))
  {
    hide Ended;
    var c := AtTagDelete(uri, name);
    BeginsAt(sha, db, RemoveTag(uri, name), c, env);
    EndedUnroll(sha, db, c, env);
    if (uri, name) in db.tags {
      EndedFinished(sha, DeleteTag(db, uri, name).value, Ok(Done), env);
    } else {
      EndedFinished(sha, db, Err(TagNotFound), env);
    }
  }

  lemma BeginsAt(sha: Sha, db: Db, op: Operation, c: Client, env: Env)
    requires Begin(op) == c
    ensures Call(sha, db, op, env) == Ended(sha, db, c, env)
  {
  }

  // MAIN RESULT. A snapshot tagged under a name is what "uri@name" then delivers;
  // once the tag is removed, "uri@name" is refused.
  lemma TagRoundTrip(sha: Sha, db: Db, uri: Str, name: Str, id: Str, env: Env)
    requires DbOk(sha, db) && !env.fail && FreshMaterialization(db, env) && ParseURI(uri).Some?
    requires Call(sha, db, SetTag(uri, name, id), env).1.Ok?
    ensures var tagged := Call(sha, db, SetTag(uri, name, id), env).0;
            && id in db.snapshots
            && Delivers(sha, tagged, Call(sha, tagged, Resolve(uri + [AT] + name), env), db.snapshots[id], UseTag)
            && var removed := Call(sha, tagged, RemoveTag(uri, name), env);
               && removed.1 == Ok(Done)
               && Call(sha, removed.0, Resolve(uri + [AT] + name), env) == (removed.0, Err(TagNotFound))
  {
    hide DbOk;
    hide Call;
    hide Delivers;
    SetTagEffect(sha, db, uri, name, id, env);
    var tagged := Call(sha, db, SetTag(uri, name, id), env).0;
    RemoveTagEffect(sha, tagged, uri, name, env);
    var removed := Call(sha, tagged, RemoveTag(uri, name), env).0;
    OnlyTags(sha, db, tagged, removed, uri, name, id);
    ReferenceRoundTrip(uri, name);
    TaggedResolve(sha, tagged, uri + [AT] + name, Reference(uri, name), env);
    TaggedResolve(sha, removed, uri + [AT] + name, Reference(uri, name), env);
  }

  lemma OnlyTags(sha: Sha, db: Db, tagged: Db, removed: Db, uri: Str, name: Str, id: Str)
    requires DbOk(sha, db) && id in db.snapshots && db.snapshots[id].resourceUri == uri
    requires tagged == db.(tags := db.tags[(uri, name) := id])
    requires removed == tagged.(tags := tagged.tags - {(uri, name)})
    ensures DbOk(sha, tagged) && DbOk(sha, removed) && uri in db.resources
  {
    hide BlobsOk;
    hide SnapshotsOk;
    hide MaterializationsOk;
    hide PointersOk;
    hide MountsOk;
    hide ManifestsOk;
    OwnerIsRegistered(db.snapshots, db.blobs, db.resources, id);
    TagPointers(db.tags, tagged.tags, removed.tags, db.resources, db.snapshots, (uri, name), id);
  }

  lemma OwnerIsRegistered(
    snapshots: map<Str, Snapshot>, blobs: map<Str, Bytes>, resources: map<Str, Resource>, id: Str)
    requires SnapshotsOk(snapshots, blobs, resources) && id in snapshots
    ensures snapshots[id].resourceUri in resources
  {
  }

  lemma TagPointers(
    tags: map<(Str, Str), Str>, tagged: map<(Str, Str), Str>, removed: map<(Str, Str), Str>,
    resources: map<Str, Resource>, snapshots: map<Str, Snapshot>, key: (Str, Str), id: Str)
    requires PointersOk(tags, resources, snapshots) && id in snapshots && snapshots[id].resourceUri == key.0
    requires tagged == tags[key := id] && removed == tagged - {key}
    ensures PointersOk(tagged, resources, snapshots) && PointersOk(removed, resources, snapshots)
  {
  }
}
