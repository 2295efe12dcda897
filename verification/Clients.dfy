/**
  What a caller of the resolver (internal/resolver/resolver.go), the run builder
  (internal/run/run.go) and the tag store does, one store call at a time.

  A Client is a call in progress: its program point and its local variables.
  Step performs its next store call. Exec interleaves any number of clients in
  any order; a client that is never scheduled again has stopped where it was.
 */
module Clients {
  import opened ByteStrings
  import opened References
  import opened Database

  datatype Operation =
    | Register(uri: Str, policy: Policy)
    | Resolve(raw: Str)
    | Start(runId: Str)
    | Mount(runId: Str, raw: Str)
    | Commit(runId: Str)
    | SetTag(uri: Str, name: Str, snapshotId: Str)
    | RemoveTag(uri: Str, name: Str)

  // What a resolve is for: Resolve itself, or a mount into a run.
  datatype Purpose = JustResolve | IntoRun(runId: Str)

  datatype Job = Job(purpose: Purpose, uri: Str, ref: Str)

  datatype Resolved = Resolved(
    snapshot: Snapshot, materialization: Materialization, content: Bytes, decision: Decision)

  datatype Outcome =
    | Done
    | GotResolve(resolved: Resolved)
    | GotMount(runId: Str, entry: Entry, resolved: Resolved)
    | GotManifest(manifest: Manifest)

  datatype Client =
    | AtResourceCreate(uri: Str, policy: Policy)
    // ResolveRef
    | AtResourceGet(job: Job)
    | AtTagGet(job: Job)
    | AtCurrentGet(job: Job, resource: Resource, now: int)
    | AtSnapshotGet(job: Job, id: Str, decision: Decision)
    | AtContentGet(job: Job, snap: Snapshot, decision: Decision)
    | AtFetch(job: Job, now: int)
    | AtFetchedPut(job: Job, now: int, fetched: Fetched)
    | AtSnapshotCreate(job: Job, now: int, fetched: Fetched, hash: Str)
    | AtCurrentSet(job: Job, snap: Snapshot, content: Bytes)
    | AtMaterializationFind(job: Job, snap: Snapshot, content: Bytes, decision: Decision)
    | AtMaterializationPut(job: Job, snap: Snapshot, content: Bytes, decision: Decision)
    | AtMaterializationCreate(job: Job, snap: Snapshot, content: Bytes, decision: Decision, hash: Str)
    // Builder.Mount around it
    | AtMountRunGet(runId: Str, job: Job)
    | AtMountList(runId: Str, job: Job, resolved: Resolved)
    | AtMountAppend(runId: Str, entry: Entry, resolved: Resolved)
    // Builder.Start, Builder.Commit
    | AtRunStart(runId: Str)
    | AtCommitRunGet(runId: Str)
    | AtCommitList(runId: Str)
    | AtManifestCreate(runId: Str, entries: seq<Entry>)
    | AtMarkCommitted(runId: Str, manifest: Manifest)
    // TagStore.Set, TagStore.Delete
    | AtTagOwner(uri: Str, name: Str, id: Str)
    | AtTagUpsert(uri: Str, name: Str, id: Str)
    | AtTagDelete(uri: Str, name: Str)
    | Finished(result: Result<Outcome>)

  // What the world supplies to one step. A failed step has no effect and ends the call.
  datatype Env = Env(
    fail: bool, now: int, fetch: Option<Fetched>, snapshotUlid: Str, materializationUlid: Str, manifestUlid: Str)

  /******* Starting a call *******/

  function Begin(op: Operation): Client {
    match op
    case Register(uri, policy) => AtResourceCreate(uri, policy)
    case Resolve(raw) =>
      (match SplitRef(raw)
       case Some(r) => AtResourceGet(Job(JustResolve, r.uri, r.ref))
       case None => Finished(Err(InvalidReference)))
    case Start(runId) => AtRunStart(runId)
    case Mount(runId, raw) =>
      (match SplitRef(raw)
       case Some(r) => AtMountRunGet(runId, Job(IntoRun(runId), r.uri, r.ref))
       case None => Finished(Err(InvalidReference)))
    case Commit(runId) => AtCommitRunGet(runId)
    case SetTag(uri, name, id) =>
      if ValidName(name) then AtTagOwner(uri, name, id) else Finished(Err(InvalidTagName))
    case RemoveTag(uri, name) => AtTagDelete(uri, name)
  }

  /******* Control flow between store calls *******/

  function AfterPolicy(job: Job, policy: Policy, current: Option<Snapshot>, now: int): (c: Client)
    ensures 0 < Remaining(c) < 18
  {
    match Evaluate(policy, current.Some?, if current.Some? then current.value.observedAt else 0, now)
    case UsePinned => AtSnapshotGet(job, policy.pinnedSnapshotId, UsePinned)
    case UseCurrent => if current.Some? then AtContentGet(job, current.value, UseCurrent) else AtFetch(job, now)
    case _ => AtFetch(job, now)
  }

  function AfterResourceGet(job: Job, resource: Resource, now: int): (c: Client)
    ensures Remaining(c) < 19
  {
    if job.ref != [] then
      if ValidName(job.ref) then AtTagGet(job) else Finished(Err(InvalidTagName))
    else if resource.currentSnapshotId != [] then AtCurrentGet(job, resource, now)
    else AfterPolicy(job, resource.policy, None, now)
  }

  function AfterResolve(job: Job, r: Resolved): (c: Client)
    ensures Remaining(c) < 9
  {
    match job.purpose
    case JustResolve => Finished(Ok(GotResolve(r)))
    case IntoRun(runId) => AtMountList(runId, job, r)
  }

  function SnapshotOf(job: Job, now: int, fetched: Fetched, hash: Str, env: Env): Snapshot {
    Snapshot(NewId(SNAP, env.snapshotUlid), job.uri, hash, now, |fetched.content|, fetched.details)
  }

  function MaterializationOf(snap: Snapshot, hash: Str, env: Env): Materialization {
    Materialization(NewId(MAT, env.materializationUlid), snap.snapshotId, hash)
  }

  function EntryOf(job: Job, position: int, r: Resolved): Entry {
    Entry(position, job.uri, job.ref, r.snapshot.snapshotId,
          r.materialization.materializationId, r.materialization.contentHash)
  }

  // How many store calls may still follow, so that every call ends.
  function Remaining(c: Client): nat {
    match c
    case AtMountRunGet(_, _) => 20
    case AtResourceGet(_) => 19
    case AtTagGet(_) => 18
    case AtCurrentGet(_, _, _) => 18
    case AtSnapshotGet(_, _, _) => 17
    case AtContentGet(_, _, _) => 16
    case AtFetch(_, _) => 15
    case AtFetchedPut(_, _, _) => 14
    case AtSnapshotCreate(_, _, _, _) => 13
    case AtCurrentSet(_, _, _) => 12
    case AtMaterializationFind(_, _, _, _) => 11
    case AtMaterializationPut(_, _, _, _) => 10
    case AtMaterializationCreate(_, _, _, _, _) => 9
    case AtMountList(_, _, _) => 8
    case AtMountAppend(_, _, _) => 7
    case AtCommitRunGet(_) => 6
    case AtCommitList(_) => 5
    case AtManifestCreate(_, _) => 4
    case AtMarkCommitted(_, _) => 3
    case AtTagOwner(_, _, _) => 2
    case Finished(_) => 0
    case _ => 1
  }

  /******* One store call *******/

  function Fail(db: Db, e: Error): (Db, Client) { (db, Finished(Err(e))) }

  function Step(sha: Sha, db: Db, c: Client, env: Env): (r: (Db, Client))
    ensures c.Finished? || Remaining(r.1) < Remaining(c)
  {
    if c.Finished? then (db, c)
    else if env.fail then Fail(db, Unavailable)
    else if Remaining(c) > 8 && !c.AtMountRunGet? then ResolveStep(sha, db, c, env)
    else RunStep(db, c, env)
  }

  // The store calls of ResolveRef.
  function ResolveStep(sha: Sha, db: Db, c: Client, env: Env): (r: (Db, Client))
    requires 8 < Remaining(c) < 20
    ensures Remaining(r.1) < Remaining(c)
  {
    if Remaining(c) > 14 then LookupStep(db, c, env) else RecordStep(sha, db, c, env)
  }

  // Up to the bytes in hand.
  function LookupStep(db: Db, c: Client, env: Env): (r: (Db, Client))
    requires 14 < Remaining(c) < 20
    ensures Remaining(r.1) < Remaining(c)
  {
    match c
    case AtResourceGet(job) =>
      if job.uri !in db.resources then Fail(db, ResourceNotFound)
      else (db, AfterResourceGet(job, db.resources[job.uri], env.now))
    case AtTagGet(job) =>
      if (job.uri, job.ref) !in db.tags then Fail(db, TagNotFound)
      else (db, AtSnapshotGet(job, db.tags[(job.uri, job.ref)], UseTag))
    case AtCurrentGet(job, resource, now) =>
      (match GetSnapshot(db, resource.currentSnapshotId)
       case Ok(snap) => (db, AfterPolicy(job, resource.policy, Some(snap), now))
       case Err(e) => Fail(db, e))
    case AtSnapshotGet(job, id, decision) =>
      (match GetSnapshot(db, id)
       case Ok(snap) => (db, AtContentGet(job, snap, decision))
       case Err(e) => Fail(db, e))
    case AtContentGet(job, snap, decision) =>
      (match GetBlob(db, snap.contentHash)
       case Ok(content) => (db, AtMaterializationFind(job, snap, content, decision))
       case Err(e) => Fail(db, e))
    case AtFetch(job, now) =>
      (match env.fetch
       case Some(fetched) => (db, AtFetchedPut(job, now, fetched))
       case None => Fail(db, Unavailable))
  }

  // Storing them, and the materialization.
  function RecordStep(sha: Sha, db: Db, c: Client, env: Env): (r: (Db, Client))
    requires 8 < Remaining(c) <= 14
    ensures Remaining(r.1) < Remaining(c)
  {
    match c
    case AtFetchedPut(job, now, fetched) =>
      (PutBlob(sha, db, fetched.content), AtSnapshotCreate(job, now, fetched, ContentHash(sha, fetched.content)))
    case AtSnapshotCreate(job, now, fetched, hash) =>
      var snap := SnapshotOf(job, now, fetched, hash, env);
      (match CreateSnapshot(db, snap)
       case Ok(db') => (db', AtCurrentSet(job, snap, fetched.content))
       case Err(e) => Fail(db, e))
    case AtCurrentSet(job, snap, content) =>
      (match SetCurrent(db, job.uri, snap.snapshotId)
       case Ok(db') => (db', AtMaterializationFind(job, snap, content, Fetch))
       case Err(e) => Fail(db, e))
    case AtMaterializationFind(job, snap, content, decision) =>
      (match FindBySnapshot(db, snap.snapshotId)
       case Some(mat) => (db, AfterResolve(job, Resolved(snap, mat, content, decision)))
       case None => (db, AtMaterializationPut(job, snap, content, decision)))
    case AtMaterializationPut(job, snap, content, decision) =>
      (PutBlob(sha, db, content), AtMaterializationCreate(job, snap, content, decision, ContentHash(sha, content)))
    case AtMaterializationCreate(job, snap, content, decision, hash) =>
      var mat := MaterializationOf(snap, hash, env);
      (match CreateMaterialization(db, mat)
       case Ok(db') => (db', AfterResolve(job, Resolved(snap, mat, content, decision)))
       case Err(e) => Fail(db, e))
  }

  function RunStep(db: Db, c: Client, env: Env): (r: (Db, Client))
    requires 0 < Remaining(c) <= 8 || Remaining(c) == 20
    ensures Remaining(r.1) < Remaining(c)
  {
    if Remaining(c) < 3 then RegistryStep(db, c) else BuilderStep(db, c, env)
  }

  // The store calls of mounts, around the resolve, and of commits.
  function BuilderStep(db: Db, c: Client, env: Env): (r: (Db, Client))
    requires 3 <= Remaining(c) <= 8 || Remaining(c) == 20
    ensures Remaining(r.1) < Remaining(c)
  {
    match c
    case AtMountRunGet(runId, job) =>
      if runId !in db.runs then Fail(db, RunNotFound)
      else if db.runs[runId].committed then Fail(db, AlreadyCommitted(db.runs[runId].manifestId))
      else (db, AtResourceGet(job))
    case AtMountList(runId, job, resolved) =>
      (db, AtMountAppend(runId, EntryOf(job, |ListMounts(db, runId)|, resolved), resolved))
    case AtMountAppend(runId, entry, resolved) =>
      (match AppendMount(db, runId, entry)
       case Ok(db') => (db', Finished(Ok(GotMount(runId, entry, resolved))))
       case Err(e) => Fail(db, e))
    case AtCommitRunGet(runId) =>
      if runId !in db.runs then Fail(db, RunNotFound)
      else if db.runs[runId].committed then Fail(db, AlreadyCommitted(db.runs[runId].manifestId))
      else (db, AtCommitList(runId))
    case AtCommitList(runId) => (db, AtManifestCreate(runId, ListMounts(db, runId)))
    case AtManifestCreate(runId, entries) =>
      var m := Manifest(NewId(MANIFEST, env.manifestUlid), runId, env.now, entries);
      (match CreateManifest(db, m)
       case Ok(db') => (db', AtMarkCommitted(runId, m))
       case Err(e) => Fail(db, e))
    case AtMarkCommitted(runId, m) =>
      (MarkCommitted(db, runId, m.manifestId), Finished(Ok(GotManifest(m))))
  }

  // The store calls that register resources, start runs, and set or delete tags.
  function RegistryStep(db: Db, c: Client): (r: (Db, Client))
    requires 0 < Remaining(c) < 3
    ensures Remaining(r.1) < Remaining(c)
  {
    match c
    case AtResourceCreate(uri, policy) =>
      (match CreateResource(db, uri, policy)
       case Ok(db') => (db', Finished(Ok(Done)))
       case Err(e) => Fail(db, e))
    case AtRunStart(runId) =>
      (match StartRun(db, runId)
       case Ok(db') => (db', Finished(Ok(Done)))
       case Err(e) => Fail(db, e))
    case AtTagOwner(uri, name, id) =>
      (match GetSnapshot(db, id)
       case Ok(snap) =>
         if snap.resourceUri == uri then (db, AtTagUpsert(uri, name, id)) else Fail(db, TagSnapshotMismatch)
       case Err(e) => Fail(db, e))
    case AtTagUpsert(uri, name, id) => (UpsertTag(db, uri, name, id), Finished(Ok(Done)))
    case AtTagDelete(uri, name) =>
      (match DeleteTag(db, uri, name)
       case Ok(db') => (db', Finished(Ok(Done)))
       case Err(e) => Fail(db, e))
  }

  /******* Interleaved execution *******/

  datatype System = System(db: Db, clients: map<nat, Client>)

  // A new call arrives, or some call performs its next store call.
  datatype Action = Arrive(id: nat, op: Operation) | Advance(id: nat, env: Env)

  const INITIAL: System := System(EMPTY, map[])

  function Act(sha: Sha, s: System, a: Action): System {
    match a
    case Arrive(id, op) => if id in s.clients then s else s.(clients := s.clients[id := Begin(op)])
    case Advance(id, env) =>
      if id !in s.clients then s
      else
        var (db, c) := Step(sha, s.db, s.clients[id], env);
        System(db, s.clients[id := c])
  }

  function Exec(sha: Sha, s: System, actions: seq<Action>): System
    decreases |actions|
  {
    if actions == [] then s else Exec(sha, Act(sha, s, actions[0]), actions[1..])
  }

  /******* Whole calls *******/

  // A call run to its end with nothing in between.
  function RunToEnd(sha: Sha, db: Db, c: Client, env: Env): (r: (Db, Client))
    ensures r.1.Finished?
    decreases Remaining(c)
  {
    if c.Finished? then (db, c)
    else
      var (db', c') := Step(sha, db, c, env);
      RunToEnd(sha, db', c', env)
  }

  function Call(sha: Sha, db: Db, op: Operation, env: Env): (Db, Result<Outcome>) {
    var (db', c) := RunToEnd(sha, db, Begin(op), env);
    (db', c.result)
  }

  // Whole calls one after another.
  function CallAll(sha: Sha, db: Db, calls: seq<(Operation, Env)>): Db
    decreases |calls|
  {
    if calls == [] then db else CallAll(sha, Call(sha, db, calls[0].0, calls[0].1).0, calls[1..])
  }
}
