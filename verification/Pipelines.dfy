/**
  The resolver (internal/resolver/resolver.go) and the run builder
  (internal/run/run.go) in the form the program has them: objects that hold a
  store and call it, method by method. Each method is tied to the step-by-step
  call of module Clients: running that call to its end from the tables the method
  found gives the tables it left and the result it returned. What the calls
  guarantee is proved about those functions elsewhere.
 */
module Pipelines {
  import opened ByteStrings
  import opened References
  import opened Database
  import opened Clients
  import opened Invariants
  import opened Stores
  import opened WholeRun

  // Where a call stands once the resolve inside it has returned.
  function Resume(job: Job, r: Result<Resolved>): Client {
    match r
    case Ok(resolved) => AfterResolve(job, resolved)
    case Err(e) => Finished(Err(e))
  }

  lemma SplitIsParsed(raw: Str)
    requires SplitRef(raw).Some?
    ensures ParseURI(SplitRef(raw).value.uri).Some?
  {
    ReferenceRebuilt(raw);
  }

  class Resolver {
    const sha: Sha
    const store: Store

    constructor (sha: Sha, store: Store)
      ensures this.sha == sha && this.store == store
    {
      this.sha := sha;
      this.store := store;
    }

    // ResolveRef. The caller's purpose decides only what happens afterwards.
    method ResolveRef(uri: Str, ref: Str, env: Env, ghost purpose: Purpose) returns (r: Result<Resolved>)
      requires !env.fail
      modifies store
      ensures ParseURI(uri).None? ==> r == Err(InvalidReference) && store.State() == old(store.State())
      ensures ParseURI(uri).Some? ==>
                var job := Job(purpose, uri, ref);
                RunToEnd(sha, old(store.State()), AtResourceGet(job), env) ==
                RunToEnd(sha, store.State(), Resume(job, r), env)
    {
      if ParseURI(uri).None? {
        return Err(InvalidReference);
      }
      ghost var job := Job(purpose, uri, ref);
      Unroll(sha, store.State(), AtResourceGet(job), env);
      if uri !in store.resources {
        return Err(ResourceNotFound);
      }
      var resource := store.resources[uri];
      if ref != [] {
        r := ResolveTagged(uri, ref, env, purpose);
        return;
      }
      var current: Option<Snapshot> := None;
      if resource.currentSnapshotId != [] {
        Unroll(sha, store.State(), AtCurrentGet(job, resource, env.now), env);
        if resource.currentSnapshotId !in store.snapshots {
          return Err(SnapshotNotFound);
        }
        current := Some(store.snapshots[resource.currentSnapshotId]);
      }
      r := ByPolicy(uri, resource.policy, current, env, job);
    }

    // The switch on the policy's decision.
    method ByPolicy(uri: Str, policy: Policy, current: Option<Snapshot>, env: Env, ghost job: Job)
      returns (r: Result<Resolved>)
      requires !env.fail && job.uri == uri
      modifies store
      ensures RunToEnd(sha, old(store.State()), AfterPolicy(job, policy, current, env.now), env) ==
              RunToEnd(sha, store.State(), Resume(job, r), env)
    {
      var observedAt := if current.Some? then current.value.observedAt else 0;
      var decision := Evaluate(policy, current.Some?, observedAt, env.now);
      if decision == UsePinned {
        r := Load(policy.pinnedSnapshotId, UsePinned, env, job);
      } else if decision == UseCurrent {
        assert current.Some?;
        r := LoadContent(current.value, UseCurrent, env, job);
      } else {
        r := FetchAndRecord(uri, env, job);
      }
    }

    method ResolveTagged(uri: Str, ref: Str, env: Env, ghost purpose: Purpose) returns (r: Result<Resolved>)
      requires !env.fail && ref != []
      modifies store
      ensures var job := Job(purpose, uri, ref);
              var first := if ValidName(ref) then AtTagGet(job) else Finished(Err(InvalidTagName));
              RunToEnd(sha, old(store.State()), first, env) ==
              RunToEnd(sha, store.State(), Resume(job, r), env)
    {
      if !ValidName(ref) {
        return Err(InvalidTagName);
      }
      ghost var job := Job(purpose, uri, ref);
      Unroll(sha, store.State(), AtTagGet(job), env);
      if (uri, ref) !in store.tags {
        return Err(TagNotFound);
      }
      r := Load(store.tags[(uri, ref)], UseTag, env, job);
    }

    // A stored snapshot by id, and its bytes.
    method Load(id: Str, decision: Decision, env: Env, ghost job: Job) returns (r: Result<Resolved>)
      requires !env.fail
      modifies store
      ensures RunToEnd(sha, old(store.State()), AtSnapshotGet(job, id, decision), env) ==
              RunToEnd(sha, store.State(), Resume(job, r), env)
    {
      Unroll(sha, store.State(), AtSnapshotGet(job, id, decision), env);
      if id !in store.snapshots {
        return Err(SnapshotNotFound);
      }
      r := LoadContent(store.snapshots[id], decision, env, job);
    }

    method LoadContent(snap: Snapshot, decision: Decision, env: Env, ghost job: Job) returns (r: Result<Resolved>)
      requires !env.fail
      modifies store
      ensures RunToEnd(sha, old(store.State()), AtContentGet(job, snap, decision), env) ==
              RunToEnd(sha, store.State(), Resume(job, r), env)
    {
      Unroll(sha, store.State(), AtContentGet(job, snap, decision), env);
      var content := GetBlob(store.State(), snap.contentHash);
      if content.Err? {
        return Err(content.error);
      }
      r := Materialize(snap, content.value, decision, env, job);
    }

    // Fetch, store the bytes, record the observation, move the current pointer.
    method FetchAndRecord(uri: Str, env: Env, ghost job: Job) returns (r: Result<Resolved>)
      requires !env.fail && job.uri == uri
      modifies store
      ensures RunToEnd(sha, old(store.State()), AtFetch(job, env.now), env) ==
              RunToEnd(sha, store.State(), Resume(job, r), env)
    {
      Unroll(sha, store.State(), AtFetch(job, env.now), env);
      if env.fetch.None? {
        return Err(Unavailable);
      }
      var fetched := env.fetch.value;
      Unroll(sha, store.State(), AtFetchedPut(job, env.now, fetched), env);
      var hash := store.PutBlob(sha, fetched.content);
      var snap := Snapshot(
        NewId(SNAP, env.snapshotUlid), uri, hash, env.now, |fetched.content|, fetched.details);
      r := Record(uri, snap, fetched, hash, env, job);
    }

    method Record(uri: Str, snap: Snapshot, fetched: Fetched, hash: Str, env: Env, ghost job: Job)
      returns (r: Result<Resolved>)
      requires !env.fail && job.uri == uri && snap == SnapshotOf(job, env.now, fetched, hash, env)
      modifies store
      ensures RunToEnd(sha, old(store.State()), AtSnapshotCreate(job, env.now, fetched, hash), env) ==
              RunToEnd(sha, store.State(), Resume(job, r), env)
    {
      Unroll(sha, store.State(), AtSnapshotCreate(job, env.now, fetched, hash), env);
      var created := store.CreateSnapshot(snap);
      if created.Err? {
        return Err(created.error);
      }
      Unroll(sha, store.State(), AtCurrentSet(job, snap, fetched.content), env);
      var moved := store.UpdateCurrentSnapshot(uri, snap.snapshotId);
      if moved.Err? {
        return Err(moved.error);
      }
      r := Materialize(snap, fetched.content, Fetch, env, job);
    }

    // Get or create the materialization of a snapshot.
    method Materialize(snap: Snapshot, content: Bytes, decision: Decision, env: Env, ghost job: Job)
      returns (r: Result<Resolved>)
      requires !env.fail
      modifies store
      ensures RunToEnd(sha, old(store.State()), AtMaterializationFind(job, snap, content, decision), env) ==
              RunToEnd(sha, store.State(), Resume(job, r), env)
    {
      Unroll(sha, store.State(), AtMaterializationFind(job, snap, content, decision), env);
      var found := FindBySnapshot(store.State(), snap.snapshotId);
      if found.Some? {
        return Ok(Resolved(snap, found.value, content, decision));
      }
      r := CreateMaterialization(snap, content, decision, env, job);
    }

    method CreateMaterialization(snap: Snapshot, content: Bytes, decision: Decision, env: Env, ghost job: Job)
      returns (r: Result<Resolved>)
      requires !env.fail
      modifies store
      ensures RunToEnd(sha, old(store.State()), AtMaterializationPut(job, snap, content, decision), env) ==
              RunToEnd(sha, store.State(), Resume(job, r), env)
    {
      hide Extends;
      hide DbOk;
      hide RunToEnd;
      Unroll(sha, store.State(), AtMaterializationPut(job, snap, content, decision), env);
      var hash := store.PutBlob(sha, content);
      Unroll(sha, store.State(), AtMaterializationCreate(job, snap, content, decision, hash), env);
      var mat := Materialization(NewId(MAT, env.materializationUlid), snap.snapshotId, hash);
      var created := store.CreateMaterialization(mat);
      if created.Err? {
        return Err(created.error);
      }
      return Ok(Resolved(snap, mat, content, decision));
    }

    method Resolve(raw: Str, env: Env) returns (r: Result<Outcome>)
      requires !env.fail
      modifies store
      ensures Call(sha, old(store.State()), Operation.Resolve(raw), env) == (store.State(), r)
    {
      var split := SplitRef(raw);
      if split.None? {
        return Err(InvalidReference);
      }
      SplitIsParsed(raw);
      var resolved := ResolveRef(split.value.uri, split.value.ref, env, JustResolve);
      match resolved
      case Ok(v) => return Ok(GotResolve(v));
      case Err(e) => return Err(e);
    }
  }

  class Builder {
    const sha: Sha
    const store: Store
    const resolver: Resolver

    ghost predicate Valid() { resolver.store == store && resolver.sha == sha }

    constructor (sha: Sha, store: Store)
      ensures Valid() && this.sha == sha && this.store == store
    {
      this.sha := sha;
      this.store := store;
      this.resolver := new Resolver(sha, store);
    }

    method Start(runId: Str, env: Env) returns (r: Result<Outcome>)
      requires Valid() && !env.fail
      modifies store
      ensures Call(sha, old(store.State()), Operation.Start(runId), env) == (store.State(), r)
    {
      Unroll(sha, store.State(), AtRunStart(runId), env);
      r := store.StartRun(runId);
    }

    method Mount(runId: Str, raw: Str, env: Env) returns (r: Result<Outcome>)
      requires Valid() && !env.fail
      modifies store
      ensures Call(sha, old(store.State()), Operation.Mount(runId, raw), env) == (store.State(), r)
    {
      hide SplitRef;
      hide ParseURI;
      var split := SplitRef(raw);
      if split.None? {
        return Err(InvalidReference);
      }
      var uri, ref := split.value.uri, split.value.ref;
      ghost var job := Job(IntoRun(runId), uri, ref);
      Unroll(sha, store.State(), AtMountRunGet(runId, job), env);
      if runId !in store.runs {
        return Err(RunNotFound);
      }
      if store.runs[runId].committed {
        return Err(AlreadyCommitted(store.runs[runId].manifestId));
      }
      SplitIsParsed(raw);
      var resolved := resolver.ResolveRef(uri, ref, env, IntoRun(runId));
      if resolved.Err? {
        return Err(resolved.error);
      }
      r := Append(runId, uri, ref, resolved.value, env, job);
    }

    // The next position, and the row for it.
    method Append(runId: Str, uri: Str, ref: Str, resolved: Resolved, env: Env, ghost job: Job)
      returns (r: Result<Outcome>)
      requires Valid() && !env.fail && job.uri == uri && job.ref == ref
      modifies store
      ensures RunToEnd(sha, old(store.State()), AtMountList(runId, job, resolved), env) == (store.State(), Finished(r))
    {
      Unroll(sha, store.State(), AtMountList(runId, job, resolved), env);
      var mounts := ListMounts(store.State(), runId);
      var entry := Entry(
        |mounts|, uri, ref, resolved.snapshot.snapshotId,
        resolved.materialization.materializationId, resolved.materialization.contentHash);
      Unroll(sha, store.State(), AtMountAppend(runId, entry, resolved), env);
      var appended := store.AppendMount(runId, entry);
      if appended.Err? {
        return Err(appended.error);
      }
      return Ok(GotMount(runId, entry, resolved));
    }

    method Commit(runId: Str, env: Env) returns (r: Result<Outcome>)
      requires Valid() && !env.fail
      modifies store
      ensures Call(sha, old(store.State()), Operation.Commit(runId), env) == (store.State(), r)
    {
      Unroll(sha, store.State(), AtCommitRunGet(runId), env);
      if runId !in store.runs {
        return Err(RunNotFound);
      }
      if store.runs[runId].committed {
        return Err(AlreadyCommitted(store.runs[runId].manifestId));
      }
      Unroll(sha, store.State(), AtCommitList(runId), env);
      var mounts := ListMounts(store.State(), runId);
      var entries: seq<Entry> := [];
      for i := 0 to |mounts|
        invariant entries == mounts[..i]
      {
        var m := mounts[i];
        entries := entries + [
          Entry(m.position, m.uri, m.ref, m.snapshotId, m.materializationId, m.contentHash)];
      }
      assert entries == mounts;
      r := Persist(runId, entries, env);
    }

    // The manifest first, then the mark on the run.
    method Persist(runId: Str, entries: seq<Entry>, env: Env) returns (r: Result<Outcome>)
      requires Valid() && !env.fail
      modifies store
      ensures RunToEnd(sha, old(store.State()), AtManifestCreate(runId, entries), env) == (store.State(), Finished(r))
    {
      Unroll(sha, store.State(), AtManifestCreate(runId, entries), env);
      var man := Manifest(NewId(MANIFEST, env.manifestUlid), runId, env.now, entries);
      var created := store.CreateManifest(man);
      if created.Err? {
        return Err(created.error);
      }
      Unroll(sha, store.State(), AtMarkCommitted(runId, man), env);
      store.MarkCommitted(runId, man.manifestId);
      return Ok(GotManifest(man));
    }

    // Start, then every mount in order, then commit; the first error ends it.
    method Run(runId: Str, uris: seq<Str>, envs: seq<Env>) returns (r: Result<Outcome>)
      requires Valid() && |envs| == |uris| + 2 && AllUp(envs)
      modifies store
      ensures RunAll(sha, old(store.State()), runId, uris, envs) == (store.State(), r)
    {
      hide Call;
      r := Start(runId, envs[0]);
      if r.Err? {
        return;
      }
      ghost var started := store.State();
      var rest := envs[1..];
      for i := 0 to |uris|
        invariant MountsThenCommit(sha, store.State(), runId, uris[i..], rest[i..]) ==
                  MountsThenCommit(sha, started, runId, uris, rest)
      {
        assert uris[i..][1..] == uris[i + 1..] && rest[i..][1..] == rest[i + 1..];
        r := Mount(runId, uris[i], rest[i]);
        if r.Err? {
          return;
        }
      }
      r := Commit(runId, rest[|uris|]);
    }
  }
}
