/**
  Untagged resolves: exactly when the source is asked, and what is recorded and
  delivered then and otherwise.
 */
module Fetches {
  import opened ByteStrings
  import opened References
  import opened Database
  import opened Clients
  import opened Invariants
  import opened Interleaving
  import opened Lifecycle
  import opened PartialCommit
  import opened WholeRun
  import opened StoredReads
  import opened Freshness

  /******* Reaching the decision *******/

  // What the policy is evaluated on: the current snapshot, if there is one.
  function CurrentOf(db: Db, uri: Str): Option<Snapshot>
    requires uri in db.resources
  {
    var id := db.resources[uri].currentSnapshotId;
    if id != [] && id in db.snapshots then Some(db.snapshots[id]) else None
  }

  lemma ReachesPolicy(sha: Sha, db: Db, job: Job, env: Env)
    requires DbOk(sha, db) && !env.fail && job.ref == [] && job.uri in db.resources
    ensures Ended(sha, db, AtResourceGet(job), env) ==
            Ended(sha, db, AfterPolicy(job, db.resources[job.uri].policy, CurrentOf(db, job.uri), env.now), env)
  {
    hide DbOk;
    hide Ended;
    hide AfterPolicy;
    EndedUnroll(sha, db, AtResourceGet(job), env);
    var resource := db.resources[job.uri];
    if resource.currentSnapshotId != [] {
      CurrentIsStored(sha, db, job.uri);
      EndedUnroll(sha, db, AtCurrentGet(job, resource, env.now), env);
    }
  }

  lemma DueMeansFetch(sha: Sha, db: Db, job: Job, now: int)
    requires DbOk(sha, db) && job.uri in db.resources
    ensures var after := AfterPolicy(job, db.resources[job.uri].policy, CurrentOf(db, job.uri), now);
            if Due(db, job.uri, now) then after == AtFetch(job, now)
            else if db.resources[job.uri].policy.strategy == Pinned
            then after == AtSnapshotGet(job, db.resources[job.uri].policy.pinnedSnapshotId, UsePinned)
            else CurrentOf(db, job.uri).Some? && after == AtContentGet(job, CurrentOf(db, job.uri).value, UseCurrent)
  {
    if db.resources[job.uri].currentSnapshotId != [] {
      CurrentIsStored(sha, db, job.uri);
    }
  }

  // The source is asked unless the resource is pinned or allows a stale read of a
  // current snapshot that has no age limit or is within it.
  lemma DueIff(sha: Sha, db: Db, uri: Str, now: int)
    requires DbOk(sha, db) && uri in db.resources
    ensures var policy, current := db.resources[uri].policy, CurrentOf(db, uri);
            Due(db, uri, now) <==>
            && policy.strategy != Pinned
            && (policy.strategy == AllowStale ==>
                  current.None? || (policy.maxAge > 0 && now - current.value.observedAt > policy.maxAge))
  {
    if db.resources[uri].currentSnapshotId != [] {
      CurrentIsStored(sha, db, uri);
    }
  }

  /******* Reuse *******/

  // Not due and not pinned: the current snapshot of the resource and its bytes, whatever
  // the source holds by now.
  lemma ReuseResolve(sha: Sha, db: Db, raw: Str, r: Reference, env: Env)
    requires DbOk(sha, db) && !env.fail && FreshMaterialization(db, env)
    requires SplitRef(raw) == Some(r) && r.ref == [] && r.uri in db.resources
    requires db.resources[r.uri].policy.strategy != Pinned && !Due(db, r.uri, env.now)
    ensures var id := db.resources[r.uri].currentSnapshotId;
            && id in db.snapshots && db.snapshots[id].resourceUri == r.uri
            && Delivers(sha, db, Call(sha, db, Resolve(raw), env), db.snapshots[id], UseCurrent)
  {
    var job := Job(JustResolve, r.uri, r.ref);
    DueMeansFetch(sha, db, job, env.now);
    var id := db.resources[r.uri].currentSnapshotId;
    CurrentIsStored(sha, db, r.uri);
    hide DbOk;
    hide Ended;
    hide SplitRef;
    hide Delivers;
    hide Due;
    hide AfterPolicy;
    ResolveBegins(sha, db, raw, r, env);
    ReachesPolicy(sha, db, job, env);
    SnapshotDelivers(sha, db, id, UseCurrent, job, env);
  }

  /******* Fetch *******/

  // The tables after observing fetched at this time.
  function AfterFetch(sha: Sha, db: Db, uri: Str, snap: Snapshot, mat: Materialization, content: Bytes): Db
    requires uri in db.resources
  {
    db.(blobs := PutAt(db.blobs, HexEncode(sha(content)), content),
        snapshots := db.snapshots[snap.snapshotId := snap],
        resources := db.resources[uri := db.resources[uri].(currentSnapshotId := snap.snapshotId)],
        materializations := db.materializations[mat.materializationId := mat],
        bySnapshot := db.bySnapshot[snap.snapshotId := mat.materializationId])
  }

  lemma PutTwice(blobs: map<Str, Bytes>, key: Str, content: Bytes)
    ensures PutAt(PutAt(blobs, key, content), key, content) == PutAt(blobs, key, content)
  {
  }

  lemma FetchSteps(sha: Sha, db: Db, job: Job, env: Env)
    requires !env.fail
    ensures Ended(sha, db, AtFetch(job, env.now), env) ==
            match env.fetch
            case None => (db, Err(Unavailable))
            case Some(f) => Ended(sha, PutBlob(sha, db, f.content),
                                  AtSnapshotCreate(job, env.now, f, ContentHash(sha, f.content)), env)
  {
    hide Ended;
    hide PutBlob;
    hide ContentHash;
    EndedUnroll(sha, db, AtFetch(job, env.now), env);
    match env.fetch
    case None => EndedFinished(sha, db, Err(Unavailable), env);
    case Some(f) => EndedUnroll(sha, db, AtFetchedPut(job, env.now, f), env);
  }

  lemma RecordSteps(sha: Sha, db: Db, job: Job, f: Fetched, hash: Str, env: Env)
    requires !env.fail && job.uri in db.resources && NewId(SNAP, env.snapshotUlid) !in db.snapshots
    ensures var snap := SnapshotOf(job, env.now, f, hash, env);
            Ended(sha, db, AtSnapshotCreate(job, env.now, f, hash), env) ==
            Ended(sha,
              db.(snapshots := db.snapshots[snap.snapshotId := snap],
                  resources := db.resources[job.uri := db.resources[job.uri].(currentSnapshotId := snap.snapshotId)]),
              AtMaterializationFind(job, snap, f.content, Fetch), env)
  {
    hide Ended;
    var snap := SnapshotOf(job, env.now, f, hash, env);
    EndedUnroll(sha, db, AtSnapshotCreate(job, env.now, f, hash), env);
    var mid := CreateSnapshot(db, snap).value;
    EndedUnroll(sha, mid, AtCurrentSet(job, snap, f.content), env);
  }

  lemma IndexedSnapshotExists(sha: Sha, db: Db, id: Str)
    requires DbOk(sha, db) && id in db.bySnapshot
    ensures id in db.snapshots
  {
    assert db.materializations[db.bySnapshot[id]].snapshotId == id;
  }

  lemma NewSnapshotHasNoMaterialization(sha: Sha, db: Db, id: Str)
    requires DbOk(sha, db) && id !in db.snapshots
    ensures id !in db.bySnapshot
  {
    hide DbOk;
    if id in db.bySnapshot {
      IndexedSnapshotExists(sha, db, id);
    }
  }

  // MAIN RESULT. When the policy asks for a fetch and the source answers, the answer's
  // bytes are delivered, stored, recorded as an observation of the resource at this
  // time and made current; nothing else changes. When it does not answer, nothing does.
  lemma DueResolveFetches(sha: Sha, db: Db, raw: Str, r: Reference, env: Env)
    requires DbOk(sha, db) && !env.fail && FreshMaterialization(db, env)
    requires NewId(SNAP, env.snapshotUlid) !in db.snapshots
    requires SplitRef(raw) == Some(r) && r.ref == [] && Due(db, r.uri, env.now)
    ensures r.uri in db.resources
    ensures var call := Call(sha, db, Resolve(raw), env);
            match env.fetch
            case None => call == (db, Err(Unavailable))
            case Some(f) =>
              var hash := ContentHash(sha, f.content);
              var snap := Snapshot(NewId(SNAP, env.snapshotUlid), r.uri, hash, env.now, |f.content|, f.details);
              var mat := Materialization(NewId(MAT, env.materializationUlid), snap.snapshotId, hash);
              call == (AfterFetch(sha, db, r.uri, snap, mat, f.content),
                       Ok(GotResolve(Resolved(snap, mat, f.content, Fetch))))
  {
    var job := Job(JustResolve, r.uri, r.ref);
    DueMeansFetch(sha, db, job, env.now);
    NewSnapshotHasNoMaterialization(sha, db, NewId(SNAP, env.snapshotUlid));
    assert r.uri in db.resources;
    hide DbOk;
    hide Ended;
    hide SplitRef;
    hide Due;
    hide AfterPolicy;
    hide ContentHash;
    hide HexEncode;
    hide PutAt;
    ResolveBegins(sha, db, raw, r, env);
    ReachesPolicy(sha, db, job, env);
    FetchSteps(sha, db, job, env);
    if env.fetch.Some? {
      FetchedEnds(sha, db, job, env.fetch.value, env);
    }
  }

  lemma FetchedEnds(sha: Sha, db: Db, job: Job, f: Fetched, env: Env)
    requires !env.fail && job.uri in db.resources && job.purpose.JustResolve? && FreshMaterialization(db, env)
    requires NewId(SNAP, env.snapshotUlid) !in db.snapshots && NewId(SNAP, env.snapshotUlid) !in db.bySnapshot
    ensures var hash := ContentHash(sha, f.content);
            var snap := SnapshotOf(job, env.now, f, hash, env);
            var mat := MaterializationOf(snap, hash, env);
            Ended(sha, PutBlob(sha, db, f.content), AtSnapshotCreate(job, env.now, f, hash), env) ==
            (AfterFetch(sha, db, job.uri, snap, mat, f.content), Ok(GotResolve(Resolved(snap, mat, f.content, Fetch))))
  {
    hide Ended;
    hide ContentHash;
    hide HexEncode;
    hide PutAt;
    var hash := ContentHash(sha, f.content);
    var snap := SnapshotOf(job, env.now, f, hash, env);
    var put := PutBlob(sha, db, f.content);
    RecordSteps(sha, put, job, f, hash, env);
    var recorded := put.(
      snapshots := put.snapshots[snap.snapshotId := snap],
      resources := put.resources[job.uri := put.resources[job.uri].(currentSnapshotId := snap.snapshotId)]);
    FindStep(sha, recorded, snap, f.content, Fetch, job, env);
    PutTwice(db.blobs, HexEncode(sha(f.content)), f.content);
    assert PutBlob(sha, recorded, f.content) == recorded;
    CreatedMaterialization(sha, recorded, snap, f.content, Fetch, job, env);
  }

  /******* Whose snapshot is delivered *******/

  lemma UnknownResource(sha: Sha, db: Db, raw: Str, r: Reference, env: Env)
    requires !env.fail && SplitRef(raw) == Some(r) && r.uri !in db.resources
    ensures Call(sha, db, Resolve(raw), env) == (db, Err(ResourceNotFound))
  {
    hide Ended;
    hide SplitRef;
    ResolveBegins(sha, db, raw, r, env);
    EndedUnroll(sha, db, AtResourceGet(Job(JustResolve, r.uri, r.ref)), env);
    EndedFinished(sha, db, Err(ResourceNotFound), env);
  }

  // The resource is pinned to something that is not a snapshot of its own.
  predicate PinnedElsewhere(db: Db, uri: Str)
    requires uri in db.resources
  {
    var policy := db.resources[uri].policy;
    && policy.strategy == Pinned
    && policy.pinnedSnapshotId in db.snapshots && db.snapshots[policy.pinnedSnapshotId].resourceUri != uri
  }

  // MAIN RESULT. Nothing checks that a pin belongs to its resource. A resolve that
  // succeeds delivers a snapshot of the resource it was asked for unless the reference
  // carries no tag and the resource is pinned to a snapshot of another one.
  lemma DeliversItsResourceIff(sha: Sha, db: Db, raw: Str, r: Reference, env: Env)
    requires DbOk(sha, db) && !env.fail && FreshMaterialization(db, env)
    requires NewId(SNAP, env.snapshotUlid) !in db.snapshots && SplitRef(raw) == Some(r)
    requires Call(sha, db, Resolve(raw), env).1.Ok?
    ensures r.uri in db.resources
    ensures var outcome := Call(sha, db, Resolve(raw), env).1.value;
            && outcome.GotResolve?
            && (outcome.resolved.snapshot.resourceUri == r.uri <==> r.ref != [] || !PinnedElsewhere(db, r.uri))
  {
    hide DbOk;
    hide SplitRef;
    hide Call;
    hide ValidName;
    hide Due;
    hide AfterFetch;
    if r.uri !in db.resources {
      UnknownResource(sha, db, raw, r, env);
    } else if r.ref != [] {
      TaggedResolve(sha, db, raw, r, env);
    } else if Due(db, r.uri, env.now) {
      NotPinned(sha, db, r.uri, env.now);
      DueResolveFetches(sha, db, raw, r, env);
    } else if db.resources[r.uri].policy.strategy == Pinned {
      PinnedResolve(sha, db, raw, r, env);
    } else {
      ReuseResolve(sha, db, raw, r, env);
    }
  }

  lemma NotPinned(sha: Sha, db: Db, uri: Str, now: int)
    requires DbOk(sha, db) && Due(db, uri, now)
    ensures db.resources[uri].policy.strategy != Pinned
  {
    DueIff(sha, db, uri, now);
  }

  // A registration is refused exactly for a strategy that is none or a uri that is taken,
  // and otherwise adds a resource that was never observed.
  lemma RegisterEffect(sha: Sha, db: Db, uri: Str, policy: Policy, env: Env)
    requires !env.fail
    ensures Call(sha, db, Register(uri, policy), env) ==
            if policy.strategy == Unknown || uri in db.resources then (db, Err(Conflict))
            else (db.(resources := db.resources[uri := Resource(StoredPolicy(policy), [])]), Ok(Done))
  {
    hide Ended;
    hide StoredPolicy;
    var c := AtResourceCreate(uri, policy);
    BeginsAt(sha, db, Register(uri, policy), c, env);
    EndedUnroll(sha, db, c, env);
    var r := Step(sha, db, c, env);
    EndedFinished(sha, r.0, r.1.result, env);
  }

  lemma ThreeCalls(sha: Sha, db: Db, a: (Operation, Env), b: (Operation, Env), c: (Operation, Env))
    ensures CallAll(sha, db, [a, b, c]) ==
            Call(sha, Call(sha, Call(sha, db, a.0, a.1).0, b.0, b.1).0, c.0, c.1).0
  {
    hide Call;
    var second := Call(sha, db, a.0, a.1).0;
    var third := Call(sha, second, b.0, b.1).0;
    assert [a, b, c][1..] == [b, c] && [b, c][1..] == [c];
    assert CallAll(sha, db, [a, b, c]) == CallAll(sha, second, [b, c]);
    assert CallAll(sha, second, [b, c]) == CallAll(sha, third, [c]);
    assert CallAll(sha, third, [c]) == CallAll(sha, Call(sha, third, c.0, c.1).0, []);
  }

  lemma FirstBlob(sha: Sha, content: Bytes)
    ensures IsContentHash(ContentHash(sha, content)) && ContentHash(sha, content)[7..] == HexEncode(sha(content))
    ensures PutAt(map[], HexEncode(sha(content)), content) == map[HexEncode(sha(content)) := content]
  {
    ContentHashIsValid(sha, content);
  }

  lemma OtherId(prefix: Str, a: Str, b: Str)
    requires a != b
    ensures NewId(prefix, a) != NewId(prefix, b)
  {
    assert NewId(prefix, a)[|prefix| + 1..] == a && NewId(prefix, b)[|prefix| + 1..] == b;
  }

  // A resource registered in the empty store, then resolved.
  lemma FirstObservation(sha: Sha, uri: Str, fetched: Fetched, env: Env)
    requires !env.fail && SplitRef(uri) == Some(Reference(uri, [])) && env.fetch == Some(fetched)
    ensures var id := NewId(SNAP, env.snapshotUlid);
            var registered := Call(sha, EMPTY, Register(uri, Policy(RequireFresh, 0, [])), env).0;
            var db := Call(sha, registered, Resolve(uri), env).0;
            && DbOk(sha, db) && Settled(db) && db.resources.Keys == {uri} && db.runs == map[] && id in db.snapshots
            && db.snapshots[id].resourceUri == uri && Stored(db.blobs, db.snapshots[id].contentHash)
            && StoredContent(db, db.snapshots[id]) == fetched.content
            && db.materializations.Keys == {NewId(MAT, env.materializationUlid)}
  {
    hide DbOk;
    hide Settled;
    hide Call;
    hide SplitRef;
    hide Due;
    hide AfterFetch;
    hide StoredPolicy;
    var policy := Policy(RequireFresh, 0, []);
    var registered := Call(sha, EMPTY, Register(uri, policy), env).0;
    EmptyIsSettled(sha);
    CallKeeps(sha, EMPTY, Register(uri, policy), env);
    CallKeeps(sha, registered, Resolve(uri), env);
    RegisterEffect(sha, EMPTY, uri, policy, env);
    assert EMPTY.resources[uri := Resource(StoredPolicy(policy), [])] == map[uri := Resource(StoredPolicy(policy), [])];
    NewResourceIsDue(registered, uri, policy, env.now);
    DueResolveFetches(sha, registered, uri, Reference(uri, []), env);
    var hash := ContentHash(sha, fetched.content);
    var snap := Snapshot(NewId(SNAP, env.snapshotUlid), uri, hash, env.now, |fetched.content|, fetched.details);
    var mat := Materialization(NewId(MAT, env.materializationUlid), snap.snapshotId, hash);
    AfterFirstFetch(sha, registered, uri, snap, mat, fetched.content);
  }

  lemma NewResourceIsDue(db: Db, uri: Str, policy: Policy, now: int)
    requires policy.strategy == RequireFresh
    requires uri in db.resources && db.resources[uri] == Resource(StoredPolicy(policy), [])
    ensures Due(db, uri, now)
  {
  }

  lemma AfterFirstFetch(sha: Sha, db: Db, uri: Str, snap: Snapshot, mat: Materialization, content: Bytes)
    requires db.blobs == map[] && db.materializations == map[] && db.resources.Keys == {uri}
    requires snap.contentHash == ContentHash(sha, content)
    ensures var t := AfterFetch(sha, db, uri, snap, mat, content);
            && t.resources.Keys == {uri} && t.runs == db.runs && t.byRun == db.byRun
            && snap.snapshotId in t.snapshots && t.snapshots[snap.snapshotId] == snap
            && Stored(t.blobs, snap.contentHash) && StoredContent(t, snap) == content
            && t.materializations.Keys == {mat.materializationId}
  {
    FirstBlob(sha, content);
    hide ContentHash;
    hide HexEncode;
  }

  // Such a pin can be registered: here the second of two resources is pinned to the
  // snapshot of the first, and resolving it delivers the bytes of the first.
  lemma OtherSnapshotDelivered(sha: Sha, first: Str, second: Str, fetched: Fetched, env: Env, later: Env)
    requires !later.fail && later.materializationUlid != env.materializationUlid
    requires first != second && !env.fail && env.fetch == Some(fetched)
    requires SplitRef(first) == Some(Reference(first, [])) && SplitRef(second) == Some(Reference(second, []))
    ensures var id := NewId(SNAP, env.snapshotUlid);
            var db := CallAll(sha, EMPTY, [(Register(first, Policy(RequireFresh, 0, [])), env), (Resolve(first), env),
                                           (Register(second, Policy(Pinned, 0, id)), env)]);
            var r := Call(sha, db, Resolve(second), later).1;
            && r.Ok? && r.value.GotResolve? && r.value.resolved.snapshot.resourceUri == first
            && r.value.resolved.content == fetched.content
  {
    hide DbOk;
    hide Settled;
    hide Call;
    hide CallAll;
    hide SplitRef;
    var id := NewId(SNAP, env.snapshotUlid);
    var anew, pin := Policy(RequireFresh, 0, []), Policy(Pinned, 0, id);
    ThreeCalls(sha, EMPTY, (Register(first, anew), env), (Resolve(first), env), (Register(second, pin), env));
    FirstObservation(sha, first, fetched, env);
    var observed := Call(sha, Call(sha, EMPTY, Register(first, anew), env).0, Resolve(first), env).0;
    CallKeeps(sha, observed, Register(second, pin), env);
    RegisterEffect(sha, observed, second, pin, env);
    var db := Call(sha, observed, Register(second, pin), env).0;
    OtherId(MAT, env.materializationUlid, later.materializationUlid);
    PinnedResolve(sha, db, second, Reference(second, []), later);
  }

  /******* Overlapping fetches *******/

  // What one fetch leaves behind, from the point where the policy asked for it.
  lemma FetchRecords(sha: Sha, db: Db, job: Job, env: Env)
    requires !env.fail && env.fetch.Some? && job.purpose.JustResolve? && job.uri in db.resources
    requires FreshMaterialization(db, env)
    requires NewId(SNAP, env.snapshotUlid) !in db.snapshots && NewId(SNAP, env.snapshotUlid) !in db.bySnapshot
    ensures var t := Ended(sha, db, AtFetch(job, env.now), env).0;
            var id, mat := NewId(SNAP, env.snapshotUlid), NewId(MAT, env.materializationUlid);
            && job.uri in t.resources && t.resources[job.uri].policy == db.resources[job.uri].policy
            && t.snapshots.Keys == db.snapshots.Keys + {id} && Within(db.snapshots, t.snapshots)
            && t.snapshots[id].resourceUri == job.uri && t.snapshots[id].observedAt == env.now
            && t.materializations.Keys == db.materializations.Keys + {mat}
            && t.bySnapshot.Keys == db.bySnapshot.Keys + {id}
  {
    hide Ended;
    hide ContentHash;
    hide HexEncode;
    hide PutAt;
    FetchSteps(sha, db, job, env);
    FetchedEnds(sha, db, job, env.fetch.value, env);
  }

  // Two resolves of one resource have both found it never fetched.
  lemma BothFindItDue(sha: Sha, uri: Str, policy: Policy, first: Env, second: Env) returns (actions: seq<Action>)
    requires !first.fail && !second.fail && policy.strategy == AllowStale
    requires SplitRef(uri) == Some(Reference(uri, []))
    ensures var job := Job(JustResolve, uri, []);
            var db := EMPTY.(resources := map[uri := Resource(StoredPolicy(policy), [])]);
            Exec(sha, INITIAL, actions) ==
            System(db, map[0 := Finished(Ok(Done)), 1 := AtFetch(job, first.now), 2 := AtFetch(job, second.now)])
  {
    hide Exec;
    hide SplitRef;
    hide StoredPolicy;
    var job, done := Job(JustResolve, uri, []), Finished(Ok(Done));
    var db := EMPTY.(resources := map[uri := Resource(StoredPolicy(policy), [])]);
    assert StoredPolicy(policy).strategy == AllowStale by { StrategyStays(policy); }
    actions := [Arrive(0, Register(uri, policy)), Advance(0, first), Arrive(1, Resolve(uri)), Arrive(2, Resolve(uri)),
                Advance(1, first), Advance(2, second)];
    var s1 := System(EMPTY, map[0 := AtResourceCreate(uri, policy)]);
    var s2 := System(db, map[0 := done]);
    var s3 := System(db, map[0 := done, 1 := AtResourceGet(job)]);
    var s4 := System(db, map[0 := done, 1 := AtResourceGet(job), 2 := AtResourceGet(job)]);
    var s5 := System(db, map[0 := done, 1 := AtFetch(job, first.now), 2 := AtResourceGet(job)]);
    var s6 := System(db, map[0 := done, 1 := AtFetch(job, first.now), 2 := AtFetch(job, second.now)]);
    Registers(sha, uri, policy, first, s1, s2);
    BothAdvance(sha, db, job, first, second, s4, s5, s6);
    BothArrive(sha, s2, uri, s3, s4);
    hide Act;
    assert actions[1..][1..] == actions[2..] && actions[2..][1..] == actions[3..] && actions[3..][1..] == actions[4..];
    assert actions[4..][1..] == actions[5..] && actions[5..][1..] == [];
    ExecStep(sha, INITIAL, actions, s1);
    ExecStep(sha, s1, actions[1..], s2);
    ExecStep(sha, s2, actions[2..], s3);
    ExecStep(sha, s3, actions[3..], s4);
    ExecStep(sha, s4, actions[4..], s5);
    ExecStep(sha, s5, actions[5..], s6);
    ExecNone(sha, s6);
  }

  lemma StrategyStays(policy: Policy)
    ensures StoredPolicy(policy).strategy == policy.strategy
  {
  }

  lemma Registers(sha: Sha, uri: Str, policy: Policy, env: Env, s1: System, s2: System)
    requires !env.fail && policy.strategy != Unknown && s1 == System(EMPTY, map[0 := AtResourceCreate(uri, policy)])
    requires s2 == System(EMPTY.(resources := map[uri := Resource(StoredPolicy(policy), [])]),
                          map[0 := Finished(Ok(Done))])
    ensures Act(sha, INITIAL, Arrive(0, Register(uri, policy))) == s1 && Act(sha, s1, Advance(0, env)) == s2
  {
    hide StoredPolicy;
  }

  lemma FindsNothing(sha: Sha, db: Db, job: Job, env: Env)
    requires !env.fail && job.ref == [] && job.uri in db.resources
    requires db.resources[job.uri].currentSnapshotId == [] && db.resources[job.uri].policy.strategy == AllowStale
    ensures Step(sha, db, AtResourceGet(job), env) == (db, AtFetch(job, env.now))
  {
  }

  lemma BothArrive(sha: Sha, s2: System, uri: Str, s3: System, s4: System)
    requires SplitRef(uri) == Some(Reference(uri, [])) && s2.clients == map[0 := Finished(Ok(Done))]
    requires var c := AtResourceGet(Job(JustResolve, uri, []));
             && s3 == System(s2.db, map[0 := Finished(Ok(Done)), 1 := c])
             && s4 == System(s2.db, map[0 := Finished(Ok(Done)), 1 := c, 2 := c])
    ensures Act(sha, s2, Arrive(1, Resolve(uri))) == s3 && Act(sha, s3, Arrive(2, Resolve(uri))) == s4
  {
    hide SplitRef;
  }

  lemma BothAdvance(
    sha: Sha, db: Db, job: Job, first: Env, second: Env, s4: System, s5: System, s6: System)
    requires !first.fail && !second.fail && job.ref == [] && job.uri in db.resources
    requires db.resources[job.uri].currentSnapshotId == [] && db.resources[job.uri].policy.strategy == AllowStale
    requires var c, done := AtResourceGet(job), Finished(Ok(Done));
             && s4 == System(db, map[0 := done, 1 := c, 2 := c])
             && s5 == System(db, map[0 := done, 1 := AtFetch(job, first.now), 2 := c])
             && s6 == System(db, map[0 := done, 1 := AtFetch(job, first.now), 2 := AtFetch(job, second.now)])
    ensures Act(sha, s4, Advance(1, first)) == s5 && Act(sha, s5, Advance(2, second)) == s6
  {
    FindsNothing(sha, db, job, first);
    FindsNothing(sha, db, job, second);
    hide Step;
  }

  // Two calls that both are about to fetch record one observation each.
  lemma BothFetch(sha: Sha, s: System, job: Job, first: Env, second: Env) returns (actions: seq<Action>)
    requires !first.fail && first.fetch.Some? && !second.fail && second.fetch.Some? && job.purpose.JustResolve?
    requires NewId(SNAP, first.snapshotUlid) != NewId(SNAP, second.snapshotUlid)
    requires NewId(MAT, first.materializationUlid) != NewId(MAT, second.materializationUlid)
    requires s.db.snapshots == map[] && s.db.materializations == map[] && s.db.bySnapshot == map[]
    requires 1 in s.clients && s.clients[1] == AtFetch(job, first.now)
    requires 2 in s.clients && s.clients[2] == AtFetch(job, second.now) && job.uri in s.db.resources
    ensures var db := Exec(sha, s, actions).db;
            var a, b := NewId(SNAP, first.snapshotUlid), NewId(SNAP, second.snapshotUlid);
            && job.uri in db.resources && db.resources[job.uri].policy == s.db.resources[job.uri].policy
            && IsObservation(db, a, job.uri) && db.snapshots[a].observedAt == first.now
            && IsObservation(db, b, job.uri) && db.snapshots[b].observedAt == second.now
  {
    hide Exec;
    hide RunToEnd;
    hide NewId;
    FetchRecords(sha, s.db, job, first);
    var one := RunToEndIsExec(sha, s, 1, first);
    var t := Exec(sha, s, one);
    FetchRecords(sha, t.db, job, second);
    var two := RunToEndIsExec(sha, t, 2, second);
    ExecConcat(sha, s, one, two);
    actions := one + two;
  }

  // So the spacing of observations is one of whole calls: here two overlapping resolves
  // observe a resource at whatever two times they are given.
  lemma OverlappingFetches(sha: Sha, uri: Str, maxAge: int, first: Env, second: Env) returns (actions: seq<Action>)
    requires !first.fail && first.fetch.Some? && !second.fail && second.fetch.Some? && maxAge >= SECOND
    requires first.snapshotUlid != second.snapshotUlid && first.materializationUlid != second.materializationUlid
    requires SplitRef(uri) == Some(Reference(uri, []))
    ensures var db := Exec(sha, INITIAL, actions).db;
            var stored := StoredPolicy(Policy(AllowStale, maxAge, [])).maxAge;
            var a, b := NewId(SNAP, first.snapshotUlid), NewId(SNAP, second.snapshotUlid);
            && uri in db.resources && AllowsStale(db.resources[uri].policy, stored)
            && IsObservation(db, a, uri) && IsObservation(db, b, uri) && a != b
            && db.snapshots[a].observedAt == first.now && db.snapshots[b].observedAt == second.now
            && (0 <= second.now - first.now <= stored ==> !Apart(db.snapshots[a], db.snapshots[b], stored))
  {
    var policy := Policy(AllowStale, maxAge, []);
    StoredLimit(policy);
    StrategyStays(policy);
    OtherId(SNAP, first.snapshotUlid, second.snapshotUlid);
    OtherId(MAT, first.materializationUlid, second.materializationUlid);
    hide SplitRef;
    hide StoredPolicy;
    hide Exec;
    hide RunToEnd;
    hide NewId;
    var due := BothFindItDue(sha, uri, policy, first, second);
    var rest := BothFetch(sha, Exec(sha, INITIAL, due), Job(JustResolve, uri, []), first, second);
    ExecConcat(sha, INITIAL, due, rest);
    actions := due + rest;
  }
}
