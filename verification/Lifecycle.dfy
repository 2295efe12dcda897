/**
  The life of a run when each builder call runs to its end before the next
  begins, and exactly what is left behind when a commit stops half way.
 */
module Lifecycle {
  import opened ByteStrings
  import opened Database
  import opened Clients
  import opened Invariants
  import opened Interleaving

  predicate IsOpen(db: Db, runId: Str) {
    runId in db.runs && !db.runs[runId].committed
  }

  // A run is committed exactly when it has a manifest, which lists all its mounts.
  ghost predicate Settled(db: Db) {
    && (forall r | r in db.runs :: db.runs[r].committed <==> r in db.byRun)
    && (forall id | id in db.manifests :: CompleteManifest(db, db.manifests[id]))
  }

  ghost predicate CompleteManifest(db: Db, m: Manifest) {
    m.runId in db.mounts && m.entries == db.mounts[m.runId]
  }

  ghost predicate SettledBut(db: Db, runId: Str) {
    && (forall r | r in db.runs && r != runId :: db.runs[r].committed <==> r in db.byRun)
    && (forall id | id in db.manifests :: CompleteManifest(db, db.manifests[id]))
  }

  ghost predicate InFlight(db: Db, c: Client) {
    match c
    case AtMarkCommitted(runId, _) => SettledBut(db, runId) && IsOpen(db, runId)
    case AtManifestCreate(runId, entries) => Settled(db) && IsOpen(db, runId) && entries == ListMounts(db, runId)
    case AtCommitList(runId) => Settled(db) && IsOpen(db, runId)
    case AtMountList(runId, _, _) => Settled(db) && IsOpen(db, runId)
    case AtMountAppend(runId, _, _) => Settled(db) && IsOpen(db, runId)
    case _ => Settled(db) && (OfRun(c).Some? ==> IsOpen(db, OfRun(c).value))
  }

  // The run a resolve in progress is for.
  function OfRun(c: Client): Option<Str> {
    if 8 < Remaining(c) < 20 then RunOf(c.job) else None
  }

  function RunOf(job: Job): Option<Str> {
    if job.purpose.IntoRun? then Some(job.purpose.runId) else None
  }

  predicate ResolveWrites(c: Client) {
    c.AtFetchedPut? || c.AtSnapshotCreate? || c.AtCurrentSet? || c.AtMaterializationPut? || c.AtMaterializationCreate?
  }

  lemma ResolveReads(sha: Sha, db: Db, c: Client, env: Env)
    requires 8 < Remaining(c) < 20 && !ResolveWrites(c)
    ensures ResolveStep(sha, db, c, env).0 == db
  {
    hide AfterPolicy;
    hide AfterResourceGet;
    hide AfterResolve;
  }

  ghost predicate SameRunTables(s: Db, t: Db) {
    t.runs == s.runs && t.mounts == s.mounts && t.manifests == s.manifests && t.byRun == s.byRun
  }

  lemma ResolveWritesElsewhere(sha: Sha, db: Db, c: Client, env: Env)
    requires ResolveWrites(c)
    ensures SameRunTables(db, ResolveStep(sha, db, c, env).0)
  {
    hide AfterResolve;
    hide ContentHash;
    hide PutAt;
    hide CreateSnapshot;
    hide SetCurrent;
    hide CreateMaterialization;
    if c.AtSnapshotCreate? {
      SnapshotElsewhere(db, SnapshotOf(c.job, c.now, c.fetched, c.hash, env));
    } else if c.AtCurrentSet? {
      PointerElsewhere(db, c.job.uri, c.snap.snapshotId);
    } else if c.AtMaterializationCreate? {
      MaterializationElsewhere(db, MaterializationOf(c.snap, c.hash, env));
    }
  }

  lemma SnapshotElsewhere(db: Db, snap: Snapshot)
    ensures CreateSnapshot(db, snap).Ok? ==> SameRunTables(db, CreateSnapshot(db, snap).value)
  {
  }

  lemma PointerElsewhere(db: Db, uri: Str, id: Str)
    ensures SetCurrent(db, uri, id).Ok? ==> SameRunTables(db, SetCurrent(db, uri, id).value)
  {
  }

  lemma MaterializationElsewhere(db: Db, mat: Materialization)
    ensures CreateMaterialization(db, mat).Ok? ==> SameRunTables(db, CreateMaterialization(db, mat).value)
  {
  }

  // Resolving touches no run, mount or manifest.
  lemma ResolveLeavesRuns(sha: Sha, db: Db, c: Client, env: Env)
    requires 8 < Remaining(c) < 20
    ensures var db' := ResolveStep(sha, db, c, env).0;
            db'.runs == db.runs && db'.mounts == db.mounts && db'.manifests == db.manifests && db'.byRun == db.byRun
  {
    hide ResolveStep;
    if ResolveWrites(c) {
      ResolveWritesElsewhere(sha, db, c, env);
    } else {
      ResolveReads(sha, db, c, env);
    }
  }

  lemma ResolveKeepsJob(sha: Sha, db: Db, c: Client, env: Env)
    requires 8 < Remaining(c) < 20
    ensures var c' := ResolveStep(sha, db, c, env).1;
            && (c'.Finished? || c'.AtMountList? || OfRun(c') == OfRun(c))
            && (c'.AtMountList? ==> OfRun(c) == Some(c'.runId))
            && (8 < Remaining(c') < 20 || c'.Finished? || c'.AtMountList?)
  {
    hide PutBlob;
    hide CreateSnapshot;
    hide CreateMaterialization;
    hide Evaluate;
  }

  lemma ResolveInFlight(sha: Sha, db: Db, c: Client, env: Env)
    requires 8 < Remaining(c) < 20 && InFlight(db, c)
    ensures InFlight(ResolveStep(sha, db, c, env).0, ResolveStep(sha, db, c, env).1)
  {
    hide ResolveStep;
    ResolveLeavesRuns(sha, db, c, env);
    ResolveKeepsJob(sha, db, c, env);
  }

  /******* What each write does to Settled *******/

  lemma NoManifestYet(sha: Sha, db: Db, runId: Str)
    requires DbOk(sha, db) && Settled(db) && IsOpen(db, runId)
    ensures forall id | id in db.manifests :: db.manifests[id].runId != runId
    ensures runId in db.mounts
  {
  }

  lemma SettledAppend(db: Db, runId: Str, rows: seq<Entry>)
    requires Settled(db) && forall id | id in db.manifests :: db.manifests[id].runId != runId
    ensures Settled(db.(mounts := db.mounts[runId := rows]))
  {
  }

  lemma SettledStart(sha: Sha, db: Db, runId: Str)
    requires DbOk(sha, db) && Settled(db) && StartRun(db, runId).Ok?
    ensures Settled(StartRun(db, runId).value)
  {
    ByRunNamesRuns(sha, db);
  }

  lemma ByRunNamesRuns(sha: Sha, db: Db)
    requires DbOk(sha, db)
    ensures db.mounts.Keys == db.runs.Keys && forall r | r in db.byRun :: r in db.runs
  {
    forall r | r in db.byRun
      ensures r in db.runs
    {
      assert db.manifests[db.byRun[r]].runId == r;
    }
  }

  // Rows at dense positions go in as they are.
  lemma CreatedAsGiven(db: Db, m: Manifest)
    requires CreateManifest(db, m).Ok? && Dense(m.entries)
    ensures CreateManifest(db, m).value == db.(
              manifests := db.manifests[m.manifestId := m], byRun := db.byRun[m.runId := m.manifestId])
  {
    assert [] + m.entries == m.entries;
    InsertAllDense([], m.entries);
    hide InsertAll;
  }

  lemma MountsAreDense(sha: Sha, db: Db, runId: Str)
    requires DbOk(sha, db) && runId in db.mounts
    ensures Dense(db.mounts[runId])
  {
  }

  lemma SettledCreate(sha: Sha, db: Db, m: Manifest)
    requires DbOk(sha, db) && Settled(db) && CreateManifest(db, m).Ok?
    requires m.runId in db.mounts && m.entries == db.mounts[m.runId]
    ensures SettledBut(CreateManifest(db, m).value, m.runId)
    ensures CreateManifest(db, m).value.runs == db.runs
  {
    hide DbOk;
    hide CreateManifest;
    MountsAreDense(sha, db, m.runId);
    CreatedAsGiven(db, m);
  }

  lemma SettledMark(db: Db, runId: Str, manifestId: Str)
    requires SettledBut(db, runId) && runId in db.runs && runId in db.byRun
    ensures Settled(MarkCommitted(db, runId, manifestId))
  {
  }

  lemma SettledElsewhere(db: Db, uri: Str, policy: Policy, name: Str, id: Str)
    requires Settled(db)
    ensures CreateResource(db, uri, policy).Ok? ==> Settled(CreateResource(db, uri, policy).value)
    ensures Settled(UpsertTag(db, uri, name, id))
    ensures DeleteTag(db, uri, name).Ok? ==> Settled(DeleteTag(db, uri, name).value)
  {
  }

  /******* One step *******/

  lemma RunReadInFlight(db: Db, c: Client, env: Env)
    requires InFlight(db, c)
    requires c.AtMountRunGet? || c.AtMountList? || c.AtCommitRunGet? || c.AtCommitList?
    requires c.AtMountRunGet? ==> c.job.purpose == IntoRun(c.runId)
    ensures InFlight(RunStep(db, c, env).0, RunStep(db, c, env).1)
  {
    hide Settled;
  }

  lemma MountAppendInFlight(sha: Sha, db: Db, c: Client, env: Env)
    requires DbOk(sha, db) && ClientOk(sha, db, c) && InFlight(db, c) && c.AtMountAppend?
    ensures InFlight(RunStep(db, c, env).0, RunStep(db, c, env).1)
  {
    hide DbOk;
    hide Settled;
    if AppendMount(db, c.runId, c.entry).Ok? {
      AppendMountOk(sha, db, c.runId, c.entry);
      NoManifestYet(sha, db, c.runId);
      SettledAppend(db, c.runId, db.mounts[c.runId] + [c.entry]);
    }
  }

  lemma ManifestCreateInFlight(sha: Sha, db: Db, c: Client, env: Env)
    requires DbOk(sha, db) && ClientOk(sha, db, c) && InFlight(db, c) && c.AtManifestCreate?
    ensures InFlight(RunStep(db, c, env).0, RunStep(db, c, env).1)
  {
    hide DbOk;
    hide Settled;
    hide SettledBut;
    hide CreateManifest;
    var m := Manifest(NewId(MANIFEST, env.manifestUlid), c.runId, env.now, c.entries);
    if CreateManifest(db, m).Ok? {
      SettledCreate(sha, db, m);
    }
  }

  lemma MarkInFlight(sha: Sha, db: Db, c: Client, env: Env)
    requires ClientOk(sha, db, c) && InFlight(db, c) && c.AtMarkCommitted?
    ensures InFlight(RunStep(db, c, env).0, RunStep(db, c, env).1)
  {
    hide Settled;
    hide SettledBut;
    SettledMark(db, c.runId, c.manifest.manifestId);
  }

  lemma OtherInFlight(sha: Sha, db: Db, c: Client, env: Env)
    requires InFlight(db, c)
    requires c.AtResourceCreate? || c.AtTagOwner? || c.AtTagUpsert? || c.AtTagDelete?
    ensures InFlight(RunStep(db, c, env).0, RunStep(db, c, env).1)
  {
    hide Settled;
    hide CreateResource;
    hide UpsertTag;
    hide DeleteTag;
    if c.AtResourceCreate? {
      SettledElsewhere(db, c.uri, c.policy, [], []);
    } else {
      SettledElsewhere(db, c.uri, Policy(Unknown, 0, []), c.name, if c.AtTagDelete? then [] else c.id);
    }
  }

  lemma RunStartInFlight(sha: Sha, db: Db, c: Client, env: Env)
    requires DbOk(sha, db) && InFlight(db, c) && c.AtRunStart?
    ensures InFlight(RunStep(db, c, env).0, RunStep(db, c, env).1)
  {
    hide DbOk;
    hide Settled;
    if StartRun(db, c.runId).Ok? {
      SettledStart(sha, db, c.runId);
    }
  }

  lemma StepInFlight(sha: Sha, db: Db, c: Client, env: Env)
    requires DbOk(sha, db) && ClientOk(sha, db, c) && InFlight(db, c)
    requires !env.fail && !c.Finished?
    ensures InFlight(Step(sha, db, c, env).0, Step(sha, db, c, env).1)
  {
    hide DbOk;
    hide ClientOk;
    hide InFlight;
    hide RunStep;
    hide ResolveStep;
    if Remaining(c) > 8 && !c.AtMountRunGet? {
      ResolveInFlight(sha, db, c, env);
    } else {
      match c
      case AtMountAppend(_, _, _) => MountAppendInFlight(sha, db, c, env);
      case AtManifestCreate(_, _) => ManifestCreateInFlight(sha, db, c, env);
      case AtMarkCommitted(_, _) => MarkInFlight(sha, db, c, env);
      case AtRunStart(_) => RunStartInFlight(sha, db, c, env);
      case AtMountRunGet(runId, job) =>
        assert job.purpose == IntoRun(runId) by { PurposeOfMount(sha, db, c); }
        RunReadInFlight(db, c, env);
      case AtMountList(_, _, _) => RunReadInFlight(db, c, env);
      case AtCommitRunGet(_) => RunReadInFlight(db, c, env);
      case AtCommitList(_) => RunReadInFlight(db, c, env);
      case _ => OtherInFlight(sha, db, c, env);
    }
  }

  lemma PurposeOfMount(sha: Sha, db: Db, c: Client)
    requires ClientOk(sha, db, c) && c.AtMountRunGet?
    ensures c.job.purpose == IntoRun(c.runId)
  {
  }

  lemma {:induction false} RunToEndKeeps(sha: Sha, db: Db, c: Client, env: Env)
    requires DbOk(sha, db) && ClientOk(sha, db, c)
    ensures var r := RunToEnd(sha, db, c, env);
            DbOk(sha, r.0) && ClientOk(sha, r.0, r.1) && Extends(db, r.0)
    ensures InFlight(db, c) && !(env.fail && c.AtMarkCommitted?) ==> Settled(RunToEnd(sha, db, c, env).0)
    decreases Remaining(c)
  {
    hide DbOk;
    hide ClientOk;
    hide Extends;
    hide Step;
    hide Remaining;
    if c.Finished? {
      ExtendsReflexive(db);
      assert InFlight(db, c) ==> Settled(db);
    } else {
      var r := Step(sha, db, c, env);
      StepKeeps(sha, db, c, env);
      RunToEndKeeps(sha, r.0, r.1, env);
      ExtendsTransitive(db, r.0, RunToEnd(sha, r.0, r.1, env).0);
      if env.fail {
        FailedStep(sha, db, c, env);
      } else if InFlight(db, c) {
        StepInFlight(sha, db, c, env);
      }
    }
  }

  lemma FailedStep(sha: Sha, db: Db, c: Client, env: Env)
    requires env.fail && !c.Finished?
    ensures Step(sha, db, c, env) == (db, Finished(Err(Unavailable)))
    ensures !c.AtMarkCommitted? && InFlight(db, c) ==> Settled(db)
  {
  }

  /******* Whole calls *******/

  lemma {:induction false} CallAllKeeps(sha: Sha, db: Db, calls: seq<(Operation, Env)>)
    requires DbOk(sha, db) && Settled(db)
    ensures var t := CallAll(sha, db, calls);
            DbOk(sha, t) && Settled(t) && Extends(db, t)
    decreases |calls|
  {
    hide DbOk;
    hide Settled;
    hide Extends;
    hide RunToEnd;
    hide Begin;
    if calls == [] {
      ExtendsReflexive(db);
    } else {
      var (op, env) := calls[0];
      BeginOk(sha, db, op);
      BeginInFlight(db, op);
      RunToEndKeeps(sha, db, Begin(op), env);
      var t := Call(sha, db, op, env).0;
      CallAllKeeps(sha, t, calls[1..]);
      ExtendsTransitive(db, t, CallAll(sha, db, calls));
    }
  }

  lemma BeginInFlight(db: Db, op: Operation)
    requires Settled(db)
    ensures InFlight(db, Begin(op)) && !Begin(op).AtMarkCommitted?
  {
  }

  lemma EmptyIsSettled(sha: Sha)
    ensures DbOk(sha, EMPTY) && Settled(EMPTY)
  {
  }

  ghost predicate HasManifest(db: Db, runId: Str, id: Str) {
    id in db.manifests && db.manifests[id].runId == runId
  }

  // MAIN RESULT. After any sequence of whole calls a run is committed exactly when
  // one manifest carries its id; that is the manifest the run records, it lists
  // the run's mounts at positions 0, 1, 2, ... and looking the run up finds it.
  lemma RunLifecycle(sha: Sha, calls: seq<(Operation, Env)>, runId: Str)
    requires runId in CallAll(sha, EMPTY, calls).runs
    ensures var db := CallAll(sha, EMPTY, calls);
            && (db.runs[runId].committed <==> exists id :: HasManifest(db, runId, id))
            && (forall a, b | HasManifest(db, runId, a) && HasManifest(db, runId, b) :: a == b)
            && Dense(ListMounts(db, runId))
            && (db.runs[runId].committed ==>
                  var id := db.runs[runId].manifestId;
                  && HasManifest(db, runId, id)
                  && db.manifests[id].entries == ListMounts(db, runId)
                  && (runId !in db.manifests ==> GetByIdOrRun(db, runId) == Ok(db.manifests[id])))
  {
    hide DbOk;
    hide Settled;
    hide Extends;
    hide CallAll;
    EmptyIsSettled(sha);
    CallAllKeeps(sha, EMPTY, calls);
    var db := CallAll(sha, EMPTY, calls);
    OneManifest(sha, db, runId);
    RecordedManifest(sha, db, runId);
  }

  lemma OneManifest(sha: Sha, db: Db, runId: Str)
    requires DbOk(sha, db)
    ensures forall a, b | HasManifest(db, runId, a) && HasManifest(db, runId, b) :: a == b
    ensures Dense(ListMounts(db, runId))
    ensures runId in db.byRun <==> exists id :: HasManifest(db, runId, id)
  {
    if runId in db.byRun {
      assert HasManifest(db, runId, db.byRun[runId]);
    }
  }

  lemma RecordedManifest(sha: Sha, db: Db, runId: Str)
    requires DbOk(sha, db) && Settled(db) && runId in db.runs
    ensures db.runs[runId].committed <==> runId in db.byRun
    ensures db.runs[runId].committed ==>
              var id := db.runs[runId].manifestId;
              && HasManifest(db, runId, id)
              && db.manifests[id].entries == ListMounts(db, runId)
              && (runId !in db.manifests ==> GetByIdOrRun(db, runId) == Ok(db.manifests[id]))
  {
    if db.runs[runId].committed {
      assert db.byRun[runId] == db.runs[runId].manifestId;
      assert CompleteManifest(db, db.manifests[db.byRun[runId]]);
    }
  }

  // Once committed, neither the run, nor its mounts, nor its manifest ever changes.
  lemma CommittedRunFrozen(
    sha: Sha, before: seq<(Operation, Env)>, after: seq<(Operation, Env)>, runId: Str)
    requires var s := CallAll(sha, EMPTY, before);
             runId in s.runs && s.runs[runId].committed
    ensures var s := CallAll(sha, EMPTY, before);
            var t := CallAll(sha, s, after);
            var id := s.runs[runId].manifestId;
            && runId in t.runs && t.runs[runId] == s.runs[runId]
            && ListMounts(t, runId) == ListMounts(s, runId)
            && id in s.manifests && id in t.manifests && t.manifests[id] == s.manifests[id]
  {
    EmptyIsSettled(sha);
    CallAllKeeps(sha, EMPTY, before);
    var s := CallAll(sha, EMPTY, before);
    CallAllKeeps(sha, s, after);
    var t := CallAll(sha, s, after);
    FrozenBetween(sha, s, t, runId);
  }

  lemma FrozenBetween(sha: Sha, s: Db, t: Db, runId: Str)
    requires DbOk(sha, s) && Settled(s) && DbOk(sha, t) && Settled(t) && Extends(s, t)
    requires runId in s.runs && s.runs[runId].committed
    ensures var id := s.runs[runId].manifestId;
            && runId in t.runs && t.runs[runId] == s.runs[runId]
            && ListMounts(t, runId) == ListMounts(s, runId)
            && id in s.manifests && id in t.manifests && t.manifests[id] == s.manifests[id]
  {
    var id := s.runs[runId].manifestId;
    assert s.byRun[runId] == id && s.manifests[id].runId == runId;
    assert CompleteManifest(s, s.manifests[id]) && CompleteManifest(t, t.manifests[id]);
  }

  /******* Whole calls are interleavings *******/

  // A call run to its end is a run of the interleaved system in which only it moves.
  lemma {:induction false} RunToEndIsExec(sha: Sha, s: System, k: nat, env: Env) returns (actions: seq<Action>)
    requires k in s.clients
    ensures var r := RunToEnd(sha, s.db, s.clients[k], env);
            Exec(sha, s, actions) == System(r.0, s.clients[k := r.1])
    decreases Remaining(s.clients[k])
  {
    hide Step;
    hide Remaining;
    var c := s.clients[k];
    if c.Finished? {
      actions := [];
      assert s.clients == s.clients[k := c];
    } else {
      var a := Advance(k, env);
      var t := Act(sha, s, a);
      StepDecreases(sha, s.db, c, env);
      var rest := RunToEndIsExec(sha, t, k, env);
      actions := [a] + rest;
      var r := RunToEnd(sha, t.db, t.clients[k], env);
      assert t.clients[k := r.1] == s.clients[k := r.1];
    }
  }

  lemma StepDecreases(sha: Sha, db: Db, c: Client, env: Env)
    requires !c.Finished?
    ensures Remaining(Step(sha, db, c, env).1) < Remaining(c)
  {
  }

  lemma {:induction false} ExecConcat(sha: Sha, s: System, a: seq<Action>, b: seq<Action>)
    ensures Exec(sha, s, a + b) == Exec(sha, Exec(sha, s, a), b)
    decreases |a|
  {
    hide Act;
    if a == [] {
      assert a + b == b;
    } else {
      assert (a + b)[0] == a[0] && (a + b)[1..] == a[1..] + b;
      ExecConcat(sha, Act(sha, s, a[0]), a[1..], b);
    }
  }

  // So every result about interleaved runs holds of whole calls.
  lemma {:induction false} CallAllIsExec(sha: Sha, s: System, calls: seq<(Operation, Env)>, k: nat)
    returns (actions: seq<Action>)
    requires forall i | i in s.clients :: i < k
    ensures Exec(sha, s, actions).db == CallAll(sha, s.db, calls)
    decreases |calls|
  {
    hide RunToEnd;
    hide Begin;
    if calls == [] {
      actions := [];
    } else {
      var (op, env) := calls[0];
      var t := Act(sha, s, Arrive(k, op));
      var whole := RunToEndIsExec(sha, t, k, env);
      var u := Exec(sha, t, whole);
      var rest := CallAllIsExec(sha, u, calls[1..], k + 1);
      var first := [Arrive(k, op)] + whole;
      assert Exec(sha, s, first) == u;
      ExecConcat(sha, s, first, rest);
      actions := first + rest;
    }
  }
}
