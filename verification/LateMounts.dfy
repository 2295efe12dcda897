/**
  Builder.Mount looks at the run before it resolves and never again. When a mount is
  accepted, and whether a manifest lists it.
 */
module LateMounts {
  import opened ByteStrings
  import opened References
  import opened Database
  import opened Clients
  import opened Invariants
  import opened Interleaving
  import opened Lifecycle
  import opened PartialCommit
  import opened WholeRun
  import opened Freshness
  import opened StoredReads
  import opened Fetches

  /******* A mount is accepted exactly when its resolve succeeds *******/

  predicate Resolving(c: Client) { 8 < Remaining(c) < 20 }

  // The same point of the same resolve, for another purpose.
  function WithJob(c: Client, job: Job): (d: Client)
    requires Resolving(c)
    ensures Resolving(d) && Remaining(d) == Remaining(c)
  {
    match c
    case AtResourceGet(_) => AtResourceGet(job)
    case AtTagGet(_) => AtTagGet(job)
    case AtCurrentGet(_, resource, now) => AtCurrentGet(job, resource, now)
    case AtSnapshotGet(_, id, decision) => AtSnapshotGet(job, id, decision)
    case AtContentGet(_, snap, decision) => AtContentGet(job, snap, decision)
    case AtFetch(_, now) => AtFetch(job, now)
    case AtFetchedPut(_, now, fetched) => AtFetchedPut(job, now, fetched)
    case AtSnapshotCreate(_, now, fetched, hash) => AtSnapshotCreate(job, now, fetched, hash)
    case AtCurrentSet(_, snap, content) => AtCurrentSet(job, snap, content)
    case AtMaterializationFind(_, snap, content, decision) => AtMaterializationFind(job, snap, content, decision)
    case AtMaterializationPut(_, snap, content, decision) => AtMaterializationPut(job, snap, content, decision)
    case AtMaterializationCreate(_, snap, content, decision, hash) =>
      AtMaterializationCreate(job, snap, content, decision, hash)
  }

  // What follows the resolve of job once it has come out like this.
  function Onward(job: Job, result: Result<Outcome>): Client {
    if result.Ok? && result.value.GotResolve? then AfterResolve(job, result.value.resolved)
    else Finished(result)
  }

  ghost predicate SameJob(a: Job, b: Job) { a.uri == b.uri && a.ref == b.ref }

  // How the two resolves compare after one store call.
  ghost predicate InStep(c: Client, job: Job, c': Client, d': Client)
    requires Resolving(c)
  {
    if c'.Finished? then d' == Onward(job, c'.result) && (c'.result.Ok? ==> c'.result.value.GotResolve?)
    else Resolving(c') && c'.job == c.job && d' == WithJob(c', job)
  }

  lemma PolicyInStep(job: Job, other: Job, policy: Policy, current: Option<Snapshot>, now: int)
    requires job.purpose.JustResolve? && SameJob(job, other)
    ensures InStep(AtFetch(job, now), other,
                   AfterPolicy(job, policy, current, now), AfterPolicy(other, policy, current, now))
  {
  }

  lemma ReadInStep(sha: Sha, db: Db, c: Client, job: Job, env: Env)
    requires Resolving(c) && c.job.purpose.JustResolve? && SameJob(c.job, job)
    requires c.AtResourceGet? || c.AtTagGet? || c.AtCurrentGet? || c.AtSnapshotGet? || c.AtContentGet? || c.AtFetch?
    ensures var (t, c') := ResolveStep(sha, db, c, env);
            var (u, d') := ResolveStep(sha, db, WithJob(c, job), env);
            t == u && InStep(c, job, c', d')
  {
    hide AfterPolicy;
    if c.AtResourceGet? && c.job.uri in db.resources {
      PolicyInStep(c.job, job, db.resources[c.job.uri].policy, None, env.now);
    } else if c.AtCurrentGet? && GetSnapshot(db, c.resource.currentSnapshotId).Ok? {
      PolicyInStep(c.job, job, c.resource.policy, Some(GetSnapshot(db, c.resource.currentSnapshotId).value), c.now);
    }
  }

  lemma WriteInStep(sha: Sha, db: Db, c: Client, job: Job, env: Env)
    requires Resolving(c) && c.job.purpose.JustResolve? && SameJob(c.job, job)
    requires c.AtFetchedPut? || c.AtSnapshotCreate? || c.AtCurrentSet?
    ensures var (t, c') := ResolveStep(sha, db, c, env);
            var (u, d') := ResolveStep(sha, db, WithJob(c, job), env);
            t == u && InStep(c, job, c', d')
  {
    hide PutBlob;
    hide CreateSnapshot;
    hide SetCurrent;
  }

  lemma MaterializeInStep(sha: Sha, db: Db, c: Client, job: Job, env: Env)
    requires Resolving(c) && c.job.purpose.JustResolve? && SameJob(c.job, job)
    requires c.AtMaterializationFind? || c.AtMaterializationPut? || c.AtMaterializationCreate?
    ensures var (t, c') := ResolveStep(sha, db, c, env);
            var (u, d') := ResolveStep(sha, db, WithJob(c, job), env);
            t == u && InStep(c, job, c', d')
  {
    hide PutBlob;
    hide CreateMaterialization;
    hide FindBySnapshot;
  }

  lemma ResolveInStep(sha: Sha, db: Db, c: Client, job: Job, env: Env)
    requires Resolving(c) && c.job.purpose.JustResolve? && SameJob(c.job, job) && !env.fail
    ensures var (t, c') := Step(sha, db, c, env);
            var (u, d') := Step(sha, db, WithJob(c, job), env);
            t == u && InStep(c, job, c', d')
  {
    hide ResolveStep;
    hide InStep;
    hide WithJob;
    if c.AtFetchedPut? || c.AtSnapshotCreate? || c.AtCurrentSet? {
      WriteInStep(sha, db, c, job, env);
    } else if c.AtMaterializationFind? || c.AtMaterializationPut? || c.AtMaterializationCreate? {
      MaterializeInStep(sha, db, c, job, env);
    } else {
      ReadInStep(sha, db, c, job, env);
    }
  }

  lemma RunToEndUnroll(sha: Sha, db: Db, c: Client, env: Env)
    requires !c.Finished?
    ensures RunToEnd(sha, db, c, env) == RunToEnd(sha, Step(sha, db, c, env).0, Step(sha, db, c, env).1, env)
  {
  }

  lemma RunToEndFinished(sha: Sha, db: Db, c: Client, env: Env)
    requires c.Finished?
    ensures RunToEnd(sha, db, c, env) == (db, c)
  {
  }

  // A resolve inside a mount does what it does on its own, and then the mount goes on.
  lemma {:induction false} ResolveForMount(sha: Sha, db: Db, c: Client, job: Job, env: Env)
    requires Resolving(c) && c.job.purpose.JustResolve? && SameJob(c.job, job) && !env.fail
    ensures var r := RunToEnd(sha, db, c, env);
            && (r.1.result.Ok? ==> r.1.result.value.GotResolve?)
            && RunToEnd(sha, db, WithJob(c, job), env) == RunToEnd(sha, r.0, Onward(job, r.1.result), env)
    decreases Remaining(c)
  {
    hide Step;
    hide WithJob;
    hide RunToEnd;
    ResolveInStep(sha, db, c, job, env);
    StepDecreases(sha, db, c, env);
    var (t, c') := Step(sha, db, c, env);
    RunToEndUnroll(sha, db, c, env);
    RunToEndUnroll(sha, db, WithJob(c, job), env);
    if c'.Finished? {
      RunToEndFinished(sha, t, c', env);
    } else {
      ResolveForMount(sha, t, c', job, env);
    }
  }

  // Finding the next position and adding the row, in one go.
  lemma AppendGoesThrough(sha: Sha, db: Db, runId: Str, job: Job, r: Resolved, env: Env)
    requires DbOk(sha, db) && runId in db.runs && !env.fail
    ensures var entry := EntryOf(job, |ListMounts(db, runId)|, r);
            RunToEnd(sha, db, AtMountList(runId, job, r), env) ==
            (db.(mounts := db.mounts[runId := ListMounts(db, runId) + [entry]]),
             Finished(Ok(GotMount(runId, entry, r))))
  {
    var rows := ListMounts(db, runId);
    MountsOfRun(sha, db, runId);
    MountsAreDense(sha, db, runId);
    var entry := EntryOf(job, |rows|, r);
    InsertDense(rows, entry);
    hide DbOk;
    hide Insert;
    var c, d := AtMountList(runId, job, r), AtMountAppend(runId, entry, r);
    assert Step(sha, db, c, env) == (db, d);
    RunToEndUnroll(sha, db, c, env);
    RunToEndUnroll(sha, db, d, env);
    var t := Step(sha, db, d, env);
    RunToEndFinished(sha, t.0, t.1, env);
  }

  // The row a mount adds for what its resolve delivered.
  ghost predicate RowOfMount(e: Entry, position: int, s: Reference, r: Resolved) {
    && e.position == position && e.uri == s.uri && e.ref == s.ref
    && e.snapshotId == r.snapshot.snapshotId && e.materializationId == r.materialization.materializationId
    && e.contentHash == r.materialization.contentHash
  }

  // mounted is what a mount of s makes of the outcome of its resolve.
  ghost predicate MountOf(
    runId: Str, s: Reference, resolved: (Db, Result<Outcome>), mounted: (Db, Result<Outcome>))
  {
    match resolved.1
    case Err(e) => mounted == (resolved.0, Err(e))
    case Ok(o) =>
      && o.GotResolve? && mounted.1.Ok? && mounted.1.value.GotMount? && mounted.1.value.runId == runId
      && mounted.1.value.resolved == o.resolved
      && RowOfMount(mounted.1.value.entry, |ListMounts(resolved.0, runId)|, s, o.resolved)
      && mounted.0 == resolved.0.(
           mounts := resolved.0.mounts[runId := ListMounts(resolved.0, runId) + [mounted.1.value.entry]])
  }

  // A mount that has passed its look at the run, whatever becomes of the run since then.
  lemma PastTheCheck(sha: Sha, db: Db, runId: Str, raw: Str, s: Reference, env: Env)
    requires DbOk(sha, db) && runId in db.runs && !env.fail && SplitRef(raw) == Some(s)
    ensures var (t, c) := RunToEnd(sha, db, AtResourceGet(Job(IntoRun(runId), s.uri, s.ref)), env);
            && DbOk(sha, t) && Extends(db, t)
            && MountOf(runId, s, Call(sha, db, Resolve(raw), env), (t, c.result))
            && ListMounts(db, runId) <= ListMounts(Call(sha, db, Resolve(raw), env).0, runId)
  {
    hide DbOk;
    hide Extends;
    hide ClientOk;
    hide InFlight;
    hide SplitRef;
    hide Step;
    hide RunToEnd;
    var alone, job := Job(JustResolve, s.uri, s.ref), Job(IntoRun(runId), s.uri, s.ref);
    assert Begin(Resolve(raw)) == AtResourceGet(alone);
    CheckedOk(sha, db, alone);
    CheckedOk(sha, db, job);
    ResolveForMount(sha, db, AtResourceGet(alone), job, env);
    RunToEndKeeps(sha, db, AtResourceGet(job), env);
    RunToEndKeeps(sha, db, AtResourceGet(alone), env);
    var (t, c) := RunToEnd(sha, db, AtResourceGet(alone), env);
    RunsStay(db, t, runId);
    MountsOfRun(sha, db, runId);
    StillMounted(db, t, runId);
    if c.result.Ok? {
      AppendGoesThrough(sha, t, runId, job, c.result.value.resolved, env);
    } else {
      RunToEndFinished(sha, t, Onward(job, c.result), env);
    }
  }

  lemma CheckedOk(sha: Sha, db: Db, job: Job)
    requires job.purpose.IntoRun? ==> job.purpose.runId in db.runs
    ensures ClientOk(sha, db, AtResourceGet(job))
  {
  }

  lemma MountFollows(sha: Sha, db: Db, runId: Str, raw: Str, s: Reference, env: Env)
    requires DbOk(sha, db) && IsOpen(db, runId) && !env.fail && SplitRef(raw) == Some(s)
    ensures MountOf(runId, s, Call(sha, db, Resolve(raw), env), Call(sha, db, Mount(runId, raw), env))
  {
    hide DbOk;
    hide SplitRef;
    hide RunToEnd;
    hide MountOf;
    var job := Job(IntoRun(runId), s.uri, s.ref);
    assert Begin(Mount(runId, raw)) == AtMountRunGet(runId, job);
    MountBegins(sha, db, runId, job, env);
    PastTheCheck(sha, db, runId, raw, s, env);
  }

  lemma ResolveLeavesMounts(sha: Sha, db: Db, runId: Str, raw: Str, s: Reference, env: Env)
    requires DbOk(sha, db) && IsOpen(db, runId) && !env.fail && SplitRef(raw) == Some(s)
    ensures Call(sha, db, Resolve(raw), env).1.Ok? ==>
              ListMounts(Call(sha, db, Resolve(raw), env).0, runId) == ListMounts(db, runId)
  {
    hide DbOk;
    hide Call;
    hide RowOfMount;
    hide SplitRef;
    MountFollows(sha, db, runId, raw, s, env);
    MountEffect(sha, db, runId, raw, env);
    var resolved, mounted := Call(sha, db, Resolve(raw), env), Call(sha, db, Mount(runId, raw), env);
    if resolved.1.Ok? {
      var e := [mounted.1.value.entry];
      var x, y := ListMounts(resolved.0, runId), ListMounts(db, runId);
      assert x + e == y + e;
      assert x == (x + e)[..|x|] && y == (y + e)[..|y|];
    }
  }

  lemma MountRefused(sha: Sha, db: Db, runId: Str, raw: Str, env: Env)
    requires !env.fail
    ensures SplitRef(raw).None? ==>
              && Call(sha, db, Mount(runId, raw), env) == (db, Err(InvalidReference))
              && Call(sha, db, Resolve(raw), env) == (db, Err(InvalidReference))
    ensures SplitRef(raw).Some? && runId !in db.runs ==>
              Call(sha, db, Mount(runId, raw), env) == (db, Err(RunNotFound))
    ensures SplitRef(raw).Some? && runId in db.runs && db.runs[runId].committed ==>
              Call(sha, db, Mount(runId, raw), env) == (db, Err(AlreadyCommitted(db.runs[runId].manifestId)))
  {
    hide SplitRef;
    if SplitRef(raw).Some? && !IsOpen(db, runId) {
      var s := SplitRef(raw).value;
      RunToEndUnroll(sha, db, AtMountRunGet(runId, Job(IntoRun(runId), s.uri, s.ref)), env);
    }
  }

  // MAIN RESULT. Every uninterrupted mount: a malformed reference, an unknown run and a
  // committed one are refused in that order and change nothing; into an open run it is
  // accepted exactly when the resolve it makes succeeds, delivers what that delivers, and
  // adds the row for it behind the rows there are.
  lemma MountAcceptedIff(sha: Sha, db: Db, runId: Str, raw: Str, env: Env)
    requires DbOk(sha, db) && !env.fail
    ensures var resolved, mounted := Call(sha, db, Resolve(raw), env), Call(sha, db, Mount(runId, raw), env);
            if SplitRef(raw).None? then mounted == resolved == (db, Err(InvalidReference))
            else if runId !in db.runs then mounted == (db, Err(RunNotFound))
            else if db.runs[runId].committed then mounted == (db, Err(AlreadyCommitted(db.runs[runId].manifestId)))
            else
              && MountOf(runId, SplitRef(raw).value, resolved, mounted)
              && (resolved.1.Ok? ==> ListMounts(resolved.0, runId) == ListMounts(db, runId))
  {
    hide DbOk;
    hide SplitRef;
    hide Call;
    hide MountOf;
    MountRefused(sha, db, runId, raw, env);
    if SplitRef(raw).Some? && IsOpen(db, runId) {
      MountFollows(sha, db, runId, raw, SplitRef(raw).value, env);
      ResolveLeavesMounts(sha, db, runId, raw, SplitRef(raw).value, env);
    }
  }

  lemma RunsStay(s: Db, t: Db, runId: Str)
    requires Extends(s, t) && runId in s.runs
    ensures runId in t.runs
  {
  }

  lemma StillMounted(s: Db, t: Db, runId: Str)
    requires Extends(s, t) && runId in s.mounts
    ensures ListMounts(s, runId) <= ListMounts(t, runId)
  {
  }

  /******* Mounts into a stranded run *******/

  lemma ManifestsFixed(sha: Sha, s: Db, t: Db, runId: Str, id: Str)
    requires DbOk(sha, s) && DbOk(sha, t) && Extends(s, t) && runId in s.byRun && HasManifest(t, runId, id)
    ensures id in s.manifests && t.manifests[id] == s.manifests[id]
  {
    assert t.byRun[runId] == s.byRun[runId] && t.byRun[runId] == id;
  }

  // MAIN RESULT. Whatever follows once a run is stranded, it accepts every mount that
  // resolves, and its manifest stays the one it has now: no manifest lists those mounts.
  lemma StrandedMountsAreLost(
    sha: Sha, s: System, actions: seq<Action>, runId: Str, raw: Str, env: Env, id: Str)
    requires SystemOk(sha, s) && Stranded(s, runId) && !env.fail
    ensures var t := Exec(sha, s, actions);
            && Stranded(t, runId)
            && (Call(sha, t.db, Mount(runId, raw), env).1.Ok? <==> Call(sha, t.db, Resolve(raw), env).1.Ok?)
            && (HasManifest(t.db, runId, id) ==> id in s.db.manifests && t.db.manifests[id] == s.db.manifests[id])
  {
    hide DbOk;
    hide Extends;
    hide Exec;
    hide Call;
    StrandedForever(sha, s, actions, runId);
    ExecKeeps(sha, s, actions);
    var t := Exec(sha, s, actions);
    MountAcceptedIff(sha, t.db, runId, raw, env);
    if HasManifest(t.db, runId, id) {
      ManifestsFixed(sha, s.db, t.db, runId, id);
    }
  }

  /******* Mounts that race a commit *******/

  // A commit of runId that read these rows and has not failed.
  ghost predicate Committing(c: Client, runId: Str, rows: seq<Entry>) {
    match c
    case AtManifestCreate(r, entries) => r == runId && entries == rows
    case AtMarkCommitted(r, m) => r == runId && m.runId == runId && m.entries == rows
    case Finished(result) => result.Ok? ==>
      result.value.GotManifest? && result.value.manifest.runId == runId && result.value.manifest.entries == rows
    case _ => false
  }

  lemma CommittingStep(sha: Sha, db: Db, c: Client, env: Env, runId: Str, rows: seq<Entry>)
    requires Committing(c, runId, rows)
    ensures Committing(Step(sha, db, c, env).1, runId, rows)
  {
    hide CreateManifest;
    hide ResolveStep;
  }

  lemma {:induction false} CommittingStays(
    sha: Sha, s: System, actions: seq<Action>, k: nat, runId: Str, rows: seq<Entry>)
    requires k in s.clients && Committing(s.clients[k], runId, rows)
    ensures var t := Exec(sha, s, actions); k in t.clients && Committing(t.clients[k], runId, rows)
    decreases |actions|
  {
    hide Step;
    hide Committing;
    hide Begin;
    if actions != [] {
      if actions[0].Advance? {
        CommittingStep(sha, s.db, s.clients[k], actions[0].env, runId, rows);
      }
      CommittingStays(sha, Act(sha, s, actions[0]), actions[1..], k, runId, rows);
    }
  }

  // The manifest call k returned, and a mount call j acknowledged, for one run.
  ghost predicate BothDone(t: System, k: nat, j: nat, runId: Str) {
    && k in t.clients && t.clients[k].Finished? && t.clients[k].result.Ok? && t.clients[k].result.value.GotManifest?
    && j in t.clients && t.clients[j].Finished? && t.clients[j].result.Ok? && t.clients[j].result.value.GotMount?
    && t.clients[j].result.value.runId == runId
  }

  lemma InPrefix(rows: seq<Entry>, all: seq<Entry>, e: Entry)
    requires rows <= all && Dense(all) && 0 <= e.position < |all| && all[e.position] == e
    ensures e in rows <==> e.position < |rows|
  {
    if e in rows {
      var i :| 0 <= i < |rows| && rows[i] == e;
      assert all[i] == e;
    }
  }

  lemma MountsDenseIn(sha: Sha, db: Db, runId: Str)
    requires DbOk(sha, db)
    ensures Dense(ListMounts(db, runId))
  {
  }

  // The mount that added this row to this run.
  ghost predicate Mounted(c: Client, runId: Str, e: Entry) {
    && c.Finished? && c.result.Ok? && c.result.value.GotMount?
    && c.result.value.runId == runId && c.result.value.entry == e
  }

  lemma ResolveNeverMounts(sha: Sha, db: Db, c: Client, env: Env, runId: Str, e: Entry)
    requires Resolving(c)
    ensures !Mounted(ResolveStep(sha, db, c, env).1, runId, e)
  {
    hide PutBlob;
    hide CreateSnapshot;
    hide SetCurrent;
    hide CreateMaterialization;
    hide Evaluate;
  }

  lemma AppendPosition(sha: Sha, db: Db, c: Client)
    requires c.AtMountAppend? && ClientOk(sha, db, c)
    ensures 0 <= c.entry.position <= |ListMounts(db, c.runId)|
  {
  }

  lemma AppendRefused(db: Db, c: Client, env: Env, runId: Str, e: Entry)
    requires c.AtMountAppend? && Dense(ListMounts(db, c.runId))
    requires 0 <= c.entry.position <= |ListMounts(db, c.runId)| && MountRecorded(db, runId, e)
    ensures !Mounted(RunStep(db, c, env).1, runId, e)
  {
    if c.runId == runId && c.entry == e {
      InsertDense(ListMounts(db, runId), e);
    }
  }

  lemma OthersNeverMount(db: Db, c: Client, env: Env, runId: Str, e: Entry)
    requires 0 < Remaining(c) <= 8 || Remaining(c) == 20
    requires !c.AtMountAppend?
    ensures !Mounted(RunStep(db, c, env).1, runId, e)
  {
    hide CreateManifest;
    hide CreateResource;
    hide StartRun;
    hide MarkCommitted;
  }

  // A row is added once: no other call can be told that it added it.
  lemma StepNeverMounts(sha: Sha, db: Db, c: Client, env: Env, runId: Str, e: Entry)
    requires DbOk(sha, db) && ClientOk(sha, db, c) && MountRecorded(db, runId, e) && !Mounted(c, runId, e)
    ensures !Mounted(Step(sha, db, c, env).1, runId, e)
  {
    hide DbOk;
    hide ClientOk;
    hide MountRecorded;
    hide ResolveStep;
    hide RunStep;
    if c.Finished? || env.fail {
    } else if Resolving(c) {
      ResolveNeverMounts(sha, db, c, env, runId, e);
    } else if c.AtMountAppend? {
      MountsDenseIn(sha, db, c.runId);
      AppendPosition(sha, db, c);
      AppendRefused(db, c, env, runId, e);
    } else {
      OthersNeverMount(db, c, env, runId, e);
    }
  }

  lemma RecordedStays(s: Db, t: Db, runId: Str, e: Entry)
    requires Extends(s, t) && MountRecorded(s, runId, e)
    ensures MountRecorded(t, runId, e)
  {
  }

  ghost predicate HasMounted(s: System, j: nat, runId: Str, e: Entry) {
    j in s.clients && Mounted(s.clients[j], runId, e)
  }

  lemma ActNeverMounts(sha: Sha, s: System, a: Action, j: nat, runId: Str, e: Entry)
    requires SystemOk(sha, s) && MountRecorded(s.db, runId, e) && !HasMounted(s, j, runId, e)
    ensures !HasMounted(Act(sha, s, a), j, runId, e)
  {
    hide DbOk;
    hide ClientOk;
    hide MountRecorded;
    hide Step;
    if a.Advance? && a.id == j && j in s.clients {
      StepNeverMounts(sha, s.db, s.clients[j], a.env, runId, e);
    }
  }

  lemma {:induction false} RowIsTaken(sha: Sha, s: System, actions: seq<Action>, j: nat, runId: Str, e: Entry)
    requires SystemOk(sha, s) && MountRecorded(s.db, runId, e) && !HasMounted(s, j, runId, e)
    ensures !HasMounted(Exec(sha, s, actions), j, runId, e)
    decreases |actions|
  {
    hide SystemOk;
    hide MountRecorded;
    hide HasMounted;
    hide Extends;
    hide Act;
    if actions != [] {
      ActKeeps(sha, s, actions[0]);
      ActNeverMounts(sha, s, actions[0], j, runId, e);
      RecordedStays(s.db, Act(sha, s, actions[0]).db, runId, e);
      RowIsTaken(sha, Act(sha, s, actions[0]), actions[1..], j, runId, e);
    }
  }

  // What a mount has been told by the end was already recorded exactly if it had been
  // told so by then.
  lemma RecordedIffAcknowledged(sha: Sha, s: System, actions: seq<Action>, j: nat, runId: Str, e: Entry)
    requires SystemOk(sha, s) && HasMounted(Exec(sha, s, actions), j, runId, e)
    ensures MountRecorded(s.db, runId, e) <==> HasMounted(s, j, runId, e)
  {
    hide DbOk;
    hide Exec;
    hide MountRecorded;
    if HasMounted(s, j, runId, e) {
      assert ClientOk(sha, s.db, s.clients[j]);
    } else if MountRecorded(s.db, runId, e) {
      RowIsTaken(sha, s, actions, j, runId, e);
    }
  }

  // MAIN RESULT. However mounts, commits and everything else of a run interleave, a mount
  // that was acknowledged is in the manifest a commit returns exactly if it had been
  // acknowledged by the time that commit listed the mounts.
  lemma ListedIff(
    sha: Sha, before: seq<Action>, after: seq<Action>, k: nat, j: nat, runId: Str, env: Env)
    requires var s := Exec(sha, INITIAL, before);
             k in s.clients && s.clients[k] == AtCommitList(runId) && !env.fail
    requires BothDone(Exec(sha, Exec(sha, INITIAL, before), [Advance(k, env)] + after), k, j, runId)
    ensures var s := Exec(sha, INITIAL, before);
            var t := Exec(sha, s, [Advance(k, env)] + after);
            var entry, m := t.clients[j].result.value.entry, t.clients[k].result.value.manifest;
            && m.runId == runId && m.entries == ListMounts(s.db, runId)
            && (entry in m.entries <==> HasMounted(s, j, runId, entry))
  {
    hide DbOk;
    hide Extends;
    hide ClientOk;
    var s := Exec(sha, INITIAL, before);
    var rows := ListMounts(s.db, runId);
    var first := Act(sha, s, Advance(k, env));
    Reachable(sha, before);
    RunHasMounts(sha, s, k, runId);
    assert Step(sha, s.db, s.clients[k], env) == (s.db, AtManifestCreate(runId, rows));
    assert ([Advance(k, env)] + after)[1..] == after;
    CommittingStays(sha, first, after, k, runId, rows);
    ExecKeeps(sha, s, [Advance(k, env)] + after);
    var t := Exec(sha, s, [Advance(k, env)] + after);
    hide Exec;
    ListedInPrefix(sha, s.db, t.db, runId, t.clients[j]);
    RecordedIffAcknowledged(sha, s, [Advance(k, env)] + after, j, runId, t.clients[j].result.value.entry);
  }

  lemma ListedInPrefix(sha: Sha, s: Db, t: Db, runId: Str, c: Client)
    requires DbOk(sha, t) && Extends(s, t) && runId in s.mounts && ClientOk(sha, t, c)
    requires c.Finished? && c.result.Ok? && c.result.value.GotMount? && c.result.value.runId == runId
    ensures var entry := c.result.value.entry;
            entry in ListMounts(s, runId) <==> MountRecorded(s, runId, entry)
  {
    hide DbOk;
    hide Extends;
    var entry := c.result.value.entry;
    assert MountRecorded(t, runId, entry);
    StillMounted(s, t, runId);
    MountsDenseIn(sha, t, runId);
    InPrefix(ListMounts(s, runId), ListMounts(t, runId), entry);
  }

  lemma RunHasMounts(sha: Sha, s: System, k: nat, runId: Str)
    requires SystemOk(sha, s) && k in s.clients && s.clients[k] == AtCommitList(runId)
    ensures runId in s.db.mounts
  {
    assert ClientOk(sha, s.db, s.clients[k]);
  }

  lemma TooLate(rows: seq<Entry>, e: Entry)
    requires Dense(rows) && e.position >= |rows|
    ensures e !in rows
  {
    forall i | 0 <= i < |rows| ensures rows[i] != e {
      assert rows[i].position == i;
    }
  }

  // The mount looks at the run, then the whole commit happens.
  lemma CommitOvertakes(sha: Sha, s: System, k: nat, j: nat, runId: Str, raw: Str, r: Reference, env: Env)
    returns (actions: seq<Action>)
    requires k !in s.clients && j !in s.clients && k != j && !env.fail && SplitRef(raw) == Some(r)
    requires SystemOk(sha, s) && IsOpen(s.db, runId) && runId !in s.db.byRun
    requires NewId(MANIFEST, env.manifestUlid) !in s.db.manifests
    ensures var m := NewManifest(s.db, runId, env);
            var t := Exec(sha, s, actions);
            && t.db == Call(sha, s.db, Commit(runId), env).0
            && k in t.clients && t.clients[k] == Finished(Ok(GotManifest(m)))
            && j in t.clients && t.clients[j] == AtResourceGet(Job(IntoRun(runId), r.uri, r.ref))
  {
    hide DbOk;
    hide ClientOk;
    hide RunToEnd;
    hide SplitRef;
    hide Exec;
    var job := Job(IntoRun(runId), r.uri, r.ref);
    var s1 := Act(sha, s, Arrive(j, Mount(runId, raw)));
    var s2 := Act(sha, s1, Advance(j, env));
    assert s1.clients[j] == AtMountRunGet(runId, job);
    assert Step(sha, s.db, AtMountRunGet(runId, job), env) == (s.db, AtResourceGet(job));
    var s3 := Act(sha, s2, Arrive(k, Commit(runId)));
    var rest := RunToEndIsExec(sha, s3, k, env);
    actions := [Arrive(j, Mount(runId, raw)), Advance(j, env), Arrive(k, Commit(runId))] + rest;
    assert actions[1..][1..] == actions[2..] && actions[2..][1..] == rest;
    ExecStep(sha, s, actions, s1);
    ExecStep(sha, s1, actions[1..], s2);
    ExecStep(sha, s2, actions[2..], s3);
    CommitSucceedsIff(sha, s.db, runId, env);
  }

  lemma OnlySplitResolves(sha: Sha, db: Db, raw: Str, env: Env)
    requires Call(sha, db, Resolve(raw), env).1.Ok?
    ensures SplitRef(raw).Some?
  {
  }

  // MAIN RESULT. Such a mount exists whenever a run is open and without a manifest: if a
  // commit takes place after a mount looked at the run and before it resolved, and the
  // resolve then succeeds, the mount is acknowledged although the run is committed by
  // then, and no manifest of the run lists it.
  lemma OvertakenMountIsLost(sha: Sha, s: System, k: nat, j: nat, runId: Str, raw: Str, env: Env)
    returns (actions: seq<Action>)
    requires k !in s.clients && j !in s.clients && k != j && !env.fail
    requires SystemOk(sha, s) && IsOpen(s.db, runId) && runId !in s.db.byRun
    requires NewId(MANIFEST, env.manifestUlid) !in s.db.manifests
    requires Call(sha, Call(sha, s.db, Commit(runId), env).0, Resolve(raw), env).1.Ok?
    ensures var t := Exec(sha, s, actions);
            && BothDone(t, k, j, runId) && runId in t.db.runs && t.db.runs[runId].committed
            && forall id | HasManifest(t.db, runId, id) ::
                 t.clients[j].result.value.entry !in t.db.manifests[id].entries
  {
    hide DbOk;
    hide ClientOk;
    hide Extends;
    hide RunToEnd;
    hide SplitRef;
    hide Exec;
    OnlySplitResolves(sha, Call(sha, s.db, Commit(runId), env).0, raw, env);
    var r := SplitRef(raw).value;
    var early := CommitOvertakes(sha, s, k, j, runId, raw, r, env);
    var u := Exec(sha, s, early);
    ExecKeeps(sha, s, early);
    CommitSucceedsIff(sha, s.db, runId, env);
    var late := RunToEndIsExec(sha, u, j, env);
    actions := early + late;
    ExecConcat(sha, s, early, late);
    PastTheCheck(sha, u.db, runId, raw, r, env);
    var t := Exec(sha, s, actions);
    ExecKeeps(sha, u, late);
    assert Extends(u.db, t.db);
    NoManifestLists(sha, s.db, u.db, t.db, runId, NewManifest(s.db, runId, env), t.clients[j].result.value.entry);
  }

  lemma NoManifestLists(sha: Sha, s: Db, u: Db, t: Db, runId: Str, m: Manifest, entry: Entry)
    requires DbOk(sha, s) && DbOk(sha, t) && Extends(u, t) && runId in u.runs && u.runs[runId].committed
    requires m.manifestId in u.manifests && u.manifests[m.manifestId] == m && m.runId == runId
    requires m.entries == ListMounts(s, runId) && entry.position >= |ListMounts(s, runId)|
    ensures runId in t.runs && t.runs[runId].committed
    ensures forall id | HasManifest(t, runId, id) :: entry !in t.manifests[id].entries
  {
    hide DbOk;
    MountsDenseIn(sha, s, runId);
    TooLate(m.entries, entry);
    CommittedStays(u, t, runId, m);
    OneManifest(sha, t, runId);
  }

  lemma CommittedStays(s: Db, t: Db, runId: Str, m: Manifest)
    requires Extends(s, t) && runId in s.runs && s.runs[runId].committed
    requires m.manifestId in s.manifests && s.manifests[m.manifestId] == m && m.runId == runId
    ensures runId in t.runs && t.runs[runId].committed
    ensures HasManifest(t, runId, m.manifestId) && t.manifests[m.manifestId] == m
  {
  }

  // One resource and one open run.
  function Prepared(uri: Str, policy: Policy, runId: Str): Db {
    EMPTY.(resources := map[uri := Resource(StoredPolicy(policy), [])],
           runs := map[runId := Run(false, [])], mounts := map[runId := []])
  }

  lemma Prepares(sha: Sha, uri: Str, policy: Policy, runId: Str, env: Env) returns (actions: seq<Action>)
    requires !env.fail && policy.strategy != Unknown
    ensures var done := Finished(Ok(Done));
            Exec(sha, INITIAL, actions) == System(Prepared(uri, policy, runId), map[0 := done, 1 := done])
  {
    hide StoredPolicy;
    hide Exec;
    actions := [Arrive(0, Register(uri, policy)), Advance(0, env), Arrive(1, Start(runId)), Advance(1, env)];
    var done := Finished(Ok(Done));
    var registered := EMPTY.(resources := map[uri := Resource(StoredPolicy(policy), [])]);
    var s1 := System(EMPTY, map[0 := AtResourceCreate(uri, policy)]);
    var s2 := System(registered, map[0 := done]);
    var s3 := System(registered, map[0 := done, 1 := AtRunStart(runId)]);
    var s4 := System(Prepared(uri, policy, runId), map[0 := done, 1 := done]);
    assert actions[1..][1..] == actions[2..] && actions[2..][1..] == actions[3..] && actions[3..][1..] == [];
    ExecStep(sha, INITIAL, actions, s1);
    ExecStep(sha, s1, actions[1..], s2);
    ExecStep(sha, s2, actions[2..], s3);
    ExecStep(sha, s3, actions[3..], s4);
    ExecNone(sha, s4);
  }

  // A resource that must be fresh resolves whenever its source answers, here after the
  // commit of an empty run.
  lemma ResolvesAfterCommit(sha: Sha, uri: Str, runId: Str, fetched: Fetched, env: Env)
    requires !env.fail && SplitRef(uri) == Some(Reference(uri, [])) && env.fetch == Some(fetched)
    requires DbOk(sha, Prepared(uri, Policy(RequireFresh, 0, []), runId))
    ensures var db := Prepared(uri, Policy(RequireFresh, 0, []), runId);
            Call(sha, Call(sha, db, Commit(runId), env).0, Resolve(uri), env).1.Ok?
  {
    var db := Prepared(uri, Policy(RequireFresh, 0, []), runId);
    assert IsOpen(db, runId) && runId !in db.byRun && db.manifests == map[];
    hide DbOk;
    hide Call;
    hide SplitRef;
    hide StoredPolicy;
    hide Due;
    hide AfterFetch;
    CommitSucceedsIff(sha, db, runId, env);
    CommitKeeps(sha, db, runId, env);
    var t := Call(sha, db, Commit(runId), env).0;
    NewResourceIsDue(t, uri, Policy(RequireFresh, 0, []), env.now);
    DueResolveFetches(sha, t, uri, Reference(uri, []), env);
  }

  lemma CommitKeeps(sha: Sha, db: Db, runId: Str, env: Env)
    requires DbOk(sha, db)
    ensures DbOk(sha, Call(sha, db, Commit(runId), env).0)
  {
    BeginOk(sha, db, Commit(runId));
    RunToEndKeeps(sha, db, Begin(Commit(runId)), env);
  }

  // And it happens from the very start, with four calls.
  lemma LostMountReachable(sha: Sha, uri: Str, runId: Str, fetched: Fetched, env: Env) returns (actions: seq<Action>)
    requires !env.fail && SplitRef(uri) == Some(Reference(uri, [])) && env.fetch == Some(fetched)
    ensures var t := Exec(sha, INITIAL, actions);
            && BothDone(t, 2, 3, runId) && runId in t.db.runs && t.db.runs[runId].committed
            && forall id | HasManifest(t.db, runId, id) ::
                 t.clients[3].result.value.entry !in t.db.manifests[id].entries
  {
    hide DbOk;
    hide ClientOk;
    hide Exec;
    hide Call;
    hide SplitRef;
    hide StoredPolicy;
    hide BothDone;
    var policy := Policy(RequireFresh, 0, []);
    var before := Prepares(sha, uri, policy, runId, env);
    Reachable(sha, before);
    var s := Exec(sha, INITIAL, before);
    ResolvesAfterCommit(sha, uri, runId, fetched, env);
    var rest := OvertakenMountIsLost(sha, s, 2, 3, runId, uri, env);
    ExecConcat(sha, INITIAL, before, rest);
    actions := before + rest;
  }
}
