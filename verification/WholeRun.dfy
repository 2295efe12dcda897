/**
  Builder.Run: start, mount every uri in order, commit, stopping at the first
  error. What a run that succeeds has recorded, and what one that fails leaves.
 */
module WholeRun {
  import opened ByteStrings
  import opened References
  import opened Database
  import opened Clients
  import opened Invariants
  import opened Replay
  import opened Interleaving
  import opened Lifecycle
  import opened PartialCommit

  function RunAll(sha: Sha, db: Db, runId: Str, uris: seq<Str>, envs: seq<Env>): (Db, Result<Outcome>)
    requires |envs| == |uris| + 2
  {
    var (db', started) := Call(sha, db, Start(runId), envs[0]);
    if started.Err? then (db', started) else MountsThenCommit(sha, db', runId, uris, envs[1..])
  }

  function MountsThenCommit(sha: Sha, db: Db, runId: Str, uris: seq<Str>, envs: seq<Env>): (Db, Result<Outcome>)
    requires |envs| == |uris| + 1
    decreases |uris|
  {
    if uris == [] then Call(sha, db, Commit(runId), envs[0])
    else
      var (db', mounted) := Call(sha, db, Mount(runId, uris[0]), envs[0]);
      if mounted.Err? then (db', mounted) else MountsThenCommit(sha, db', runId, uris[1..], envs[1..])
  }

  /******* One mount *******/

  // A mount of job into a run that has rows, somewhere between its first check and its end.
  ghost predicate Mounting(c: Client, runId: Str, job: Job, rows: seq<Entry>) {
    if c.AtMountList? then c.runId == runId && c.job == job
    else if c.AtMountAppend? then c.runId == runId && RowFor(job, c.entry) && c.entry.position == |rows|
    else if c.Finished? then c.result.Err?
    else 8 < Remaining(c) < 20 && c.job == job
  }

  ghost predicate RowFor(job: Job, e: Entry) {
    e.uri == job.uri && e.ref == job.ref
  }

  ghost predicate Mounted(r: (Db, Client), runs: map<Str, Run>, runId: Str, job: Job, rows: seq<Entry>) {
    && r.0.runs == runs && r.1.Finished?
    && if r.1.result.Ok?
       then r.1.result.value.GotMount? && RowFor(job, r.1.result.value.entry) &&
            ListMounts(r.0, runId) == rows + [r.1.result.value.entry]
       else ListMounts(r.0, runId) == rows
  }

  lemma ResolveCarriesJob(sha: Sha, db: Db, c: Client, env: Env)
    requires 8 < Remaining(c) < 20
    requires c.job.purpose.IntoRun?
    ensures var c' := ResolveStep(sha, db, c, env).1;
            || (c'.Finished? && c'.result.Err?)
            || (c'.AtMountList? && c'.runId == c.job.purpose.runId && c'.job == c.job)
            || (8 < Remaining(c') < 20 && c'.job == c.job)
  {
    hide PutBlob;
    hide CreateSnapshot;
    hide CreateMaterialization;
    hide Evaluate;
  }

  lemma MountingStep(sha: Sha, db: Db, c: Client, env: Env, runId: Str, job: Job, rows: seq<Entry>)
    requires Mounting(c, runId, job, rows) && job.purpose == IntoRun(runId) && ListMounts(db, runId) == rows
    requires !env.fail && !c.Finished? && !c.AtMountAppend?
    ensures var r := Step(sha, db, c, env);
            r.0.runs == db.runs && ListMounts(r.0, runId) == rows && Mounting(r.1, runId, job, rows)
  {
    hide ResolveStep;
    if !c.AtMountList? {
      ResolveLeavesRuns(sha, db, c, env);
      ResolveCarriesJob(sha, db, c, env);
    }
  }

  lemma AppendStep(sha: Sha, db: Db, c: Client, env: Env, runId: Str, job: Job, rows: seq<Entry>)
    requires DbOk(sha, db) && ClientOk(sha, db, c) && !env.fail
    requires c.AtMountAppend? && Mounting(c, runId, job, rows) && ListMounts(db, runId) == rows
    ensures Mounted(Step(sha, db, c, env), db.runs, runId, job, rows)
  {
    hide DbOk;
    hide ResolveStep;
    if AppendMount(db, c.runId, c.entry).Ok? {
      AppendMountOk(sha, db, c.runId, c.entry);
    }
  }

  lemma {:induction false} MountingEnds(
    sha: Sha, db: Db, c: Client, env: Env, runId: Str, job: Job, rows: seq<Entry>)
    requires DbOk(sha, db) && ClientOk(sha, db, c) && !env.fail
    requires Mounting(c, runId, job, rows) && job.purpose == IntoRun(runId) && ListMounts(db, runId) == rows
    ensures Mounted(RunToEnd(sha, db, c, env), db.runs, runId, job, rows)
    decreases Remaining(c)
  {
    hide DbOk;
    hide ClientOk;
    hide Step;
    if !c.Finished? {
      var r := Step(sha, db, c, env);
      assert RunToEnd(sha, db, c, env) == RunToEnd(sha, r.0, r.1, env);
      if c.AtMountAppend? {
        AppendStep(sha, db, c, env, runId, job, rows);
      } else {
        MountingStep(sha, db, c, env, runId, job, rows);
        StepKeeps(sha, db, c, env);
        StepDecreases(sha, db, c, env);
        MountingEnds(sha, r.0, r.1, env, runId, job, rows);
      }
    }
  }

  lemma MountBegins(sha: Sha, db: Db, runId: Str, job: Job, env: Env)
    requires IsOpen(db, runId) && !env.fail && job.purpose == IntoRun(runId)
    ensures RunToEnd(sha, db, AtMountRunGet(runId, job), env) == RunToEnd(sha, db, AtResourceGet(job), env)
    ensures ClientOk(sha, db, AtResourceGet(job))
  {
    assert Step(sha, db, AtMountRunGet(runId, job), env) == (db, AtResourceGet(job));
  }

  // A mount into an open run adds one row for the reference it was given, or none.
  lemma MountEffect(sha: Sha, db: Db, runId: Str, raw: Str, env: Env)
    requires DbOk(sha, db) && IsOpen(db, runId) && !env.fail
    ensures var (t, r) := Call(sha, db, Mount(runId, raw), env);
            && t.runs == db.runs
            && (r.Err? ==> ListMounts(t, runId) == ListMounts(db, runId))
            && (r.Ok? ==> && r.value.GotMount?
                          && SplitRef(raw) == Some(Reference(r.value.entry.uri, r.value.entry.ref))
                          && ListMounts(t, runId) == ListMounts(db, runId) + [r.value.entry])
  {
    hide DbOk;
    hide ClientOk;
    hide SplitRef;
    if SplitRef(raw).Some? {
      hide RunToEnd;
      var s := SplitRef(raw).value;
      var job := Job(IntoRun(runId), s.uri, s.ref);
      assert Begin(Mount(runId, raw)) == AtMountRunGet(runId, job);
      MountBegins(sha, db, runId, job, env);
      MountingEnds(sha, db, AtResourceGet(job), env, runId, job, ListMounts(db, runId));
    }
  }

  /******* The whole run *******/

  ghost predicate EntryRefersTo(e: Entry, raw: Str) {
    SplitRef(raw) == Some(Reference(e.uri, e.ref))
  }

  // rows, with one entry more for each uri in turn.
  ghost predicate ReadInOrder(rows: seq<Entry>, entries: seq<Entry>, uris: seq<Str>) {
    && |entries| == |rows| + |uris| && rows <= entries
    && forall i | 0 <= i < |uris| :: EntryRefersTo(entries[|rows| + i], uris[i])
  }

  predicate AllUp(envs: seq<Env>) {
    forall i | 0 <= i < |envs| :: !envs[i].fail
  }

  ghost predicate CommittedAs(db: Db, runId: Str, m: Manifest) {
    && runId in db.runs && db.runs[runId] == Run(true, m.manifestId)
    && m.manifestId in db.manifests && db.manifests[m.manifestId] == m && m.runId == runId
  }

  lemma CommitEffect(sha: Sha, db: Db, runId: Str, env: Env)
    requires DbOk(sha, db) && Settled(db) && IsOpen(db, runId) && !env.fail
    ensures var (t, r) := Call(sha, db, Commit(runId), env);
            if r.Ok? then r.value.GotManifest? && r.value.manifest.entries == ListMounts(db, runId)
                          && CommittedAs(t, runId, r.value.manifest)
            else t == db
  {
    hide DbOk;
    hide RunToEnd;
    CommitReaches(sha, db, runId, env);
    CommitWrites(sha, db, runId, env);
    var m := NewManifest(db, runId, env);
    if CreateManifest(db, m).Ok? {
      MountsOfRun(sha, db, runId);
      ManifestStored(sha, db, m);
    }
  }

  lemma {:induction false} MountsThenCommitEffect(sha: Sha, db: Db, runId: Str, uris: seq<Str>, envs: seq<Env>)
    requires DbOk(sha, db) && Settled(db) && IsOpen(db, runId)
    requires |envs| == |uris| + 1 && AllUp(envs)
    ensures var (t, r) := MountsThenCommit(sha, db, runId, uris, envs);
            && DbOk(sha, t) && Settled(t)
            && if r.Ok? then r.value.GotManifest? && CommittedAs(t, runId, r.value.manifest)
                             && ReadInOrder(ListMounts(db, runId), r.value.manifest.entries, uris)
               else IsOpen(t, runId)
    decreases |uris|
  {
    hide DbOk;
    hide Settled;
    hide Call;
    hide Extends;
    if uris == [] {
      CommitEffect(sha, db, runId, envs[0]);
      CallKeeps(sha, db, Commit(runId), envs[0]);
    } else {
      var op := Mount(runId, uris[0]);
      MountEffect(sha, db, runId, uris[0], envs[0]);
      CallKeeps(sha, db, op, envs[0]);
      var (mid, r) := Call(sha, db, op, envs[0]);
      if r.Ok? {
        MountsThenCommitEffect(sha, mid, runId, uris[1..], envs[1..]);
        var (t, last) := MountsThenCommit(sha, mid, runId, uris[1..], envs[1..]);
        if last.Ok? {
          Prepended(ListMounts(db, runId), r.value.entry, last.value.manifest.entries, uris);
        }
      }
    }
  }

  lemma Prepended(rows: seq<Entry>, e: Entry, entries: seq<Entry>, uris: seq<Str>)
    requires uris != [] && EntryRefersTo(e, uris[0]) && ReadInOrder(rows + [e], entries, uris[1..])
    ensures ReadInOrder(rows, entries, uris)
  {
    forall i | 0 <= i < |uris|
      ensures EntryRefersTo(entries[|rows| + i], uris[i])
    {
      if i == 0 {
        assert entries[|rows|] == (rows + [e])[|rows|];
      } else {
        assert entries[|rows + [e]| + (i - 1)] == entries[|rows| + i] && uris[1..][i - 1] == uris[i];
      }
    }
  }

  lemma CallKeeps(sha: Sha, db: Db, op: Operation, env: Env)
    requires DbOk(sha, db) && Settled(db)
    ensures var t := Call(sha, db, op, env).0; DbOk(sha, t) && Settled(t) && Extends(db, t)
  {
    hide DbOk;
    hide Settled;
    hide Extends;
    hide RunToEnd;
    hide Begin;
    BeginOk(sha, db, op);
    BeginInFlight(db, op);
    RunToEndKeeps(sha, db, Begin(op), env);
  }

  // MAIN RESULT. A run that succeeds is committed with a manifest that lists every
  // uri it was given, in order, at positions 0, 1, 2, ..., and the manifest replays.
  // A run that fails was refused at the start and changed nothing, or stays open
  // with no manifest.
  lemma RunRecordsWhatItRead(sha: Sha, db: Db, runId: Str, uris: seq<Str>, envs: seq<Env>)
    requires DbOk(sha, db) && Settled(db) && |envs| == |uris| + 2 && AllUp(envs)
    ensures var (t, r) := RunAll(sha, db, runId, uris, envs);
            if r.Ok? then
              && runId !in db.runs && r.value.GotManifest? && CommittedAs(t, runId, r.value.manifest)
              && ReadInOrder([], r.value.manifest.entries, uris) && Dense(r.value.manifest.entries)
              && ReplayTarget(sha, t, r.value.manifest.manifestId).Ok?
              && AllMatch(ReplayTarget(sha, t, r.value.manifest.manifestId).value)
            else if runId in db.runs then t == db
            else IsOpen(t, runId) && runId !in t.byRun
  {
    hide DbOk;
    hide Settled;
    hide MountsThenCommit;
    StartEffect(sha, db, runId, envs[0]);
    CallKeeps(sha, db, Start(runId), envs[0]);
    var (s, started) := Call(sha, db, Start(runId), envs[0]);
    if started.Ok? {
      MountsThenCommitEffect(sha, s, runId, uris, envs[1..]);
      var (t, r) := MountsThenCommit(sha, s, runId, uris, envs[1..]);
      if r.Ok? {
        ManifestEntriesOk(sha, t, r.value.manifest.manifestId);
        ManifestReplays(sha, t, r.value.manifest.manifestId);
      } else {
        OpenHasNoManifest(t, runId);
      }
    }
  }

  // A start is refused exactly if the id is taken, and otherwise adds an open run without mounts.
  lemma StartEffect(sha: Sha, db: Db, runId: Str, env: Env)
    requires !env.fail
    ensures Call(sha, db, Start(runId), env) ==
            if runId in db.runs then (db, Err(Conflict))
            else (db.(runs := db.runs[runId := Run(false, [])], mounts := db.mounts[runId := []]), Ok(Done))
  {
    var c := AtRunStart(runId);
    var r := Step(sha, db, c, env);
    assert RunToEnd(sha, db, c, env) == RunToEnd(sha, r.0, r.1, env);
  }

  lemma OpenHasNoManifest(db: Db, runId: Str)
    requires Settled(db) && IsOpen(db, runId)
    ensures runId !in db.byRun
  {
  }

  /******* Where a run stops *******/

  // The calls of a run, one after the other.
  function RunCalls(runId: Str, uris: seq<Str>, envs: seq<Env>): (calls: seq<(Operation, Env)>)
    requires |envs| == |uris| + 2
    ensures |calls| == |uris| + 2 && calls[0] == (Start(runId), envs[0])
    ensures forall i | 0 <= i < |uris| :: calls[i + 1] == (Mount(runId, uris[i]), envs[i + 1])
    ensures calls[|uris| + 1] == (Commit(runId), envs[|uris| + 1])
  {
    seq(|uris| + 2, i requires 0 <= i < |uris| + 2 =>
      (if i == 0 then Start(runId) else if i <= |uris| then Mount(runId, uris[i - 1]) else Commit(runId), envs[i]))
  }

  // Calls up to and including number k are made; those before it succeed; its outcome is r.
  ghost predicate MadeUpTo(
    sha: Sha, db: Db, calls: seq<(Operation, Env)>, k: nat, r: (Db, Result<Outcome>))
  {
    && k < |calls| && r.0 == CallAll(sha, db, calls[..k + 1])
    && r.1 == Call(sha, CallAll(sha, db, calls[..k]), calls[k].0, calls[k].1).1
    && (r.1.Ok? ==> k == |calls| - 1)
    && forall i | 0 <= i < k :: Call(sha, CallAll(sha, db, calls[..i]), calls[i].0, calls[i].1).1.Ok?
  }

  lemma CallAllCons(sha: Sha, db: Db, calls: seq<(Operation, Env)>, k: nat)
    requires k < |calls|
    ensures CallAll(sha, db, calls[..k + 1]) ==
            CallAll(sha, Call(sha, db, calls[0].0, calls[0].1).0, calls[1..][..k])
  {
    hide Call;
    assert calls[..k + 1][1..] == calls[1..][..k];
  }

  lemma OneCallMore(sha: Sha, db: Db, calls: seq<(Operation, Env)>, k: nat, r: (Db, Result<Outcome>))
    requires calls != [] && Call(sha, db, calls[0].0, calls[0].1).1.Ok?
    requires MadeUpTo(sha, Call(sha, db, calls[0].0, calls[0].1).0, calls[1..], k, r)
    ensures MadeUpTo(sha, db, calls, k + 1, r)
  {
    hide Call;
    hide CallAll;
    CallAllCons(sha, db, calls, k + 1);
    CallAllCons(sha, db, calls, k);
    NoCalls(sha, db, calls);
    forall i | 0 <= i < k + 1
      ensures Call(sha, CallAll(sha, db, calls[..i]), calls[i].0, calls[i].1).1.Ok?
    {
      if i > 0 {
        CallAllCons(sha, db, calls, i - 1);
        assert calls[1..][i - 1] == calls[i];
      }
    }
  }

  lemma NoCalls(sha: Sha, db: Db, calls: seq<(Operation, Env)>)
    ensures CallAll(sha, db, calls[..0]) == db
  {
  }

  lemma StopsHere(sha: Sha, db: Db, calls: seq<(Operation, Env)>)
    requires calls != [] && (Call(sha, db, calls[0].0, calls[0].1).1.Ok? ==> |calls| == 1)
    ensures MadeUpTo(sha, db, calls, 0, Call(sha, db, calls[0].0, calls[0].1))
  {
    hide Call;
    CallAllCons(sha, db, calls, 0);
  }

  lemma {:induction false} MountsStop(
    sha: Sha, db: Db, runId: Str, uris: seq<Str>, envs: seq<Env>, calls: seq<(Operation, Env)>) returns (k: nat)
    requires |envs| == |uris| + 1 == |calls|
    requires forall i | 0 <= i < |uris| :: calls[i] == (Mount(runId, uris[i]), envs[i])
    requires calls[|uris|] == (Commit(runId), envs[|uris|])
    ensures MadeUpTo(sha, db, calls, k, MountsThenCommit(sha, db, runId, uris, envs))
    decreases |uris|
  {
    hide Call;
    hide MadeUpTo;
    if uris == [] {
      k := 0;
      StopsHere(sha, db, calls);
    } else {
      var (mid, mounted) := Call(sha, db, Mount(runId, uris[0]), envs[0]);
      if mounted.Err? {
        k := 0;
        StopsHere(sha, db, calls);
      } else {
        var rest := MountsStop(sha, mid, runId, uris[1..], envs[1..], calls[1..]);
        OneCallMore(sha, db, calls, rest, MountsThenCommit(sha, mid, runId, uris[1..], envs[1..]));
        k := rest + 1;
      }
    }
  }

  // MAIN RESULT. A run makes its calls in order, start, mounts, commit, up to the first
  // that fails and no further, and returns what the last one made returned.
  lemma RunStopsAtFirst(sha: Sha, db: Db, runId: Str, uris: seq<Str>, envs: seq<Env>) returns (k: nat)
    requires |envs| == |uris| + 2
    ensures MadeUpTo(sha, db, RunCalls(runId, uris, envs), k, RunAll(sha, db, runId, uris, envs))
  {
    hide Call;
    hide MadeUpTo;
    hide MountsThenCommit;
    hide RunCalls;
    var calls := RunCalls(runId, uris, envs);
    var (mid, started) := Call(sha, db, Start(runId), envs[0]);
    if started.Err? {
      k := 0;
      StopsHere(sha, db, calls);
    } else {
      var rest := MountsStop(sha, mid, runId, uris, envs[1..], calls[1..]);
      OneCallMore(sha, db, calls, rest, MountsThenCommit(sha, mid, runId, uris, envs[1..]));
      k := rest + 1;
    }
  }
}
