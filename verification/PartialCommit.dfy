/**
  Builder.Commit writes the manifest and then marks the run. What a commit does
  when nothing interrupts it, and what remains when it stops in between.
 */
module PartialCommit {
  import opened ByteStrings
  import opened Database
  import opened Clients
  import opened Invariants
  import opened Interleaving
  import opened Lifecycle

  function NewManifest(db: Db, runId: Str, env: Env): (m: Manifest)
    ensures m.manifestId == NewId(MANIFEST, env.manifestUlid) && m.runId == runId
    ensures m.createdAt == env.now && m.entries == ListMounts(db, runId)
  {
    Manifest(NewId(MANIFEST, env.manifestUlid), runId, env.now, ListMounts(db, runId))
  }

  lemma CommitRefused(sha: Sha, db: Db, runId: Str, env: Env)
    requires !env.fail && !IsOpen(db, runId)
    ensures Call(sha, db, Commit(runId), env) ==
            (db, Err(if runId in db.runs then AlreadyCommitted(db.runs[runId].manifestId) else RunNotFound))
  {
    var c := AtCommitRunGet(runId);
    assert RunToEnd(sha, db, c, env) == RunToEnd(sha, db, Step(sha, db, c, env).1, env);
  }

  lemma CommitReaches(sha: Sha, db: Db, runId: Str, env: Env)
    requires !env.fail && IsOpen(db, runId)
    ensures RunToEnd(sha, db, AtCommitRunGet(runId), env) ==
            RunToEnd(sha, db, AtManifestCreate(runId, ListMounts(db, runId)), env)
  {
    var c0, c1 := AtCommitRunGet(runId), AtCommitList(runId);
    assert Step(sha, db, c0, env) == (db, c1);
    assert RunToEnd(sha, db, c0, env) == RunToEnd(sha, db, c1, env);
    assert Step(sha, db, c1, env) == (db, AtManifestCreate(runId, ListMounts(db, runId)));
  }

  lemma CommitWrites(sha: Sha, db: Db, runId: Str, env: Env)
    requires !env.fail && IsOpen(db, runId)
    ensures var m := NewManifest(db, runId, env);
            var created := CreateManifest(db, m);
            RunToEnd(sha, db, AtManifestCreate(runId, ListMounts(db, runId)), env) ==
            if created.Err? then (db, Finished(Err(created.error)))
            else (MarkCommitted(created.value, runId, m.manifestId), Finished(Ok(GotManifest(m))))
  {
    hide CreateManifest;
    hide MarkCommitted;
    var m := NewManifest(db, runId, env);
    var c := AtManifestCreate(runId, ListMounts(db, runId));
    var created := CreateManifest(db, m);
    if created.Err? {
      assert Step(sha, db, c, env) == (db, Finished(Err(created.error)));
    } else {
      assert Step(sha, db, c, env) == (created.value, AtMarkCommitted(runId, m));
      assert RunToEnd(sha, db, c, env) == RunToEnd(sha, created.value, AtMarkCommitted(runId, m), env);
      assert Step(sha, created.value, AtMarkCommitted(runId, m), env) ==
             (MarkCommitted(created.value, runId, m.manifestId), Finished(Ok(GotManifest(m))));
      assert RunToEnd(sha, created.value, AtMarkCommitted(runId, m), env) ==
             RunToEnd(sha, MarkCommitted(created.value, runId, m.manifestId), Finished(Ok(GotManifest(m))), env);
    }
  }

  // An uninterrupted commit succeeds exactly when the run is open and has no
  // manifest yet, and then records all of the run's mounts. Otherwise it changes nothing
  // and says why.
  lemma CommitSucceedsIff(sha: Sha, db: Db, runId: Str, env: Env)
    requires DbOk(sha, db) && !env.fail && NewId(MANIFEST, env.manifestUlid) !in db.manifests
    ensures Call(sha, db, Commit(runId), env).1.Ok? <==> IsOpen(db, runId) && runId !in db.byRun
    ensures IsOpen(db, runId) && runId !in db.byRun ==>
              var m := NewManifest(db, runId, env);
              Call(sha, db, Commit(runId), env) == (
                db.(manifests := db.manifests[m.manifestId := m],
                    byRun := db.byRun[runId := m.manifestId],
                    runs := db.runs[runId := Run(true, m.manifestId)]),
                Ok(GotManifest(m)))
    ensures IsOpen(db, runId) && runId in db.byRun ==>
              Call(sha, db, Commit(runId), env) == (db, Err(Conflict))
    ensures runId !in db.runs ==> Call(sha, db, Commit(runId), env) == (db, Err(RunNotFound))
    ensures runId in db.runs && db.runs[runId].committed ==>
              Call(sha, db, Commit(runId), env) == (db, Err(AlreadyCommitted(db.runs[runId].manifestId)))
  {
    hide DbOk;
    hide RunToEnd;
    if IsOpen(db, runId) {
      CommitReaches(sha, db, runId, env);
      CommitWrites(sha, db, runId, env);
      if runId !in db.byRun {
        MountsOfRun(sha, db, runId);
        ManifestStored(sha, db, NewManifest(db, runId, env));
      }
    } else {
      CommitRefused(sha, db, runId, env);
    }
  }

  lemma MountsOfRun(sha: Sha, db: Db, runId: Str)
    requires DbOk(sha, db) && runId in db.runs
    ensures runId in db.mounts
  {
  }

  lemma ManifestStored(sha: Sha, db: Db, m: Manifest)
    requires DbOk(sha, db) && m.manifestId !in db.manifests && m.runId !in db.byRun
    requires m.runId in db.mounts && m.entries == db.mounts[m.runId]
    ensures CreateManifest(db, m) == Ok(db.(
              manifests := db.manifests[m.manifestId := m], byRun := db.byRun[m.runId := m.manifestId]))
  {
    assert [] + m.entries == m.entries;
    InsertAllDense([], m.entries);
  }

  /******* Stopping between the two writes *******/

  predicate AboutToMark(c: Client, runId: Str) {
    c.AtMarkCommitted? && c.runId == runId
  }

  // Some call still stands between writing this run's manifest and marking the run.
  ghost predicate MarkPending(s: System, runId: Str) {
    exists k :: k in s.clients && AboutToMark(s.clients[k], runId)
  }

  ghost predicate Accounted(s: System, runId: Str) {
    runId in s.db.byRun && IsOpen(s.db, runId) ==> MarkPending(s, runId)
  }

  // The store call that would have marked the run, failing.
  predicate Drops(s: System, a: Action, runId: Str) {
    a.Advance? && a.env.fail && a.id in s.clients && AboutToMark(s.clients[a.id], runId)
  }

  // Some action of the history is such a call, in the state where it is taken.
  predicate MarkDropped(sha: Sha, s: System, actions: seq<Action>, runId: Str)
    decreases |actions|
  {
    actions != [] &&
    (Drops(s, actions[0], runId) || MarkDropped(sha, Act(sha, s, actions[0]), actions[1..], runId))
  }

  // What one store call can do to the manifest of a run and to its mark.
  ghost predicate MarksTogether(db: Db, c: Client, r: (Db, Client), runId: Str) {
    && (runId in r.0.byRun && runId !in db.byRun ==> AboutToMark(r.1, runId))
    && (AboutToMark(c, runId) ==> !IsOpen(r.0, runId))
    && (runId in db.byRun && IsOpen(r.0, runId) ==> IsOpen(db, runId))
    && (runId in db.byRun && !AboutToMark(c, runId) ==>
          runId in r.0.byRun && !AboutToMark(r.1, runId) && (IsOpen(db, runId) ==> IsOpen(r.0, runId)))
  }

  lemma RunReadMarks(db: Db, c: Client, env: Env, runId: Str)
    requires c.AtMountRunGet? || c.AtMountList? || c.AtCommitRunGet? || c.AtCommitList? || c.AtTagOwner?
    ensures MarksTogether(db, c, RunStep(db, c, env), runId)
  {
  }

  // A step that leaves runs and the manifest index alone, and is not about to mark.
  lemma NoMarks(db: Db, c: Client, r: (Db, Client), runId: Str)
    requires r.0.runs == db.runs && r.0.byRun == db.byRun && !c.AtMarkCommitted? && !r.1.AtMarkCommitted?
    ensures MarksTogether(db, c, r, runId)
  {
  }

  lemma AppendElsewhere(db: Db, runId: Str, e: Entry)
    ensures AppendMount(db, runId, e).Ok? ==>
              AppendMount(db, runId, e).value.runs == db.runs && AppendMount(db, runId, e).value.byRun == db.byRun
  {
    hide Insert;
  }

  lemma RegisterElsewhere(db: Db, uri: Str, policy: Policy)
    ensures CreateResource(db, uri, policy).Ok? ==>
              && CreateResource(db, uri, policy).value.runs == db.runs
              && CreateResource(db, uri, policy).value.byRun == db.byRun
  {
    hide StoredPolicy;
  }

  lemma UntagElsewhere(db: Db, uri: Str, name: Str)
    ensures DeleteTag(db, uri, name).Ok? ==>
              DeleteTag(db, uri, name).value.runs == db.runs && DeleteTag(db, uri, name).value.byRun == db.byRun
  {
  }

  lemma MountAppendMarks(db: Db, c: Client, env: Env, runId: Str)
    requires c.AtMountAppend?
    ensures MarksTogether(db, c, RunStep(db, c, env), runId)
  {
    AppendElsewhere(db, c.runId, c.entry);
    hide MarksTogether;
    hide AppendMount;
    hide CreateResource;
    hide CreateManifest;
    hide StartRun;
    hide DeleteTag;
    hide MarkCommitted;
    NoMarks(db, c, RunStep(db, c, env), runId);
  }

  lemma RegisterMarks(db: Db, c: Client, env: Env, runId: Str)
    requires c.AtResourceCreate?
    ensures MarksTogether(db, c, RunStep(db, c, env), runId)
  {
    RegisterElsewhere(db, c.uri, c.policy);
    hide MarksTogether;
    hide AppendMount;
    hide CreateResource;
    hide CreateManifest;
    hide StartRun;
    hide DeleteTag;
    hide MarkCommitted;
    NoMarks(db, c, RunStep(db, c, env), runId);
  }

  lemma TagMarks(db: Db, c: Client, env: Env, runId: Str)
    requires c.AtTagUpsert? || c.AtTagDelete?
    ensures MarksTogether(db, c, RunStep(db, c, env), runId)
  {
    UntagElsewhere(db, c.uri, c.name);
    hide MarksTogether;
    hide AppendMount;
    hide CreateResource;
    hide CreateManifest;
    hide StartRun;
    hide DeleteTag;
    hide MarkCommitted;
    NoMarks(db, c, RunStep(db, c, env), runId);
  }

  lemma MountAndRegisterMarks(db: Db, c: Client, env: Env, runId: Str)
    requires c.AtMountAppend? || c.AtResourceCreate? || c.AtTagUpsert? || c.AtTagDelete?
    ensures MarksTogether(db, c, RunStep(db, c, env), runId)
  {
    hide MarksTogether;
    hide RunStep;
    if c.AtMountAppend? {
      MountAppendMarks(db, c, env, runId);
    } else if c.AtResourceCreate? {
      RegisterMarks(db, c, env, runId);
    } else {
      TagMarks(db, c, env, runId);
    }
  }

  // A run just started is open, and no manifest carries its id.
  lemma StartMarks(db: Db, c: Client, r: (Db, Client), started: Str, runId: Str)
    requires (forall x | x in db.byRun :: x in db.runs) && started !in db.runs
    requires r.0.runs == db.runs[started := Run(false, [])] && r.0.byRun == db.byRun
    requires !c.AtMarkCommitted? && !r.1.AtMarkCommitted?
    ensures MarksTogether(db, c, r, runId)
  {
  }

  lemma StartRunRuns(db: Db, runId: Str)
    ensures StartRun(db, runId).Ok? ==>
              && runId !in db.runs && StartRun(db, runId).value.runs == db.runs[runId := Run(false, [])]
              && StartRun(db, runId).value.byRun == db.byRun
  {
  }

  lemma RunStartMarks(db: Db, c: Client, env: Env, runId: Str)
    requires c.AtRunStart? && forall r | r in db.byRun :: r in db.runs
    ensures MarksTogether(db, c, RunStep(db, c, env), runId)
  {
    StartRunRuns(db, c.runId);
    hide MarksTogether;
    hide StartRun;
    hide CreateResource;
    hide UpsertTag;
    hide DeleteTag;
    if StartRun(db, c.runId).Ok? {
      StartMarks(db, c, RunStep(db, c, env), c.runId, runId);
    } else {
      NoMarks(db, c, RunStep(db, c, env), runId);
    }
  }

  lemma CreateManifestRuns(db: Db, m: Manifest)
    ensures CreateManifest(db, m).Ok? ==>
              var db' := CreateManifest(db, m).value;
              m.runId !in db.byRun && db'.runs == db.runs && db'.byRun == db.byRun[m.runId := m.manifestId]
  {
    hide InsertAll;
    if CreateManifest(db, m).Ok? {
      var rows := InsertAll([], m.entries).value;
      assert CreateManifest(db, m).value == db.(
        manifests := db.manifests[m.manifestId := m.(entries := rows)], byRun := db.byRun[m.runId := m.manifestId]);
    }
  }

  lemma MarkCommittedRuns(db: Db, marked: Str, manifestId: Str, runId: Str)
    ensures MarkCommitted(db, marked, manifestId).byRun == db.byRun
    ensures IsOpen(MarkCommitted(db, marked, manifestId), runId) <==> IsOpen(db, runId) && runId != marked
  {
    if marked in db.runs {
      assert MarkCommitted(db, marked, manifestId).runs == db.runs[marked := Run(true, manifestId)];
    }
  }

  lemma ManifestCreateMarks(db: Db, c: Client, env: Env, runId: Str)
    requires c.AtManifestCreate?
    ensures MarksTogether(db, c, RunStep(db, c, env), runId)
  {
    hide CreateManifest;
    CreateManifestRuns(db, Manifest(NewId(MANIFEST, env.manifestUlid), c.runId, env.now, c.entries));
  }

  lemma MarkMarks(db: Db, c: Client, env: Env, runId: Str)
    requires c.AtMarkCommitted?
    ensures MarksTogether(db, c, RunStep(db, c, env), runId)
  {
    MarkCommittedRuns(db, c.runId, c.manifest.manifestId, runId);
    hide MarkCommitted;
    hide IsOpen;
  }

  lemma ResolveMarks(sha: Sha, db: Db, c: Client, env: Env, runId: Str)
    requires 8 < Remaining(c) < 20
    ensures MarksTogether(db, c, ResolveStep(sha, db, c, env), runId)
  {
    hide ResolveStep;
    ResolveLeavesRuns(sha, db, c, env);
    ResolveKeepsJob(sha, db, c, env);
  }

  lemma StepMarks(sha: Sha, db: Db, c: Client, env: Env, runId: Str)
    requires DbOk(sha, db) && (!env.fail || !AboutToMark(c, runId)) && !c.Finished?
    ensures MarksTogether(db, c, Step(sha, db, c, env), runId)
  {
    ByRunNamesRuns(sha, db);
    hide DbOk;
    hide RunStep;
    hide ResolveStep;
    if env.fail {
    } else {
      hide MarksTogether;
      if Remaining(c) > 8 && !c.AtMountRunGet? {
        ResolveMarks(sha, db, c, env, runId);
      } else if c.AtRunStart? {
        RunStartMarks(db, c, env, runId);
      } else if c.AtManifestCreate? {
        ManifestCreateMarks(db, c, env, runId);
      } else if c.AtMarkCommitted? {
        MarkMarks(db, c, env, runId);
      } else if c.AtMountAppend? || c.AtResourceCreate? || c.AtTagUpsert? || c.AtTagDelete? {
        MountAndRegisterMarks(db, c, env, runId);
      } else {
        RunReadMarks(db, c, env, runId);
      }
    }
  }

  lemma ActAccounts(sha: Sha, s: System, a: Action, runId: Str)
    requires SystemOk(sha, s) && Accounted(s, runId) && !Drops(s, a, runId)
    ensures Accounted(Act(sha, s, a), runId)
  {
    hide DbOk;
    hide ClientOk;
    hide Step;
    var t := Act(sha, s, a);
    if runId in t.db.byRun && IsOpen(t.db, runId) {
      if a.Advance? && a.id in s.clients && !s.clients[a.id].Finished? {
        StepMarks(sha, s.db, s.clients[a.id], a.env, runId);
        assert runId !in s.db.byRun ==> AboutToMark(t.clients[a.id], runId);
      } else {
        FinishedStays(sha, s, a);
      }
      if runId in s.db.byRun {
        var k :| k in s.clients && AboutToMark(s.clients[k], runId);
        assert k in t.clients && AboutToMark(t.clients[k], runId);
      }
    }
  }

  lemma FinishedStays(sha: Sha, s: System, a: Action)
    requires a.Advance? && a.id in s.clients ==> s.clients[a.id].Finished?
    ensures Act(sha, s, a).db == s.db
    ensures forall k | k in s.clients :: k in Act(sha, s, a).clients && Act(sha, s, a).clients[k] == s.clients[k]
  {
  }

  // Its manifest is written, but nothing left will mark it committed.
  ghost predicate Stranded(s: System, runId: Str) {
    runId in s.db.byRun && IsOpen(s.db, runId) && !MarkPending(s, runId)
  }

  lemma ActStrands(sha: Sha, s: System, a: Action, runId: Str)
    requires SystemOk(sha, s) && Stranded(s, runId)
    ensures Stranded(Act(sha, s, a), runId)
  {
    hide DbOk;
    hide ClientOk;
    hide Step;
    var t := Act(sha, s, a);
    if a.Advance? && a.id in s.clients && !s.clients[a.id].Finished? {
      assert !AboutToMark(s.clients[a.id], runId);
      StepMarks(sha, s.db, s.clients[a.id], a.env, runId);
    } else {
      FinishedStays(sha, s, a);
    }
    forall k | k in t.clients
      ensures !AboutToMark(t.clients[k], runId)
    {
      if k in s.clients {
        assert !AboutToMark(s.clients[k], runId);
      }
    }
  }

  // A stranded run stays open for ever: no later call, however scheduled, commits it.
  lemma {:induction false} StrandedForever(sha: Sha, s: System, actions: seq<Action>, runId: Str)
    requires SystemOk(sha, s) && Stranded(s, runId)
    ensures Stranded(Exec(sha, s, actions), runId)
    decreases |actions|
  {
    hide SystemOk;
    hide Stranded;
    hide Act;
    if actions != [] {
      ActKeeps(sha, s, actions[0]);
      ActStrands(sha, s, actions[0], runId);
      StrandedForever(sha, Act(sha, s, actions[0]), actions[1..], runId);
    }
  }

  /******* Exactly when a run is stranded *******/

  // At most one commit is about to mark the run, and the run is open while it is.
  ghost predicate OneMark(s: System, runId: Str) {
    && (forall i, j | i in s.clients && j in s.clients && AboutToMark(s.clients[i], runId)
                      && AboutToMark(s.clients[j], runId) :: i == j)
    && (MarkPending(s, runId) ==> runId in s.db.byRun && IsOpen(s.db, runId))
  }

  lemma OnlyCreateLeadsToMark(sha: Sha, db: Db, c: Client, env: Env, runId: Str)
    requires !c.Finished? && !AboutToMark(c, runId) && AboutToMark(Step(sha, db, c, env).1, runId)
    ensures c.AtManifestCreate? && c.runId == runId && !env.fail
  {
    hide ResolveStep;
    hide CreateManifest;
    if !env.fail && 8 < Remaining(c) < 20 {
      ResolveKeepsJob(sha, db, c, env);
    }
  }

  lemma NewMarkIsOpen(sha: Sha, db: Db, c: Client, env: Env, runId: Str)
    requires DbOk(sha, db) && ClientOk(sha, db, c) && c.AtManifestCreate? && c.runId == runId && !env.fail
    requires AboutToMark(Step(sha, db, c, env).1, runId)
    ensures runId !in db.byRun
    ensures var t := Step(sha, db, c, env).0; runId in t.byRun && IsOpen(t, runId)
  {
    CreateRunIsKnown(sha, db, c);
    CreateManifestRuns(db, Manifest(NewId(MANIFEST, env.manifestUlid), c.runId, env.now, c.entries));
    hide DbOk;
    hide ClientOk;
    hide CreateManifest;
  }

  lemma CreateRunIsKnown(sha: Sha, db: Db, c: Client)
    requires DbOk(sha, db) && ClientOk(sha, db, c) && c.AtManifestCreate?
    ensures c.runId in db.runs && (c.runId !in db.byRun ==> !db.runs[c.runId].committed)
  {
  }

  lemma NewMark(sha: Sha, db: Db, c: Client, env: Env, runId: Str)
    requires DbOk(sha, db) && ClientOk(sha, db, c) && !c.Finished? && !AboutToMark(c, runId)
    requires AboutToMark(Step(sha, db, c, env).1, runId)
    ensures runId !in db.byRun
    ensures var t := Step(sha, db, c, env).0; runId in t.byRun && IsOpen(t, runId)
  {
    hide DbOk;
    hide ClientOk;
    hide Step;
    OnlyCreateLeadsToMark(sha, db, c, env, runId);
    NewMarkIsOpen(sha, db, c, env, runId);
  }

  // The call that moves is about to mark the run afterwards: no other call is.
  lemma ActNewMark(sha: Sha, s: System, a: Action, runId: Str)
    requires SystemOk(sha, s) && OneMark(s, runId)
    requires a.Advance? && a.id in s.clients && !s.clients[a.id].Finished?
    requires AboutToMark(Step(sha, s.db, s.clients[a.id], a.env).1, runId)
    ensures OneMark(Act(sha, s, a), runId)
  {
    hide DbOk;
    hide ClientOk;
    hide Step;
    if AboutToMark(s.clients[a.id], runId) {
      MarksOnce(sha, s.db, s.clients[a.id], a.env, runId);
    }
    NewMark(sha, s.db, s.clients[a.id], a.env, runId);
    forall k | k in s.clients
      ensures !AboutToMark(s.clients[k], runId)
    {
      assert AboutToMark(s.clients[k], runId) ==> MarkPending(s, runId);
    }
  }

  lemma MarksOnce(sha: Sha, db: Db, c: Client, env: Env, runId: Str)
    requires AboutToMark(c, runId)
    ensures !AboutToMark(Step(sha, db, c, env).1, runId)
  {
  }

  lemma ActOtherMark(sha: Sha, s: System, a: Action, runId: Str)
    requires SystemOk(sha, s) && OneMark(s, runId)
    requires a.Advance? && a.id in s.clients && !s.clients[a.id].Finished?
    requires !AboutToMark(Step(sha, s.db, s.clients[a.id], a.env).1, runId)
    ensures OneMark(Act(sha, s, a), runId)
  {
    hide DbOk;
    hide ClientOk;
    hide Step;
    var t := Act(sha, s, a);
    if MarkPending(t, runId) {
      var k :| k in t.clients && AboutToMark(t.clients[k], runId);
      assert k != a.id && AboutToMark(s.clients[k], runId);
      StepMarks(sha, s.db, s.clients[a.id], a.env, runId);
    }
  }

  lemma ActOneMark(sha: Sha, s: System, a: Action, runId: Str)
    requires SystemOk(sha, s) && OneMark(s, runId)
    ensures OneMark(Act(sha, s, a), runId)
  {
    hide SystemOk;
    if a.Advance? && a.id in s.clients && !s.clients[a.id].Finished? {
      hide OneMark;
      hide Act;
      hide Step;
      if AboutToMark(Step(sha, s.db, s.clients[a.id], a.env).1, runId) {
        ActNewMark(sha, s, a, runId);
      } else {
        ActOtherMark(sha, s, a, runId);
      }
    } else {
      FinishedStays(sha, s, a);
      ArrivalMarksNothing(sha, s, a, runId);
      hide Act;
    }
  }

  lemma ArrivalMarksNothing(sha: Sha, s: System, a: Action, runId: Str)
    requires a.Advance? && a.id in s.clients ==> s.clients[a.id].Finished?
    ensures forall k | k in Act(sha, s, a).clients && AboutToMark(Act(sha, s, a).clients[k], runId) :: k in s.clients
  {
  }

  lemma DropStrands(sha: Sha, s: System, a: Action, runId: Str)
    requires OneMark(s, runId) && Drops(s, a, runId)
    ensures Stranded(Act(sha, s, a), runId)
  {
    assert MarkPending(s, runId);
    var t := Act(sha, s, a);
    assert t == System(s.db, s.clients[a.id := Finished(Err(Unavailable))]);
    forall k | k in t.clients
      ensures !AboutToMark(t.clients[k], runId)
    {
    }
  }

  lemma {:induction false} StrandedIffDropped(sha: Sha, s: System, actions: seq<Action>, runId: Str)
    requires SystemOk(sha, s) && OneMark(s, runId) && Accounted(s, runId)
    ensures Stranded(Exec(sha, s, actions), runId) <==> MarkDropped(sha, s, actions, runId)
    ensures OneMark(Exec(sha, s, actions), runId)
    decreases |actions|
  {
    hide SystemOk;
    hide Act;
    if actions != [] {
      var t := Act(sha, s, actions[0]);
      ActKeeps(sha, s, actions[0]);
      ActOneMark(sha, s, actions[0], runId);
      if Drops(s, actions[0], runId) {
        DropStrands(sha, s, actions[0], runId);
        hide Stranded;
        hide OneMark;
        StrandedForever(sha, t, actions[1..], runId);
        OneMarkStays(sha, t, actions[1..], runId);
      } else {
        ActAccounts(sha, s, actions[0], runId);
        hide Stranded;
        hide OneMark;
        hide Accounted;
        StrandedIffDropped(sha, t, actions[1..], runId);
      }
    }
  }

  lemma {:induction false} OneMarkStays(sha: Sha, s: System, actions: seq<Action>, runId: Str)
    requires SystemOk(sha, s) && OneMark(s, runId)
    ensures OneMark(Exec(sha, s, actions), runId)
    decreases |actions|
  {
    hide SystemOk;
    hide OneMark;
    hide Act;
    if actions != [] {
      ActKeeps(sha, s, actions[0]);
      ActOneMark(sha, s, actions[0], runId);
      OneMarkStays(sha, Act(sha, s, actions[0]), actions[1..], runId);
    }
  }

  // MAIN RESULT. In every history a run is stranded exactly if the store call that was to
  // mark it, the last of some commit, failed; nothing that fails elsewhere matters.
  lemma StrandedIff(sha: Sha, actions: seq<Action>, runId: Str)
    ensures Stranded(Exec(sha, INITIAL, actions), runId) <==> MarkDropped(sha, INITIAL, actions, runId)
  {
    hide Exec;
    hide MarkDropped;
    InitialOk(sha);
    StrandedIffDropped(sha, INITIAL, actions, runId);
  }

  // So a run with a manifest is still open exactly if a commit is about to mark it or has
  // failed to, and never both.
  lemma OpenWithManifestIff(sha: Sha, actions: seq<Action>, runId: Str)
    ensures var s := Exec(sha, INITIAL, actions);
            && (runId in s.db.byRun && IsOpen(s.db, runId) <==>
                  MarkPending(s, runId) || MarkDropped(sha, INITIAL, actions, runId))
            && !(MarkPending(s, runId) && MarkDropped(sha, INITIAL, actions, runId))
  {
    hide Exec;
    hide MarkDropped;
    InitialOk(sha);
    StrandedIffDropped(sha, INITIAL, actions, runId);
  }

  // Two calls, of which the first is over.
  function Second(db: Db, c: Client): System {
    System(db, map[0 := Finished(Ok(Done)), 1 := c])
  }

  lemma HalfCommitted(runId: Str, db: Db, m: Manifest)
    requires db.byRun == map[runId := m.manifestId] && db.runs == map[runId := Run(false, [])]
    ensures Stranded(Second(db, Finished(Err(Unavailable))), runId)
  {
  }

  // And it can be reached: one failed store call at the end of one commit.
  lemma StrandedReachable(sha: Sha, runId: Str, env: Env) returns (actions: seq<Action>)
    requires !env.fail
    ensures Stranded(Exec(sha, INITIAL, actions), runId)
  {
    var lost := env.(fail := true);
    actions := [Arrive(0, Start(runId)), Advance(0, env), Arrive(1, Commit(runId)),
                Advance(1, env), Advance(1, env), Advance(1, env), Advance(1, lost)];
    var m := Manifest(NewId(MANIFEST, env.manifestUlid), runId, env.now, []);
    var open := EMPTY.(runs := map[runId := Run(false, [])], mounts := map[runId := []]);
    var written := open.(manifests := map[m.manifestId := m], byRun := map[runId := m.manifestId]);
    HalfCommitted(runId, written, m);
    hide Exec;
    hide Stranded;
    hide Second;
    StartsRun(sha, runId, env, actions, open);
    CommitsHalf(sha, runId, env, lost, actions[3..], open, written, m);
  }

  lemma StartsRun(sha: Sha, runId: Str, env: Env, actions: seq<Action>, open: Db)
    requires !env.fail && |actions| >= 3
    requires actions[..3] == [Arrive(0, Start(runId)), Advance(0, env), Arrive(1, Commit(runId))]
    requires open == EMPTY.(runs := map[runId := Run(false, [])], mounts := map[runId := []])
    ensures Exec(sha, INITIAL, actions) ==
            Exec(sha, Second(open, AtCommitRunGet(runId)), actions[3..])
  {
    hide Exec;
    hide Act;
    assert actions[0] == actions[..3][0] && actions[1] == actions[..3][1] && actions[2] == actions[..3][2];
    var s1 := System(EMPTY, map[0 := AtRunStart(runId)]);
    var s2 := System(open, map[0 := Finished(Ok(Done))]);
    StartActs(sha, runId, env, s1, s2);
    ExecStep(sha, INITIAL, actions, s1);
    ExecStep(sha, s1, actions[1..], s2);
    ExecStep(sha, s2, actions[2..], Second(open, AtCommitRunGet(runId)));
  }

  lemma StartActs(sha: Sha, runId: Str, env: Env, s1: System, s2: System)
    requires !env.fail && s1 == System(EMPTY, map[0 := AtRunStart(runId)])
    requires s2 == System(EMPTY.(runs := map[runId := Run(false, [])], mounts := map[runId := []]),
                          map[0 := Finished(Ok(Done))])
    ensures Act(sha, INITIAL, Arrive(0, Start(runId))) == s1 && Act(sha, s1, Advance(0, env)) == s2
    ensures Act(sha, s2, Arrive(1, Commit(runId))) == Second(s2.db, AtCommitRunGet(runId))
  {
  }

  lemma SecondMoves(sha: Sha, db: Db, c: Client, env: Env)
    ensures var r := Step(sha, db, c, env); Act(sha, Second(db, c), Advance(1, env)) == Second(r.0, r.1)
  {
    hide Step;
    var r := Step(sha, db, c, env);
    assert Second(db, c).clients[1 := r.1] == Second(r.0, r.1).clients;
  }

  lemma CommitReads(sha: Sha, open: Db, runId: Str, env: Env)
    requires !env.fail && runId in open.runs && !open.runs[runId].committed
    ensures Step(sha, open, AtCommitRunGet(runId), env) == (open, AtCommitList(runId))
    ensures Step(sha, open, AtCommitList(runId), env) == (open, AtManifestCreate(runId, ListMounts(open, runId)))
  {
  }

  lemma CommitWritesEmpty(sha: Sha, open: Db, runId: Str, env: Env, lost: Env, m: Manifest)
    requires !env.fail && lost.fail && open.manifests == map[] && open.byRun == map[]
    requires m == Manifest(NewId(MANIFEST, env.manifestUlid), runId, env.now, [])
    ensures var written := open.(manifests := map[m.manifestId := m], byRun := map[runId := m.manifestId]);
            && Step(sha, open, AtManifestCreate(runId, []), env) == (written, AtMarkCommitted(runId, m))
            && Step(sha, written, AtMarkCommitted(runId, m), lost) == (written, Finished(Err(Unavailable)))
  {
  }

  lemma CommitsHalf(
    sha: Sha, runId: Str, env: Env, lost: Env, actions: seq<Action>, open: Db, written: Db, m: Manifest)
    requires !env.fail && lost.fail
    requires actions == [Advance(1, env), Advance(1, env), Advance(1, env), Advance(1, lost)]
    requires open == EMPTY.(runs := map[runId := Run(false, [])], mounts := map[runId := []])
    requires m == Manifest(NewId(MANIFEST, env.manifestUlid), runId, env.now, [])
    requires written == open.(manifests := map[m.manifestId := m], byRun := map[runId := m.manifestId])
    ensures Exec(sha, Second(open, AtCommitRunGet(runId)), actions) == Second(written, Finished(Err(Unavailable)))
  {
    CommitReads(sha, open, runId, env);
    CommitWritesEmpty(sha, open, runId, env, lost, m);
    assert ListMounts(open, runId) == [];
    hide Exec;
    hide Act;
    hide Step;
    hide Second;
    var c4, c5, c6 := AtCommitList(runId), AtManifestCreate(runId, []), AtMarkCommitted(runId, m);
    SecondMoves(sha, open, AtCommitRunGet(runId), env);
    SecondMoves(sha, open, c4, env);
    SecondMoves(sha, open, c5, env);
    SecondMoves(sha, written, c6, lost);
    assert actions[1..][1..] == actions[2..] && actions[2..][1..] == actions[3..] && actions[3..][1..] == [];
    ExecStep(sha, Second(open, AtCommitRunGet(runId)), actions, Second(open, c4));
    ExecStep(sha, Second(open, c4), actions[1..], Second(open, c5));
    ExecStep(sha, Second(open, c5), actions[2..], Second(written, c6));
    ExecStep(sha, Second(written, c6), actions[3..], Second(written, Finished(Err(Unavailable))));
    ExecNone(sha, Second(written, Finished(Err(Unavailable))));
  }

  lemma ExecNone(sha: Sha, s: System)
    ensures Exec(sha, s, []) == s
  {
  }

  lemma ExecStep(sha: Sha, s: System, actions: seq<Action>, t: System)
    requires actions != [] && Act(sha, s, actions[0]) == t
    ensures Exec(sha, s, actions) == Exec(sha, t, actions[1..])
  {
  }
}
