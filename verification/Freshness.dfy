/**
  allow_stale with a positive maximum age: how old a delivered snapshot can be, how
  close together two observations can be, and how many there can be in a window.
 */
module Freshness {
  import opened ByteStrings
  import opened References
  import opened Database
  import opened Clients
  import opened Invariants
  import opened Interleaving
  import opened Lifecycle

  predicate AllowsStale(p: Policy, maxAge: int) {
    p.strategy == AllowStale && p.maxAge == maxAge && maxAge > 0
  }

  /******* The age of what is delivered *******/

  ghost predicate Young(snap: Snapshot, now: int, maxAge: int) {
    now - snap.observedAt <= maxAge
  }

  // An untagged resolve under the policy that read the clock at now, at any point.
  ghost predicate ResolvingFresh(db: Db, c: Client, now: int, maxAge: int) {
    if c.AtMountRunGet? || c.AtResourceGet? then
      c.job.ref == [] && (c.job.uri in db.resources ==> AllowsStale(db.resources[c.job.uri].policy, maxAge))
    else if c.AtCurrentGet? then AllowsStale(c.resource.policy, maxAge) && c.now == now
    else if c.AtFetch? || c.AtFetchedPut? || c.AtSnapshotCreate? then c.now == now && maxAge > 0
    else if c.AtContentGet? || c.AtCurrentSet? || c.AtMaterializationFind? || c.AtMaterializationPut?
         || c.AtMaterializationCreate? then Young(c.snap, now, maxAge)
    else if c.AtMountList? || c.AtMountAppend? then Young(c.resolved.snapshot, now, maxAge)
    else c.Finished? && (c.result.Ok? ==>
      match c.result.value
      case GotResolve(r) => Young(r.snapshot, now, maxAge)
      case GotMount(_, _, r) => Young(r.snapshot, now, maxAge)
      case _ => false)
  }

  lemma FreshResolveStep(sha: Sha, db: Db, c: Client, env: Env, maxAge: int)
    requires ResolvingFresh(db, c, env.now, maxAge) && 8 < Remaining(c) < 20
    ensures var r := ResolveStep(sha, db, c, env); ResolvingFresh(r.0, r.1, env.now, maxAge)
  {
    hide PutBlob;
    hide CreateMaterialization;
  }

  lemma FreshStep(sha: Sha, db: Db, c: Client, env: Env, maxAge: int)
    requires ResolvingFresh(db, c, env.now, maxAge)
    ensures var r := Step(sha, db, c, env); ResolvingFresh(r.0, r.1, env.now, maxAge)
  {
    hide ResolveStep;
    if 8 < Remaining(c) < 20 {
      FreshResolveStep(sha, db, c, env, maxAge);
    }
  }

  lemma {:induction false} FreshToEnd(sha: Sha, db: Db, c: Client, env: Env, maxAge: int)
    requires ResolvingFresh(db, c, env.now, maxAge)
    ensures var r := RunToEnd(sha, db, c, env); ResolvingFresh(r.0, r.1, env.now, maxAge)
    decreases Remaining(c)
  {
    hide Step;
    hide ResolvingFresh;
    if !c.Finished? {
      FreshStep(sha, db, c, env, maxAge);
      StepDecreases(sha, db, c, env);
      FreshToEnd(sha, Step(sha, db, c, env).0, Step(sha, db, c, env).1, env, maxAge);
    }
  }

  // The snapshot a successful resolve or mount delivered.
  ghost function DeliveredBy(o: Outcome): Option<Snapshot> {
    match o
    case GotResolve(r) => Some(r.snapshot)
    case GotMount(_, _, r) => Some(r.snapshot)
    case _ => None
  }

  // MAIN RESULT. Whatever the tables hold, an untagged resolve or mount of a resource
  // that allows stale reads up to maxAge delivers a snapshot no older than that.
  lemma AgeIsBounded(sha: Sha, db: Db, op: Operation, raw: Str, uri: Str, env: Env, maxAge: int)
    requires op == Resolve(raw) || (op.Mount? && op.raw == raw)
    requires SplitRef(raw) == Some(Reference(uri, []))
    requires uri in db.resources && AllowsStale(db.resources[uri].policy, maxAge)
    ensures var r := Call(sha, db, op, env).1;
            r.Ok? ==> DeliveredBy(r.value).Some? && env.now - DeliveredBy(r.value).value.observedAt <= maxAge
  {
    hide RunToEnd;
    hide SplitRef;
    FreshToEnd(sha, db, Begin(op), env, maxAge);
  }

  /******* What one whole call observes *******/

  // No snapshot was recorded and no current pointer moved.
  ghost predicate NothingNew(s: Db, t: Db) {
    && t.snapshots == s.snapshots
    && (forall u | u in s.resources :: u in t.resources && t.resources[u] == s.resources[u])
    && (forall u | u in t.resources && u !in s.resources :: t.resources[u].currentSnapshotId == [])
  }

  // The policy of the resource asked for a fetch at this time.
  ghost predicate Due(db: Db, uri: Str, now: int) {
    && uri in db.resources
    && var resource := db.resources[uri];
       if resource.currentSnapshotId == [] then Evaluate(resource.policy, false, 0, now) == Fetch
       else resource.currentSnapshotId in db.snapshots &&
            Evaluate(resource.policy, true, db.snapshots[resource.currentSnapshotId].observedAt, now) == Fetch
  }

  ghost predicate Recorded(s: Db, t: Db, snap: Snapshot, now: int) {
    && snap.snapshotId !in s.snapshots && snap.snapshotId != []
    && t.snapshots == s.snapshots[snap.snapshotId := snap]
    && snap.observedAt == now && Due(s, snap.resourceUri, now)
  }

  // One new observation of snap's resource, which is now its current snapshot.
  ghost predicate Observed(s: Db, t: Db, snap: Snapshot, now: int) {
    && Recorded(s, t, snap, now)
    && t.resources == s.resources[
         snap.resourceUri := s.resources[snap.resourceUri].(currentSnapshotId := snap.snapshotId)]
  }

  ghost predicate Effect(s: Db, t: Db, now: int) {
    NothingNew(s, t) || exists snap :: Observed(s, t, snap, now)
  }

  ghost predicate SameObservations(s: Db, t: Db) {
    t.snapshots == s.snapshots && t.resources == s.resources
  }

  // Where a call that began in s stands, as far as observations go.
  ghost predicate Observing(s: Db, db: Db, c: Client, now: int) {
    if c.AtResourceGet? || c.AtTagGet? || c.AtSnapshotGet? || c.AtContentGet? || c.AtMountRunGet? || c.AtResourceCreate?
    then SameObservations(s, db)
    else if c.AtCurrentGet? then
      && SameObservations(s, db) && c.now == now
      && c.job.uri in s.resources && s.resources[c.job.uri] == c.resource && c.resource.currentSnapshotId != []
    else if c.AtFetch? || c.AtFetchedPut? || c.AtSnapshotCreate? then
      SameObservations(s, db) && c.now == now && Due(s, c.job.uri, now)
    else if c.AtCurrentSet? then
      Recorded(s, db, c.snap, now) && c.snap.resourceUri == c.job.uri && db.resources == s.resources
    else Effect(s, db, now)
  }

  lemma NothingNewReflexive(s: Db, t: Db)
    requires SameObservations(s, t)
    ensures Effect(s, t, 0) && forall now :: Effect(s, t, now)
  {
  }

  lemma ObservingBefore(sha: Sha, s: Db, db: Db, c: Client, env: Env)
    requires Observing(s, db, c, env.now)
    requires c.AtResourceGet? || c.AtTagGet? || c.AtSnapshotGet? || c.AtContentGet? || c.AtCurrentGet?
    ensures var r := ResolveStep(sha, db, c, env); Observing(s, r.0, r.1, env.now)
  {
    hide Effect;
    NothingNewReflexive(s, db);
  }

  lemma ObservingFetch(sha: Sha, s: Db, db: Db, c: Client, env: Env)
    requires Observing(s, db, c, env.now)
    requires c.AtFetch? || c.AtFetchedPut? || c.AtSnapshotCreate?
    ensures var r := ResolveStep(sha, db, c, env); Observing(s, r.0, r.1, env.now)
  {
    hide Effect;
    hide Due;
    NothingNewReflexive(s, db);
  }

  lemma ObservingSet(sha: Sha, s: Db, db: Db, c: Client, env: Env)
    requires Observing(s, db, c, env.now) && c.AtCurrentSet?
    ensures var r := ResolveStep(sha, db, c, env); Observing(s, r.0, r.1, env.now)
  {
    assert c.job.uri in db.resources;
    var r := ResolveStep(sha, db, c, env);
    assert Observed(s, r.0, c.snap, env.now);
  }

  lemma EffectElsewhere(s: Db, db: Db, t: Db, now: int)
    requires Effect(s, db, now) && SameObservations(db, t)
    ensures Effect(s, t, now)
  {
    hide Due;
    if !NothingNew(s, db) {
      var snap :| Observed(s, db, snap, now);
      assert Observed(s, t, snap, now);
    }
  }

  lemma ObservingAfter(sha: Sha, s: Db, db: Db, c: Client, env: Env)
    requires Observing(s, db, c, env.now)
    requires c.AtMaterializationFind? || c.AtMaterializationPut? || c.AtMaterializationCreate?
    ensures var r := ResolveStep(sha, db, c, env); Observing(s, r.0, r.1, env.now)
  {
    hide Effect;
    var r := ResolveStep(sha, db, c, env);
    assert SameObservations(db, r.0);
    EffectElsewhere(s, db, r.0, env.now);
  }

  // The builder's and the tag store's writes record no observation.
  lemma AppendObservesNothing(db: Db, runId: Str, e: Entry)
    ensures AppendMount(db, runId, e).Ok? ==> SameObservations(db, AppendMount(db, runId, e).value)
  {
    hide Insert;
  }

  lemma CreateObservesNothing(db: Db, m: Manifest)
    ensures CreateManifest(db, m).Ok? ==> SameObservations(db, CreateManifest(db, m).value)
  {
    hide InsertAll;
  }

  lemma StartObservesNothing(db: Db, runId: Str)
    ensures StartRun(db, runId).Ok? ==> SameObservations(db, StartRun(db, runId).value)
  {
  }

  lemma DeleteObservesNothing(db: Db, uri: Str, name: Str)
    ensures DeleteTag(db, uri, name).Ok? ==> SameObservations(db, DeleteTag(db, uri, name).value)
  {
  }

  lemma RunObservesNothing(db: Db, c: Client, env: Env)
    requires !c.AtResourceCreate? && (0 < Remaining(c) <= 8 || c.AtMountRunGet?)
    ensures SameObservations(db, RunStep(db, c, env).0)
  {
    hide AppendMount;
    hide CreateManifest;
    hide StartRun;
    hide DeleteTag;
    hide CreateResource;
    match c
    case AtMountAppend(runId, e, _) => AppendObservesNothing(db, runId, e);
    case AtManifestCreate(runId, entries) =>
      CreateObservesNothing(db, Manifest(NewId(MANIFEST, env.manifestUlid), runId, env.now, entries));
    case AtRunStart(runId) => StartObservesNothing(db, runId);
    case AtTagDelete(uri, name) => DeleteObservesNothing(db, uri, name);
    case _ =>
  }

  lemma RunGoesOn(db: Db, c: Client, env: Env)
    requires !c.AtResourceCreate? && (0 < Remaining(c) <= 8 || c.AtMountRunGet?)
    ensures var c' := RunStep(db, c, env).1;
            && Remaining(c') < Remaining(c) && (8 < Remaining(c') ==> c.AtMountRunGet? && c'.AtResourceGet?)
            && !c'.AtResourceCreate? && !c'.AtMountRunGet?
  {
    hide AppendMount;
    hide CreateManifest;
    hide StartRun;
    hide DeleteTag;
    hide CreateResource;
    hide MarkCommitted;
  }

  lemma ObservingRun(s: Db, db: Db, c: Client, env: Env)
    requires Observing(s, db, c, env.now) && !c.AtResourceCreate?
    requires 0 < Remaining(c) <= 8 || c.AtMountRunGet?
    ensures var r := RunStep(db, c, env); Observing(s, r.0, r.1, env.now)
  {
    hide Effect;
    hide RunStep;
    var r := RunStep(db, c, env);
    RunObservesNothing(db, c, env);
    RunGoesOn(db, c, env);
    if c.AtMountRunGet? {
      NothingNewReflexive(s, db);
      NothingNewReflexive(s, r.0);
    } else {
      EffectElsewhere(s, db, r.0, env.now);
    }
  }

  lemma ObservingCreate(s: Db, db: Db, c: Client, env: Env)
    requires Observing(s, db, c, env.now) && c.AtResourceCreate?
    ensures var r := RunStep(db, c, env); Observing(s, r.0, r.1, env.now)
  {
    hide Effect;
    hide CreateResource;
    NothingNewReflexive(s, db);
    if CreateResource(db, c.uri, c.policy).Ok? {
      CreateNothingNew(s, db, c.uri, c.policy, env.now);
    }
  }

  lemma CreateNothingNew(s: Db, db: Db, uri: Str, policy: Policy, now: int)
    requires SameObservations(s, db) && CreateResource(db, uri, policy).Ok?
    ensures Effect(s, CreateResource(db, uri, policy).value, now)
  {
    assert NothingNew(s, CreateResource(db, uri, policy).value);
  }

  lemma ObservingStep(sha: Sha, s: Db, db: Db, c: Client, env: Env)
    requires Observing(s, db, c, env.now) && !env.fail && !c.Finished?
    ensures var r := Step(sha, db, c, env); Observing(s, r.0, r.1, env.now)
  {
    hide Observing;
    hide ResolveStep;
    hide RunStep;
    if 8 < Remaining(c) < 20 {
      if c.AtFetch? || c.AtFetchedPut? || c.AtSnapshotCreate? {
        ObservingFetch(sha, s, db, c, env);
      } else if c.AtCurrentSet? {
        ObservingSet(sha, s, db, c, env);
      } else if c.AtMaterializationFind? || c.AtMaterializationPut? || c.AtMaterializationCreate? {
        ObservingAfter(sha, s, db, c, env);
      } else {
        ObservingBefore(sha, s, db, c, env);
      }
    } else if c.AtResourceCreate? {
      ObservingCreate(s, db, c, env);
    } else {
      ObservingRun(s, db, c, env);
    }
  }

  lemma {:induction false} ObservingToEnd(sha: Sha, s: Db, db: Db, c: Client, env: Env)
    requires Observing(s, db, c, env.now) && !env.fail
    ensures Effect(s, RunToEnd(sha, db, c, env).0, env.now)
    decreases Remaining(c)
  {
    hide Step;
    hide Effect;
    if c.Finished? {
    } else {
      var r := Step(sha, db, c, env);
      ObservingStep(sha, s, db, c, env);
      StepDecreases(sha, db, c, env);
      ObservingToEnd(sha, s, r.0, r.1, env);
    }
  }

  // A whole call records at most one observation: of a resource whose policy asked
  // for a fetch, at the time of the call, becoming that resource's current snapshot.
  lemma CallObserves(sha: Sha, db: Db, op: Operation, env: Env)
    ensures Effect(db, Call(sha, db, op, env).0, env.now)
  {
    hide Effect;
    hide RunToEnd;
    var c := Begin(op);
    NothingNewReflexive(db, db);
    if env.fail && !c.Finished? {
      FailedCall(sha, db, c, env);
    } else if c.Finished? {
      FinishedCall(sha, db, c, env);
    } else {
      BeginObserving(db, op, env.now);
      ObservingToEnd(sha, db, db, c, env);
    }
  }

  lemma BeginObserving(db: Db, op: Operation, now: int)
    ensures Observing(db, db, Begin(op), now)
  {
    NothingNewReflexive(db, db);
  }

  lemma FailedCall(sha: Sha, db: Db, c: Client, env: Env)
    requires env.fail && !c.Finished?
    ensures RunToEnd(sha, db, c, env) == (db, Finished(Err(Unavailable)))
  {
    assert Step(sha, db, c, env) == (db, Finished(Err(Unavailable)));
    assert RunToEnd(sha, db, c, env) == RunToEnd(sha, db, Finished(Err(Unavailable)), env);
  }

  lemma FinishedCall(sha: Sha, db: Db, c: Client, env: Env)
    requires c.Finished?
    ensures RunToEnd(sha, db, c, env) == (db, c)
  {
  }

  /******* Whole histories *******/

  // Clock readings never go back from one call to the next.
  predicate Ordered(calls: seq<(Operation, Env)>) {
    forall i, j | 0 <= i <= j < |calls| :: calls[i].1.now <= calls[j].1.now
  }

  predicate IsObservation(db: Db, id: Str, uri: Str) {
    id in db.snapshots && db.snapshots[id].resourceUri == uri
  }

  // a and b were taken more than maxAge apart.
  predicate Apart(a: Snapshot, b: Snapshot, maxAge: int) {
    a.observedAt - b.observedAt > maxAge || b.observedAt - a.observedAt > maxAge
  }

  // The observations of uri so far: spaced out, none after `latest`, and none
  // newer than the current one.
  ghost predicate Spaced(db: Db, uri: Str, maxAge: int) {
    forall a, b | IsObservation(db, a, uri) && IsObservation(db, b, uri) && a != b ::
      Apart(db.snapshots[a], db.snapshots[b], maxAge)
  }

  ghost predicate CurrentIsLatest(db: Db, uri: Str, latest: int) {
    forall a | IsObservation(db, a, uri) ::
      && db.snapshots[a].observedAt <= latest
      && uri in db.resources && var current := db.resources[uri].currentSnapshotId;
         current != [] && current in db.snapshots && db.snapshots[a].observedAt <= db.snapshots[current].observedAt
  }

  ghost predicate PolicyAllows(db: Db, uri: Str, maxAge: int) {
    uri in db.resources ==> AllowsStale(db.resources[uri].policy, maxAge)
  }

  // A resource nobody registered has no observations; a policy never changes.
  ghost predicate HistoryOk(db: Db, uri: Str, maxAge: int, latest: int) {
    Spaced(db, uri, maxAge) && CurrentIsLatest(db, uri, latest)
  }

  lemma HistoryUnchanged(s: Db, t: Db, uri: Str, maxAge: int, latest: int, now: int)
    requires HistoryOk(s, uri, maxAge, latest) && latest <= now && NothingNew(s, t)
    ensures HistoryOk(t, uri, maxAge, now)
  {
    forall a | IsObservation(t, a, uri)
      ensures t.snapshots[a].observedAt <= now && uri in t.resources
      ensures var current := t.resources[uri].currentSnapshotId;
              current != [] && current in t.snapshots &&
              t.snapshots[a].observedAt <= t.snapshots[current].observedAt
    {
      assert IsObservation(s, a, uri);
    }
    forall a, b | IsObservation(t, a, uri) && IsObservation(t, b, uri) && a != b
      ensures Apart(t.snapshots[a], t.snapshots[b], maxAge)
    {
      assert IsObservation(s, a, uri) && IsObservation(s, b, uri);
    }
  }

  // A fetch is due only when the current observation, the latest, is too old.
  lemma NewIsApart(s: Db, snap: Snapshot, a: Str, uri: Str, maxAge: int, latest: int)
    requires CurrentIsLatest(s, uri, latest) && PolicyAllows(s, uri, maxAge) && maxAge > 0
    requires Due(s, uri, snap.observedAt) && IsObservation(s, a, uri)
    ensures snap.observedAt - s.snapshots[a].observedAt > maxAge
  {
    assert AllowsStale(s.resources[uri].policy, maxAge);
  }

  lemma HistoryObserved(s: Db, t: Db, snap: Snapshot, uri: Str, maxAge: int, latest: int, now: int)
    requires HistoryOk(s, uri, maxAge, latest) && latest <= now && maxAge > 0 && PolicyAllows(s, uri, maxAge)
    requires Observed(s, t, snap, now)
    ensures HistoryOk(t, uri, maxAge, now)
  {
    hide Due;
    if snap.resourceUri == uri {
      forall a | IsObservation(s, a, uri)
        ensures now - s.snapshots[a].observedAt > maxAge
      {
        NewIsApart(s, snap, a, uri, maxAge, latest);
      }
    }
    forall a, b | IsObservation(t, a, uri) && IsObservation(t, b, uri) && a != b
      ensures Apart(t.snapshots[a], t.snapshots[b], maxAge)
    {
      assert a != snap.snapshotId ==> IsObservation(s, a, uri);
      assert b != snap.snapshotId ==> IsObservation(s, b, uri);
    }
    ObservedIsLatest(s, t, snap, uri, latest, now);
  }

  lemma ObservedIsLatest(s: Db, t: Db, snap: Snapshot, uri: Str, latest: int, now: int)
    requires CurrentIsLatest(s, uri, latest) && latest <= now && Observed(s, t, snap, now)
    ensures CurrentIsLatest(t, uri, now)
  {
    hide Due;
    assert snap.resourceUri in s.resources by { DueIsRegistered(s, snap.resourceUri, now); }
    forall a | IsObservation(t, a, uri)
      ensures t.snapshots[a].observedAt <= now && uri in t.resources
      ensures var current := t.resources[uri].currentSnapshotId;
              current != [] && current in t.snapshots &&
              t.snapshots[a].observedAt <= t.snapshots[current].observedAt
    {
      assert a != snap.snapshotId ==> IsObservation(s, a, uri);
    }
  }

  lemma DueIsRegistered(s: Db, uri: Str, now: int)
    requires Due(s, uri, now)
    ensures uri in s.resources
  {
  }

  lemma {:induction false} HistoryKeeps(
    sha: Sha, db: Db, calls: seq<(Operation, Env)>, uri: Str, maxAge: int, latest: int)
    requires DbOk(sha, db) && Settled(db) && HistoryOk(db, uri, maxAge, latest) && maxAge > 0
    requires Ordered(calls) && (calls != [] ==> latest <= calls[0].1.now)
    requires PolicyAllows(CallAll(sha, db, calls), uri, maxAge)
    ensures exists last :: HistoryOk(CallAll(sha, db, calls), uri, maxAge, last)
    decreases |calls|
  {
    hide DbOk;
    hide Settled;
    hide HistoryOk;
    hide Call;
    hide Effect;
    if calls == [] {
      assert HistoryOk(CallAll(sha, db, calls), uri, maxAge, latest);
    } else {
      var (op, env) := calls[0];
      var t := Call(sha, db, op, env).0;
      CallAllKeeps(sha, db, calls[..1]);
      assert CallAll(sha, db, calls[..1]) == CallAll(sha, t, []) == t by {
        assert calls[..1][1..] == [];
      }
      CallAllKeeps(sha, t, calls[1..]);
      PolicyBefore(db, t, uri, maxAge);
      PolicyBefore(t, CallAll(sha, t, calls[1..]), uri, maxAge);
      CallObserves(sha, db, op, env);
      EffectKeepsHistory(db, t, uri, maxAge, latest, env.now);
      HistoryKeeps(sha, t, calls[1..], uri, maxAge, env.now);
    }
  }

  lemma EffectKeepsHistory(s: Db, t: Db, uri: Str, maxAge: int, latest: int, now: int)
    requires Effect(s, t, now) && HistoryOk(s, uri, maxAge, latest) && latest <= now
    requires maxAge > 0 && PolicyAllows(s, uri, maxAge)
    ensures HistoryOk(t, uri, maxAge, now)
  {
    hide HistoryOk;
    hide NothingNew;
    hide Observed;
    if NothingNew(s, t) {
      HistoryUnchanged(s, t, uri, maxAge, latest, now);
    } else {
      var snap :| Observed(s, t, snap, now);
      HistoryObserved(s, t, snap, uri, maxAge, latest, now);
    }
  }

  lemma PolicyBefore(s: Db, t: Db, uri: Str, maxAge: int)
    requires Extends(s, t) && PolicyAllows(t, uri, maxAge)
    ensures PolicyAllows(s, uri, maxAge)
  {
  }

  // MAIN RESULT. After any whole calls at nondecreasing times, any two observations
  // of a resource that allows stale reads up to maxAge are more than maxAge apart.
  lemma ObservationsAreApart(sha: Sha, calls: seq<(Operation, Env)>, uri: Str, maxAge: int, a: Str, b: Str)
    requires Ordered(calls)
    requires var db := CallAll(sha, EMPTY, calls);
             && uri in db.resources && AllowsStale(db.resources[uri].policy, maxAge)
             && IsObservation(db, a, uri) && IsObservation(db, b, uri) && a != b
    ensures var db := CallAll(sha, EMPTY, calls); Apart(db.snapshots[a], db.snapshots[b], maxAge)
  {
    hide CallAll;
    EmptyIsSettled(sha);
    HistoryKeeps(sha, EMPTY, calls, uri, maxAge, if calls == [] then 0 else calls[0].1.now);
  }

  /******* How many observations fit in a window *******/

  ghost function InWindow(db: Db, uri: Str, from: int, width: nat): set<Str> {
    set id | id in db.snapshots && db.snapshots[id].resourceUri == uri
             && from <= db.snapshots[id].observedAt <= from + width
  }

  // Things placed in n boxes, no two in one box, are at most n.
  lemma {:induction false} AtMostOnePerBox(s: set<Str>, box: Str -> int, n: nat)
    requires forall a | a in s :: 0 <= box(a) < n
    requires forall a, b | a in s && b in s && a != b :: box(a) != box(b)
    ensures |s| <= n
  {
    if n == 0 {
      assert forall a :: a !in s;
      assert s == {};
    } else if a :| a in s && box(a) == n - 1 {
      AtMostOnePerBox(s - {a}, box, n - 1);
    } else {
      AtMostOnePerBox(s, box, n - 1);
    }
  }

  lemma ApartQuotients(x: int, y: int, maxAge: nat)
    requires 0 <= x && 0 <= y && (x - y > maxAge || y - x > maxAge)
    ensures x / (maxAge + 1) != y / (maxAge + 1)
  {
    var q := x / (maxAge + 1);
    assert x == q * (maxAge + 1) + x % (maxAge + 1);
    assert y == (y / (maxAge + 1)) * (maxAge + 1) + y % (maxAge + 1);
  }

  lemma PositiveFactor(k: int, d: int)
    requires d > 0 && k * d > 0
    ensures k > 0
  {
  }

  lemma QuotientMonotone(x: nat, y: nat, d: nat)
    requires x <= y && d > 0
    ensures x / d <= y / d
  {
    assert x == (x / d) * d + x % d && y == (y / d) * d + y % d;
    PositiveFactor(y / d - x / d + 1, d);
  }

  // MAIN RESULT. A window of width W holds at most W / (maxAge + 1) + 1 observations.
  lemma WindowBound(
    sha: Sha, calls: seq<(Operation, Env)>, uri: Str, maxAge: int, from: int, width: nat)
    requires Ordered(calls)
    requires var db := CallAll(sha, EMPTY, calls); uri in db.resources && AllowsStale(db.resources[uri].policy, maxAge)
    ensures |InWindow(CallAll(sha, EMPTY, calls), uri, from, width)| <= width / (maxAge + 1) + 1
  {
    hide CallAll;
    var db := CallAll(sha, EMPTY, calls);
    var s := InWindow(db, uri, from, width);
    var box := (id: Str) => if id in db.snapshots then (db.snapshots[id].observedAt - from) / (maxAge + 1) else 0;
    forall a | a in s
      ensures 0 <= box(a) < width / (maxAge + 1) + 1
    {
      QuotientMonotone(db.snapshots[a].observedAt - from, width, maxAge + 1);
    }
    forall a, b | a in s && b in s && a != b
      ensures box(a) != box(b)
    {
      ObservationsAreApart(sha, calls, uri, maxAge, a, b);
      ApartQuotients(db.snapshots[a].observedAt - from, db.snapshots[b].observedAt - from, maxAge);
    }
    AtMostOnePerBox(s, box, width / (maxAge + 1) + 1);
  }

  /******* What a registered maximum age becomes *******/

  function TwoTo(k: nat): (p: nat)
    ensures p >= 1
  {
    if k == 0 then 1 else 2 * TwoTo(k - 1)
  }

  lemma {:induction false} LeadingBound(n: nat, k: nat)
    requires n < TwoTo(k + 1)
    ensures Leading(n) <= TwoTo(k)
    decreases k
  {
    if k == 0 {
    } else if n >= 2 {
      LeadingBound(n / 2, k - 1);
    }
  }

  // Below 2^24 seconds the float64 is exact enough.
  lemma ShortAgesAreCut(maxAge: int)
    requires 0 < maxAge < 0x100_0000 * SECOND
    ensures !RoundsUp(maxAge)
  {
    assert TwoTo(12) == 0x1000;
    assert TwoTo(24) == 0x100_0000 && TwoTo(23) == 0x80_0000;
    LeadingBound(maxAge / SECOND, 23);
  }

  // A positive maximum age under one second is stored as no limit at all; any other
  // survives as a limit, laxer than the one asked for exactly when it rounds up.
  lemma StoredLimit(p: Policy)
    requires p.maxAge > 0
    ensures StoredPolicy(p).maxAge == 0 <==> p.maxAge < SECOND
    ensures StoredPolicy(p).maxAge <= p.maxAge <==> !RoundsUp(p.maxAge)
    ensures StoredPolicy(p) == p.(maxAge := StoredPolicy(p).maxAge) && StoredPolicy(p).maxAge % SECOND == 0
    ensures if RoundsUp(p.maxAge) then p.maxAge < StoredPolicy(p).maxAge <= p.maxAge + SECOND
            else p.maxAge - SECOND < StoredPolicy(p).maxAge <= p.maxAge
    ensures p.maxAge < 0x100_0000 * SECOND ==> !RoundsUp(p.maxAge)
  {
    if p.maxAge < 0x100_0000 * SECOND {
      ShortAgesAreCut(p.maxAge);
    }
  }

  // One nanosecond short of 2^24 + 1 seconds is stored as 2^24 + 1 seconds.
  lemma LongAgesCanRoundUp()
    ensures RoundsUp(16777216999999999)
    ensures StoredPolicy(Policy(AllowStale, 16777216999999999, [])).maxAge == 16777217 * SECOND
  {
    LeadingOfPower(24);
    assert TwoTo(12) == 0x1000;
    assert TwoTo(24) == 0x100_0000;
  }

  lemma {:induction false} LeadingOfPower(k: nat)
    ensures Leading(TwoTo(k)) == TwoTo(k)
    decreases k
  {
    if k > 0 {
      LeadingOfPower(k - 1);
    }
  }

  // So the age promised at registration is kept exactly when it is a second or more and
  // does not round up.
  lemma RegisteredAgeHolds(p: Policy)
    requires p.strategy == AllowStale && p.maxAge > 0
    ensures p.maxAge >= SECOND && !RoundsUp(p.maxAge) <==>
            forall observedAt: int, now: int | Evaluate(StoredPolicy(p), true, observedAt, now) == UseCurrent ::
              now - observedAt <= p.maxAge
  {
    StoredLimit(p);
    if p.maxAge < SECOND {
      assert Evaluate(StoredPolicy(p), true, 0, p.maxAge + 1) == UseCurrent;
    } else if RoundsUp(p.maxAge) {
      assert Evaluate(StoredPolicy(p), true, 0, StoredPolicy(p).maxAge) == UseCurrent;
    }
  }
}
