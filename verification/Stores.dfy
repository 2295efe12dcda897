/**
  The stores (internal/storage) in the form the program has them: an object whose
  methods read and overwrite tables. Each method is tied to the table function of
  module Database, and the two tag operations to whole calls of module Clients; and
  each says when what was stored before the call stays as it was.

  Ids, clock readings and the fetched document come in through env. Outages are
  left to Clients.Step, so every call here has !env.fail.
 */
module Stores {
  import opened ByteStrings
  import opened References
  import opened Database
  import opened Clients
  import opened Invariants

  /******* One step of a whole call *******/

  lemma Unroll(sha: Sha, db: Db, c: Client, env: Env)
    requires !c.Finished?
    ensures RunToEnd(sha, db, c, env) == RunToEnd(sha, Step(sha, db, c, env).0, Step(sha, db, c, env).1, env)
  {
  }

  /******* What single writes keep *******/

  lemma PutBlobKeeps(sha: Sha, db: Db, content: Bytes)
    ensures Extends(db, Database.PutBlob(sha, db, content))
    ensures DbOk(sha, db) ==> DbOk(sha, Database.PutBlob(sha, db, content))
  {
    PutBlobExtends(sha, db, content);
    if DbOk(sha, db) {
      PutBlobOk(sha, db, content);
    }
  }

  lemma StartKeeps(db: Db, runId: Str)
    ensures db.mounts.Keys == db.runs.Keys && Database.StartRun(db, runId).Ok? ==>
              var t := Database.StartRun(db, runId).value;
              Extends(db, t) && t.mounts.Keys == t.runs.Keys
  {
    if db.mounts.Keys == db.runs.Keys {
      StartRunExtends(db, runId);
    }
  }

  lemma AppendMountKeeps(db: Db, runId: Str, e: Entry)
    ensures Dense(ListMounts(db, runId)) && 0 <= e.position <= |ListMounts(db, runId)|
              && Database.AppendMount(db, runId, e).Ok? ==>
              var t := Database.AppendMount(db, runId, e).value;
              Extends(db, t) && Dense(ListMounts(t, runId))
  {
    if Dense(ListMounts(db, runId)) && 0 <= e.position <= |ListMounts(db, runId)| {
      InsertDense(ListMounts(db, runId), e);
    }
  }

  lemma AppendMountMeans(db: Db, runId: Str, e: Entry)
    ensures var rows := ListMounts(db, runId);
            ByPosition(rows) ==>
              && (Insert(rows, e).None? <==> TakenIn(rows, e.position))
              && (Insert(rows, e).Some? ==> && ByPosition(Insert(rows, e).value)
                                            && multiset(Insert(rows, e).value) == multiset(rows) + multiset{e})
  {
    if ByPosition(ListMounts(db, runId)) {
      InsertMeans(ListMounts(db, runId), e);
    }
  }

  lemma MarkKeeps(db: Db, runId: Str, manifestId: Str)
    ensures (runId in db.runs && db.runs[runId].committed ==> db.runs[runId].manifestId == manifestId) ==>
              Extends(db, Database.MarkCommitted(db, runId, manifestId))
  {
    if runId in db.runs && db.runs[runId].committed ==> db.runs[runId].manifestId == manifestId {
      MarkCommittedExtends(db, runId, manifestId);
    }
  }

  /******* Rows ordered by position *******/

  predicate ByPosition(rows: seq<Entry>) {
    forall i, j | 0 <= i < j < |rows| :: rows[i].position < rows[j].position
  }

  predicate TakenIn(rows: seq<Entry>, position: int) {
    exists i :: 0 <= i < |rows| && rows[i].position == position
  }

  // No two entries claim one position.
  predicate AllApart(entries: seq<Entry>) {
    forall i, j | 0 <= i < j < |entries| :: entries[i].position != entries[j].position
  }

  // The same entries, in the order of their positions.
  ghost predicate InOrderOf(rows: seq<Entry>, entries: seq<Entry>) {
    ByPosition(rows) && multiset(rows) == multiset(entries)
  }

  // A row goes to its place among the others unless its position is taken.
  lemma {:induction false} InsertMeans(rows: seq<Entry>, e: Entry)
    requires ByPosition(rows)
    ensures Insert(rows, e).None? <==> TakenIn(rows, e.position)
    ensures Insert(rows, e).Some? ==>
              && ByPosition(Insert(rows, e).value)
              && multiset(Insert(rows, e).value) == multiset(rows) + multiset{e}
    decreases |rows|
  {
    if rows != [] {
      var n := |rows| - 1;
      var front, last := rows[..n], rows[n];
      assert rows == front + [last];
      if last.position > e.position {
        InsertMeans(front, e);
        TakenInFront(rows, e.position);
        if Insert(front, e).Some? {
          var r := Insert(front, e).value;
          forall i | 0 <= i < |r|
            ensures r[i].position < last.position
          {
            assert r[i] in multiset(r);
            assert r[i] in multiset(front) || r[i] == e;
          }
        }
      }
    }
  }

  lemma TakenInFront(rows: seq<Entry>, position: int)
    requires rows != [] && rows[|rows| - 1].position > position
    ensures TakenIn(rows, position) <==> TakenIn(rows[..|rows| - 1], position)
  {
    var front := rows[..|rows| - 1];
    if i :| 0 <= i < |front| && front[i].position == position {
      assert rows[i] == front[i];
    }
    if i :| 0 <= i < |rows| && rows[i].position == position {
      assert front[i] == rows[i];
    }
  }

  lemma TakenAfter(rows: seq<Entry>, e: Entry, more: seq<Entry>, position: int)
    requires multiset(more) == multiset(rows) + multiset{e}
    ensures TakenIn(more, position) <==> TakenIn(rows, position) || e.position == position
  {
    assert e in multiset(more);
    if i :| 0 <= i < |more| && more[i].position == position {
      assert more[i] in multiset(more);
      assert more[i] in multiset(rows) || more[i] == e;
    }
    if i :| 0 <= i < |rows| && rows[i].position == position {
      assert rows[i] in multiset(more);
    }
  }

  // The entries fit among the rows: their positions are free, and their own.
  predicate Fit(rows: seq<Entry>, entries: seq<Entry>) {
    AllApart(entries) && forall i | 0 <= i < |entries| :: !TakenIn(rows, entries[i].position)
  }

  lemma FitRest(rows: seq<Entry>, entries: seq<Entry>, more: seq<Entry>)
    requires entries != [] && multiset(more) == multiset(rows) + multiset{entries[0]}
    requires !TakenIn(rows, entries[0].position)
    ensures Fit(rows, entries) <==> Fit(more, entries[1..])
  {
    hide TakenIn;
    var rest := entries[1..];
    forall i | 0 <= i < |rest|
      ensures TakenIn(more, rest[i].position) <==>
              TakenIn(rows, entries[i + 1].position) || entries[0].position == entries[i + 1].position
    {
      TakenAfter(rows, entries[0], more, rest[i].position);
    }
    if Fit(more, rest) {
      forall i, j | 0 <= i < j < |entries|
        ensures entries[i].position != entries[j].position
      {
        assert entries[j] == rest[j - 1];
        if i > 0 {
          assert entries[i] == rest[i - 1];
        }
      }
      forall i | 0 <= i < |entries|
        ensures !TakenIn(rows, entries[i].position)
      {
        if i > 0 {
          assert entries[i] == rest[i - 1];
        }
      }
    }
  }

  lemma {:induction false} InsertAllMeans(rows: seq<Entry>, entries: seq<Entry>)
    requires ByPosition(rows)
    ensures InsertAll(rows, entries).Some? <==> Fit(rows, entries)
    ensures InsertAll(rows, entries).Some? ==>
              && ByPosition(InsertAll(rows, entries).value)
              && multiset(InsertAll(rows, entries).value) == multiset(rows) + multiset(entries)
    decreases |entries|
  {
    hide ByPosition;
    hide Insert;
    if entries != [] {
      InsertMeans(rows, entries[0]);
      assert entries == [entries[0]] + entries[1..];
      hide TakenIn;
      if Insert(rows, entries[0]).Some? {
        var more := Insert(rows, entries[0]).value;
        FitRest(rows, entries, more);
        InsertAllMeans(more, entries[1..]);
      }
    }
  }

  lemma ManifestRows(entries: seq<Entry>)
    ensures InsertAll([], entries).Some? <==> AllApart(entries)
    ensures InsertAll([], entries).Some? ==> InOrderOf(InsertAll([], entries).value, entries)
  {
    InsertAllMeans([], entries);
  }

  class Store {
    var blobs: map<Str, Bytes>
    var resources: map<Str, Resource>
    var snapshots: map<Str, Snapshot>
    var materializations: map<Str, Materialization>
    var bySnapshot: map<Str, Str>
    var tags: map<(Str, Str), Str>
    var runs: map<Str, Run>
    var mounts: map<Str, seq<Entry>>
    var manifests: map<Str, Manifest>
    var byRun: map<Str, Str>

    constructor ()
      ensures State() == EMPTY
    {
      blobs, resources, snapshots, materializations, bySnapshot := map[], map[], map[], map[], map[];
      tags, runs, mounts, manifests, byRun := map[], map[], map[], map[], map[];
    }

    function State(): Db
      reads this
    {
      Db(blobs, resources, snapshots, materializations, bySnapshot, tags, runs, mounts, manifests, byRun)
    }

    method PutBlob(sha: Sha, content: Bytes) returns (hash: Str)
      modifies this`blobs
      ensures hash == ContentHash(sha, content) && State() == Database.PutBlob(sha, old(State()), content)
      ensures Extends(old(State()), State())
      ensures DbOk(sha, old(State())) ==> DbOk(sha, State())
      ensures blobs.Keys == old(blobs.Keys) + {HexEncode(sha(content))}
      ensures HexEncode(sha(content)) !in old(blobs) ==> blobs[HexEncode(sha(content))] == content
      ensures forall k | k in old(blobs) :: blobs[k] == old(blobs)[k]
    {
      PutBlobKeeps(sha, State(), content);
      var digest := HexEncode(sha(content));
      if digest !in blobs {
        blobs := blobs[digest := content];
      }
      hash := HASH_PREFIX + digest;
    }

    method CreateResource(uri: Str, policy: Policy) returns (r: Result<Outcome>)
      modifies this`resources
      ensures var made := Database.CreateResource(old(State()), uri, policy);
              r == (if made.Ok? then Ok(Done) else Err(made.error)) &&
              State() == if made.Ok? then made.value else old(State())
      ensures Extends(old(State()), State())
      ensures r == if policy.strategy == Unknown || uri in old(resources) then Err(Conflict) else Ok(Done)
      ensures resources == if r.Ok? then old(resources)[uri := Resource(StoredPolicy(policy), [])] else old(resources)
    {
      ResourceWritesExtend(State(), uri, policy, []);
      if policy.strategy == Unknown || uri in resources {
        return Err(Conflict);
      }
      resources := resources[uri := Resource(StoredPolicy(policy), [])];
      return Ok(Done);
    }

    method UpdateCurrentSnapshot(uri: Str, snapshotId: Str) returns (r: Result<Outcome>)
      modifies this`resources
      ensures var made := SetCurrent(old(State()), uri, snapshotId);
              r == (if made.Ok? then Ok(Done) else Err(made.error)) &&
              State() == if made.Ok? then made.value else old(State())
      ensures Extends(old(State()), State())
      ensures r == if uri in old(resources) then Ok(Done) else Err(ResourceNotFound)
      ensures resources == if r.Ok? then old(resources)[uri := Resource(old(resources)[uri].policy, snapshotId)]
                           else old(resources)
    {
      ResourceWritesExtend(State(), uri, Policy(Unknown, 0, []), snapshotId);
      if uri !in resources {
        return Err(ResourceNotFound);
      }
      resources := resources[uri := Resource(resources[uri].policy, snapshotId)];
      return Ok(Done);
    }

    method CreateSnapshot(snap: Snapshot) returns (r: Result<Outcome>)
      modifies this`snapshots
      ensures var made := Database.CreateSnapshot(old(State()), snap);
              r == (if made.Ok? then Ok(Done) else Err(made.error)) &&
              State() == if made.Ok? then made.value else old(State())
      ensures Extends(old(State()), State())
      ensures r == if snap.snapshotId in old(snapshots) then Err(Conflict) else Ok(Done)
      ensures snapshots == if r.Ok? then old(snapshots)[snap.snapshotId := snap] else old(snapshots)
    {
      CreateSnapshotExtends(State(), snap);
      if snap.snapshotId in snapshots {
        return Err(Conflict);
      }
      snapshots := snapshots[snap.snapshotId := snap];
      return Ok(Done);
    }

    method CreateMaterialization(mat: Materialization) returns (r: Result<Outcome>)
      modifies this`materializations, this`bySnapshot
      ensures var made := Database.CreateMaterialization(old(State()), mat);
              r == (if made.Ok? then Ok(Done) else Err(made.error)) &&
              State() == if made.Ok? then made.value else old(State())
      ensures Extends(old(State()), State())
      ensures r == if mat.materializationId in old(materializations) || mat.snapshotId in old(bySnapshot)
                   then Err(Conflict) else Ok(Done)
      ensures materializations == if r.Ok? then old(materializations)[mat.materializationId := mat]
                                  else old(materializations)
      ensures bySnapshot == if r.Ok? then old(bySnapshot)[mat.snapshotId := mat.materializationId] else old(bySnapshot)
    {
      CreateMaterializationExtends(State(), mat);
      if mat.materializationId in materializations || mat.snapshotId in bySnapshot {
        return Err(Conflict);
      }
      materializations := materializations[mat.materializationId := mat];
      bySnapshot := bySnapshot[mat.snapshotId := mat.materializationId];
      return Ok(Done);
    }

    method StartRun(runId: Str) returns (r: Result<Outcome>)
      modifies this`runs, this`mounts
      ensures var made := Database.StartRun(old(State()), runId);
              r == (if made.Ok? then Ok(Done) else Err(made.error)) &&
              State() == if made.Ok? then made.value else old(State())
      ensures old(mounts.Keys) == old(runs.Keys) ==> Extends(old(State()), State()) && mounts.Keys == runs.Keys
      ensures r == if runId in old(runs) then Err(Conflict) else Ok(Done)
      ensures runs == if r.Ok? then old(runs)[runId := Run(false, [])] else old(runs)
      ensures mounts == if r.Ok? then old(mounts)[runId := []] else old(mounts)
    {
      StartKeeps(State(), runId);
      if runId in runs {
        return Err(Conflict);
      }
      runs := runs[runId := Run(false, [])];
      mounts := mounts[runId := []];
      return Ok(Done);
    }

    method AppendMount(runId: Str, e: Entry) returns (r: Result<Outcome>)
      modifies this`mounts
      ensures var made := Database.AppendMount(old(State()), runId, e);
              r == (if made.Ok? then Ok(Done) else Err(made.error)) &&
              State() == if made.Ok? then made.value else old(State())
      ensures Dense(old(ListMounts(State(), runId))) && 0 <= e.position <= |old(ListMounts(State(), runId))| ==>
                Extends(old(State()), State()) && Dense(ListMounts(State(), runId))
      ensures ByPosition(old(ListMounts(State(), runId))) ==>
                && (r == if TakenIn(old(ListMounts(State(), runId)), e.position) then Err(Conflict) else Ok(Done))
                && (r.Ok? ==> ByPosition(ListMounts(State(), runId)) &&
                              multiset(ListMounts(State(), runId)) ==
                              multiset(old(ListMounts(State(), runId))) + multiset{e})
      ensures mounts == if r.Ok? then old(mounts)[runId := ListMounts(State(), runId)] else old(mounts)
    {
      AppendMountKeeps(State(), runId, e);
      AppendMountMeans(State(), runId, e);
      ExtendsItself(State());
      hide Extends;
      hide Dense;
      hide ByPosition;
      hide TakenIn;
      hide Insert;
      var rows := Insert(ListMounts(State(), runId), e);
      if rows.None? {
        return Err(Conflict);
      }
      mounts := mounts[runId := rows.value];
      return Ok(Done);
    }

    method MarkCommitted(runId: Str, manifestId: Str)
      modifies this`runs
      ensures State() == Database.MarkCommitted(old(State()), runId, manifestId)
      ensures (runId in old(runs) && old(runs)[runId].committed ==> old(runs)[runId].manifestId == manifestId) ==>
                Extends(old(State()), State())
      ensures runs == if runId in old(runs) then old(runs)[runId := Run(true, manifestId)] else old(runs)
    {
      MarkKeeps(State(), runId, manifestId);
      if runId in runs {
        runs := runs[runId := Run(true, manifestId)];
      }
    }

    // The entry rows go in one by one; a row that does not fit rolls everything back.
    method CreateManifest(m: Manifest) returns (r: Result<Outcome>)
      modifies this`manifests, this`byRun
      ensures var made := Database.CreateManifest(old(State()), m);
              r == (if made.Ok? then Ok(Done) else Err(made.error)) &&
              State() == if made.Ok? then made.value else old(State())
      ensures Extends(old(State()), State())
      ensures r == if m.manifestId in old(manifests) || m.runId in old(byRun) || !AllApart(m.entries)
                   then Err(Conflict) else Ok(Done)
      ensures byRun == if r.Ok? then old(byRun)[m.runId := m.manifestId] else old(byRun)
      ensures r.Err? ==> manifests == old(manifests)
      ensures r.Ok? ==> exists rows :: InOrderOf(rows, m.entries) &&
                                       manifests == old(manifests)[m.manifestId := m.(entries := rows)]
    {
      CreateManifestExtends(State(), m);
      ManifestRows(m.entries);
      ExtendsItself(State());
      hide InOrderOf;
      hide AllApart;
      hide Extends;
      if m.manifestId in manifests || m.runId in byRun {
        return Err(Conflict);
      }
      var rows: seq<Entry> := [];
      for i := 0 to |m.entries|
        invariant InsertAll(rows, m.entries[i..]) == InsertAll([], m.entries)
      {
        var more := Insert(rows, m.entries[i]);
        assert m.entries[i..][1..] == m.entries[i + 1..];
        if more.None? {
          return Err(Conflict);
        }
        rows := more.value;
      }
      manifests := manifests[m.manifestId := m.(entries := rows)];
      byRun := byRun[m.runId := m.manifestId];
      return Ok(Done);
    }

    // TagStore.Set: the tag must be well named and its snapshot must belong to the resource.
    method SetTag(sha: Sha, uri: Str, name: Str, snapshotId: Str, env: Env) returns (r: Result<Outcome>)
      requires !env.fail
      modifies this`tags
      ensures Call(sha, old(State()), Operation.SetTag(uri, name, snapshotId), env) == (State(), r)
    {
      if !ValidName(name) {
        return Err(InvalidTagName);
      }
      ghost var c0 := AtTagOwner(uri, name, snapshotId);
      Unroll(sha, State(), c0, env);
      if snapshotId !in snapshots {
        return Err(SnapshotNotFound);
      }
      if snapshots[snapshotId].resourceUri != uri {
        return Err(TagSnapshotMismatch);
      }
      Unroll(sha, State(), AtTagUpsert(uri, name, snapshotId), env);
      tags := tags[(uri, name) := snapshotId];
      return Ok(Done);
    }

    method DeleteTag(sha: Sha, uri: Str, name: Str, env: Env) returns (r: Result<Outcome>)
      requires !env.fail
      modifies this`tags
      ensures Call(sha, old(State()), RemoveTag(uri, name), env) == (State(), r)
    {
      Unroll(sha, State(), AtTagDelete(uri, name), env);
      if (uri, name) !in tags {
        return Err(TagNotFound);
      }
      tags := tags - {(uri, name)};
      return Ok(Done);
    }
  }
}
