/**
  Safety over every run of any number of interleaved calls, each free to stop
  between any two store calls.
 */
module Interleaving {
  import opened ByteStrings
  import opened Database
  import opened Clients
  import opened Invariants
  import opened Replay

  ghost predicate SystemOk(sha: Sha, s: System) {
    && DbOk(sha, s.db)
    && forall k | k in s.clients :: ClientOk(sha, s.db, s.clients[k])
  }

  lemma InitialOk(sha: Sha)
    ensures SystemOk(sha, INITIAL)
  {
  }

  lemma BeginOk(sha: Sha, db: Db, op: Operation)
    ensures ClientOk(sha, db, Begin(op))
  {
  }

  lemma ActKeeps(sha: Sha, s: System, a: Action)
    requires SystemOk(sha, s)
    ensures SystemOk(sha, Act(sha, s, a)) && Extends(s.db, Act(sha, s, a).db)
  {
    hide DbOk;
    hide Extends;
    hide ClientOk;
    hide Step;
    hide Begin;
    ReadsOk(sha, s.db, []);
    match a
    case Arrive(id, op) => BeginOk(sha, s.db, op);
    case Advance(id, env) =>
      if id in s.clients {
        StepKeeps(sha, s.db, s.clients[id], env);
        var r := Step(sha, s.db, s.clients[id], env);
        forall k | k in s.clients
          ensures ClientOk(sha, r.0, s.clients[k])
        {
          ClientOkStable(sha, s.db, r.0, s.clients[k]);
        }
      }
  }

  // MAIN INVARIANT. Every run keeps the tables referentially closed and only extends them.
  lemma {:induction false} ExecKeeps(sha: Sha, s: System, actions: seq<Action>)
    requires SystemOk(sha, s)
    ensures SystemOk(sha, Exec(sha, s, actions)) && Extends(s.db, Exec(sha, s, actions).db)
    decreases |actions|
  {
    hide SystemOk;
    hide Extends;
    hide Act;
    if actions == [] {
      assert Extends(s.db, s.db) by { ExtendsReflexive(s.db); }
    } else {
      var t := Act(sha, s, actions[0]);
      ActKeeps(sha, s, actions[0]);
      ExecKeeps(sha, t, actions[1..]);
      ExtendsTransitive(s.db, t.db, Exec(sha, s, actions).db);
    }
  }

  lemma ExtendsReflexive(db: Db)
    ensures Extends(db, db)
  {
  }

  // The states a fresh system can reach.
  lemma Reachable(sha: Sha, actions: seq<Action>)
    ensures SystemOk(sha, Exec(sha, INITIAL, actions))
  {
    InitialOk(sha);
    ExecKeeps(sha, INITIAL, actions);
  }

  /******* Replay *******/

  ghost predicate ReplaysAs(sha: Sha, db: Db, e: Entry, content: Bytes) {
    ReplayEntry(sha, db, e) == Ok(ReplayContent(sha, e, content)) && ContentHash(sha, content) == e.contentHash
  }

  lemma EntryReplays(sha: Sha, db: Db, e: Entry) returns (content: Bytes)
    requires DbOk(sha, db) && EntryOk(db.materializations, e)
    ensures ReplaysAs(sha, db, e, content)
  {
    var mat := db.materializations[e.materializationId];
    assert mat.contentHash == db.snapshots[mat.snapshotId].contentHash;
    assert Stored(db.blobs, mat.contentHash);
    content := db.blobs[mat.contentHash[7..]];
    GetBlobOk(sha, db, mat.contentHash);
  }

  // Replaying an entry reads twice; other calls may write before either read.
  lemma EntryReplaysLater(sha: Sha, db: Db, e: Entry, atMat: Db, atBlob: Db)
    requires DbOk(sha, db) && EntryOk(db.materializations, e)
    requires Extends(db, atMat) && Extends(db, atBlob)
    ensures GetMaterialization(atMat, e.materializationId) == GetMaterialization(db, e.materializationId)
    ensures var hash := GetMaterialization(db, e.materializationId).value.contentHash;
            GetBlob(db, hash).Ok? && GetBlob(atBlob, hash) == GetBlob(db, hash)
  {
    var mat := db.materializations[e.materializationId];
    assert Stored(db.blobs, mat.contentHash);
  }

  lemma {:induction false} EntriesReplay(sha: Sha, db: Db, entries: seq<Entry>)
    requires DbOk(sha, db)
    requires forall i | 0 <= i < |entries| :: EntryOk(db.materializations, entries[i])
    ensures ReplayEntries(sha, db, entries).Ok?
    ensures var r := ReplayEntries(sha, db, entries).value;
            forall i | 0 <= i < |entries| ::
              ReplaysAs(sha, db, entries[i], r[i].content) && r[i] == ReplayContent(sha, entries[i], r[i].content)
    decreases |entries|
  {
    hide DbOk;
    hide EntryOk;
    if entries != [] {
      var n := |entries| - 1;
      EntriesReplay(sha, db, entries[..n]);
      var _ := EntryReplays(sha, db, entries[n]);
    }
  }

  lemma ManifestEntriesOk(sha: Sha, db: Db, id: Str)
    requires DbOk(sha, db) && id in db.manifests
    ensures var m := db.manifests[id];
            && m.manifestId == id && m.runId in db.mounts && m.entries <= db.mounts[m.runId]
            && Dense(m.entries)
            && forall i | 0 <= i < |m.entries| :: EntryOk(db.materializations, m.entries[i])
  {
    var m := db.manifests[id];
    var rows := db.mounts[m.runId];
    forall i | 0 <= i < |m.entries|
      ensures EntryOk(db.materializations, m.entries[i]) && m.entries[i].position == i
    {
      assert m.entries[i] == rows[i];
    }
  }

  lemma ManifestReplays(sha: Sha, db: Db, id: Str)
    requires DbOk(sha, db) && id in db.manifests
    ensures ReplayTarget(sha, db, id).Ok?
    ensures var r := ReplayTarget(sha, db, id).value;
            && r.manifest == db.manifests[id] && |r.entries| == |r.manifest.entries| && AllMatch(r)
            && forall i | 0 <= i < |r.entries| ::
                 && r.entries[i] == ReplayContent(sha, r.manifest.entries[i], r.entries[i].content)
                 && r.entries[i].replayedHash == r.manifest.entries[i].contentHash
                 && r.entries[i].position == i
  {
    hide DbOk;
    ManifestEntriesOk(sha, db, id);
    EntriesReplay(sha, db, db.manifests[id].entries);
  }

  // MAIN RESULT. However calls interleave, fail or stop, every manifest present replays and matches.
  lemma ReplaySafety(sha: Sha, actions: seq<Action>, id: Str)
    requires id in Exec(sha, INITIAL, actions).db.manifests
    ensures var db := Exec(sha, INITIAL, actions).db;
            && ReplayTarget(sha, db, id).Ok? && AllMatch(ReplayTarget(sha, db, id).value)
            && ReplayTarget(sha, db, id).value.manifest == db.manifests[id]
  {
    hide DbOk;
    Reachable(sha, actions);
    ManifestReplays(sha, Exec(sha, INITIAL, actions).db, id);
  }

  lemma {:induction false} ReplayEntriesStable(sha: Sha, s: Db, t: Db, entries: seq<Entry>)
    requires DbOk(sha, s) && Extends(s, t)
    requires forall i | 0 <= i < |entries| :: EntryOk(s.materializations, entries[i])
    ensures ReplayEntries(sha, t, entries) == ReplayEntries(sha, s, entries)
    decreases |entries|
  {
    hide DbOk;
    hide Extends;
    if entries != [] {
      var n := |entries| - 1;
      ReplayEntriesStable(sha, s, t, entries[..n]);
      EntryReplaysLater(sha, s, entries[n], t, t);
    }
  }

  // A manifest replays to the same bytes in every later state.
  lemma ReplayStable(sha: Sha, s: Db, t: Db, id: Str)
    requires DbOk(sha, s) && Extends(s, t) && id in s.manifests
    ensures ReplayTarget(sha, t, id) == ReplayTarget(sha, s, id)
  {
    hide DbOk;
    ManifestEntriesOk(sha, s, id);
    ReplayEntriesStable(sha, s, t, s.manifests[id].entries);
  }

  // MAIN RESULT. What Mount handed out is what the manifest replays, from the
  // moment the mount returned and in every later state, or the two byte strings
  // are themselves a collision that blob deduplication merged.
  lemma DeliveredIsReplayed(sha: Sha, before: seq<Action>, after: seq<Action>, k: nat, id: Str)
    requires var s := Exec(sha, INITIAL, before);
             k in s.clients && s.clients[k].Finished? && s.clients[k].result.Ok? && s.clients[k].result.value.GotMount?
    requires var s, t := Exec(sha, INITIAL, before), Exec(sha, Exec(sha, INITIAL, before), after);
             var mount := s.clients[k].result.value;
             && id in t.db.manifests && t.db.manifests[id].runId == mount.runId
             && mount.entry.position < |t.db.manifests[id].entries|
    ensures var s, t := Exec(sha, INITIAL, before), Exec(sha, Exec(sha, INITIAL, before), after);
            var mount := s.clients[k].result.value;
            var i := mount.entry.position;
            && 0 <= i && t.db.manifests[id].entries[i] == mount.entry
            && ReplayTarget(sha, t.db, id).Ok?
            && |ReplayTarget(sha, t.db, id).value.entries| == |t.db.manifests[id].entries|
            && var replayed := ReplayTarget(sha, t.db, id).value.entries[i].content;
               replayed == mount.resolved.content || Collide(sha, replayed, mount.resolved.content)
  {
    hide DbOk;
    hide Extends;
    var s := Exec(sha, INITIAL, before);
    var t := Exec(sha, s, after);
    Reachable(sha, before);
    ExecKeeps(sha, s, after);
    var mount := s.clients[k].result.value;
    ClientOkStable(sha, s.db, t.db, s.clients[k]);
    MountIsManifestEntry(sha, t.db, mount.runId, mount.entry, id);
    ManifestReplays(sha, t.db, id);
    var replayed := ReplayTarget(sha, t.db, id).value.entries[mount.entry.position];
    SameContentHash(sha, replayed.content, mount.resolved.content);
  }

  lemma MountIsManifestEntry(sha: Sha, db: Db, runId: Str, entry: Entry, id: Str)
    requires DbOk(sha, db) && MountRecorded(db, runId, entry)
    requires id in db.manifests && db.manifests[id].runId == runId && entry.position < |db.manifests[id].entries|
    ensures 0 <= entry.position && db.manifests[id].entries[entry.position] == entry
  {
    assert db.manifests[id].entries <= db.mounts[runId];
  }

  // Positions are dense and a manifest is a prefix of its run's mounts even when
  // mounts and commits of one run race.
  lemma ManifestIsPrefixOfMounts(sha: Sha, actions: seq<Action>, id: Str)
    requires id in Exec(sha, INITIAL, actions).db.manifests
    ensures var db := Exec(sha, INITIAL, actions).db;
            var m := db.manifests[id];
            && m.runId in db.runs && Dense(m.entries) && m.entries <= ListMounts(db, m.runId)
            && Dense(ListMounts(db, m.runId))
            && forall other | other in db.manifests && db.manifests[other].runId == m.runId :: other == id
  {
    Reachable(sha, actions);
    ManifestEntriesOk(sha, Exec(sha, INITIAL, actions).db, id);
  }

  // Every tag and every current pointer names a stored snapshot of its own
  // resource, whose bytes are in the blob store.
  lemma PointersNameOwnSnapshots(sha: Sha, actions: seq<Action>, uri: Str, name: Str)
    ensures var db := Exec(sha, INITIAL, actions).db;
            && ((uri, name) in db.tags ==>
                  var id := db.tags[(uri, name)];
                  && id in db.snapshots && db.snapshots[id].resourceUri == uri
                  && GetBlob(db, db.snapshots[id].contentHash).Ok?)
            && (uri in db.resources && db.resources[uri].currentSnapshotId != [] ==>
                  var id := db.resources[uri].currentSnapshotId;
                  && id in db.snapshots && db.snapshots[id].resourceUri == uri
                  && GetBlob(db, db.snapshots[id].contentHash).Ok?)
  {
    Reachable(sha, actions);
    var db := Exec(sha, INITIAL, actions).db;
    assert SnapshotsOk(db.snapshots, db.blobs, db.resources) && PointersOk(db.tags, db.resources, db.snapshots);
  }
}
