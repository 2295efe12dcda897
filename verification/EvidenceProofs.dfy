/**
  What evidence bundles are worth: whatever Build exports from a consistent store
  passes Verify, then and later; and what a passing Verify says about the store.
 */
module EvidenceProofs {
  import opened ByteStrings
  import opened Merkle
  import opened MerkleProofs
  import opened Database
  import opened Clients
  import opened Invariants
  import opened Replay
  import opened Interleaving
  import opened Bundles
  import opened Verification

  // The leaves Builder.Commit computes the run's root from.
  function CommitLeaves(entries: seq<Entry>): (leaves: seq<LeafEntry>)
    ensures AreLeavesOf(leaves, entries)
  {
    seq(|entries|, i requires 0 <= i < |entries| =>
      LeafEntry(entries[i].position, entries[i].uri, entries[i].contentHash))
  }

  function CommitRoot(sha: Sha, man: Manifest): Str { MerkleRoot(sha, CommitLeaves(man.entries)) }

  /******* Indexing by position *******/

  lemma {:induction false} DenseIndex(results: seq<EntryResult>)
    requires forall i | 0 <= i < |results| :: results[i].position == i
    ensures forall p :: p in ByPosition(results) <==> 0 <= p < |results|
    ensures forall i | 0 <= i < |results| :: ByPosition(results)[i] == results[i]
    ensures forall p :: p in HashByPosition(results) <==> 0 <= p < |results|
    ensures forall i | 0 <= i < |results| :: HashByPosition(results)[i] == results[i].replayedHash
    decreases |results|
  {
    if results != [] {
      DenseIndex(results[..|results| - 1]);
    }
  }

  /******* Completeness *******/

  // The bundle entry for e: its own fields, its snapshot's, and if asked for the bytes
  // stored under its hash, which hash to it.
  ghost predicate Describes(sha: Sha, b64: Base64, db: Db, e: Entry, b: BundleEntry, withContent: bool) {
    && b.position == e.position && b.uri == e.uri && b.ref == e.ref
    && b.snapshotId == e.snapshotId && b.materializationId == e.materializationId && b.contentHash == e.contentHash
    && e.snapshotId in db.snapshots && b.observedAt == db.snapshots[e.snapshotId].observedAt
    && b.size == db.snapshots[e.snapshotId].size && b.details == db.snapshots[e.snapshotId].details
    && if withContent then IsContentHash(e.contentHash) && CarriesBytes(sha, b64, db, e.contentHash, b.contentB64)
       else b.contentB64 == []
  }

  ghost predicate CarriesBytes(sha: Sha, b64: Base64, db: Db, hash: Str, contentB64: Str)
    requires IsContentHash(hash)
  {
    && hash[7..] in db.blobs && ContentHash(sha, db.blobs[hash[7..]]) == hash
    && b64.decode(contentB64) == Some(db.blobs[hash[7..]]) && contentB64 == b64.encode(db.blobs[hash[7..]])
  }

  lemma EntryHasSnapshot(sha: Sha, db: Db, e: Entry)
    requires DbOk(sha, db) && EntryOk(db.materializations, e)
    ensures e.snapshotId in db.snapshots && IsContentHash(e.contentHash)
  {
    assert Stored(db.blobs, db.snapshots[e.snapshotId].contentHash);
  }

  lemma EntryDescribed(
    sha: Sha, b64: Base64, db: Db, e: Entry, replayed: map<int, EntryResult>, withContent: bool, b: BundleEntry)
    requires EntryBuilt(b64, db, e, replayed, withContent, b) && e.position in replayed
    requires HasBytes(db, e.contentHash, replayed[e.position].content)
    requires ContentHash(sha, replayed[e.position].content) == e.contentHash
    ensures Describes(sha, b64, db, e, b, withContent)
  {
    hide ContentHash;
  }

  lemma EntriesBuild(
    sha: Sha, b64: Base64, db: Db, entries: seq<Entry>, replayed: map<int, EntryResult>, withContent: bool)
    requires DbOk(sha, db)
    requires forall i | 0 <= i < |entries| ::
               && EntryOk(db.materializations, entries[i])
               && entries[i].position in replayed
               && HasBytes(db, entries[i].contentHash, replayed[entries[i].position].content)
               && ContentHash(sha, replayed[entries[i].position].content) == entries[i].contentHash
    ensures var r := EntriesSpec(b64, db, entries, replayed, withContent);
            r.Ok? && forall i | 0 <= i < |entries| :: Describes(sha, b64, db, entries[i], r.value[i], withContent)
  {
    hide DbOk;
    hide EntryOk;
    hide ContentHash;
    hide EntryBuilt;
    hide Describes;
    hide HasBytes;
    hide EntriesSpec;
    EntriesMean(b64, db, entries, replayed, withContent);
    forall i | 0 <= i < |entries|
      ensures entries[i].snapshotId in db.snapshots
    {
      EntryHasSnapshot(sha, db, entries[i]);
    }
    var r := EntriesSpec(b64, db, entries, replayed, withContent);
    forall i | 0 <= i < |entries|
      ensures Describes(sha, b64, db, entries[i], r.value[i], withContent)
    {
      EntryDescribed(sha, b64, db, entries[i], replayed, withContent, r.value[i]);
    }
  }

  // What Build exports for manifest man.
  ghost predicate Exports(sha: Sha, b64: Base64, db: Db, man: Manifest, withContent: bool, now: int, b: Bundle) {
    && b.statement == InTotoStatement && b.predicateKind == ReadproofEvidence
    && b.manifestId == man.manifestId && b.runId == man.runId && b.manifestCreatedAt == man.createdAt
    && b.subject == [Subject(man.manifestId, CommitRoot(sha, man))] && b.merkleRoot == CommitRoot(sha, man)
    && |b.entries| == |man.entries|
    && (forall i | 0 <= i < |man.entries| :: Describes(sha, b64, db, man.entries[i], b.entries[i], withContent))
    && b.generatedAt == now && b.replay.allMatch && b.replay.problem == Fine
    && |b.replay.rows| == |man.entries|
    && forall i | 0 <= i < |man.entries| :: RowMatches(man.entries[i], b.replay.rows[i])
  }

  // The entry's bytes still hash to what it recorded.
  ghost predicate RowMatches(e: Entry, row: ReplayRow) {
    row.position == e.position && row.matches && row.expectedHash == e.contentHash && row.actualHash == e.contentHash
  }

  lemma DescribedLeaves(sha: Sha, b64: Base64, db: Db, entries: seq<Entry>, built: seq<BundleEntry>, withContent: bool)
    requires |built| == |entries|
    requires forall i | 0 <= i < |entries| :: Describes(sha, b64, db, entries[i], built[i], withContent)
    ensures LeavesOf(built) == CommitLeaves(entries)
  {
    forall i | 0 <= i < |entries|
      ensures LeafOf(built[i]) == LeafEntry(entries[i].position, entries[i].uri, entries[i].contentHash)
    {
      assert Describes(sha, b64, db, entries[i], built[i], withContent);
    }
  }

  lemma LookedUp(sha: Sha, db: Db, target: Str)
    requires DbOk(sha, db) && GetByIdOrRun(db, target).Ok?
    ensures var man := GetByIdOrRun(db, target).value;
            && man.manifestId in db.manifests && db.manifests[man.manifestId] == man && man.manifestId != []
            && GetByIdOrRun(db, man.manifestId) == Ok(man)
            && ReplayTarget(sha, db, target) == ReplayTarget(sha, db, man.manifestId)
  {
  }

  // The bytes replayed for an entry are those stored under its own hash.
  lemma ReplayedBytes(sha: Sha, db: Db, e: Entry, r: EntryResult)
    requires EntryOk(db.materializations, e) && Replays(sha, db, e, r) && r.replayedHash == e.contentHash
    ensures HasBytes(db, e.contentHash, r.content) && ContentHash(sha, r.content) == e.contentHash
  {
    hide ContentHash;
  }

  // Every entry of the manifest, read and found as recorded.
  ghost predicate WhollyReplayed(sha: Sha, db: Db, man: Manifest, v: Replayed) {
    && |v.entries| == |man.entries|
    && forall i | 0 <= i < |man.entries| ::
         v.entries[i].position == i == man.entries[i].position && FoundAsRecorded(sha, db, man.entries[i], v.entries[i])
  }

  ghost predicate FoundAsRecorded(sha: Sha, db: Db, e: Entry, r: EntryResult) {
    && r.matches && r.recordedHash == e.contentHash && r.replayedHash == e.contentHash
    && HasBytes(db, e.contentHash, r.content) && ContentHash(sha, r.content) == e.contentHash
    && EntryOk(db.materializations, e)
  }

  lemma ManifestReplayed(sha: Sha, db: Db, man: Manifest)
    requires DbOk(sha, db) && man.manifestId in db.manifests && db.manifests[man.manifestId] == man
    ensures ReplayTarget(sha, db, man.manifestId).Ok?
    ensures WhollyReplayed(sha, db, man, ReplayTarget(sha, db, man.manifestId).value)
  {
    hide DbOk;
    hide EntryOk;
    hide ReplayTarget;
    hide HasBytes;
    hide ContentHash;
    ManifestEntriesOk(sha, db, man.manifestId);
    ManifestReplays(sha, db, man.manifestId);
    ReplayMeans(sha, db, man.manifestId);
    var v := ReplayTarget(sha, db, man.manifestId).value;
    forall i | 0 <= i < |man.entries|
      ensures FoundAsRecorded(sha, db, man.entries[i], v.entries[i])
    {
      ReplayedBytes(sha, db, man.entries[i], v.entries[i]);
    }
  }

  lemma WholeEntries(sha: Sha, b64: Base64, db: Db, man: Manifest, v: Replayed, withContent: bool)
    requires DbOk(sha, db) && WhollyReplayed(sha, db, man, v)
    ensures var r := EntriesSpec(b64, db, man.entries, ByPosition(v.entries), withContent);
            && r.Ok?
            && (forall i | 0 <= i < |man.entries| :: Describes(sha, b64, db, man.entries[i], r.value[i], withContent))
            && BundleRoot(sha, r.value) == CommitRoot(sha, man)
  {
    hide DbOk;
    hide EntryOk;
    hide ContentHash;
    hide HasBytes;
    hide Describes;
    hide EntriesSpec;
    DenseIndex(v.entries);
    EntriesBuild(sha, b64, db, man.entries, ByPosition(v.entries), withContent);
    var built := EntriesSpec(b64, db, man.entries, ByPosition(v.entries), withContent).value;
    DescribedLeaves(sha, b64, db, man.entries, built, withContent);
  }

  lemma WholeRecord(sha: Sha, db: Db, man: Manifest, v: Replayed)
    requires WhollyReplayed(sha, db, man, v)
    ensures var record := ReplaySpec(man, Ok(v));
            && record.allMatch && record.problem == Fine && |record.rows| == |man.entries|
            && forall i | 0 <= i < |man.entries| :: RowMatches(man.entries[i], record.rows[i])
  {
    hide EntryOk;
    hide ContentHash;
    hide HasBytes;
    RecordMeans(man, Ok(v));
    hide ReplaySpec;
  }

  // Build succeeds for every manifest of a consistent store, and its root is the one
  // the commit computed.
  lemma BuildExports(sha: Sha, b64: Base64, db: Db, target: Str, withContent: bool, now: int)
    requires DbOk(sha, db) && GetByIdOrRun(db, target).Ok?
    ensures var r := BuildSpec(sha, b64, db, target, withContent, now);
            r.Ok? && Exports(sha, b64, db, GetByIdOrRun(db, target).value, withContent, now, r.value)
  {
    hide DbOk;
    hide GetByIdOrRun;
    hide ReplayTarget;
    hide WhollyReplayed;
    hide Describes;
    hide RowMatches;
    hide EntriesSpec;
    hide ByPosition;
    hide ReplaySpec;
    hide ResourcesSpec;
    hide BundleRoot;
    hide CommitRoot;
    LookedUp(sha, db, target);
    var man := GetByIdOrRun(db, target).value;
    ManifestReplayed(sha, db, man);
    var v := ReplayTarget(sha, db, target).value;
    WholeEntries(sha, b64, db, man, v, withContent);
    WholeRecord(sha, db, man, v);
  }

  lemma ExportedIsConsistent(sha: Sha, b64: Base64, db: Db, man: Manifest, withContent: bool, now: int, b: Bundle)
    requires Exports(sha, b64, db, man, withContent, now, b) && Dense(man.entries)
    ensures Consistent(sha, b64, b)
  {
    DescribedLeaves(sha, b64, db, man.entries, b.entries, withContent);
    forall i | 0 <= i < |b.entries|
      ensures b.entries[i].position == i && ContentHolds(sha, b64, b.entries[i])
    {
      assert Describes(sha, b64, db, man.entries[i], b.entries[i], withContent);
    }
  }

  // The store confirms a bundle exactly when it has as many entries as the manifest
  // looked up, at positions the manifest has, with the recorded hashes.
  ghost predicate SameHashes(b: Bundle, man: Manifest) {
    && |b.entries| == |man.entries|
    && forall i | 0 <= i < |b.entries| ::
         && 0 <= b.entries[i].position < |man.entries|
         && b.entries[i].contentHash == man.entries[b.entries[i].position].contentHash
  }

  lemma StoreConfirms(sha: Sha, db: Db, b: Bundle)
    requires DbOk(sha, db)
    ensures var replayed := ReplayTarget(sha, db, Target(b));
            replayed.Ok? && MatchesReplay(b, replayed.value.entries) <==>
            GetByIdOrRun(db, Target(b)).Ok? && SameHashes(b, GetByIdOrRun(db, Target(b)).value)
  {
    hide DbOk;
    if GetByIdOrRun(db, Target(b)).Ok? {
      hide ReplayTarget;
      LookedUp(sha, db, Target(b));
      var man := GetByIdOrRun(db, Target(b)).value;
      ManifestReplays(sha, db, man.manifestId);
      DenseIndex(ReplayTarget(sha, db, Target(b)).value.entries);
    }
  }

  /******* Soundness *******/

  // MAIN RESULT. With a client, Verify passes exactly for the bundles that are
  // consistent with themselves and carry, at positions 0 .. n-1, the hashes of the
  // manifest the store has under the bundle's id: all of them and no others.
  lemma VerifyAgainstStoreMeaning(sha: Sha, b64: Base64, b: Bundle, db: Db)
    requires DbOk(sha, db)
    ensures AllOk(VerifyChecks(sha, b64, b, Some(db))) <==>
            && Consistent(sha, b64, b)
            && GetByIdOrRun(db, Target(b)).Ok?
            && var man := GetByIdOrRun(db, Target(b)).value;
               && |b.entries| == |man.entries|
               && forall i | 0 <= i < |b.entries| ::
                    b.entries[i].position == i && b.entries[i].contentHash == man.entries[i].contentHash
  {
    hide DbOk;
    hide VerifyChecks;
    VerifyMeaning(sha, b64, b, Some(db));
    StoreConfirms(sha, db, b);
  }

  // MAIN RESULT. If in addition the subject digest is the root computed at commit, the
  // bundle's (position, uri, hash) list is the committed one, unless two strings
  // hashed for the two roots collide.
  lemma VerifiedDigestBinds(sha: Sha, b64: Base64, b: Bundle, db: Db)
    requires DbOk(sha, db) && AllOk(VerifyChecks(sha, b64, b, Some(db))) && |b.entries| <= UINT32
    requires b.subject != [] && GetByIdOrRun(db, Target(b)).Ok?
    requires b.subject[0].digest == CommitRoot(sha, GetByIdOrRun(db, Target(b)).value)
    ensures var committed := CommitLeaves(GetByIdOrRun(db, Target(b)).value.entries);
            || LeavesOf(b.entries) == committed
            || !CollisionFree(sha, HashInputs(sha, LeavesOf(b.entries)) + HashInputs(sha, committed))
  {
    hide DbOk;
    hide VerifyChecks;
    VerifyAgainstStoreMeaning(sha, b64, b, db);
    LookedUp(sha, db, Target(b));
    var man := GetByIdOrRun(db, Target(b)).value;
    ManifestEntriesOk(sha, db, man.manifestId);
    forall i | 0 <= i < |man.entries|
      ensures IsContentHash(man.entries[i].contentHash)
    {
      EntryHasSnapshot(sha, db, man.entries[i]);
    }
    RootBinding(sha, LeavesOf(b.entries), CommitLeaves(man.entries));
  }

  // The store check does not read uris: entries that differ only there fare alike.
  lemma UrisAreNotCompared(sha: Sha, b64: Base64, b: Bundle, c: Bundle, db: Db)
    requires DbOk(sha, db) && Consistent(sha, b64, b) && Consistent(sha, b64, c)
    requires b.manifestId == c.manifestId && b.runId == c.runId && |b.entries| == |c.entries|
    requires forall i | 0 <= i < |b.entries| :: b.entries[i].contentHash == c.entries[i].contentHash
    ensures AllOk(VerifyChecks(sha, b64, b, Some(db))) <==> AllOk(VerifyChecks(sha, b64, c, Some(db)))
  {
    hide VerifyChecks;
    VerifyAgainstStoreMeaning(sha, b64, b, db);
    VerifyAgainstStoreMeaning(sha, b64, c, db);
  }

  /******* Completeness and stability *******/

  // MAIN RESULT. A bundle built from a consistent store, with or without content, by
  // manifest id or by run id, passes Verify offline and against every later store.
  lemma BuiltBundleVerifies(
    sha: Sha, b64: Base64, s: Db, t: Db, target: Str, withContent: bool, now: int)
    requires DbOk(sha, s) && DbOk(sha, t) && Extends(s, t) && GetByIdOrRun(s, target).Ok?
    ensures var r := BuildSpec(sha, b64, s, target, withContent, now);
            && r.Ok?
            && AllOk(VerifyChecks(sha, b64, r.value, None)) && AllOk(VerifyChecks(sha, b64, r.value, Some(t)))
  {
    hide DbOk;
    hide VerifyChecks;
    hide BuildSpec;
    LookedUp(sha, s, target);
    BuildExports(sha, b64, s, target, withContent, now);
    var b := BuildSpec(sha, b64, s, target, withContent, now).value;
    var man := GetByIdOrRun(s, target).value;
    ManifestEntriesOk(sha, s, man.manifestId);
    ExportedIsConsistent(sha, b64, s, man, withContent, now, b);
    VerifyMeaning(sha, b64, b, None);
    assert GetByIdOrRun(t, Target(b)) == Ok(man);
    forall i | 0 <= i < |b.entries|
      ensures b.entries[i].position == i && b.entries[i].contentHash == man.entries[i].contentHash
    {
      assert Describes(sha, b64, s, man.entries[i], b.entries[i], withContent);
    }
    VerifyAgainstStoreMeaning(sha, b64, b, t);
  }

  lemma {:induction false} EntriesSpecStable(
    sha: Sha, b64: Base64, s: Db, t: Db, entries: seq<Entry>, replayed: map<int, EntryResult>, withContent: bool)
    requires DbOk(sha, s) && Within(s.snapshots, t.snapshots)
    requires forall i | 0 <= i < |entries| :: EntryOk(s.materializations, entries[i])
    ensures EntriesSpec(b64, t, entries, replayed, withContent) == EntriesSpec(b64, s, entries, replayed, withContent)
    decreases |entries|
  {
    hide DbOk;
    hide EntryOk;
    if entries != [] {
      var n := |entries| - 1;
      EntriesSpecStable(sha, b64, s, t, entries[..n], replayed, withContent);
      EntryHasSnapshot(sha, s, entries[n]);
    }
  }

  // A run id keeps naming its manifest unless some later manifest takes it as its own id.
  lemma TargetStable(s: Db, t: Db, target: Str)
    requires Extends(s, t) && GetByIdOrRun(s, target).Ok? && (target in s.manifests || target !in t.manifests)
    ensures GetByIdOrRun(t, target) == GetByIdOrRun(s, target)
  {
  }

  // Every uri of the entries that is registered later was registered before.
  ghost predicate NoneRegistered(s: Db, t: Db, entries: seq<Entry>) {
    forall u | u in Uris(entries) && u in t.resources :: u in s.resources
  }

  lemma {:induction false} ResourcesSpecStable(s: Db, t: Db, entries: seq<Entry>)
    requires Extends(s, t) && NoneRegistered(s, t, entries)
    ensures ResourcesSpec(t, entries) == ResourcesSpec(s, entries)
    decreases |entries|
  {
    hide Uris;
    if entries != [] {
      var n := |entries| - 1;
      UrisOfOneMore(entries, n);
      assert entries[..n + 1] == entries;
      ResourcesSpecStable(s, t, entries[..n]);
      assert entries[n].uri in Uris(entries);
      hide Extends;
      SameDefinition(s, t, entries[n].uri);
    }
  }

  lemma SameDefinition(s: Db, t: Db, uri: Str)
    requires Extends(s, t) && (uri in t.resources ==> uri in s.resources)
    ensures ResourceOf(t, uri) == ResourceOf(s, uri)
  {
  }

  // Definitions never change, so the exported ones differ only by what was registered
  // in between.
  lemma ResourcesSameIff(s: Db, t: Db, entries: seq<Entry>)
    requires Extends(s, t)
    ensures ResourcesSpec(t, entries) == ResourcesSpec(s, entries) <==> NoneRegistered(s, t, entries)
  {
    if ResourcesSpec(t, entries) == ResourcesSpec(s, entries) {
      ResourcesAreOnceEach(s, entries);
      ResourcesAreOnceEach(t, entries);
      forall u | u in Uris(entries) && u in t.resources
        ensures u in s.resources
      {
        assert ResourceOf(t, u) in ResourcesSpec(s, entries);
        assert ResourceOf(t, u) == ResourceOf(s, u);
      }
    } else if NoneRegistered(s, t, entries) {
      ResourcesSpecStable(s, t, entries);
    }
  }

  lemma BuiltResources(sha: Sha, b64: Base64, db: Db, target: Str, withContent: bool, now: int)
    requires BuildSpec(sha, b64, db, target, withContent, now).Ok?
    ensures GetByIdOrRun(db, target).Ok?
    ensures BuildSpec(sha, b64, db, target, withContent, now).value.resources ==
            ResourcesSpec(db, GetByIdOrRun(db, target).value.entries)
  {
  }

  lemma RebuildReads(
    sha: Sha, b64: Base64, s: Db, t: Db, target: Str, withContent: bool, now: int, later: int)
    requires DbOk(sha, s) && DbOk(sha, t) && Extends(s, t) && GetByIdOrRun(s, target).Ok?
    requires target in s.manifests || target !in t.manifests
    ensures var a := BuildSpec(sha, b64, s, target, withContent, now);
            var b := BuildSpec(sha, b64, t, target, withContent, later);
            && a.Ok? && b.Ok? && b.value.entries == a.value.entries && b.value.merkleRoot == a.value.merkleRoot
            && b.value.subject == a.value.subject && b.value.replay == a.value.replay
  {
    hide DbOk;
    hide ReplayTarget;
    TargetStable(s, t, target);
    LookedUp(sha, s, target);
    LookedUp(sha, t, target);
    var man := GetByIdOrRun(s, target).value;
    ReplayStable(sha, s, t, man.manifestId);
    ManifestEntriesOk(sha, s, man.manifestId);
    BuildExports(sha, b64, s, target, withContent, now);
    BuildExports(sha, b64, t, target, withContent, later);
    EntriesSpecStable(sha, b64, s, t, man.entries, ByPosition(Found(ReplayTarget(sha, s, target))), withContent);
  }

  // The target names the same manifest later: it was a manifest's own id, or is still
  // none.
  predicate NamesTheSame(s: Db, t: Db, target: Str) {
    target in s.manifests || target !in t.manifests
  }

  lemma RebuiltManifest(sha: Sha, b64: Base64, s: Db, t: Db, target: Str, withContent: bool, now: int, later: int)
    requires DbOk(sha, s) && DbOk(sha, t) && Extends(s, t) && GetByIdOrRun(s, target).Ok?
    ensures var a := BuildSpec(sha, b64, s, target, withContent, now);
            var b := BuildSpec(sha, b64, t, target, withContent, later);
            a.Ok? && b.Ok? && (b.value.manifestId == a.value.manifestId <==> NamesTheSame(s, t, target))
  {
    LookedUp(sha, s, target);
    if NamesTheSame(s, t, target) {
      TargetStable(s, t, target);
    } else {
      assert t.manifests[target].manifestId == target;
    }
    hide DbOk;
    hide Extends;
    hide BuildSpec;
    BuildExports(sha, b64, s, target, withContent, now);
    BuildExports(sha, b64, t, target, withContent, later);
  }

  // MAIN RESULT. Building again later always succeeds. It is about the same manifest
  // exactly if the run id used has not become some manifest's id; then it gives the same
  // entries, the same root and the same replay record, and the same resource definitions
  // exactly if no resource of the manifest was registered in between.
  lemma RebuildIsTheSame(
    sha: Sha, b64: Base64, s: Db, t: Db, target: Str, withContent: bool, now: int, later: int)
    requires DbOk(sha, s) && DbOk(sha, t) && Extends(s, t) && GetByIdOrRun(s, target).Ok?
    ensures var a := BuildSpec(sha, b64, s, target, withContent, now);
            var b := BuildSpec(sha, b64, t, target, withContent, later);
            && a.Ok? && b.Ok?
            && (b.value.manifestId == a.value.manifestId <==> NamesTheSame(s, t, target))
            && (NamesTheSame(s, t, target) ==>
                  && b.value.entries == a.value.entries && b.value.merkleRoot == a.value.merkleRoot
                  && b.value.subject == a.value.subject && b.value.replay == a.value.replay
                  && (b.value.resources == a.value.resources <==>
                        NoneRegistered(s, t, GetByIdOrRun(s, target).value.entries)))
  {
    hide DbOk;
    hide BuildSpec;
    RebuiltManifest(sha, b64, s, t, target, withContent, now, later);
    if NamesTheSame(s, t, target) {
      TargetStable(s, t, target);
      hide Extends;
      hide NoneRegistered;
      RebuildReads(sha, b64, s, t, target, withContent, now, later);
      BuiltResources(sha, b64, s, target, withContent, now);
      BuiltResources(sha, b64, t, target, withContent, later);
      ResourcesSameIff(s, t, GetByIdOrRun(s, target).value.entries);
    }
  }

  // So in every run of interleaved calls, every manifest present can be exported and
  // the export keeps passing, whatever happens afterwards.
  lemma EvidenceOfEveryRun(
    sha: Sha, b64: Base64, before: seq<Action>, after: seq<Action>, id: Str, withContent: bool, now: int)
    requires id in Exec(sha, INITIAL, before).db.manifests
    ensures var s, t := Exec(sha, INITIAL, before).db, Exec(sha, Exec(sha, INITIAL, before), after).db;
            var r := BuildSpec(sha, b64, s, id, withContent, now);
            && r.Ok? && r.value.manifestId == id
            && r.value.merkleRoot == CommitRoot(sha, s.manifests[id])
            && AllOk(VerifyChecks(sha, b64, r.value, None)) && AllOk(VerifyChecks(sha, b64, r.value, Some(t)))
  {
    hide DbOk;
    hide Extends;
    hide VerifyChecks;
    hide BuildSpec;
    var s := Exec(sha, INITIAL, before);
    Reachable(sha, before);
    ExecKeeps(sha, s, after);
    var t := Exec(sha, s, after);
    ManifestEntriesOk(sha, s.db, id);
    LookedUp(sha, s.db, id);
    BuildExports(sha, b64, s.db, id, withContent, now);
    BuiltBundleVerifies(sha, b64, s.db, t.db, id, withContent, now);
  }
}
