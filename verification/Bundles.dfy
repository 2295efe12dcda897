/**
  internal/evidence/bundle.go, build.go and merkle.go: an evidence bundle and how
  it is put together from what a store answers.
 */
module Bundles {
  import opened ByteStrings
  import opened Merkle
  import opened Database
  import opened Replay

  /******* Base64 (section 4 of RFC 4648), as any encoding a decoder inverts *******/

  datatype Codec = Codec(encode: Bytes -> Str, decode: Str -> Option<Bytes>)

  ghost predicate Inverts(c: Codec) {
    forall b: Bytes :: c.decode(c.encode(b)) == Some(b) && (c.encode(b) == [] <==> b == [])
  }

  type Base64 = c: Codec | Inverts(c) ghost witness Codec(b => b, s => Some(s))

  /******* Bundles *******/

  datatype BundleEntry = BundleEntry(
    position: int, uri: Str, ref: Str, snapshotId: Str, materializationId: Str, contentHash: Str,
    observedAt: int, size: nat, details: Details, contentB64: Str)

  // policy is None for a uri whose resource definition is gone.
  datatype BundleResource = BundleResource(uri: Str, policy: Option<Policy>)

  datatype ReplayRow = ReplayRow(position: int, matches: bool, expectedHash: Str, actualHash: Str)

  datatype ReplayProblem = Fine | Failed(error: Error) | Short(got: nat, of: nat)

  datatype ReplayRecord = ReplayRecord(allMatch: bool, rows: seq<ReplayRow>, problem: ReplayProblem)

  datatype Subject = Subject(name: Str, digest: Str)

  datatype StatementKind = InTotoStatement | OtherStatement
  datatype PredicateKind = ReadproofEvidence | OtherPredicate

  datatype Bundle = Bundle(
    statement: StatementKind, subject: seq<Subject>, predicateKind: PredicateKind,
    runId: Str, manifestId: Str, manifestCreatedAt: int, generatedAt: int,
    merkleRoot: Str, entries: seq<BundleEntry>, resources: seq<BundleResource>, replay: ReplayRecord)

  // The projection the Merkle leaf commits to.
  function LeafOf(e: BundleEntry): LeafEntry { LeafEntry(e.position, e.uri, e.contentHash) }

  function LeavesOf(entries: seq<BundleEntry>): (leaves: seq<LeafEntry>)
    ensures |leaves| == |entries|
    ensures forall i | 0 <= i < |entries| ::
              leaves[i].position == entries[i].position && leaves[i].uri == entries[i].uri
              && leaves[i].hash == entries[i].contentHash
  {
    seq(|entries|, i requires 0 <= i < |entries| => LeafOf(entries[i]))
  }

  function BundleRoot(sha: Sha, entries: seq<BundleEntry>): Str {
    MerkleRoot(sha, LeavesOf(entries))
  }

  method ComputeRoot(sha: Sha, entries: seq<BundleEntry>) returns (root: Str)
    ensures root == BundleRoot(sha, entries)
  {
    var leaves: seq<Str> := [];
    for i := 0 to |entries|
      invariant leaves == LeafStrings(sha, LeavesOf(entries))[..i]
    {
      var e := entries[i];
      var leaf := Leaf(sha, e.position, e.uri, e.contentHash);
      leaves := leaves + [leaf];
    }
    assert leaves == LeafStrings(sha, LeavesOf(entries));
    TwoExportersOneRoot(sha, LeavesOf(entries));
    root := Root(sha, leaves);
  }

  /******* Entries *******/

  function ByPosition(results: seq<EntryResult>): map<int, EntryResult>
    decreases |results|
  {
    if results == [] then map[]
    else
      var last := results[|results| - 1];
      ByPosition(results[..|results| - 1])[last.position := last]
  }

  // i is the last result for position p.
  ghost predicate LastAt(results: seq<EntryResult>, p: int, i: nat) {
    && i < |results| && results[i].position == p
    && forall j | i < j < |results| :: results[j].position != p
  }

  // The index holds, for every position replayed, its last result.
  lemma {:induction false} ByPositionIff(results: seq<EntryResult>, p: int, e: EntryResult)
    ensures p in ByPosition(results) && ByPosition(results)[p] == e <==>
            exists i: nat :: LastAt(results, p, i) && results[i] == e
    decreases |results|
  {
    if results != [] {
      var n := |results| - 1;
      ByPositionIff(results[..n], p, e);
      if results[n].position == p {
        assert LastAt(results, p, n);
      } else {
        if i: nat :| LastAt(results[..n], p, i) && results[..n][i] == e {
          assert LastAt(results, p, i);
        }
        if i: nat :| LastAt(results, p, i) && results[i] == e {
          assert LastAt(results[..n], p, i) && results[..n][i] == e;
        }
      }
    }
  }

  function Hydrate(b64: Base64, e: Entry, snap: Snapshot, content: Option<Bytes>): BundleEntry {
    BundleEntry(
      e.position, e.uri, e.ref, e.snapshotId, e.materializationId, e.contentHash,
      snap.observedAt, snap.size, snap.details, if content.Some? then b64.encode(content.value) else [])
  }

  function ContentAt(replayed: map<int, EntryResult>, position: int, withContent: bool): Option<Bytes> {
    if withContent && position in replayed then Some(replayed[position].content) else None
  }

  function BuildEntry(
    b64: Base64, db: Db, e: Entry, replayed: map<int, EntryResult>, withContent: bool): Result<BundleEntry>
  {
    match GetSnapshot(db, e.snapshotId)
    case Err(x) => Err(x)
    case Ok(snap) => Ok(Hydrate(b64, e, snap, ContentAt(replayed, e.position, withContent)))
  }

  // The first entry whose snapshot is missing decides the error.
  function EntriesSpec(
    b64: Base64, db: Db, entries: seq<Entry>, replayed: map<int, EntryResult>, withContent: bool)
    : (r: Result<seq<BundleEntry>>)
    ensures r.Ok? ==> |r.value| == |entries|
    decreases |entries|
  {
    if entries == [] then Ok([])
    else
      var n := |entries| - 1;
      match EntriesSpec(b64, db, entries[..n], replayed, withContent)
      case Err(x) => Err(x)
      case Ok(front) =>
        match BuildEntry(b64, db, entries[n], replayed, withContent)
        case Err(x) => Err(x)
        case Ok(last) => Ok(front + [last])
  }

  lemma {:induction false} EntriesError(
    b64: Base64, db: Db, entries: seq<Entry>, replayed: map<int, EntryResult>, withContent: bool, n: nat)
    requires n <= |entries| && EntriesSpec(b64, db, entries[..n], replayed, withContent).Err?
    ensures EntriesSpec(b64, db, entries, replayed, withContent) ==
            EntriesSpec(b64, db, entries[..n], replayed, withContent)
    decreases |entries| - n
  {
    if n < |entries| {
      assert entries[..n + 1][..n] == entries[..n];
      EntriesError(b64, db, entries, replayed, withContent, n + 1);
    } else {
      assert entries[..n] == entries;
    }
  }

  // b is e, what e's snapshot says about its source, and the replayed bytes if they are asked for.
  ghost predicate EntryBuilt(
    b64: Base64, db: Db, e: Entry, replayed: map<int, EntryResult>, withContent: bool, b: BundleEntry)
  {
    && b.position == e.position && b.uri == e.uri && b.ref == e.ref
    && b.snapshotId == e.snapshotId && b.materializationId == e.materializationId && b.contentHash == e.contentHash
    && e.snapshotId in db.snapshots && b.observedAt == db.snapshots[e.snapshotId].observedAt
    && b.size == db.snapshots[e.snapshotId].size && b.details == db.snapshots[e.snapshotId].details
    && if withContent && e.position in replayed
       then b64.decode(b.contentB64) == Some(replayed[e.position].content)
            && b.contentB64 == b64.encode(replayed[e.position].content)
       else b.contentB64 == []
  }

  ghost predicate EntriesBuilt(
    b64: Base64, db: Db, entries: seq<Entry>, replayed: map<int, EntryResult>, withContent: bool,
    r: Result<seq<BundleEntry>>)
  {
    match r
    case Ok(built) =>
      && |built| == |entries|
      && forall i | 0 <= i < |entries| :: EntryBuilt(b64, db, entries[i], replayed, withContent, built[i])
    case Err(x) => x == SnapshotNotFound && exists i :: 0 <= i < |entries| && entries[i].snapshotId !in db.snapshots
  }

  lemma {:induction false} EntriesMean(
    b64: Base64, db: Db, entries: seq<Entry>, replayed: map<int, EntryResult>, withContent: bool)
    ensures EntriesBuilt(b64, db, entries, replayed, withContent, EntriesSpec(b64, db, entries, replayed, withContent))
    decreases |entries|
  {
    if entries != [] {
      var n := |entries| - 1;
      EntriesMean(b64, db, entries[..n], replayed, withContent);
      EntryMeans(b64, db, entries[n], replayed, withContent);
      hide EntryBuilt;
      hide BuildEntry;
      OneMoreBuilt(b64, db, entries, replayed, withContent);
    }
  }

  lemma OneMoreBuilt(b64: Base64, db: Db, entries: seq<Entry>, replayed: map<int, EntryResult>, withContent: bool)
    requires entries != []
    requires var front := entries[..|entries| - 1];
             EntriesBuilt(b64, db, front, replayed, withContent, EntriesSpec(b64, db, front, replayed, withContent))
    requires match BuildEntry(b64, db, entries[|entries| - 1], replayed, withContent)
             case Ok(b) => EntryBuilt(b64, db, entries[|entries| - 1], replayed, withContent, b)
             case Err(x) => x == SnapshotNotFound && entries[|entries| - 1].snapshotId !in db.snapshots
    ensures EntriesBuilt(b64, db, entries, replayed, withContent, EntriesSpec(b64, db, entries, replayed, withContent))
  {
    hide EntryBuilt;
    hide BuildEntry;
    var n := |entries| - 1;
    if EntriesSpec(b64, db, entries[..n], replayed, withContent).Err? {
      var i :| 0 <= i < n && entries[..n][i].snapshotId !in db.snapshots;
      assert entries[i].snapshotId !in db.snapshots;
    }
  }

  lemma EntryMeans(b64: Base64, db: Db, e: Entry, replayed: map<int, EntryResult>, withContent: bool)
    ensures match BuildEntry(b64, db, e, replayed, withContent)
            case Ok(b) => EntryBuilt(b64, db, e, replayed, withContent, b)
            case Err(x) => x == SnapshotNotFound && e.snapshotId !in db.snapshots
  {
  }

  method BuildEntries(
    b64: Base64, db: Db, man: Manifest, replayed: map<int, EntryResult>, withContent: bool)
    returns (r: Result<seq<BundleEntry>>)
    ensures r == EntriesSpec(b64, db, man.entries, replayed, withContent)
    ensures EntriesBuilt(b64, db, man.entries, replayed, withContent, r)
  {
    EntriesMean(b64, db, man.entries, replayed, withContent);
    hide EntriesBuilt;
    var out: seq<BundleEntry> := [];
    for i := 0 to |man.entries|
      invariant EntriesSpec(b64, db, man.entries[..i], replayed, withContent) == Ok(out)
    {
      var me := man.entries[i];
      assert man.entries[..i + 1][..i] == man.entries[..i];
      var snap := GetSnapshot(db, me.snapshotId);
      if snap.Err? {
        EntriesError(b64, db, man.entries, replayed, withContent, i + 1);
        return Err(snap.error);
      }
      var contentB64: Str := [];
      if withContent && me.position in replayed {
        contentB64 := b64.encode(replayed[me.position].content);
      }
      out := out + [BundleEntry(
        me.position, me.uri, me.ref, me.snapshotId, me.materializationId, me.contentHash,
        snap.value.observedAt, snap.value.size, snap.value.details, contentB64)];
    }
    assert man.entries[..|man.entries|] == man.entries;
    return Ok(out);
  }

  /******* Resources *******/

  function ResourceOf(db: Db, uri: Str): BundleResource {
    BundleResource(uri, if uri in db.resources then Some(db.resources[uri].policy) else None)
  }

  function Uris(entries: seq<Entry>): set<Str> {
    set i | 0 <= i < |entries| :: entries[i].uri
  }

  // Each uri once, in the order of its first entry.
  function ResourcesSpec(db: Db, entries: seq<Entry>): seq<BundleResource>
    decreases |entries|
  {
    if entries == [] then []
    else
      var n := |entries| - 1;
      var front := ResourcesSpec(db, entries[..n]);
      if entries[n].uri in Uris(entries[..n]) then front else front + [ResourceOf(db, entries[n].uri)]
  }

  // The definition registered for its uri, or that there is none.
  ghost predicate DefinedAs(db: Db, r: BundleResource) {
    r.policy == if r.uri in db.resources then Some(db.resources[r.uri].policy) else None
  }

  ghost predicate FirstAt(entries: seq<Entry>, uri: Str, i: nat) {
    i < |entries| && entries[i].uri == uri && forall k | 0 <= k < i :: entries[k].uri != uri
  }

  // Resource k is that of the uri that comes first at entry at[k]; none is missing.
  ghost predicate ListedAt(db: Db, entries: seq<Entry>, out: seq<BundleResource>, at: seq<nat>) {
    && |at| == |out|
    && (forall k | 0 <= k < |out| :: DefinedAs(db, out[k]) && FirstAt(entries, out[k].uri, at[k]))
    && (forall k, l | 0 <= k < l < |at| :: at[k] < at[l])
    && (forall i | 0 <= i < |entries| :: Lists(out, entries[i].uri))
  }

  ghost predicate Lists(out: seq<BundleResource>, uri: Str) {
    exists k :: 0 <= k < |out| && out[k].uri == uri
  }

  // The uris of the entries, in the order they come first, with their definitions.
  ghost predicate ListsResources(db: Db, entries: seq<Entry>, out: seq<BundleResource>) {
    exists at :: ListedAt(db, entries, out, at)
  }

  lemma FirstStays(entries: seq<Entry>, n: nat, uri: Str, i: nat)
    requires n <= |entries| && FirstAt(entries[..n], uri, i)
    ensures FirstAt(entries, uri, i)
  {
    forall k | 0 <= k < i
      ensures entries[k].uri != uri
    {
      assert entries[..n][k] == entries[k];
    }
  }

  lemma KnownUri(db: Db, entries: seq<Entry>, front: seq<BundleResource>)
    requires entries != [] && ListsResources(db, entries[..|entries| - 1], front)
    requires entries[|entries| - 1].uri in Uris(entries[..|entries| - 1])
    ensures ListsResources(db, entries, front)
  {
    hide Lists;
    var n := |entries| - 1;
    var at :| ListedAt(db, entries[..n], front, at);
    forall k | 0 <= k < |front|
      ensures FirstAt(entries, front[k].uri, at[k])
    {
      FirstStays(entries, n, front[k].uri, at[k]);
    }
    var m :| 0 <= m < n && entries[..n][m].uri == entries[n].uri;
    forall i | 0 <= i < |entries|
      ensures Lists(front, entries[i].uri)
    {
      assert Lists(front, entries[..n][if i < n then i else m].uri);
    }
    assert ListedAt(db, entries, front, at);
  }

  lemma ListsMore(front: seq<BundleResource>, r: BundleResource, uri: Str)
    ensures Lists(front, uri) || r.uri == uri ==> Lists(front + [r], uri)
  {
    if k :| 0 <= k < |front| && front[k].uri == uri {
      assert (front + [r])[k] == front[k];
    }
    assert (front + [r])[|front|] == r;
  }

  lemma NewUri(db: Db, entries: seq<Entry>, front: seq<BundleResource>, r: BundleResource)
    requires entries != [] && ListsResources(db, entries[..|entries| - 1], front)
    requires entries[|entries| - 1].uri !in Uris(entries[..|entries| - 1])
    requires DefinedAs(db, r) && r.uri == entries[|entries| - 1].uri
    ensures ListsResources(db, entries, front + [r])
  {
    hide Lists;
    var n, out := |entries| - 1, front + [r];
    var before :| ListedAt(db, entries[..n], front, before);
    var at: seq<nat> := before + [n];
    forall k | 0 <= k < n
      ensures entries[k].uri != r.uri
    {
      assert entries[..n][k].uri in Uris(entries[..n]);
    }
    forall k | 0 <= k < |front|
      ensures FirstAt(entries, out[k].uri, at[k]) && at[k] < n
    {
      FirstStays(entries, n, front[k].uri, before[k]);
    }
    forall i | 0 <= i < |entries|
      ensures Lists(out, entries[i].uri)
    {
      ListsMore(front, r, entries[i].uri);
      if i < n {
        assert Lists(front, entries[..n][i].uri);
      }
    }
    assert ListedAt(db, entries, out, at);
  }

  lemma {:induction false} ResourcesMean(db: Db, entries: seq<Entry>)
    ensures ListsResources(db, entries, ResourcesSpec(db, entries))
    decreases |entries|
  {
    if entries == [] {
      assert ListedAt(db, entries, [], []);
    } else {
      var n := |entries| - 1;
      ResourcesMean(db, entries[..n]);
      hide ListsResources;
      var front := ResourcesSpec(db, entries[..n]);
      if entries[n].uri in Uris(entries[..n]) {
        KnownUri(db, entries, front);
      } else {
        NewUri(db, entries, front, ResourceOf(db, entries[n].uri));
      }
    }
  }

  method BuildResources(db: Db, man: Manifest) returns (out: seq<BundleResource>)
    ensures out == ResourcesSpec(db, man.entries) && ListsResources(db, man.entries, out)
  {
    ResourcesMean(db, man.entries);
    hide ListsResources;
    var seen: map<Str, bool> := map[];
    out := [];
    for i := 0 to |man.entries|
      invariant seen.Keys == Uris(man.entries[..i])
      invariant out == ResourcesSpec(db, man.entries[..i])
    {
      var me := man.entries[i];
      assert man.entries[..i + 1][..i] == man.entries[..i];
      UrisOfOneMore(man.entries, i);
      if me.uri in seen {
        continue;
      }
      seen := seen[me.uri := true];
      if me.uri in db.resources {
        out := out + [BundleResource(me.uri, Some(db.resources[me.uri].policy))];
      } else {
        out := out + [BundleResource(me.uri, None)];
      }
    }
    assert man.entries[..|man.entries|] == man.entries;
  }

  lemma UrisOfOneMore(entries: seq<Entry>, i: nat)
    requires i < |entries|
    ensures Uris(entries[..i + 1]) == Uris(entries[..i]) + {entries[i].uri}
  {
    var s, t := entries[..i], entries[..i + 1];
    assert t == s + [entries[i]];
    forall u | u in Uris(t)
      ensures u in Uris(s) + {entries[i].uri}
    {
      var k :| 0 <= k < |t| && t[k].uri == u;
      assert k < i ==> s[k].uri == u;
    }
    forall u | u in Uris(s)
      ensures u in Uris(t)
    {
      var k :| 0 <= k < |s| && s[k].uri == u;
      assert t[k].uri == u;
    }
    assert t[i].uri in Uris(t);
  }

  predicate OnceEach(resources: seq<BundleResource>) {
    forall i, j | 0 <= i < j < |resources| :: resources[i].uri != resources[j].uri
  }

  // Every uri of the manifest exactly once, and no other.
  lemma {:induction false} ResourcesAreOnceEach(db: Db, entries: seq<Entry>)
    ensures OnceEach(ResourcesSpec(db, entries))
    ensures forall u :: u in Uris(entries) <==> ResourceOf(db, u) in ResourcesSpec(db, entries)
    ensures forall r | r in ResourcesSpec(db, entries) :: r == ResourceOf(db, r.uri)
    decreases |entries|
  {
    if entries == [] {
    } else {
      var n := |entries| - 1;
      ResourcesAreOnceEach(db, entries[..n]);
      UrisOfOneMore(entries, n);
      assert entries[..n + 1] == entries;
      var front, whole := ResourcesSpec(db, entries[..n]), ResourcesSpec(db, entries);
      if whole != front {
        forall i | 0 <= i < |front|
          ensures front[i].uri != entries[n].uri
        {
          assert front[i] in front;
        }
      }
    }
  }

  /******* The replay record *******/

  function RowOf(e: EntryResult): ReplayRow {
    ReplayRow(e.position, e.matches, e.recordedHash, e.replayedHash)
  }

  function ReplaySpec(man: Manifest, result: Result<Replayed>): ReplayRecord {
    match result
    case Err(e) => ReplayRecord(false, [], Failed(e))
    case Ok(r) =>
      ReplayRecord(
        AllMatch(r) && |r.entries| == |man.entries|,
        seq(|r.entries|, i requires 0 <= i < |r.entries| => RowOf(r.entries[i])),
        if |r.entries| == |man.entries| then Fine else Short(|r.entries|, |man.entries|))
  }

  // A row for every result, in order; all match only if each does and none is missing.
  ghost predicate RecordsReplay(man: Manifest, result: Result<Replayed>, r: ReplayRecord) {
    match result
    case Err(e) => !r.allMatch && r.rows == [] && r.problem == Failed(e)
    case Ok(v) =>
      && |r.rows| == |v.entries|
      && (forall i | 0 <= i < |v.entries| ::
            && r.rows[i].position == v.entries[i].position && (r.rows[i].matches <==> v.entries[i].matches)
            && r.rows[i].expectedHash == v.entries[i].recordedHash
            && r.rows[i].actualHash == v.entries[i].replayedHash)
      && (r.allMatch <==> |v.entries| == |man.entries| && forall i | 0 <= i < |v.entries| :: v.entries[i].matches)
      && r.problem == if |v.entries| == |man.entries| then Fine else Short(|v.entries|, |man.entries|)
  }

  lemma RecordMeans(man: Manifest, result: Result<Replayed>)
    ensures RecordsReplay(man, result, ReplaySpec(man, result))
  {
  }

  method BuildReplay(man: Manifest, result: Result<Replayed>) returns (r: ReplayRecord)
    ensures r == ReplaySpec(man, result) && RecordsReplay(man, result, r)
  {
    RecordMeans(man, result);
    hide RecordsReplay;
    if result.Err? {
      return ReplayRecord(false, [], Failed(result.error));
    }
    var rows: seq<ReplayRow> := [];
    for i := 0 to |result.value.entries|
      invariant |rows| == i && forall k | 0 <= k < i :: rows[k] == RowOf(result.value.entries[k])
    {
      var e := result.value.entries[i];
      rows := rows + [ReplayRow(e.position, e.matches, e.recordedHash, e.replayedHash)];
    }
    var all := AllMatchLoop(result.value);
    r := ReplayRecord(all, rows, Fine);
    if |result.value.entries| != |man.entries| {
      r := r.(allMatch := false, problem := Short(|result.value.entries|, |man.entries|));
    }
  }

  /******* The bundle *******/

  function Found(r: Result<Replayed>): seq<EntryResult> {
    match r
    case Ok(v) => v.entries
    case Err(_) => []
  }

  function BuildSpec(
    sha: Sha, b64: Base64, db: Db, target: Str, withContent: bool, now: int): Result<Bundle>
  {
    match GetByIdOrRun(db, target)
    case Err(x) => Err(x)
    case Ok(man) =>
      var replayed := ReplayTarget(sha, db, target);
      match EntriesSpec(b64, db, man.entries, ByPosition(Found(replayed)), withContent)
      case Err(x) => Err(x)
      case Ok(entries) =>
        var root := BundleRoot(sha, entries);
        Ok(Bundle(
          InTotoStatement, [Subject(man.manifestId, root)], ReadproofEvidence,
          man.runId, man.manifestId, man.createdAt, now,
          root, entries, ResourcesSpec(db, man.entries), ReplaySpec(man, replayed)))
  }

  // The (position, uri, hash) list of a manifest.
  predicate AreLeavesOf(leaves: seq<LeafEntry>, entries: seq<Entry>) {
    && |leaves| == |entries|
    && forall i | 0 <= i < |entries| ::
         leaves[i].position == entries[i].position && leaves[i].uri == entries[i].uri
         && leaves[i].hash == entries[i].contentHash
  }

  // b is the bundle for m: its identity, the root over its entries, the entries
  // themselves, the definitions of its uris and the record of this replay.
  ghost predicate BundleFor(
    sha: Sha, b64: Base64, db: Db, m: Manifest, replayed: Result<Replayed>, withContent: bool, now: int, b: Bundle)
  {
    && b.statement == InTotoStatement && b.predicateKind == ReadproofEvidence
    && b.subject == [Subject(m.manifestId, b.merkleRoot)]
    && b.runId == m.runId && b.manifestId == m.manifestId && b.manifestCreatedAt == m.createdAt && b.generatedAt == now
    && (forall leaves | AreLeavesOf(leaves, m.entries) :: b.merkleRoot == MerkleRoot(sha, leaves))
    && EntriesBuilt(b64, db, m.entries, ByPosition(Found(replayed)), withContent, Ok(b.entries))
    && ListsResources(db, m.entries, b.resources) && RecordsReplay(m, replayed, b.replay)
  }

  ghost predicate BundleOf(
    sha: Sha, b64: Base64, db: Db, target: Str, withContent: bool, now: int, r: Result<Bundle>)
  {
    match r
    case Ok(b) => exists m :: Names(db, target, m) &&
                              BundleFor(sha, b64, db, m, ReplayTarget(sha, db, target), withContent, now, b)
    case Err(x) =>
      || (x == ManifestNotFound && forall m :: !Names(db, target, m))
      || (x == SnapshotNotFound && exists m :: Names(db, target, m) && LacksSnapshot(db, m.entries))
  }

  ghost predicate LacksSnapshot(db: Db, entries: seq<Entry>) {
    exists i :: 0 <= i < |entries| && entries[i].snapshotId !in db.snapshots
  }

  lemma RootMeans(
    sha: Sha, b64: Base64, db: Db, entries: seq<Entry>, replayed: map<int, EntryResult>, withContent: bool,
    built: seq<BundleEntry>, leaves: seq<LeafEntry>)
    requires EntriesBuilt(b64, db, entries, replayed, withContent, Ok(built)) && AreLeavesOf(leaves, entries)
    ensures BundleRoot(sha, built) == MerkleRoot(sha, leaves)
  {
    assert LeavesOf(built) == leaves;
  }

  // MAIN RESULT. Whatever the tables hold, this is what Build returns.
  lemma BuildMeans(sha: Sha, b64: Base64, db: Db, target: Str, withContent: bool, now: int)
    ensures BundleOf(sha, b64, db, target, withContent, now, BuildSpec(sha, b64, db, target, withContent, now))
  {
    hide ListsResources;
    hide RecordsReplay;
    hide ReplayTarget;
    hide BundleRoot;
    if GetByIdOrRun(db, target).Ok? {
      var m, result := GetByIdOrRun(db, target).value, ReplayTarget(sha, db, target);
      var replayed := ByPosition(Found(result));
      assert Names(db, target, m);
      EntriesMean(b64, db, m.entries, replayed, withContent);
      ResourcesMean(db, m.entries);
      RecordMeans(m, result);
      hide EntryBuilt;
      var entries := EntriesSpec(b64, db, m.entries, replayed, withContent);
      if entries.Ok? {
        hide EntriesBuilt;
        forall leaves | AreLeavesOf(leaves, m.entries)
          ensures BundleRoot(sha, entries.value) == MerkleRoot(sha, leaves)
        {
          RootMeans(sha, b64, db, m.entries, replayed, withContent, entries.value, leaves);
        }
        assert BundleFor(sha, b64, db, m, result, withContent, now,
                         BuildSpec(sha, b64, db, target, withContent, now).value);
      } else {
        assert LacksSnapshot(db, m.entries);
      }
    }
  }

  method Build(sha: Sha, b64: Base64, db: Db, target: Str, withContent: bool, now: int)
    returns (r: Result<Bundle>)
    ensures r == BuildSpec(sha, b64, db, target, withContent, now)
    ensures BundleOf(sha, b64, db, target, withContent, now, r)
  {
    BuildMeans(sha, b64, db, target, withContent, now);
    hide BundleOf;
    hide ReplayOf;
    hide EntriesBuilt;
    hide ListsResources;
    hide RecordsReplay;
    var loaded := GetByIdOrRun(db, target);
    if loaded.Err? {
      return Err(loaded.error);
    }
    var man := loaded.value;
    var replayed := ReplayManifest(sha, db, target);
    var results := Found(replayed);
    var byPosition: map<int, EntryResult> := map[];
    for i := 0 to |results|
      invariant byPosition == ByPosition(results[..i])
    {
      assert results[..i + 1][..i] == results[..i];
      byPosition := byPosition[results[i].position := results[i]];
    }
    assert results[..|results|] == results;
    var entries := BuildEntries(b64, db, man, byPosition, withContent);
    if entries.Err? {
      return Err(entries.error);
    }
    var resources := BuildResources(db, man);
    var root := ComputeRoot(sha, entries.value);
    var replay := BuildReplay(man, replayed);
    return Ok(Bundle(
      InTotoStatement, [Subject(man.manifestId, root)], ReadproofEvidence,
      man.runId, man.manifestId, man.createdAt, now,
      root, entries.value, resources, replay));
  }
}
