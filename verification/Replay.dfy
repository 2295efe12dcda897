/**
  internal/replay: reconstruct a manifest's content from materializations and
  blobs alone, and compare what the bytes hash to with what was recorded.
 */
module Replay {
  import opened ByteStrings
  import opened Database

  datatype EntryResult = EntryResult(
    position: int, uri: Str, materializationId: Str, recordedHash: Str, replayedHash: Str, content: Bytes,
    matches: bool)

  datatype Replayed = Replayed(manifest: Manifest, entries: seq<EntryResult>)

  predicate AllMatch(r: Replayed) {
    forall i | 0 <= i < |r.entries| :: r.entries[i].matches
  }

  function ReplayContent(sha: Sha, e: Entry, content: Bytes): EntryResult {
    var hash := ContentHash(sha, content);
    EntryResult(e.position, e.uri, e.materializationId, e.contentHash, hash, content, e.contentHash == hash)
  }

  function ReplayEntry(sha: Sha, db: Db, e: Entry): Result<EntryResult> {
    match GetMaterialization(db, e.materializationId)
    case Err(x) => Err(x)
    case Ok(mat) =>
      match GetBlob(db, mat.contentHash)
      case Err(x) => Err(x)
      case Ok(content) => Ok(ReplayContent(sha, e, content))
  }

  // The first entry that cannot be read decides the error.
  function ReplayEntries(sha: Sha, db: Db, entries: seq<Entry>): (r: Result<seq<EntryResult>>)
    ensures r.Ok? ==> |r.value| == |entries|
    decreases |entries|
  {
    if entries == [] then Ok([])
    else
      var n := |entries| - 1;
      match ReplayEntries(sha, db, entries[..n])
      case Err(x) => Err(x)
      case Ok(front) =>
        match ReplayEntry(sha, db, entries[n])
        case Err(x) => Err(x)
        case Ok(last) => Ok(front + [last])
  }

  function ReplayTarget(sha: Sha, db: Db, target: Str): Result<Replayed> {
    match GetByIdOrRun(db, target)
    case Err(x) => Err(x)
    case Ok(m) =>
      match ReplayEntries(sha, db, m.entries)
      case Err(x) => Err(x)
      case Ok(entries) => Ok(Replayed(m, entries))
  }

  /******* What a replay says *******/

  // The manifest a target names: by its own id first, by its run's id otherwise.
  ghost predicate Names(db: Db, target: Str, m: Manifest) {
    if target in db.manifests then m == db.manifests[target]
    else target in db.byRun && db.byRun[target] in db.manifests && m == db.manifests[db.byRun[target]]
  }

  // The bytes stored under a content hash.
  ghost predicate HasBytes(db: Db, hash: Str, content: Bytes) {
    IsContentHash(hash) && hash[7..] in db.blobs && db.blobs[hash[7..]] == content
  }

  // r is e with the bytes of its materialization and what they hash to now.
  ghost predicate Replays(sha: Sha, db: Db, e: Entry, r: EntryResult) {
    && e.materializationId in db.materializations
    && HasBytes(db, db.materializations[e.materializationId].contentHash, r.content)
    && r.position == e.position && r.uri == e.uri && r.materializationId == e.materializationId
    && r.recordedHash == e.contentHash && r.replayedHash == ContentHash(sha, r.content)
    && (r.matches <==> ContentHash(sha, r.content) == e.contentHash)
  }

  // Why an entry cannot be replayed.
  ghost predicate Unreadable(db: Db, e: Entry, x: Error) {
    if e.materializationId !in db.materializations then x == MaterializationNotFound
    else
      var hash := db.materializations[e.materializationId].contentHash;
      if !IsContentHash(hash) then x == InvalidHash else hash[7..] !in db.blobs && x == BlobNotFound
  }

  // The entries before i can be replayed, and i cannot.
  ghost predicate FirstUnreadable(db: Db, entries: seq<Entry>, i: nat, x: Error) {
    && i < |entries| && Unreadable(db, entries[i], x)
    && forall k, y | 0 <= k < i :: !Unreadable(db, entries[k], y)
  }

  ghost predicate ReplayOf(sha: Sha, db: Db, target: Str, r: Result<Replayed>) {
    match r
    case Ok(v) =>
      && Names(db, target, v.manifest) && |v.entries| == |v.manifest.entries|
      && forall i | 0 <= i < |v.entries| :: Replays(sha, db, v.manifest.entries[i], v.entries[i])
    case Err(x) =>
      || (x == ManifestNotFound && forall m :: !Names(db, target, m))
      || exists m, i: nat :: Names(db, target, m) && FirstUnreadable(db, m.entries, i, x)
  }

  lemma ReplayEntryMeans(sha: Sha, db: Db, e: Entry)
    ensures match ReplayEntry(sha, db, e)
            case Ok(r) => Replays(sha, db, e, r) && forall y :: !Unreadable(db, e, y)
            case Err(x) => Unreadable(db, e, x)
  {
  }

  lemma LastUnreadable(db: Db, entries: seq<Entry>, x: Error)
    requires entries != [] && Unreadable(db, entries[|entries| - 1], x)
    requires forall k, y | 0 <= k < |entries| - 1 :: !Unreadable(db, entries[k], y)
    ensures exists i: nat :: FirstUnreadable(db, entries, i, x)
  {
    hide Unreadable;
    assert FirstUnreadable(db, entries, |entries| - 1, x);
  }

  ghost predicate EntriesReplayed(sha: Sha, db: Db, entries: seq<Entry>, r: Result<seq<EntryResult>>) {
    match r
    case Ok(v) =>
      && |v| == |entries| && (forall i | 0 <= i < |entries| :: Replays(sha, db, entries[i], v[i]))
      && (forall i, y | 0 <= i < |entries| :: !Unreadable(db, entries[i], y))
    case Err(x) => exists i: nat :: FirstUnreadable(db, entries, i, x)
  }

  lemma {:induction false} ReplayEntriesMean(sha: Sha, db: Db, entries: seq<Entry>)
    ensures EntriesReplayed(sha, db, entries, ReplayEntries(sha, db, entries))
    decreases |entries|
  {
    hide Replays;
    hide Unreadable;
    hide ReplayEntry;
    if entries != [] {
      var n := |entries| - 1;
      ReplayEntriesMean(sha, db, entries[..n]);
      ReplayEntryMeans(sha, db, entries[n]);
      var front, last := ReplayEntries(sha, db, entries[..n]), ReplayEntry(sha, db, entries[n]);
      if front.Err? {
        var i: nat :| FirstUnreadable(db, entries[..n], i, front.error);
        assert FirstUnreadable(db, entries, i, front.error);
        assert ReplayEntries(sha, db, entries) == Err(front.error);
      } else {
        forall k, y | 0 <= k < n
          ensures !Unreadable(db, entries[k], y)
        {
          assert !Unreadable(db, entries[..n][k], y);
        }
        if last.Err? {
          LastUnreadable(db, entries, last.error);
          assert ReplayEntries(sha, db, entries) == Err(last.error);
        } else {
          forall i | 0 <= i < n
            ensures Replays(sha, db, entries[i], front.value[i])
          {
            assert Replays(sha, db, entries[..n][i], front.value[i]);
          }
        }
      }
    }
  }

  // MAIN RESULT. Whatever the tables hold: the manifest the target names, each entry with
  // the bytes of its materialization, their hash, and whether it is the recorded one; or
  // the error of the first entry that cannot be read.
  lemma ReplayMeans(sha: Sha, db: Db, target: Str)
    ensures ReplayOf(sha, db, target, ReplayTarget(sha, db, target))
  {
    hide Replays;
    hide Unreadable;
    hide FirstUnreadable;
    match GetByIdOrRun(db, target)
    case Err(_) =>
    case Ok(m) =>
      assert Names(db, target, m);
      ReplayEntriesMean(sha, db, m.entries);
  }

  // An entry that cannot be read fails every longer replay.
  lemma {:induction false} ReplayEntriesError(sha: Sha, db: Db, entries: seq<Entry>, n: nat)
    requires n <= |entries| && ReplayEntries(sha, db, entries[..n]).Err?
    ensures ReplayEntries(sha, db, entries) == ReplayEntries(sha, db, entries[..n])
    decreases |entries| - n
  {
    if n < |entries| {
      assert entries[..n + 1][..n] == entries[..n];
      ReplayEntriesError(sha, db, entries, n + 1);
    } else {
      assert entries[..n] == entries;
    }
  }

  method AllMatchLoop(r: Replayed) returns (all: bool)
    ensures all == AllMatch(r)
  {
    for i := 0 to |r.entries|
      invariant forall j | 0 <= j < i :: r.entries[j].matches
    {
      if !r.entries[i].matches {
        return false;
      }
    }
    return true;
  }

  // One entry more, read in two steps.
  lemma OneMoreEntry(sha: Sha, db: Db, entries: seq<Entry>, i: nat, front: seq<EntryResult>)
    requires i < |entries| && ReplayEntries(sha, db, entries[..i]) == Ok(front)
    ensures var mat := GetMaterialization(db, entries[i].materializationId);
            ReplayEntries(sha, db, entries[..i + 1]) ==
            if mat.Err? then Err(mat.error)
            else
              var content := GetBlob(db, mat.value.contentHash);
              if content.Err? then Err(content.error)
              else Ok(front + [ReplayContent(sha, entries[i], content.value)])
  {
    hide GetMaterialization;
    hide GetBlob;
    hide ReplayContent;
    assert entries[..i + 1][..i] == entries[..i];
  }

  method ReplayManifest(sha: Sha, db: Db, manifestOrRun: Str) returns (r: Result<Replayed>)
    ensures r == ReplayTarget(sha, db, manifestOrRun) && ReplayOf(sha, db, manifestOrRun, r)
  {
    ReplayMeans(sha, db, manifestOrRun);
    hide ReplayOf;
    hide GetMaterialization;
    hide GetBlob;
    hide ReplayContent;
    hide GetByIdOrRun;
    hide ReplayEntries;
    NothingToReplay(sha, db);
    var loaded := GetByIdOrRun(db, manifestOrRun);
    if loaded.Err? {
      return Err(loaded.error);
    }
    var man := loaded.value;
    var entries: seq<EntryResult> := [];
    for i := 0 to |man.entries|
      invariant ReplayEntries(sha, db, man.entries[..i]) == Ok(entries)
    {
      var e := man.entries[i];
      OneMoreEntry(sha, db, man.entries, i, entries);
      var mat := GetMaterialization(db, e.materializationId);
      if mat.Err? {
        ReplayEntriesError(sha, db, man.entries, i + 1);
        return Err(mat.error);
      }
      var content := GetBlob(db, mat.value.contentHash);
      if content.Err? {
        ReplayEntriesError(sha, db, man.entries, i + 1);
        return Err(content.error);
      }
      entries := entries + [ReplayContent(sha, e, content.value)];
    }
    assert man.entries[..|man.entries|] == man.entries;
    return Ok(Replayed(man, entries));
  }

  lemma NothingToReplay(sha: Sha, db: Db)
    ensures ReplayEntries(sha, db, []) == Ok([])
  {
  }
}
