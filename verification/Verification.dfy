/**
  internal/evidence/verify.go: the checks a bundle is put through, in the order
  they are appended to the report, and what it means for all of them to pass.
 */
module Verification {
  import opened ByteStrings
  import opened Database
  import opened Replay
  import opened Bundles

  datatype CheckName =
    | StatementType | PredicateType
    | SubjectName | SubjectRoot | PredicateRoot
    | EntryOrder
    | ContentAt(position: int)
    | StoreReplay | StoreReplayAt(position: int) | StoreReplayCount

  datatype Check = Check(name: CheckName, ok: bool)

  predicate AllOk(checks: seq<Check>) {
    forall i | 0 <= i < |checks| :: checks[i].ok
  }

  lemma AllOkConcat(a: seq<Check>, b: seq<Check>)
    ensures AllOk(a + b) <==> AllOk(a) && AllOk(b)
  {
    if AllOk(a + b) {
      forall i | 0 <= i < |a| ensures a[i].ok { assert (a + b)[i] == a[i]; }
      forall i | 0 <= i < |b| ensures b[i].ok { assert (a + b)[|a| + i] == b[i]; }
    }
  }

  lemma AllOkOne(c: Check)
    ensures AllOk([c]) <==> c.ok
  {
    assert [c][0] == c;
  }

  class Report {
    var ok: bool
    var checks: seq<Check>
    var entries: nat
    var merkleRoot: Str
    var contentChecked: nat
    var replayChecked: bool
    var replayMatched: nat
    var replayTotal: nat

    // The verdict is never out of step with the checks behind it.
    ghost predicate Valid()
      reads this
    {
      ok == AllOk(checks)
    }

    constructor (n: nat)
      ensures Valid() && checks == [] && entries == n && replayTotal == n
      ensures merkleRoot == [] && contentChecked == 0 && !replayChecked && replayMatched == 0
    {
      ok, checks, entries, replayTotal := true, [], n, n;
      merkleRoot, contentChecked, replayChecked, replayMatched := [], 0, false, 0;
    }

    method Add(name: CheckName, passed: bool)
      requires Valid()
      modifies this`checks, this`ok
      ensures Valid() && checks == old(checks) + [Check(name, passed)]
    {
      AllOkConcat(checks, [Check(name, passed)]);
      AllOkOne(Check(name, passed));
      checks := checks + [Check(name, passed)];
      if !passed {
        ok := false;
      }
    }
  }

  /******* Statement *******/

  function StatementChecks(b: Bundle): seq<Check> {
    [Check(StatementType, b.statement == InTotoStatement), Check(PredicateType, b.predicateKind == ReadproofEvidence)]
  }

  method VerifyStatement(b: Bundle, report: Report)
    requires report.Valid()
    modifies report`checks, report`ok
    ensures report.Valid() && report.checks == old(report.checks) + StatementChecks(b)
  {
    if b.statement == InTotoStatement {
      report.Add(StatementType, true);
    } else {
      report.Add(StatementType, false);
    }
    if b.predicateKind == ReadproofEvidence {
      report.Add(PredicateType, true);
    } else {
      report.Add(PredicateType, false);
    }
  }

  /******* Merkle root *******/

  // With anything but one subject there is no digest to compare.
  function MerkleChecks(b: Bundle, root: Str): seq<Check> {
    [Check(SubjectName, |b.subject| == 1 && b.subject[0].name == b.manifestId)]
    + (if |b.subject| == 1 then [Check(SubjectRoot, b.subject[0].digest == root)] else [])
    + [Check(PredicateRoot, b.merkleRoot == root)]
  }

  method VerifyMerkle(sha: Sha, b: Bundle, report: Report) returns (root: Str)
    requires report.Valid()
    modifies report`checks, report`ok
    ensures root == BundleRoot(sha, b.entries)
    ensures report.Valid() && report.checks == old(report.checks) + MerkleChecks(b, root)
  {
    root := ComputeRoot(sha, b.entries);
    if |b.subject| != 1 {
      report.Add(SubjectName, false);
    } else if b.subject[0].name != b.manifestId {
      report.Add(SubjectName, false);
    } else {
      report.Add(SubjectName, true);
    }
    if |b.subject| == 1 {
      report.Add(SubjectRoot, b.subject[0].digest == root);
    }
    report.Add(PredicateRoot, b.merkleRoot == root);
  }

  /******* Order *******/

  predicate InOrder(entries: seq<BundleEntry>) {
    forall i | 0 <= i < |entries| :: entries[i].position == i
  }

  method VerifyEntryOrder(b: Bundle, report: Report)
    requires report.Valid()
    modifies report`checks, report`ok
    ensures report.Valid() && report.checks == old(report.checks) + [Check(EntryOrder, InOrder(b.entries))]
  {
    for i := 0 to |b.entries|
      invariant forall k | 0 <= k < i :: b.entries[k].position == k
      invariant report.Valid() && report.checks == old(report.checks)
    {
      if b.entries[i].position != i {
        report.Add(EntryOrder, false);
        return;
      }
    }
    report.Add(EntryOrder, true);
  }

  /******* Embedded content *******/

  predicate ContentOk(sha: Sha, b64: Base64, e: BundleEntry) {
    match b64.decode(e.contentB64)
    case None => false
    case Some(raw) => ContentHash(sha, raw) == e.contentHash
  }

  function ContentChecks(sha: Sha, b64: Base64, entries: seq<BundleEntry>): seq<Check>
    decreases |entries|
  {
    if entries == [] then []
    else
      var e := entries[|entries| - 1];
      ContentChecks(sha, b64, entries[..|entries| - 1])
      + if e.contentB64 == [] then [] else [Check(CheckName.ContentAt(e.position), ContentOk(sha, b64, e))]
  }

  // Entries that carry content that decodes.
  function Decodable(b64: Base64, entries: seq<BundleEntry>): nat
    decreases |entries|
  {
    if entries == [] then 0
    else
      var e := entries[|entries| - 1];
      Decodable(b64, entries[..|entries| - 1])
      + if e.contentB64 != [] && b64.decode(e.contentB64).Some? then 1 else 0
  }

  method VerifyEmbeddedContent(sha: Sha, b64: Base64, b: Bundle, report: Report)
    requires report.Valid()
    modifies report`checks, report`ok, report`contentChecked
    ensures report.Valid() && report.checks == old(report.checks) + ContentChecks(sha, b64, b.entries)
    ensures report.contentChecked == old(report.contentChecked) + Decodable(b64, b.entries)
  {
    hide AllOk;
    hide ContentHash;
    for i := 0 to |b.entries|
      invariant report.Valid()
      invariant report.checks == old(report.checks) + ContentChecks(sha, b64, b.entries[..i])
      invariant report.contentChecked == old(report.contentChecked) + Decodable(b64, b.entries[..i])
    {
      var e := b.entries[i];
      assert b.entries[..i + 1][..i] == b.entries[..i];
      if e.contentB64 == [] {
        continue;
      }
      var raw := b64.decode(e.contentB64);
      if raw.None? {
        report.Add(CheckName.ContentAt(e.position), false);
        continue;
      }
      report.contentChecked := report.contentChecked + 1;
      if ContentHash(sha, raw.value) != e.contentHash {
        report.Add(CheckName.ContentAt(e.position), false);
        continue;
      }
      report.Add(CheckName.ContentAt(e.position), true);
    }
    assert b.entries[..|b.entries|] == b.entries;
  }

  /******* Against the store *******/

  function Target(b: Bundle): Str {
    if b.manifestId == [] then b.runId else b.manifestId
  }

  function HashByPosition(results: seq<EntryResult>): map<int, Str>
    decreases |results|
  {
    if results == [] then map[]
    else
      var last := results[|results| - 1];
      HashByPosition(results[..|results| - 1])[last.position := last.replayedHash]
  }

  predicate HashStored(stored: map<int, Str>, e: BundleEntry) {
    e.position in stored && stored[e.position] == e.contentHash
  }

  // How many entries the store confirms.
  function Matches(stored: map<int, Str>, entries: seq<BundleEntry>): (n: nat)
    ensures n <= |entries|
    ensures n == |entries| <==> forall i | 0 <= i < |entries| :: HashStored(stored, entries[i])
    decreases |entries|
  {
    if entries == [] then 0
    else
      assert forall i | 0 <= i < |entries| - 1 :: entries[..|entries| - 1][i] == entries[i];
      Matches(stored, entries[..|entries| - 1]) + if HashStored(stored, entries[|entries| - 1]) then 1 else 0
  }

  function EntryChecks(stored: map<int, Str>, entries: seq<BundleEntry>): (checks: seq<Check>)
    ensures |checks| == |entries|
  {
    seq(|entries|, i requires 0 <= i < |entries| =>
      Check(StoreReplayAt(entries[i].position), HashStored(stored, entries[i])))
  }

  function StoreChecks(b: Bundle, result: Result<Replayed>): seq<Check> {
    match result
    case Err(_) => [Check(StoreReplay, false)]
    case Ok(r) =>
      EntryChecks(HashByPosition(r.entries), b.entries) + [Check(StoreReplayCount, |r.entries| == |b.entries|)]
  }

  function Matched(b: Bundle, result: Result<Replayed>): nat {
    match result
    case Err(_) => 0
    case Ok(r) => Matches(HashByPosition(r.entries), b.entries)
  }

  // client is the store cross-checked against; None verifies offline.
  method VerifyAgainstStore(sha: Sha, b: Bundle, client: Option<Db>, report: Report)
    requires report.Valid()
    modifies report`checks, report`ok, report`replayChecked, report`replayMatched
    ensures report.Valid()
    ensures client.None? ==> report.checks == old(report.checks) && report.replayChecked == old(report.replayChecked)
    ensures client.Some? ==>
              var result := ReplayTarget(sha, client.value, Target(b));
              && report.replayChecked
              && report.checks == old(report.checks) + StoreChecks(b, result)
              && report.replayMatched == old(report.replayMatched) + Matched(b, result)
  {
    hide AllOk;
    hide Matches;
    hide EntryChecks;
    hide HashByPosition;
    hide ReplayTarget;
    if client.None? {
      return;
    }
    report.replayChecked := true;
    var target := b.manifestId;
    if target == [] {
      target := b.runId;
    }
    var result := ReplayManifest(sha, client.value, target);
    if result.Err? {
      report.Add(StoreReplay, false);
      return;
    }
    var results := result.value.entries;
    var byPosition := IndexByPosition(results);
    CompareWithStore(b, byPosition, report);
    report.Add(StoreReplayCount, |results| == |b.entries|);
  }

  method IndexByPosition(results: seq<EntryResult>) returns (byPosition: map<int, Str>)
    ensures byPosition == HashByPosition(results)
  {
    byPosition := map[];
    for i := 0 to |results|
      invariant byPosition == HashByPosition(results[..i])
    {
      assert results[..i + 1][..i] == results[..i];
      byPosition := byPosition[results[i].position := results[i].replayedHash];
    }
    assert results[..|results|] == results;
  }

  lemma OneMoreEntry(stored: map<int, Str>, entries: seq<BundleEntry>, i: nat)
    requires i < |entries|
    ensures var e := entries[i];
            && EntryChecks(stored, entries)[..i + 1] ==
               EntryChecks(stored, entries)[..i] + [Check(StoreReplayAt(e.position), HashStored(stored, e))]
            && Matches(stored, entries[..i + 1]) ==
               Matches(stored, entries[..i]) + if HashStored(stored, e) then 1 else 0
  {
    assert entries[..i + 1][..i] == entries[..i];
  }

  method CompareWithStore(b: Bundle, byPosition: map<int, Str>, report: Report)
    requires report.Valid()
    modifies report`checks, report`ok, report`replayMatched
    ensures report.Valid() && report.checks == old(report.checks) + EntryChecks(byPosition, b.entries)
    ensures report.replayMatched == old(report.replayMatched) + Matches(byPosition, b.entries)
  {
    hide AllOk;
    hide Matches;
    hide EntryChecks;
    NoEntries(byPosition, b.entries);
    for i := 0 to |b.entries|
      invariant report.Valid()
      invariant report.checks == old(report.checks) + EntryChecks(byPosition, b.entries)[..i]
      invariant report.replayMatched == old(report.replayMatched) + Matches(byPosition, b.entries[..i])
    {
      var e := b.entries[i];
      OneMoreEntry(byPosition, b.entries, i);
      if e.position !in byPosition {
        report.Add(StoreReplayAt(e.position), false);
        continue;
      }
      if byPosition[e.position] != e.contentHash {
        report.Add(StoreReplayAt(e.position), false);
        continue;
      }
      report.replayMatched := report.replayMatched + 1;
      report.Add(StoreReplayAt(e.position), true);
    }
    assert b.entries[..|b.entries|] == b.entries;
  }

  lemma NoEntries(stored: map<int, Str>, entries: seq<BundleEntry>)
    ensures Matches(stored, entries[..0]) == 0
  {
  }

  /******* Verify *******/

  function VerifyChecks(sha: Sha, b64: Base64, b: Bundle, client: Option<Db>): seq<Check> {
    StatementChecks(b) + MerkleChecks(b, BundleRoot(sha, b.entries)) + [Check(EntryOrder, InOrder(b.entries))]
    + ContentChecks(sha, b64, b.entries)
    + if client.None? then [] else StoreChecks(b, ReplayTarget(sha, client.value, Target(b)))
  }

  method Verify(sha: Sha, b64: Base64, b: Bundle, client: Option<Db>) returns (report: Report)
    ensures fresh(report) && report.Valid()
    ensures report.checks == VerifyChecks(sha, b64, b, client)
    ensures report.merkleRoot == BundleRoot(sha, b.entries) && report.entries == |b.entries|
    ensures report.contentChecked == Decodable(b64, b.entries) && report.replayTotal == |b.entries|
    ensures report.replayChecked == client.Some?
    ensures client.Some? ==> report.replayMatched == Matched(b, ReplayTarget(sha, client.value, Target(b)))
  {
    hide AllOk;
    hide StatementChecks;
    hide MerkleChecks;
    hide ContentChecks;
    hide StoreChecks;
    hide BundleRoot;
    hide InOrder;
    hide Decodable;
    hide Matched;
    hide ReplayTarget;
    report := new Report(|b.entries|);
    VerifyStatement(b, report);
    report.merkleRoot := VerifyMerkle(sha, b, report);
    VerifyEntryOrder(b, report);
    VerifyEmbeddedContent(sha, b64, b, report);
    VerifyAgainstStore(sha, b, client, report);
  }

  /******* What passing means *******/

  // Content, where there is any, decodes and hashes to what the entry records.
  predicate ContentHolds(sha: Sha, b64: Base64, e: BundleEntry) {
    e.contentB64 != [] ==> ContentOk(sha, b64, e)
  }

  // What a bundle says about itself holds together.
  ghost predicate Consistent(sha: Sha, b64: Base64, b: Bundle) {
    && b.statement == InTotoStatement && b.predicateKind == ReadproofEvidence
    && b.subject == [Subject(b.manifestId, BundleRoot(sha, b.entries))]
    && b.merkleRoot == BundleRoot(sha, b.entries)
    && InOrder(b.entries)
    && forall i | 0 <= i < |b.entries| :: ContentHolds(sha, b64, b.entries[i])
  }

  // It describes a manifest that the store replays to the same hashes.
  ghost predicate MatchesReplay(b: Bundle, results: seq<EntryResult>) {
    && |results| == |b.entries|
    && forall i | 0 <= i < |b.entries| :: HashStored(HashByPosition(results), b.entries[i])
  }

  lemma {:induction false} ContentChecksPass(sha: Sha, b64: Base64, entries: seq<BundleEntry>)
    ensures AllOk(ContentChecks(sha, b64, entries)) <==>
            forall i | 0 <= i < |entries| :: ContentHolds(sha, b64, entries[i])
    decreases |entries|
  {
    if entries != [] {
      var n := |entries| - 1;
      var e, front := entries[n], ContentChecks(sha, b64, entries[..n]);
      ContentChecksPass(sha, b64, entries[..n]);
      var last := Check(CheckName.ContentAt(e.position), ContentOk(sha, b64, e));
      AllOkOne(last);
      AllOkConcat(front, [last]);
      if e.contentB64 == [] {
        assert ContentChecks(sha, b64, entries) == front + [] == front;
      } else {
        assert ContentChecks(sha, b64, entries) == front + [last];
      }
      assert AllOk(ContentChecks(sha, b64, entries)) <==> AllOk(front) && ContentHolds(sha, b64, e);
      assert forall i | 0 <= i < n :: entries[..n][i] == entries[i];
      if AllOk(front) {
        forall i | 0 <= i < n
          ensures ContentHolds(sha, b64, entries[i])
        {
          assert ContentHolds(sha, b64, entries[..n][i]);
        }
      }
    }
  }

  lemma StoreChecksPass(b: Bundle, result: Result<Replayed>)
    ensures AllOk(StoreChecks(b, result)) <==> result.Ok? && MatchesReplay(b, result.value.entries)
  {
    match result
    case Err(_) => assert !StoreChecks(b, result)[0].ok;
    case Ok(r) =>
      var stored := HashByPosition(r.entries);
      var each, count := EntryChecks(stored, b.entries), [Check(StoreReplayCount, |r.entries| == |b.entries|)];
      AllOkConcat(each, count);
      assert AllOk(count) <==> count[0].ok;
      if AllOk(each) {
        forall i | 0 <= i < |b.entries| ensures HashStored(stored, b.entries[i]) { assert each[i].ok; }
      }
  }

  lemma MerkleChecksPass(b: Bundle, root: Str)
    ensures AllOk(MerkleChecks(b, root)) <==> b.subject == [Subject(b.manifestId, root)] && b.merkleRoot == root
  {
    var checks := MerkleChecks(b, root);
    if |b.subject| == 1 {
      assert checks == [Check(SubjectName, b.subject[0].name == b.manifestId),
                        Check(SubjectRoot, b.subject[0].digest == root), Check(PredicateRoot, b.merkleRoot == root)];
      assert b.subject == [b.subject[0]];
      assert AllOk(checks) <==> checks[0].ok && checks[1].ok && checks[2].ok;
    } else {
      assert !checks[0].ok;
    }
  }

  // MAIN RESULT. Verify reports OK exactly when the bundle is consistent with itself
  // and, given a client, the store replays the manifest it names to the same hashes.
  lemma VerifyMeaning(sha: Sha, b64: Base64, b: Bundle, client: Option<Db>)
    ensures AllOk(VerifyChecks(sha, b64, b, client)) <==>
            && Consistent(sha, b64, b)
            && (client.Some? ==>
                  var replayed := ReplayTarget(sha, client.value, Target(b));
                  replayed.Ok? && MatchesReplay(b, replayed.value.entries))
  {
    var root := BundleRoot(sha, b.entries);
    var s, m := StatementChecks(b), MerkleChecks(b, root);
    var o, c := [Check(EntryOrder, InOrder(b.entries))], ContentChecks(sha, b64, b.entries);
    assert AllOk(s) <==> s[0].ok && s[1].ok;
    assert AllOk(o) <==> o[0].ok;
    MerkleChecksPass(b, root);
    ContentChecksPass(sha, b64, b.entries);
    AllOkConcat(s, m);
    AllOkConcat(s + m, o);
    AllOkConcat(s + m + o, c);
    match client
    case None => assert VerifyChecks(sha, b64, b, client) == s + m + o + c;
    case Some(db) =>
      var replayed := ReplayTarget(sha, db, Target(b));
      StoreChecksPass(b, replayed);
      AllOkConcat(s + m + o + c, StoreChecks(b, replayed));
  }

  /******* What each check means *******/

  // The check of an entry's embedded content: it decodes, and to bytes with that hash.
  ghost predicate ChecksContent(sha: Sha, b64: Base64, e: BundleEntry, c: Check) {
    && e.contentB64 != [] && c.name == CheckName.ContentAt(e.position)
    && (c.ok <==> b64.decode(e.contentB64).Some? &&
                  ContentHash(sha, b64.decode(e.contentB64).value) == e.contentHash)
  }

  // The check of an entry against a replay: the last result at its position has its hash.
  ghost predicate ChecksReplay(results: seq<EntryResult>, e: BundleEntry, c: Check) {
    && c.name == StoreReplayAt(e.position)
    && (c.ok <==> ReplayedAs(results, e.position, e.contentHash))
  }

  ghost predicate ReplayedAs(results: seq<EntryResult>, p: int, hash: Str) {
    exists j: nat :: LastAt(results, p, j) && results[j].replayedHash == hash
  }

  // This check belongs in a report on b, with this verdict, whatever the client.
  ghost predicate BelongsOffline(sha: Sha, b64: Base64, b: Bundle, c: Check) {
    match c.name
    case StatementType => c.ok <==> b.statement == InTotoStatement
    case PredicateType => c.ok <==> b.predicateKind == ReadproofEvidence
    case SubjectName => c.ok <==> |b.subject| == 1 && b.subject[0].name == b.manifestId
    case SubjectRoot => |b.subject| == 1 && (c.ok <==> b.subject[0].digest == BundleRoot(sha, b.entries))
    case PredicateRoot => c.ok <==> b.merkleRoot == BundleRoot(sha, b.entries)
    case EntryOrder => c.ok <==> forall i | 0 <= i < |b.entries| :: b.entries[i].position == i
    case ContentAt(_) => exists i :: 0 <= i < |b.entries| && ChecksContent(sha, b64, b.entries[i], c)
    case _ => false
  }

  // This one because of what the store answers.
  ghost predicate BelongsOnline(sha: Sha, b: Bundle, db: Db, c: Check) {
    var replayed := ReplayTarget(sha, db, if b.manifestId == [] then b.runId else b.manifestId);
    match c.name
    case StoreReplay => !c.ok && replayed.Err?
    case StoreReplayAt(_) =>
      replayed.Ok? && exists i :: 0 <= i < |b.entries| && ChecksReplay(replayed.value.entries, b.entries[i], c)
    case StoreReplayCount => replayed.Ok? && (c.ok <==> |replayed.value.entries| == |b.entries|)
    case _ => false
  }

  lemma {:induction false} HashByPositionIff(results: seq<EntryResult>, p: int, hash: Str)
    ensures p in HashByPosition(results) && HashByPosition(results)[p] == hash <==> ReplayedAs(results, p, hash)
    decreases |results|
  {
    if results != [] {
      var n := |results| - 1;
      HashByPositionIff(results[..n], p, hash);
      if results[n].position == p {
        assert LastAt(results, p, n);
      } else {
        if j: nat :| LastAt(results[..n], p, j) && results[..n][j].replayedHash == hash {
          assert LastAt(results, p, j);
        }
        if j: nat :| LastAt(results, p, j) && results[j].replayedHash == hash {
          assert LastAt(results[..n], p, j) && results[..n][j].replayedHash == hash;
        }
      }
    }
  }

  lemma {:induction false} ContentChecksIff(sha: Sha, b64: Base64, entries: seq<BundleEntry>, c: Check)
    ensures c in ContentChecks(sha, b64, entries) <==>
            exists i :: 0 <= i < |entries| && ChecksContent(sha, b64, entries[i], c)
    decreases |entries|
  {
    if entries != [] {
      var n := |entries| - 1;
      ContentChecksIff(sha, b64, entries[..n], c);
      OneContentCheck(sha, b64, entries, c);
      hide ChecksContent;
      hide ContentChecks;
      if i :| 0 <= i < n && ChecksContent(sha, b64, entries[..n][i], c) {
        assert ChecksContent(sha, b64, entries[i], c);
      }
      if i :| 0 <= i < n && ChecksContent(sha, b64, entries[i], c) {
        assert ChecksContent(sha, b64, entries[..n][i], c);
      }
    }
  }

  lemma OneContentCheck(sha: Sha, b64: Base64, entries: seq<BundleEntry>, c: Check)
    requires entries != []
    ensures c in ContentChecks(sha, b64, entries) <==>
            || c in ContentChecks(sha, b64, entries[..|entries| - 1])
            || ChecksContent(sha, b64, entries[|entries| - 1], c)
  {
    hide ContentHash;
  }

  lemma EntryChecksIff(results: seq<EntryResult>, entries: seq<BundleEntry>, c: Check)
    ensures c in EntryChecks(HashByPosition(results), entries) <==>
            exists i :: 0 <= i < |entries| && ChecksReplay(results, entries[i], c)
  {
    hide HashByPosition;
    var stored := HashByPosition(results);
    forall i | 0 <= i < |entries|
      ensures EntryChecks(stored, entries)[i] == c <==> ChecksReplay(results, entries[i], c)
    {
      HashByPositionIff(results, entries[i].position, entries[i].contentHash);
    }
  }

  lemma StoreChecksIff(sha: Sha, b: Bundle, db: Db, c: Check)
    ensures c in StoreChecks(b, ReplayTarget(sha, db, Target(b))) <==> BelongsOnline(sha, b, db, c)
  {
    hide ReplayTarget;
    hide EntryChecks;
    hide ChecksReplay;
    var result := ReplayTarget(sha, db, Target(b));
    if result.Ok? {
      EntryChecksIff(result.value.entries, b.entries, c);
      EntryChecksAreNamed(HashByPosition(result.value.entries), b.entries, c);
      forall i | 0 <= i < |b.entries| && ChecksReplay(result.value.entries, b.entries[i], c)
        ensures c.name.StoreReplayAt?
      {
        ReplayCheckIsNamed(result.value.entries, b.entries[i], c);
      }
    }
  }

  lemma EntryChecksAreNamed(stored: map<int, Str>, entries: seq<BundleEntry>, c: Check)
    ensures c in EntryChecks(stored, entries) ==> c.name.StoreReplayAt?
  {
  }

  lemma ReplayCheckIsNamed(results: seq<EntryResult>, e: BundleEntry, c: Check)
    requires ChecksReplay(results, e, c)
    ensures c.name.StoreReplayAt?
  {
  }

  lemma MerkleChecksIff(sha: Sha, b64: Base64, b: Bundle, c: Check)
    ensures c in MerkleChecks(b, BundleRoot(sha, b.entries)) <==>
            (c.name.SubjectName? || c.name.SubjectRoot? || c.name.PredicateRoot?) && BelongsOffline(sha, b64, b, c)
  {
    hide BundleRoot;
  }

  lemma StatementChecksIff(sha: Sha, b64: Base64, b: Bundle, c: Check)
    ensures c in StatementChecks(b) <==>
            (c.name.StatementType? || c.name.PredicateType?) && BelongsOffline(sha, b64, b, c)
  {
    hide BundleRoot;
  }

  lemma ContentChecksAreNamed(sha: Sha, b64: Base64, b: Bundle, c: Check)
    ensures c in ContentChecks(sha, b64, b.entries) <==> c.name.ContentAt? && BelongsOffline(sha, b64, b, c)
  {
    hide BundleRoot;
    ContentChecksIff(sha, b64, b.entries, c);
    forall i | 0 <= i < |b.entries| && ChecksContent(sha, b64, b.entries[i], c)
      ensures c.name.ContentAt?
    {
    }
    hide ContentChecks;
    hide ChecksContent;
  }

  lemma OrderCheckIff(sha: Sha, b64: Base64, b: Bundle, c: Check)
    ensures c == Check(EntryOrder, InOrder(b.entries)) <==> c.name.EntryOrder? && BelongsOffline(sha, b64, b, c)
  {
    hide BundleRoot;
  }

  // MAIN RESULT. The checks of a report are exactly those that belong in it, each with the
  // verdict of its own fact: the subject's digest only with exactly one subject, content
  // where there is some, the store only with a client.
  lemma ChecksMean(sha: Sha, b64: Base64, b: Bundle, client: Option<Db>, c: Check)
    ensures c in VerifyChecks(sha, b64, b, client) <==>
            BelongsOffline(sha, b64, b, c) || (client.Some? && BelongsOnline(sha, b, client.value, c))
  {
    hide StatementChecks;
    hide MerkleChecks;
    hide ContentChecks;
    hide StoreChecks;
    hide InOrder;
    hide ReplayTarget;
    hide BundleRoot;
    StatementChecksIff(sha, b64, b, c);
    MerkleChecksIff(sha, b64, b, c);
    OrderCheckIff(sha, b64, b, c);
    ContentChecksAreNamed(sha, b64, b, c);
    if client.Some? {
      StoreChecksIff(sha, b, client.value, c);
    }
    NamesApart(sha, b64, b, c);
    hide BelongsOffline;
    hide BelongsOnline;
  }

  lemma NamesApart(sha: Sha, b64: Base64, b: Bundle, c: Check)
    ensures BelongsOffline(sha, b64, b, c) ==>
              || c.name.StatementType? || c.name.PredicateType? || c.name.SubjectName? || c.name.SubjectRoot?
              || c.name.PredicateRoot? || c.name.EntryOrder? || c.name.ContentAt?
  {
    hide BundleRoot;
  }

  /******* How many there are *******/

  ghost function Carrying(entries: seq<BundleEntry>): set<nat> {
    set i: nat | i < |entries| && entries[i].contentB64 != []
  }

  ghost function Decoding(b64: Base64, entries: seq<BundleEntry>): set<nat> {
    set i: nat | i < |entries| && entries[i].contentB64 != [] && b64.decode(entries[i].contentB64).Some?
  }

  ghost function Confirmed(results: seq<EntryResult>, entries: seq<BundleEntry>): set<nat> {
    set i: nat | i < |entries| && ReplayedAs(results, entries[i].position, entries[i].contentHash)
  }

  lemma OneMoreCarrying(entries: seq<BundleEntry>)
    requires entries != []
    ensures var n: nat := |entries| - 1;
            |Carrying(entries)| == |Carrying(entries[..n])| + if entries[n].contentB64 == [] then 0 else 1
  {
    var n: nat := |entries| - 1;
    assert Carrying(entries) == Carrying(entries[..n]) + if entries[n].contentB64 == [] then {} else {n};
  }

  lemma {:induction false} ContentCounts(sha: Sha, b64: Base64, entries: seq<BundleEntry>)
    ensures |ContentChecks(sha, b64, entries)| == |Carrying(entries)|
    decreases |entries|
  {
    hide ContentOk;
    hide Carrying;
    if entries == [] {
      assert Carrying([]) == {} by { NothingCarried(); }
    } else {
      ContentCounts(sha, b64, entries[..|entries| - 1]);
      OneMoreCarrying(entries);
    }
  }

  lemma NothingCarried()
    ensures Carrying([]) == {}
  {
  }

  lemma {:induction false} DecodableCounts(b64: Base64, entries: seq<BundleEntry>)
    ensures Decodable(b64, entries) == |Decoding(b64, entries)|
    decreases |entries|
  {
    if entries != [] {
      var n: nat := |entries| - 1;
      var front := entries[..n];
      DecodableCounts(b64, front);
      assert Decoding(b64, entries) ==
             Decoding(b64, front) +
             if entries[n].contentB64 != [] && b64.decode(entries[n].contentB64).Some? then {n} else {};
    }
  }

  lemma {:induction false} MatchesCount(results: seq<EntryResult>, entries: seq<BundleEntry>)
    ensures Matches(HashByPosition(results), entries) == |Confirmed(results, entries)|
    decreases |entries|
  {
    hide HashByPosition;
    hide ReplayedAs;
    if entries != [] {
      var n: nat := |entries| - 1;
      var front := entries[..n];
      MatchesCount(results, front);
      HashByPositionIff(results, entries[n].position, entries[n].contentHash);
      assert Confirmed(results, entries) ==
             Confirmed(results, front) +
             if ReplayedAs(results, entries[n].position, entries[n].contentHash) then {n} else {};
    }
  }

  // How many checks there are, how they begin, and what the two counters of a report count.
  lemma ReportCounts(sha: Sha, b64: Base64, b: Bundle, client: Option<Db>)
    ensures var checks := VerifyChecks(sha, b64, b, client);
            var one, result := if |b.subject| == 1 then 1 else 0, ReplayOrNone(sha, b, client);
            && |checks| == 5 + one + |Carrying(b.entries)| + (if result.None? then 0
                                                               else if result.value.Err? then 1 else |b.entries| + 1)
            && checks[0].name == StatementType && checks[1].name == PredicateType && checks[2].name == SubjectName
            && (one == 1 ==> checks[3].name == SubjectRoot)
            && checks[3 + one].name == PredicateRoot && checks[4 + one].name == EntryOrder
    ensures Decodable(b64, b.entries) == |Decoding(b64, b.entries)|
    ensures client.Some? ==>
              var result := ReplayTarget(sha, client.value, Target(b));
              Matched(b, result) == if result.Ok? then |Confirmed(result.value.entries, b.entries)| else 0
  {
    hide ContentChecks;
    hide ReplayTarget;
    hide BundleRoot;
    hide InOrder;
    hide Confirmed;
    hide Carrying;
    hide Decoding;
    hide Matches;
    hide Decodable;
    hide HashByPosition;
    ContentCounts(sha, b64, b.entries);
    DecodableCounts(b64, b.entries);
    if client.Some? && ReplayTarget(sha, client.value, Target(b)).Ok? {
      MatchesCount(ReplayTarget(sha, client.value, Target(b)).value.entries, b.entries);
    }
  }

  function ReplayOrNone(sha: Sha, b: Bundle, client: Option<Db>): Option<Result<Replayed>> {
    match client
    case None => None
    case Some(db) => Some(ReplayTarget(sha, db, Target(b)))
  }
}
