/**
  What passing Verify offline says: when the digest of a bundle stands for its entries.
 */
module OfflineDigests {
  import opened ByteStrings
  import opened Merkle
  import opened MerkleProofs
  import opened Database
  import opened Bundles
  import opened Verification

  predicate ValidHashes(b: Bundle) {
    forall i | 0 <= i < |b.entries| :: IsContentHash(b.entries[i].contentHash)
  }

  // One digest stands for one entry list, of whatever length, among bundles whose hashes
  // are content hashes.
  lemma OfflineDigestBinds(sha: Sha, b64: Base64, b: Bundle, c: Bundle)
    requires AllOk(VerifyChecks(sha, b64, b, None)) && AllOk(VerifyChecks(sha, b64, c, None))
    requires ValidHashes(b) && ValidHashes(c) && |b.entries| <= UINT32 && |c.entries| <= UINT32
    requires b.subject == c.subject
    ensures LeavesOf(b.entries) == LeavesOf(c.entries) ||
            !CollisionFree(sha, HashInputs(sha, LeavesOf(b.entries)) + HashInputs(sha, LeavesOf(c.entries)))
  {
    hide VerifyChecks;
    VerifyMeaning(sha, b64, b, None);
    VerifyMeaning(sha, b64, c, None);
    RootBinding(sha, LeavesOf(b.entries), LeavesOf(c.entries));
  }

  // Without that condition it does not: Verify never parses the hashes, and these two
  // bundles pass offline under one digest, for every hash function.
  lemma OfflineDigestNeedsValidHashes(sha: Sha, b64: Base64, id: Str) returns (b: Bundle, c: Bundle)
    ensures AllOk(VerifyChecks(sha, b64, b, None)) && AllOk(VerifyChecks(sha, b64, c, None))
    ensures b.subject == c.subject && LeavesOf(b.entries) != LeavesOf(c.entries)
  {
    var nothing := Details([], [], map[]);
    var record := ReplayRecord(true, [], Fine);
    var e := BundleEntry(0, [0], [], [], [], [], 0, 0, nothing, []);
    var f := BundleEntry(0, [], [], [], [], [0], 0, 0, nothing, []);
    var root := BundleRoot(sha, [e]);
    LeafPreimageEqual(LeafOf(e), LeafOf(f));
    assert Leaves(sha, LeavesOf([e])) == Leaves(sha, LeavesOf([f]));
    b := Bundle(InTotoStatement, [Subject(id, root)], ReadproofEvidence, [], id, 0, 0, root, [e], [], record);
    c := b.(entries := [f]);
    assert LeavesOf([e])[0] != LeavesOf([f])[0];
    VerifyMeaning(sha, b64, b, None);
    VerifyMeaning(sha, b64, c, None);
  }

  /******* Exactly when the digest stands for the entries *******/

  ghost predicate Passes(sha: Sha, b64: Base64, b: Bundle) { AllOk(VerifyChecks(sha, b64, b, None)) }

  lemma PassesMeaning(sha: Sha, b64: Base64, b: Bundle)
    ensures Passes(sha, b64, b) <==> Consistent(sha, b64, b)
  {
    hide VerifyChecks;
    VerifyMeaning(sha, b64, b, None);
  }

  // No other bundle with as many entries passes under the same subject, unless two of the
  // strings hashed for the two collide.
  ghost predicate StandsForItsEntries(sha: Sha, b64: Base64, b: Bundle) {
    forall c: Bundle | Passes(sha, b64, c) && |c.entries| == |b.entries| && c.subject == b.subject ::
      || LeavesOf(c.entries) == LeavesOf(b.entries)
      || !CollisionFree(sha, HashInputs(sha, LeavesOf(b.entries)) + HashInputs(sha, LeavesOf(c.entries)))
  }

  predicate NoZeros(entries: seq<BundleEntry>) {
    forall i | 0 <= i < |entries| :: 0 !in entries[i].uri && 0 !in entries[i].contentHash
  }

  // A string with one zero byte has one reading.
  lemma OneReading(u: Str, h: Str, v: Str, k: Str)
    requires 0 !in u && 0 !in h && u + [0] + h == v + [0] + k
    ensures u == v && h == k
  {
    var s, t := u + [0] + h, v + [0] + k;
    assert t[|v|] == 0;
    assert forall i | 0 <= i < |u| :: s[i] == u[i] != 0;
    assert forall i | |u| < i < |s| :: s[i] == h[i - |u| - 1] != 0;
    assert u == s[..|u|] && v == t[..|v|] && h == s[|u| + 1..] && k == t[|v| + 1..];
  }

  // One with another zero byte has another.
  lemma OtherReading(u: Str, h: Str) returns (v: Str, k: Str)
    requires 0 in u || 0 in h
    ensures u + [0] + h == v + [0] + k && v != u
  {
    if 0 in u {
      var p :| 0 <= p < |u| && u[p] == 0;
      v, k := u[..p], u[p + 1..] + [0] + h;
      assert u == u[..p] + [0] + u[p + 1..];
    } else {
      var p :| 0 <= p < |h| && h[p] == 0;
      v, k := u + [0] + h[..p], h[p + 1..];
      assert h == h[..p] + [0] + h[p + 1..];
      assert |v| != |u|;
    }
  }

  lemma ConsistentIsIndexed(sha: Sha, b64: Base64, b: Bundle)
    requires Consistent(sha, b64, b) && |b.entries| <= UINT32
    ensures Indexed(LeavesOf(b.entries))
  {
  }

  lemma NoZerosStands(sha: Sha, b64: Base64, b: Bundle, c: Bundle)
    requires Consistent(sha, b64, b) && Consistent(sha, b64, c) && NoZeros(b.entries)
    requires |c.entries| == |b.entries| <= UINT32 && c.subject == b.subject
    requires CollisionFree(sha, HashInputs(sha, LeavesOf(b.entries)) + HashInputs(sha, LeavesOf(c.entries)))
    ensures LeavesOf(c.entries) == LeavesOf(b.entries)
  {
    hide HashInputs;
    hide CollisionFree;
    hide MerkleRoot;
    var x, y := LeavesOf(b.entries), LeavesOf(c.entries);
    ConsistentIsIndexed(sha, b64, b);
    ConsistentIsIndexed(sha, b64, c);
    assert MerkleRoot(sha, x) == b.subject[0].digest == MerkleRoot(sha, y);
    SameLengthRootsIff(sha, x, y);
    forall i | 0 <= i < |x|
      ensures y[i] == x[i]
    {
      OneReading(x[i].uri, x[i].hash, y[i].uri, y[i].hash);
    }
  }

  // Moving the separator of one entry to another zero byte, and dropping its content.
  lemma MovedSeparator(sha: Sha, b64: Base64, b: Bundle, i: nat) returns (c: Bundle)
    requires Consistent(sha, b64, b) && |b.entries| <= UINT32 && i < |b.entries|
    requires 0 in b.entries[i].uri || 0 in b.entries[i].contentHash
    ensures Consistent(sha, b64, c) && |c.entries| == |b.entries| && c.subject == b.subject
    ensures LeavesOf(c.entries) != LeavesOf(b.entries)
    ensures HashInputs(sha, LeavesOf(c.entries)) == HashInputs(sha, LeavesOf(b.entries))
  {
    var e := b.entries[i];
    var v, k := OtherReading(e.uri, e.contentHash);
    c := b.(entries := b.entries[i := e.(uri := v, contentHash := k, contentB64 := [])]);
    var x, y := LeavesOf(b.entries), LeavesOf(c.entries);
    assert y[i] != x[i];
    ConsistentIsIndexed(sha, b64, b);
    assert Indexed(y) && SameConcatenations(x, y);
    hide HashInputs;
    hide Leaves;
    ConcatenationsGiveLeaves(sha, x, y);
  }

  // MAIN RESULT. A bundle that passes offline, and whose hashed strings do not collide,
  // has a digest that stands for its entries among bundles of its length exactly if no
  // uri and no hash in it contains a zero byte.
  lemma StandsIffNoZeros(sha: Sha, b64: Base64, b: Bundle)
    requires Passes(sha, b64, b) && |b.entries| <= UINT32
    requires CollisionFree(sha, HashInputs(sha, LeavesOf(b.entries)))
    ensures StandsForItsEntries(sha, b64, b) <==> NoZeros(b.entries)
  {
    hide Passes;
    hide HashInputs;
    hide CollisionFree;
    PassesMeaning(sha, b64, b);
    hide Consistent;
    var inputs := HashInputs(sha, LeavesOf(b.entries));
    if NoZeros(b.entries) {
      forall c: Bundle | Passes(sha, b64, c) && |c.entries| == |b.entries| && c.subject == b.subject
        ensures || LeavesOf(c.entries) == LeavesOf(b.entries)
                || !CollisionFree(sha, inputs + HashInputs(sha, LeavesOf(c.entries)))
      {
        PassesMeaning(sha, b64, c);
        if CollisionFree(sha, inputs + HashInputs(sha, LeavesOf(c.entries))) {
          NoZerosStands(sha, b64, b, c);
        }
      }
    } else {
      var i: nat :| i < |b.entries| && (0 in b.entries[i].uri || 0 in b.entries[i].contentHash);
      var c := MovedSeparator(sha, b64, b, i);
      PassesMeaning(sha, b64, c);
      assert inputs + HashInputs(sha, LeavesOf(c.entries)) == inputs;
    }
  }
}
