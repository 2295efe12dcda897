/**
  What the Merkle root commits to.

  A collision is always one between strings that were hashed while computing
  the roots in question (HashInputs), so no statement here is satisfied by the
  collisions that any 32-byte function has somewhere.
 */
module MerkleProofs {
  import opened ByteStrings
  import opened Merkle

  /******* Leaf encoding *******/

  lemma BigEndian32Injective(p: int, q: int)
    ensures BigEndian32(p) == BigEndian32(q) <==> p % UINT32 == q % UINT32
  {
    var b, c := BigEndian32(p), BigEndian32(q);
    if p % UINT32 == q % UINT32 {
      assert b == c;
    }
  }

  // Exactly when two entries serialize to the same bytes: the encoding forgets
  // the high bits of the position and where the uri ends, and nothing else.
  lemma LeafPreimageEqual(a: LeafEntry, b: LeafEntry)
    ensures LeafPreimage(a) == LeafPreimage(b) <==>
            a.position % UINT32 == b.position % UINT32 && a.uri + [0] + a.hash == b.uri + [0] + b.hash
  {
    BigEndian32Injective(a.position, b.position);
    var x, y := LeafPreimage(a), LeafPreimage(b);
    assert x[..4] == BigEndian32(a.position) && y[..4] == BigEndian32(b.position);
    assert x[5..] == a.uri + [0] + a.hash && y[5..] == b.uri + [0] + b.hash;
    assert x == x[..4] + [0] + x[5..] && y == y[..4] + [0] + y[5..];
  }

  // The separator is the last zero byte when the hash has none.
  lemma SeparatorIsLastZero(u: Str, h: Str, v: Str, k: Str)
    requires u + [0] + h == v + [0] + k
    requires 0 !in h && 0 !in k
    ensures u == v && h == k
  {
    var s, t := u + [0] + h, v + [0] + k;
    assert s[|u|] == 0 && forall i | |u| < i < |s| :: s[i] == h[i - |u| - 1] != 0;
    assert t[|v|] == 0 && forall i | |v| < i < |t| :: t[i] == k[i - |v| - 1] != 0;
    assert u == s[..|u|] && v == t[..|v|] && h == s[|u| + 1..] && k == t[|v| + 1..];
  }

  // The documented injectivity, on the entries for which it is true. The uri
  // may contain the separator.
  lemma LeafPreimageInjective(a: LeafEntry, b: LeafEntry)
    requires 0 <= a.position < UINT32 && 0 <= b.position < UINT32
    requires 0 !in a.hash && 0 !in b.hash
    requires LeafPreimage(a) == LeafPreimage(b)
    ensures a == b
  {
    LeafPreimageEqual(a, b);
    SeparatorIsLastZero(a.uri, a.hash, b.uri, b.hash);
  }

  // Without either precondition distinct entries do serialize to the same bytes.
  lemma LeafPreimageNotInjective() returns (a: LeafEntry, b: LeafEntry, c: LeafEntry, d: LeafEntry)
    ensures a != b && LeafPreimage(a) == LeafPreimage(b) && 0 !in a.hash && 0 !in b.hash
    ensures c != d && LeafPreimage(c) == LeafPreimage(d) && c.position == d.position == 0
  {
    a, b := LeafEntry(0, [], []), LeafEntry(UINT32, [], []);
    LeafPreimageEqual(a, b);
    c, d := LeafEntry(0, [0], []), LeafEntry(0, [], [0]);
    LeafPreimageEqual(c, d);
  }

  /******* The strings hashed while computing a root *******/

  ghost function NodeInputs(sha: Sha, level: seq<Bytes>): set<Bytes>
    decreases |level|
  {
    if |level| <= 1 then {}
    else (set i: nat | i < Half(|level|) :: Pair(level, i)) + NodeInputs(sha, NextLevel(sha, level))
  }

  ghost function HashInputs(sha: Sha, entries: seq<LeafEntry>): set<Bytes> {
    if entries == [] then {[]}
    else (set i: nat | i < |entries| :: LeafPreimage(entries[i])) + NodeInputs(sha, Leaves(sha, entries))
  }

  ghost predicate Separates(sha: Sha, inputs: set<Bytes>, level: seq<Bytes>) {
    && CollisionFree(sha, inputs)
    && NodeInputs(sha, level) <= inputs
    && forall i | 0 <= i < |level| :: |level[i]| == 32
  }

  ghost predicate Distinct(level: seq<Bytes>) {
    forall i, j | 0 <= i < j < |level| :: level[i] != level[j]
  }

  lemma PairIsInput(sha: Sha, inputs: set<Bytes>, level: seq<Bytes>, i: nat)
    requires Separates(sha, inputs, level) && |level| > 1 && i < Half(|level|)
    ensures Pair(level, i) in inputs
    ensures |Pair(level, i)| == 64
  {
    assert Pair(level, i) in NodeInputs(sha, level);
  }

  // Equal parents have equal children.
  lemma ParentsEqual(sha: Sha, inputs: set<Bytes>, a: seq<Bytes>, i: nat, b: seq<Bytes>, j: nat)
    requires Separates(sha, inputs, a) && |a| > 1 && i < Half(|a|)
    requires Separates(sha, inputs, b) && |b| > 1 && j < Half(|b|)
    requires NextLevel(sha, a)[i] == NextLevel(sha, b)[j]
    ensures a[2 * i] == b[2 * j]
    ensures a[Sibling(i, |a|)] == b[Sibling(j, |b|)]
  {
    PairIsInput(sha, inputs, a, i);
    PairIsInput(sha, inputs, b, j);
    var x, y := Pair(a, i), Pair(b, j);
    assert !Collide(sha, x, y);
    assert a[2 * i] == x[..32] && b[2 * j] == y[..32];
    assert a[Sibling(i, |a|)] == x[32..] && b[Sibling(j, |b|)] == y[32..];
  }

  lemma DistinctUp(sha: Sha, inputs: set<Bytes>, level: seq<Bytes>)
    requires Separates(sha, inputs, level) && |level| > 1 && Distinct(level)
    ensures Distinct(NextLevel(sha, level))
  {
    var next := NextLevel(sha, level);
    forall i, j | 0 <= i < j < |next|
      ensures next[i] != next[j]
    {
      if next[i] == next[j] {
        ParentsEqual(sha, inputs, level, i, level, j);
      }
    }
  }

  // Among distinct nodes only an odd level pairs its last node with itself.
  lemma LastPair(level: seq<Bytes>)
    requires Distinct(level) && level != []
    ensures var i := Half(|level|) - 1;
            level[2 * i] == level[Sibling(i, |level|)] <==> |level| == 2 * i + 1
  {
  }

  // One level down, two levels of distinct nodes cannot hide a duplicated last node.
  lemma NextLevelInjective(sha: Sha, inputs: set<Bytes>, a: seq<Bytes>, b: seq<Bytes>)
    requires Separates(sha, inputs, a) && |a| > 1
    requires Separates(sha, inputs, b) && |b| > 1
    requires |a| == |b| || (Distinct(a) && Distinct(b))
    requires NextLevel(sha, a) == NextLevel(sha, b)
    ensures a == b
  {
    var h := Half(|a|);
    assert |NextLevel(sha, a)| == h == Half(|b|);
    forall i: nat | i < h
      ensures a[2 * i] == b[2 * i] && a[Sibling(i, |a|)] == b[Sibling(i, |b|)]
    {
      assert NextLevel(sha, a)[i] == NextLevel(sha, b)[i];
      ParentsEqual(sha, inputs, a, i, b, i);
    }
    if |a| != |b| {
      LastPair(a);
      LastPair(b);
    }
    forall k: nat | k < |a|
      ensures a[k] == b[k]
    {
      var i := k / 2;
      assert k == 2 * i || k == Sibling(i, |a|);
    }
  }

  // Lists of the same length: any change of any leaf changes the root or collides.
  lemma {:induction false} SameLengthBinding(sha: Sha, inputs: set<Bytes>, a: seq<Bytes>, b: seq<Bytes>)
    requires Separates(sha, inputs, a) && Separates(sha, inputs, b)
    requires |a| == |b| >= 1
    requires LevelRoot(sha, a) == LevelRoot(sha, b)
    ensures a == b
    decreases |a|
  {
    if |a| > 1 {
      SameLengthBinding(sha, inputs, NextLevel(sha, a), NextLevel(sha, b));
      NextLevelInjective(sha, inputs, a, b);
    }
  }

  /******* Heights *******/

  function Depth(n: nat): nat
    decreases n
  {
    if n <= 1 then 0 else 1 + Depth(Half(n))
  }

  // The first node of every level, from the leaves to the root.
  function LeftSpine(sha: Sha, level: seq<Bytes>): (spine: seq<Bytes>)
    requires level != []
    ensures |spine| == Depth(|level|) + 1
    ensures spine[0] == level[0] && spine[|spine| - 1] == LevelRoot(sha, level)
    decreases |level|
  {
    if |level| == 1 then level else [level[0]] + LeftSpine(sha, NextLevel(sha, level))
  }

  ghost predicate HashesTo(sha: Sha, inputs: set<Bytes>, p: Bytes, d: Bytes) {
    p in inputs && sha(p) == d
  }

  // A node of the spine above the leaves is the hash of 64 bytes that begin with the node below.
  ghost predicate Climbs(sha: Sha, inputs: set<Bytes>, below: Bytes, node: Bytes) {
    exists q :: HashesTo(sha, inputs, q, node) && |q| == 64 && q[..32] == below
  }

  ghost predicate IsSpine(sha: Sha, inputs: set<Bytes>, spine: seq<Bytes>) {
    forall h, k | 0 <= h < |spine| && 0 <= k < |spine| && k == h + 1 :: Climbs(sha, inputs, spine[h], spine[k])
  }

  lemma {:induction false} LeftSpineIsSpine(sha: Sha, inputs: set<Bytes>, level: seq<Bytes>)
    requires level != [] && Separates(sha, inputs, level)
    ensures IsSpine(sha, inputs, LeftSpine(sha, level))
    decreases |level|
  {
    if |level| > 1 {
      var next := NextLevel(sha, level);
      LeftSpineIsSpine(sha, inputs, next);
      PairIsInput(sha, inputs, level, 0);
      var spine, above := LeftSpine(sha, level), LeftSpine(sha, next);
      assert HashesTo(sha, inputs, Pair(level, 0), next[0]) && Pair(level, 0)[..32] == level[0];
      forall h, k | 0 <= h < |spine| && 0 <= k < |spine| && k == h + 1
        ensures Climbs(sha, inputs, spine[h], spine[k])
      {
        if h > 0 {
          assert spine[h] == above[h - 1] && spine[k] == above[k - 1];
        }
      }
    }
  }

  // A leaf hash has a preimage of at least 77 bytes, a node hash one of 64.
  ghost predicate LeavesApart(sha: Sha, inputs: set<Bytes>, leaves: seq<Bytes>) {
    forall i | 0 <= i < |leaves| :: IsLeafHash(sha, inputs, leaves[i])
  }

  ghost predicate IsLeafHash(sha: Sha, inputs: set<Bytes>, d: Bytes) {
    exists p :: HashesTo(sha, inputs, p, d) && |p| > 64
  }

  lemma LeafIsNotNode(sha: Sha, inputs: set<Bytes>, leaf: Bytes, below: Bytes, node: Bytes)
    requires CollisionFree(sha, inputs) && IsLeafHash(sha, inputs, leaf) && Climbs(sha, inputs, below, node)
    ensures leaf != node
  {
    var p :| HashesTo(sha, inputs, p, leaf) && |p| > 64;
    var q :| HashesTo(sha, inputs, q, node) && |q| == 64;
    assert !Collide(sha, p, q);
  }

  // Going down two spines together, a node's value determines its height.
  lemma {:induction false} SpineHeight(sha: Sha, inputs: set<Bytes>, s: seq<Bytes>, h: nat, t: seq<Bytes>, k: nat)
    requires CollisionFree(sha, inputs) && h < |s| && k < |t| && h <= k && s[h] == t[k]
    requires IsSpine(sha, inputs, s) && IsSpine(sha, inputs, t)
    requires IsLeafHash(sha, inputs, s[0])
    ensures h == k
  {
    if k > 0 {
      assert Climbs(sha, inputs, t[k - 1], t[k]);
      if h == 0 {
        LeafIsNotNode(sha, inputs, s[0], t[k - 1], t[k]);
      } else {
        assert Climbs(sha, inputs, s[h - 1], s[h]);
        var q :| HashesTo(sha, inputs, q, t[k]) && q[..32] == t[k - 1];
        var r :| HashesTo(sha, inputs, r, s[h]) && r[..32] == s[h - 1];
        assert !Collide(sha, r, q);
        SpineHeight(sha, inputs, s, h - 1, t, k - 1);
      }
    }
  }

  lemma {:induction false} SameDepthBinding(sha: Sha, inputs: set<Bytes>, a: seq<Bytes>, b: seq<Bytes>)
    requires a != [] && Separates(sha, inputs, a) && Distinct(a)
    requires b != [] && Separates(sha, inputs, b) && Distinct(b)
    requires Depth(|a|) == Depth(|b|)
    requires LevelRoot(sha, a) == LevelRoot(sha, b)
    ensures a == b
    decreases |a|
  {
    if |a| > 1 {
      DistinctUp(sha, inputs, a);
      DistinctUp(sha, inputs, b);
      SameDepthBinding(sha, inputs, NextLevel(sha, a), NextLevel(sha, b));
      NextLevelInjective(sha, inputs, a, b);
    } else {
      assert a == [a[0]] && b == [b[0]];
    }
  }

  /******* The root binds the entry list *******/

  // What entry_order and ParseContentHash guarantee of an entry list.
  predicate WellFormed(entries: seq<LeafEntry>) {
    && |entries| <= UINT32
    && forall i | 0 <= i < |entries| :: entries[i].position == i && IsContentHash(entries[i].hash)
  }

  lemma LeafInputs(sha: Sha, inputs: set<Bytes>, entries: seq<LeafEntry>)
    requires entries != [] && WellFormed(entries)
    requires CollisionFree(sha, inputs) && HashInputs(sha, entries) <= inputs
    ensures Separates(sha, inputs, Leaves(sha, entries))
    ensures LeavesApart(sha, inputs, Leaves(sha, entries))
    ensures Distinct(Leaves(sha, entries))
  {
    var leaves := Leaves(sha, entries);
    forall i: nat | i < |entries|
      ensures HashesTo(sha, inputs, LeafPreimage(entries[i]), leaves[i]) && |LeafPreimage(entries[i])| >= 77
      ensures 0 !in entries[i].hash
    {
      assert LeafPreimage(entries[i]) in HashInputs(sha, entries);
      ValidHashHasNoZero(entries[i].hash);
    }
    forall i: nat, j: nat | i < j < |leaves|
      ensures leaves[i] != leaves[j]
    {
      if leaves[i] == leaves[j] {
        assert !Collide(sha, LeafPreimage(entries[i]), LeafPreimage(entries[j]));
        LeafPreimageInjective(entries[i], entries[j]);
      }
    }
  }

  lemma LeavesInjective(sha: Sha, inputs: set<Bytes>, a: seq<LeafEntry>, b: seq<LeafEntry>)
    requires a != [] && WellFormed(a) && HashInputs(sha, a) <= inputs
    requires b != [] && WellFormed(b) && HashInputs(sha, b) <= inputs
    requires CollisionFree(sha, inputs) && Leaves(sha, a) == Leaves(sha, b)
    ensures a == b
  {
    assert |a| == |Leaves(sha, a)| == |b|;
    forall i: nat | i < |a|
      ensures a[i] == b[i]
    {
      assert LeafPreimage(a[i]) in HashInputs(sha, a) && LeafPreimage(b[i]) in HashInputs(sha, b);
      assert Leaves(sha, a)[i] == Leaves(sha, b)[i];
      assert !Collide(sha, LeafPreimage(a[i]), LeafPreimage(b[i]));
      ValidHashHasNoZero(a[i].hash);
      ValidHashHasNoZero(b[i].hash);
      LeafPreimageInjective(a[i], b[i]);
    }
  }

  lemma RootHasInput(sha: Sha, inputs: set<Bytes>, leaves: seq<Bytes>)
    requires leaves != [] && Separates(sha, inputs, leaves) && LeavesApart(sha, inputs, leaves)
    ensures exists p :: HashesTo(sha, inputs, p, TreeRoot(sha, leaves)) && |p| >= 64
  {
    LeftSpineIsSpine(sha, inputs, leaves);
    var spine := LeftSpine(sha, leaves);
    if |spine| > 1 {
      assert Climbs(sha, inputs, spine[|spine| - 2], spine[|spine| - 1]);
    }
  }

  // The root of no entries is the hash of the empty string, and nothing else hashes to it.
  lemma EmptyRootApart(sha: Sha, inputs: set<Bytes>, entries: seq<LeafEntry>)
    requires entries != [] && WellFormed(entries) && HashInputs(sha, entries) <= inputs
    requires [] in inputs && CollisionFree(sha, inputs)
    ensures TreeRoot(sha, Leaves(sha, entries)) != sha([])
  {
    LeafInputs(sha, inputs, entries);
    RootHasInput(sha, inputs, Leaves(sha, entries));
    var p :| HashesTo(sha, inputs, p, TreeRoot(sha, Leaves(sha, entries))) && |p| >= 64;
    assert !Collide(sha, p, []);
  }

  lemma RootBindingNonEmpty(sha: Sha, inputs: set<Bytes>, a: seq<LeafEntry>, b: seq<LeafEntry>)
    requires a != [] && WellFormed(a) && HashInputs(sha, a) <= inputs
    requires b != [] && WellFormed(b) && HashInputs(sha, b) <= inputs
    requires CollisionFree(sha, inputs)
    requires TreeRoot(sha, Leaves(sha, a)) == TreeRoot(sha, Leaves(sha, b))
    ensures a == b
  {
    var x, y := Leaves(sha, a), Leaves(sha, b);
    LeafInputs(sha, inputs, a);
    LeafInputs(sha, inputs, b);
    LeftSpineIsSpine(sha, inputs, x);
    LeftSpineIsSpine(sha, inputs, y);
    var s, t := LeftSpine(sha, x), LeftSpine(sha, y);
    if |s| <= |t| {
      SpineHeight(sha, inputs, s, |s| - 1, t, |t| - 1);
    } else {
      SpineHeight(sha, inputs, t, |t| - 1, s, |s| - 1);
    }
    SameDepthBinding(sha, inputs, x, y);
    LeavesInjective(sha, inputs, a, b);
  }

  // MAIN RESULT. For entry lists of any two lengths up to 2^32, equal roots mean
  // equal lists unless two of the strings hashed on the way collide. The
  // duplicate-last rule costs nothing because positions are inside the leaves.
  lemma RootBinding(sha: Sha, a: seq<LeafEntry>, b: seq<LeafEntry>)
    requires WellFormed(a) && WellFormed(b)
    requires MerkleRoot(sha, a) == MerkleRoot(sha, b)
    ensures a == b || !CollisionFree(sha, HashInputs(sha, a) + HashInputs(sha, b))
  {
    HexInjective(TreeRoot(sha, Leaves(sha, a)), TreeRoot(sha, Leaves(sha, b)));
    var inputs := HashInputs(sha, a) + HashInputs(sha, b);
    if CollisionFree(sha, inputs) && a != b {
      if a == [] {
        EmptyRootApart(sha, inputs, b);
      } else if b == [] {
        EmptyRootApart(sha, inputs, a);
      } else {
        RootBindingNonEmpty(sha, inputs, a, b);
      }
    }
  }

  // The leaf lists of one length whose entries concatenate alike.
  ghost predicate SameConcatenations(a: seq<LeafEntry>, b: seq<LeafEntry>) {
    && |a| == |b|
    && forall i | 0 <= i < |a| :: a[i].uri + [0] + a[i].hash == b[i].uri + [0] + b[i].hash
  }

  predicate Indexed(entries: seq<LeafEntry>) {
    |entries| <= UINT32 && forall i | 0 <= i < |entries| :: entries[i].position == i
  }

  lemma NodesSeparate(sha: Sha, inputs: set<Bytes>, entries: seq<LeafEntry>)
    requires entries != [] && CollisionFree(sha, inputs) && HashInputs(sha, entries) <= inputs
    ensures Separates(sha, inputs, Leaves(sha, entries))
    ensures forall i | 0 <= i < |entries| :: LeafPreimage(entries[i]) in inputs
  {
    forall i: nat | i < |entries|
      ensures LeafPreimage(entries[i]) in inputs
    {
      assert LeafPreimage(entries[i]) in HashInputs(sha, entries);
    }
  }

  lemma ConcatenationsGiveLeaves(sha: Sha, a: seq<LeafEntry>, b: seq<LeafEntry>)
    requires Indexed(a) && Indexed(b) && SameConcatenations(a, b)
    ensures Leaves(sha, a) == Leaves(sha, b) && HashInputs(sha, a) == HashInputs(sha, b)
  {
    forall i | 0 <= i < |a|
      ensures LeafPreimage(a[i]) == LeafPreimage(b[i])
    {
      LeafPreimageEqual(a[i], b[i]);
    }
    assert Leaves(sha, a) == Leaves(sha, b);
  }

  // MAIN RESULT. With any hashes, valid or not: two lists of one length have one root
  // exactly if they concatenate alike entry by entry, as long as nothing hashed collides.
  lemma SameLengthRootsIff(sha: Sha, a: seq<LeafEntry>, b: seq<LeafEntry>)
    requires Indexed(a) && Indexed(b) && |a| == |b|
    requires CollisionFree(sha, HashInputs(sha, a) + HashInputs(sha, b))
    ensures MerkleRoot(sha, a) == MerkleRoot(sha, b) <==> SameConcatenations(a, b)
  {
    if SameConcatenations(a, b) {
      ConcatenationsGiveLeaves(sha, a, b);
    } else if MerkleRoot(sha, a) == MerkleRoot(sha, b) {
      var inputs := HashInputs(sha, a) + HashInputs(sha, b);
      HexInjective(TreeRoot(sha, Leaves(sha, a)), TreeRoot(sha, Leaves(sha, b)));
      NodesSeparate(sha, inputs, a);
      NodesSeparate(sha, inputs, b);
      SameLengthBinding(sha, inputs, Leaves(sha, a), Leaves(sha, b));
      forall i | 0 <= i < |a|
        ensures a[i].uri + [0] + a[i].hash == b[i].uri + [0] + b[i].hash
      {
        assert Leaves(sha, a)[i] == Leaves(sha, b)[i];
        assert !Collide(sha, LeafPreimage(a[i]), LeafPreimage(b[i]));
        LeafPreimageEqual(a[i], b[i]);
      }
    }
  }

  // So changing any one entry's uri or hash changes the root, or exhibits a collision.
  lemma AnyChangeShows(sha: Sha, entries: seq<LeafEntry>, i: nat, uri: Str, hash: Str)
    requires WellFormed(entries) && i < |entries| && IsContentHash(hash)
    requires entries[i].uri != uri || entries[i].hash != hash
    ensures var changed := entries[i := LeafEntry(i, uri, hash)];
            || MerkleRoot(sha, changed) != MerkleRoot(sha, entries)
            || !CollisionFree(sha, HashInputs(sha, entries) + HashInputs(sha, changed))
  {
    var changed := entries[i := LeafEntry(i, uri, hash)];
    assert changed[i] != entries[i];
    if MerkleRoot(sha, changed) == MerkleRoot(sha, entries) {
      RootBinding(sha, entries, changed);
    }
  }

  // Root on its own, over arbitrary 32-byte leaves: the duplicate-last rule does
  // confuse a list with the list that repeats its last leaf, for every hash.
  lemma DuplicateLastAmbiguity(sha: Sha, x: Digest, y: Digest, z: Digest)
    ensures TreeRoot(sha, [x, y, z]) == TreeRoot(sha, [x, y, z, z])
  {
    var a: seq<Bytes>, b: seq<Bytes> := [x, y, z], [x, y, z, z];
    assert Pair(a, 0) == Pair(b, 0) && Pair(a, 1) == Pair(b, 1) == z + z;
    assert |NextLevel(sha, a)| == 2 == |NextLevel(sha, b)|;
    assert NextLevel(sha, a) == NextLevel(sha, b);
  }

  /******* The loop refines a perfect tree *******/

  function Pow2(k: nat): (p: nat)
    ensures p >= 1
  {
    if k == 0 then 1 else 2 * Pow2(k - 1)
  }

  // The textbook root of a perfect binary tree over 2^k leaves.
  function PerfectRoot(sha: Sha, leaves: seq<Bytes>, k: nat): Bytes
    requires |leaves| == Pow2(k)
  {
    if k == 0 then leaves[0]
    else sha(PerfectRoot(sha, leaves[..Pow2(k - 1)], k - 1) + PerfectRoot(sha, leaves[Pow2(k - 1)..], k - 1))
  }

  // The duplicate-last rule applied to blocks of leaves instead of their hashes.
  function PairUp(blocks: seq<seq<Bytes>>): (next: seq<seq<Bytes>>)
  {
    seq(Half(|blocks|), i requires 0 <= i < Half(|blocks|) => blocks[2 * i] + blocks[Sibling(i, |blocks|)])
  }

  function Flatten(blocks: seq<seq<Bytes>>): seq<Bytes>
    requires blocks != []
    decreases |blocks|
  {
    if |blocks| == 1 then blocks[0] else Flatten(PairUp(blocks))
  }

  // The leaves, padded by repeating the last block whenever a level is odd.
  function Padded(leaves: seq<Bytes>): seq<Bytes>
    requires leaves != []
  {
    Flatten(seq(|leaves|, i requires 0 <= i < |leaves| => [leaves[i]]))
  }

  ghost predicate Summarizes(sha: Sha, level: seq<Bytes>, blocks: seq<seq<Bytes>>, k: nat) {
    && |level| == |blocks|
    && (forall i | 0 <= i < |blocks| :: |blocks[i]| == Pow2(k))
    && (forall i | 0 <= i < |blocks| :: level[i] == PerfectRoot(sha, blocks[i], k))
  }

  lemma SummaryUp(sha: Sha, level: seq<Bytes>, blocks: seq<seq<Bytes>>, k: nat)
    requires Summarizes(sha, level, blocks, k)
    ensures Summarizes(sha, NextLevel(sha, level), PairUp(blocks), k + 1)
  {
    forall i | 0 <= i < Half(|blocks|)
      ensures |PairUp(blocks)[i]| == Pow2(k + 1)
      ensures NextLevel(sha, level)[i] == PerfectRoot(sha, PairUp(blocks)[i], k + 1)
    {
      var x, y := blocks[2 * i], blocks[Sibling(i, |blocks|)];
      assert |x| == |y| == Pow2(k);
      assert (x + y)[..Pow2(k)] == x && (x + y)[Pow2(k)..] == y;
      assert Pair(level, i) == PerfectRoot(sha, x, k) + PerfectRoot(sha, y, k);
      assert PerfectRoot(sha, x + y, k + 1) == sha(PerfectRoot(sha, x, k) + PerfectRoot(sha, y, k));
    }
  }

  lemma {:induction false} LevelsArePerfect(sha: Sha, level: seq<Bytes>, blocks: seq<seq<Bytes>>, k: nat)
    requires level != [] && Summarizes(sha, level, blocks, k)
    ensures |Flatten(blocks)| == Pow2(k + Depth(|level|))
    ensures LevelRoot(sha, level) == PerfectRoot(sha, Flatten(blocks), k + Depth(|level|))
    decreases |level|
  {
    if |level| > 1 {
      SummaryUp(sha, level, blocks, k);
      LevelsArePerfect(sha, NextLevel(sha, level), PairUp(blocks), k + 1);
    }
  }

  // Concatenation of all blocks, to say that padding only appends.
  function Concat(blocks: seq<seq<Bytes>>): seq<Bytes> {
    if blocks == [] then [] else blocks[0] + Concat(blocks[1..])
  }

  lemma {:induction false} PairUpExtends(blocks: seq<seq<Bytes>>)
    ensures Concat(blocks) <= Concat(PairUp(blocks))
    decreases |blocks|
  {
    if |blocks| == 1 {
      assert PairUp(blocks) == [blocks[0] + blocks[0]];
      assert Concat(PairUp(blocks)[1..]) == [];
      assert Concat(blocks) == blocks[0];
    } else if |blocks| >= 2 {
      var rest := blocks[2..];
      PairUpExtends(rest);
      assert PairUp(blocks)[0] == blocks[0] + blocks[1];
      assert PairUp(blocks)[1..] == PairUp(rest);
      assert blocks[1..][1..] == rest;
      assert Concat(blocks) == blocks[0] + blocks[1] + Concat(rest);
      assert Concat(PairUp(blocks)) == blocks[0] + blocks[1] + Concat(PairUp(rest));
    }
  }

  lemma {:induction false} FlattenExtends(blocks: seq<seq<Bytes>>)
    requires blocks != []
    ensures Concat(blocks) <= Flatten(blocks)
    decreases |blocks|
  {
    if |blocks| == 1 {
      assert Concat(blocks) == blocks[0] + Concat([]);
    } else {
      PairUpExtends(blocks);
      FlattenExtends(PairUp(blocks));
    }
  }

  lemma {:induction false} ConcatSingletons(leaves: seq<Bytes>)
    ensures Concat(seq(|leaves|, i requires 0 <= i < |leaves| => [leaves[i]])) == leaves
  {
    var blocks := seq(|leaves|, i requires 0 <= i < |leaves| => [leaves[i]]);
    if leaves != [] {
      var rest := leaves[1..];
      ConcatSingletons(rest);
      assert blocks[1..] == seq(|rest|, i requires 0 <= i < |rest| => [rest[i]]);
      assert leaves == [leaves[0]] + rest;
    }
  }

  // The loop computes the root of the perfect tree over the padded leaves, which
  // begin with the leaves and number the next power of two.
  lemma LoopIsPerfectTree(sha: Sha, leaves: seq<Bytes>)
    requires leaves != []
    ensures leaves <= Padded(leaves)
    ensures |Padded(leaves)| == Pow2(Depth(|leaves|))
    ensures TreeRoot(sha, leaves) == PerfectRoot(sha, Padded(leaves), Depth(|leaves|))
  {
    var blocks := seq(|leaves|, i requires 0 <= i < |leaves| => [leaves[i]]);
    ConcatSingletons(leaves);
    FlattenExtends(blocks);
    LevelsArePerfect(sha, leaves, blocks, 0);
  }

  // MAIN RESULT. The root in full: the hex of the hash of nothing for no entries, and
  // otherwise of the perfect tree over the padded hashes of the strings laid out for the
  // entries.
  lemma RootInFull(sha: Sha, entries: seq<LeafEntry>)
    ensures entries == [] ==> MerkleRoot(sha, entries) == HexEncode(sha([]))
    ensures entries != [] ==>
              exists leaves: seq<Bytes> ::
                && |leaves| == |entries|
                && (forall i | 0 <= i < |entries| :: HashesLayout(sha, leaves[i], entries[i]))
                && |Padded(leaves)| == Pow2(Depth(|leaves|))
                && MerkleRoot(sha, entries) == HexEncode(PerfectRoot(sha, Padded(leaves), Depth(|leaves|)))
  {
    if entries != [] {
      LeavesHashLayouts(sha, entries);
      LoopIsPerfectTree(sha, Leaves(sha, entries));
      hide Padded;
      hide HashesLayout;
    }
  }

  // Depth is the exponent of the next power of two.
  lemma {:induction false} DepthBounds(n: nat)
    requires n >= 1
    ensures n <= Pow2(Depth(n)) && (n > 1 ==> Pow2(Depth(n)) < 2 * n)
    decreases n
  {
    if n > 1 {
      DepthBounds(Half(n));
    }
  }

  /******* Equal roots are equal padded lists *******/

  predicate Below(indices: seq<nat>, n: nat) {
    forall t | 0 <= t < |indices| :: indices[t] < n
  }

  // The children of the nodes at these places on the level above n nodes.
  function Children(indices: seq<nat>, n: nat): (down: seq<nat>)
    requires Below(indices, Half(n))
    ensures |down| == 2 * |indices| && Below(down, n)
  {
    seq(2 * |indices|, t requires 0 <= t < 2 * |indices| =>
      if t % 2 == 0 then 2 * indices[t / 2] else Sibling(indices[t / 2], n))
  }

  // Where each leaf of the padded list comes from.
  function PadIndex(n: nat): (indices: seq<nat>)
    requires n >= 1
    ensures Below(indices, n)
    decreases n
  {
    if n == 1 then [0] else Children(PadIndex(Half(n)), n)
  }

  function Picks(level: seq<Bytes>, indices: seq<nat>): seq<Bytes>
    requires Below(indices, |level|)
  {
    seq(|indices|, t requires 0 <= t < |indices| => level[indices[t]])
  }

  function PickBlocks(blocks: seq<seq<Bytes>>, indices: seq<nat>): seq<Bytes>
    requires Below(indices, |blocks|)
    decreases |indices|
  {
    if indices == [] then []
    else
      var n := |indices| - 1;
      PickBlocks(blocks, indices[..n]) + blocks[indices[n]]
  }

  lemma PickOneMore(blocks: seq<seq<Bytes>>, indices: seq<nat>, i: nat)
    requires Below(indices, |blocks|) && i < |blocks|
    ensures Below(indices + [i], |blocks|)
    ensures PickBlocks(blocks, indices + [i]) == PickBlocks(blocks, indices) + blocks[i]
  {
    assert (indices + [i])[..|indices|] == indices;
  }

  lemma ChildrenOneMore(indices: seq<nat>, i: nat, n: nat)
    requires Below(indices, Half(n)) && i < Half(n)
    ensures Below(indices + [i], Half(n))
    ensures Children(indices + [i], n) == Children(indices, n) + [2 * i] + [Sibling(i, n)]
  {
  }

  lemma PickTwoMore(blocks: seq<seq<Bytes>>, down: seq<nat>, i: nat, k: nat)
    requires Below(down, |blocks|) && i < |blocks| && k < |blocks|
    ensures PickBlocks(blocks, down + [i] + [k]) == PickBlocks(blocks, down) + (blocks[i] + blocks[k])
  {
    hide PickBlocks;
    PickOneMore(blocks, down, i);
    PickOneMore(blocks, down + [i], k);
  }

  lemma PairAt(blocks: seq<seq<Bytes>>, i: nat)
    requires i < Half(|blocks|)
    ensures |PairUp(blocks)| == Half(|blocks|)
    ensures PairUp(blocks)[i] == blocks[2 * i] + blocks[Sibling(i, |blocks|)]
  {
  }

  lemma {:induction false} PickPairs(blocks: seq<seq<Bytes>>, indices: seq<nat>)
    requires Below(indices, Half(|blocks|))
    ensures PickBlocks(PairUp(blocks), indices) == PickBlocks(blocks, Children(indices, |blocks|))
    decreases |indices|
  {
    if indices == [] {
      assert Children(indices, |blocks|) == [];
    } else {
      var front, i := indices[..|indices| - 1], indices[|indices| - 1];
      assert indices == front + [i];
      PickPairs(blocks, front);
      hide PickBlocks;
      hide Children;
      hide PairUp;
      hide Sibling;
      hide Half;
      PairAt(blocks, i);
      ChildrenOneMore(front, i, |blocks|);
      PickOneMore(PairUp(blocks), front, i);
      PickTwoMore(blocks, Children(front, |blocks|), 2 * i, Sibling(i, |blocks|));
    }
  }

  lemma {:induction false} FlattenPicks(blocks: seq<seq<Bytes>>)
    requires blocks != []
    ensures Flatten(blocks) == PickBlocks(blocks, PadIndex(|blocks|))
    decreases |blocks|
  {
    if |blocks| == 1 {
      assert PickBlocks(blocks, [0]) == PickBlocks(blocks, []) + blocks[0];
    } else {
      FlattenPicks(PairUp(blocks));
      PickPairs(blocks, PadIndex(Half(|blocks|)));
    }
  }

  lemma {:induction false} PickSingletons(leaves: seq<Bytes>, blocks: seq<seq<Bytes>>, indices: seq<nat>)
    requires |blocks| == |leaves| && Below(indices, |leaves|)
    requires forall i | 0 <= i < |leaves| :: blocks[i] == [leaves[i]]
    ensures PickBlocks(blocks, indices) == Picks(leaves, indices)
    decreases |indices|
  {
    if indices != [] {
      var n := |indices| - 1;
      PickSingletons(leaves, blocks, indices[..n]);
      assert Picks(leaves, indices) == Picks(leaves, indices[..n]) + [leaves[indices[n]]];
    }
  }

  lemma PaddedPicks(leaves: seq<Bytes>)
    requires leaves != []
    ensures Padded(leaves) == Picks(leaves, PadIndex(|leaves|))
  {
    var blocks := seq(|leaves|, i requires 0 <= i < |leaves| => [leaves[i]]);
    FlattenPicks(blocks);
    PickSingletons(leaves, blocks, PadIndex(|leaves|));
  }

  // Picked parents that agree have picked children that agree.
  lemma PicksDown(
    sha: Sha, inputs: set<Bytes>, a: seq<Bytes>, above: seq<nat>, b: seq<Bytes>, beside: seq<nat>)
    requires Separates(sha, inputs, a) && |a| > 1 && Below(above, Half(|a|))
    requires Separates(sha, inputs, b) && |b| > 1 && Below(beside, Half(|b|))
    requires Picks(NextLevel(sha, a), above) == Picks(NextLevel(sha, b), beside)
    ensures Picks(a, Children(above, |a|)) == Picks(b, Children(beside, |b|))
  {
    var x, y := Picks(NextLevel(sha, a), above), Picks(NextLevel(sha, b), beside);
    assert |above| == |x| == |y| == |beside|;
    forall t | 0 <= t < |above|
      ensures a[2 * above[t]] == b[2 * beside[t]]
      ensures a[Sibling(above[t], |a|)] == b[Sibling(beside[t], |b|)]
    {
      assert x[t] == y[t];
      ParentsEqual(sha, inputs, a, above[t], b, beside[t]);
    }
  }

  lemma {:induction false} EqualDepthPicks(sha: Sha, inputs: set<Bytes>, a: seq<Bytes>, b: seq<Bytes>)
    requires a != [] && Separates(sha, inputs, a) && b != [] && Separates(sha, inputs, b)
    requires Depth(|a|) == Depth(|b|) && LevelRoot(sha, a) == LevelRoot(sha, b)
    ensures Picks(a, PadIndex(|a|)) == Picks(b, PadIndex(|b|))
    decreases |a|
  {
    if |a| > 1 {
      EqualDepthPicks(sha, inputs, NextLevel(sha, a), NextLevel(sha, b));
      PicksDown(sha, inputs, a, PadIndex(Half(|a|)), b, PadIndex(Half(|b|)));
    }
  }

  // MAIN RESULT. What `Root` alone confuses, over arbitrary 32-byte leaves: lists of equal
  // depth have one root exactly if padding makes them one list, as long as no two of the
  // node inputs collide.
  lemma EqualRootsIffPadded(sha: Sha, a: seq<Bytes>, b: seq<Bytes>)
    requires a != [] && b != [] && Depth(|a|) == Depth(|b|)
    requires (forall i | 0 <= i < |a| :: |a[i]| == 32) && (forall i | 0 <= i < |b| :: |b[i]| == 32)
    requires CollisionFree(sha, NodeInputs(sha, a) + NodeInputs(sha, b))
    ensures TreeRoot(sha, a) == TreeRoot(sha, b) <==> Padded(a) == Padded(b)
  {
    LoopIsPerfectTree(sha, a);
    LoopIsPerfectTree(sha, b);
    if TreeRoot(sha, a) == TreeRoot(sha, b) {
      EqualDepthPicks(sha, NodeInputs(sha, a) + NodeInputs(sha, b), a, b);
      PaddedPicks(a);
      PaddedPicks(b);
    }
  }
}
