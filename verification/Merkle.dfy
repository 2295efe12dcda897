/**
  internal/merkle: the leaf encoding, the level-by-level root, and the
  TypeScript exporter's copy of both (sdk/typescript/src/evidence.ts).
 */
module Merkle {
  import opened ByteStrings

  // The three manifest-entry fields a leaf commits to.
  datatype LeafEntry = LeafEntry(position: int, uri: Str, hash: Str)

  const UINT32: int := 0x1_0000_0000

  /******* Specification *******/

  // uint32(position) in big-endian order; the conversion wraps.
  function BigEndian32(position: int): (b: Bytes)
    ensures |b| == 4
    ensures 0x100_0000 * (b[0] as int) + 0x1_0000 * (b[1] as int) + 0x100 * (b[2] as int) + b[3] as int ==
            position % UINT32
  {
    var u0 := position % UINT32;
    var u1 := u0 / 0x100;
    var u2 := u1 / 0x100;
    [u2 / 0x100, u2 % 0x100, u1 % 0x100, u0 % 0x100]
  }

  function LeafPreimage(e: LeafEntry): Bytes {
    BigEndian32(e.position) + [0] + e.uri + [0] + e.hash
  }

  // Byte by byte: the position modulo 2^32 with its high byte first, a zero byte, the
  // uri, a zero byte, the hash, and nothing else.
  ghost predicate LaidOut(p: Bytes, position: int, uri: Str, hash: Str) {
    && |p| == 6 + |uri| + |hash|
    && 0x100_0000 * p[0] as int + 0x1_0000 * p[1] as int + 0x100 * p[2] as int + p[3] as int == position % UINT32
    && p[4] == 0 && p[5..5 + |uri|] == uri && p[5 + |uri|] == 0 && p[6 + |uri|..] == hash
  }

  lemma PreimageIsLaidOut(e: LeafEntry)
    ensures LaidOut(LeafPreimage(e), e.position, e.uri, e.hash)
  {
    var n, p := BigEndian32(e.position), LeafPreimage(e);
    assert p[0] == n[0] && p[1] == n[1] && p[2] == n[2] && p[3] == n[3];
  }

  // d is the hash of the string laid out for e.
  ghost predicate HashesLayout(sha: Sha, d: Bytes, e: LeafEntry) {
    exists p :: LaidOut(p, e.position, e.uri, e.hash) && d == sha(p)
  }

  // Every leaf digest is that of its entry.
  lemma LeavesHashLayouts(sha: Sha, entries: seq<LeafEntry>)
    ensures |Leaves(sha, entries)| == |entries|
    ensures forall i | 0 <= i < |entries| :: HashesLayout(sha, Leaves(sha, entries)[i], entries[i])
  {
    forall i | 0 <= i < |entries|
      ensures HashesLayout(sha, Leaves(sha, entries)[i], entries[i])
    {
      PreimageIsLaidOut(entries[i]);
      assert Leaves(sha, entries)[i] == sha(LeafPreimage(entries[i]));
    }
  }

  // The sibling of node 2*i on a level of n nodes: the odd node out is its own.
  function Sibling(i: nat, n: nat): (k: nat)
    requires 2 * i < n
    ensures 2 * i <= k < n
  {
    if 2 * i + 1 < n then 2 * i + 1 else 2 * i
  }

  function Half(n: nat): nat { (n + 1) / 2 }

  function Pair(level: seq<Bytes>, i: nat): Bytes
    requires i < Half(|level|)
  {
    level[2 * i] + level[Sibling(i, |level|)]
  }

  function NextLevel(sha: Sha, level: seq<Bytes>): (next: seq<Bytes>) {
    seq(Half(|level|), i requires 0 <= i < Half(|level|) => sha(Pair(level, i)))
  }

  function LevelRoot(sha: Sha, level: seq<Bytes>): (root: Bytes)
    requires level != []
    decreases |level|
  {
    if |level| == 1 then level[0] else LevelRoot(sha, NextLevel(sha, level))
  }

  function TreeRoot(sha: Sha, leaves: seq<Bytes>): Bytes {
    if leaves == [] then sha([]) else LevelRoot(sha, leaves)
  }

  function Leaves(sha: Sha, entries: seq<LeafEntry>): seq<Bytes> {
    seq(|entries|, i requires 0 <= i < |entries| => sha(LeafPreimage(entries[i])))
  }

  function MerkleRoot(sha: Sha, entries: seq<LeafEntry>): Str {
    HexEncode(TreeRoot(sha, Leaves(sha, entries)))
  }

  // Root's reading of one leaf string: the decoded bytes, or the string itself.
  function LeafBytes(leaf: Str): Bytes {
    match HexDecode(leaf)
    case Some(b) => b
    case None => leaf
  }

  function LeavesBytes(leaves: seq<Str>): seq<Bytes> {
    seq(|leaves|, i requires 0 <= i < |leaves| => LeafBytes(leaves[i]))
  }

  function LeafStrings(sha: Sha, entries: seq<LeafEntry>): seq<Str> {
    seq(|entries|, i requires 0 <= i < |entries| => HexEncode(sha(LeafPreimage(entries[i]))))
  }

  /******* The Go implementation *******/

  // crypto/sha256's running state: what has been written so far.
  class HashState {
    const sha: Sha
    var written: Bytes

    constructor (sha: Sha)
      ensures this.sha == sha && written == []
    {
      this.sha := sha;
      written := [];
    }

    method Write(p: Bytes)
      modifies this
      ensures written == old(written) + p
    {
      written := written + p;
    }

    method Sum() returns (d: Digest)
      ensures d == sha(written)
    {
      d := sha(written);
    }
  }

  method Leaf(sha: Sha, position: int, uri: Str, contentHash: Str) returns (leaf: Str)
    ensures leaf == HexEncode(sha(LeafPreimage(LeafEntry(position, uri, contentHash))))
    ensures exists p :: LaidOut(p, position, uri, contentHash) && leaf == HexEncode(sha(p))
  {
    PreimageIsLaidOut(LeafEntry(position, uri, contentHash));
    var h := new HashState(sha);
    h.Write(BigEndian32(position));
    h.Write([0]);
    h.Write(uri);
    h.Write([0]);
    h.Write(contentHash);
    assert h.written == LeafPreimage(LeafEntry(position, uri, contentHash));
    var sum := h.Sum();
    leaf := HexEncode(sum);
  }

  method Root(sha: Sha, leaves: seq<Str>) returns (root: Str)
    ensures root == HexEncode(TreeRoot(sha, LeavesBytes(leaves)))
  {
    if |leaves| == 0 {
      return HexEncode(sha([]));
    }
    var level: seq<Bytes> := [];
    for i := 0 to |leaves|
      invariant level == LeavesBytes(leaves)[..i]
    {
      var decoded: Bytes;
      match HexDecode(leaves[i]) {
        case Some(b) => decoded := b;
        case None => decoded := leaves[i];
      }
      level := level + [decoded];
    }
    assert level == LeavesBytes(leaves);
    level := ReduceLevels(sha, level);
    root := HexEncode(level[0]);
  }

  // The loop shared by Root and the TypeScript merkleRoot.
  method ReduceLevels(sha: Sha, leaves: seq<Bytes>) returns (level: seq<Bytes>)
    requires leaves != []
    ensures level == [LevelRoot(sha, leaves)]
  {
    level := leaves;
    while |level| > 1
      invariant level != []
      invariant LevelRoot(sha, level) == LevelRoot(sha, leaves)
      decreases |level|
    {
      var next: seq<Bytes> := [];
      var i := 0;
      while i < |level|
        invariant 0 <= i <= |level| + 1
        invariant i % 2 == 0
        invariant next == NextLevel(sha, level)[..i / 2]
        decreases |level| - i
      {
        var left := level[i];
        var right := left;
        if i + 1 < |level| {
          right := level[i + 1];
        }
        var h := new HashState(sha);
        h.Write(left);
        h.Write(right);
        assert h.written == Pair(level, i / 2);
        var sum := h.Sum();
        next := next + [sum];
        i := i + 2;
      }
      assert next == NextLevel(sha, level);
      level := next;
    }
  }

  /******* The TypeScript implementation *******/

  // merkleRoot keeps raw digests throughout and renders hex once.
  method MerkleRootTs(sha: Sha, entries: seq<LeafEntry>) returns (root: Str)
    ensures root == MerkleRoot(sha, entries)
  {
    if |entries| == 0 {
      return HexEncode(sha([]));
    }
    var level: seq<Bytes> := [];
    for i := 0 to |entries|
      invariant level == Leaves(sha, entries)[..i]
    {
      level := level + [sha(LeafPreimage(entries[i]))];
    }
    assert level == Leaves(sha, entries);
    level := ReduceLevels(sha, level);
    root := HexEncode(level[0]);
  }

  // The two exporters agree on every entry list: Root never takes its non-hex
  // fallback on what Leaf produced, so decoding gives the raw digests back.
  lemma TwoExportersOneRoot(sha: Sha, entries: seq<LeafEntry>)
    ensures forall i | 0 <= i < |entries| :: HexDecode(LeafStrings(sha, entries)[i]).Some?
    ensures HexEncode(TreeRoot(sha, LeavesBytes(LeafStrings(sha, entries)))) == MerkleRoot(sha, entries)
  {
    var strings := LeafStrings(sha, entries);
    forall i | 0 <= i < |entries|
      ensures HexDecode(strings[i]) == Some(sha(LeafPreimage(entries[i])))
    {
      HexRoundTrip(sha(LeafPreimage(entries[i])));
    }
    assert LeavesBytes(strings) == Leaves(sha, entries);
  }

  // internal/run's merkleRoot and internal/evidence's MerkleRoot: hex leaves, then Root.
  method MerkleRootGo(sha: Sha, entries: seq<LeafEntry>) returns (root: Str)
    ensures root == MerkleRoot(sha, entries)
  {
    var leaves: seq<Str> := [];
    for i := 0 to |entries|
      invariant leaves == LeafStrings(sha, entries)[..i]
    {
      var leaf := Leaf(sha, entries[i].position, entries[i].uri, entries[i].hash);
      leaves := leaves + [leaf];
    }
    assert leaves == LeafStrings(sha, entries);
    TwoExportersOneRoot(sha, entries);
    root := Root(sha, leaves);
  }
}
