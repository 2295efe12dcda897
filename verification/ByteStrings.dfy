/**
  Go strings and byte slices, and the two text encodings the repository builds
  on them: hexadecimal (section 8 of RFC 4648) and the "sha256:<hex>" content
  hash of internal/ids/ids.go.

  A Go string is a sequence of bytes, so one type serves for both. SHA-256
  (section 6.2 of FIPS 180-4) is any function from byte strings to 32 bytes:
  every theorem of this project holds for all of them, and none relies on the
  absence of collisions without naming the strings that would collide.
 */
module ByteStrings {

  type Byte = b: int | 0 <= b < 256

  type Bytes = seq<Byte>

  type Str = seq<Byte>

  type Digest = d: Bytes | |d| == 32 witness seq(32, _ => 0)

  type Sha = Bytes -> Digest

  datatype Option<+T> = None | Some(value: T)

  // Two different strings with the same hash.
  predicate Collide(sha: Sha, x: Bytes, y: Bytes) {
    x != y && sha(x) == sha(y)
  }

  predicate CollisionFree(sha: Sha, inputs: set<Bytes>) {
    forall x, y | x in inputs && y in inputs :: !Collide(sha, x, y)
  }

  // s is this text in ASCII.
  ghost predicate Spells(s: Bytes, text: string) {
    |s| == |text| && forall i | 0 <= i < |s| :: s[i] == text[i] as int
  }

  /******* Hexadecimal *******/

  function HexDigit(n: nat): (c: Byte)
    requires n < 16
  {
    if n < 10 then 48 + n else 87 + n
  }

  // Both cases decode, as encoding/hex does.
  function HexValue(c: Byte): Option<nat> {
    if 48 <= c <= 57 then Some(c - 48)
    else if 97 <= c <= 102 then Some(c - 87)
    else if 65 <= c <= 70 then Some(c - 55)
    else None
  }

  predicate IsLowerHex(s: Str) {
    forall i | 0 <= i < |s| :: 48 <= s[i] <= 57 || 97 <= s[i] <= 102
  }

  function HexEncode(b: Bytes): (s: Str)
    ensures |s| == 2 * |b|
    ensures IsLowerHex(s)
  {
    if b == [] then []
    else [HexDigit(b[0] / 16), HexDigit(b[0] % 16)] + HexEncode(b[1..])
  }

  function HexDecode(s: Str): (r: Option<Bytes>)
    decreases |s|
  {
    if s == [] then Some([])
    else if |s| == 1 then None
    else match (HexValue(s[0]), HexValue(s[1]), HexDecode(s[2..]))
      case (Some(hi), Some(lo), Some(rest)) => Some([16 * hi + lo] + rest)
      case _ => None
  }

  lemma {:induction false} HexRoundTrip(b: Bytes)
    ensures HexDecode(HexEncode(b)) == Some(b)
  {
    if b != [] {
      HexRoundTrip(b[1..]);
      assert HexEncode(b)[2..] == HexEncode(b[1..]);
      assert [b[0]] + b[1..] == b;
    }
  }

  lemma HexInjective(x: Bytes, y: Bytes)
    requires HexEncode(x) == HexEncode(y)
    ensures x == y
  {
    HexRoundTrip(x);
    HexRoundTrip(y);
  }

  // c is the digit for n, in either case.
  ghost predicate IsHexOf(c: Byte, n: nat)
    requires n < 16
  {
    c == "0123456789abcdef"[n] as int || c == "0123456789ABCDEF"[n] as int
  }

  lemma DigitIsSpelled(n: nat)
    requires n < 16
    ensures HexDigit(n) == "0123456789abcdef"[n] as int
  {
    var lower := "0123456789abcdef";
    assert lower[0] == '0' && lower[1] == '1' && lower[2] == '2' && lower[3] == '3' && lower[4] == '4';
    assert lower[5] == '5' && lower[6] == '6' && lower[7] == '7' && lower[8] == '8' && lower[9] == '9';
    assert lower[10] == 'a' && lower[11] == 'b' && lower[12] == 'c' && lower[13] == 'd' && lower[14] == 'e';
    assert lower[15] == 'f';
  }

  lemma ValueIsSpelled(c: Byte, n: nat)
    requires n < 16
    ensures HexValue(c) == Some(n) <==> IsHexOf(c, n)
  {
    DigitIsSpelled(n);
    var upper := "0123456789ABCDEF";
    assert upper[0] == '0' && upper[1] == '1' && upper[2] == '2' && upper[3] == '3' && upper[4] == '4';
    assert upper[5] == '5' && upper[6] == '6' && upper[7] == '7' && upper[8] == '8' && upper[9] == '9';
    assert upper[10] == 'A' && upper[11] == 'B' && upper[12] == 'C' && upper[13] == 'D' && upper[14] == 'E';
    assert upper[15] == 'F';
  }

  // Encoding spells each byte as two lower-case digits, the high half first.
  lemma {:induction false} HexSpelling(b: Bytes, i: nat)
    requires i < |b|
    ensures HexEncode(b)[2 * i] == "0123456789abcdef"[b[i] / 16] as int
    ensures HexEncode(b)[2 * i + 1] == "0123456789abcdef"[b[i] % 16] as int
    decreases |b|
  {
    DigitIsSpelled(b[i] / 16);
    DigitIsSpelled(b[i] % 16);
    if i > 0 {
      HexSpelling(b[1..], i - 1);
    }
  }

  ghost predicate SpeltBy(s: Str, b: Bytes) {
    && |s| == 2 * |b|
    && forall i | 0 <= i < |b| :: IsHexOf(s[2 * i], b[i] / 16) && IsHexOf(s[2 * i + 1], b[i] % 16)
  }

  // Decoding gives the bytes a string spells, in either case, and nothing for any other.
  lemma {:induction false} HexDecodeIff(s: Str, b: Bytes)
    ensures HexDecode(s) == Some(b) <==> SpeltBy(s, b)
    decreases |s|
  {
    hide IsHexOf;
    hide HexValue;
    if |s| >= 2 && b != [] {
      HexDecodeIff(s[2..], b[1..]);
      HalvesOf(b[0]);
      ValueIsSpelled(s[0], b[0] / 16);
      ValueIsSpelled(s[1], b[0] % 16);
      SpeltFront(s, b);
      DecodeFront(s, b);
    }
  }

  lemma HalvesOf(c: Byte)
    ensures c / 16 < 16 && c % 16 < 16
  {
  }

  lemma SpeltFront(s: Str, b: Bytes)
    requires |s| >= 2 && b != []
    ensures SpeltBy(s, b) <==> IsHexOf(s[0], b[0] / 16) && IsHexOf(s[1], b[0] % 16) && SpeltBy(s[2..], b[1..])
  {
    hide IsHexOf;
    if IsHexOf(s[0], b[0] / 16) && IsHexOf(s[1], b[0] % 16) && SpeltBy(s[2..], b[1..]) {
      forall i | 0 <= i < |b|
        ensures IsHexOf(s[2 * i], b[i] / 16) && IsHexOf(s[2 * i + 1], b[i] % 16)
      {
        if i > 0 {
          assert b[1..][i - 1] == b[i] && s[2..][2 * (i - 1)] == s[2 * i] && s[2..][2 * (i - 1) + 1] == s[2 * i + 1];
        }
      }
    }
    if SpeltBy(s, b) {
      forall i | 0 <= i < |b| - 1
        ensures IsHexOf(s[2..][2 * i], b[1..][i] / 16) && IsHexOf(s[2..][2 * i + 1], b[1..][i] % 16)
      {
        assert IsHexOf(s[2 * (i + 1)], b[i + 1] / 16) && IsHexOf(s[2 * (i + 1) + 1], b[i + 1] % 16);
      }
    }
  }

  lemma DecodeFront(s: Str, b: Bytes)
    requires |s| >= 2 && b != []
    ensures HexDecode(s) == Some(b) <==>
            && HexValue(s[0]) == Some(b[0] / 16) && HexValue(s[1]) == Some(b[0] % 16)
            && HexDecode(s[2..]) == Some(b[1..])
  {
    assert b == [b[0]] + b[1..];
    ValueIsHalf(s[0]);
    ValueIsHalf(s[1]);
    hide HexValue;
    if HexDecode(s).Some? && HexDecode(s).value == b {
      var hi, lo, rest := HexValue(s[0]).value, HexValue(s[1]).value, HexDecode(s[2..]).value;
      assert ([16 * hi + lo] + rest)[0] == b[0] && ([16 * hi + lo] + rest)[1..] == rest;
    }
  }

  lemma ValueIsHalf(c: Byte)
    ensures HexValue(c).Some? ==> HexValue(c).value < 16
  {
  }

  /******* Content hashes *******/

  // "sha256:"
  const HASH_PREFIX: Str := [115, 104, 97, 50, 53, 54, 58]

  function ContentHash(sha: Sha, content: Bytes): (hash: Str)
  {
    HASH_PREFIX + HexEncode(sha(content))
  }

  // What ParseContentHash accepts: the prefix, then exactly 64 lower-case hex digits.
  predicate IsContentHash(hash: Str) {
    |hash| == 71 && hash[..7] == HASH_PREFIX && IsLowerHex(hash[7..])
  }

  // "0123456789abcdef"
  const LOWER_HEX: Str := [48, 49, 50, 51, 52, 53, 54, 55, 56, 57, 97, 98, 99, 100, 101, 102]

  lemma LowerHexIsListed(c: Byte)
    ensures Spells(LOWER_HEX, "0123456789abcdef")
    ensures c in LOWER_HEX <==> 48 <= c <= 57 || 97 <= c <= 102
  {
    forall n | 0 <= n < 16
      ensures LOWER_HEX[n] == "0123456789abcdef"[n] as int
    {
      DigitIsSpelled(n);
    }
    if 48 <= c <= 57 {
      assert LOWER_HEX[c - 48] == c;
    }
    if 97 <= c <= 102 {
      assert LOWER_HEX[c - 87] == c;
    }
  }

  // Written out: "sha256:" and 64 of the digits 0 to 9 and a to f.
  lemma ContentHashSpelled(hash: Str)
    ensures IsContentHash(hash) <==>
            |hash| == 71 && Spells(hash[..7], "sha256:") && forall i | 7 <= i < 71 :: hash[i] in LOWER_HEX
  {
    PrefixIsSpelled();
    LowerHexIsListed(0);
    if |hash| == 71 {
      assert Spells(hash[..7], "sha256:") ==> hash[..7] == HASH_PREFIX;
      hide Spells;
      forall i | 7 <= i < 71
        ensures hash[i] == hash[7..][i - 7]
        ensures hash[i] in LOWER_HEX <==> 48 <= hash[i] <= 57 || 97 <= hash[i] <= 102
      {
        LowerHexIsListed(hash[i]);
      }
      if forall i | 7 <= i < 71 :: hash[i] in LOWER_HEX {
        forall i | 0 <= i < 64
          ensures 48 <= hash[7..][i] <= 57 || 97 <= hash[7..][i] <= 102
        {
          assert hash[7..][i] == hash[i + 7];
        }
      }
    }
  }

  method ParseContentHash(contentHash: Str) returns (digest: Option<Str>)
    ensures digest == if IsContentHash(contentHash) then Some(contentHash[7..]) else None
  {
    if !(HASH_PREFIX <= contentHash) {
      return None;
    }
    var hexDigest := contentHash[7..];
    if |hexDigest| != 64 {
      return None;
    }
    var i := 0;
    while i < |hexDigest|
      invariant 0 <= i <= |hexDigest|
      invariant IsLowerHex(hexDigest[..i])
    {
      var c := hexDigest[i];
      if (c < 48 || c > 57) && (c < 97 || c > 102) {
        assert contentHash[7..][i] == c;
        return None;
      }
      i := i + 1;
    }
    assert hexDigest[..i] == hexDigest;
    return Some(hexDigest);
  }

  lemma ContentHashIsValid(sha: Sha, content: Bytes)
    ensures IsContentHash(ContentHash(sha, content))
    ensures ContentHash(sha, content)[7..] == HexEncode(sha(content))
    ensures Spells(ContentHash(sha, content)[..7], "sha256:")
    ensures forall i | 0 <= i < 71 :: ContentHash(sha, content)[i] != 0
  {
    var hex := HexEncode(sha(content));
    var hash := ContentHash(sha, content);
    assert hash[..7] == HASH_PREFIX && hash[7..] == hex;
    PrefixIsSpelled();
    ValidHashHasNoZero(hash);
  }

  lemma PrefixIsSpelled()
    ensures Spells(HASH_PREFIX, "sha256:")
  {
    var text := "sha256:";
    assert text[0] == 's' && text[1] == 'h' && text[2] == 'a' && text[3] == '2' && text[4] == '5' && text[5] == '6';
    assert text[6] == ':';
  }

  lemma ValidHashHasNoZero(hash: Str)
    requires IsContentHash(hash)
    ensures forall i | 0 <= i < |hash| :: hash[i] != 0
  {
    forall i | 0 <= i < |hash|
      ensures hash[i] != 0
    {
      if i < 7 {
        assert hash[i] == hash[..7][i] == HASH_PREFIX[i];
      } else {
        assert hash[i] == hash[7..][i - 7];
      }
    }
  }

  // Equal content hashes mean equal contents, or the two contents collide.
  lemma SameContentHash(sha: Sha, x: Bytes, y: Bytes)
    requires ContentHash(sha, x) == ContentHash(sha, y)
    ensures x == y || Collide(sha, x, y)
  {
    ContentHashIsValid(sha, x);
    ContentHashIsValid(sha, y);
    HexInjective(sha(x), sha(y));
  }
}
