/**
  UTF-8 as sections 3 and 4 of RFC 3629 define it: which byte strings are valid, and
  the longest valid prefix within a cap.
 */
module Utf8 {
  import opened ByteStrings

  predicate IsTail(b: Byte) { 0x80 <= b < 0xC0 }

  // Bytes of the well-formed sequence s starts with; 0 if it starts with none.
  function RuneLength(s: Bytes): (n: nat)
    ensures n <= 4 && n <= |s|
  {
    if s == [] then 0
    else
      var b := s[0];
      if b < 0x80 then 1
      else if 0xC2 <= b <= 0xDF then
        if |s| >= 2 && IsTail(s[1]) then 2 else 0
      else if 0xE0 <= b <= 0xEF then
        if |s| >= 3 && IsTail(s[1]) && IsTail(s[2])
           && (b == 0xE0 ==> s[1] >= 0xA0) && (b == 0xED ==> s[1] < 0xA0) then 3 else 0
      else if 0xF0 <= b <= 0xF4 then
        if |s| >= 4 && IsTail(s[1]) && IsTail(s[2]) && IsTail(s[3])
           && (b == 0xF0 ==> s[1] >= 0x90) && (b == 0xF4 ==> s[1] < 0x90) then 4 else 0
      else 0
  }

  predicate Valid(s: Bytes)
    decreases |s|
  {
    s == [] || (RuneLength(s) > 0 && Valid(s[RuneLength(s)..]))
  }

  // Whole sequences from the front, as many as fit in the first n bytes.
  function Floor(s: Bytes, n: nat): (k: nat)
    requires n <= |s|
    ensures k <= n
    decreases |s|
  {
    var r := RuneLength(s);
    if r == 0 || r > n then 0 else r + Floor(s[r..], n - r)
  }

  /******* Sequences *******/

  // The definitions, one step at a time.
  lemma ValidUnfold(s: Bytes)
    ensures Valid(s) <==> s == [] || (RuneLength(s) > 0 && Valid(s[RuneLength(s)..]))
  {
    hide RuneLength;
  }

  lemma FloorUnfold(s: Bytes, n: nat)
    requires n <= |s|
    ensures var r := RuneLength(s); Floor(s, n) == if r == 0 || r > n then 0 else r + Floor(s[r..], n - r)
  {
    hide RuneLength;
  }

  // Only what a sequence covers decides its length, and it covers one lead and its tails.
  lemma RuneIsLocal(s: Bytes, t: Bytes)
    requires RuneLength(s) > 0 && RuneLength(s) <= |t| && s[..RuneLength(s)] == t[..RuneLength(s)]
    ensures RuneLength(t) == RuneLength(s)
    ensures !IsTail(s[0]) && forall i | 1 <= i < RuneLength(s) :: IsTail(s[i])
  {
    var n := RuneLength(s);
    assert forall i | 0 <= i < n :: s[i] == s[..n][i] == t[i];
  }

  lemma {:induction false} ValidConcat(a: Bytes, b: Bytes)
    requires Valid(a) && Valid(b)
    ensures Valid(a + b)
    decreases |a|
  {
    hide RuneLength;
    hide Valid;
    if a == [] {
      assert a + b == b;
    } else {
      ValidUnfold(a);
      ValidUnfold(a + b);
      var r := RuneLength(a);
      assert a[..r] == (a + b)[..r];
      RuneIsLocal(a, a + b);
      ValidConcat(a[r..], b);
      assert (a + b)[r..] == a[r..] + b;
    }
  }

  // What follows a valid prefix of a valid string is valid.
  lemma {:induction false} ValidRest(s: Bytes, k: nat)
    requires Valid(s) && k <= |s| && Valid(s[..k])
    ensures Valid(s[k..])
    decreases |s|
  {
    hide RuneLength;
    hide Valid;
    if k == 0 {
      assert s[k..] == s;
    } else {
      ValidUnfold(s[..k]);
      ValidUnfold(s);
      var r := RuneLength(s[..k]);
      assert s[..k][..r] == s[..r];
      RuneIsLocal(s[..k], s);
      assert s[..k][r..] == s[r..][..k - r] && s[r..][k - r..] == s[k..];
      ValidRest(s[r..], k - r);
    }
  }

  lemma SingleRune(s: Bytes)
    requires RuneLength(s) > 0
    ensures Valid(s[..RuneLength(s)])
  {
    hide RuneLength;
    hide Valid;
    var n := RuneLength(s);
    RuneIsLocal(s, s[..n]);
    assert s[..n][n..] == [];
    ValidUnfold(s[..n]);
    ValidUnfold([]);
  }

  // In a valid string every byte that is not a tail starts a sequence.
  lemma {:induction false} LeadIsBoundary(s: Bytes, i: nat)
    requires Valid(s) && i < |s| && !IsTail(s[i])
    ensures Valid(s[..i]) && Valid(s[i..])
    decreases |s|
  {
    hide RuneLength;
    hide Valid;
    if i == 0 {
      assert s[0..] == s && s[..0] == [];
      ValidUnfold([]);
    } else {
      var r := RuneLength(s);
      ValidUnfold(s);
      RuneIsLocal(s, s);
      assert i >= r;
      if i == r {
        SingleRune(s);
      } else {
        assert s[r..][i - r] == s[i];
        LeadIsBoundary(s[r..], i - r);
        SingleRune(s);
        ValidConcat(s[..r], s[r..][..i - r]);
        assert s[..r] + s[r..][..i - r] == s[..i];
        assert s[r..][i - r..] == s[i..];
      }
    }
  }

  /******* Code points *******/

  predicate IsScalar(c: nat) { c < 0xD800 || 0xE000 <= c < 0x11_0000 }

  // The encoding of one code point (section 3 of RFC 3629).
  function EncodeScalar(c: nat): (s: Bytes)
    requires IsScalar(c)
    ensures 1 <= |s| <= 4
  {
    if c < 0x80 then [c]
    else if c < 0x800 then [0xC0 + c / 0x40, 0x80 + c % 0x40]
    else if c < 0x1_0000 then [0xE0 + c / 0x1000, 0x80 + c / 0x40 % 0x40, 0x80 + c % 0x40]
    else [0xF0 + c / 0x4_0000, 0x80 + c / 0x1000 % 0x40, 0x80 + c / 0x40 % 0x40, 0x80 + c % 0x40]
  }

  // s begins with the n bytes that encode c.
  ghost predicate BeginsWith(s: Bytes, c: nat, n: nat) {
    IsScalar(c) && EncodeScalar(c) <= s && |EncodeScalar(c)| == n
  }

  lemma ScalarIsRune(s: Bytes, c: nat, n: nat)
    requires BeginsWith(s, c, n)
    ensures RuneLength(s) == n
  {
    var e := EncodeScalar(c);
    assert forall i | 0 <= i < n :: s[i] == e[i];
  }

  lemma OneByte(s: Bytes)
    requires RuneLength(s) == 1
    ensures BeginsWith(s, s[0], 1)
  {
  }

  lemma TwoBytes(s: Bytes, c: nat)
    requires RuneLength(s) == 2 && c == (s[0] as int - 0xC0) * 0x40 + (s[1] as int - 0x80)
    ensures BeginsWith(s, c, 2)
  {
    assert c / 0x40 == s[0] as int - 0xC0 && c % 0x40 == s[1] as int - 0x80;
  }

  lemma ThreeBytes(s: Bytes, c: nat)
    requires RuneLength(s) == 3
    requires c == (s[0] as int - 0xE0) * 0x1000 + (s[1] as int - 0x80) * 0x40 + (s[2] as int - 0x80)
    ensures BeginsWith(s, c, 3)
  {
    var high := (s[0] as int - 0xE0) * 0x40 + (s[1] as int - 0x80);
    assert c / 0x40 == high && c % 0x40 == s[2] as int - 0x80;
    assert high / 0x40 == s[0] as int - 0xE0 && high % 0x40 == s[1] as int - 0x80;
    assert c / 0x1000 == high / 0x40;
  }

  lemma FourBytes(s: Bytes, c: nat)
    requires RuneLength(s) == 4
    requires c == (s[0] as int - 0xF0) * 0x4_0000 + (s[1] as int - 0x80) * 0x1000
                  + (s[2] as int - 0x80) * 0x40 + (s[3] as int - 0x80)
    ensures BeginsWith(s, c, 4)
  {
    var high := (s[0] as int - 0xF0) * 0x1000 + (s[1] as int - 0x80) * 0x40 + (s[2] as int - 0x80);
    var higher := (s[0] as int - 0xF0) * 0x40 + (s[1] as int - 0x80);
    assert c / 0x40 == high && c % 0x40 == s[3] as int - 0x80;
    assert high / 0x40 == higher && high % 0x40 == s[2] as int - 0x80;
    assert higher / 0x40 == s[0] as int - 0xF0 && higher % 0x40 == s[1] as int - 0x80;
    assert c / 0x1000 == higher && c / 0x4_0000 == higher / 0x40;
  }

  lemma RuneIsScalar(s: Bytes) returns (c: nat)
    requires RuneLength(s) > 0
    ensures BeginsWith(s, c, RuneLength(s))
  {
    LeadBounds(s);
    hide BeginsWith;
    var n := RuneLength(s);
    hide RuneLength;
    if n == 1 {
      c := s[0];
      OneByte(s);
    } else if n == 2 {
      c := (s[0] as int - 0xC0) * 0x40 + (s[1] as int - 0x80);
      TwoBytes(s, c);
    } else if n == 3 {
      c := (s[0] as int - 0xE0) * 0x1000 + (s[1] as int - 0x80) * 0x40 + (s[2] as int - 0x80);
      ThreeBytes(s, c);
    } else {
      c := (s[0] as int - 0xF0) * 0x4_0000 + (s[1] as int - 0x80) * 0x1000
           + (s[2] as int - 0x80) * 0x40 + (s[3] as int - 0x80);
      FourBytes(s, c);
    }
  }

  lemma LeadBounds(s: Bytes)
    requires RuneLength(s) > 0
    ensures forall i | 1 <= i < RuneLength(s) :: s[i] >= 0x80
    ensures RuneLength(s) == 2 ==> s[0] >= 0xC0
    ensures RuneLength(s) == 3 ==> s[0] >= 0xE0
    ensures RuneLength(s) == 4 ==> s[0] >= 0xF0
  {
  }

  // A sequence is the encoding of a code point: the shortest one, and never of a surrogate.
  lemma RuneLengthIff(s: Bytes, n: nat)
    requires n > 0
    ensures RuneLength(s) == n <==> exists c :: BeginsWith(s, c, n)
  {
    hide RuneLength;
    hide BeginsWith;
    if RuneLength(s) == n {
      var c := RuneIsScalar(s);
    }
    if c :| BeginsWith(s, c, n) {
      ScalarIsRune(s, c, n);
    }
  }

  predicate AllScalars(text: seq<nat>) { forall i | 0 <= i < |text| :: IsScalar(text[i]) }

  function EncodeAll(text: seq<nat>): Bytes
    requires AllScalars(text)
  {
    if text == [] then [] else EncodeScalar(text[0]) + EncodeAll(text[1..])
  }

  lemma {:induction false} EncodedIsValid(text: seq<nat>)
    requires AllScalars(text)
    ensures Valid(EncodeAll(text))
    decreases |text|
  {
    hide RuneLength;
    hide EncodeScalar;
    if text != [] {
      EncodedIsValid(text[1..]);
      var s, e := EncodeAll(text), EncodeScalar(text[0]);
      ScalarIsRune(s, text[0], |e|);
      assert s[|e|..] == EncodeAll(text[1..]);
    }
  }

  lemma {:induction false} ValidIsEncoded(s: Bytes) returns (text: seq<nat>)
    requires Valid(s)
    ensures AllScalars(text) && EncodeAll(text) == s
    decreases |s|
  {
    hide RuneLength;
    hide EncodeScalar;
    if s == [] {
      text := [];
    } else {
      var rest := ValidIsEncoded(s[RuneLength(s)..]);
      var c := RuneIsScalar(s);
      text := [c] + rest;
      assert text[1..] == rest;
      assert s == s[..RuneLength(s)] + s[RuneLength(s)..];
    }
  }

  // MAIN RESULT. Valid strings are exactly the encodings of sequences of code points.
  lemma ValidIff(s: Bytes)
    ensures Valid(s) <==> exists text :: AllScalars(text) && EncodeAll(text) == s
  {
    if Valid(s) {
      var text := ValidIsEncoded(s);
    }
    if text :| AllScalars(text) && EncodeAll(text) == s {
      EncodedIsValid(text);
    }
  }

  /******* The last sequence *******/

  // The last j bytes are one sequence.
  predicate EndsWithRune(s: Bytes, j: nat) {
    1 <= j <= |s| && RuneLength(s[|s| - j..]) == j
  }

  predicate EndsInRune(s: Bytes) {
    EndsWithRune(s, 1) || EndsWithRune(s, 2) || EndsWithRune(s, 3) || EndsWithRune(s, 4)
  }

  // The length of the sequence s ends with; 0 if it ends with none.
  function LastRuneLength(s: Bytes): (j: nat)
    ensures j <= 4 && (j > 0 <==> EndsInRune(s)) && (j > 0 ==> EndsWithRune(s, j))
  {
    if EndsWithRune(s, 1) then 1 else if EndsWithRune(s, 2) then 2
    else if EndsWithRune(s, 3) then 3 else if EndsWithRune(s, 4) then 4 else 0
  }

  lemma EndsWith(s: Bytes, j: nat)
    requires EndsWithRune(s, j)
    ensures EndsInRune(s)
  {
    hide RuneLength;
    assert RuneLength(s[|s| - j..]) <= 4;
    if j == 1 {
      assert EndsWithRune(s, 1);
    } else if j == 2 {
      assert EndsWithRune(s, 2);
    } else if j == 3 {
      assert EndsWithRune(s, 3);
    } else {
      assert EndsWithRune(s, 4);
    }
  }

  lemma EndsAlike(s: Bytes, t: Bytes, j: nat)
    requires EndsWithRune(t, j) && |t| <= |s| && s[|s| - |t|..] == t
    ensures EndsWithRune(s, j)
  {
    hide RuneLength;
    assert t[|t| - j..] == s[|s| - j..];
  }

  lemma WholeRune(s: Bytes)
    requires 0 < RuneLength(s) == |s|
    ensures EndsWithRune(s, |s|)
  {
    hide RuneLength;
    assert s[|s| - |s|..] == s;
  }

  lemma {:induction false} ValidEndsInRune(s: Bytes)
    requires Valid(s) && s != []
    ensures EndsInRune(s)
    decreases |s|
  {
    hide Valid;
    hide RuneLength;
    hide EndsInRune;
    hide EndsWithRune;
    hide LastRuneLength;
    var r := RuneLength(s);
    ValidUnfold(s);
    if r == |s| {
      WholeRune(s);
      EndsWith(s, r);
    } else {
      var t := s[r..];
      ValidEndsInRune(t);
      EndsAlike(s, t, LastRuneLength(t));
      EndsWith(s, LastRuneLength(t));
    }
  }

  // A prefix of a valid string is valid exactly when it is empty or ends in a
  // sequence: the code is self-synchronizing.
  lemma PrefixIsValid(s: Bytes, k: nat)
    requires Valid(s) && k <= |s|
    ensures Valid(s[..k]) <==> k == 0 || EndsInRune(s[..k])
  {
    hide EndsInRune;
    hide EndsWithRune;
    hide LastRuneLength;
    hide RuneLength;
    hide Valid;
    var p := s[..k];
    ValidUnfold([]);
    if Valid(p) && k > 0 {
      ValidEndsInRune(p);
    }
    if k > 0 && EndsInRune(p) {
      RuneAtEnd(s, k, LastRuneLength(p));
    }
  }

  lemma RuneAtEnd(s: Bytes, k: nat, j: nat)
    requires Valid(s) && k <= |s| && EndsWithRune(s[..k], j)
    ensures Valid(s[..k - j]) && Valid(s[..k])
  {
    hide RuneLength;
    hide Valid;
    var p := s[..k];
    var tail := p[k - j..];
    RuneIsLocal(tail, tail);
    assert tail[0] == s[k - j];
    LeadIsBoundary(s, k - j);
    SingleRune(tail);
    assert tail[..j] == tail;
    ValidConcat(s[..k - j], tail);
    assert s[..k - j] + tail == p;
  }

  /******* The longest valid prefix *******/

  lemma {:induction false} FloorIsValid(s: Bytes, n: nat)
    requires n <= |s|
    ensures Valid(s[..Floor(s, n)])
    decreases |s|
  {
    hide RuneLength;
    hide Valid;
    hide Floor;
    var r := RuneLength(s);
    FloorUnfold(s, n);
    if r == 0 || r > n {
      assert s[..0] == [];
      ValidUnfold([]);
    } else {
      FloorIsValid(s[r..], n - r);
      SingleRune(s);
      var k := Floor(s[r..], n - r);
      ValidConcat(s[..r], s[r..][..k]);
      assert s[..r] + s[r..][..k] == s[..r + k];
    }
  }

  lemma {:induction false} FloorIsLongest(s: Bytes, n: nat, k: nat)
    requires k <= n <= |s| && Valid(s[..k])
    ensures k <= Floor(s, n)
    decreases |s|
  {
    hide RuneLength;
    hide Valid;
    hide Floor;
    if k > 0 {
      var r := RuneLength(s[..k]);
      ValidUnfold(s[..k]);
      assert s[..k][..r] == s[..r];
      RuneIsLocal(s[..k], s);
      assert s[..k][r..] == s[r..][..k - r];
      FloorUnfold(s, n);
      FloorIsLongest(s[r..], n - r, k - r);
    }
  }

  // MAIN RESULT. Floor is the longest valid prefix within the cap; in a valid string
  // it falls at most 3 bytes short of the cap.
  lemma {:induction false} FloorIsClose(s: Bytes, n: nat)
    requires Valid(s) && n <= |s|
    ensures n - Floor(s, n) <= 3
    decreases |s|
  {
    hide RuneLength;
    hide Valid;
    hide Floor;
    var r := RuneLength(s);
    ValidUnfold(s);
    FloorUnfold(s, n);
    if 0 < r <= n {
      FloorIsClose(s[r..], n - r);
    }
  }
}
