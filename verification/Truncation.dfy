/**
  Capping inline content: internal/mcp/content.go trims from the end with a decoder,
  the plugin's content.ts walks back to a lead byte. Both are proved against Floor,
  the longest valid prefix within the cap.
 */
module Truncation {
  import opened ByteStrings
  import opened Utf8

  /******* Go *******/

  // utf8.DecodeRune, as far as its callers here look: whether a sequence was decoded
  // (a lone bad byte counts as one replacement character of width 1), and its width.
  datatype Decoded = Decoded(ok: bool, size: nat)

  function DecodeRune(p: Bytes): Decoded {
    if p == [] then Decoded(false, 0)
    else if RuneLength(p) > 0 then Decoded(true, RuneLength(p))
    else Decoded(false, 1)
  }

  // utf8.DecodeLastRune: back at most four bytes to one that can start a sequence,
  // then decode forward, which must reach the end exactly.
  method DecodeLastRune(p: Bytes) returns (d: Decoded)
    ensures d.ok <==> EndsInRune(p)
    ensures d.ok ==> EndsWithRune(p, d.size)
    ensures !d.ok ==> d.size <= 1
  {
    hide EndsInRune;
    hide EndsWithRune;
    hide RuneLength;
    var end := |p|;
    if end == 0 {
      NothingEndsEmpty();
      return Decoded(false, 0);
    }
    if p[end - 1] < 0x80 {
      EndsWithAscii(p);
      return Decoded(true, 1);
    }
    var lim := if end < 4 then 0 else end - 4;
    var start := end - 2;
    while start >= lim && IsTail(p[start])
      invariant lim - 1 <= start <= end - 2
      invariant forall i | start < i < end - 1 :: IsTail(p[i])
      decreases start + 1
    {
      start := start - 1;
    }
    if start < 0 {
      start := 0;
    }
    var first := DecodeRune(p[start..]);
    OnlyFromStart(p, start, lim);
    if start + first.size != end {
      return Decoded(false, 1);
    }
    return first;
  }

  lemma NothingEndsEmpty()
    ensures !EndsInRune([])
  {
  }

  lemma EndsWithAscii(p: Bytes)
    requires p != [] && p[|p| - 1] < 0x80
    ensures EndsWithRune(p, 1) && EndsInRune(p)
  {
    assert p[|p| - 1..] == [p[|p| - 1]];
  }

  // How far back the scan for a lead went: past tails only, and within four bytes of
  // the end unless it found none.
  predicate ScannedTo(p: Bytes, start: nat, lim: nat) {
    && p != [] && p[|p| - 1] >= 0x80
    && lim == (if |p| < 4 then 0 else |p| - 4)
    && lim - 1 <= start < |p|
    && (forall i | start < i < |p| - 1 :: IsTail(p[i]))
    && (start == 0 || start < lim || !IsTail(p[start]))
  }

  // A sequence that ends p can only start where the scan stopped.
  lemma OnlyFromStart(p: Bytes, start: nat, lim: nat)
    requires ScannedTo(p, start, lim)
    ensures EndsInRune(p) <==> start + DecodeRune(p[start..]).size == |p| && DecodeRune(p[start..]).ok
    ensures EndsInRune(p) ==> EndsWithRune(p, DecodeRune(p[start..]).size)
    ensures start + DecodeRune(p[start..]).size == |p| && !DecodeRune(p[start..]).ok ==>
              DecodeRune(p[start..]).size <= 1
  {
    hide EndsInRune;
    hide EndsWithRune;
    hide LastRuneLength;
    hide RuneLength;
    var n := |p| - start;
    EndsFrom(p, start);
    if EndsInRune(p) {
      LastStartsAt(p, start, lim, LastRuneLength(p));
    }
    if EndsWithRune(p, n) {
      EndsWith(p, n);
    }
  }

  lemma EndsFrom(p: Bytes, start: nat)
    requires start < |p|
    ensures EndsWithRune(p, |p| - start) <==> RuneLength(p[start..]) == |p| - start
  {
    hide RuneLength;
    assert p[|p| - (|p| - start)..] == p[start..];
  }

  lemma LastStartsAt(p: Bytes, start: nat, lim: nat, j: nat)
    requires ScannedTo(p, start, lim) && j <= 4 && EndsWithRune(p, j)
    ensures j == |p| - start
  {
    hide RuneLength;
    var tail := p[|p| - j..];
    NotOneByte(p, j);
    RuneIsLocal(tail, tail);
    assert tail[0] == p[|p| - j];
    forall i | |p| - j < i < |p|
      ensures IsTail(p[i])
    {
      assert tail[i - (|p| - j)] == p[i];
    }
  }

  lemma NotOneByte(p: Bytes, j: nat)
    requires p != [] && p[|p| - 1] >= 0x80 && EndsWithRune(p, j)
    ensures j >= 2
  {
  }

  // trimToRuneBoundary drops last bytes until the rest is empty or ends in a sequence.
  function GoTrim(b: Bytes): (r: Bytes)
    ensures r <= b && (r == [] || EndsInRune(r))
    decreases |b|
  {
    if b == [] || EndsInRune(b) then b else GoTrim(b[..|b| - 1])
  }

  method TrimToRuneBoundaryGo(b: Bytes) returns (r: Bytes)
    ensures r == GoTrim(b)
  {
    r := b;
    while |r| > 0
      invariant GoTrim(r) == GoTrim(b)
      decreases |r|
    {
      var d := DecodeLastRune(r);
      if d.ok || d.size > 1 {
        return;
      }
      r := r[..|r| - 1];
    }
  }

  lemma GoTrimUnfold(b: Bytes)
    ensures GoTrim(b) == if b == [] || EndsInRune(b) then b else GoTrim(b[..|b| - 1])
  {
    hide EndsInRune;
  }

  // It stops at the longest prefix of that kind.
  lemma {:induction false} GoTrimIsLongest(b: Bytes, k: nat)
    requires k <= |b| && EndsInRune(b[..k])
    ensures k <= |GoTrim(b)|
    decreases |b|
  {
    hide EndsInRune;
    hide GoTrim;
    GoTrimUnfold(b);
    if !EndsInRune(b) {
      NotWhole(b, k);
      assert b[..|b| - 1][..k] == b[..k];
      GoTrimIsLongest(b[..|b| - 1], k);
    }
  }

  lemma NotWhole(b: Bytes, k: nat)
    requires k <= |b| && EndsInRune(b[..k]) && !EndsInRune(b)
    ensures k < |b|
  {
    assert b[..|b|] == b;
  }

  /******* TypeScript *******/

  function SequenceLength(lead: Byte): (n: nat)
    ensures 1 <= n <= 4
  {
    if lead < 0x80 then 1
    else if 0xC0 <= lead < 0xE0 then 2
    else if 0xE0 <= lead < 0xF0 then 3
    else if 0xF0 <= lead < 0xF8 then 4
    else 1
  }

  // Where the backward walk stops: at most three tails before the end.
  predicate WalkedTo(b: Bytes, lead: int) {
    && -1 <= lead < |b| && |b| - 4 <= lead
    && (forall i | lead < i < |b| :: IsTail(b[i]))
    && (lead == -1 || lead == |b| - 4 || !IsTail(b[lead]))
  }

  method TrimToRuneBoundaryTs(b: Bytes) returns (r: Bytes)
    ensures r <= b && |b| - |r| <= 3
    ensures exists lead :: WalkedTo(b, lead) && r == TsCut(b, lead)
  {
    var lead := |b| - 1;
    while lead >= 0 && lead > |b| - 4
      invariant -1 <= lead < |b| && (|b| - 4 <= lead || |b| == 0)
      invariant forall i | lead < i < |b| :: IsTail(b[i])
      decreases lead + 1
    {
      if !IsTail(b[lead]) {
        break;
      }
      lead := lead - 1;
    }
    assert WalkedTo(b, lead);
    if lead < 0 {
      return b;
    }
    if lead + SequenceLength(b[lead]) <= |b| {
      return b;
    }
    return b[..lead];
  }

  function TsCut(b: Bytes, lead: int): Bytes
    requires -1 <= lead < |b|
  {
    if lead < 0 || lead + SequenceLength(b[lead]) <= |b| then b else b[..lead]
  }

  lemma LeadGivesLength(s: Bytes)
    requires RuneLength(s) > 0
    ensures SequenceLength(s[0]) == RuneLength(s)
  {
  }

  /******* Both compute the longest valid prefix *******/

  // MAIN RESULT. For valid content cut at any byte count, Go's trimming keeps exactly
  // the longest valid prefix.
  lemma GoTrimIsFloor(s: Bytes, n: nat)
    requires Valid(s) && n <= |s|
    ensures GoTrim(s[..n]) == s[..Floor(s, n)]
  {
    hide EndsInRune;
    hide Valid;
    var b := s[..n];
    var r := GoTrim(b);
    var k, f := |r|, Floor(s, n);
    assert r == s[..k];
    PrefixIsValid(s, k);
    assert Valid([]) by { EmptyIsValid(); }
    FloorIsLongest(s, n, k);
    FloorIsValid(s, n);
    PrefixIsValid(s, f);
    if f > 0 {
      assert b[..f] == s[..f];
      GoTrimIsLongest(b, f);
    }
  }

  lemma EmptyIsValid()
    ensures Valid([])
  {
  }

  // MAIN RESULT. So does the TypeScript walk, for any position it may stop at.
  lemma TsCutIsFloor(s: Bytes, n: nat, lead: int)
    requires Valid(s) && n <= |s| && WalkedTo(s[..n], lead)
    ensures TsCut(s[..n], lead) == s[..Floor(s, n)]
  {
    hide Valid;
    var b := s[..n];
    if n == 0 {
    } else {
      assert forall i | 0 <= i < n :: b[i] == s[i];
      LastLead(s, n, lead);
      BoundaryThenFloor(s, n, lead);
    }
  }

  // In a valid string the walk ends on the lead of the last sequence.
  lemma LastLead(s: Bytes, n: nat, lead: int)
    requires Valid(s) && 0 < n <= |s| && WalkedTo(s[..n], lead)
    ensures lead >= 0 && !IsTail(s[lead])
  {
    assert forall i | 0 <= i < n :: s[..n][i] == s[i];
    if lead < 0 || IsTail(s[lead]) {
      var k := if lead < 0 then 0 else lead;
      TailsAreFew(s, k, n);
    }
  }

  // No valid string has four tails in a row, or starts with one.
  lemma {:induction false} TailsAreFew(s: Bytes, k: nat, n: nat)
    requires Valid(s) && k < n <= |s| && (k == 0 || n - k >= 4)
    ensures exists i :: k <= i < n && !IsTail(s[i])
    decreases |s|
  {
    hide RuneLength;
    hide Valid;
    var r := RuneLength(s);
    ValidUnfold(s);
    ValidUnfold(s[r..]);
    RuneIsLocal(s, s);
    if k == 0 {
      assert !IsTail(s[0]);
    } else if k < r {
      if r < |s| {
        RuneIsLocal(s[r..], s[r..]);
        assert s[r..][0] == s[r];
        assert k <= r < n;
      }
    } else {
      TailsAreFew(s[r..], k - r, n - r);
      var i :| k - r <= i < n - r && !IsTail(s[r..][i]);
      assert s[r..][i] == s[r + i];
    }
  }

  lemma BoundaryThenFloor(s: Bytes, n: nat, lead: nat)
    requires Valid(s) && lead < n <= |s| && !IsTail(s[lead])
    requires forall i | lead < i < n :: IsTail(s[i])
    ensures s[..Floor(s, n)] == if lead + SequenceLength(s[lead]) <= n then s[..n] else s[..lead]
  {
    hide RuneLength;
    hide SequenceLength;
    hide Valid;
    hide Floor;
    LeadIsBoundary(s, lead);
    var t := s[lead..];
    var r := RuneLength(t);
    AfterRune(s, lead);
    LeadGivesLength(t);
    FloorIsLongest(s, n, lead);
    FloorIsValid(s, n);
    if lead + r <= n {
      if lead + r < n {
        NextIsLead(s, lead + r);
      }
      FloorIsLongest(s, n, n);
    } else {
      ShortOfRune(s, lead, n);
    }
  }

  lemma AfterRune(s: Bytes, i: nat)
    requires Valid(s) && i < |s| && Valid(s[..i]) && Valid(s[i..])
    ensures var r := RuneLength(s[i..]); r > 0 && Valid(s[..i + r]) && Valid(s[i + r..])
  {
    hide RuneLength;
    hide Valid;
    var t := s[i..];
    var r := RuneLength(t);
    ValidUnfold(t);
    SingleRune(t);
    ValidConcat(s[..i], t[..r]);
    assert s[..i] + t[..r] == s[..i + r];
    assert t[r..] == s[i + r..];
  }

  lemma NextIsLead(s: Bytes, i: nat)
    requires i < |s| && Valid(s[i..])
    ensures !IsTail(s[i])
  {
    hide RuneLength;
    hide Valid;
    ValidUnfold(s[i..]);
    RuneIsLocal(s[i..], s[i..]);
  }

  // No valid prefix ends strictly inside a sequence.
  lemma ShortOfRune(s: Bytes, lead: nat, n: nat)
    requires Valid(s) && lead < n <= |s| && Valid(s[..lead]) && Valid(s[lead..])
    requires lead + RuneLength(s[lead..]) > n
    ensures Floor(s, n) == lead
  {
    hide RuneLength;
    hide Valid;
    hide Floor;
    var f := Floor(s, n);
    FloorIsLongest(s, n, lead);
    FloorIsValid(s, n);
    var t := s[lead..];
    RuneIsLocal(t, t);
    forall i | lead < i <= n
      ensures IsTail(s[i])
    {
      assert t[i - lead] == s[i];
    }
    if f < n || n < |s| {
      ValidRest(s, f);
      NextIsLead(s, f);
    }
  }

  /******* On content that is not valid UTF-8 *******/

  // Go drops at most three bytes exactly when a sequence ends that close to the cut.
  lemma GoDropsAtMostThree(b: Bytes)
    ensures |b| - |GoTrim(b)| <= 3 <==>
            |b| <= 3 || exists k :: |b| - 3 <= k <= |b| && EndsInRune(b[..k])
  {
    hide EndsInRune;
    var r := GoTrim(b);
    if |b| - |r| <= 3 && |b| > 3 {
      assert b[..|r|] == r;
    }
    if |b| > 3 {
      if k :| |b| - 3 <= k <= |b| && EndsInRune(b[..k]) {
        GoTrimIsLongest(b, k);
      }
    }
  }

  // Otherwise the loss is unbounded: it drops every byte of a string of tails.
  lemma {:induction false} GoDropsAllTails(b: Bytes)
    requires forall i | 0 <= i < |b| :: IsTail(b[i])
    ensures GoTrim(b) == []
    decreases |b|
  {
    hide EndsInRune;
    hide GoTrim;
    GoTrimUnfold(b);
    if b != [] {
      TailsEndNothing(b);
      GoDropsAllTails(b[..|b| - 1]);
    }
  }

  lemma TailsEndNothing(b: Bytes)
    requires b != [] && forall i | 0 <= i < |b| :: IsTail(b[i])
    ensures !EndsInRune(b)
  {
    var j := LastRuneLength(b);
    if j > 0 {
      RuneIsLocal(b[|b| - j..], b[|b| - j..]);
    }
  }

  // No whole sequence ends past the longest valid prefix: after the first invalid byte
  // of b there is nothing that reads as one.
  ghost predicate EndsClean(b: Bytes) {
    forall k | Floor(b, |b|) < k <= |b| :: !EndsInRune(b[..k])
  }

  // Go keeps at least the longest valid prefix.
  lemma KeepsValidPrefix(b: Bytes)
    ensures Floor(b, |b|) <= |GoTrim(b)| && b[..|GoTrim(b)|] == GoTrim(b)
  {
    hide EndsInRune;
    hide RuneLength;
    hide Valid;
    hide Floor;
    hide GoTrim;
    var f := Floor(b, |b|);
    FloorIsValid(b, |b|);
    if f > 0 {
      ValidEndsInRune(b[..f]);
      GoTrimIsLongest(b, f);
    }
  }

  // What it keeps is valid exactly then, and it is that prefix.
  lemma GoTrimValidIff(b: Bytes)
    ensures Valid(GoTrim(b)) <==> EndsClean(b)
    ensures Valid(GoTrim(b)) ==> GoTrim(b) == b[..Floor(b, |b|)]
  {
    hide EndsInRune;
    hide RuneLength;
    hide Valid;
    hide Floor;
    hide GoTrim;
    var r, f := GoTrim(b), Floor(b, |b|);
    KeepsValidPrefix(b);
    FloorIsValid(b, |b|);
    if Valid(r) {
      FloorIsLongest(b, |b|, |r|);
      forall k | f < k <= |b|
        ensures !EndsInRune(b[..k])
      {
        if EndsInRune(b[..k]) {
          GoTrimIsLongest(b, k);
        }
      }
    }
    assert r != [] ==> EndsInRune(b[..|r|]);
  }

  /******* The payload *******/

  const DEFAULT_MAX_INLINE: nat := 0x10_0000

  function Limit(maxBytes: int): nat {
    if maxBytes > 0 then maxBytes else DEFAULT_MAX_INLINE
  }

  // What a content type says: text, nothing at all, or something that is not text.
  datatype MediaKind = TextKind | UnknownKind | OtherKind

  predicate IsTextual(kind: MediaKind, content: Bytes) {
    kind == TextKind || (kind == UnknownKind && Valid(content) && 0 !in content)
  }

  // Text is the bytes of the string handed out.
  datatype Payload =
    | Text(text: Bytes, truncated: bool, total: nat)
    | Blob(blob: Bytes, truncated: bool, total: nat)

  // marker(shown, total, hash) is the sentence appended to truncated text.
  type Marker = (nat, nat, Str) -> Bytes

  // The text of valid content under a cap: all of it, or its longest valid prefix
  // that fits and the marker.
  function CappedText(content: Bytes, hash: Str, maxBytes: int, marker: Marker): Payload {
    if |content| <= Limit(maxBytes) then Text(content, false, |content|)
    else
      var shown := Floor(content, Limit(maxBytes));
      Text(content[..shown] + marker(shown, |content|, hash), true, |content|)
  }

  // The bytes of content that are handed out as text.
  function Shown(content: Bytes, maxBytes: int): (shown: Bytes)
    ensures shown <= content
  {
    if |content| <= Limit(maxBytes) then content else GoTrim(content[..Limit(maxBytes)])
  }

  function Encoded(content: Bytes, kind: MediaKind, hash: Str, maxBytes: int, marker: Marker): Payload {
    var truncated := |content| > Limit(maxBytes);
    if !IsTextual(kind, content) then
      Blob(if truncated then content[..Limit(maxBytes)] else content, truncated, |content|)
    else
      var shown := Shown(content, maxBytes);
      Text(shown + if truncated then marker(|shown|, |content|, hash) else [], truncated, |content|)
  }

  // The longest beginning within limit that is empty or ends in a whole sequence.
  ghost predicate LastWhole(content: Bytes, limit: nat, k: nat) {
    && k <= limit <= |content| && (k == 0 || EndsInRune(content[..k]))
    && forall l | k < l <= limit :: !EndsInRune(content[..l])
  }

  lemma GoTrimIsLastWhole(content: Bytes, limit: nat)
    requires limit <= |content|
    ensures var kept := GoTrim(content[..limit]); kept == content[..|kept|] && LastWhole(content, limit, |kept|)
  {
    hide EndsInRune;
    var b := content[..limit];
    var kept := GoTrim(b);
    assert kept == b[..|kept|] == content[..|kept|];
    hide GoTrim;
    forall l | |kept| < l <= limit
      ensures !EndsInRune(content[..l])
    {
      assert b[..l] == content[..l];
      if EndsInRune(b[..l]) {
        GoTrimIsLongest(b, l);
      }
    }
  }

  method Encode(content: Bytes, kind: MediaKind, hash: Str, maxBytes: int, marker: Marker) returns (out: Payload)
    ensures out == Encoded(content, kind, hash, maxBytes, marker)
    ensures out.Text? && Valid(content) ==> out == CappedText(content, hash, maxBytes, marker)
    ensures out.Text? <==> || kind == TextKind
                           || (kind == UnknownKind && Valid(content)
                               && forall i | 0 <= i < |content| :: content[i] != 0)
    ensures var limit := if maxBytes > 0 then maxBytes else 1024 * 1024;
            && (out.truncated <==> |content| > limit) && out.total == |content|
            && (out.Blob? ==> out.blob == if |content| <= limit then content else content[..limit])
            && (out.Text? && |content| <= limit ==> out.text == content)
            && (out.Text? && |content| > limit ==>
                  exists k: nat ::
                    LastWhole(content, limit, k) && out.text == content[..k] + marker(k, |content|, hash))
  {
    hide LastWhole;
    var limit := maxBytes;
    if limit <= 0 {
      limit := DEFAULT_MAX_INLINE;
    }
    var truncated := |content| > limit;
    var capped := content;
    if truncated {
      capped := content[..limit];
    }
    if !IsTextual(kind, content) {
      return Blob(capped, truncated, |content|);
    }
    if truncated {
      GoTrimIsLastWhole(content, limit);
      capped := TrimToRuneBoundaryGo(capped);
      if Valid(content) {
        GoTrimIsFloor(content, limit);
      }
      return Text(capped + marker(|capped|, |content|, hash), true, |content|);
    }
    assert capped + [] == capped;
    return Text(capped, false, |content|);
  }

  // The longest valid beginning within limit.
  ghost predicate LastValid(content: Bytes, limit: nat, k: nat) {
    k <= limit <= |content| && Valid(content[..k]) && forall l | k < l <= limit :: !Valid(content[..l])
  }

  lemma FloorIsLastValid(content: Bytes, limit: nat)
    requires limit <= |content|
    ensures LastValid(content, limit, Floor(content, limit))
  {
    hide Valid;
    hide Floor;
    FloorIsValid(content, limit);
    forall l | Floor(content, limit) < l <= limit
      ensures !Valid(content[..l])
    {
      if Valid(content[..l]) {
        FloorIsLongest(content, limit, l);
      }
    }
  }

  // content is the UTF-8 form of a string, so it is valid.
  method EncodeContent(content: Bytes, hash: Str, maxBytes: int, marker: Marker) returns (out: Payload)
    requires Valid(content)
    ensures out == CappedText(content, hash, maxBytes, marker)
    ensures var limit := if maxBytes > 0 then maxBytes else 1024 * 1024;
            && out.Text? && (out.truncated <==> |content| > limit) && out.total == |content|
            && (|content| <= limit ==> out.text == content)
            && (|content| > limit ==>
                  exists k: nat ::
                    LastValid(content, limit, k) && out.text == content[..k] + marker(k, |content|, hash))
  {
    var limit := if maxBytes > 0 then maxBytes else 1024 * 1024;
    if |content| <= limit {
      return Text(content, false, |content|);
    }
    var kept := TrimToRuneBoundaryTs(content[..limit]);
    ghost var lead :| WalkedTo(content[..limit], lead) && kept == TsCut(content[..limit], lead);
    TsCutIsFloor(content, limit, lead);
    FloorIsLastValid(content, limit);
    assert kept == content[..|kept|];
    return Text(kept + marker(|kept|, |content|, hash), true, |content|);
  }

  // MAIN RESULT. What either side shows of valid text is valid, is a prefix, loses at
  // most 3 bytes below the cap, and is the longest such prefix.
  lemma ShownText(content: Bytes, hash: Str, maxBytes: int, marker: Marker)
    requires Valid(content) && |content| > Limit(maxBytes)
    ensures var shown := Floor(content, Limit(maxBytes));
            && CappedText(content, hash, maxBytes, marker).text == content[..shown] + marker(shown, |content|, hash)
            && Valid(content[..shown]) && Limit(maxBytes) - 3 <= shown <= Limit(maxBytes)
            && forall k | 0 <= k <= Limit(maxBytes) && Valid(content[..k]) :: k <= shown
  {
    var n := Limit(maxBytes);
    FloorIsValid(content, n);
    FloorIsClose(content, n);
    forall k | 0 <= k <= n && Valid(content[..k])
      ensures k <= Floor(content, n)
    {
      FloorIsLongest(content, n, k);
    }
  }

  // The condition on content, whatever its bytes, under which text shown of it is valid:
  // all of it is, when it fits; otherwise nothing past its longest valid prefix within
  // the cap reads as a whole sequence there.
  ghost predicate ShowsValid(content: Bytes, maxBytes: int) {
    if |content| <= Limit(maxBytes) then Valid(content) else EndsClean(content[..Limit(maxBytes)])
  }

  // Valid text followed by the marker is valid only if it was valid itself.
  lemma ValidBefore(a: Bytes, b: Bytes)
    requires Valid(b)
    ensures Valid(a + b) <==> Valid(a)
  {
    if Valid(a) {
      ValidConcat(a, b);
    }
    if Valid(a + b) {
      if b == [] {
        assert a + b == a;
      } else {
        RuneIsLocal(b, b);
        assert (a + b)[|a|] == b[0];
        LeadIsBoundary(a + b, |a|);
        assert (a + b)[..|a|] == a;
      }
    }
  }

  // MAIN RESULT. The text handed out for content declared as text, valid or not, whole or
  // cut, is valid UTF-8 exactly under that condition on the content.
  lemma EncodedTextValidIff(content: Bytes, hash: Str, maxBytes: int, marker: Marker)
    requires Valid(marker(|Shown(content, maxBytes)|, |content|, hash))
    ensures Encoded(content, TextKind, hash, maxBytes, marker).Text?
    ensures Valid(Encoded(content, TextKind, hash, maxBytes, marker).text) <==> ShowsValid(content, maxBytes)
  {
    hide Valid;
    hide EndsClean;
    hide GoTrim;
    var shown := Shown(content, maxBytes);
    if |content| <= Limit(maxBytes) {
      assert shown + [] == content;
    } else {
      GoTrimValidIff(content[..Limit(maxBytes)]);
      ValidBefore(shown, marker(|shown|, |content|, hash));
    }
  }

  // Valid content meets the condition under every cap.
  lemma ValidContentShowsValid(content: Bytes, maxBytes: int)
    requires Valid(content)
    ensures ShowsValid(content, maxBytes)
  {
    var n := Limit(maxBytes);
    if |content| > n {
      GoTrimIsFloor(content, n);
      FloorIsValid(content, n);
      GoTrimValidIff(content[..n]);
    }
  }

  // Content declared as text is never checked, so invalid text can be handed out.
  lemma InvalidTextIsShown(hash: Str, marker: Marker)
    ensures Encoded([0x80, 0x61, 0x61], TextKind, hash, 2, marker) == Text([0x80, 0x61] + marker(2, 3, hash), true, 3)
    ensures !Valid([0x80, 0x61]) && !ShowsValid([0x80, 0x61, 0x61], 2)
    ensures Valid(marker(2, 3, hash)) ==>
              !Valid(Encoded([0x80, 0x61, 0x61], TextKind, hash, 2, marker).text)
  {
    var content: Bytes, b: Bytes := [0x80, 0x61, 0x61], [0x80, 0x61];
    assert content[..2] == b;
    assert b[|b| - 1..] == [0x61];
    assert EndsWithRune(b, 1);
    assert GoTrim(b) == b;
    GoTrimValidIff(b);
    if Valid(marker(2, 3, hash)) {
      ValidBefore(b, marker(2, 3, hash));
    }
  }
}
