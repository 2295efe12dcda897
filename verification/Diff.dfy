/**
  internal/diff: two manifests compared uri by uri.
 */
module Diff {
  import opened ByteStrings
  import opened Database
  import opened Invariants
  import opened Interleaving

  datatype Status = Changed | Added | Removed | Unchanged

  // One manifest's view of a uri: what its entry and the entry's snapshot recorded.
  datatype Side = Side(snapshotId: Str, sourceRevision: Str, observedAt: int, ref: Str)

  datatype EntryDiff = EntryDiff(
    uri: Str, status: Status, sideA: Option<Side>, sideB: Option<Side>, unifiedDiff: Option<Str>)

  // render(old, new, uri) is the text of a unified diff.
  type Render = (Bytes, Bytes, Str) -> Str

  /******* Entries by uri *******/

  function EntriesByUri(entries: seq<Entry>): map<Str, Entry>
    decreases |entries|
  {
    if entries == [] then map[]
    else
      var last := entries[|entries| - 1];
      EntriesByUri(entries[..|entries| - 1])[last.uri := last]
  }

  method IndexByUri(m: Manifest) returns (out: map<Str, Entry>)
    ensures out == EntriesByUri(m.entries)
  {
    out := map[];
    for i := 0 to |m.entries|
      invariant out == EntriesByUri(m.entries[..i])
    {
      assert m.entries[..i + 1][..i] == m.entries[..i];
      out := out[m.entries[i].uri := m.entries[i]];
    }
    assert m.entries[..|m.entries|] == m.entries;
  }

  // e is the last entry for its uri.
  ghost predicate IsLastFor(entries: seq<Entry>, i: nat) {
    i < |entries| && forall j | i < j < |entries| :: entries[j].uri != entries[i].uri
  }

  // The index holds, for each uri of the list, its last entry.
  lemma {:induction false} LastEntry(entries: seq<Entry>, u: Str) returns (i: nat)
    requires u in EntriesByUri(entries)
    ensures IsLastFor(entries, i) && entries[i].uri == u && EntriesByUri(entries)[u] == entries[i]
    decreases |entries|
  {
    var n := |entries| - 1;
    if u == entries[n].uri {
      i := n;
    } else {
      i := LastEntry(entries[..n], u);
    }
  }

  lemma {:induction false} EveryUriIndexed(entries: seq<Entry>, i: nat)
    requires i < |entries|
    ensures entries[i].uri in EntriesByUri(entries)
    decreases |entries|
  {
    var n := |entries| - 1;
    if i < n {
      EveryUriIndexed(entries[..n], i);
    }
  }

  /******* Byte-wise string order *******/

  predicate Less(a: Str, b: Str)
    decreases |a|
  {
    b != [] && (a == [] || a[0] < b[0] || (a[0] == b[0] && Less(a[1..], b[1..])))
  }

  lemma {:induction false} LessIsStrict(a: Str, b: Str)
    ensures Less(a, b) ==> !Less(b, a) && a != b
    ensures a != b ==> Less(a, b) || Less(b, a)
    decreases |a|
  {
    if a != [] && b != [] && a[0] == b[0] {
      LessIsStrict(a[1..], b[1..]);
      assert a == [a[0]] + a[1..] && b == [b[0]] + b[1..];
    }
  }

  lemma {:induction false} LessTransitive(a: Str, b: Str, c: Str)
    requires Less(a, b) && Less(b, c)
    ensures Less(a, c)
    decreases |a|
  {
    if a != [] && a[0] == b[0] && b[0] == c[0] {
      LessTransitive(a[1..], b[1..], c[1..]);
    }
  }

  // Byte-wise order: a proper beginning comes first, and otherwise the first difference decides.
  ghost predicate Precedes(a: Str, b: Str) {
    (|a| < |b| && b[..|a|] == a) || exists k: nat :: DifferAt(a, b, k) && a[k] < b[k]
  }

  ghost predicate DifferAt(a: Str, b: Str, k: nat) {
    k < |a| && k < |b| && a[..k] == b[..k] && a[k] != b[k]
  }

  lemma {:induction false} LessIff(a: Str, b: Str)
    ensures Less(a, b) <==> Precedes(a, b)
    decreases |a|
  {
    if a == [] {
    } else if b == [] {
    } else if a[0] != b[0] {
      assert DifferAt(a, b, 0);
      forall k: nat | DifferAt(a, b, k)
        ensures k == 0
      {
        DifferFirst(a, b, k);
      }
    } else {
      LessIff(a[1..], b[1..]);
      assert a == [a[0]] + a[1..] && b == [b[0]] + b[1..];
      if Less(a, b) {
        TailPrecedes(a, b);
      }
      if Precedes(a, b) {
        PrecedesTail(a, b);
      }
    }
  }

  lemma DifferFirst(a: Str, b: Str, k: nat)
    requires DifferAt(a, b, k)
    ensures k > 0 ==> a[0] == b[0]
  {
    if k > 0 {
      assert a[..k][0] == a[0] && b[..k][0] == b[0];
    }
  }

  lemma TailPrecedes(a: Str, b: Str)
    requires a != [] && b != [] && a[0] == b[0] && Precedes(a[1..], b[1..])
    ensures Precedes(a, b)
  {
    assert a == [a[0]] + a[1..] && b == [b[0]] + b[1..];
    if |a| < |b| && b[1..][..|a| - 1] == a[1..] {
      assert b[..|a|] == [b[0]] + b[1..][..|a| - 1];
    } else {
      var k: nat :| DifferAt(a[1..], b[1..], k) && a[1..][k] < b[1..][k];
      assert a[..k + 1] == [a[0]] + a[1..][..k] && b[..k + 1] == [b[0]] + b[1..][..k];
      assert DifferAt(a, b, k + 1);
    }
  }

  lemma PrecedesTail(a: Str, b: Str)
    requires a != [] && b != [] && a[0] == b[0] && Precedes(a, b)
    ensures Precedes(a[1..], b[1..])
  {
    if |a| < |b| && b[..|a|] == a {
      assert b[1..][..|a| - 1] == b[..|a|][1..];
    } else {
      var k: nat :| DifferAt(a, b, k) && a[k] < b[k];
      assert a[1..][..k - 1] == a[..k][1..] && b[1..][..k - 1] == b[..k][1..];
      assert DifferAt(a[1..], b[1..], k - 1);
    }
  }

  predicate Increasing(s: seq<Str>) {
    forall i, j | 0 <= i < j < |s| :: Less(s[i], s[j])
  }

  function Elements(s: seq<Str>): set<Str> { set u | u in s }

  // sort.Strings on strings without repetition.
  function SortStrings(s: seq<Str>): seq<Str>
    decreases |s|
  {
    if s == [] then [] else Place(s[|s| - 1], SortStrings(s[..|s| - 1]))
  }

  function Place(u: Str, s: seq<Str>): seq<Str>
    decreases |s|
  {
    if s == [] || Less(u, s[0]) then [u] + s else [s[0]] + Place(u, s[1..])
  }

  lemma {:induction false} PlaceIncreasing(u: Str, s: seq<Str>)
    requires Increasing(s) && u !in s
    ensures Increasing(Place(u, s)) && Elements(Place(u, s)) == Elements(s) + {u} && |Place(u, s)| == |s| + 1
    decreases |s|
  {
    var r := Place(u, s);
    if s == [] {
    } else if Less(u, s[0]) {
      forall j | 0 < j < |s|
        ensures Less(u, s[j])
      {
        LessTransitive(u, s[0], s[j]);
      }
    } else {
      LessIsStrict(u, s[0]);
      PlaceIncreasing(u, s[1..]);
      var t := Place(u, s[1..]);
      forall j | 0 <= j < |t|
        ensures Less(s[0], t[j])
      {
        assert t[j] in Elements(t);
      }
      assert Elements(r) == {s[0]} + Elements(t) && Elements(s) == {s[0]} + Elements(s[1..]);
    }
  }

  lemma {:induction false} SortIncreasing(s: seq<Str>)
    requires Distinct(s)
    ensures Increasing(SortStrings(s)) && Elements(SortStrings(s)) == Elements(s) && |SortStrings(s)| == |s|
    decreases |s|
  {
    if s != [] {
      var n := |s| - 1;
      SortIncreasing(s[..n]);
      assert s[n] !in Elements(s[..n]);
      PlaceIncreasing(s[n], SortStrings(s[..n]));
      assert s == s[..n] + [s[n]];
    }
  }

  // There is one increasing list of a set of strings.
  lemma {:induction false} IncreasingUnique(s: seq<Str>, t: seq<Str>)
    requires Increasing(s) && Increasing(t) && Elements(s) == Elements(t)
    ensures s == t
    decreases |s|
  {
    if s == [] {
      if t != [] {
        HasElements(t);
      }
    } else {
      assert s[0] in Elements(t);
      assert t != [];
      assert t[0] in Elements(s);
      FirstIsLeast(s, t[0]);
      FirstIsLeast(t, s[0]);
      LessIsStrict(s[0], t[0]);
      RestElements(s);
      RestElements(t);
      IncreasingUnique(s[1..], t[1..]);
      assert s == [s[0]] + s[1..] && t == [t[0]] + t[1..];
    }
  }

  lemma HasElements(t: seq<Str>)
    requires t != []
    ensures Elements(t) != {}
  {
    assert t[0] in Elements(t);
  }

  lemma FirstIsLeast(s: seq<Str>, u: Str)
    requires Increasing(s) && s != [] && u in s
    ensures u == s[0] || Less(s[0], u)
  {
  }

  lemma RestElements(s: seq<Str>)
    requires Increasing(s) && s != []
    ensures Elements(s[1..]) == Elements(s) - {s[0]} && Increasing(s[1..])
  {
    forall u | u in s[1..]
      ensures u != s[0]
    {
      var i :| 0 <= i < |s| - 1 && s[1..][i] == u;
      LessIsStrict(s[0], s[i + 1]);
    }
    assert s == [s[0]] + s[1..];
  }

  method UnionUris(a: map<Str, Entry>, b: map<Str, Entry>) returns (uris: seq<Str>)
    ensures Increasing(uris) && Elements(uris) == a.Keys + b.Keys
  {
    uris := ListOf(a.Keys + b.Keys);
    SortIncreasing(uris);
    uris := SortStrings(uris);
  }

  // The keys of a map in whatever order they come.
  method ListOf(keys: set<Str>) returns (uris: seq<Str>)
    ensures Distinct(uris) && Elements(uris) == keys
  {
    hide Distinct;
    hide Elements;
    var rest := keys;
    uris := [];
    NothingListed();
    while rest != {}
      invariant Distinct(uris) && Elements(uris) == keys - rest && rest <= keys
      decreases |rest|
    {
      var u :| u in rest;
      OneMore(uris, u);
      uris := uris + [u];
      rest := rest - {u};
    }
  }

  predicate Distinct(s: seq<Str>) {
    forall i, j | 0 <= i < j < |s| :: s[i] != s[j]
  }

  lemma NothingListed()
    ensures Distinct([]) && Elements([]) == {}
  {
  }

  lemma OneMore(s: seq<Str>, u: Str)
    requires Distinct(s) && u !in Elements(s)
    ensures Distinct(s + [u]) && Elements(s + [u]) == Elements(s) + {u}
  {
  }

  /******* One uri *******/

  function ProvenanceOf(db: Db, e: Entry): Result<Side> {
    match GetSnapshot(db, e.snapshotId)
    case Err(x) => Err(x)
    case Ok(snap) => Ok(Side(e.snapshotId, snap.details.sourceRevision, snap.observedAt, e.ref))
  }

  function SideOf(db: Db, entries: map<Str, Entry>, uri: Str): Result<Option<Side>> {
    if uri !in entries then Ok(None)
    else match ProvenanceOf(db, entries[uri])
      case Err(x) => Err(x)
      case Ok(side) => Ok(Some(side))
  }

  function DiffText(db: Db, render: Render, a: Entry, b: Entry, uri: Str): Result<Str> {
    match GetBlob(db, a.contentHash)
    case Err(x) => Err(x)
    case Ok(oldContent) =>
      match GetBlob(db, b.contentHash)
      case Err(x) => Err(x)
      case Ok(newContent) => Ok(render(oldContent, newContent, uri))
  }

  function StatusOf(a: map<Str, Entry>, b: map<Str, Entry>, uri: Str): Status
    requires uri in a || uri in b
  {
    if uri !in b then Removed
    else if uri !in a then Added
    else if a[uri].contentHash == b[uri].contentHash then Unchanged
    else Changed
  }

  function DiffOne(db: Db, render: Render, a: map<Str, Entry>, b: map<Str, Entry>, uri: Str): Result<EntryDiff>
    requires uri in a || uri in b
  {
    match SideOf(db, a, uri)
    case Err(x) => Err(x)
    case Ok(sideA) =>
      match SideOf(db, b, uri)
      case Err(x) => Err(x)
      case Ok(sideB) =>
        var status := StatusOf(a, b, uri);
        if status != Changed then Ok(EntryDiff(uri, status, sideA, sideB, None))
        else match DiffText(db, render, a[uri], b[uri], uri)
          case Err(x) => Err(x)
          case Ok(text) => Ok(EntryDiff(uri, Changed, sideA, sideB, Some(text)))
  }

  function DiffAll(db: Db, render: Render, a: map<Str, Entry>, b: map<Str, Entry>, uris: seq<Str>)
    : (r: Result<seq<EntryDiff>>)
    requires forall u | u in uris :: u in a || u in b
    ensures r.Ok? ==> |r.value| == |uris|
    decreases |uris|
  {
    if uris == [] then Ok([])
    else
      var n := |uris| - 1;
      match DiffAll(db, render, a, b, uris[..n])
      case Err(x) => Err(x)
      case Ok(front) =>
        match DiffOne(db, render, a, b, uris[n])
        case Err(x) => Err(x)
        case Ok(last) => Ok(front + [last])
  }

  lemma {:induction false} DiffAllError(
    db: Db, render: Render, a: map<Str, Entry>, b: map<Str, Entry>, uris: seq<Str>, n: nat)
    requires forall u | u in uris :: u in a || u in b
    requires n <= |uris| && DiffAll(db, render, a, b, uris[..n]).Err?
    ensures DiffAll(db, render, a, b, uris) == DiffAll(db, render, a, b, uris[..n])
    decreases |uris| - n
  {
    if n < |uris| {
      assert uris[..n + 1][..n] == uris[..n];
      DiffAllError(db, render, a, b, uris, n + 1);
    } else {
      assert uris[..n] == uris;
    }
  }

  /******* The whole comparison *******/

  // What Compute returns: the one increasing list of the uris of either side, each compared.
  ghost predicate IsDiff(db: Db, render: Render, manA: Manifest, manB: Manifest, r: Result<seq<EntryDiff>>) {
    var a, b := EntriesByUri(manA.entries), EntriesByUri(manB.entries);
    exists uris :: Increasing(uris) && Elements(uris) == a.Keys + b.Keys && Compares(db, render, a, b, uris, r)
  }

  ghost predicate Compares(
    db: Db, render: Render, a: map<Str, Entry>, b: map<Str, Entry>, uris: seq<Str>, r: Result<seq<EntryDiff>>)
  {
    (forall u | u in uris :: u in a || u in b) && r == DiffAll(db, render, a, b, uris)
  }

  method Compute(db: Db, render: Render, manA: Manifest, manB: Manifest) returns (r: Result<seq<EntryDiff>>)
    ensures IsDiff(db, render, manA, manB, r)
  {
    var a := IndexByUri(manA);
    var b := IndexByUri(manB);
    var uris := UnionUris(a, b);
    assert forall u | u in uris :: u in Elements(uris);
    r := CompareUris(db, render, a, b, uris);
    assert Compares(db, render, a, b, uris, r);
  }

  method CompareUris(db: Db, render: Render, a: map<Str, Entry>, b: map<Str, Entry>, uris: seq<Str>)
    returns (r: Result<seq<EntryDiff>>)
    requires forall u | u in uris :: u in a || u in b
    ensures r == DiffAll(db, render, a, b, uris)
  {
    var out: seq<EntryDiff> := [];
    for i := 0 to |uris|
      invariant DiffAll(db, render, a, b, uris[..i]) == Ok(out)
    {
      var uri := uris[i];
      assert uris[..i + 1][..i] == uris[..i];
      var entry := CompareOne(db, render, a, b, uri);
      if entry.Err? {
        DiffAllError(db, render, a, b, uris, i + 1);
        return Err(entry.error);
      }
      out := out + [entry.value];
    }
    assert uris[..|uris|] == uris;
    return Ok(out);
  }

  method CompareOne(db: Db, render: Render, a: map<Str, Entry>, b: map<Str, Entry>, uri: Str)
    returns (r: Result<EntryDiff>)
    requires uri in a || uri in b
    ensures r == DiffOne(db, render, a, b, uri)
  {
    var entry := EntryDiff(uri, Unchanged, None, None, None);
    if uri in a {
      var side := ProvenanceOf(db, a[uri]);
      if side.Err? {
        return Err(side.error);
      }
      entry := entry.(sideA := Some(side.value));
    }
    if uri in b {
      var side := ProvenanceOf(db, b[uri]);
      if side.Err? {
        return Err(side.error);
      }
      entry := entry.(sideB := Some(side.value));
    }
    if uri in a && uri !in b {
      entry := entry.(status := Removed);
    } else if uri !in a && uri in b {
      entry := entry.(status := Added);
    } else if a[uri].contentHash == b[uri].contentHash {
      entry := entry.(status := Unchanged);
    } else {
      entry := entry.(status := Changed);
      var oldContent := GetBlob(db, a[uri].contentHash);
      if oldContent.Err? {
        return Err(oldContent.error);
      }
      var newContent := GetBlob(db, b[uri].contentHash);
      if newContent.Err? {
        return Err(newContent.error);
      }
      entry := entry.(unifiedDiff := Some(render(oldContent.value, newContent.value, uri)));
    }
    return Ok(entry);
  }

  /******* Counts *******/

  function CountOf(entries: seq<EntryDiff>, status: Status): nat
    decreases |entries|
  {
    if entries == [] then 0
    else CountOf(entries[..|entries| - 1], status) + if entries[|entries| - 1].status == status then 1 else 0
  }

  method Counts(entries: seq<EntryDiff>) returns (changed: nat, added: nat, removed: nat, same: nat)
    ensures changed == CountOf(entries, Changed) && added == CountOf(entries, Added)
    ensures removed == CountOf(entries, Removed) && same == CountOf(entries, Unchanged)
    ensures changed + added + removed + same == |entries|
  {
    changed, added, removed, same := 0, 0, 0, 0;
    for i := 0 to |entries|
      invariant changed == CountOf(entries[..i], Changed) && added == CountOf(entries[..i], Added)
      invariant removed == CountOf(entries[..i], Removed) && same == CountOf(entries[..i], Unchanged)
      invariant changed + added + removed + same == i
    {
      assert entries[..i + 1][..i] == entries[..i];
      match entries[i].status
      case Changed => changed := changed + 1;
      case Added => added := added + 1;
      case Removed => removed := removed + 1;
      case Unchanged => same := same + 1;
    }
    assert entries[..|entries|] == entries;
  }

  lemma {:induction false} CountIs(entries: seq<EntryDiff>, status: Status)
    ensures CountOf(entries, status) == |set i: nat | i < |entries| && entries[i].status == status|
    decreases |entries|
  {
    if entries != [] {
      var n: nat := |entries| - 1;
      CountIs(entries[..n], status);
      assert (set i: nat | i < |entries| && entries[i].status == status) ==
             (set i: nat | i < n && entries[..n][i].status == status) + if entries[n].status == status then {n} else {};
    }
  }

  /******* What a diff says *******/

  ghost predicate MentionsUri(entries: seq<Entry>, uri: Str) {
    exists i :: 0 <= i < |entries| && entries[i].uri == uri
  }

  // e is the last entry for uri, or there is none.
  ghost predicate LastIs(entries: seq<Entry>, uri: Str, e: Option<Entry>) {
    match e
    case None => !MentionsUri(entries, uri)
    case Some(last) => exists i: nat :: IsLastFor(entries, i) && entries[i] == last && last.uri == uri
  }

  function At(entries: seq<Entry>, uri: Str): Option<Entry> {
    var byUri := EntriesByUri(entries);
    if uri in byUri then Some(byUri[uri]) else None
  }

  lemma AtIsLast(entries: seq<Entry>, uri: Str)
    ensures LastIs(entries, uri, At(entries, uri))
    ensures uri in EntriesByUri(entries) <==> MentionsUri(entries, uri)
  {
    if uri in EntriesByUri(entries) {
      var i := LastEntry(entries, uri);
      assert entries[i].uri == uri;
    } else {
      forall i | 0 <= i < |entries|
        ensures entries[i].uri != uri
      {
        EveryUriIndexed(entries, i);
      }
    }
  }

  // The status a uri deserves, from its last entry on each side.
  predicate Agrees(status: Status, a: Option<Entry>, b: Option<Entry>) {
    match status
    case Removed => a.Some? && b.None?
    case Added => a.None? && b.Some?
    case Unchanged => a.Some? && b.Some? && a.value.contentHash == b.value.contentHash
    case Changed => a.Some? && b.Some? && a.value.contentHash != b.value.contentHash
  }

  predicate SideAgrees(db: Db, side: Option<Side>, e: Option<Entry>) {
    if e.None? then side.None?
    else
      && side.Some? && side.value.snapshotId == e.value.snapshotId && side.value.ref == e.value.ref
      && e.value.snapshotId in db.snapshots
      && side.value.observedAt == db.snapshots[e.value.snapshotId].observedAt
      && side.value.sourceRevision == db.snapshots[e.value.snapshotId].details.sourceRevision
  }

  // Only a changed uri carries a text, from the first manifest's content to the second's.
  predicate TextAgrees(db: Db, render: Render, row: EntryDiff, a: Option<Entry>, b: Option<Entry>) {
    if row.status != Changed then row.unifiedDiff.None?
    else
      && a.Some? && b.Some?
      && GetBlob(db, a.value.contentHash).Ok? && GetBlob(db, b.value.contentHash).Ok?
      && row.unifiedDiff ==
         Some(render(GetBlob(db, a.value.contentHash).value, GetBlob(db, b.value.contentHash).value, row.uri))
  }

  predicate RowAgrees(db: Db, render: Render, row: EntryDiff, a: Option<Entry>, b: Option<Entry>) {
    && Agrees(row.status, a, b) && SideAgrees(db, row.sideA, a) && SideAgrees(db, row.sideB, b)
    && TextAgrees(db, render, row, a, b)
  }

  lemma DiffOneAgrees(db: Db, render: Render, manA: Manifest, manB: Manifest, uri: Str)
    requires var a, b := EntriesByUri(manA.entries), EntriesByUri(manB.entries);
             (uri in a || uri in b) && DiffOne(db, render, a, b, uri).Ok?
    ensures var r := DiffOne(db, render, EntriesByUri(manA.entries), EntriesByUri(manB.entries), uri).value;
            r.uri == uri && RowAgrees(db, render, r, At(manA.entries, uri), At(manB.entries, uri))
  {
  }

  lemma {:induction false} DiffAllAt(
    db: Db, render: Render, a: map<Str, Entry>, b: map<Str, Entry>, uris: seq<Str>, i: nat)
    requires forall u | u in uris :: u in a || u in b
    requires i < |uris| && DiffAll(db, render, a, b, uris).Ok?
    ensures DiffOne(db, render, a, b, uris[i]) == Ok(DiffAll(db, render, a, b, uris).value[i])
    decreases |uris|
  {
    hide DiffOne;
    var n := |uris| - 1;
    if i < n {
      DiffAllAt(db, render, a, b, uris[..n], i);
    }
  }

  // MAIN RESULT. A diff lists the uris of either manifest, each once, in increasing
  // order; every row agrees with the last entry for its uri on each side.
  lemma DiffIsPartition(db: Db, render: Render, manA: Manifest, manB: Manifest, r: Result<seq<EntryDiff>>)
    requires IsDiff(db, render, manA, manB, r) && r.Ok?
    ensures forall i, j | 0 <= i < j < |r.value| :: Less(r.value[i].uri, r.value[j].uri)
    ensures forall u :: (exists i :: 0 <= i < |r.value| && r.value[i].uri == u) <==>
                        MentionsUri(manA.entries, u) || MentionsUri(manB.entries, u)
    ensures forall i | 0 <= i < |r.value| ::
              && RowAgrees(db, render, r.value[i], At(manA.entries, r.value[i].uri), At(manB.entries, r.value[i].uri))
              && LastIs(manA.entries, r.value[i].uri, At(manA.entries, r.value[i].uri))
              && LastIs(manB.entries, r.value[i].uri, At(manB.entries, r.value[i].uri))
  {
    hide DiffOne;
    hide RowAgrees;
    hide LastIs;
    hide MentionsUri;
    hide EntriesByUri;
    hide At;
    var a, b := EntriesByUri(manA.entries), EntriesByUri(manB.entries);
    var uris :| Increasing(uris) && Elements(uris) == a.Keys + b.Keys && Compares(db, render, a, b, uris, r);
    forall i | 0 <= i < |uris|
      ensures r.value[i].uri == uris[i]
      ensures RowAgrees(db, render, r.value[i], At(manA.entries, uris[i]), At(manB.entries, uris[i]))
    {
      DiffAllAt(db, render, a, b, uris, i);
      DiffOneAgrees(db, render, manA, manB, uris[i]);
    }
    forall u
      ensures u in Elements(uris) <==> MentionsUri(manA.entries, u) || MentionsUri(manB.entries, u)
      ensures LastIs(manA.entries, u, At(manA.entries, u)) && LastIs(manB.entries, u, At(manB.entries, u))
    {
      AtIsLast(manA.entries, u);
      AtIsLast(manB.entries, u);
    }
    forall u
      ensures (exists i :: 0 <= i < |r.value| && r.value[i].uri == u) <==> u in Elements(uris)
    {
      if u in Elements(uris) {
        var i :| 0 <= i < |uris| && uris[i] == u;
        assert r.value[i].uri == u;
      }
    }
  }

  // Which read fails for a uri, and how: the snapshots first, then the contents, each time
  // the first manifest's before the second's.
  ghost predicate FailsFor(db: Db, a: Option<Entry>, b: Option<Entry>, x: Error) {
    if a.Some? && a.value.snapshotId !in db.snapshots then x == SnapshotNotFound
    else if b.Some? && b.value.snapshotId !in db.snapshots then x == SnapshotNotFound
    else
      && a.Some? && b.Some? && a.value.contentHash != b.value.contentHash
      && (LacksBytes(db, a.value.contentHash, x)
          || (HoldsBytes(db, a.value.contentHash) && LacksBytes(db, b.value.contentHash, x)))
  }

  ghost predicate HoldsBytes(db: Db, hash: Str) { IsContentHash(hash) && hash[7..] in db.blobs }

  ghost predicate LacksBytes(db: Db, hash: Str, x: Error) {
    if !IsContentHash(hash) then x == InvalidHash else hash[7..] !in db.blobs && x == BlobNotFound
  }

  lemma DiffOneFails(db: Db, render: Render, manA: Manifest, manB: Manifest, uri: Str)
    requires var a, b := EntriesByUri(manA.entries), EntriesByUri(manB.entries); uri in a || uri in b
    ensures var r := DiffOne(db, render, EntriesByUri(manA.entries), EntriesByUri(manB.entries), uri);
            forall x :: r == Err(x) <==> FailsFor(db, At(manA.entries, uri), At(manB.entries, uri), x)
  {
    hide EntriesByUri;
    hide IsContentHash;
  }

  lemma {:induction false} DiffAllFails(
    db: Db, render: Render, a: map<Str, Entry>, b: map<Str, Entry>, uris: seq<Str>) returns (i: nat)
    requires forall u | u in uris :: u in a || u in b
    requires DiffAll(db, render, a, b, uris).Err?
    ensures i < |uris| && DiffOne(db, render, a, b, uris[i]) == Err(DiffAll(db, render, a, b, uris).error)
    ensures forall k | 0 <= k < i :: DiffOne(db, render, a, b, uris[k]).Ok?
    decreases |uris|
  {
    hide DiffOne;
    var n: nat := |uris| - 1;
    if DiffAll(db, render, a, b, uris[..n]).Err? {
      i := DiffAllFails(db, render, a, b, uris[..n]);
      forall k | 0 <= k < i
        ensures DiffOne(db, render, a, b, uris[k]).Ok?
      {
        assert uris[..n][k] == uris[k];
      }
    } else {
      i := n;
      forall k | 0 <= k < n
        ensures DiffOne(db, render, a, b, uris[k]).Ok?
      {
        DiffAllAt(db, render, a, b, uris[..n], k);
      }
    }
  }

  // A diff that fails reports the first uri, in order, for which a read fails.
  lemma DiffFails(db: Db, render: Render, manA: Manifest, manB: Manifest, r: Result<seq<EntryDiff>>)
    returns (uri: Str)
    requires IsDiff(db, render, manA, manB, r) && r.Err?
    ensures MentionsUri(manA.entries, uri) || MentionsUri(manB.entries, uri)
    ensures FailsFor(db, At(manA.entries, uri), At(manB.entries, uri), r.error)
    ensures forall u, x | Less(u, uri) && (MentionsUri(manA.entries, u) || MentionsUri(manB.entries, u)) ::
              !FailsFor(db, At(manA.entries, u), At(manB.entries, u), x)
  {
    hide DiffOne;
    hide EntriesByUri;
    hide FailsFor;
    hide MentionsUri;
    hide At;
    var a, b := EntriesByUri(manA.entries), EntriesByUri(manB.entries);
    var uris :| Increasing(uris) && Elements(uris) == a.Keys + b.Keys && Compares(db, render, a, b, uris, r);
    var i := DiffAllFails(db, render, a, b, uris);
    uri := uris[i];
    DiffOneFails(db, render, manA, manB, uri);
    AtIsLast(manA.entries, uri);
    AtIsLast(manB.entries, uri);
    forall u, x | Less(u, uri) && (MentionsUri(manA.entries, u) || MentionsUri(manB.entries, u))
      ensures !FailsFor(db, At(manA.entries, u), At(manB.entries, u), x)
    {
      AtIsLast(manA.entries, u);
      AtIsLast(manB.entries, u);
      assert u in Elements(uris);
      var k :| 0 <= k < |uris| && uris[k] == u;
      BeforeInOrder(uris, k, i);
      DiffOneFails(db, render, manA, manB, u);
    }
  }

  lemma BeforeInOrder(uris: seq<Str>, k: nat, i: nat)
    requires Increasing(uris) && k < |uris| && i < |uris| && Less(uris[k], uris[i])
    ensures k < i
  {
    LessIsStrict(uris[k], uris[i]);
  }

  /******* Swapping the manifests *******/

  function Mirror(s: Status): Status {
    match s
    case Added => Removed
    case Removed => Added
    case _ => s
  }

  // The same row seen from the other side; the unified text is not symmetric.
  predicate Mirrored(x: EntryDiff, y: EntryDiff) {
    y.uri == x.uri && y.status == Mirror(x.status) && y.sideA == x.sideB && y.sideB == x.sideA
  }

  lemma DiffOneMirror(db: Db, render: Render, a: map<Str, Entry>, b: map<Str, Entry>, uri: Str)
    requires uri in a || uri in b
    ensures DiffOne(db, render, b, a, uri).Ok? <==> DiffOne(db, render, a, b, uri).Ok?
    ensures DiffOne(db, render, a, b, uri).Ok? ==>
              Mirrored(DiffOne(db, render, a, b, uri).value, DiffOne(db, render, b, a, uri).value)
  {
  }

  lemma {:induction false} DiffAllMirror(db: Db, render: Render, a: map<Str, Entry>, b: map<Str, Entry>, uris: seq<Str>)
    requires forall u | u in uris :: u in a || u in b
    ensures DiffAll(db, render, b, a, uris).Ok? <==> DiffAll(db, render, a, b, uris).Ok?
    ensures DiffAll(db, render, a, b, uris).Ok? ==>
              forall i | 0 <= i < |uris| ::
                Mirrored(DiffAll(db, render, a, b, uris).value[i], DiffAll(db, render, b, a, uris).value[i])
    decreases |uris|
  {
    hide DiffOne;
    hide Mirrored;
    if uris != [] {
      var n := |uris| - 1;
      DiffAllMirror(db, render, a, b, uris[..n]);
      DiffOneMirror(db, render, a, b, uris[n]);
    }
  }

  lemma {:induction false} MirrorCounts(x: seq<EntryDiff>, y: seq<EntryDiff>, status: Status)
    requires |x| == |y| && forall i | 0 <= i < |x| :: Mirrored(x[i], y[i])
    ensures CountOf(y, Mirror(status)) == CountOf(x, status)
    decreases |x|
  {
    if x != [] {
      MirrorCounts(x[..|x| - 1], y[..|y| - 1], status);
    }
  }

  // MAIN RESULT. Swapping the manifests succeeds or fails alike and swaps added with
  // removed, row by row and in the counts.
  lemma DiffSwaps(
    db: Db, render: Render, manA: Manifest, manB: Manifest, r: Result<seq<EntryDiff>>, q: Result<seq<EntryDiff>>)
    requires IsDiff(db, render, manA, manB, r) && IsDiff(db, render, manB, manA, q)
    ensures r.Ok? <==> q.Ok?
    ensures r.Ok? ==>
              && |q.value| == |r.value|
              && (forall i | 0 <= i < |r.value| :: Mirrored(r.value[i], q.value[i]))
              && forall status :: CountOf(q.value, Mirror(status)) == CountOf(r.value, status)
  {
    hide Mirrored;
    hide EntriesByUri;
    var a, b := EntriesByUri(manA.entries), EntriesByUri(manB.entries);
    var uris :| Increasing(uris) && Elements(uris) == a.Keys + b.Keys && Compares(db, render, a, b, uris, r);
    var swapped :|
      Increasing(swapped) && Elements(swapped) == b.Keys + a.Keys && Compares(db, render, b, a, swapped, q);
    IncreasingUnique(uris, swapped);
    DiffAllMirror(db, render, a, b, uris);
    if r.Ok? {
      forall status
        ensures CountOf(q.value, Mirror(status)) == CountOf(r.value, status)
      {
        MirrorCounts(r.value, q.value, status);
      }
    }
  }

  /******* On committed manifests *******/

  ghost predicate Readable(db: Db, e: Entry) {
    e.snapshotId in db.snapshots && GetBlob(db, e.contentHash).Ok?
  }

  lemma {:induction false} DiffAllReads(db: Db, render: Render, a: map<Str, Entry>, b: map<Str, Entry>, uris: seq<Str>)
    requires forall u | u in uris :: u in a || u in b
    requires AllReadable(db, a) && AllReadable(db, b)
    ensures DiffAll(db, render, a, b, uris).Ok?
    decreases |uris|
  {
    if uris != [] {
      DiffAllReads(db, render, a, b, uris[..|uris| - 1]);
    }
  }

  lemma EntryIsReadable(sha: Sha, db: Db, e: Entry)
    requires DbOk(sha, db) && EntryOk(db.materializations, e)
    ensures Readable(db, e)
  {
    assert Stored(db.blobs, db.snapshots[e.snapshotId].contentHash);
  }

  ghost predicate AllReadable(db: Db, byUri: map<Str, Entry>) {
    forall u | u in byUri :: Readable(db, byUri[u])
  }

  lemma ManifestIsReadable(sha: Sha, db: Db, id: Str)
    requires DbOk(sha, db) && id in db.manifests
    ensures AllReadable(db, EntriesByUri(db.manifests[id].entries))
  {
    hide DbOk;
    hide Readable;
    hide EntryOk;
    var entries := db.manifests[id].entries;
    ManifestEntriesOk(sha, db, id);
    forall u | u in EntriesByUri(entries)
      ensures Readable(db, EntriesByUri(entries)[u])
    {
      var i := LastEntry(entries, u);
      EntryIsReadable(sha, db, entries[i]);
    }
  }

  // A diff of two manifests of a consistent store never fails.
  lemma CommittedManifestsDiff(sha: Sha, db: Db, render: Render, idA: Str, idB: Str, r: Result<seq<EntryDiff>>)
    requires DbOk(sha, db) && idA in db.manifests && idB in db.manifests
    requires IsDiff(db, render, db.manifests[idA], db.manifests[idB], r)
    ensures r.Ok?
  {
    hide DbOk;
    hide EntriesByUri;
    hide AllReadable;
    hide DiffAll;
    ManifestIsReadable(sha, db, idA);
    ManifestIsReadable(sha, db, idB);
    var a, b := EntriesByUri(db.manifests[idA].entries), EntriesByUri(db.manifests[idB].entries);
    var uris :| Increasing(uris) && Elements(uris) == a.Keys + b.Keys && Compares(db, render, a, b, uris, r);
    DiffAllReads(db, render, a, b, uris);
  }
}
