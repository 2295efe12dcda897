/**
  internal/resource and internal/tag: readproof://<ns>/<path> identifiers, the
  trailing "@<tag>" reference, and tag names.
 */
module References {
  import opened ByteStrings

  datatype URI = URI(namespace: Str, path: Str) {
    function String(): Str { PREFIX + namespace + [SLASH] + path }
  }

  datatype Reference = Reference(uri: Str, ref: Str)

  // "readproof://"
  const PREFIX: Str := [114, 101, 97, 100, 112, 114, 111, 111, 102, 58, 47, 47]
  const SLASH: Byte := 47
  const AT: Byte := 64

  function IndexOf(s: Str, c: Byte): (r: Option<nat>)
    ensures r.Some? ==> r.value < |s| && s[r.value] == c && c !in s[..r.value]
    ensures r.None? ==> c !in s
  {
    if s == [] then None
    else if s[0] == c then Some(0)
    else match IndexOf(s[1..], c)
      case Some(i) => assert s[..i + 1] == [s[0]] + s[1..][..i]; Some(i + 1)
      case None => None
  }

  function LastIndexOf(s: Str, c: Byte): (r: Option<nat>)
    ensures r.Some? ==> r.value < |s| && s[r.value] == c && c !in s[r.value + 1..]
    ensures r.None? ==> c !in s
  {
    if s == [] then None
    else if s[|s| - 1] == c then Some(|s| - 1)
    else match LastIndexOf(s[..|s| - 1], c)
      case Some(i) => assert s[i + 1..] == s[..|s| - 1][i + 1..] + [s[|s| - 1]]; Some(i)
      case None => None
  }

  function CutPrefix(raw: Str): (rest: Option<Str>)
    ensures rest.Some? ==> raw == PREFIX + rest.value
  {
    if PREFIX <= raw then Some(raw[|PREFIX|..]) else None
  }

  function ParseURI(raw: Str): Option<URI> {
    match CutPrefix(raw)
    case None => None
    case Some(rest) => ParseRest(rest)
  }

  function ParseRest(rest: Str): Option<URI> {
    match IndexOf(rest, SLASH)
    case None => None
    case Some(i) =>
      if rest[..i] == [] || rest[i + 1..] == [] then None
      else if AT in rest then None
      else Some(URI(rest[..i], rest[i + 1..]))
  }

  function SplitRef(raw: Str): Option<Reference> {
    match CutPrefix(raw)
    case None => None
    case Some(rest) =>
      match LastIndexOf(rest, AT)
      case Some(i) =>
        if rest[i + 1..] == [] || ParseURI(PREFIX + rest[..i]).None? then None
        else Some(Reference(PREFIX + rest[..i], rest[i + 1..]))
      case None =>
        if ParseURI(raw).None? then None else Some(Reference(raw, []))
  }

  predicate IsAlphanumeric(c: Byte) {
    48 <= c <= 57 || 65 <= c <= 90 || 97 <= c <= 122
  }

  // ^[A-Za-z0-9][A-Za-z0-9._-]{0,63}$
  predicate ValidName(name: Str) {
    && 1 <= |name| <= 64
    && IsAlphanumeric(name[0])
    && forall i | 0 <= i < |name| :: IsAlphanumeric(name[i]) || name[i] == 46 || name[i] == 95 || name[i] == 45
  }

  function Join(r: Reference): Str {
    if r.ref == [] then r.uri else r.uri + [AT] + r.ref
  }

  /******* Searching *******/

  lemma {:induction false} IndexOfSeparator(a: Str, c: Byte, b: Str)
    requires c !in a
    ensures IndexOf(a + [c] + b, c) == Some(|a|)
  {
    var s := a + [c] + b;
    if a != [] {
      IndexOfSeparator(a[1..], c, b);
      assert s[1..] == a[1..] + [c] + b;
      assert a[0] in a;
    }
  }

  lemma {:induction false} LastIndexOfSeparator(a: Str, c: Byte, b: Str)
    requires c !in b
    ensures LastIndexOf(a + [c] + b, c) == Some(|a|)
  {
    var s := a + [c] + b;
    if b != [] {
      var front := b[..|b| - 1];
      LastIndexOfSeparator(a, c, front);
      assert s[..|s| - 1] == a + [c] + front;
      assert b[|b| - 1] in b;
    }
  }

  lemma SplitAt(s: Str, i: nat)
    requires i < |s|
    ensures s == s[..i] + [s[i]] + s[i + 1..]
  {
  }

  lemma CutPrefixOf(rest: Str)
    ensures CutPrefix(PREFIX + rest) == Some(rest)
  {
  }

  lemma PrefixIsSpelled()
    ensures Spells(PREFIX, "readproof://") && SLASH == '/' as int && AT == '@' as int
  {
    var text := "readproof://";
    assert text[0] == 'r' && text[1] == 'e' && text[2] == 'a' && text[3] == 'd' && text[4] == 'p' && text[5] == 'r';
    assert text[6] == 'o' && text[7] == 'o' && text[8] == 'f' && text[9] == ':' && text[10] == '/' && text[11] == '/';
  }

  /******* Exactly what is accepted *******/

  // raw is "readproof://", the namespace, "/", the path, none of them empty, without "@"
  // and the first "/" being that one.
  ghost predicate NamesResource(raw: Str, namespace: Str, path: Str) {
    && Joins(raw, namespace, path)
    && namespace != [] && path != []
    && (forall c | c in namespace :: c != '/' as int && c != '@' as int)
    && (forall c | c in path :: c != '@' as int)
  }

  // raw is "readproof://", namespace, "/" and path, whatever the two hold.
  ghost predicate Joins(raw: Str, namespace: Str, path: Str) {
    && |raw| == 13 + |namespace| + |path|
    && Spells(raw[..12], "readproof://") && raw[12..12 + |namespace|] == namespace
    && raw[12 + |namespace|] == '/' as int && raw[13 + |namespace|..] == path
  }

  lemma StringJoins(raw: Str, u: URI)
    ensures raw == u.String() <==> Joins(raw, u.namespace, u.path)
  {
    PrefixIsSpelled();
    var s := u.String();
    assert s == PREFIX + u.namespace + [SLASH] + u.path;
    assert s[..12] == PREFIX && s[12..12 + |u.namespace|] == u.namespace && s[13 + |u.namespace|..] == u.path;
    if Joins(raw, u.namespace, u.path) {
      assert raw[..12] == PREFIX;
      hide Spells;
      SplitAt(raw[12..], |u.namespace|);
      assert raw[12..][..|u.namespace|] == u.namespace && raw[12..][|u.namespace| + 1..] == u.path;
      assert raw == raw[..12] + raw[12..];
    }
  }

  lemma ParseURIIff(raw: Str, u: URI)
    ensures ParseURI(raw) == Some(u) <==> NamesResource(raw, u.namespace, u.path)
  {
    StringJoins(raw, u);
    ParsedString(u);
    if ParseURI(raw) == Some(u) {
      StringOfParsed(raw);
    }
    hide ParseURI;
    hide Joins;
  }

  lemma PlainReference(raw: Str)
    requires ParseURI(raw).Some?
    ensures SplitRef(raw) == Some(Reference(raw, []))
  {
    var rest := CutPrefix(raw).value;
    assert AT !in rest;
    assert LastIndexOf(rest, AT).None?;
  }

  lemma TaggedReference(uri: Str, name: Str)
    requires ParseURI(uri).Some? && name != [] && AT !in name
    ensures SplitRef(uri + [AT] + name) == Some(Reference(uri, name))
  {
    var body := CutPrefix(uri).value;
    var rest := body + [AT] + name;
    assert uri + [AT] + name == PREFIX + rest;
    CutPrefixOf(rest);
    LastIndexOfSeparator(body, AT, name);
    assert rest[..|body|] == body && rest[|body| + 1..] == name;
  }

  // MAIN RESULT. A reference is accepted exactly if it is an accepted uri, or one followed
  // by "@" and a non-empty name without another "@"; and it is taken apart there.
  lemma SplitRefIff(raw: Str, uri: Str, ref: Str)
    ensures SplitRef(raw) == Some(Reference(uri, ref)) <==>
            ParseURI(uri).Some? && AT !in ref && raw == if ref == [] then uri else uri + [AT] + ref
  {
    if SplitRef(raw) == Some(Reference(uri, ref)) {
      ReferenceRebuilt(raw);
    }
    hide SplitRef;
    hide ParseURI;
    if ParseURI(uri).Some? && AT !in ref {
      if ref == [] {
        PlainReference(uri);
      } else {
        TaggedReference(uri, ref);
      }
    }
  }

  // The letters and digits, listed.
  const ALPHANUMERICS: Str := seq(10, i requires 0 <= i < 10 => '0' as int + i)
                              + seq(26, i requires 0 <= i < 26 => 'A' as int + i)
                              + seq(26, i requires 0 <= i < 26 => 'a' as int + i)

  lemma AlphanumericsListed(c: Byte)
    ensures c in ALPHANUMERICS <==> IsAlphanumeric(c)
  {
    var digits := seq(10, i requires 0 <= i < 10 => '0' as int + i);
    var upper := seq(26, i requires 0 <= i < 26 => 'A' as int + i);
    var lower := seq(26, i requires 0 <= i < 26 => 'a' as int + i);
    assert ALPHANUMERICS == digits + upper + lower;
    if 48 <= c <= 57 { assert digits[c - 48] == c; }
    if 65 <= c <= 90 { assert upper[c - 65] == c; }
    if 97 <= c <= 122 { assert lower[c - 97] == c; }
  }

  // A tag name: 1 to 64 letters, digits, dots, underscores and dashes, not beginning with
  // one of the last three.
  lemma ValidNameIff(name: Str)
    ensures ValidName(name) <==>
            && 1 <= |name| <= 64
            && (forall c | c in name :: c in ALPHANUMERICS || c == '.' as int || c == '_' as int || c == '-' as int)
            && name[0] !in {'.' as int, '_' as int, '-' as int}
  {
    forall c: Byte
      ensures c in ALPHANUMERICS <==> IsAlphanumeric(c)
    {
      AlphanumericsListed(c);
    }
    if 1 <= |name| <= 64 {
      forall i | 0 <= i < |name|
        ensures name[i] in name
      {
      }
    }
  }

  /******* Round trips *******/

  // String inverts ParseURI.
  lemma StringOfParsed(raw: Str)
    requires ParseURI(raw).Some?
    ensures ParseURI(raw).value.String() == raw
  {
    var rest := CutPrefix(raw).value;
    SplitAt(rest, IndexOf(rest, SLASH).value);
  }

  // ParseURI inverts String on exactly these identifiers.
  lemma ParsedString(u: URI)
    ensures ParseURI(u.String()) == Some(u) <==>
            u.namespace != [] && u.path != [] && SLASH !in u.namespace && AT !in u.namespace && AT !in u.path
  {
    var rest := u.namespace + [SLASH] + u.path;
    assert u.String() == PREFIX + rest;
    CutPrefixOf(rest);
    if SLASH !in u.namespace {
      IndexOfSeparator(u.namespace, SLASH, u.path);
      assert rest[..|u.namespace|] == u.namespace && rest[|u.namespace| + 1..] == u.path;
    }
    assert AT in rest <==> AT in u.namespace || AT in u.path;
  }

  // A uri and a tag joined the way the tools print them are taken apart exactly.
  lemma ReferenceRoundTrip(uri: Str, name: Str)
    requires ParseURI(uri).Some? && ValidName(name)
    ensures SplitRef(uri + [AT] + name) == Some(Reference(uri, name))
  {
    assert AT !in name;
    TaggedReference(uri, name);
  }

  // Every accepted reference has a parsed uri and is rebuilt by joining its parts.
  lemma ReferenceRebuilt(raw: Str)
    requires SplitRef(raw).Some?
    ensures var r := SplitRef(raw).value;
            ParseURI(r.uri).Some? && AT !in r.ref && Join(r) == raw
  {
    var rest := CutPrefix(raw).value;
    match LastIndexOf(rest, AT)
    case Some(i) =>
      SplitAt(rest, i);
      assert PREFIX + rest == PREFIX + rest[..i] + [AT] + rest[i + 1..];
    case None =>
  }

  // So two references that split alike are the same string.
  lemma SplitRefInjective(x: Str, y: Str)
    requires SplitRef(x).Some? && SplitRef(x) == SplitRef(y)
    ensures x == y
  {
    ReferenceRebuilt(x);
    ReferenceRebuilt(y);
  }
}
