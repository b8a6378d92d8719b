/** Block references: which cache entry a piece of text names. */
module Blocks {
  import opened Common
  import opened Text

  datatype Unresolvable =
    | Untagged
    | UnsupportedDigest(algorithm: string)
    | Malformed
    | Missing(path: string)
    | Unreadable(path: string)
    | Unstorable(path: string)

  datatype Entry = Entry(name: string, version: string)

  const MODULE := "block.wasm"

  /** Everything before the tag's `:`, and the tag. The colon must be in the last component. */
  function SplitTag(reference: string): Option<(string, string)> {
    var last := LastComponent(reference);
    match RFind(last, ':')
    case None => None
    case Some(at) =>
      var colon := |reference| - |last| + at;
      var tag := last[at + 1..];
      if tag == "" then None else Some((reference[..colon], tag))
  }

  function SplitDigest(reference: string): Option<(string, string)> {
    SplitOnce(reference, '@')
  }

  /** One ordinary path component on a Unix filesystem, safe to join onto the cache root. */
  predicate IsComponent(text: string) {
    text != "" && text != "." && text != ".." && '/' !in text && '\0' !in text
  }

  function ParseDigest(path: string, digest: string): Result<Entry, Unresolvable> {
    match SplitOnce(digest, ':')
    case None => Err(Malformed)
    case Some((algorithm, hex)) =>
      if algorithm != "sha256" then Err(UnsupportedDigest(algorithm))
      else if hex == "" || exists i :: 0 <= i < |hex| && !IsHexDigit(hex[i]) then Err(Malformed)
      else
        var name := LastComponent(path);
        if !IsComponent(name) then Err(Malformed)
        else Ok(Entry(name, "sha256-" + Lower(hex)))
  }

  function Parse(reference: string): Result<Entry, Unresolvable> {
    if reference == "" then Err(Malformed)
    else match SplitDigest(reference)
      case Some((path, digest)) => ParseDigest(path, digest)
      case None =>
        match SplitTag(reference)
        case None => Err(Untagged)
        case Some((path, version)) =>
          var name := LastComponent(path);
          if !IsComponent(name) || !IsComponent(version) then Err(Malformed)
          else Ok(Entry(name, version))
  }

  /** `Path::join` of one component that is not absolute. */
  function Join(base: string, component: string): string {
    if base == "" || base[|base| - 1] == '/' then base + component else base + "/" + component
  }

  /** Where an entry's module sits under the cache root. */
  function EntryPath(root: string, entry: Entry): string {
    Join(Join(Join(root, entry.name), entry.version), MODULE)
  }

  function Path(root: string, reference: string): Result<string, Unresolvable> {
    match Parse(reference)
    case Ok(entry) => Ok(EntryPath(root, entry))
    case Err(error) => Err(error)
  }

  lemma LastOfTagged(path: string, tag: string)
    requires '/' !in tag
    ensures LastComponent(path + ":" + tag) == LastComponent(path) + ":" + tag
  {
    match RFind(path, '/')
    case Some(slash) =>
      var last := path[slash + 1..] + ":" + tag;
      assert path + ":" + tag == path[..slash] + ['/'] + last;
      RFindIs(path[..slash], '/', last);
    case None =>
      assert '/' !in path + ":" + tag;
  }

  /** Concatenation around a separator, taken apart again. */
  lemma Cut(a: string, c: char, b: string)
    ensures (a + [c] + b)[..|a|] == a && (a + [c] + b)[|a| + 1..] == b
  {
  }

  lemma SplitTagOf(path: string, tag: string)
    requires tag != "" && ':' !in tag && '/' !in tag
    ensures SplitTag(path + ":" + tag) == Some((path, tag))
  {
    LastOfTagged(path, tag);
    TaggedSplits(path + ":" + tag, path, LastComponent(path), tag);
  }

  lemma TaggedSplits(reference: string, path: string, head: string, tag: string)
    requires reference == path + ":" + tag && LastComponent(reference) == head + ":" + tag
    requires |head| <= |path| && tag != "" && ':' !in tag
    ensures SplitTag(reference) == Some((path, tag))
  {
    RFindIs(head, ':', tag);
    Cut(head, ':', tag);
    Cut(path, ':', tag);
  }

  lemma RebuiltAround(s: string, from: nat, at: nat)
    requires from <= |s| && at < |s| - from
    ensures s[from..][at] == s[from + at] && s[from..][at + 1..] == s[from + at + 1..]
    ensures s == s[..from + at] + [s[from + at]] + s[from..][at + 1..]
  {
  }

  lemma SplitTagRebuilds(reference: string)
    requires SplitTag(reference).Some?
    ensures var (path, tag) := SplitTag(reference).value;
      reference == path + ":" + tag && tag != "" && ':' !in tag && '/' !in tag
  {
    var last := LastComponent(reference);
    var at := RFind(last, ':').value;
    RebuiltAround(reference, |reference| - |last|, at);
    NotInTheTail(last, at + 1);
  }

  lemma NotInTheTail(s: string, n: nat)
    requires n <= |s| && '/' !in s
    ensures '/' !in s[n..]
  {
  }

  /** A tag is exactly a nonempty tail, after a colon, that holds no further colon and no slash. */
  lemma SplitTagIsExact(reference: string, path: string, tag: string)
    ensures SplitTag(reference) == Some((path, tag))
      <==> reference == path + ":" + tag && tag != "" && ':' !in tag && '/' !in tag
  {
    if SplitTag(reference).Some? {
      SplitTagRebuilds(reference);
    }
    if tag != "" && ':' !in tag && '/' !in tag {
      SplitTagOf(path, tag);
    }
  }

  lemma PrefixKeepsTag(namespace: string, reference: string)
    ensures SplitTag(namespace + "/" + reference) == match SplitTag(reference)
      case Some((path, tag)) => Some((namespace + "/" + path, tag))
      case None => None
  {
    match SplitTag(reference)
    case Some((path, tag)) =>
      SplitTagRebuilds(reference);
      PrefixedTag(namespace, path, tag);
    case None => UntaggedStaysUntagged(namespace, reference);
  }

  lemma PrefixedTag(namespace: string, path: string, tag: string)
    requires tag != "" && ':' !in tag && '/' !in tag
    ensures SplitTag(namespace + "/" + (path + ":" + tag)) == Some((namespace + "/" + path, tag))
  {
    Reassociate(namespace + "/", path, ":", tag);
    SplitTagOf(namespace + "/" + path, tag);
  }

  lemma Reassociate(a: string, b: string, c: string, d: string)
    ensures a + (b + c + d) == (a + b) + c + d
  {
  }

  lemma UntaggedStaysUntagged(namespace: string, reference: string)
    requires SplitTag(reference).None?
    ensures SplitTag(namespace + "/" + reference).None?
  {
    LastComponentIs(namespace, reference);
  }

  /** The registry and namespace in front of a reference say nothing about which entry it names. */
  lemma NamespaceNamesNoEntry(namespace: string, reference: string)
    requires '@' !in namespace
    ensures Parse(namespace + "/" + reference) == Parse(reference) <==> reference != ""
  {
    var longer := namespace + "/" + reference;
    if reference == "" {
      LastComponentIs(namespace, "");
      assert '@' !in longer;
    } else if '@' in reference {
      NamespaceBeforeDigest(namespace, reference);
    } else {
      NamespaceBeforeTag(namespace, reference);
    }
  }

  lemma NamespaceBeforeDigest(namespace: string, reference: string)
    requires '@' !in namespace && '@' in reference
    ensures Parse(namespace + "/" + reference) == Parse(reference)
  {
    var (path, digest) := SplitDigest(reference).value;
    var longer := namespace + "/" + reference;
    assert longer == (namespace + "/" + path) + ['@'] + digest;
    FindIs(namespace + "/" + path, '@', digest);
    assert longer[..|namespace + "/" + path|] == namespace + "/" + path;
    assert longer[|namespace + "/" + path| + 1..] == digest;
    assert SplitDigest(longer) == Some((namespace + "/" + path, digest));
    LastComponentIs(namespace, path);
  }

  lemma NamespaceBeforeTag(namespace: string, reference: string)
    requires '@' !in namespace && '@' !in reference && reference != ""
    ensures Parse(namespace + "/" + reference) == Parse(reference)
  {
    assert '@' !in namespace + "/" + reference;
    PrefixKeepsTag(namespace, reference);
    match SplitTag(reference)
    case Some((path, tag)) => LastComponentIs(namespace, path);
    case None =>
  }

  lemma HexIsAComponent(hex: string)
    requires forall i :: 0 <= i < |hex| ==> IsHexDigit(hex[i])
    ensures IsComponent("sha256-" + Lower(hex))
  {
    var version := "sha256-" + Lower(hex);
    assert version[0] == 's';
    forall i | 0 <= i < |version|
      ensures version[i] != '/' && version[i] != '\0'
    {
      if i >= 7 {
        assert version[i] == LowerChar(hex[i - 7]);
      }
    }
  }

  /** Whatever is accepted is two ordinary components, so no reference leaves the cache root. */
  lemma AcceptedIsTwoComponents(reference: string)
    ensures Parse(reference).Ok? ==>
      IsComponent(Parse(reference).value.name) && IsComponent(Parse(reference).value.version)
  {
    if Parse(reference).Ok? && '@' in reference {
      var (path, digest) := SplitDigest(reference).value;
      var (_, hex) := SplitOnce(digest, ':').value;
      HexIsAComponent(hex);
    }
  }

  // The grammar of references, said of the text.

  /** `path:version`, the version holding no further colon, and the name last in the path. */
  predicate TagSpells(reference: string, path: string, entry: Entry) {
    && '@' !in reference && reference == path + ":" + entry.version && ':' !in entry.version
    && IsLast(path, entry.name)
  }

  /** `path@sha256:hex`, the name last in the path, the version the digest in lower case. */
  predicate DigestSpells(reference: string, path: string, hex: string, entry: Entry) {
    && reference == path + "@" + ("sha256:" + hex) && '@' !in path && IsLast(path, entry.name)
    && hex != "" && (forall i :: 0 <= i < |hex| ==> IsHexDigit(hex[i]))
    && entry.version == "sha256-" + Lower(hex)
  }

  lemma TaggedExactly(reference: string, entry: Entry)
    requires '@' !in reference && IsComponent(entry.name) && IsComponent(entry.version)
    ensures Parse(reference) == Ok(entry) <==> exists path :: TagSpells(reference, path, entry)
  {
    if Parse(reference) == Ok(entry) {
      var (path, tag) := SplitTag(reference).value;
      SplitTagIsExact(reference, path, tag);
      LastComponentExactly(path, entry.name);
      assert TagSpells(reference, path, entry);
    }
    if path :| TagSpells(reference, path, entry) {
      SplitTagIsExact(reference, path, entry.version);
      LastComponentExactly(path, entry.name);
    }
  }

  lemma ShaSplits(hex: string)
    ensures SplitOnce("sha256:" + hex, ':') == Some(("sha256", hex))
  {
    assert "sha256:" + hex == "sha256" + [':'] + hex;
    SplitOnceExactly("sha256:" + hex, ':', "sha256", hex);
  }

  lemma PinnedSpells(reference: string, entry: Entry, path: string, digest: string, hex: string)
    requires reference == path + ['@'] + digest && '@' !in path && digest == "sha256" + [':'] + hex
    requires ParseDigest(path, digest) == Ok(entry) && SplitOnce(digest, ':') == Some(("sha256", hex))
    ensures DigestSpells(reference, path, hex, entry)
  {
    assert digest == "sha256:" + hex;
    LastComponentExactly(path, entry.name);
  }

  lemma PinnedParses(reference: string, entry: Entry, path: string, hex: string)
    requires IsComponent(entry.name) && DigestSpells(reference, path, hex, entry)
    ensures SplitDigest(reference) == Some((path, "sha256:" + hex)) && ParseDigest(path, "sha256:" + hex) == Ok(entry)
  {
    SplitOnceExactly(reference, '@', path, "sha256:" + hex);
    ShaSplits(hex);
    LastComponentExactly(path, entry.name);
  }

  lemma PinnedExactly(reference: string, entry: Entry)
    requires '@' in reference && IsComponent(entry.name)
    ensures Parse(reference) == Ok(entry) <==> exists path, hex :: DigestSpells(reference, path, hex, entry)
  {
    var (path, digest) := SplitDigest(reference).value;
    if Parse(reference) == Ok(entry) {
      var (_, hex) := SplitOnce(digest, ':').value;
      PinnedSpells(reference, entry, path, digest, hex);
    }
    if front, hex :| DigestSpells(reference, front, hex, entry) {
      PinnedParses(reference, entry, front, hex);
    }
  }

  /** Exactly which references name an entry, and which: a tag or a digest after a path, whose last component is the name. */
  lemma ParsesExactly(reference: string, entry: Entry)
    ensures Parse(reference) == Ok(entry) <==>
      && IsComponent(entry.name) && IsComponent(entry.version)
      && ((exists path :: TagSpells(reference, path, entry)) || exists path, hex :: DigestSpells(reference, path, hex, entry))
  {
    AcceptedIsTwoComponents(reference);
    if '@' in reference {
      if IsComponent(entry.name) {
        PinnedExactly(reference, entry);
      }
    } else {
      if IsComponent(entry.name) && IsComponent(entry.version) {
        TaggedExactly(reference, entry);
      }
    }
  }

  /** `path@algorithm:hex`. */
  predicate PinSpells(reference: string, path: string, algorithm: string, hex: string) {
    reference == path + "@" + (algorithm + ":" + hex) && '@' !in path && ':' !in algorithm
  }

  predicate TagSplits(reference: string, path: string, tag: string) {
    reference == path + ":" + tag && tag != "" && ':' !in tag && '/' !in tag
  }

  /** Why a reference is refused: it has no tag, or a digest of another kind; everything else is malformed. */
  lemma RefusedExactly(reference: string)
    ensures Parse(reference) == Err(Untagged)
      <==> reference != "" && '@' !in reference && forall path, tag :: !TagSplits(reference, path, tag)
    ensures forall algorithm :: (Parse(reference) == Err(UnsupportedDigest(algorithm))
      <==> algorithm != "sha256" && exists path, hex :: PinSpells(reference, path, algorithm, hex))
    ensures Parse(reference).Err? ==>
      var why := Parse(reference).error; why == Untagged || why == Malformed || why.UnsupportedDigest?
  {
    UntaggedExactly(reference);
    forall algorithm {
      UnsupportedExactly(reference, algorithm);
    }
  }

  lemma SplitsExactly(reference: string)
    ensures SplitTag(reference).Some? <==> exists path, tag :: TagSplits(reference, path, tag)
  {
    if SplitTag(reference).Some? {
      SplitTagRebuilds(reference);
      assert TagSplits(reference, SplitTag(reference).value.0, SplitTag(reference).value.1);
    }
    if path, tag :| TagSplits(reference, path, tag) {
      SplitTagOf(path, tag);
    }
  }

  lemma UntaggedIsUnsplit(reference: string)
    ensures Parse(reference) == Err(Untagged) <==> reference != "" && '@' !in reference && SplitTag(reference).None?
  {
  }

  lemma UntaggedExactly(reference: string)
    ensures Parse(reference) == Err(Untagged)
      <==> reference != "" && '@' !in reference && forall path, tag :: !TagSplits(reference, path, tag)
  {
    SplitsExactly(reference);
    UntaggedIsUnsplit(reference);
  }

  lemma UnsupportedExactly(reference: string, algorithm: string)
    ensures Parse(reference) == Err(UnsupportedDigest(algorithm))
      <==> algorithm != "sha256" && exists path, hex :: PinSpells(reference, path, algorithm, hex)
  {
    if Parse(reference) == Err(UnsupportedDigest(algorithm)) {
      var (path, digest) := SplitDigest(reference).value;
      var (_, hex) := SplitOnce(digest, ':').value;
      assert PinSpells(reference, path, algorithm, hex);
    }
    if path, hex :| PinSpells(reference, path, algorithm, hex) {
      SplitOnceExactly(reference, '@', path, algorithm + ":" + hex);
      SplitOnceExactly(algorithm + ":" + hex, ':', algorithm, hex);
    }
  }

  /** Where every path under a root begins. */
  function Base(root: string): string {
    if root == "" || root[|root| - 1] == '/' then root else root + "/"
  }

  lemma PathSpelled(root: string, entry: Entry)
    requires IsComponent(entry.name) && IsComponent(entry.version)
    ensures EntryPath(root, entry) == Base(root) + (entry.name + "/" + (entry.version + ("/" + MODULE)))
  {
    var n := Join(root, entry.name);
    assert n == Base(root) + entry.name;
    assert n[|n| - 1] == entry.name[|entry.name| - 1];
    var v := Join(n, entry.version);
    assert v == n + "/" + entry.version;
    assert v[|v| - 1] == entry.version[|entry.version| - 1];
    assert Join(v, MODULE) == v + "/" + MODULE;
  }

  lemma SplitsAtFirst(a: string, x: string, b: string, y: string)
    requires '/' !in a && '/' !in b && a + "/" + x == b + "/" + y
    ensures a == b && x == y
  {
    FindIs(a, '/', x);
    FindIs(b, '/', y);
    assert a == (a + "/" + x)[..|a|] && b == (b + "/" + y)[..|b|];
    assert x == (a + "/" + x)[|a| + 1..] && y == (b + "/" + y)[|b| + 1..];
  }

  lemma EndsAlike(a: string, b: string, end: string)
    requires a + end == b + end
    ensures a == b
  {
    assert a == (a + end)[..|a|] && b == (b + end)[..|b|];
  }

  lemma EntryPathIsInjective(root: string, x: Entry, y: Entry)
    requires IsComponent(x.name) && IsComponent(x.version) && IsComponent(y.name) && IsComponent(y.version)
    requires EntryPath(root, x) == EntryPath(root, y)
    ensures x == y
  {
    PathSpelled(root, x);
    PathSpelled(root, y);
    var end := "/" + MODULE;
    var p, q := x.name + "/" + (x.version + end), y.name + "/" + (y.version + end);
    assert p == (Base(root) + p)[|Base(root)|..] && q == (Base(root) + q)[|Base(root)|..];
    SplitsAtFirst(x.name, x.version + end, y.name, y.version + end);
    EndsAlike(x.version, y.version, end);
  }

  /** Two references share a cache path exactly when they name one entry. */
  lemma PathsAreEntries(root: string, a: string, b: string)
    requires Parse(a).Ok? && Parse(b).Ok?
    ensures Path(root, a) == Path(root, b) <==> Parse(a) == Parse(b)
  {
    AcceptedIsTwoComponents(a);
    AcceptedIsTwoComponents(b);
    if Path(root, a) == Path(root, b) {
      EntryPathIsInjective(root, Parse(a).value, Parse(b).value);
    }
  }
}
