/** The reference a publish builds, and the tag it is allowed to use. */
module Publish {
  import opened Common
  import opened Text
  import opened Blocks
  import opened Registry

  datatype PublishError = NoNamespace | NotAHost | IllegalTag

  predicate IsTagChar(c: char) {
    IsAlphanumeric(c) || c == '.' || c == '_' || c == '-'
  }

  /** A manifest's version as a tag, unless it is not one. */
  function RefTag(version: string): Result<string, PublishError> {
    if version != "" && (IsAlphanumeric(version[0]) || version[0] == '_')
       && (forall i :: 0 <= i < |version| ==> IsTagChar(version[i])) && |version| <= 128
    then Ok(version) else Err(IllegalTag)
  }

  predicate IsNameEnd(c: char) { IsLower(c) || IsDigit(c) }

  /** A block name the manifest's grammar admits. */
  predicate IsRefName(name: string) {
    && name != "" && IsNameEnd(name[0]) && IsNameEnd(name[|name| - 1])
    && forall i :: 0 <= i < |name| ==> IsNameEnd(name[i]) || name[i] == '.' || name[i] == '_' || name[i] == '-'
  }

  datatype Target = Target(host: string, repository: string, tag: string) {
    function Reference(): string {
      host + "/" + repository + ":" + tag
    }
  }

  /** Where a publish to `registry` of a block with this name and version goes. */
  function TargetOf(registry: string, name: string, version: string): Result<Target, PublishError> {
    match SplitOnce(registry, '/')
    case None => Err(NoNamespace)
    case Some((host, namespace)) =>
      if !LooksLikeHost(host) then Err(NotAHost)
      else if namespace == "" then Err(NoNamespace)
      else match RefTag(version)
        case Err(error) => Err(error)
        case Ok(tag) => Ok(Target(host, namespace + "/" + name, tag))
  }

  /** The tag grammar of the OCI Distribution Specification: a letter, a digit or `_`, then at most 127 of those, dots and dashes. */
  predicate LegalTag(tag: string) {
    && 1 <= |tag| <= 128 && tag[0] != '.' && tag[0] != '-'
    && forall i :: 0 <= i < |tag| ==>
         'a' <= tag[i] <= 'z' || 'A' <= tag[i] <= 'Z' || '0' <= tag[i] <= '9' || tag[i] == '_' || tag[i] == '.' || tag[i] == '-'
  }

  /** `host/namespace`, the host one a pull would take for a host. */
  predicate NamesARegistry(registry: string, host: string, namespace: string) {
    && registry == host + "/" + namespace && '/' !in host
    && ('.' in host || ':' in host || host == "localhost")
  }

  /** Exactly what a publish accepts, and where it then goes; and why it refuses the rest. */
  lemma TargetsExactly(registry: string, name: string, version: string, target: Target)
    ensures TargetOf(registry, name, version) == Ok(target) <==>
      && target.tag == version && LegalTag(version)
      && exists namespace :: namespace != "" && NamesARegistry(registry, target.host, namespace) && target.repository == namespace + "/" + name
    ensures TargetOf(registry, name, version) == Err(NoNamespace)
      <==> '/' !in registry || exists host :: NamesARegistry(registry, host, "")
    ensures TargetOf(registry, name, version) == Err(NotAHost)
      <==> '/' in registry && forall host, namespace :: !NamesARegistry(registry, host, namespace)
    ensures TargetOf(registry, name, version) == Err(IllegalTag)
      <==> !LegalTag(version) && exists host, namespace :: namespace != "" && NamesARegistry(registry, host, namespace)
  {
    TagsAreLegal(version);
    forall host, namespace | NamesARegistry(registry, host, namespace)
      ensures SplitOnce(registry, '/') == Some((host, namespace)) && LooksLikeHost(host)
    {
      SplitOnceExactly(registry, '/', host, namespace);
    }
    if '/' in registry {
      var (host, namespace) := SplitOnce(registry, '/').value;
      assert LooksLikeHost(host) ==> NamesARegistry(registry, host, namespace);
    }
  }

  lemma TagsAreLegal(version: string)
    ensures RefTag(version) == (if LegalTag(version) then Ok(version) else Err(IllegalTag))
  {
    assert version != "" ==> IsTagChar(version[0]) ==> IsAlphanumeric(version[0]) || version[0] in {'.', '_', '-'};
  }

  lemma TagsAreComponents(tag: string)
    requires RefTag(tag).Ok?
    ensures IsComponent(tag) && '/' !in tag && ':' !in tag && '@' !in tag
  {
    forall c | c in tag
      ensures c != '/' && c != ':' && c != '@' && c != '\0'
    {
      var i :| 0 <= i < |tag| && tag[i] == c;
    }
  }

  lemma NamesAreComponents(name: string)
    requires IsRefName(name)
    ensures IsComponent(name) && '@' !in name
  {
    forall c | c in name
      ensures c != '/' && c != '@' && c != '\0'
    {
      var i :| 0 <= i < |name| && name[i] == c;
    }
  }

  /** Where the published reference's path ends, and what its last component is. */
  lemma PathOfTarget(host: string, namespace: string, name: string)
    requires '/' !in name && '/' !in host
    ensures LastComponent(host + "/" + (namespace + "/" + name)) == name
    ensures SplitOnce(host + "/" + (namespace + "/" + name), '/') == Some((host, namespace + "/" + name))
  {
    var path := host + "/" + (namespace + "/" + name);
    assert path == (host + "/" + namespace) + "/" + name;
    LastComponentIs(host + "/" + namespace, name);
    FindIs(host, '/', namespace + "/" + name);
    Cut(host, '/', namespace + "/" + name);
  }

  /**
   * What was published is what the daemon finds: the reference names this block at this version in
   * the cache, and the pull goes back to the host and repository pushed to, exactly when the
   * registry argument holds no `@`. The publish checks everything else itself.
   */
  lemma PublishedIsWhatIsPulled(registry: string, name: string, version: string)
    requires TargetOf(registry, name, version).Ok? && IsRefName(name)
    ensures var target := TargetOf(registry, name, version).value;
      && (Parse(target.Reference()) == Ok(Entry(name, version)) <==> '@' !in registry)
      && (Locate(target.Reference()) == Ok(Location(target.host, target.repository, Tag(version))) <==> '@' !in registry)
  {
    TagsAreComponents(version);
    NamesAreComponents(name);
    if '@' in registry {
      NothingPulledPastAnAt(registry, name, version);
    } else {
      PulledWithoutAnAt(registry, name, version);
    }
  }

  lemma PulledWithoutAnAt(registry: string, name: string, version: string)
    requires TargetOf(registry, name, version).Ok? && IsComponent(name) && '@' !in name
    requires '@' !in registry && IsComponent(version) && '@' !in version && ':' !in version
    ensures var target := TargetOf(registry, name, version).value;
      && Parse(target.Reference()) == Ok(Entry(name, version))
      && Locate(target.Reference()) == Ok(Location(target.host, target.repository, Tag(version)))
  {
    var target := TargetOf(registry, name, version).value;
    var (host, namespace) := SplitOnce(registry, '/').value;
    var path := host + "/" + target.repository;
    PathOfTarget(host, namespace, name);
    SplitTagOf(path, version);
    assert target.Reference() == path + ":" + version && target.Reference()[|path|] == ':';
    assert '@' !in target.Reference();
    TaggedParses(target.Reference(), path, name, version);
    TaggedLocates(target.Reference(), path, version, host, target.repository);
  }

  lemma TaggedParses(reference: string, path: string, name: string, version: string)
    requires reference != "" && '@' !in reference && SplitTag(reference) == Some((path, version))
    requires LastComponent(path) == name && IsComponent(name) && IsComponent(version)
    ensures Parse(reference) == Ok(Entry(name, version))
  {
  }

  lemma TaggedLocates(reference: string, path: string, version: string, host: string, repository: string)
    requires '@' !in reference && SplitTag(reference) == Some((path, version))
    requires SplitOnce(path, '/') == Some((host, repository)) && LooksLikeHost(host) && repository != ""
    ensures Locate(reference) == Ok(Location(host, repository, Tag(version)))
  {
  }

  /** An `@` before the name turns the rest of the reference into a digest that is never one. */
  lemma NothingPulledPastAnAt(registry: string, name: string, version: string)
    requires TargetOf(registry, name, version).Ok? && '@' in registry
    requires ':' !in version
    ensures var target := TargetOf(registry, name, version).value;
      && Parse(target.Reference()).Err?
      && (Locate(target.Reference()).Ok? ==> Locate(target.Reference()).value.pin.Digest?)
  {
    var target := TargetOf(registry, name, version).value;
    var rest := "/" + name + ":" + version;
    assert target.Reference() == registry + rest;
    var (path, after) := SplitOnce(registry, '@').value;
    SplitsAtTheFirstAt(registry, rest, path, after);
    NoDigestHere(path, after, rest);
  }

  lemma SplitsAtTheFirstAt(registry: string, rest: string, path: string, after: string)
    requires registry == path + ['@'] + after && '@' !in path
    ensures SplitDigest(registry + rest) == Some((path, after + rest))
  {
    Regroup(path + ['@'], after, rest);
    FindIs(path, '@', after + rest);
    Cut(path, '@', after + rest);
  }

  lemma SlashInEitherHalf(digest: string, at: nat, algorithm: string, hex: string)
    requires digest == algorithm + [':'] + hex && at < |digest| && digest[at] == '/'
    ensures at != |algorithm|
    ensures at < |algorithm| ==> algorithm[at] == '/'
    ensures at > |algorithm| ==> at - |algorithm| - 1 < |hex| && hex[at - |algorithm| - 1] == '/'
  {
  }

  lemma NotSha(algorithm: string, at: nat)
    requires at < |algorithm| && algorithm[at] == '/'
    ensures algorithm != "sha256"
  {
    assert forall i :: 0 <= i < 6 ==> "sha256"[i] != '/';
  }

  lemma SlashedIsNoDigest(path: string, digest: string, at: nat)
    requires at < |digest| && digest[at] == '/'
    ensures ParseDigest(path, digest).Err?
  {
    match SplitOnce(digest, ':')
    case None =>
    case Some((algorithm, hex)) =>
      SlashInEitherHalf(digest, at, algorithm, hex);
      if at < |algorithm| {
        NotSha(algorithm, at);
      } else {
        assert !IsHexDigit(hex[at - |algorithm| - 1]);
      }
  }

  lemma NoDigestHere(path: string, after: string, rest: string)
    requires rest != "" && rest[0] == '/'
    ensures ParseDigest(path, after + rest).Err?
  {
    assert (after + rest)[|after|] == '/';
    SlashedIsNoDigest(path, after + rest, |after|);
  }

  /** One registry the publish accepts and the daemon cannot read back from: `ghcr.io/a@b`. */
  lemma OneRegistryWithAnAt()
    ensures TargetOf("ghcr.io/a@b", "filter", "1").Ok?
    ensures Parse(TargetOf("ghcr.io/a@b", "filter", "1").value.Reference()).Err?
  {
    assert "ghcr.io/a@b" == "ghcr.io" + ['/'] + "a@b";
    FindIs("ghcr.io", '/', "a@b");
    Cut("ghcr.io", '/', "a@b");
    assert "ghcr.io"[4] == '.';
    assert "ghcr.io/a@b"[9] == '@';
    NothingPulledPastAnAt("ghcr.io/a@b", "filter", "1");
  }
}
