/** The pull side's reading of a reference: which host, which repository, and what to fetch by. */
module Registry {
  import opened Common
  import opened Text
  import opened Blocks

  datatype Pin = Tag(tag: string) | Digest(digest: string)

  datatype Location = Location(host: string, repository: string, pin: Pin)

  datatype PullError = Unregistered | Failed(detail: string)

  /** The rule that makes a first component a registry rather than a namespace. */
  predicate LooksLikeHost(host: string) {
    '.' in host || ':' in host || host == "localhost"
  }

  function SplitRepository(path: string): Result<(string, string), PullError> {
    match SplitOnce(path, '/')
    case None => Err(Unregistered)
    case Some((host, repository)) =>
      if !LooksLikeHost(host) then Err(Unregistered)
      else if repository == "" then Err(Unregistered)
      else Ok((host, repository))
  }

  function Located(path: string, pin: Pin): Result<Location, PullError> {
    match SplitRepository(path)
    case Ok((host, repository)) => Ok(Location(host, repository, pin))
    case Err(error) => Err(error)
  }

  function Locate(reference: string): Result<Location, PullError> {
    match SplitDigest(reference)
    case Some((path, digest)) => Located(path, Digest(Lower(digest)))
    case None =>
      match SplitTag(reference)
      case None => Err(Unregistered)
      case Some((path, tag)) => Located(path, Tag(tag))
  }

  /** What makes a pull possible: `host/repository`, the host one a namespace cannot be taken for. */
  predicate Reaches(path: string, at: Location) {
    && path == at.host + "/" + at.repository && '/' !in at.host && at.repository != ""
    && ('.' in at.host || ':' in at.host || at.host == "localhost")
  }

  lemma LocatedExactly(path: string, pin: Pin, at: Location)
    ensures Located(path, pin) == Ok(at) <==> at.pin == pin && Reaches(path, at)
    ensures Located(path, pin).Err? ==> Located(path, pin) == Err(Unregistered)
  {
    SplitOnceExactly(path, '/', at.host, at.repository);
  }

  predicate PullsTag(reference: string, path: string, tag: string) {
    '@' !in reference && reference == path + ":" + tag && tag != "" && ':' !in tag && '/' !in tag
  }

  predicate PullsDigest(reference: string, path: string, raw: string, digest: string) {
    reference == path + "@" + raw && '@' !in path && digest == Lower(raw)
  }

  /** Exactly which references can be pulled and from where; every other one names no registry. */
  lemma LocatesExactly(reference: string, at: Location)
    ensures Locate(reference) == Ok(at) <==>
      match at.pin
      case Tag(tag) => exists path :: PullsTag(reference, path, tag) && Reaches(path, at)
      case Digest(digest) => exists path, raw :: PullsDigest(reference, path, raw, digest) && Reaches(path, at)
    ensures Locate(reference).Err? ==> Locate(reference) == Err(Unregistered)
  {
    match SplitDigest(reference)
    case Some((path, raw)) =>
      LocatedExactly(path, Digest(Lower(raw)), at);
      if Locate(reference) == Ok(at) {
        assert PullsDigest(reference, path, raw, Lower(raw));
      }
      forall front, other, digest | PullsDigest(reference, front, other, digest) ensures front == path && other == raw {
        SplitOnceExactly(reference, '@', front, other);
      }
    case None =>
      if SplitTag(reference).Some? {
        var (path, tag) := SplitTag(reference).value;
        SplitTagIsExact(reference, path, tag);
        LocatedExactly(path, Tag(tag), at);
        assert PullsTag(reference, path, tag);
      }
      forall path, tag | PullsTag(reference, path, tag) ensures SplitTag(reference) == Some((path, tag)) {
        SplitTagIsExact(reference, path, tag);
      }
  }

  /** What a pin is called in the cache: the tag itself, or the digest with its colon made a dash. */
  function CachedAs(pin: Pin): string {
    match pin
    case Tag(tag) => tag
    case Digest(digest) => if |digest| >= 7 then "sha256-" + digest[7..] else ""
  }

  lemma LastOfRepository(path: string)
    requires SplitRepository(path).Ok?
    ensures LastComponent(path) == LastComponent(SplitRepository(path).value.1)
  {
    var (host, repository) := SplitOnce(path, '/').value;
    LastComponentIs(host, repository);
  }

  lemma LowerSha(digest: string, hex: string)
    requires digest == "sha256:" + hex
    ensures Lower(digest)[7..] == Lower(hex) && |Lower(digest)| >= 7
  {
  }

  /**
   * The two readings of one reference agree: a pull never fetches one artifact while the cache
   * files it under another's name and version.
   */
  lemma PullAndCacheAgree(reference: string)
    requires Locate(reference).Ok? && Parse(reference).Ok?
    ensures var at, entry := Locate(reference).value, Parse(reference).value;
      entry.name == LastComponent(at.repository) && entry.version == CachedAs(at.pin)
  {
    match SplitDigest(reference)
    case Some((path, digest)) =>
      LastOfRepository(path);
      var (algorithm, hex) := SplitOnce(digest, ':').value;
      LowerSha(digest, hex);
    case None =>
      LastOfRepository(SplitTag(reference).value.0);
  }
}
