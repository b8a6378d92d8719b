/** The push client: a request, at most one token dance, and the order a publish sends things in. */
module Oci {
  import opened Common
  import opened FakeRegistry
  import opened Text

  datatype PushError = NoChallenge | TokenRefused | NoToken | BadStatus | NoLocation

  /** Any registry: what it answers and becomes. `readToken` is the token in a token endpoint's answer. */
  datatype Remote<!S> = Remote(serve: (S, Request) -> (S, Answer), readToken: seq<Byte> -> Option<string>, hash: Hash)

  datatype Client = Client(repository: string, credentials: Option<string>)

  datatype Sent<+S, +T> = Sent(state: S, token: Option<string>, result: Result<T, PushError>)

  function BearerOf(token: Option<string>): Option<Authorization> {
    if token.Some? then Some(Bearer(token.value)) else None
  }

  function BasicOf(credentials: Option<string>): Option<Authorization> {
    if credentials.Some? then Some(Basic(credentials.value)) else None
  }

  predicate Succeeded(status: nat) {
    200 <= status < 300
  }

  /** One request, answering one challenge and keeping the token it was answered with. */
  function SendSpec<S>(r: Remote<S>, c: Client, s: S, token: Option<string>, verb: Verb): Sent<S, Answer> {
    var (first, answer) := r.serve(s, Request(verb, BearerOf(token)));
    if answer.status != 401 then Sent(first, token, Ok(answer))
    else if !answer.challenge then Sent(first, token, Err(NoChallenge))
    else
      var (asked, minted) := r.serve(first, Request(Token, BasicOf(c.credentials)));
      if !Succeeded(minted.status) then Sent(asked, token, Err(TokenRefused))
      else match r.readToken(minted.body)
        case None => Sent(asked, token, Err(NoToken))
        case Some(granted) =>
          var (last, again) := r.serve(asked, Request(verb, Some(Bearer(granted))));
          Sent(last, Some(granted), Ok(again))
  }

  /** Where a started upload continues. */
  function SessionOf(answer: Answer): Result<string, PushError> {
    if answer.status != 202 then Err(BadStatus)
    else if answer.location.None? then Err(NoLocation)
    else Ok(answer.location.value)
  }

  function BlobSpec<S>(r: Remote<S>, c: Client, s: S, token: Option<string>, bytes: seq<Byte>): Sent<S, Digest> {
    var start := SendSpec(r, c, s, token, StartUpload(c.repository));
    if start.result.Err? then Sent(start.state, start.token, Err(start.result.error))
    else match SessionOf(start.result.value)
      case Err(error) => Sent(start.state, start.token, Err(error))
      case Ok(session) =>
        var done := SendSpec(r, c, start.state, start.token, Complete(c.repository, session, Some(r.hash(bytes)), bytes));
        Sent(done.state, done.token, Finished(done.result, r.hash(bytes)))
  }

  function Finished(result: Result<Answer, PushError>, digest: Digest): Result<Digest, PushError> {
    match result
    case Err(error) => Err(error)
    case Ok(answer) => if Succeeded(answer.status) then Ok(digest) else Err(BadStatus)
  }

  function ManifestSpec<S>(r: Remote<S>, c: Client, s: S, token: Option<string>, tag: string, manifest: seq<Byte>)
    : Sent<S, Digest>
  {
    var done := SendSpec(r, c, s, token, PutManifest(c.repository, tag, manifest));
    Sent(done.state, done.token, Finished(done.result, r.hash(manifest)))
  }

  /** The three pushes of a publish: each only after the one before it succeeded. */
  function PublishSpec<S>(r: Remote<S>, c: Client, s: S, token: Option<string>, tag: string, config: seq<Byte>,
                          wasm: seq<Byte>, manifestOf: (Digest, Digest) -> seq<Byte>): Sent<S, Digest>
  {
    var one := BlobSpec(r, c, s, token, config);
    if one.result.Err? then one
    else
      var two := BlobSpec(r, c, one.state, one.token, wasm);
      if two.result.Err? then two
      else ManifestSpec(r, c, two.state, two.token, tag, manifestOf(one.result.value, two.result.value))
  }

  // What a push comes to against any registry, said of what it was answered.

  /** How sending ends: with the first answer, or when that was a challenge with what came of asking for a token. */
  lemma SendsExactly<S>(r: Remote<S>, c: Client, s: S, token: Option<string>, verb: Verb)
    ensures
      var sent := SendSpec(r, c, s, token, verb);
      var (first, answer) := r.serve(s, Request(verb, if token.Some? then Some(Bearer(token.value)) else None));
      var (asked, minted) := r.serve(first, Request(Token, if c.credentials.Some? then Some(Basic(c.credentials.value)) else None));
      && (answer.status != 401 ==> sent == Sent(first, token, Ok(answer)))
      && (sent.result == Err(NoChallenge) <==> answer.status == 401 && !answer.challenge)
      && (sent.result == Err(TokenRefused) <==> answer.status == 401 && answer.challenge && !(200 <= minted.status <= 299))
      && (sent.result == Err(NoToken)
          <==> answer.status == 401 && answer.challenge && 200 <= minted.status <= 299 && r.readToken(minted.body).None?)
      && (sent.result.Err? ==> sent.token == token && sent.state == if answer.challenge then asked else first)
      && (answer.status == 401 && sent.result.Ok? ==>
            && sent.token.Some? && sent.token == r.readToken(minted.body)
            && (sent.state, sent.result.value) == r.serve(asked, Request(verb, Some(Bearer(sent.token.value)))))
  {
  }

  /** How a blob's push ends, said of how its two requests were answered. */
  lemma BlobsExactly<S>(r: Remote<S>, c: Client, s: S, token: Option<string>, bytes: seq<Byte>)
    ensures
      var sent := BlobSpec(r, c, s, token, bytes);
      var start := SendSpec(r, c, s, token, StartUpload(c.repository));
      && (start.result.Err? ==> sent == Sent(start.state, start.token, Err(start.result.error)))
      && (start.result.Ok? && start.result.value.status != 202 ==> sent == Sent(start.state, start.token, Err(BadStatus)))
      && (start.result.Ok? && start.result.value.status == 202 && start.result.value.location.None? ==>
            sent == Sent(start.state, start.token, Err(NoLocation)))
      && (start.result.Ok? && start.result.value.status == 202 && start.result.value.location.Some? ==>
            var done := SendSpec(r, c, start.state, start.token,
                                 Complete(c.repository, start.result.value.location.value, Some(r.hash(bytes)), bytes));
            sent.state == done.state && sent.token == done.token && EndsAs(done.result, r.hash(bytes), sent.result))
  {
  }

  /** A last request's end: the digest on any success, its own failure, or that the status was none. */
  predicate EndsAs(answered: Result<Answer, PushError>, digest: Digest, ended: Result<Digest, PushError>) {
    && (ended == Ok(digest) <==> answered.Ok? && 200 <= answered.value.status <= 299)
    && (answered.Ok? && !(200 <= answered.value.status <= 299) ==> ended == Err(BadStatus))
    && (answered.Err? ==> ended == Err(answered.error))
  }

  lemma ManifestsExactly<S>(r: Remote<S>, c: Client, s: S, token: Option<string>, tag: string, manifest: seq<Byte>)
    ensures
      var sent := ManifestSpec(r, c, s, token, tag, manifest);
      var done := SendSpec(r, c, s, token, PutManifest(c.repository, tag, manifest));
      sent.state == done.state && sent.token == done.token && EndsAs(done.result, r.hash(manifest), sent.result)
  {
  }

  /** The client itself, keeping the one token minted across its calls. */
  class Push<S> {
    const remote: Remote<S>
    const client: Client
    var state: S
    var token: Option<string>

    constructor (remote: Remote<S>, client: Client, state: S)
      ensures this.remote == remote && this.client == client && this.state == state && token == None
    {
      this.remote, this.client, this.state, token := remote, client, state, None;
    }

    method Ask(verb: Verb, authorization: Option<Authorization>) returns (answer: Answer)
      modifies this`state
      ensures (state, answer) == remote.serve(old(state), Request(verb, authorization))
    {
      var (next, got) := remote.serve(state, Request(verb, authorization));
      state, answer := next, got;
    }

    method Send(verb: Verb) returns (result: Result<Answer, PushError>)
      modifies this
      ensures Sent(state, token, result) == SendSpec(remote, client, old(state), old(token), verb)
    {
      var answer := Ask(verb, BearerOf(token));
      if answer.status != 401 {
        return Ok(answer);
      }
      if !answer.challenge {
        return Err(NoChallenge);
      }
      var minted := Ask(Token, BasicOf(client.credentials));
      if !Succeeded(minted.status) {
        return Err(TokenRefused);
      }
      var granted := remote.readToken(minted.body);
      if granted.None? {
        return Err(NoToken);
      }
      token := granted;
      var again := Ask(verb, BearerOf(token));
      result := Ok(again);
    }

    method Blob(bytes: seq<Byte>) returns (result: Result<Digest, PushError>)
      modifies this
      ensures Sent(state, token, result) == BlobSpec(remote, client, old(state), old(token), bytes)
    {
      var started := Send(StartUpload(client.repository));
      if started.Err? {
        return Err(started.error);
      }
      var session := SessionOf(started.value);
      if session.Err? {
        return Err(session.error);
      }
      var digest := remote.hash(bytes);
      var done := Send(Complete(client.repository, session.value, Some(digest), bytes));
      result := Finished(done, digest);
    }

    method Manifest(tag: string, manifest: seq<Byte>) returns (result: Result<Digest, PushError>)
      modifies this
      ensures Sent(state, token, result) == ManifestSpec(remote, client, old(state), old(token), tag, manifest)
    {
      var done := Send(PutManifest(client.repository, tag, manifest));
      result := Finished(done, remote.hash(manifest));
    }

    method Publish(tag: string, config: seq<Byte>, wasm: seq<Byte>, manifestOf: (Digest, Digest) -> seq<Byte>)
      returns (result: Result<Digest, PushError>)
      modifies this
      ensures Sent(state, token, result)
        == PublishSpec(remote, client, old(state), old(token), tag, config, wasm, manifestOf)
    {
      var one := Blob(config);
      if one.Err? {
        return one;
      }
      var two := Blob(wasm);
      if two.Err? {
        return two;
      }
      result := Manifest(tag, manifestOf(one.value, two.value));
    }
  }

  // Against the registry of this crate's own tests.

  function Faked(hash: Hash): Remote<State> {
    Remote(
      (s: State, r: Request) => (Serve(hash, s, r).state, Serve(hash, s, r).answer),
      (body: seq<Byte>) => if body == TOKEN then Some("a-token") else None,
      hash)
  }

  /** Whether the registry will let this client in: it is open, or the client holds a token or can get one. */
  predicate Welcome(s: State, c: Client, token: Option<string>) {
    !s.requireToken || token.Some? || s.credentials.None? || s.credentials == c.credentials
  }

  /** How a request changes what the gate looks at: at most one token, and only when one was needed. */
  function Dances(s: State, token: Option<string>): nat {
    if s.requireToken && token.None? then 1 else 0
  }

  /** The registry after the dance that precedes an admitted request. */
  function Danced(s: State, token: Option<string>): State {
    s.(minted := s.minted + Dances(s, token))
  }

  predicate IsApi(verb: Verb) {
    verb.StartUpload? || verb.Complete? || verb.PutManifest?
  }

  /** A request of a welcome client is served; one of an unwelcome client changes nothing. */
  lemma SendIsServed(hash: Hash, c: Client, s: State, token: Option<string>, verb: Verb)
    requires IsApi(verb)
    ensures var sent := SendSpec(Faked(hash), c, s, token, verb);
      if Welcome(s, c, token) then
        && sent.state == Distribution(hash, Danced(s, token), verb).state
        && sent.result == Ok(Distribution(hash, Danced(s, token), verb).answer)
        && (sent.token.Some? <==> s.requireToken || token.Some?)
      else sent == Sent(s, token, Err(TokenRefused))
  {
  }

  /** A blob push stores exactly its bytes under their digest, and nothing else; or it changes nothing. */
  lemma BlobIsStored(hash: Hash, c: Client, s: State, token: Option<string>, bytes: seq<Byte>)
    ensures var sent := BlobSpec(Faked(hash), c, s, token, bytes);
      if Welcome(s, c, token) then
        && sent.result == Ok(hash(bytes)) && sent.state.blobs == s.blobs[hash(bytes) := bytes]
        && sent.state.manifests == s.manifests && sent.state.minted == s.minted + Dances(s, token)
        && sent.state.requireToken == s.requireToken && sent.state.credentials == s.credentials
        && (sent.token.Some? <==> s.requireToken || token.Some?)
      else sent == Sent(s, token, Err(TokenRefused))
  {
    SendIsServed(hash, c, s, token, StartUpload(c.repository));
    var start := SendSpec(Faked(hash), c, s, token, StartUpload(c.repository));
    if Welcome(s, c, token) {
      var session := Decimal(s.nextUpload);
      SendIsServed(hash, c, start.state, start.token, Complete(c.repository, session, Some(hash(bytes)), bytes));
      assert [] + bytes == bytes;
    }
  }

  lemma ManifestIsStored(hash: Hash, c: Client, s: State, token: Option<string>, tag: string, manifest: seq<Byte>)
    ensures var sent := ManifestSpec(Faked(hash), c, s, token, tag, manifest);
      if Welcome(s, c, token) then
        && sent.result == Ok(hash(manifest)) && sent.state.blobs == s.blobs
        && sent.state.manifests
             == s.manifests[Key(c.repository, tag) := manifest][Key(c.repository, hash(manifest)) := manifest]
        && sent.state.minted == s.minted + Dances(s, token)
        && sent.state.requireToken == s.requireToken && sent.state.credentials == s.credentials
        && (sent.token.Some? <==> s.requireToken || token.Some?)
      else sent == Sent(s, token, Err(TokenRefused))
  {
    SendIsServed(hash, c, s, token, PutManifest(c.repository, tag, manifest));
  }

  /** What a publish leaves in the registry, when it is let in; and that it is let in or changes nothing. */
  lemma PublishStores(hash: Hash, c: Client, s: State, tag: string, config: seq<Byte>, wasm: seq<Byte>,
                      manifestOf: (Digest, Digest) -> seq<Byte>)
    ensures var done := PublishSpec(Faked(hash), c, s, None, tag, config, wasm, manifestOf);
      var manifest := manifestOf(hash(config), hash(wasm));
      if Welcome(s, c, None) then
        && done.result == Ok(hash(manifest))
        && done.state.minted == s.minted + Dances(s, None)
        && done.state.manifests == s.manifests[Key(c.repository, tag) := manifest][Key(c.repository, hash(manifest)) := manifest]
        && done.state.blobs == s.blobs[hash(config) := config][hash(wasm) := wasm]
      else done.result == Err(TokenRefused) && done.state == s
  {
    BlobIsStored(hash, c, s, None, config);
    var one := BlobSpec(Faked(hash), c, s, None, config);
    if Welcome(s, c, None) {
      BlobIsStored(hash, c, one.state, one.token, wasm);
      var two := BlobSpec(Faked(hash), c, one.state, one.token, wasm);
      ManifestIsStored(hash, c, two.state, two.token, tag, manifestOf(hash(config), hash(wasm)));
    }
  }

  /**
   * A publish succeeds exactly when the registry lets the client in, at the cost of one token at most,
   * and then whoever is let in reads the module and the manifest back as pushed, by tag and by digest.
   * The config blob too, unless the module has its digest. A publish that fails stored nothing.
   */
  lemma PublishReadsBack(hash: Hash, c: Client, s: State, tag: string, config: seq<Byte>, wasm: seq<Byte>,
                         manifestOf: (Digest, Digest) -> seq<Byte>)
    ensures var done := PublishSpec(Faked(hash), c, s, None, tag, config, wasm, manifestOf);
      var manifest := manifestOf(hash(config), hash(wasm));
      if Welcome(s, c, None) then
        && done.result == Ok(hash(manifest))
        && done.state.minted == s.minted + Dances(s, None)
        && ReadsAs(hash, done.state, GetManifest(c.repository, tag), Some(manifest))
        && ReadsAs(hash, done.state, GetManifest(c.repository, hash(manifest)), Some(manifest))
        && ReadsAs(hash, done.state, GetBlob(hash(wasm)), Some(wasm))
        && ReadsAs(hash, done.state, GetBlob(hash(config)), Some(if hash(config) != hash(wasm) then config else wasm))
        && (forall d :: d != hash(config) && d != hash(wasm) ==> ReadsAs(hash, done.state, GetBlob(d), Look(s.blobs, d)))
      else done.result == Err(TokenRefused) && done.state == s
  {
    PublishStores(hash, c, s, tag, config, wasm, manifestOf);
    StoredReads(hash, PublishSpec(Faked(hash), c, s, None, tag, config, wasm, manifestOf).state, s.blobs, config, wasm);
    ManifestsRead(hash, PublishSpec(Faked(hash), c, s, None, tag, config, wasm, manifestOf).state, c.repository, tag);
    ManifestsRead(hash, PublishSpec(Faked(hash), c, s, None, tag, config, wasm, manifestOf).state, c.repository,
                  hash(manifestOf(hash(config), hash(wasm))));
  }

  lemma StoredReads(hash: Hash, s: State, before: map<Digest, seq<Byte>>, config: seq<Byte>, wasm: seq<Byte>)
    ensures s.blobs == before[hash(config) := config][hash(wasm) := wasm] ==>
      && ReadsAs(hash, s, GetBlob(hash(wasm)), Some(wasm))
      && ReadsAs(hash, s, GetBlob(hash(config)), Some(if hash(config) != hash(wasm) then config else wasm))
      && (forall d :: d != hash(config) && d != hash(wasm) ==> ReadsAs(hash, s, GetBlob(d), Look(before, d)))
  {
    forall d {
      BlobsRead(hash, s, d);
    }
  }
}
