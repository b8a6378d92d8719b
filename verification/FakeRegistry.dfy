/** The in-process OCI registry: what each request does to what it holds, and what it answers. */
module FakeRegistry {
  import opened Common
  import opened Text

  type Digest = string

  type Hash = seq<Byte> -> Digest

  /** A `Basic` header carries `user:password` as one text. */
  datatype Authorization = Bearer(token: string) | Basic(userPass: string)

  datatype Verb =
    | Token
    | Version
    | PutManifest(repository: string, reference: string, body: seq<Byte>)
    | GetManifest(repository: string, reference: string)
    | StartUpload(repository: string)
    | Append(repository: string, session: string, body: seq<Byte>)
    | Complete(repository: string, session: string, digest: Option<Digest>, body: seq<Byte>)
    | GetBlob(at: Digest)
    | Other

  datatype Request = Request(verb: Verb, authorization: Option<Authorization>)

  datatype Answer = Answer(status: nat, body: seq<Byte>, location: Option<string>, challenge: bool)

  datatype State = State(
    manifests: map<string, seq<Byte>>,
    blobs: map<Digest, seq<Byte>>,
    uploads: map<string, seq<Byte>>,
    nextUpload: nat,
    requireToken: bool,
    credentials: Option<string>,
    minted: nat)

  const TOKEN: seq<Byte> := [97, 45, 116, 111, 107, 101, 110]

  function Plain(status: nat): Answer {
    Answer(status, [], None, false)
  }

  function Found(bytes: seq<Byte>): Answer {
    Answer(200, bytes, None, false)
  }

  function Key(repository: string, reference: string): string {
    repository + ":" + reference
  }

  /** What a session received so far; one nobody opened has received nothing. */
  function Received(uploads: map<string, seq<Byte>>, session: string): seq<Byte> {
    if session in uploads then uploads[session] else []
  }

  datatype Reply = Reply(state: State, answer: Answer)

  /** Everything under `/v2/`. The bytes of a completed upload are stored under the digest it names, unchecked. */
  function Distribution(hash: Hash, s: State, verb: Verb): Reply {
    match verb
    case Version => Reply(s, Plain(200))
    case PutManifest(repository, reference, body) =>
      Reply(s.(manifests := s.manifests[Key(repository, reference) := body][Key(repository, hash(body)) := body]), Plain(201))
    case GetManifest(repository, reference) =>
      Reply(s, if Key(repository, reference) in s.manifests then Found(s.manifests[Key(repository, reference)]) else Plain(404))
    case StartUpload(_) =>
      var session := Decimal(s.nextUpload);
      Reply(s.(uploads := s.uploads[session := []], nextUpload := s.nextUpload + 1), Answer(202, [], Some(session), false))
    case Append(_, session, body) =>
      Reply(s.(uploads := s.uploads[session := Received(s.uploads, session) + body]), Answer(202, [], Some(session), false))
    case Complete(_, session, digest, body) =>
      var data := Received(s.uploads, session) + body;
      var key := if digest.Some? then digest.value else hash(data);
      Reply(s.(uploads := s.uploads - {session}, blobs := s.blobs[key := data]), Answer(201, [], Some(key), false))
    case GetBlob(at) => Reply(s, if at in s.blobs then Found(s.blobs[at]) else Plain(404))
    case _ => Reply(s, Plain(404))
  }

  /** The token endpoint: it mints for anyone, or for the one pair of credentials it knows. */
  function Mint(s: State, authorization: Option<Authorization>): Reply {
    if s.credentials.Some? && authorization != Some(Basic(s.credentials.value)) then Reply(s, Plain(401))
    else Reply(s.(minted := s.minted + 1), Found(TOKEN))
  }

  /** The gate: any `Authorization` header at all opens it. */
  function Serve(hash: Hash, s: State, r: Request): Reply {
    if r.verb == Token then Mint(s, r.authorization)
    else if s.requireToken && r.authorization.None? then Reply(s, Answer(401, [], None, true))
    else Distribution(hash, s, r.verb)
  }

  /** The registry itself, updating what it holds in place. */
  class Fake {
    const hash: Hash
    var manifests: map<string, seq<Byte>>
    var blobs: map<Digest, seq<Byte>>
    var uploads: map<string, seq<Byte>>
    var nextUpload: nat
    var requireToken: bool
    var credentials: Option<string>
    var minted: nat

    function Now(): State
      reads this
    {
      State(manifests, blobs, uploads, nextUpload, requireToken, credentials, minted)
    }

    constructor (hash: Hash)
      ensures this.hash == hash && Now() == State(map[], map[], map[], 0, false, None, 0)
    {
      this.hash := hash;
      manifests, blobs, uploads, nextUpload, requireToken, credentials, minted := map[], map[], map[], 0, false, None, 0;
    }

    method RequireToken()
      modifies this`requireToken
      ensures requireToken
    {
      requireToken := true;
    }

    method RequireCredentials(userPass: string)
      modifies this`requireToken, this`credentials
      ensures requireToken && credentials == Some(userPass)
    {
      requireToken, credentials := true, Some(userPass);
    }

    method Handle(r: Request) returns (answer: Answer)
      modifies this
      ensures Reply(Now(), answer) == Serve(hash, old(Now()), r)
    {
      if r.verb == Token {
        if credentials.Some? && r.authorization != Some(Basic(credentials.value)) {
          return Plain(401);
        }
        minted := minted + 1;
        return Found(TOKEN);
      }
      if requireToken && r.authorization.None? {
        return Answer(401, [], None, true);
      }
      match r.verb {
        case PutManifest(repository, reference, body) =>
          manifests := manifests[Key(repository, reference) := body];
          manifests := manifests[Key(repository, hash(body)) := body];
          answer := Plain(201);
        case StartUpload(_) =>
          var session := Decimal(nextUpload);
          nextUpload := nextUpload + 1;
          uploads := uploads[session := []];
          answer := Answer(202, [], Some(session), false);
        case Append(_, session, body) =>
          uploads := uploads[session := Received(uploads, session) + body];
          answer := Answer(202, [], Some(session), false);
        case Complete(_, session, digest, body) =>
          var data := Received(uploads, session);
          uploads := uploads - {session};
          data := data + body;
          var key := if digest.Some? then digest.value else hash(data);
          blobs := blobs[key := data];
          answer := Answer(201, [], Some(key), false);
        case _ => answer := Distribution(hash, Now(), r.verb).answer;
      }
    }
  }

  // Any number of clients, their requests in any order.

  datatype Event = Event(client: nat, request: Request, answer: Answer)

  const EMPTY := State(map[], map[], map[], 0, false, None, 0)

  datatype History = History(state: State, events: seq<Event>)

  /** A registry that starts empty, gated as `gate` is, and serves these requests one after another. */
  function Served(hash: Hash, gate: State, requests: seq<(nat, Request)>): (h: History)
    ensures |h.events| == |requests|
  {
    if requests == [] then History(EMPTY.(requireToken := gate.requireToken, credentials := gate.credentials), [])
    else
      var before := Served(hash, gate, requests[..|requests| - 1]);
      var (client, request) := requests[|requests| - 1];
      var reply := Serve(hash, before.state, request);
      History(reply.state, before.events + [Event(client, request, reply.answer)])
  }

  predicate Admitted(e: Event) {
    e.answer.status < 400
  }

  predicate Opens(e: Event, session: string) {
    e.request.verb.StartUpload? && Admitted(e) && e.answer.location == Some(session)
  }

  predicate Appends(e: Event, session: string) {
    e.request.verb.Append? && Admitted(e) && e.request.verb.session == session
  }

  predicate Completes(e: Event, session: string) {
    e.request.verb.Complete? && Admitted(e) && e.request.verb.session == session
  }

  /** What a session has received, told from the requests alone: the parts appended since it was last opened or completed. */
  function SessionBytes(events: seq<Event>, session: string): seq<Byte> {
    if events == [] then []
    else
      var e, before := events[|events| - 1], events[..|events| - 1];
      if Opens(e, session) || Completes(e, session) then []
      else if Appends(e, session) then SessionBytes(before, session) + e.request.verb.body
      else SessionBytes(before, session)
  }

  /** The bytes the completion at the end of `events` stored. */
  function Stored(events: seq<Event>): seq<Byte>
    requires |events| > 0 && events[|events| - 1].request.verb.Complete?
  {
    var verb := events[|events| - 1].request.verb;
    SessionBytes(events[..|events| - 1], verb.session) + verb.body
  }

  /** What a digest reads back as, told from the requests alone: the last upload completed under it. */
  function BlobAt(hash: Hash, events: seq<Event>, digest: Digest): Option<seq<Byte>> {
    if events == [] then None
    else
      var e := events[|events| - 1];
      if e.request.verb.Complete? && Admitted(e) && KeyOf(hash, events) == digest then Some(Stored(events))
      else BlobAt(hash, events[..|events| - 1], digest)
  }

  function KeyOf(hash: Hash, events: seq<Event>): Digest
    requires |events| > 0 && events[|events| - 1].request.verb.Complete?
  {
    var verb := events[|events| - 1].request.verb;
    if verb.digest.Some? then verb.digest.value else hash(Stored(events))
  }

  /** What a reference reads back as: the last manifest pushed at it, or pushed anywhere in the repository with that digest. */
  function ManifestAt(hash: Hash, events: seq<Event>, key: string): Option<seq<Byte>> {
    if events == [] then None
    else
      var e := events[|events| - 1];
      if e.request.verb.PutManifest? && Admitted(e) &&
         (Key(e.request.verb.repository, e.request.verb.reference) == key
          || Key(e.request.verb.repository, hash(e.request.verb.body)) == key)
      then Some(e.request.verb.body)
      else ManifestAt(hash, events[..|events| - 1], key)
  }

  function TokensIn(events: seq<Event>): nat {
    if events == [] then 0
    else
      var e := events[|events| - 1];
      TokensIn(events[..|events| - 1]) + (if e.request.verb == Token && Admitted(e) then 1 else 0)
  }

  /** What the registry holds is what its history says, at every session, digest and reference. */
  ghost predicate Told(hash: Hash, s: State, events: seq<Event>) {
    && (forall session :: Received(s.uploads, session) == SessionBytes(events, session))
    && (forall digest :: Look(s.blobs, digest) == BlobAt(hash, events, digest))
    && (forall key :: Look(s.manifests, key) == ManifestAt(hash, events, key))
    && s.minted == TokensIn(events)
  }

  /** What one event does to what a session has received. */
  function SessionAfter(before: seq<Byte>, e: Event, session: string): seq<Byte> {
    if Opens(e, session) || Completes(e, session) then []
    else if Appends(e, session) then before + e.request.verb.body
    else before
  }

  lemma ServingMovesSessions(hash: Hash, s: State, client: nat, r: Request, session: string)
    ensures var reply := Serve(hash, s, r);
      Received(reply.state.uploads, session)
        == SessionAfter(Received(s.uploads, session), Event(client, r, reply.answer), session)
  {
  }

  lemma ToldUploads(hash: Hash, s: State, events: seq<Event>, client: nat, r: Request, session: string)
    requires Told(hash, s, events)
    ensures var reply := Serve(hash, s, r);
      Received(reply.state.uploads, session) == SessionBytes(events + [Event(client, r, reply.answer)], session)
  {
    ServingMovesSessions(hash, s, client, r, session);
    SessionBytesGrow(events, Event(client, r, Serve(hash, s, r).answer), session);
  }

  lemma SessionBytesGrow(events: seq<Event>, e: Event, session: string)
    ensures SessionBytes(events + [e], session) == SessionAfter(SessionBytes(events, session), e, session)
  {
    assert (events + [e])[..|events|] == events;
  }

  lemma ToldBlobs(hash: Hash, s: State, events: seq<Event>, client: nat, r: Request, digest: Digest)
    requires Told(hash, s, events)
    ensures var reply := Serve(hash, s, r);
      Look(reply.state.blobs, digest) == BlobAt(hash, events + [Event(client, r, reply.answer)], digest)
  {
    var more := events + [Event(client, r, Serve(hash, s, r).answer)];
    assert more[..|more| - 1] == events;
  }

  lemma ToldManifests(hash: Hash, s: State, events: seq<Event>, client: nat, r: Request, key: string)
    requires Told(hash, s, events)
    ensures var reply := Serve(hash, s, r);
      Look(reply.state.manifests, key) == ManifestAt(hash, events + [Event(client, r, reply.answer)], key)
  {
    var more := events + [Event(client, r, Serve(hash, s, r).answer)];
    assert more[..|more| - 1] == events;
  }

  lemma ToldGrows(hash: Hash, s: State, events: seq<Event>, client: nat, r: Request)
    requires Told(hash, s, events)
    ensures Told(hash, Serve(hash, s, r).state, events + [Event(client, r, Serve(hash, s, r).answer)])
  {
    forall session {
      ToldUploads(hash, s, events, client, r, session);
    }
    forall digest {
      ToldBlobs(hash, s, events, client, r, digest);
    }
    forall key {
      ToldManifests(hash, s, events, client, r, key);
    }
    var more := events + [Event(client, r, Serve(hash, s, r).answer)];
    assert more[..|more| - 1] == events;
  }

  /**
   * Under every interleaving of requests, a session holds exactly the parts appended to it, in order,
   * a completed upload is stored exactly as its own session received it, and a manifest reads back
   * at its reference and at its digest until another replaces it there.
   */
  lemma {:induction false} RegistryIsItsHistory(hash: Hash, gate: State, requests: seq<(nat, Request)>)
    ensures Told(hash, Served(hash, gate, requests).state, Served(hash, gate, requests).events)
    decreases requests
  {
    if requests != [] {
      var front := requests[..|requests| - 1];
      RegistryIsItsHistory(hash, gate, front);
      var before := Served(hash, gate, front);
      ToldGrows(hash, before.state, before.events, requests[|requests| - 1].0, requests[|requests| - 1].1);
    }
  }

  // Every answer, told from the requests before it.

  /** What a read answers: the bytes there, or that nothing is. */
  function Reading(bytes: Option<seq<Byte>>): Answer {
    match bytes case Some(b) => Answer(200, b, None, false) case None => Answer(404, [], None, false)
  }

  function UploadsIn(events: seq<Event>): nat {
    if events == [] then 0
    else
      var e := events[|events| - 1];
      UploadsIn(events[..|events| - 1]) + (if e.request.verb.StartUpload? && Admitted(e) then 1 else 0)
  }

  /** What an admitted request is answered, after `events`: reads answer what was last pushed there, and nothing else does. */
  function AnswerAfter(hash: Hash, events: seq<Event>, verb: Verb): Answer {
    match verb
    case GetManifest(repository, reference) => Reading(ManifestAt(hash, events, Key(repository, reference)))
    case GetBlob(at) => Reading(BlobAt(hash, events, at))
    case StartUpload(_) => Answer(202, [], Some(Decimal(UploadsIn(events))), false)
    case Append(_, session, _) => Answer(202, [], Some(session), false)
    case Complete(_, session, Some(digest), _) => Answer(201, [], Some(digest), false)
    case Complete(_, session, None, body) => Answer(201, [], Some(hash(SessionBytes(events, session) + body)), false)
    case PutManifest(_, _, _) => Answer(201, [], None, false)
    case Version => Answer(200, [], None, false)
    case _ => Answer(404, [], None, false)
  }

  /** Which requests the gate turns away, and how: with a challenge, except where a token is asked for. */
  predicate TurnedAway(gate: State, r: Request) {
    if r.verb == Token then gate.credentials.Some? && r.authorization != Some(Basic(gate.credentials.value))
    else gate.requireToken && r.authorization.None?
  }

  function ToldAnswer(hash: Hash, gate: State, events: seq<Event>, r: Request): Answer {
    if TurnedAway(gate, r) then Answer(401, [], None, r.verb != Token)
    else if r.verb == Token then Answer(200, TOKEN, None, false)
    else AnswerAfter(hash, events, r.verb)
  }

  /** The gate never moves, and uploads are numbered as they are opened. */
  ghost predicate Gated(gate: State, s: State, events: seq<Event>) {
    s.requireToken == gate.requireToken && s.credentials == gate.credentials && s.nextUpload == UploadsIn(events)
  }

  lemma GatedGrows(hash: Hash, gate: State, s: State, events: seq<Event>, client: nat, r: Request)
    requires Gated(gate, s, events)
    ensures Gated(gate, Serve(hash, s, r).state, events + [Event(client, r, Serve(hash, s, r).answer)])
  {
    var more := events + [Event(client, r, Serve(hash, s, r).answer)];
    assert more[..|more| - 1] == events;
  }

  lemma {:induction false} GateStands(hash: Hash, gate: State, requests: seq<(nat, Request)>)
    ensures Gated(gate, Served(hash, gate, requests).state, Served(hash, gate, requests).events)
    decreases requests
  {
    if requests != [] {
      var front := requests[..|requests| - 1];
      GateStands(hash, gate, front);
      var before := Served(hash, gate, front);
      GatedGrows(hash, gate, before.state, before.events, requests[|requests| - 1].0, requests[|requests| - 1].1);
    }
  }

  lemma AnswerIsTold(hash: Hash, gate: State, s: State, events: seq<Event>, r: Request)
    requires Told(hash, s, events) && Gated(gate, s, events)
    ensures Serve(hash, s, r).answer == ToldAnswer(hash, gate, events, r)
  {
    match r.verb
    case Complete(_, session, _, _) => assert Received(s.uploads, session) == SessionBytes(events, session);
    case GetBlob(at) => assert Look(s.blobs, at) == BlobAt(hash, events, at);
    case GetManifest(repository, reference) =>
      assert Look(s.manifests, Key(repository, reference)) == ManifestAt(hash, events, Key(repository, reference));
    case _ =>
  }

  /**
   * Under every interleaving, each answer is told by the requests before it: a read answers the last
   * bytes pushed at what it names, or that nothing was, and every other verb what it did.
   */
  lemma {:induction false} EveryAnswerIsTold(hash: Hash, gate: State, requests: seq<(nat, Request)>, k: nat)
    requires k < |requests|
    ensures var events := Served(hash, gate, requests).events;
      events[k].client == requests[k].0 && events[k].request == requests[k].1
      && events[k].answer == ToldAnswer(hash, gate, events[..k], requests[k].1)
    decreases requests
  {
    var n: nat := |requests| - 1;
    var front := requests[..n];
    var before := Served(hash, gate, front);
    var events := Served(hash, gate, requests).events;
    if k < n {
      EveryAnswerIsTold(hash, gate, front, k);
      assert events[..k] == before.events[..k];
    } else {
      RegistryIsItsHistory(hash, gate, front);
      GateStands(hash, gate, front);
      AnswerIsTold(hash, gate, before.state, before.events, requests[n].1);
      assert events[..n] == before.events;
    }
  }

  /** Anyone the gate lets in reads these bytes there, or that there are none; and reading moves nothing. */
  ghost predicate ReadsAs(hash: Hash, s: State, verb: Verb, bytes: Option<seq<Byte>>) {
    forall authorization: Option<Authorization> :: authorization.Some? || !s.requireToken ==>
      Serve(hash, s, Request(verb, authorization)) == Reply(s, Reading(bytes))
  }

  lemma BlobsRead(hash: Hash, s: State, digest: Digest)
    ensures ReadsAs(hash, s, GetBlob(digest), Look(s.blobs, digest))
  {
  }

  lemma ManifestsRead(hash: Hash, s: State, repository: string, reference: string)
    ensures ReadsAs(hash, s, GetManifest(repository, reference), Look(s.manifests, Key(repository, reference)))
  {
  }

  // Sessions belong to whoever opened them.

  /** Every session handed out so far is one of the first `n`, and no two were the same. */
  ghost predicate Numbered(n: nat, events: seq<Event>) {
    && (forall i, session :: 0 <= i < |events| && Opens(events[i], session) ==> ValueOf(session) < n)
    && (forall i, j, session :: 0 <= i < j < |events| && Opens(events[i], session) ==> !Opens(events[j], session))
  }

  lemma NumberedGrows(hash: Hash, s: State, events: seq<Event>, client: nat, r: Request)
    requires Numbered(s.nextUpload, events)
    ensures var reply := Serve(hash, s, r);
      Numbered(reply.state.nextUpload, events + [Event(client, r, reply.answer)])
  {
    DecimalReadsBack(s.nextUpload);
    var reply := Serve(hash, s, r);
    var e := Event(client, r, reply.answer);
    var more := events + [e];
    assert s.nextUpload <= reply.state.nextUpload;
    forall session | Opens(e, session)
      ensures session == Decimal(s.nextUpload) && reply.state.nextUpload == s.nextUpload + 1
    {
    }
    forall i, session | 0 <= i < |more| && Opens(more[i], session) ensures ValueOf(session) < reply.state.nextUpload {
    }
    forall i, j, session | 0 <= i < j < |more| && Opens(more[i], session) ensures !Opens(more[j], session) {
    }
  }

  /** No session is handed out twice. */
  lemma {:induction false} SessionsAreFresh(hash: Hash, gate: State, requests: seq<(nat, Request)>)
    ensures Numbered(Served(hash, gate, requests).state.nextUpload, Served(hash, gate, requests).events)
    decreases requests
  {
    if requests != [] {
      var front := requests[..|requests| - 1];
      SessionsAreFresh(hash, gate, front);
      var before := Served(hash, gate, front);
      NumberedGrows(hash, before.state, before.events, requests[|requests| - 1].0, requests[|requests| - 1].1);
    }
  }

  predicate OpenedBy(events: seq<Event>, k: nat, session: string, client: nat)
    requires k <= |events|
  {
    exists j :: 0 <= j < k && Opens(events[j], session) && events[j].client == client
  }

  /** Clients that keep to the sessions they were given. */
  ghost predicate Owned(events: seq<Event>) {
    forall k, session :: 0 <= k < |events| && (Appends(events[k], session) || Completes(events[k], session))
      ==> OpenedBy(events, k, session, events[k].client)
  }

  lemma {:induction false} UnappendedIsEmpty(events: seq<Event>, session: string)
    requires forall j :: 0 <= j < |events| ==> !Appends(events[j], session)
    ensures SessionBytes(events, session) == []
  {
    if events != [] {
      UnappendedIsEmpty(events[..|events| - 1], session);
    }
  }

  /** Whoever appended to a session is whoever completes it. */
  lemma AppenderCompletes(n: nat, events: seq<Event>, j: nat, k: nat, session: string)
    requires Numbered(n, events) && Owned(events)
    requires j < k < |events| && Completes(events[k], session)
    ensures Appends(events[j], session) ==> events[j].client == events[k].client
  {
    assert OpenedBy(events, k, session, events[k].client);
    assert Appends(events[j], session) ==> OpenedBy(events, j, session, events[j].client);
  }

  /** A client that never appends. */
  predicate NeverAppends(events: seq<Event>, client: nat) {
    forall j :: 0 <= j < |events| && events[j].client == client ==> !events[j].request.verb.Append?
  }

  /** Whatever the others do meanwhile, an upload its owner sent in one piece is stored as that piece. */
  lemma OwnUploadsAreWhole(n: nat, events: seq<Event>, k: nat, session: string)
    requires Numbered(n, events) && Owned(events)
    requires k < |events| && Completes(events[k], session) && NeverAppends(events, events[k].client)
    ensures Stored(events[..k + 1]) == events[k].request.verb.body
  {
    var before := events[..k + 1][..k];
    forall j | 0 <= j < |before| ensures !Appends(before[j], session) {
      AppenderCompletes(n, events, j, k, session);
      assert before[j] == events[j];
    }
    UnappendedIsEmpty(before, session);
    assert [] + events[k].request.verb.body == events[k].request.verb.body;
  }

  /** Every completed upload was one this crate's client sends: whole, in one piece, under its own digest. */
  ghost predicate AllPushed(hash: Hash, events: seq<Event>) {
    forall k, session :: 0 <= k < |events| && Completes(events[k], session) ==>
      events[k].request.verb.digest == Some(hash(events[k].request.verb.body)) && NeverAppends(events, events[k].client)
  }

  /** Completion `k` is where `digest` got the bytes it holds. */
  predicate CameFrom(hash: Hash, events: seq<Event>, digest: Digest, k: nat) {
    && k < |events| && events[k].request.verb.Complete? && Admitted(events[k])
    && KeyOf(hash, events[..k + 1]) == digest && Some(Stored(events[..k + 1])) == BlobAt(hash, events, digest)
  }

  lemma {:induction false} BlobsComeFromCompletions(hash: Hash, events: seq<Event>, digest: Digest) returns (k: nat)
    requires BlobAt(hash, events, digest).Some?
    ensures CameFrom(hash, events, digest, k)
  {
    var n := |events| - 1;
    var e, before := events[n], events[..n];
    if e.request.verb.Complete? && Admitted(e) && KeyOf(hash, events) == digest {
      assert events[..n + 1] == events;
      k := n;
    } else {
      k := BlobsComeFromCompletions(hash, before, digest);
      assert before[..k + 1] == events[..k + 1];
    }
  }

  lemma CompletionIsAddressed(hash: Hash, n: nat, events: seq<Event>, k: nat)
    requires Numbered(n, events) && Owned(events) && AllPushed(hash, events)
    requires k < |events| && events[k].request.verb.Complete? && Admitted(events[k])
    ensures hash(Stored(events[..k + 1])) == KeyOf(hash, events[..k + 1])
  {
    assert Completes(events[k], events[k].request.verb.session);
    OwnUploadsAreWhole(n, events, k, events[k].request.verb.session);
  }

  /** The registry checks no digest, and needs to check none: pushed blobs are content-addressed by their clients. */
  lemma PushedBlobsAreContentAddressed(hash: Hash, s: State, events: seq<Event>, digest: Digest)
    requires Told(hash, s, events) && Numbered(s.nextUpload, events)
    requires Owned(events) && AllPushed(hash, events)
    requires digest in s.blobs
    ensures hash(s.blobs[digest]) == digest
  {
    assert Look(s.blobs, digest) == BlobAt(hash, events, digest);
    var k := BlobsComeFromCompletions(hash, events, digest);
    CompletionIsAddressed(hash, s.nextUpload, events, k);
  }
}
