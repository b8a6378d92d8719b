/** Several clients pushing to one registry at once, one request at a time, in any order. */
module Pushing {
  import opened Common
  import opened FakeRegistry
  import opened Oci

  datatype Job = BlobJob(bytes: seq<Byte>) | ManifestJob(tag: string, manifest: seq<Byte>)

  datatype Doing =
    | Idle
    | Opening(bytes: seq<Byte>)
    | Closing(sent: seq<Byte>, session: string)
    | Tagging(tag: string, manifest: seq<Byte>)
    | Stuck

  /** Where a request stands: not yet sent, answered with a challenge, or to be sent again with a token. */
  datatype Phase = First | Dancing | Retry

  datatype Pusher = Pusher(
    client: Client,
    token: Option<string>,
    doing: Doing,
    phase: Phase,
    jobs: seq<Job>,
    done: seq<Job>)

  datatype System = System(state: State, pushers: seq<Pusher>, events: seq<Event>)

  function Resume(p: Pusher): Pusher {
    if p.doing.Idle? && p.jobs != [] then
      p.(jobs := p.jobs[1..], phase := First, doing := match p.jobs[0]
        case BlobJob(bytes) => Opening(bytes)
        case ManifestJob(tag, manifest) => Tagging(tag, manifest))
    else p
  }

  predicate Active(p: Pusher) {
    !p.doing.Idle? && !p.doing.Stuck?
  }

  function VerbOf(hash: Hash, p: Pusher): Verb {
    match p.doing
    case Opening(_) => StartUpload(p.client.repository)
    case Closing(bytes, session) => Complete(p.client.repository, session, Some(hash(bytes)), bytes)
    case Tagging(tag, manifest) => PutManifest(p.client.repository, tag, manifest)
    case _ => Other
  }

  function RequestOf(hash: Hash, p: Pusher): Request {
    if p.phase == Dancing then Request(Token, BasicOf(p.client.credentials))
    else Request(VerbOf(hash, p), BearerOf(p.token))
  }

  /** What the client makes of the answer to the request it was waiting for. */
  function Concluded(p: Pusher, answer: Answer): Pusher {
    match p.doing
    case Opening(bytes) =>
      (match SessionOf(answer)
       case Ok(session) => p.(doing := Closing(bytes, session), phase := First)
       case Err(_) => p.(doing := Stuck, phase := First))
    case Closing(bytes, _) =>
      if Succeeded(answer.status) then p.(doing := Idle, phase := First, done := p.done + [BlobJob(bytes)]) else p.(doing := Stuck, phase := First)
    case Tagging(tag, manifest) =>
      if Succeeded(answer.status) then p.(doing := Idle, phase := First, done := p.done + [ManifestJob(tag, manifest)])
      else p.(doing := Stuck, phase := First)
    case _ => p
  }

  function Hear<S>(r: Remote<S>, p: Pusher, answer: Answer): Pusher {
    match p.phase
    case Dancing =>
      if !Succeeded(answer.status) || r.readToken(answer.body).None? then p.(doing := Stuck, phase := First)
      else p.(token := r.readToken(answer.body), phase := Retry)
    case First =>
      if answer.status != 401 then Concluded(p, answer)
      else if answer.challenge then p.(phase := Dancing)
      else p.(doing := Stuck, phase := First)
    case Retry => Concluded(p, answer)
  }

  // One client's requests, taken one at a time, are the sequence `Push` makes.

  datatype Alone<+S> = Alone(state: S, pusher: Pusher)

  function Turn<S>(r: Remote<S>, a: Alone<S>): Alone<S> {
    var p := Resume(a.pusher);
    if !Active(p) then a
    else
      var (next, answer) := r.serve(a.state, RequestOf(r.hash, p));
      Alone(next, Hear(r, p, answer))
  }

  function Times<A>(f: A -> A, a: A, n: nat): A
    decreases n
  {
    if n == 0 then a else f(Times(f, a, n - 1))
  }

  lemma {:induction false} TimesAdd<A>(f: A -> A, a: A, m: nat, n: nat)
    ensures Times(f, Times(f, a, m), n) == Times(f, a, m + n)
    decreases n
  {
    if n > 0 {
      TimesAdd(f, a, m, n - 1);
    }
  }

  function Turns<S>(r: Remote<S>, a: Alone<S>, n: nat): Alone<S> {
    Times((x: Alone<S>) => Turn(r, x), a, n)
  }

  lemma TurnsOnce<S>(r: Remote<S>, a: Alone<S>, n: nat)
    ensures Turns(r, a, 0) == a && Turns(r, a, n + 1) == Turn(r, Turns(r, a, n))
  {
  }

  /** Where a client stands after a whole `send`. */
  ghost predicate StandsAfter<S>(p: Pusher, sent: Sent<S, Answer>, a: Alone<S>) {
    && a.state == sent.state
    && a.pusher == match sent.result
      case Ok(answer) => Concluded(p.(token := sent.token), answer)
      case Err(_) => p.(token := sent.token, doing := Stuck, phase := First)
  }

  /** Against any registry at all, a client left alone sends what `send` sends: one, two or three requests. */
  lemma AloneIsSend<S>(r: Remote<S>, s: S, p: Pusher)
    requires Active(p) && p.phase == First
    ensures exists n: nat ::
      (1 <= n <= 3 && StandsAfter(p, SendSpec(r, p.client, s, p.token, VerbOf(r.hash, p)), Turns(r, Alone(s, p), n)))
  {
    var sent := SendSpec(r, p.client, s, p.token, VerbOf(r.hash, p));
    var one := Turn(r, Alone(s, p));
    TurnsOnce(r, Alone(s, p), 0);
    TurnsOnce(r, Alone(s, p), 1);
    TurnsOnce(r, Alone(s, p), 2);
    if one.pusher.phase != Dancing {
      assert StandsAfter(p, sent, Turns(r, Alone(s, p), 1));
    } else if Turn(r, one).pusher.doing.Stuck? {
      assert StandsAfter(p, sent, Turns(r, Alone(s, p), 2));
    } else {
      assert StandsAfter(p, sent, Turns(r, Alone(s, p), 3));
    }
  }

  lemma TurnsAdd<S>(r: Remote<S>, a: Alone<S>, m: nat, n: nat)
    ensures Turns(r, Turns(r, a, m), n) == Turns(r, a, m + n)
  {
    TimesAdd((x: Alone<S>) => Turn(r, x), a, m, n);
  }

  /** A job, as `Push` does it. */
  function JobSpec<S>(r: Remote<S>, c: Client, s: S, token: Option<string>, job: Job): Sent<S, Digest> {
    match job
    case BlobJob(bytes) => BlobSpec(r, c, s, token, bytes)
    case ManifestJob(tag, manifest) => ManifestSpec(r, c, s, token, tag, manifest)
  }

  /** Where a client stands after a whole job: done with it, or stuck in it. */
  ghost predicate JobDone<S>(p: Pusher, job: Job, sent: Sent<S, Digest>, a: Alone<S>) {
    && a.state == sent.state
    && a.pusher == if sent.result.Ok? then p.(token := sent.token, doing := Idle, phase := First, done := p.done + [job])
                   else p.(token := sent.token, doing := Stuck, phase := First)
  }

  /** The job a client is in the middle of, when all that is left of it is one request. */
  function LastOf(p: Pusher): Option<Job> {
    match p.doing
    case Closing(bytes, _) => Some(BlobJob(bytes))
    case Tagging(tag, manifest) => Some(ManifestJob(tag, manifest))
    case _ => None
  }

  /** The last request of a job, and where it leaves the client. */
  lemma AloneFinishes<S>(r: Remote<S>, s: S, p: Pusher, job: Job, digest: Digest) returns (n: nat)
    requires p.phase == First && LastOf(p) == Some(job)
    ensures n > 0
    ensures var sent := SendSpec(r, p.client, s, p.token, VerbOf(r.hash, p));
      JobDone(p, job, Sent(sent.state, sent.token, Finished(sent.result, digest)), Turns(r, Alone(s, p), n))
  {
    AloneIsSend(r, s, p);
    var sent := SendSpec(r, p.client, s, p.token, VerbOf(r.hash, p));
    n :| 1 <= n <= 3 && StandsAfter(p, sent, Turns(r, Alone(s, p), n));
  }

  /** The first half of a blob push: an upload opened, or a client stuck. */
  lemma AloneStarts<S>(r: Remote<S>, s: S, p: Pusher) returns (m: nat)
    requires p.phase == First && p.doing.Opening?
    ensures m > 0
    ensures var start := SendSpec(r, p.client, s, p.token, StartUpload(p.client.repository));
      Turns(r, Alone(s, p), m) == Alone(start.state,
        if start.result.Ok? && SessionOf(start.result.value).Ok?
        then p.(token := start.token, doing := Closing(p.doing.bytes, SessionOf(start.result.value).value), phase := First)
        else p.(token := start.token, doing := Stuck, phase := First))
  {
    AloneIsSend(r, s, p);
    var start := SendSpec(r, p.client, s, p.token, StartUpload(p.client.repository));
    m :| 1 <= m <= 3 && StandsAfter(p, start, Turns(r, Alone(s, p), m));
  }

  /** Taken a request at a time, a blob is pushed as `Push` pushes it. */
  lemma AloneIsBlob<S>(r: Remote<S>, s: S, p: Pusher) returns (n: nat)
    requires p.phase == First && p.doing.Opening?
    ensures n > 0
    ensures JobDone(p, BlobJob(p.doing.bytes), BlobSpec(r, p.client, s, p.token, p.doing.bytes), Turns(r, Alone(s, p), n))
  {
    var bytes := p.doing.bytes;
    var start := SendSpec(r, p.client, s, p.token, StartUpload(p.client.repository));
    var m := AloneStarts(r, s, p);
    n := m;
    if start.result.Ok? && SessionOf(start.result.value).Ok? {
      var half := p.(token := start.token, doing := Closing(bytes, SessionOf(start.result.value).value), phase := First);
      var k := AloneFinishes(r, start.state, half, BlobJob(bytes), r.hash(bytes));
      TurnsAdd(r, Alone(s, p), m, k);
      HalfIsWhole(p, half, BlobJob(bytes), BlobSpec(r, p.client, s, p.token, bytes), Turns(r, Alone(start.state, half), k));
      n := m + k;
    }
  }

  /** A job done from halfway is the job done. */
  lemma HalfIsWhole<S>(p: Pusher, half: Pusher, job: Job, sent: Sent<S, Digest>, a: Alone<S>)
    requires half == p.(token := half.token, doing := half.doing, phase := First)
    requires JobDone(half, job, sent, a)
    ensures JobDone(p, job, sent, a)
  {
  }

  /** A job just begun, brought to its end. */
  lemma AloneEnds<S>(r: Remote<S>, s: S, p: Pusher, job: Job) returns (n: nat)
    requires p.phase == First && p.doing == match job
      case BlobJob(bytes) => Opening(bytes)
      case ManifestJob(tag, manifest) => Tagging(tag, manifest)
    ensures n > 0
    ensures JobDone(p, job, JobSpec(r, p.client, s, p.token, job), Turns(r, Alone(s, p), n))
  {
    match job
    case BlobJob(bytes) => n := AloneIsBlob(r, s, p);
    case ManifestJob(_, manifest) => n := AloneFinishes(r, s, p, job, r.hash(manifest));
  }

  /** One job from the front of the list. */
  lemma AloneIsJob<S>(r: Remote<S>, s: S, p: Pusher) returns (n: nat)
    requires p.doing.Idle? && p.phase == First && p.jobs != []
    ensures n > 0
    ensures JobDone(p.(jobs := p.jobs[1..]), p.jobs[0], JobSpec(r, p.client, s, p.token, p.jobs[0]), Turns(r, Alone(s, p), n))
  {
    var begun := Resume(p);
    n := AloneEnds(r, s, begun, p.jobs[0]);
    ResumingIsNoTurn(r, s, p, n);
    HalfIsWhole(p.(jobs := p.jobs[1..]), begun, p.jobs[0], JobSpec(r, p.client, s, p.token, p.jobs[0]), Turns(r, Alone(s, begun), n));
  }

  lemma {:induction false} ResumingIsNoTurn<S>(r: Remote<S>, s: S, p: Pusher, n: nat)
    requires n > 0 && p.doing.Idle? && p.jobs != []
    ensures Turns(r, Alone(s, p), n) == Turns(r, Alone(s, Resume(p)), n)
    decreases n
  {
    TurnsOnce(r, Alone(s, p), n - 1);
    TurnsOnce(r, Alone(s, Resume(p)), n - 1);
    if n > 1 {
      ResumingIsNoTurn(r, s, p, n - 1);
    } else {
      assert Turn(r, Alone(s, p)) == Turn(r, Alone(s, Resume(p)));
    }
  }

  /** Jobs one after another, as `Push` does them, up to the first that fails. */
  function JobsSpec<S>(r: Remote<S>, c: Client, s: S, token: Option<string>, jobs: seq<Job>): Sent<S, ()>
    decreases jobs
  {
    if jobs == [] then Sent(s, token, Ok(()))
    else
      var first := JobSpec(r, c, s, token, jobs[0]);
      match first.result
      case Err(error) => Sent(first.state, first.token, Err(error))
      case Ok(_) => JobsSpec(r, c, first.state, first.token, jobs[1..])
  }

  /** A client at the end of its list, or stuck on the way. */
  ghost predicate ListDone<S>(done: seq<Job>, sent: Sent<S, ()>, a: Alone<S>) {
    && a.state == sent.state && a.pusher.token == sent.token
    && if sent.result.Ok? then a.pusher.doing.Idle? && a.pusher.jobs == [] && a.pusher.done == done
       else a.pusher.doing.Stuck?
  }

  /** Left alone against any registry, a client does its jobs as `Push` would, and stops where `Push` would. */
  lemma {:induction false} AloneIsJobs<S>(r: Remote<S>, s: S, p: Pusher) returns (n: nat)
    requires p.doing.Idle? && p.phase == First
    ensures ListDone(p.done + p.jobs, JobsSpec(r, p.client, s, p.token, p.jobs), Turns(r, Alone(s, p), n))
    decreases p.jobs
  {
    if p.jobs == [] {
      n := 0;
      TurnsOnce(r, Alone(s, p), 0);
      assert p.done + p.jobs == p.done;
    } else {
      var m := AloneIsJob(r, s, p);
      var first := JobSpec(r, p.client, s, p.token, p.jobs[0]);
      n := m;
      if first.result.Ok? {
        var next := p.(jobs := p.jobs[1..], token := first.token, done := p.done + [p.jobs[0]]);
        AfterJob(p, first, next, Turns(r, Alone(s, p), m));
        var k := AloneIsJobs(r, first.state, next);
        TurnsAdd(r, Alone(s, p), m, k);
        assert p.done + p.jobs == (p.done + [p.jobs[0]]) + p.jobs[1..];
        n := m + k;
      }
    }
  }

  lemma AfterJob<S>(p: Pusher, sent: Sent<S, Digest>, next: Pusher, a: Alone<S>)
    requires p.doing.Idle? && p.phase == First && p.jobs != [] && sent.result.Ok?
    requires next == p.(jobs := p.jobs[1..], token := sent.token, done := p.done + [p.jobs[0]])
    requires JobDone(p.(jobs := p.jobs[1..]), p.jobs[0], sent, a)
    ensures a == Alone(sent.state, next)
  {
  }

  /** A publish is three jobs: its config, its module, and the manifest that names both. */
  function PublishJobs(hash: Hash, tag: string, config: seq<Byte>, wasm: seq<Byte>, manifestOf: (Digest, Digest) -> seq<Byte>): seq<Job> {
    [BlobJob(config), BlobJob(wasm), ManifestJob(tag, manifestOf(hash(config), hash(wasm)))]
  }

  lemma BlobsAnswerTheirDigest<S>(r: Remote<S>, c: Client, s: S, token: Option<string>, bytes: seq<Byte>)
    ensures BlobSpec(r, c, s, token, bytes).result.Ok? ==> BlobSpec(r, c, s, token, bytes).result == Ok(r.hash(bytes))
  {
  }

  lemma PublishIsItsJobs<S>(r: Remote<S>, c: Client, s: S, token: Option<string>, tag: string, config: seq<Byte>, wasm: seq<Byte>,
                            manifestOf: (Digest, Digest) -> seq<Byte>)
    ensures var jobs, whole := JobsSpec(r, c, s, token, PublishJobs(r.hash, tag, config, wasm, manifestOf)),
                               PublishSpec(r, c, s, token, tag, config, wasm, manifestOf);
      && jobs.state == whole.state && jobs.token == whole.token
      && match whole.result case Ok(_) => jobs.result.Ok? case Err(error) => jobs.result == Err(error)
  {
    var all := PublishJobs(r.hash, tag, config, wasm, manifestOf);
    BlobsAnswerTheirDigest(r, c, s, token, config);
    var one := BlobSpec(r, c, s, token, config);
    assert all[1..] == [BlobJob(wasm), all[2]] && all[1..][1..] == [all[2]] && [all[2]][1..] == [];
    if one.result.Ok? {
      BlobsAnswerTheirDigest(r, c, one.state, one.token, wasm);
      var two := BlobSpec(r, c, one.state, one.token, wasm);
      assert JobsSpec(r, c, one.state, one.token, all[1..]) ==
        if two.result.Ok? then JobsSpec(r, c, two.state, two.token, [all[2]]) else Sent(two.state, two.token, Err(two.result.error));
      if two.result.Ok? {
        var three := ManifestSpec(r, c, two.state, two.token, tag, all[2].manifest);
        assert JobsSpec(r, c, three.state, three.token, []) == Sent(three.state, three.token, Ok(()));
      }
    }
  }

  // Everyone at once.

  function Step(hash: Hash, sys: System, i: nat): (after: System)
    ensures |after.pushers| == |sys.pushers|
  {
    if i >= |sys.pushers| || !Active(Resume(sys.pushers[i])) then sys
    else
      var p := Resume(sys.pushers[i]);
      var request := RequestOf(hash, p);
      var reply := Serve(hash, sys.state, request);
      System(reply.state, sys.pushers[i := Hear(Faked(hash), p, reply.answer)], sys.events + [Event(i, request, reply.answer)])
  }

  function Run(hash: Hash, sys: System, schedule: seq<nat>): (after: System)
    ensures |after.pushers| == |sys.pushers|
  {
    if schedule == [] then sys else Step(hash, Run(hash, sys, schedule[..|schedule| - 1]), schedule[|schedule| - 1])
  }

  /** Client `i` scheduled over and over. */
  function Only(i: nat, n: nat): seq<nat> {
    seq(n, _ => i)
  }

  lemma ScheduledOnce(hash: Hash, sys: System, schedule: seq<nat>, i: nat)
    ensures Run(hash, sys, schedule + [i]) == Step(hash, Run(hash, sys, schedule), i)
  {
    assert (schedule + [i])[..|schedule|] == schedule;
  }

  /** A client scheduled alone takes its own turns, and no other moves: what holds of a lone client holds of it. */
  lemma {:induction false} ScheduledAloneIsTurns(hash: Hash, sys: System, i: nat, n: nat)
    requires i < |sys.pushers|
    ensures var after, alone := Run(hash, sys, Only(i, n)), Turns(Faked(hash), Alone(sys.state, sys.pushers[i]), n);
      && after.state == alone.state
      && after.pushers[i] == alone.pusher
      && forall j :: 0 <= j < |sys.pushers| && j != i ==> after.pushers[j] == sys.pushers[j]
  {
    TurnsOnce(Faked(hash), Alone(sys.state, sys.pushers[i]), 0);
    if n > 0 {
      ScheduledAloneIsTurns(hash, sys, i, n - 1);
      TurnsOnce(Faked(hash), Alone(sys.state, sys.pushers[i]), n - 1);
      assert Only(i, n) == Only(i, n - 1) + [i];
      ScheduledOnce(hash, sys, Only(i, n - 1), i);
    }
  }

  /** Every job of a client the registry lets in succeeds. */
  lemma {:induction false} WelcomeJobsSucceed(hash: Hash, c: Client, s: State, token: Option<string>, jobs: seq<Job>)
    requires Welcome(s, c, token)
    ensures JobsSpec(Faked(hash), c, s, token, jobs).result.Ok?
    decreases jobs
  {
    if jobs != [] {
      match jobs[0] {
        case BlobJob(bytes) => BlobIsStored(hash, c, s, token, bytes);
        case ManifestJob(tag, manifest) => ManifestIsStored(hash, c, s, token, tag, manifest);
      }
      var first := JobSpec(Faked(hash), c, s, token, jobs[0]);
      WelcomeJobsSucceed(hash, c, first.state, first.token, jobs[1..]);
    }
  }

  /** A client the registry lets in finishes its whole list, when it is given its turns. */
  lemma WelcomeListsFinish(hash: Hash, sys: System, i: nat) returns (n: nat)
    requires i < |sys.pushers| && sys.pushers[i].doing.Idle? && sys.pushers[i].phase == First
    requires Welcome(sys.state, sys.pushers[i].client, sys.pushers[i].token)
    ensures var p := Run(hash, sys, Only(i, n)).pushers[i];
      p.doing.Idle? && p.jobs == [] && p.done == sys.pushers[i].done + sys.pushers[i].jobs
  {
    var p := sys.pushers[i];
    n := AloneIsJobs(Faked(hash), sys.state, p);
    WelcomeJobsSucceed(hash, p.client, sys.state, p.token, p.jobs);
    ScheduledAloneIsTurns(hash, sys, i, n);
  }

  predicate IsAnswered(e: Event) {
    e.request.verb == Token && Admitted(e)
  }

  /** How many tokens were minted for one client. */
  function TokensBy(events: seq<Event>, client: nat): nat {
    if events == [] then 0
    else
      var e := events[|events| - 1];
      TokensBy(events[..|events| - 1], client) + (if e.client == client && IsAnswered(e) then 1 else 0)
  }

  /** These clients append nothing, and complete only under the digest of what they send. */
  predicate OnlyPushes(hash: Hash, events: seq<Event>) {
    forall k :: 0 <= k < |events| ==>
      (match events[k].request.verb
       case Append(_, _, _) => false
       case Complete(_, _, digest, body) => digest == Some(hash(body))
       case _ => true)
  }

  /** What a client's own state says, the history bears out. */
  predicate Fits(hash: Hash, s: State, events: seq<Event>, p: Pusher, i: nat) {
    && (p.doing.Closing? ==> OpenedBy(events, |events|, p.doing.session, i))
    && TokensBy(events, i) == (if p.token.Some? then 1 else 0)
    && (p.phase == Dancing && Active(p) ==> p.token.None?)
    && (p.phase == Retry ==> p.token.Some?)
    && forall k :: 0 <= k < |p.done| ==> Kept(hash, s, events, p.client, i, p.done[k])
  }

  /** A job reported done: the blob is there, or the manifest was pushed, by this client. */
  predicate Kept(hash: Hash, s: State, events: seq<Event>, c: Client, i: nat, job: Job) {
    match job
    case BlobJob(bytes) => hash(bytes) in s.blobs
    case ManifestJob(tag, manifest) => exists j :: 0 <= j < |events| && Pushes(events[j], c, i, tag, manifest)
  }

  predicate Pushes(e: Event, c: Client, i: nat, tag: string, manifest: seq<Byte>) {
    e.client == i && Admitted(e) && e.request.verb == PutManifest(c.repository, tag, manifest)
  }

  lemma KeptLasts(hash: Hash, s: State, after: State, events: seq<Event>, e: Event, c: Client, i: nat, job: Job)
    requires Kept(hash, s, events, c, i, job) && s.blobs.Keys <= after.blobs.Keys
    ensures Kept(hash, after, events + [e], c, i, job)
  {
    if job.ManifestJob? {
      var j :| 0 <= j < |events| && Pushes(events[j], c, i, job.tag, job.manifest);
      assert Pushes((events + [e])[j], c, i, job.tag, job.manifest);
    }
  }

  /** Serving a request forgets no blob, and keeps every job done. */
  lemma AllKeptLast(hash: Hash, s: State, events: seq<Event>, e: Event, p: Pusher, i: nat, request: Request)
    requires forall k :: 0 <= k < |p.done| ==> Kept(hash, s, events, p.client, i, p.done[k])
    ensures forall k :: 0 <= k < |p.done| ==> Kept(hash, Serve(hash, s, request).state, events + [e], p.client, i, p.done[k])
  {
    assert s.blobs.Keys <= Serve(hash, s, request).state.blobs.Keys;
    forall k | 0 <= k < |p.done| ensures Kept(hash, Serve(hash, s, request).state, events + [e], p.client, i, p.done[k]) {
      KeptLasts(hash, s, Serve(hash, s, request).state, events, e, p.client, i, p.done[k]);
    }
  }

  ghost predicate Sound(hash: Hash, sys: System) {
    && Told(hash, sys.state, sys.events) && Numbered(sys.state.nextUpload, sys.events)
    && Owned(sys.events) && OnlyPushes(hash, sys.events)
    && forall i :: 0 <= i < |sys.pushers| ==> Fits(hash, sys.state, sys.events, sys.pushers[i], i)
  }

  lemma OpenedByLasts(events: seq<Event>, k: nat, session: string, client: nat, e: Event)
    requires k <= |events| && OpenedBy(events, k, session, client)
    ensures OpenedBy(events + [e], k, session, client)
    ensures OpenedBy(events + [e], |events| + 1, session, client)
  {
    var more := events + [e];
    var j :| 0 <= j < k && Opens(events[j], session) && events[j].client == client;
    assert Opens(more[j], session) && more[j].client == client;
  }

  /** One more event by a client that owns the session it uses. */
  lemma OwnedGrows(events: seq<Event>, e: Event)
    requires Owned(events)
    requires forall session :: Appends(e, session) || Completes(e, session) ==> OpenedBy(events, |events|, session, e.client)
    ensures Owned(events + [e])
  {
    var more := events + [e];
    forall k, session | 0 <= k < |more| && (Appends(more[k], session) || Completes(more[k], session))
      ensures OpenedBy(more, k, session, more[k].client)
    {
      if k < |events| {
        assert OpenedBy(events, k, session, events[k].client);
      }
      OpenedByLasts(events, k, session, more[k].client, e);
    }
  }

  /** What another client does leaves this one's account in order. */
  lemma OthersStillFit(hash: Hash, s: State, events: seq<Event>, p: Pusher, j: nat, i: nat, request: Request)
    requires Fits(hash, s, events, p, j) && i != j
    ensures var reply := Serve(hash, s, request);
      Fits(hash, reply.state, events + [Event(i, request, reply.answer)], p, j)
  {
    var reply := Serve(hash, s, request);
    var e := Event(i, request, reply.answer);
    assert (events + [e])[..|events|] == events;
    if p.doing.Closing? {
      OpenedByLasts(events, |events|, p.doing.session, j, e);
    }
    AllKeptLast(hash, s, events, e, p, j, request);
  }

  lemma ResumeFits(hash: Hash, s: State, events: seq<Event>, p: Pusher, i: nat)
    requires Fits(hash, s, events, p, i)
    ensures Fits(hash, s, events, Resume(p), i)
  {
  }

  /** The gate never challenges a client that shows a token. */
  lemma TokensAreHonoured(hash: Hash, s: State, r: Request)
    requires r.verb != Token && r.authorization.Some?
    ensures Serve(hash, s, r).answer.status != 401
  {
  }

  lemma DancerStillFits(hash: Hash, s: State, events: seq<Event>, p: Pusher, i: nat)
    requires Active(p) && Fits(hash, s, events, p, i) && p.phase == Dancing
    ensures var request := RequestOf(hash, p); var reply := Serve(hash, s, request);
      Fits(hash, reply.state, events + [Event(i, request, reply.answer)], Hear(Faked(hash), p, reply.answer), i)
  {
    var request := RequestOf(hash, p);
    var reply := Serve(hash, s, request);
    var e := Event(i, request, reply.answer);
    assert (events + [e])[..|events|] == events;
    AllKeptLast(hash, s, events, e, p, i, request);
    if p.doing.Closing? {
      OpenedByLasts(events, |events|, p.doing.session, i, e);
    }
  }

  lemma SenderStillFits(hash: Hash, s: State, events: seq<Event>, p: Pusher, i: nat)
    requires Active(p) && Fits(hash, s, events, p, i) && p.phase != Dancing
    ensures var request := RequestOf(hash, p); var reply := Serve(hash, s, request);
      Fits(hash, reply.state, events + [Event(i, request, reply.answer)], Hear(Faked(hash), p, reply.answer), i)
  {
    var request := RequestOf(hash, p);
    var reply := Serve(hash, s, request);
    var e := Event(i, request, reply.answer);
    var more := events + [e];
    assert more[..|events|] == events;
    AllKeptLast(hash, s, events, e, p, i, request);
    if p.token.Some? {
      TokensAreHonoured(hash, s, request);
    }
    match p.doing
    case Opening(_) =>
      if reply.answer.status == 202 {
        assert Opens(more[|events|], reply.answer.location.value) && more[|events|].client == i;
      }
    case Closing(_, session) => OpenedByLasts(events, |events|, session, i, e);
    case Tagging(tag, manifest) =>
      if p.phase != Dancing && Succeeded(reply.answer.status) {
        assert Pushes(more[|events|], p.client, i, tag, manifest);
      }
  }

  lemma StepIsSound(hash: Hash, sys: System, i: nat)
    requires Sound(hash, sys)
    ensures Sound(hash, Step(hash, sys, i))
  {
    if i < |sys.pushers| && Active(Resume(sys.pushers[i])) {
      var p := Resume(sys.pushers[i]);
      var request := RequestOf(hash, p);
      var reply := Serve(hash, sys.state, request);
      var e := Event(i, request, reply.answer);
      ResumeFits(hash, sys.state, sys.events, sys.pushers[i], i);
      ToldGrows(hash, sys.state, sys.events, i, request);
      NumberedGrows(hash, sys.state, sys.events, i, request);
      OwnedGrows(sys.events, e);
      OnlyPushesGrows(hash, sys.events, p, e);
      forall j | 0 <= j < |sys.pushers|
        ensures Fits(hash, reply.state, sys.events + [e], if j == i then Hear(Faked(hash), p, reply.answer) else sys.pushers[j], j)
      {
        if j != i {
          OthersStillFit(hash, sys.state, sys.events, sys.pushers[j], j, i, request);
        } else if p.phase == Dancing {
          DancerStillFits(hash, sys.state, sys.events, p, i);
        } else {
          SenderStillFits(hash, sys.state, sys.events, p, i);
        }
      }
    }
  }

  lemma OnlyPushesGrows(hash: Hash, events: seq<Event>, p: Pusher, e: Event)
    requires OnlyPushes(hash, events) && e.request == RequestOf(hash, p)
    ensures OnlyPushes(hash, events + [e])
  {
    var more := events + [e];
    assert forall k :: 0 <= k < |events| ==> more[k] == events[k];
  }

  /** Clients about to start, at a registry that holds nothing. */
  predicate IsStart(sys: System) {
    && sys.events == [] && sys.state.(requireToken := false, credentials := None) == EMPTY
    && forall i :: 0 <= i < |sys.pushers| ==>
      (sys.pushers[i].token.None? && sys.pushers[i].doing.Idle? && sys.pushers[i].phase == First && sys.pushers[i].done == [])
  }

  lemma {:induction false} RunsAreSound(hash: Hash, sys: System, schedule: seq<nat>)
    requires IsStart(sys)
    ensures Sound(hash, Run(hash, sys, schedule))
    decreases schedule
  {
    if schedule == [] {
    } else {
      RunsAreSound(hash, sys, schedule[..|schedule| - 1]);
      StepIsSound(hash, Run(hash, sys, schedule[..|schedule| - 1]), schedule[|schedule| - 1]);
    }
  }

  /** A push that names this key: at its reference, or at its digest. */
  predicate Names(hash: Hash, e: Event, key: string) {
    && e.request.verb.PutManifest? && Admitted(e)
    && (Key(e.request.verb.repository, e.request.verb.reference) == key
        || Key(e.request.verb.repository, hash(e.request.verb.body)) == key)
  }

  /** Push `l` is the last that names this key. */
  predicate Rules(hash: Hash, events: seq<Event>, key: string, l: nat) {
    && l < |events| && Names(hash, events[l], key)
    && forall k :: l < k < |events| ==> !Names(hash, events[k], key)
  }

  /** What a key holds is what the last push that named it sent. */
  lemma {:induction false} LastPushRules(hash: Hash, events: seq<Event>, key: string, j: nat) returns (l: nat)
    requires j < |events| && Names(hash, events[j], key)
    ensures j <= l && Rules(hash, events, key, l) && ManifestAt(hash, events, key) == Some(events[l].request.verb.body)
    decreases |events|
  {
    var n: nat := |events| - 1;
    if Names(hash, events[n], key) {
      l := n;
    } else {
      l := LastPushRules(hash, events[..n], key, j);
    }
  }

  /** From the push reported on, the reference reads back as that manifest until a later push names it, and then as that one's. */
  ghost predicate ReadsBack(hash: Hash, s: State, events: seq<Event>, j: nat, repository: string, reference: string) {
    exists l: nat :: j <= l && Rules(hash, events, Key(repository, reference), l)
      && ReadsAs(hash, s, GetManifest(repository, reference), Some(events[l].request.verb.body))
  }

  /** A manifest reported pushed was pushed, and reads back at its tag and at its digest until another is pushed there. */
  ghost predicate ManifestKept(hash: Hash, sys: System, i: nat, tag: string, manifest: seq<Byte>)
    requires i < |sys.pushers|
  {
    var c := sys.pushers[i].client;
    exists j: nat :: j < |sys.events| && Pushes(sys.events[j], c, i, tag, manifest)
      && ReadsBack(hash, sys.state, sys.events, j, c.repository, tag)
      && ReadsBack(hash, sys.state, sys.events, j, c.repository, hash(manifest))
  }

  lemma ManifestsReadBack(hash: Hash, sys: System, i: nat, tag: string, manifest: seq<Byte>)
    requires Sound(hash, sys) && i < |sys.pushers|
    requires Kept(hash, sys.state, sys.events, sys.pushers[i].client, i, ManifestJob(tag, manifest))
    ensures ManifestKept(hash, sys, i, tag, manifest)
  {
    var c, events := sys.pushers[i].client, sys.events;
    var j: nat :| j < |events| && Pushes(events[j], c, i, tag, manifest);
    var t := LastPushRules(hash, events, Key(c.repository, tag), j);
    var d := LastPushRules(hash, events, Key(c.repository, hash(manifest)), j);
    ManifestsRead(hash, sys.state, c.repository, tag);
    ManifestsRead(hash, sys.state, c.repository, hash(manifest));
    assert Look(sys.state.manifests, Key(c.repository, tag)) == ManifestAt(hash, events, Key(c.repository, tag));
    assert Look(sys.state.manifests, Key(c.repository, hash(manifest))) == ManifestAt(hash, events, Key(c.repository, hash(manifest)));
    assert ReadsBack(hash, sys.state, events, j, c.repository, tag);
    assert ReadsBack(hash, sys.state, events, j, c.repository, hash(manifest));
  }

  /** What was reported done is there to be read. */
  ghost predicate Delivered(hash: Hash, sys: System, i: nat, job: Job)
    requires i < |sys.pushers|
  {
    match job
    case BlobJob(bytes) => exists blob :: ReadsAs(hash, sys.state, GetBlob(hash(bytes)), Some(blob)) && hash(blob) == hash(bytes)
    case ManifestJob(tag, manifest) => ManifestKept(hash, sys, i, tag, manifest)
  }

  /**
   * However many clients push at once and however their requests fall: every blob the registry holds
   * is the one its digest names; every blob a client was told is pushed is there, and every manifest
   * reads back at its tag and its digest until another is pushed there; and no client had more than
   * one token minted.
   */
  lemma PushesDoNotInterfere(hash: Hash, sys: System, schedule: seq<nat>)
    requires IsStart(sys)
    ensures var after := Run(hash, sys, schedule);
      && (forall d :: d in after.state.blobs ==> hash(after.state.blobs[d]) == d)
      && (forall i: nat, k :: i < |after.pushers| && 0 <= k < |after.pushers[i].done| ==>
            Delivered(hash, after, i, after.pushers[i].done[k]))
      && (forall i :: 0 <= i < |after.pushers| ==> TokensBy(after.events, i) <= 1)
  {
    RunsAreSound(hash, sys, schedule);
    var after := Run(hash, sys, schedule);
    forall d | d in after.state.blobs ensures hash(after.state.blobs[d]) == d {
      PushedBlobsAreContentAddressed(hash, after.state, after.events, d);
    }
    forall i: nat, k | i < |after.pushers| && 0 <= k < |after.pushers[i].done|
      ensures Delivered(hash, after, i, after.pushers[i].done[k])
    {
      assert Fits(hash, after.state, after.events, after.pushers[i], i);
      var job := after.pushers[i].done[k];
      match job
      case ManifestJob(tag, manifest) => ManifestsReadBack(hash, after, i, tag, manifest);
      case BlobJob(bytes) =>
        BlobsRead(hash, after.state, hash(bytes));
        assert ReadsAs(hash, after.state, GetBlob(hash(bytes)), Some(after.state.blobs[hash(bytes)]));
    }
    forall i | 0 <= i < |after.pushers| ensures TokensBy(after.events, i) <= 1 {
      assert Fits(hash, after.state, after.events, after.pushers[i], i);
    }
  }
}
