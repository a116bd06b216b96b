/**
 * The gateway's HTTP controllers: `createUser`, which forwards a sign-up
 * to the user service, and `welcomeController`, which greets the five
 * services one after the other and aggregates their replies. The MQTT
 * round trip (`handleIncomingMessage`), the topic lists, `getClient` and
 * `randomUUID` are parameters.
 */
module Controllers {
  import opened Wrappers
  import opened Json
  import opened GatewayChecks

  /**
   * One request/reply round trip over MQTT: publish `message` on `topic`
   * and wait for the reply on `replyTopic`.
   */
  type Exchange = (string, string, Object) -> Result<Object, string>

  /** The `k`-th value `randomUUID()` returns during the call. */
  type Uuids = nat -> string

  datatype Request = Request(topic: string, replyTopic: string, message: Object)

  /** The reply to `a` with `correlationId` deleted (empty if none came). */
  function StrippedReply(exchange: Exchange, a: Request): Object {
    match exchange(a.topic, a.replyTopic, a.message)
    case Success(reply) => reply - {"correlationId"}
    case Failure(_) => map[]
  }

  /** How the Express handler ends. */
  datatype HttpOutcome =
    | Respond(status: int, body: Object)          // `res.status(..).send(..)` on success
    | SentError(sentStatus: Option<Value>, sentBody: Object) // sent by `handleServiceError`
    | Forwarded(error: string)                     // `next(error)`

  /** A controller run: the requests made, in order, and how it ended. */
  datatype ControllerRun = ControllerRun(asked: seq<Request>, outcome: HttpOutcome)

  /** The outcome decided by a non-passing `handleServiceError`. */
  function CheckOutcome(c: Check): HttpOutcome
    requires !c.Passed?
  {
    if c.Threw? then Forwarded(c.error) else SentError(c.status, c.body)
  }

  // ---------------------------------------------------------------------
  // createUser
  // ---------------------------------------------------------------------

  const UserCreationTopic: string := "POST/users"

  /**
   * `{ correlationId, replyTopic, ...req.body }`: the two gateway fields
   * come first, so a body key of the same name overrides them.
   */
  function UserMessage(correlationId: string, replyTopic: string, body: Object): (m: Object)
    ensures m.Keys == body.Keys + {"correlationId", "replyTopic"}
    ensures forall k :: k in body ==> m[k] == body[k]
    ensures "correlationId" !in body ==> m["correlationId"] == JStr(correlationId)
    ensures "replyTopic" !in body ==> m["replyTopic"] == JStr(replyTopic)
  {
    map["correlationId" := JStr(correlationId), "replyTopic" := JStr(replyTopic)] + body
  }

  /**
   * `createUser(req, res, next)` of the gateway: find 'POST/users', draw the
   * reply topic from the first UUID, get the client, send the body with the
   * second UUID as correlation id, drop `correlationId` from the reply and
   * let `handleServiceError` judge it. A passing reply is sent with 201
   * and without `status`, whether the service said 200 or 201.
   */
  function CreateUser(userTopics: seq<string>, body: Object, uuid: Uuids, client: Outcome<string>, exchange: Exchange): (run: ControllerRun)
    ensures UserCreationTopic !in userTopics ==>
      run == ControllerRun([], Forwarded("Topic " + UserCreationTopic + " not found"))
    ensures UserCreationTopic in userTopics && client.Fail? ==> run == ControllerRun([], Forwarded(client.error))
    ensures UserCreationTopic in userTopics && client.Pass? ==>
      && |run.asked| == 1
      && run.asked[0].topic == UserCreationTopic
      && run.asked[0].replyTopic == UserCreationTopic + "/" + uuid(0)
      && run.asked[0].message == UserMessage(uuid(1), UserCreationTopic + "/" + uuid(0), body)
    ensures run.outcome.Respond? <==>
      && |run.asked| == 1
      && var a := run.asked[0];
         exchange(a.topic, a.replyTopic, a.message).Success?
         && IsOk(exchange(a.topic, a.replyTopic, a.message).value)
    ensures run.outcome.Respond? ==>
      var a := run.asked[0];
      var reply := exchange(a.topic, a.replyTopic, a.message).value;
      run.outcome == Respond(201, reply - {"correlationId", "status"})
    ensures run.outcome.SentError? ==>
      && |run.asked| == 1
      && HandleServiceError("User_Microservice", StrippedReply(exchange, run.asked[0]))
         == Sent(run.outcome.sentStatus, run.outcome.sentBody)
    ensures |run.asked| == 1 ==>
      var a := run.asked[0];
      exchange(a.topic, a.replyTopic, a.message).Failure? ==>
        run.outcome == Forwarded(exchange(a.topic, a.replyTopic, a.message).error)
    ensures |run.asked| == 1 ==>
      var a := run.asked[0];
      exchange(a.topic, a.replyTopic, a.message).Success? ==>
        var c := HandleServiceError("User_Microservice", exchange(a.topic, a.replyTopic, a.message).value - {"correlationId"});
        !c.Passed? ==> run.outcome == CheckOutcome(c)
  {
    match FindTopic(userTopics, UserCreationTopic)
    case Failure(e) => ControllerRun([], Forwarded(e))
    case Success(topic) =>
      var replyTopic := topic + "/" + uuid(0);
      match client
      case Fail(e) => ControllerRun([], Forwarded(e))
      case Pass =>
        var req := Request(topic, replyTopic, UserMessage(uuid(1), replyTopic, body));
        match exchange(req.topic, req.replyTopic, req.message)
        case Failure(e) => ControllerRun([req], Forwarded(e))
        case Success(reply) =>
          var stripped := reply - {"correlationId"};
          assert IsOk(stripped) == IsOk(reply) by {
            assert Lookup(stripped, "status") == Lookup(reply, "status");
          }
          var c := HandleServiceError("User_Microservice", stripped);
          if c.Passed? then
            assert stripped - {"status"} == reply - {"correlationId", "status"};
            ControllerRun([req], Respond(201, stripped - {"status"}))
          else ControllerRun([req], CheckOutcome(c))
  }

  // ---------------------------------------------------------------------
  // welcomeController
  // ---------------------------------------------------------------------

  datatype Backend = UserBackend | AdminBackend | AdBackend | ChatBackend | NotificationBackend

  /** The order in which the services are asked and their replies checked. */
  const Backends: seq<Backend> := [UserBackend, AdminBackend, AdBackend, ChatBackend, NotificationBackend]

  /** Key of the backend in the aggregated response, also its name in errors. */
  function Key(b: Backend): string {
    match b
    case UserBackend => "user"
    case AdminBackend => "admin"
    case AdBackend => "ad"
    case ChatBackend => "chat"
    case NotificationBackend => "notification"
  }

  function TestTopic(b: Backend): string {
    Key(b) + "/test"
  }

  /** The greeting sent to each service; the user one reads "Hell". */
  function GreetingTo(b: Backend): string {
    match b
    case UserBackend => "Hell user service"
    case AdminBackend => "Hello admin service"
    case AdBackend => "Hello ad service"
    case ChatBackend => "Hello chat service"
    case NotificationBackend => "Hello notification service"
  }

  /** `{ correlationId, name: 'Gateway', message: <greeting>, replyTopic }`. */
  function WelcomeMessage(b: Backend, correlationId: string, replyTopic: string): Object {
    map[
      "correlationId" := JStr(correlationId),
      "name" := JStr("Gateway"),
      "message" := JStr(GreetingTo(b)),
      "replyTopic" := JStr(replyTopic)]
  }

  /** One greeting sent: to which backend, under which correlation id. */
  datatype Greeted = Greeted(backend: Backend, correlationId: string)

  /** The round trip of a greeting: its test topic, that plus "/1", the message. */
  function RequestOf(g: Greeted): (r: Request)
    ensures r.topic == TestTopic(g.backend) && r.replyTopic == r.topic + "/1"
    ensures r.message.Keys == {"correlationId", "name", "message", "replyTopic"}
    ensures r.message["correlationId"] == JStr(g.correlationId)
    ensures r.message["replyTopic"] == JStr(r.replyTopic)
    ensures r.message["message"] == JStr(GreetingTo(g.backend)) && r.message["name"] == JStr("Gateway")
  {
    var topic := TestTopic(g.backend);
    Request(topic, topic + "/1", WelcomeMessage(g.backend, g.correlationId, topic + "/1"))
  }

  /**
   * One greeting's round trip (`handleIncomingMessage` on `RequestOf(g)`):
   * the reply, or the error the wait ended with.
   */
  type Greet = Greeted -> Result<Object, string>

  /** The greetings sent and the replies collected by the sequential awaits. */
  datatype AskRun = AskRun(asked: seq<Greeted>, replies: seq<Object>, error: Option<string>)

  /** `findTopic` of each backend's test topic in that backend's list, in order. */
  function Lookups(bs: seq<Backend>, topicsOf: Backend -> seq<string>): (found: seq<Result<string, string>>)
    ensures |found| == |bs|
    ensures forall i :: 0 <= i < |bs| ==> found[i] == FindTopic(topicsOf(bs[i]), TestTopic(bs[i]))
  {
    if |bs| == 0 then [] else [FindTopic(topicsOf(bs[0]), TestTopic(bs[0]))] + Lookups(bs[1..], topicsOf)
  }

  /** A failed lookup means the test topic is not listed, and says so. */
  lemma LookupFailed(bs: seq<Backend>, topicsOf: Backend -> seq<string>, k: nat)
    ensures k < |bs| && Lookups(bs, topicsOf)[k].Failure? ==>
      && TestTopic(bs[k]) !in topicsOf(bs[k])
      && Lookups(bs, topicsOf)[k].error == "Topic " + TestTopic(bs[k]) + " not found"
  {
    if k < |bs| {
      assert |TestTopic(bs[k])| > 0;
    }
  }

  /**
   * The awaits of `welcomeController`, from backend `bs[0]` on: each uses
   * its test-topic lookup `found[i]`, sends its greeting with the next
   * UUID and waits for the reply; the first failure ends the sequence.
   */
  function AskAll(found: seq<Result<string, string>>, bs: seq<Backend>, first: nat, uuid: Uuids, greet: Greet): (run: AskRun)
    requires |found| == |bs|
    ensures |run.replies| <= |run.asked| <= |bs|
    ensures run.error.None? <==> |run.replies| == |bs|
    ensures run.error.None? ==> |run.asked| == |bs|
    ensures run.error.Some? ==> |run.asked| <= |run.replies| + 1
    decreases |bs|
  {
    if |bs| == 0 then AskRun([], [], None)
    else
      match found[0]
      case Failure(e) => AskRun([], [], Some(e))
      case Success(_) =>
        var g := Greeted(bs[0], uuid(first));
        match greet(g)
        case Failure(e) => AskRun([g], [], Some(e))
        case Success(reply) =>
          var rest := AskAll(found[1..], bs[1..], first + 1, uuid, greet);
          AskRun([g] + rest.asked, [reply] + rest.replies, rest.error)
  }

  /** One step of `AskAll`: a run that greeted anyone found `bs[0]` and greeted it first. */
  lemma AskAllStep(found: seq<Result<string, string>>, bs: seq<Backend>, first: nat, uuid: Uuids, greet: Greet)
    requires |found| == |bs|
    requires |AskAll(found, bs, first, uuid, greet).asked| > 0
    ensures found[0].Success?
    ensures var g := Greeted(bs[0], uuid(first));
      var run := AskAll(found, bs, first, uuid, greet);
      var rest := AskAll(found[1..], bs[1..], first + 1, uuid, greet);
      && run.asked[0] == g
      && (greet(g).Failure? ==> run == AskRun([g], [], Some(greet(g).error)))
      && (greet(g).Success? ==> run == AskRun([g] + rest.asked, [greet(g).value] + rest.replies, rest.error))
  {
  }

  /**
   * Greeting `i` goes to backend `bs[i]`, whose test topic was found,
   * under the `i`-th fresh correlation id.
   */
  lemma {:induction false} AskedAt(found: seq<Result<string, string>>, bs: seq<Backend>, first: nat, uuid: Uuids, greet: Greet, i: nat)
    requires |found| == |bs|
    requires i < |AskAll(found, bs, first, uuid, greet).asked|
    ensures AskAll(found, bs, first, uuid, greet).asked[i] == Greeted(bs[i], uuid(first + i))
    ensures found[i].Success?
    decreases i
  {
    AskAllStep(found, bs, first, uuid, greet);
    if i > 0 {
      var run := AskAll(found, bs, first, uuid, greet);
      var rest := AskAll(found[1..], bs[1..], first + 1, uuid, greet);
      assert run.asked[i] == rest.asked[i - 1];
      AskedAt(found[1..], bs[1..], first + 1, uuid, greet, i - 1);
      assert bs[1..][i - 1] == bs[i] && found[1..][i - 1] == found[i];
    }
  }

  /**
   * Reply `i` is what greeting `i` got back; where the replies stop short
   * of the greetings, the last greeting's wait failed with the run's error.
   */
  lemma {:induction false} RepliedAt(found: seq<Result<string, string>>, bs: seq<Backend>, first: nat, uuid: Uuids, greet: Greet, i: nat)
    requires |found| == |bs|
    requires i < |AskAll(found, bs, first, uuid, greet).asked|
    ensures var run := AskAll(found, bs, first, uuid, greet);
      i < |run.replies| ==> greet(run.asked[i]) == Success(run.replies[i])
    ensures var run := AskAll(found, bs, first, uuid, greet);
      i == |run.replies| ==> run.error.Some? && greet(run.asked[i]) == Failure(run.error.value)
    decreases i
  {
    AskAllStep(found, bs, first, uuid, greet);
    if i > 0 {
      var run := AskAll(found, bs, first, uuid, greet);
      var rest := AskAll(found[1..], bs[1..], first + 1, uuid, greet);
      assert run.asked[i] == rest.asked[i - 1];
      assert i < |run.replies| ==> run.replies[i] == rest.replies[i - 1];
      RepliedAt(found[1..], bs[1..], first + 1, uuid, greet, i - 1);
    }
  }

  /** A sequence that stops before greeting the next backend failed to find its topic. */
  lemma {:induction false} StoppedAt(found: seq<Result<string, string>>, bs: seq<Backend>, first: nat, uuid: Uuids, greet: Greet)
    requires |found| == |bs|
    ensures var run := AskAll(found, bs, first, uuid, greet);
      run.error.Some? && |run.asked| == |run.replies| ==>
        |run.asked| < |bs| && found[|run.asked|] == Failure(run.error.value)
    decreases |bs|
  {
    if |bs| > 0 && found[0].Success? {
      var g := Greeted(bs[0], uuid(first));
      if greet(g).Success? {
        var run := AskAll(found, bs, first, uuid, greet);
        var rest := AskAll(found[1..], bs[1..], first + 1, uuid, greet);
        StoppedAt(found[1..], bs[1..], first + 1, uuid, greet);
        assert |rest.asked| < |bs[1..]| ==> found[1..][|rest.asked|] == found[|run.asked|];
      }
    }
  }

  /** The first reply, in order, that `handleServiceError` does not pass. */
  function FirstFailedCheck(bs: seq<Backend>, replies: seq<Object>): (r: Option<nat>)
    requires |bs| == |replies|
    ensures r.None? <==> forall i :: 0 <= i < |bs| ==> HandleServiceError(Key(bs[i]), replies[i]).Passed?
    ensures r.Some? ==>
      && r.value < |bs|
      && !HandleServiceError(Key(bs[r.value]), replies[r.value]).Passed?
      && forall i :: 0 <= i < r.value ==> HandleServiceError(Key(bs[i]), replies[i]).Passed?
    decreases |bs|
  {
    if |bs| == 0 then None
    else if !HandleServiceError(Key(bs[0]), replies[0]).Passed? then Some(0)
    else
      match FirstFailedCheck(bs[1..], replies[1..])
      case None => None
      case Some(k) => Some(k + 1)
  }

  /** `{ user, admin, ad, chat, notification }`, each reply without `status`. */
  function Aggregate(replies: seq<Object>): (body: Object)
    requires |replies| == |Backends|
    ensures body.Keys == {"user", "admin", "ad", "chat", "notification"}
    ensures forall i :: 0 <= i < |Backends| ==> body[Key(Backends[i])] == JObj(replies[i] - {"status"})
  {
    map[
      "user" := JObj(replies[0] - {"status"}),
      "admin" := JObj(replies[1] - {"status"}),
      "ad" := JObj(replies[2] - {"status"}),
      "chat" := JObj(replies[3] - {"status"}),
      "notification" := JObj(replies[4] - {"status"})]
  }

  /**
   * The checks after the five awaits, on the replies without
   * `correlationId`: `handleServiceError` in order, short-circuiting at
   * the first reply that does not pass, which decides the outcome; when
   * all pass, 200 with the aggregated replies.
   */
  function Verdict(replies: seq<Object>): (o: HttpOutcome)
    requires |replies| == |Backends|
    ensures o.Respond? <==> forall i :: 0 <= i < |Backends| ==> HandleServiceError(Key(Backends[i]), replies[i]).Passed?
    ensures o.Respond? ==> o == Respond(200, Aggregate(replies))
    ensures !o.Respond? ==>
      exists k ::
        && 0 <= k < |Backends|
        && (forall i :: 0 <= i < k ==> HandleServiceError(Key(Backends[i]), replies[i]).Passed?)
        && !HandleServiceError(Key(Backends[k]), replies[k]).Passed?
        && o == CheckOutcome(HandleServiceError(Key(Backends[k]), replies[k]))
  {
    match FirstFailedCheck(Backends, replies)
    case Some(k) => CheckOutcome(HandleServiceError(Key(Backends[k]), replies[k]))
    case None => Respond(200, Aggregate(replies))
  }

  /**
   * Short-circuiting: once reply `k` fails its check, the replies after it
   * are never examined, so changing them changes nothing.
   */
  lemma {:induction false} VerdictIgnoresLaterReplies(r1: seq<Object>, r2: seq<Object>, k: nat)
    requires |r1| == |r2| == |Backends| && k < |Backends|
    requires forall i :: 0 <= i <= k ==> r1[i] == r2[i]
    requires !HandleServiceError(Key(Backends[k]), r1[k]).Passed?
    ensures Verdict(r1) == Verdict(r2)
  {
    FirstFailureAgrees(Backends, r1, r2, k);
  }

  lemma {:induction false} FirstFailureAgrees(bs: seq<Backend>, r1: seq<Object>, r2: seq<Object>, k: nat)
    requires |r1| == |r2| == |bs| && k < |bs|
    requires forall i :: 0 <= i <= k ==> r1[i] == r2[i]
    requires !HandleServiceError(Key(bs[k]), r1[k]).Passed?
    ensures FirstFailedCheck(bs, r1) == FirstFailedCheck(bs, r2)
    ensures FirstFailedCheck(bs, r1).Some? && FirstFailedCheck(bs, r1).value <= k
    decreases k
  {
    if k > 0 && HandleServiceError(Key(bs[0]), r1[0]).Passed? {
      FirstFailureAgrees(bs[1..], r1[1..], r2[1..], k - 1);
    }
  }

  /** The greetings of a run: list order, fresh ids, all but the last answered. */
  lemma WelcomeGreetings(found: seq<Result<string, string>>, bs: seq<Backend>, uuid: Uuids, greet: Greet)
    requires |found| == |bs|
    ensures var ask := AskAll(found, bs, 0, uuid, greet);
      && (forall i :: 0 <= i < |ask.asked| ==> ask.asked[i] == Greeted(bs[i], uuid(i)))
      && (forall i :: 0 <= i < |ask.asked| - 1 ==> greet(ask.asked[i]).Success?)
  {
    var ask := AskAll(found, bs, 0, uuid, greet);
    forall i | 0 <= i < |ask.asked|
      ensures ask.asked[i] == Greeted(bs[i], uuid(i))
      ensures i < |ask.asked| - 1 ==> greet(ask.asked[i]).Success?
    {
      AskedAt(found, bs, 0, uuid, greet, i);
      RepliedAt(found, bs, 0, uuid, greet, i);
    }
  }

  /**
   * How a run's greetings end: without an error every backend was
   * answered; with one, either the last greeting's wait failed or the
   * next backend's lookup failed.
   */
  lemma WelcomeStops(found: seq<Result<string, string>>, bs: seq<Backend>, uuid: Uuids, greet: Greet)
    requires |found| == |bs|
    ensures var ask := AskAll(found, bs, 0, uuid, greet);
      && (ask.error.None? ==> |ask.asked| == |bs| && forall i :: 0 <= i < |bs| ==> greet(ask.asked[i]).Success?)
      && (ask.error.Some? ==>
            || (|ask.asked| > 0 && greet(ask.asked[|ask.asked| - 1]).Failure?)
            || (|ask.asked| < |bs| && found[|ask.asked|].Failure?))
  {
    var ask := AskAll(found, bs, 0, uuid, greet);
    if ask.error.None? {
      forall i | 0 <= i < |bs| ensures greet(ask.asked[i]).Success? {
        RepliedAt(found, bs, 0, uuid, greet, i);
      }
    } else if |ask.asked| == |ask.replies| {
      StoppedAt(found, bs, 0, uuid, greet);
    } else {
      RepliedAt(found, bs, 0, uuid, greet, |ask.asked| - 1);
    }
  }

  /**
   * The error a run stops with: the failure of the last greeting's wait,
   * or else the failed lookup of the next backend's test topic.
   */
  lemma WelcomeErrorIs(found: seq<Result<string, string>>, bs: seq<Backend>, uuid: Uuids, greet: Greet)
    requires |found| == |bs|
    ensures var ask := AskAll(found, bs, 0, uuid, greet);
      |ask.asked| > 0 && greet(ask.asked[|ask.asked| - 1]).Failure? ==>
        ask.error == Some(greet(ask.asked[|ask.asked| - 1]).error)
    ensures var ask := AskAll(found, bs, 0, uuid, greet);
      |ask.asked| < |bs| && (|ask.asked| == 0 || greet(ask.asked[|ask.asked| - 1]).Success?) ==>
        found[|ask.asked|].Failure? && ask.error == Some(found[|ask.asked|].error)
  {
    var ask := AskAll(found, bs, 0, uuid, greet);
    if |ask.asked| > 0 {
      RepliedAt(found, bs, 0, uuid, greet, |ask.asked| - 1);
    }
    StoppedAt(found, bs, 0, uuid, greet);
  }

  /** A welcome run: the greetings sent, in order, and how the handler ended. */
  datatype WelcomeRun = WelcomeRun(asked: seq<Greeted>, outcome: HttpOutcome)

  /** A reply with `correlationId` deleted (empty if the wait failed). */
  function Stripped(r: Result<Object, string>): Object {
    if r.Success? then r.value - {"correlationId"} else map[]
  }

  /** The replies to `asked`, each without `correlationId`. */
  function StrippedReplies(greet: Greet, asked: seq<Greeted>): (r: seq<Object>)
    ensures |r| == |asked|
    ensures forall i :: 0 <= i < |r| ==> r[i] == Stripped(greet(asked[i]))
  {
    if |asked| == 0 then [] else [Stripped(greet(asked[0]))] + StrippedReplies(greet, asked[1..])
  }

  /**
   * The body of `welcomeController` once it holds a client, for the
   * backends `bs` in the order asked: greet them one after the other, each
   * with a fresh correlation id, stopping at the first failure, which goes
   * to `next`. Once all replied, the verdict on the replies without
   * `correlationId` decides. `greet(g)` is the round trip of `RequestOf(g)`.
   */
  function GreetServices(bs: seq<Backend>, topicsOf: Backend -> seq<string>, uuid: Uuids, greet: Greet): (run: WelcomeRun)
    requires |bs| == |Backends|
    ensures forall i :: 0 <= i < |run.asked| ==> i < |bs| && run.asked[i] == Greeted(bs[i], uuid(i))
    ensures forall i :: 0 <= i < |run.asked| - 1 ==> greet(run.asked[i]).Success?
    ensures !run.outcome.Forwarded? ==> |run.asked| == |bs|
    ensures |run.asked| == |bs| && (forall i :: 0 <= i < |bs| ==> greet(run.asked[i]).Success?) ==>
      run.outcome == Verdict(StrippedReplies(greet, run.asked))
    ensures |run.asked| < |bs| ==>
      && run.outcome.Forwarded?
      && ((|run.asked| > 0 && greet(run.asked[|run.asked| - 1]).Failure?)
          || TestTopic(bs[|run.asked|]) !in topicsOf(bs[|run.asked|]))
  {
    var found := Lookups(bs, topicsOf);
    var ask := AskAll(found, bs, 0, uuid, greet);
    WelcomeGreetings(found, bs, uuid, greet);
    WelcomeStops(found, bs, uuid, greet);
    if ask.error.Some? then WelcomeRun(ask.asked, Forwarded(ask.error.value))
    else WelcomeRun(ask.asked, Verdict(StrippedReplies(greet, ask.asked)))
  }

  /**
   * Which error reaches `next` when the greetings stop early: the failure
   * of the last greeting's wait, or else "Topic <t> not found" for the next
   * backend, whose test topic is not listed.
   */
  lemma GreetServicesError(bs: seq<Backend>, topicsOf: Backend -> seq<string>, uuid: Uuids, greet: Greet)
    requires |bs| == |Backends|
    ensures var run := GreetServices(bs, topicsOf, uuid, greet);
      |run.asked| > 0 && greet(run.asked[|run.asked| - 1]).Failure? ==>
        run.outcome == Forwarded(greet(run.asked[|run.asked| - 1]).error)
    ensures var run := GreetServices(bs, topicsOf, uuid, greet);
      |run.asked| < |bs| && (|run.asked| == 0 || greet(run.asked[|run.asked| - 1]).Success?) ==>
        && TestTopic(bs[|run.asked|]) !in topicsOf(bs[|run.asked|])
        && run.outcome == Forwarded("Topic " + TestTopic(bs[|run.asked|]) + " not found")
  {
    WaitErrorForwarded(bs, topicsOf, uuid, greet);
    LookupErrorForwarded(bs, topicsOf, uuid, greet);
  }

  /** A failed wait stops the greetings and its error goes to `next`. */
  lemma WaitErrorForwarded(bs: seq<Backend>, topicsOf: Backend -> seq<string>, uuid: Uuids, greet: Greet)
    requires |bs| == |Backends|
    ensures var run := GreetServices(bs, topicsOf, uuid, greet);
      |run.asked| > 0 && greet(run.asked[|run.asked| - 1]).Failure? ==>
        run.outcome == Forwarded(greet(run.asked[|run.asked| - 1]).error)
  {
    var found := Lookups(bs, topicsOf);
    var ask := AskAll(found, bs, 0, uuid, greet);
    var run := GreetServices(bs, topicsOf, uuid, greet);
    GreetServicesUnfold(bs, topicsOf, uuid, greet);
    assert run.asked == ask.asked;
    if |ask.asked| > 0 && greet(ask.asked[|ask.asked| - 1]).Failure? {
      WelcomeErrorIs(found, bs, uuid, greet);
      assert ask.error.Some?;
      assert run.outcome == Forwarded(ask.error.value);
    }
  }

  /** A test topic missing from its list stops the greetings with "Topic <t> not found". */
  lemma LookupErrorForwarded(bs: seq<Backend>, topicsOf: Backend -> seq<string>, uuid: Uuids, greet: Greet)
    requires |bs| == |Backends|
    ensures var run := GreetServices(bs, topicsOf, uuid, greet);
      |run.asked| < |bs| && (|run.asked| == 0 || greet(run.asked[|run.asked| - 1]).Success?) ==>
        && TestTopic(bs[|run.asked|]) !in topicsOf(bs[|run.asked|])
        && run.outcome == Forwarded("Topic " + TestTopic(bs[|run.asked|]) + " not found")
  {
    var found := Lookups(bs, topicsOf);
    var ask := AskAll(found, bs, 0, uuid, greet);
    var run := GreetServices(bs, topicsOf, uuid, greet);
    GreetServicesUnfold(bs, topicsOf, uuid, greet);
    assert run.asked == ask.asked;
    if |ask.asked| < |bs| && (|ask.asked| == 0 || greet(ask.asked[|ask.asked| - 1]).Success?) {
      WelcomeErrorIs(found, bs, uuid, greet);
      assert ask.error.Some?;
      assert run.outcome == Forwarded(ask.error.value);
      LookupFailed(bs, topicsOf, |ask.asked|);
    }
  }

  /** The run `GreetServices` builds from the awaits and the verdict. */
  lemma GreetServicesUnfold(bs: seq<Backend>, topicsOf: Backend -> seq<string>, uuid: Uuids, greet: Greet)
    requires |bs| == |Backends|
    ensures var ask := AskAll(Lookups(bs, topicsOf), bs, 0, uuid, greet);
      GreetServices(bs, topicsOf, uuid, greet)
        == if ask.error.Some? then WelcomeRun(ask.asked, Forwarded(ask.error.value))
           else WelcomeRun(ask.asked, Verdict(StrippedReplies(greet, ask.asked)))
  {
  }

  /**
   * `welcomeController(req, res, next)`: a failure to get the client goes
   * to `next` before any greeting; otherwise the five services are greeted
   * in the order user, admin, ad, chat, notification.
   */
  function WelcomeController(topicsOf: Backend -> seq<string>, uuid: Uuids, client: Outcome<string>, greet: Greet): (run: WelcomeRun)
    ensures client.Fail? ==> run == WelcomeRun([], Forwarded(client.error))
    ensures client.Pass? ==> run == GreetServices(Backends, topicsOf, uuid, greet)
  {
    match client
    case Fail(e) => WelcomeRun([], Forwarded(e))
    case Pass => GreetServices(Backends, topicsOf, uuid, greet)
  }

  /** With distinct UUIDs, the greetings carry pairwise distinct correlation ids. */
  lemma FreshCorrelationIds(topicsOf: Backend -> seq<string>, uuid: Uuids, client: Outcome<string>, greet: Greet)
    requires forall m: nat, n: nat :: m != n ==> uuid(m) != uuid(n)
    ensures var run := WelcomeController(topicsOf, uuid, client, greet);
      forall i, j :: 0 <= i < j < |run.asked| ==>
        RequestOf(run.asked[i]).message["correlationId"] != RequestOf(run.asked[j]).message["correlationId"]
  {
  }
}
