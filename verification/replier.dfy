/**
 * The reply handlers of the admin and user services: each reads the reply
 * topic from the request, runs `sayHello`, and publishes the serialised
 * reply to that topic through an abstract client that records publishes.
 */
module Replier {
  import opened Wrappers
  import opened Json
  import opened Responses
  import opened Welcome
  import TopicLoops
  import Router
  import ReplyWait

  datatype Publish = Publish(topic: string, payload: string)

  /** The client's answer to publishing `payload` on `topic`. */
  type Publisher = (string, string) -> Outcome<string>

  /** Publishes a handler attempted, in order, and the error it threw. */
  datatype HandlerRun = HandlerRun(published: seq<Publish>, error: Option<string>)

  /**
   * `publishToTopic(client, topic, message)` of a worker: exactly one
   * publish, to `topic`; a failure is rethrown naming the topic.
   */
  function PublishToTopic(topic: string, message: string, publish: Publisher): (run: HandlerRun)
    ensures run.published == [Publish(topic, message)]
    ensures run.error.None? <==> publish(topic, message).Pass?
    ensures run.error.Some? ==>
      run.error.value == TopicLoops.FailureText(TopicLoops.Publish(message), topic, publish(topic, message).error)
  {
    var r := TopicLoops.SingleTopic(TopicLoops.Publish(message), 0, topic, (_, t) => publish(t, message));
    HandlerRun([Publish(topic, message)], if r.Pass? then None else Some(r.error))
  }

  /** The `replyTopic` guard holds of the parsed request. */
  predicate HasReplyTopic(data: Value) {
    data.JObj? && HasNonEmptyString(data.fields, "replyTopic")
  }

  /** The serialised form of a reply, as `JSON.stringify` renders it. */
  function ReplyPayload(svc: Service, data: Value, stringify: Value -> string): string
    requires data.JObj?
  {
    stringify(JObj(ToObject(SayHello(svc, data.fields))))
  }

  /**
   * The `'<service>/test'` handler: a request without a non-empty string
   * `replyTopic` throws "No reply topic provided" and publishes nothing (a
   * `null` request throws a TypeError on the property read); otherwise it
   * publishes once, to the reply topic, the serialised `sayHello` reply,
   * which carries no correlation id.
   */
  function WelcomeHandler(svc: Service, data: Value, stringify: Value -> string, publish: Publisher): (run: HandlerRun)
    ensures !HasReplyTopic(data) ==> run.published == [] && run.error.Some?
    ensures !HasReplyTopic(data) && !data.JNull? ==> run.error == Some("No reply topic provided")
    ensures HasReplyTopic(data) ==>
      && run.published == [Publish(data.fields["replyTopic"].s, ReplyPayload(svc, data, stringify))]
      && (run.error.None? <==> publish(data.fields["replyTopic"].s, ReplyPayload(svc, data, stringify)).Pass?)
    ensures HasReplyTopic(data) ==>
      run == PublishToTopic(data.fields["replyTopic"].s, ReplyPayload(svc, data, stringify), publish)
    ensures data.JNull? ==>
      run == HandlerRun([], Some("TypeError: Cannot read properties of null (reading 'replyTopic')"))
  {
    if data.JNull? then HandlerRun([], Some("TypeError: Cannot read properties of null (reading 'replyTopic')"))
    else if !HasReplyTopic(data) then HandlerRun([], Some("No reply topic provided"))
    else PublishToTopic(data.fields["replyTopic"].s, ReplyPayload(svc, data, stringify), publish)
  }

  /** Which handler function a bundle registers. */
  datatype HandlerName = WelcomeOf(service: Service)

  /** The admin service's exported handler list. */
  const AdminHandlers: seq<map<string, HandlerName>> := [map["admin/test" := WelcomeOf(AdminService)]]

  /** The user service's exported handler list. */
  const UserHandlers: seq<map<string, HandlerName>> := [map["user/test" := WelcomeOf(UserService)]]

  /** Each list registers only its service's test topic. */
  lemma HandlerListsRegisterOneTopic()
    ensures Router.BuildHandlerMap(AdminHandlers) == map["admin/test" := WelcomeOf(AdminService)]
    ensures Router.BuildHandlerMap(UserHandlers) == map["user/test" := WelcomeOf(UserService)]
  {
    assert AdminHandlers[..0] == [];
    assert UserHandlers[..0] == [];
  }

  /**
   * End to end: when parsing inverts serialising, a gateway waiting on the
   * reply topic that receives the handler's publish resolves with exactly
   * the `sayHello` reply object.
   */
  lemma ReplyReachesWaitingCaller(svc: Service, data: Value, stringify: Value -> string,
                                  parse: string -> Result<Value, string>, publish: Publisher)
    requires HasReplyTopic(data)
    requires forall v :: parse(stringify(v)) == Success(v)
    ensures var run := WelcomeHandler(svc, data, stringify, publish);
      var p := run.published[0];
      ReplyWait.DispatchMessage(data.fields["replyTopic"].s, [ReplyWait.Message(p.topic, p.payload)], parse)
        == ReplyWait.Resolved(JObj(ToObject(SayHello(svc, data.fields))), 0)
  {
    var v := JObj(ToObject(SayHello(svc, data.fields)));
    assert parse(stringify(v)) == Success(v);
  }
}
