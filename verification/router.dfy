/**
 * Worker-side routing (`dispatchMessages` of the notification and admin
 * services): the handler bundles are folded into one topic-to-handler map
 * in which a later registration of a topic overwrites an earlier one, and
 * each inbound message is routed by its topic alone.
 */
module Router {
  import opened Wrappers
  import opened Json

  /**
   * The fold over the bundles: every registered topic is present, and it
   * maps to the handler of the last bundle that registers it.
   */
  function BuildHandlerMap<H>(bundles: seq<map<string, H>>): (m: map<string, H>)
    ensures forall t :: t in m <==> exists i :: 0 <= i < |bundles| && t in bundles[i]
    decreases |bundles|
  {
    if |bundles| == 0 then map[]
    else BuildHandlerMap(bundles[..|bundles| - 1]) + bundles[|bundles| - 1]
  }

  /** Last wins: a topic maps to the handler of its last registration. */
  lemma {:induction false} LastRegistrationWins<H>(bundles: seq<map<string, H>>, i: nat, t: string)
    requires i < |bundles| && t in bundles[i]
    requires forall j :: i < j < |bundles| ==> t !in bundles[j]
    ensures t in BuildHandlerMap(bundles) && BuildHandlerMap(bundles)[t] == bundles[i][t]
    decreases |bundles|
  {
    if i < |bundles| - 1 {
      var prefix := bundles[..|bundles| - 1];
      assert t !in bundles[|bundles| - 1];
      LastRegistrationWins(prefix, i, t);
    }
  }

  /** What the message listener does with one inbound message. */
  datatype Route<H> =
    | NotSubscribed(error: string)
    | NoHandler(log: string)
    | Invoke(handler: H, data: Value)
    | ParseFailed(error: string)

  /**
   * The admin listener: a topic with a handler gets its payload parsed and
   * the handler invoked with the data; a topic without one is only logged.
   * The set of handler topics it builds is never consulted.
   */
  function RouteAdmin<H>(handlers: map<string, H>, topic: string, payload: string, parse: string -> Result<Value, string>): (r: Route<H>)
    ensures r.NoHandler? <==> topic !in handlers
    ensures r.NoHandler? ==> r.log == "No handler found for topic: " + topic
    ensures r.Invoke? ==> topic in handlers && r.handler == handlers[topic] && parse(payload) == Success(r.data)
    ensures r.ParseFailed? ==> topic in handlers && parse(payload) == Failure(r.error)
    ensures !r.NotSubscribed?
  {
    if topic in handlers then
      match parse(payload)
      case Success(data) => Invoke(handlers[topic], data)
      case Failure(e) => ParseFailed(e)
    else NoHandler("No handler found for topic: " + topic)
  }

  /**
   * The notification listener: the admin routing guarded by the subscribed
   * topic list, so a message on an unlisted topic throws and reaches no
   * handler.
   */
  function RouteNotification<H>(subscribed: seq<string>, handlers: map<string, H>, topic: string, payload: string, parse: string -> Result<Value, string>): (r: Route<H>)
    ensures r.NotSubscribed? <==> topic !in subscribed
    ensures r.NotSubscribed? ==> r.error == "Topic " + topic + " is not subscribed"
    ensures topic in subscribed ==> r == RouteAdmin(handlers, topic, payload, parse)
  {
    if topic !in subscribed then NotSubscribed("Topic " + topic + " is not subscribed")
    else RouteAdmin(handlers, topic, payload, parse)
  }

  /** The payload is parsed only when a handler exists for the topic. */
  lemma ParsedOnlyWithHandler<H>(subscribed: seq<string>, handlers: map<string, H>, topic: string, payload: string,
                                 parse: string -> Result<Value, string>, parse': string -> Result<Value, string>)
    requires topic !in handlers
    ensures RouteNotification(subscribed, handlers, topic, payload, parse)
         == RouteNotification(subscribed, handlers, topic, payload, parse')
    ensures RouteAdmin(handlers, topic, payload, parse) == RouteAdmin(handlers, topic, payload, parse')
  {
  }
}
