/**
 * The sequential list loops over broker operations: `subscribeToTopics`,
 * `unsubscribeFromTopics` (identical in the gateway and in every worker
 * receiver) and the gateway delegator's `publishToTopics`. Each awaits one
 * broker operation per topic in list order and stops at the first one
 * that fails, rethrowing an error that names that topic.
 */
module TopicLoops {
  import opened Wrappers

  /** The broker operation a loop performs for each topic. */
  datatype Operation = Subscribe | Unsubscribe | Publish(message: string)

  /**
   * The broker's answer to the `i`-th operation of a loop, on `topic`: the
   * transport is not modelled, only whether it accepted the request.
   */
  type Broker = (nat, string) -> Outcome<string>

  /** Text of the error a failed single-topic operation rethrows. */
  function FailureText(op: Operation, topic: string, cause: string): string {
    var lead := match op
      case Subscribe => "Failed to subscribe to topic: "
      case Unsubscribe => "Failed to unsubscribe from topic: "
      case Publish(_) => "Failed to publish message to topic: ";
    lead + topic + "\n" + cause
  }

  /**
   * `subscribeToTopic` / `unsubscribeFromTopic` / `publishToTopic`: exactly
   * one broker operation, on the given topic; its failure is rethrown
   * naming the topic and the cause, its success returns nothing.
   */
  function SingleTopic(op: Operation, i: nat, topic: string, broker: Broker): (r: Outcome<string>)
    ensures r.Pass? <==> broker(i, topic).Pass?
    ensures r.Fail? ==> r.error == FailureText(op, topic, broker(i, topic).error)
  {
    match broker(i, topic)
    case Pass => Pass
    case Fail(cause) => Fail(FailureText(op, topic, cause))
  }

  /** Reference definition: index of the first topic the broker refuses. */
  function FirstFailure(topics: seq<string>, broker: Broker, from: nat): (k: Option<nat>)
    requires from <= |topics|
    ensures k.Some? ==> from <= k.value < |topics| && broker(k.value, topics[k.value]).Fail?
    ensures k.Some? ==> forall i :: from <= i < k.value ==> broker(i, topics[i]).Pass?
    ensures k.None? ==> forall i :: from <= i < |topics| ==> broker(i, topics[i]).Pass?
    decreases |topics| - from
  {
    if from == |topics| then None
    else if broker(from, topics[from]).Fail? then Some(from)
    else FirstFailure(topics, broker, from + 1)
  }

  /** What a loop did: the topics it completed, in order, and its error. */
  datatype LoopRun = LoopRun(completed: seq<string>, error: Option<string>)

  /**
   * The list loop. It completes a prefix of `topics` in order; without a
   * failure that prefix is the whole list, and otherwise the loop stopped
   * at the first refused topic, whose error it rethrows, leaving every
   * later topic untouched.
   */
  method RunInOrder(op: Operation, topics: seq<string>, broker: Broker) returns (run: LoopRun)
    ensures run.completed <= topics
    ensures forall i :: 0 <= i < |run.completed| ==> broker(i, topics[i]).Pass?
    ensures run.error.None? <==> FirstFailure(topics, broker, 0).None?
    ensures run.error.None? ==> run.completed == topics
    ensures run.error.Some? ==>
      var k := |run.completed|;
      && FirstFailure(topics, broker, 0) == Some(k)
      && run.error.value == FailureText(op, topics[k], broker(k, topics[k]).error)
  {
    var i := 0;
    while i < |topics|
      invariant 0 <= i <= |topics|
      invariant forall j :: 0 <= j < i ==> broker(j, topics[j]).Pass?
      invariant FirstFailure(topics, broker, 0) == FirstFailure(topics, broker, i)
    {
      var r := SingleTopic(op, i, topics[i], broker);
      if r.Fail? {
        return LoopRun(topics[..i], Some(r.error));
      }
      i := i + 1;
    }
    return LoopRun(topics, None);
  }
}
