/**
 * The gateway's two small utilities: `findTopic`, which looks a topic up
 * in a service's topic list, and `handleServiceError`, which sorts a
 * service reply into pass, throw or an error sent to the HTTP client.
 */
module GatewayChecks {
  import opened Wrappers
  import opened Json
  import opened Responses

  /** `topics.find(t => t === topic)`: the first element equal to `topic`. */
  function Find(topics: seq<string>, topic: string): (r: Option<nat>)
    ensures r.None? <==> topic !in topics
    ensures r.Some? ==> r.value < |topics| && topics[r.value] == topic && topic !in topics[..r.value]
  {
    if |topics| == 0 then None
    else if topics[0] == topic then Some(0)
    else
      match Find(topics[1..], topic)
      case None => None
      case Some(i) =>
        assert topics[..i + 1] == [topics[0]] + topics[1..][..i];
        Some(i + 1)
  }

  /**
   * `findTopic(topics, topic)`: the found element when it is truthy,
   * otherwise the error "Topic <topic> not found". Matching is exact
   * equality, and the empty topic is never found, being falsy.
   */
  function FindTopic(topics: seq<string>, topic: string): (r: Result<string, string>)
    ensures r.Success? <==> topic in topics && topic != ""
    ensures r.Success? ==> r.value == topic
    ensures r.Failure? ==> r.error == "Topic " + topic + " not found"
  {
    match Find(topics, topic)
    case Some(i) => if topics[i] != "" then Success(topics[i]) else Failure("Topic " + topic + " not found")
    case None => Failure("Topic " + topic + " not found")
  }

  /** How `handleServiceError` ends. */
  datatype Check =
    | Passed                                  // returns false
    | Threw(error: string)                    // throws an Error
    | Sent(status: Option<Value>, body: Object) // `res.status(..).send(..)`, returns true

  function Lookup(o: Object, key: string): Option<Value> {
    if key in o then Some(o[key]) else None
  }

  /** `errResp.error?.message || 'Unknown error'`. */
  function ErrorMessage(response: Object): (m: Value)
    ensures Truthy(m)
  {
    if HasErrorMessage(response) then response["error"].fields["message"]
    else JStr("Unknown error")
  }

  /** The reply carries an `error` object whose `message` is truthy. */
  predicate HasErrorMessage(response: Object) {
    "error" in response && response["error"].JObj? && "message" in response["error"].fields
    && Truthy(response["error"].fields["message"])
  }

  predicate IsOk(response: Object) {
    Lookup(response, "status") == Some(JNum(200)) || Lookup(response, "status") == Some(JNum(201))
  }

  /**
   * `handleServiceError(serviceName, response, res)`: status 200 or 201
   * passes and sends nothing; status 500 throws "<serviceName>: <message>"
   * and sends nothing; any other status, an absent one included, is sent
   * back with `{ error: { message } }`.
   */
  function HandleServiceError(serviceName: string, response: Object): (c: Check)
    ensures c.Passed? <==> IsOk(response)
    ensures c.Threw? <==> Lookup(response, "status") == Some(JNum(500))
    ensures c.Threw? ==> c.error == serviceName + ": " + Display(ErrorMessage(response))
    ensures c.Sent? ==> c.status == Lookup(response, "status") && c.body == ErrorBody(ErrorMessage(response))
  {
    var status := Lookup(response, "status");
    if status == Some(JNum(200)) || status == Some(JNum(201)) then Passed
    else if status == Some(JNum(500)) then Threw(serviceName + ": " + Display(ErrorMessage(response)))
    else Sent(status, ErrorBody(ErrorMessage(response)))
  }

  /**
   * A service's error reply reaches the HTTP client intact: its status is
   * sent as is (500 becomes a thrown error naming the service), and its
   * message, when not empty, is the one in the body sent.
   */
  lemma ServiceErrorForwarded(serviceName: string, status: int, message: string)
    requires status != 200 && status != 201
    ensures var c := HandleServiceError(serviceName, ToObject(ErrorResponse(status, message)));
      var shown := if message == "" then "Unknown error" else message;
      if status == 500 then c == Threw(serviceName + ": " + shown)
      else c == Sent(Some(JNum(status)), ErrorBody(JStr(shown)))
  {
    var o := ToObject(ErrorResponse(status, message));
    assert o["error"] == JObj(Field("message", JStr(message)));
  }

  /** A success reply from a service always passes, whatever it carries. */
  lemma SuccessReplyPasses(serviceName: string, status: int, message: string, name: string)
    requires status == 200 || status == 201
    ensures HandleServiceError(serviceName, ToObject(SuccessResponse(status, message, name))) == Passed
  {
  }
}
