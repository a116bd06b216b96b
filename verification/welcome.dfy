/**
 * `sayHello`, the worker-side logic behind each service's test topic. The
 * four services share one body and differ only in the name they reply
 * with.
 */
module Welcome {
  import opened Wrappers
  import opened Json
  import opened Responses

  datatype Service = UserService | AdminService | ChatService | NotificationService

  function ServiceName(svc: Service): string {
    match svc
    case UserService => "User Service"
    case AdminService => "Admin Service"
    case ChatService => "Chat Service"
    case NotificationService => "Notification Service"
  }

  function Greeting(name: string): string {
    "Hello, " + name + "!"
  }

  /** Reads the greeted name back out of a greeting. */
  function GreetedName(greeting: string): Option<string> {
    if |greeting| >= 8 && greeting[..7] == "Hello, " && greeting[|greeting| - 1] == '!' then
      Some(greeting[7..|greeting| - 1])
    else None
  }

  /**
   * `sayHello(data)`: the message is checked before the name; a message
   * that is missing, empty or not a string is a 400 "No message provided",
   * then the same for the name gives 400 "No name provided"; otherwise a
   * 200 reply greets the sender by name, signed with the service's name.
   */
  function SayHello(svc: Service, data: Object): (r: Response)
    ensures r.ErrorResponse? <==> !HasNonEmptyString(data, "message") || !HasNonEmptyString(data, "name")
    ensures !HasNonEmptyString(data, "message") ==> r == ErrorResponse(400, "No message provided")
    ensures HasNonEmptyString(data, "message") && !HasNonEmptyString(data, "name") ==>
      r == ErrorResponse(400, "No name provided")
    ensures r.SuccessResponse? ==>
      && r.status == 200
      && r.name == ServiceName(svc)
      && GreetedName(r.message) == Some(data["name"].s)
  {
    if !HasNonEmptyString(data, "message") then ErrorResponse(400, "No message provided")
    else if !HasNonEmptyString(data, "name") then ErrorResponse(400, "No name provided")
    else
      var name := data["name"].s;
      assert Greeting(name)[..7] == "Hello, ";
      assert Greeting(name)[7..|Greeting(name)| - 1] == name;
      SuccessResponse(200, Greeting(name), ServiceName(svc))
  }

  /** Two objects agree on a key: both lack it or both hold the same value. */
  predicate SameField(d1: Object, d2: Object, key: string) {
    (key in d1 <==> key in d2) && (key in d1 ==> d1[key] == d2[key])
  }

  /**
   * Only `message` and `name` matter: every other field, including the
   * correlation id and the reply topic, is ignored.
   */
  lemma SayHelloReadsOnlyMessageAndName(svc: Service, d1: Object, d2: Object)
    requires SameField(d1, d2, "message") && SameField(d1, d2, "name")
    ensures SayHello(svc, d1) == SayHello(svc, d2)
  {
  }
}
