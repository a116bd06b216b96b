# The Garage — a Dafny model of the MQTT request/reply core

The Garage is a set of TypeScript services that talk to each other through an
MQTT broker. An HTTP API gateway receives a request and publishes a message on
a service topic. The message carries a fresh correlation id and a fresh
reply topic. The gateway then waits on that reply topic for one answer, checks
the answer's status and turns it into the HTTP response. Worker services
(user, admin, ad, chat, notification) subscribe to their topics, route each
incoming message to a handler and publish the handler's reply.

This project models that core as pure Dafny functions over immutable data.
Each module follows one part of the program:

- `Wrappers`, `Text`, `Json`: the option/result types, the decimal rendering
  of numbers, JavaScript's `split`/`join`, JavaScript values, truthiness and
  `String(v)`.
- `Responses`: the `SuccessResponse` / `ErrorResponse` shapes and their
  object form.
- `PendingTable`: the gateway's correlation table (`addPending`,
  `resolvePending`, `rejectPending`, `removePending`), with a proof that no
  continuation is ever settled twice.
- `ReplyWait`: the gateway's `dispatchMessage`, a listener plus a timer,
  as a trace of deliveries.
- `TopicLoops`: `subscribeToTopics`, `unsubscribeFromTopics` and
  `publishToTopics`, which run in order and stop at the first failure.
- `BrokerClient`: the two `getClient` variants (host/port and URI) and
  `connectWithRetry` with its linear back-off.
- `Router`: the worker routers (`dispatchMessages` of the admin and
  notification services).
- `Welcome`, `Replier`: `sayHello` and the workers' reply handlers.
- `Password`: the password validator and the `User` model's save hook.
- `ImageCheck`: the data-URL checks of the profile picture.
- `UserCreation`: the user service's `createUser` logic.
- `GatewayChecks`: `findTopic` and `handleServiceError`.
- `Controllers`: the gateway's `createUser` and `welcomeController`.

I/O, the clock, randomness and libraries are parameters of the model:

- Broker and network answers are functions from the attempt or call index to
  an outcome.
- `JSON.parse` and `JSON.stringify` are `string -> Result<Value, string>` and
  `Value -> string`.
- `parseInt` is `string -> Option<int>`.
- `randomUUID` is `nat -> string`, giving the k-th id drawn.
- bcrypt, mongoose validation and saving, and the image suitability service
  are oracles.

The model follows the code:

- `welcomeController` awaits the five service calls one after the other. It
  does not fan them out concurrently.
- The worker routers do not publish an error reply when a handler fails.
  Their message listeners have no `catch`: a failed `JSON.parse`, a handler
  that throws and the notification router's "not subscribed" error all
  reject the listener's promise. Nothing in the code catches that
  rejection; it reaches Node's unhandled-rejection handling, which by
  default prints it and exits the process.
- The gateway's `dispatchMessage` waits on its own listener and timer. It
  never consults the pending-request table.
- `extractMIMEType` cuts the MIME type out of the part before the first
  comma: the text after that part's first `:`, up to the next `:`, `;` or
  the end of the part. When that part has no `:` (for example
  "data,image:png") it throws a TypeError rather than reporting an invalid
  image.
- `password.length` counts UTF-16 code units, so a character outside the
  Basic Multilingual Plane counts twice towards the 8-character minimum.

## Model

| member | source | states |
|---|---|---|
| PendingTable.AddPending | api_gateway/src/mqtt/message_handler.ts:19-25 | the id maps to exactly the new pair of continuations, no other entry changes, and nothing is invoked |
| PendingTable.ResolvePending | api_gateway/src/mqtt/message_handler.ts:36-44 | a known id has its resolve continuation invoked once with the data and is removed; an unknown id only logs |
| PendingTable.RejectPending | api_gateway/src/mqtt/message_handler.ts:55-63 | a known id has its reject continuation invoked once with the error and is removed; an unknown id only logs |
| PendingTable.RemovePending | api_gateway/src/mqtt/message_handler.ts:73-75 | the id is gone, other entries are unchanged, and no continuation is invoked |
| PendingTable.AddReplaces | api_gateway/src/mqtt/message_handler.ts:19-25 | registering an id twice keeps only the second pair |
| PendingTable.SecondSettleIsNoOp | api_gateway/src/mqtt/message_handler.ts:36-63 | after a resolve or reject, a second settle of the same id invokes nothing more |
| PendingTable.RemoveIdempotent | api_gateway/src/mqtt/message_handler.ts:73-75 | removing twice is the same as removing once |
| PendingTable.AddThenResolve | api_gateway/src/mqtt/message_handler.ts:19-44 | a resolve right after registration calls the registered resolve with the data and empties that entry |
| PendingTable.RunKeepsInvariant | api_gateway/src/mqtt/message_handler.ts:19-75 | over any sequence of operations with fresh registrations, every table entry holds a registered call that has not been settled |
| PendingTable.SettledAtMostOnce | api_gateway/src/mqtt/message_handler.ts:19-75 | over any sequence of operations with fresh registrations, no continuation is invoked twice |
| ReplyWait.DispatchMessage | api_gateway/src/receivers/receiver.ts:77-109 | the wait stays pending iff no event is the timer or a message on the topic; otherwise the first such event decides: the timeout rejection, the parsed payload, or the parse failure |
| ReplyWait.LaterEventsIgnored | api_gateway/src/receivers/receiver.ts:90-105 | once decided, appending any events leaves the outcome unchanged, because the listener is removed |
| ReplyWait.OtherTopicsIgnored | api_gateway/src/receivers/receiver.ts:90-92 | a message on another topic has no effect on the outcome |
| ReplyWait.EarlyOnTopic | api_gateway/src/receivers/receiver.ts:83-88 | the deliveries before the deadline contain one on the topic iff some delivery on the topic arrives before the timeout |
| ReplyWait.NoneEarlyOnTopic | api_gateway/src/receivers/receiver.ts:83-92 | when nothing on the topic arrives before the deadline, every earlier delivery is a message on another topic |
| ReplyWait.ScheduleDecides | api_gateway/src/receivers/receiver.ts:77-109 | with the timer placed at the deadline, the wait always ends; it is the timeout iff nothing on the topic arrives in time, and otherwise the first timely delivery on the topic decides it by its parse |
| ReplyWait.WaitForReply | api_gateway/src/receivers/receiver.ts:77-109 | the deadline is 5000 ms unless one is given; exactly one outcome occurs; it is the timeout rejection iff nothing arrives on the topic before the deadline; otherwise the first delivery on the topic resolves with its parse or rejects with the parse failure |
| TopicLoops.SingleTopic | api_gateway/src/receivers/receiver.ts:36-63 | one broker operation on the topic; it succeeds iff the broker accepts, and a refusal is rethrown naming the topic and the cause |
| TopicLoops.FirstFailure | api_gateway/src/delegators/delegator.ts:16-24 | the index of the first topic the broker refuses, or none when it accepts them all |
| TopicLoops.RunInOrder | api_gateway/src/receivers/receiver.ts:8-29 | the completed topics are a prefix of the list, each accepted; the loop finishes iff no topic is refused, and otherwise stops at the first refusal and rethrows its error |
| BrokerClient.AttemptsFrom | api_gateway/src/mqtt/mqtt_client.ts:58-71 | from attempt k, every attempt before the last failed, the waits are the back-off for each failed attempt, and the result is the last attempt's success or the exhaustion error |
| BrokerClient.ConnectWithRetry | api_gateway/src/mqtt/mqtt_client.ts:50-78 | at most n attempts; each failed attempt before the last is followed by a wait of 1000·attempt ms; success returns the first connection that succeeds; zero attempts gives "Unreachable" |
| BrokerClient.FirstSuccessWins | services/ad_service/src/mqtt/mqtt_client.ts:42-67 | when attempt m is the first that succeeds and m is within the limit, the run stops at m with that connection |
| BrokerClient.Backoffs | services/chat_service/src/mqtt/mqtt_client.ts:40-41 | the i-th wait is the back-off of attempt i+1 |
| BrokerClient.BackoffTotal | services/chat_service/src/mqtt/mqtt_client.ts:40-41 | the waits of m failed attempts add up to 500·m·(m+1) ms |
| BrokerClient.TotalWait | api_gateway/src/mqtt/mqtt_client.ts:65-67 | a run that made a attempts waited 500·(a-1)·a ms in total |
| BrokerClient.ConnectOnce | api_gateway/src/mqtt/mqtt_client.ts:32-35 | a stored client is returned without connecting; otherwise the retry loop connects and its client is stored |
| BrokerClient.GetClientHostPort | api_gateway/src/mqtt/mqtt_client.ts:14-36 | a missing or non-numeric port, then a missing host, fails with its own message before any connection; otherwise the URL mqtt://host:port is connected once |
| BrokerClient.GetClientUri | services/ad_service/src/mqtt/mqtt_client.ts:14-29 | a missing BROKER_URI fails before any connection; otherwise that URI is connected once |
| BrokerClient.SecondCallReusesClient | api_gateway/src/mqtt/mqtt_client.ts:32-35 | after a successful call, a second call returns the same client and never connects again |
| BrokerClient.SecondUriCallReusesClient | services/ad_service/src/mqtt/mqtt_client.ts:24-27 | after a successful call, a second call returns the same client and never connects again |
| Router.BuildHandlerMap | services/admin_service/src/receivers/receiver.ts:62-67 | a topic has a handler iff some registered bundle names it |
| Router.LastRegistrationWins | services/notification_service/src/receivers/receiver.ts:97-101 | when several bundles name a topic, the handler of the last one is used |
| Router.RouteAdmin | services/admin_service/src/receivers/receiver.ts:69-77 | no handler iff the topic is unregistered, logged with the topic; otherwise the handler runs on the parsed payload, or the parse failure is reported |
| Router.RouteNotification | services/notification_service/src/receivers/receiver.ts:103-116 | a topic outside the subscribed list is refused with "Topic … is not subscribed"; a subscribed topic is routed as in the admin router |
| Router.ParsedOnlyWithHandler | services/notification_service/src/receivers/receiver.ts:107-113 | the payload is parsed only after the topic check: with no handler, the parser's result does not matter |
| Welcome.SayHello | services/user_service/src/logic/welcome.ts:8-38 | 400 "No message provided" when the message is not a non-empty string, then 400 "No name provided" for the name; otherwise 200 greeting exactly the given name, signed by the service |
| Welcome.SayHelloReadsOnlyMessageAndName | services/chat_service/src/logic/welcome.ts:1-28 | the reply depends only on the message and name fields |
| Responses.ToObject | api_gateway/src/types/global.d.ts:4-18 | the object carries the status and exactly the keys of its response shape, and reading it back gives the same response |
| Replier.PublishToTopic | services/admin_service/src/repliers/replier.ts:11-22 | exactly one publish, to the given topic; it fails iff the client refuses, with an error naming the topic |
| Replier.WelcomeHandler | services/user_service/src/repliers/replier.ts:17-31 | without a non-empty reply topic nothing is published and the handler throws "No reply topic provided", or a TypeError on a `null` request; otherwise its run is exactly `publishToTopic` of the serialised `sayHello` reply to the reply topic |
| Replier.HandlerListsRegisterOneTopic | services/admin_service/src/repliers/replier.ts:49 | each service's handler list routes only its own test topic to its welcome handler |
| Replier.ReplyReachesWaitingCaller | api_gateway/src/receivers/receiver.ts:90-96 | when parsing inverts serialising, the gateway's listener on the reply topic resolves with exactly the `sayHello` reply that the user service's handler publishes there (services/user_service/src/repliers/replier.ts lines 27-29) |
| Password.Missing | services/user_service/src/utils/password_validation.ts:33-40 | the unmet requirements are listed in the fixed order length, lowercase, uppercase, digit, special, each at most once |
| Password.MissingIffUnmet | services/user_service/src/utils/password_validation.ts:35-40 | a requirement is listed iff the password fails it |
| Password.NoneMissingIffAllHold | services/user_service/src/utils/password_validation.ts:43 | the list is empty iff all five requirements hold |
| Password.CheckPassword | services/user_service/src/utils/password_validation.ts:43-54 | no error iff every requirement holds; otherwise one error on `password` whose message lists the failed requirements |
| Password.Utf16LengthOfBmp | services/user_service/src/utils/password_validation.ts:35 | on text within the Basic Multilingual Plane, `length` is the number of characters |
| Password.AstralCharactersCountTwice | services/user_service/src/utils/password_validation.ts:35 | "Aa1!" followed by two emoji is 6 characters but 8 code units, so the length requirement is met |
| Password.LengthReportedIffShort | services/user_service/src/utils/password_validation.ts:35 | the length requirement is reported iff the password has fewer than 8 UTF-16 code units |
| Password.PasswordHook | services/user_service/src/models/User.ts:32-60 | `next` is called exactly once: with no error for an absent or empty password, and otherwise with the result of the shared checks, which is no error iff all five requirements hold |
| Password.ValidatePasswordAsWritten | services/user_service/src/utils/password_validation.ts:20-58 | as written: an empty password calls `next` twice, and an absent one calls `next` and then throws |
| Password.MissingOfEmpty | services/user_service/src/utils/password_validation.ts:35-40 | the empty password fails all five requirements |
| Password.EmptyPasswordCallsNextTwice | services/user_service/src/utils/password_validation.ts:29-31 | as written, the empty password reaches `next` twice, the second time with an error; the hook calls it once |
| Text.NatToStringRoundTrip | api_gateway/src/mqtt/mqtt_client.ts:55 | reading back the decimal rendering of a port gives the port |
| Text.SplitJoin | services/user_service/src/utils/image_checker.ts:25-27 | joining the pieces of a split with the separator gives back the string |
| Text.JoinSplit | services/user_service/src/utils/image_checker.ts:34-36 | splitting a join of separator-free pieces gives back the pieces |
| Text.FirstPiece | services/user_service/src/utils/image_checker.ts:35 | the first piece of a split is the text before the first separator, or the whole string |
| Text.SecondPiece | services/user_service/src/utils/image_checker.ts:26 | the second piece of a split is exactly the text after the first separator up to the next one or the end |
| ImageCheck.ScanBase64 | services/user_service/src/utils/image_checker.ts:14-18 | the scan accepts iff the text matches the Base64 pattern, whose length is then a multiple of 4 |
| ImageCheck.ExtractBase64 | services/user_service/src/utils/image_checker.ts:25-27 | none iff there is no comma; otherwise exactly the text between the first and the second comma (or the end) |
| ImageCheck.MimePiece | services/user_service/src/utils/image_checker.ts:35 | cutting the piece after the first ':' at its first ';' gives the text after the first ':' up to the next ':' or ';' or the end |
| ImageCheck.ExtractMimeType | services/user_service/src/utils/image_checker.ts:34-36 | a TypeError iff the part before the first comma has no colon; otherwise exactly the text after that part's first colon up to the next colon, semicolon or its end |
| ImageCheck.CheckImage | services/user_service/src/utils/image_checker.ts:213-273 | an absent or empty picture passes; a data URL with no colon before its first comma throws; a MIME type other than jpeg or png, or a base64 part that fails the pattern, gives "Invalid image format" on profilePicture; an unsuitable image gives "Image is not suitable"; suitability is asked only after the format checks |
| ImageCheck.SuitabilityOnlyAfterFormatChecks | services/user_service/src/utils/image_checker.ts:229-256 | a picture that fails a format check gets the same verdict whatever the suitability service says |
| ImageCheck.Encode | services/user_service/src/utils/image_checker.ts:14-18 | a reference Base64 encoder, not code of the service, that serves as the partner of the `isBase64` pattern: the text of n bytes has length 4·⌈n/3⌉ |
| ImageCheck.EncodingIsBase64 | services/user_service/src/utils/image_checker.ts:14-18 | every Base64 encoding of bytes passes the pattern check |
| ImageCheck.NoCommaIsInvalid | services/user_service/src/utils/image_checker.ts:25-27 | a data URL without a comma is never valid Base64, because the check sees the text "undefined" |
| UserCreation.ErrorReply | services/user_service/src/logic/user_creation.ts:48-71 | validation and cast errors are 400 with their message; a Mongo server error is 409 for code 11000 and 500 otherwise, both saying the email already exists; any other error is 500 "Unknown error"; a Mongo server error without a key value throws |
| UserCreation.CreatedBody | services/user_service/src/logic/user_creation.ts:24-42 | the reply has the stored fields without password, `__v` and `_id`, plus status 201 and the converted date of birth |
| UserCreation.NewDocument | services/user_service/src/models/User.ts:4-30 | `new UserModel(data)` keeps exactly the declared paths the input has, each cast to its type, plus the defaults (`_id`, `emailVerification` and `isAdmin` false, `profilePicture` '', `blockedUsers` []) for declared paths it leaves out |
| UserCreation.GatewayKeysDropped | services/user_service/src/logic/user_creation.ts:10 | the gateway's `correlationId` and `replyTopic` never reach the user document, and `isAdmin` is false unless the input sets it |
| UserCreation.CreateUser | services/user_service/src/logic/user_creation.ts:5-77 | the document the constructor built is saved iff validation passes and hashing succeeds, with the password replaced by its hash, so only declared paths are saved; each stage's error picks the reply, a hashing failure being 500 "Unknown error"; a reply never carries the password; status 201 iff the save succeeded |
| GatewayChecks.Find | api_gateway/src/utils/topic_finder.ts:8-14 | the index of the first occurrence of the topic, or none when absent |
| GatewayChecks.FindTopic | api_gateway/src/utils/topic_finder.ts:8-14 | success iff the topic is listed and non-empty, returning it; otherwise "Topic … not found" |
| GatewayChecks.ErrorMessage | api_gateway/src/utils/response_checker.ts:28-30 | the error text used, which is always truthy |
| GatewayChecks.HandleServiceError | api_gateway/src/utils/response_checker.ts:15-36 | passes iff the status is 200 or 201; a 500 throws naming the service and the message; any other status, an absent one included, is sent back with `{ error: { message } }` |
| GatewayChecks.ServiceErrorForwarded | api_gateway/src/utils/response_checker.ts:31-34 | a service's error response reaches the HTTP client with its status and message |
| GatewayChecks.SuccessReplyPasses | api_gateway/src/utils/response_checker.ts:21-23 | a service's success response always passes the check |
| Controllers.UserMessage | api_gateway/src/controllers/user_controller.ts:25-29 | the message has the body's keys plus correlation id and reply topic; body fields win |
| Controllers.CreateUser | api_gateway/src/controllers/user_controller.ts:9-55 | a missing topic or a client failure goes to `next`; otherwise one request to the topic with a fresh reply topic; a failed round trip goes to `next` with its error; a passing reply is 201 without correlation id and status; a failing one ends as the service check decides: a 500 goes to `next` as "User_Microservice: <message>", any other status is sent back |
| Controllers.RequestOf | api_gateway/src/controllers/welcome_controller.ts:41-54 | each greeting goes to the service's test topic, asks for the reply on that topic plus "/1", and carries its correlation id, the name "Gateway", its greeting and the reply topic |
| Controllers.Lookups | api_gateway/src/controllers/welcome_controller.ts:41-122 | entry i is `findTopic` of backend i's test topic in backend i's list |
| Controllers.AskAll | api_gateway/src/controllers/welcome_controller.ts:41-122 | at most one greeting per service; the run ends without error iff every service replied; an error leaves at most one greeting unanswered |
| Controllers.AskedAt | api_gateway/src/controllers/welcome_controller.ts:41-122 | the i-th greeting is to the i-th service with the i-th fresh id, and that service's topic lookup succeeded |
| Controllers.RepliedAt | api_gateway/src/controllers/welcome_controller.ts:41-122 | the i-th reply is the answer to the i-th greeting; the run stops at the greeting that failed |
| Controllers.StoppedAt | api_gateway/src/controllers/welcome_controller.ts:41-122 | a run that stops with no failed greeting stopped at the next service, whose topic lookup failed with the run's error |
| Controllers.WelcomeGreetings | api_gateway/src/controllers/welcome_controller.ts:41-122 | greetings go in list order with the i-th fresh id, and every greeting but the last was answered |
| Controllers.WelcomeStops | api_gateway/src/controllers/welcome_controller.ts:41-122 | without an error every service was greeted and answered; with one, the last greeting's wait failed or the next lookup failed |
| Controllers.FirstFailedCheck | api_gateway/src/controllers/welcome_controller.ts:138-146 | the first reply that does not pass its service check, or none |
| Controllers.Aggregate | api_gateway/src/controllers/welcome_controller.ts:148-161 | the body has exactly the five service keys, each holding that service's reply without status |
| Controllers.Verdict | api_gateway/src/controllers/welcome_controller.ts:131-163 | 200 with the aggregate iff every reply passes; otherwise the first failing reply decides |
| Controllers.VerdictIgnoresLaterReplies | api_gateway/src/controllers/welcome_controller.ts:138-146 | replies after the first failing one do not change the outcome |
| Controllers.FirstFailureAgrees | api_gateway/src/controllers/welcome_controller.ts:138-146 | two reply lists that agree up to a failing reply have the same first failure |
| Controllers.StrippedReplies | api_gateway/src/controllers/welcome_controller.ts:131-135 | each reply without its correlation id |
| Controllers.WelcomeErrorIs | api_gateway/src/controllers/welcome_controller.ts:41-122 | a run stops with the failure of the last greeting's wait, or else with the failed lookup of the next service's test topic |
| Controllers.LookupFailed | api_gateway/src/utils/topic_finder.ts:8-14 | a failed test-topic lookup means the topic is not listed, and its error is "Topic <t> not found" |
| Controllers.GreetServicesError | api_gateway/src/controllers/welcome_controller.ts:37-166 | when the greetings stop early, `next` gets the failed wait's error, or else "Topic <t> not found" for the next service, whose test topic is not listed |
| Controllers.WaitErrorForwarded | api_gateway/src/controllers/welcome_controller.ts:37-166 | when the last greeting's wait failed, `next` gets exactly that wait's error |
| Controllers.LookupErrorForwarded | api_gateway/src/controllers/welcome_controller.ts:37-166 | when the greetings stop before a service whose predecessor answered, that service's test topic is not listed and `next` gets "Topic <t> not found" |
| Controllers.GreetServices | api_gateway/src/controllers/welcome_controller.ts:41-163 | greetings go in order with fresh ids; the first failed wait or missing test topic goes to `next` and stops the run; once all replied, the verdict on the replies without correlation id decides |
| Controllers.WelcomeController | api_gateway/src/controllers/welcome_controller.ts:32-167 | a client failure goes to `next` before any greeting; otherwise the services are greeted in the order user, admin, ad, chat, notification |
| Controllers.FreshCorrelationIds | api_gateway/src/controllers/welcome_controller.ts:41-122 | with distinct ids drawn, the greetings carry pairwise distinct correlation ids |

## Left out

- JavaScript numbers are modelled as unbounded integers. Floating point and `NaN` from `parseInt` are not modelled; `parseInt` is an oracle.
- `JSON.parse`, `JSON.stringify`, bcrypt hashing, mongoose validation and saving, and the date conversion are oracles, because they are library code.
- `isSuitableImage`, `writeImageToFile` and `deleteImage` are left out: they call an external HTTP service or the file system. Suitability is an oracle of `CheckImage`.
- `handleIncomingMessage` is a parameter of the controllers: it is imported from `receivers/receiver.ts` but its body is not part of this model. The controllers see only its result, a reply or an error.
- The topic lists of `topics.ts` are parameters; that file is not part of this model.
- Controllers.WelcomeController: the round trip of each greeting is the abstract `greet` oracle applied to the greeting, not the full subscribe/publish/wait sequence.
- In `dispatchMessages`, the `runSubscriptions` and `getClient` calls are left out; the router is given the client's message stream.
- Timers and message listeners are modelled as traces of events in delivery order, not as concurrent callbacks. Interleavings of several concurrent requests are not modelled.
- Express behaviour is not modelled. This includes `res.status(undefined)`, which arises when a failing reply has no status.
- Replies that are not JSON objects are not modelled: the controllers take the reply as an object.
- UserCreation.ErrorReply: mongoose's own wording of validation messages is an input, not rebuilt.
- UserCreation.NewDocument: the cast of each value to its path's type (a date, a boolean, the nested `fullName`, the id array) is the `cast` oracle, and a failed cast is one of `validate`'s errors. Only the top-level strict filter and the schema defaults are modelled.
- Process start-up files (`app.ts` of each service, `main.py`), the other database schemas, the broker and the web client are not part of this model. They are wiring, declarations or UI.
- What happens after a worker's message listener rejects is not modelled. The model ends at the error that the parse, the handler or the router raises. Nothing in the code catches it, and Node's unhandled-rejection handling (by default: print it and exit the process) is runtime behaviour outside the program.
- Logging calls are recorded only where they are the sole effect (an unknown correlation id, an unrouted topic).
- PendingTable.Settle: continuations are taken to return normally without touching the table. The source calls the continuation before it deletes the entry (`api_gateway/src/mqtt/message_handler.ts` lines 39-40 and 58-59), so one that throws would leave the entry in place and one that re-enters could register the id again; `SettledAtMostOnce` holds under that assumption only. A promise's own resolve and reject functions meet it.

## Findings

| source | as written | input that shows it | evidently intended | confidence | as-written member | corrected member |
|---|---|---|---|---|---|---|
| services/user_service/src/utils/password_validation.ts:29-31 | an absent or empty password calls `next()` without returning, so validation carries on | the password `""`: `next()` runs, then `next` runs again with an error listing all five requirements | call `next()` once and stop, as the `User` model's save hook does with `return next()` | not executed | Password.ValidatePasswordAsWritten, Password.EmptyPasswordCallsNextTwice | Password.PasswordHook |
