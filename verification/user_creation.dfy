/**
 * `createUser` of the user service: validate the document, hash the
 * peppered password, save, and turn either the stored document or the
 * caught error into the reply object.
 */
module UserCreation {
  import opened Wrappers
  import opened Json
  import opened Responses

  /** The errors `createUser` tells apart in its `catch` block. */
  datatype DbError =
    | ValidationError(message: string)
    | CastError(message: string)
    | MongoServerError(code: int, keyValue: Option<Object>)
    | OtherError(message: string)

  /** The MongoDB duplicate-key error code. */
  const DuplicateKey: int := 11000

  /**
   * The database and hashing library, as oracles: `cast` is mongoose's
   * cast of a value to its schema path's type, `newId` the `_id` the
   * constructor generates, `validate` runs the schema's validators (cast
   * failures included) and its pre-validate hooks, `hash` is bcrypt, whose
   * failures are plain errors, `save` returns the stored document as
   * `toObject` shows it, and `toTimestamp` is `new Date(v).getTime()`.
   */
  datatype Backend = Backend(
    cast: (string, Value) -> Value,
    newId: Value,
    validate: Object -> Outcome<DbError>,
    hash: string -> Result<string, string>,
    save: Object -> Result<Object, DbError>,
    toTimestamp: Option<Value> -> Value)

  /** The paths the `User` schema declares, with mongoose's implicit `_id`. */
  const DeclaredPaths: set<string> :=
    {"_id", "fullName", "email", "emailVerification", "dateOfBirth", "isAdmin",
     "profilePicture", "blockedUsers", "password", "sessionTime"}

  /** The schema's defaults, for the paths the input leaves `undefined`. */
  function Defaults(id: Value): (d: Object)
    ensures d.Keys <= DeclaredPaths
  {
    map["_id" := id, "emailVerification" := JBool(false), "isAdmin" := JBool(false),
        "profilePicture" := JStr(""), "blockedUsers" := JArr([])]
  }

  /**
   * `new UserModel(data)` in mongoose's default strict mode: keys the
   * schema does not declare are dropped, every declared key is cast to
   * its path's type, and the defaults fill the declared paths the input
   * leaves out.
   */
  function NewDocument(data: Object, cast: (string, Value) -> Value, id: Value): (user: Object)
    ensures user.Keys == (data.Keys * DeclaredPaths) + Defaults(id).Keys
    ensures user.Keys <= DeclaredPaths
    ensures forall k :: k in data && k in DeclaredPaths ==> user[k] == cast(k, data[k])
    ensures forall k :: k in Defaults(id) && k !in data ==> user[k] == Defaults(id)[k]
  {
    var defaults := Defaults(id);
    map k | k in (data.Keys * DeclaredPaths) + defaults.Keys ::
      if k in data then cast(k, data[k]) else defaults[k]
  }

  /**
   * The gateway's `correlationId` and `replyTopic` ride along in the
   * request but never reach the document, and the defaulted flags are
   * always set.
   */
  lemma GatewayKeysDropped(data: Object, cast: (string, Value) -> Value, id: Value)
    ensures var user := NewDocument(data, cast, id);
      && "correlationId" !in user && "replyTopic" !in user
      && "emailVerification" in user && "isAdmin" in user && "profilePicture" in user
      && ("isAdmin" !in data ==> user["isAdmin"] == JBool(false))
  {
    var user := NewDocument(data, cast, id);
    assert "correlationId" !in DeclaredPaths && "replyTopic" !in DeclaredPaths;
    assert "isAdmin" in Defaults(id) && Defaults(id)["isAdmin"] == JBool(false);
    assert "emailVerification" in Defaults(id) && "profilePicture" in Defaults(id);
  }

  /**
   * The reply (or the error thrown out of the `catch` block) and the
   * document handed to `save`, if the run got that far.
   */
  datatype CreationRun = CreationRun(reply: Result<Object, string>, submitted: Option<Object>)

  /** Keys removed from the stored document before it is returned. */
  const Hidden: set<string> := {"password", "__v", "_id"}

  function Lookup(o: Object, key: string): Option<Value> {
    if key in o then Some(o[key]) else None
  }

  /** `${x}` of a property that may be `undefined`. */
  function DisplayOr(v: Option<Value>): string {
    if v.Some? then Display(v.value) else "undefined"
  }

  function DuplicateEmailMessage(keyValue: Object): string {
    "User with email " + DisplayOr(Lookup(keyValue, "email")) + " already exists"
  }

  /**
   * The `catch` block. Validation and cast errors give 400 with their
   * message; a MongoDB server error gives 409 for a duplicate key and 500
   * otherwise, both with the duplicate-email message (reading `email` of
   * a missing `keyValue` throws); anything else gives 500 "Unknown error".
   */
  function ErrorReply(e: DbError): (r: Result<Object, string>)
    ensures r.Failure? <==> e.MongoServerError? && e.keyValue.None?
    ensures r.Success? ==> r.value.Keys == {"status", "error"}
    ensures r.Success? ==>
      var status := if e.ValidationError? || e.CastError? then 400
                    else if e.MongoServerError? && e.code == DuplicateKey then 409
                    else 500;
      var message := if e.ValidationError? || e.CastError? || e.OtherError? then
                       (if e.OtherError? then "Unknown error" else e.message)
                     else DuplicateEmailMessage(e.keyValue.value);
      && FromObject(r.value) == Some(ErrorResponse(status, message))
      && r.value == ToObject(ErrorResponse(status, message))
  {
    match e
    case ValidationError(m) => Success(ToObject(ErrorResponse(400, m)))
    case CastError(m) => Success(ToObject(ErrorResponse(400, m)))
    case MongoServerError(code, keyValue) =>
      if keyValue.None? then Failure("TypeError: Cannot read properties of undefined (reading 'email')")
      else
        var status := if code == DuplicateKey then 409 else 500;
        Success(ToObject(ErrorResponse(status, DuplicateEmailMessage(keyValue.value))))
    case OtherError(_) => Success(ToObject(ErrorResponse(500, "Unknown error")))
  }

  /**
   * The success reply: the stored document without `password`, `__v` and
   * `_id`, with `status` 201 and `dateOfBirth` as a timestamp. Every other
   * field is passed through unchanged.
   */
  function CreatedBody(stored: Object, toTimestamp: Option<Value> -> Value): (res: Object)
    ensures res.Keys == (stored.Keys - Hidden) + {"status", "dateOfBirth"}
    ensures res["status"] == JNum(201)
    ensures res["dateOfBirth"] == toTimestamp(Lookup(stored, "dateOfBirth"))
    ensures forall k :: k in stored && k !in Hidden && k != "status" && k != "dateOfBirth" ==> res[k] == stored[k]
  {
    var res := stored - Hidden;
    assert Lookup(res, "dateOfBirth") == Lookup(stored, "dateOfBirth");
    res["status" := JNum(201)]["dateOfBirth" := toTimestamp(Lookup(res, "dateOfBirth"))]
  }

  /** `user.password + process.env.PEPPER`, either side possibly `undefined`. */
  function PepperedPassword(doc: Object, pepper: Option<string>): string {
    DisplayOr(Lookup(doc, "password")) + pepper.GetOr("undefined")
  }

  /**
   * `createUser(data)`: the document is what the model's constructor
   * builds from `data`; nothing reaches the database unless validation
   * passes and hashing succeeds; what is saved is that document with its
   * password replaced by the hash of the peppered password, so only
   * declared paths are saved; the reply is the created user exactly when
   * the save succeeds, and otherwise the error reply of the first failing
   * stage, a hashing failure being the 500 "Unknown error". No reply
   * carries a password.
   */
  function CreateUser(data: Object, pepper: Option<string>, b: Backend): (run: CreationRun)
    ensures var user := NewDocument(data, b.cast, b.newId);
      run.submitted.Some? <==> b.validate(user).Pass? && b.hash(PepperedPassword(user, pepper)).Success?
    ensures var user := NewDocument(data, b.cast, b.newId);
      run.submitted.Some? ==>
        && run.submitted.value.Keys == user.Keys + {"password"}
        && run.submitted.value["password"] == JStr(b.hash(PepperedPassword(user, pepper)).value)
        && (forall k :: k in user && k != "password" ==> run.submitted.value[k] == user[k])
    ensures run.submitted.Some? ==> run.submitted.value.Keys <= DeclaredPaths
    ensures var user := NewDocument(data, b.cast, b.newId);
      b.validate(user).Fail? ==> run.reply == ErrorReply(b.validate(user).error)
    ensures var user := NewDocument(data, b.cast, b.newId);
      b.validate(user).Pass? && b.hash(PepperedPassword(user, pepper)).Failure? ==>
        run.reply == Success(ToObject(ErrorResponse(500, "Unknown error")))
    ensures run.submitted.Some? ==>
      match b.save(run.submitted.value)
      case Success(stored) => run.reply == Success(CreatedBody(stored, b.toTimestamp))
      case Failure(e) => run.reply == ErrorReply(e)
    ensures run.reply.Success? ==> "password" !in run.reply.value
    ensures run.reply.Success? ==>
      (Lookup(run.reply.value, "status") == Some(JNum(201)) <==> run.submitted.Some? && b.save(run.submitted.value).Success?)
  {
    var user := NewDocument(data, b.cast, b.newId);
    match b.validate(user)
    case Fail(e) => CreationRun(ErrorReply(e), None)
    case Pass =>
      match b.hash(PepperedPassword(user, pepper))
      case Failure(e) => CreationRun(ErrorReply(OtherError(e)), None)
      case Success(h) =>
        var toSave := user["password" := JStr(h)];
        HashStored(user, h);
        match b.save(toSave)
        case Failure(e) =>
          ErrorStatusNot201(e);
          CreationRun(ErrorReply(e), Some(toSave))
        case Success(stored) => CreationRun(Success(CreatedBody(stored, b.toTimestamp)), Some(toSave))
  }

  /**
   * Storing the hash in a built document keeps it within the declared
   * paths and leaves every other field as the constructor built it.
   */
  lemma HashStored(user: Object, h: string)
    requires user.Keys <= DeclaredPaths
    ensures var stored := user["password" := JStr(h)];
      && stored.Keys == user.Keys + {"password"}
      && stored.Keys <= DeclaredPaths
      && (forall k :: k in user && k != "password" ==> stored[k] == user[k])
  {
    assert "password" in DeclaredPaths;
  }

  /** An error reply never reports 201. */
  lemma ErrorStatusNot201(e: DbError)
    ensures ErrorReply(e).Success? ==> Lookup(ErrorReply(e).value, "status") != Some(JNum(201))
  {
  }
}
