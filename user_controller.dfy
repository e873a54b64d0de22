/**
 * The `/user` REST handlers: building a user record from a request body, the partial-update merge,
 * and the `success`/`message` result maps every handler fills.
 */
module UserController {
  import opened Wrappers
  import opened JavaLang
  import opened Entity
  import opened EngineClient
  import opened Envelope
  import UserService

  // ---------------------------------------------------------------------------
  // Request bodies

  /** A deserialized JSON value of a request body, as far as the handlers look at it. */
  datatype Json =
    | JNull
    | JString(s: string)
    | JInteger(n: int)        // an Integer, Long or BigInteger
    | JFloat(text: string)    // a Double, with the text `Double.toString` gives it
    | JBool(b: bool)
    | JComposite(text: string) // a list or an object, with the text its `toString` gives it

  /** `v.toString()` */
  function ToText(v: Json): string {
    match v
    case JNull => "null"
    case JString(s) => s
    case JInteger(n) => DecimalText(n)
    case JFloat(t) => t
    case JBool(b) => if b then "true" else "false"
    case JComposite(t) => t
  }

  /** A request body `Map<String, Object>`. */
  type Body = map<string, Json>

  /** `body.get(key)`: `null` both for a missing key and for an explicit JSON null. */
  function Get(body: Body, key: string): (r: Option<Json>)
    ensures r.None? <==> key !in body || body[key] == JNull
    ensures r.Some? ==> r.value == body[key] && r.value != JNull
  {
    if key in body && body[key] != JNull then Some(body[key]) else None
  }

  /** `(String) body.get(key)` */
  function StringField(body: Body, key: string): (r: Result<Option<string>, Exception>)
    ensures Get(body, key).None? ==> r == Ok(None)
    ensures Get(body, key).Some? && Get(body, key).value.JString? ==> r == Ok(Some(Get(body, key).value.s))
    ensures Get(body, key).Some? && !Get(body, key).value.JString? ==> r == Err(ClassCastException)
  {
    match Get(body, key)
    case None => Ok(None)
    case Some(JString(s)) => Ok(Some(s))
    case Some(_) => Err(ClassCastException)
  }

  /** `body.get("age") != null ? Integer.valueOf(body.get("age").toString()) : null` */
  function AgeField(body: Body): (r: Result<Option<Int32>, Exception>)
    ensures Get(body, "age").None? ==> r == Ok(None)
    ensures Get(body, "age").Some? ==> (r.Ok? <==> ParseInt(ToText(body["age"])).Some?)
    ensures Get(body, "age").Some? && r.Ok? ==> r.value == ParseInt(ToText(body["age"]))
    ensures r.Err? ==> r.error == NumberFormatException(ToText(body["age"]))
  {
    match Get(body, "age")
    case None => Ok(None)
    case Some(v) =>
      match ParseInt(ToText(v))
      case Some(n) => Ok(Some(n))
      case None => Err(NumberFormatException(ToText(v)))
  }

  /** An integral JSON age within the `int` range is read back as that number. */
  lemma AgeOfInteger(body: Body, n: int)
    requires "age" in body && body["age"] == JInteger(n) && INT_MIN <= n <= INT_MAX
    ensures AgeField(body) == Ok(Some(n))
  {
    ParseDecimalText(n);
  }

  /**
   * `body.get("score") != null ? Double.valueOf(body.get("score").toString()) : null`, where
   * `doubleOf` stands for `Double.valueOf` (`None` for the text it rejects).
   */
  function ScoreField(body: Body, doubleOf: string -> Option<Score>): (r: Result<Option<Score>, Exception>)
    ensures Get(body, "score").None? ==> r == Ok(None)
    ensures Get(body, "score").Some? ==> (r.Ok? <==> doubleOf(ToText(body["score"])).Some?)
    ensures Get(body, "score").Some? && r.Ok? ==> r.value == doubleOf(ToText(body["score"]))
    ensures r.Err? ==> r.error == NumberFormatException(ToText(body["score"]))
  {
    match Get(body, "score")
    case None => Ok(None)
    case Some(v) =>
      match doubleOf(ToText(v))
      case Some(x) => Ok(Some(x))
      case None => Err(NumberFormatException(ToText(v)))
  }

  // ---------------------------------------------------------------------------
  // Record construction (createUser / createUsers)

  /** Whether every field conversion of a body succeeds. */
  predicate Converts(body: Body, doubleOf: string -> Option<Score>) {
    StringField(body, "username").Ok? && StringField(body, "email").Ok? && AgeField(body).Ok? &&
    StringField(body, "gender").Ok? && StringField(body, "city").Ok? && StringField(body, "bio").Ok? &&
    ScoreField(body, doubleOf).Ok?
  }

  /**
   * The builder of `createUser`: a fresh identity, both timestamps `now`, active, no tags, and the
   * seven body fields converted in builder order (the first failed conversion is thrown).
   */
  function BuildUser(body: Body, freshId: string, now: Timestamp, doubleOf: string -> Option<Score>): (r: Result<User, Exception>)
    ensures r.Ok? <==> Converts(body, doubleOf)
    ensures r.Ok? ==> r.value.id == Some(freshId) && r.value.createTime == Some(now) && r.value.updateTime == Some(now)
    ensures r.Ok? ==> r.value.isActive == Some(true) && r.value.tags.None?
    ensures r.Ok? ==> r.value.username == StringField(body, "username").value && r.value.email == StringField(body, "email").value
    ensures r.Ok? ==> r.value.gender == StringField(body, "gender").value && r.value.city == StringField(body, "city").value
    ensures r.Ok? ==> r.value.bio == StringField(body, "bio").value
    ensures r.Ok? ==> r.value.age == AgeField(body).value && r.value.score == ScoreField(body, doubleOf).value
    ensures StringField(body, "username").Err? ==> r == Err(ClassCastException)
    ensures (StringField(body, "username").Ok? && StringField(body, "email").Err?) ==> r == Err(ClassCastException)
    ensures (StringField(body, "username").Ok? && StringField(body, "email").Ok? && AgeField(body).Err?) ==> r == Err(AgeField(body).error)
    ensures (StringField(body, "username").Ok? && StringField(body, "email").Ok? && AgeField(body).Ok? &&
      StringField(body, "gender").Err?) ==> r == Err(ClassCastException)
    ensures (StringField(body, "username").Ok? && StringField(body, "email").Ok? && AgeField(body).Ok? &&
      StringField(body, "gender").Ok? && StringField(body, "city").Err?) ==> r == Err(ClassCastException)
    ensures (StringField(body, "username").Ok? && StringField(body, "email").Ok? && AgeField(body).Ok? &&
      StringField(body, "gender").Ok? && StringField(body, "city").Ok? && StringField(body, "bio").Err?) ==> r == Err(ClassCastException)
    ensures (StringField(body, "username").Ok? && StringField(body, "email").Ok? && AgeField(body).Ok? &&
      StringField(body, "gender").Ok? && StringField(body, "city").Ok? && StringField(body, "bio").Ok? &&
      ScoreField(body, doubleOf).Err?) ==> r == Err(ScoreField(body, doubleOf).error)
  {
    var username :- StringField(body, "username");
    var email :- StringField(body, "email");
    var age :- AgeField(body);
    var gender :- StringField(body, "gender");
    var city :- StringField(body, "city");
    var bio :- StringField(body, "bio");
    var score :- ScoreField(body, doubleOf);
    Ok(User(Some(freshId), username, email, age, gender, city, bio, None, Some(now), Some(now), Some(true), score))
  }

  /** A built record is already in the shape the service defaults to: defaulting only re-stamps the update time. */
  lemma BuiltUserIsDefaulted(body: Body, freshId: string, otherId: string, now: Timestamp, doubleOf: string -> Option<Score>)
    requires BuildUser(body, freshId, now, doubleOf).Ok?
    ensures UserService.Defaulted(BuildUser(body, freshId, now, doubleOf).value, otherId, now) == BuildUser(body, freshId, now, doubleOf).value
  {
  }

  /** The results of the conversions, in order; `collect` keeps the values and stops at the first failure. */
  function Collect<T, E>(rs: seq<Result<T, E>>): (r: Result<seq<T>, E>)
    ensures r.Ok? ==> |r.value| == |rs|
  {
    if rs == [] then Ok([])
    else
      var first :- rs[0];
      var rest :- Collect(rs[1..]);
      Ok([first] + rest)
  }

  /** Collecting succeeds exactly when every result is a value, and then keeps each value at its position. */
  lemma {:induction false} CollectElementwise<T, E>(rs: seq<Result<T, E>>)
    ensures Collect(rs).Ok? <==> forall i :: 0 <= i < |rs| ==> rs[i].Ok?
    ensures Collect(rs).Ok? ==> forall i :: 0 <= i < |rs| ==> Collect(rs).value[i] == rs[i].value
  {
    if rs != [] {
      CollectElementwise(rs[1..]);
      assert forall i :: 1 <= i < |rs| ==> rs[1..][i - 1] == rs[i];
    }
  }

  /** A failed collection carries the error of its first failed result. */
  lemma {:induction false} CollectFirstError<T, E>(rs: seq<Result<T, E>>)
    requires Collect(rs).Err?
    ensures exists i :: 0 <= i < |rs| && rs[i] == Err(Collect(rs).error) && forall j :: 0 <= j < i ==> rs[j].Ok?
  {
    if rs[0].Ok? {
      CollectFirstError(rs[1..]);
      var k :| 0 <= k < |rs| - 1 && rs[1..][k] == Err(Collect(rs).error) && forall j :: 0 <= j < k ==> rs[1..][j].Ok?;
      assert forall j :: 1 <= j <= k ==> rs[1..][j - 1] == rs[j];
      assert rs[k + 1] == rs[1..][k];
    }
  }

  /** Every body converted as by `createUser`, each with its own fresh id. */
  function BuildEach(bodies: seq<Body>, freshIds: seq<string>, now: Timestamp, doubleOf: string -> Option<Score>): (rs: seq<Result<User, Exception>>)
    requires |freshIds| == |bodies|
    ensures |rs| == |bodies|
    ensures forall i :: 0 <= i < |bodies| ==> rs[i] == BuildUser(bodies[i], freshIds[i], now, doubleOf)
  {
    seq(|bodies|, i requires 0 <= i < |bodies| => BuildUser(bodies[i], freshIds[i], now, doubleOf))
  }

  /** The stream map of `createUsers`: every body built as by `createUser`, in order; the first failure aborts. */
  function BuildAll(bodies: seq<Body>, freshIds: seq<string>, now: Timestamp, doubleOf: string -> Option<Score>): (r: Result<seq<User>, Exception>)
    requires |freshIds| == |bodies|
    ensures r.Ok? ==> |r.value| == |bodies|
  {
    Collect(BuildEach(bodies, freshIds, now, doubleOf))
  }

  /** The batch builds exactly when every body builds, and then holds each body's record at its position. */
  lemma BuildAllElementwise(bodies: seq<Body>, freshIds: seq<string>, now: Timestamp, doubleOf: string -> Option<Score>)
    requires |freshIds| == |bodies|
    ensures BuildAll(bodies, freshIds, now, doubleOf).Ok? <==> forall i :: 0 <= i < |bodies| ==> BuildUser(bodies[i], freshIds[i], now, doubleOf).Ok?
    ensures BuildAll(bodies, freshIds, now, doubleOf).Ok? ==>
      forall i :: 0 <= i < |bodies| ==> BuildAll(bodies, freshIds, now, doubleOf).value[i] == BuildUser(bodies[i], freshIds[i], now, doubleOf).value
  {
    CollectElementwise(BuildEach(bodies, freshIds, now, doubleOf));
  }

  /** A failed batch throws the exception of its first body that does not build. */
  lemma BuildAllFirstError(bodies: seq<Body>, freshIds: seq<string>, now: Timestamp, doubleOf: string -> Option<Score>)
    requires |freshIds| == |bodies|
    requires BuildAll(bodies, freshIds, now, doubleOf).Err?
    ensures exists i :: (0 <= i < |bodies| &&
      BuildUser(bodies[i], freshIds[i], now, doubleOf) == Err(BuildAll(bodies, freshIds, now, doubleOf).error) &&
      forall j :: 0 <= j < i ==> BuildUser(bodies[j], freshIds[j], now, doubleOf).Ok?)
  {
    var rs := BuildEach(bodies, freshIds, now, doubleOf);
    CollectFirstError(rs);
    var k :| 0 <= k < |rs| && rs[k] == Err(Collect(rs).error) && forall j :: 0 <= j < k ==> rs[j].Ok?;
    assert BuildUser(bodies[k], freshIds[k], now, doubleOf) == Err(BuildAll(bodies, freshIds, now, doubleOf).error);
  }

  // ---------------------------------------------------------------------------
  // The partial-update merge (updateUser)

  /** The seven patchable fields of an update body, converted; `None` leaves the stored value. */
  datatype Patch = Patch(
    username: Option<string>,
    email: Option<string>,
    age: Option<Int32>,
    gender: Option<string>,
    city: Option<string>,
    bio: Option<string>,
    score: Option<Score>)

  const EmptyPatch: Patch := Patch(None, None, None, None, None, None, None)

  /** The conversions of the merge, in the order the merge performs them. */
  function DecodePatch(body: Body, doubleOf: string -> Option<Score>): (r: Result<Patch, Exception>)
    ensures r.Ok? <==> Converts(body, doubleOf)
    ensures r.Ok? ==> r.value.username == StringField(body, "username").value && r.value.email == StringField(body, "email").value
    ensures r.Ok? ==> r.value.gender == StringField(body, "gender").value && r.value.city == StringField(body, "city").value
    ensures r.Ok? ==> r.value.bio == StringField(body, "bio").value
    ensures r.Ok? ==> r.value.age == AgeField(body).value && r.value.score == ScoreField(body, doubleOf).value
    ensures r.Err? ==> BuildUser(body, "", 0, doubleOf) == Err(r.error)
  {
    var username :- StringField(body, "username");
    var email :- StringField(body, "email");
    var age :- AgeField(body);
    var gender :- StringField(body, "gender");
    var city :- StringField(body, "city");
    var bio :- StringField(body, "bio");
    var score :- ScoreField(body, doubleOf);
    Ok(Patch(username, email, age, gender, city, bio, score))
  }

  /** A body with none of the seven keys (or only nulls under them) decodes to the empty patch. */
  lemma DecodeEmptyBody(body: Body, doubleOf: string -> Option<Score>)
    requires forall k :: k in ["username", "email", "age", "gender", "city", "bio", "score"] ==> Get(body, k).None?
    ensures DecodePatch(body, doubleOf) == Ok(EmptyPatch)
  {
    assert Get(body, "username").None? && Get(body, "email").None? && Get(body, "age").None?;
    assert Get(body, "gender").None? && Get(body, "city").None? && Get(body, "bio").None? && Get(body, "score").None?;
  }

  /** Overwrite a field only with a present value. */
  function Over<T>(current: Option<T>, patch: Option<T>): (r: Option<T>)
    ensures patch.Some? ==> r == patch
    ensures patch.None? ==> r == current
  {
    if patch.Some? then patch else current
  }

  /** The merged record: each of the seven fields is overwritten exactly when the patch carries it. */
  function Merged(existing: User, p: Patch): (u: User)
    ensures u.id == existing.id && u.tags == existing.tags && u.createTime == existing.createTime
    ensures u.updateTime == existing.updateTime && u.isActive == existing.isActive
  {
    existing.(username := Over(existing.username, p.username), email := Over(existing.email, p.email),
              age := Over(existing.age, p.age), gender := Over(existing.gender, p.gender),
              city := Over(existing.city, p.city), bio := Over(existing.bio, p.bio),
              score := Over(existing.score, p.score))
  }

  /** Merging the same patch twice is merging it once. */
  lemma MergeIdempotent(existing: User, p: Patch)
    ensures Merged(Merged(existing, p), p) == Merged(existing, p)
  {
  }

  /** The empty patch changes nothing. */
  lemma MergeEmptyPatch(existing: User)
    ensures Merged(existing, EmptyPatch) == existing
  {
  }

  /** A field whose key is absent or null in the body keeps its stored value; a present one is overwritten with the converted value. */
  lemma MergeFieldRule(existing: User, body: Body, doubleOf: string -> Option<Score>)
    requires DecodePatch(body, doubleOf).Ok?
    ensures var u := Merged(existing, DecodePatch(body, doubleOf).value);
      (Get(body, "username").None? ==> u.username == existing.username) &&
      (Get(body, "username").Some? ==> u.username == Some(body["username"].s)) &&
      (Get(body, "email").None? ==> u.email == existing.email) &&
      (Get(body, "email").Some? ==> u.email == Some(body["email"].s)) &&
      (Get(body, "gender").None? ==> u.gender == existing.gender) &&
      (Get(body, "gender").Some? ==> u.gender == Some(body["gender"].s)) &&
      (Get(body, "city").None? ==> u.city == existing.city) &&
      (Get(body, "city").Some? ==> u.city == Some(body["city"].s)) &&
      (Get(body, "bio").None? ==> u.bio == existing.bio) &&
      (Get(body, "bio").Some? ==> u.bio == Some(body["bio"].s)) &&
      (Get(body, "age").None? ==> u.age == existing.age) &&
      (Get(body, "age").Some? ==> u.age == ParseInt(ToText(body["age"]))) &&
      (Get(body, "score").None? ==> u.score == existing.score) &&
      (Get(body, "score").Some? ==> u.score == doubleOf(ToText(body["score"])))
  {
  }

  /**
   * The setter sequence of `updateUser` on the record found: each of the seven fields is set only
   * when the body carries a non-null value for it; a failed conversion is thrown.
   */
  method MergeInto(existing: User, body: Body, doubleOf: string -> Option<Score>) returns (r: Result<User, Exception>)
    ensures DecodePatch(body, doubleOf).Ok? ==> r == Ok(Merged(existing, DecodePatch(body, doubleOf).value))
    ensures DecodePatch(body, doubleOf).Err? ==> r == Err(DecodePatch(body, doubleOf).error)
  {
    var patch :- DecodePatch(body, doubleOf);
    var user := existing;
    if patch.username.Some? {
      user := user.(username := patch.username);
    }
    if patch.email.Some? {
      user := user.(email := patch.email);
    }
    if patch.age.Some? {
      user := user.(age := patch.age);
    }
    if patch.gender.Some? {
      user := user.(gender := patch.gender);
    }
    if patch.city.Some? {
      user := user.(city := patch.city);
    }
    if patch.bio.Some? {
      user := user.(bio := patch.bio);
    }
    if patch.score.Some? {
      user := user.(score := patch.score);
    }
    r := Ok(user);
  }

  // ---------------------------------------------------------------------------
  // Result maps

  /** A result map holding only the flag and the message. */
  function Status(success: bool, message: Value): (m: ObjectMap)
    ensures m.Keys == {"success", "message"} && m["success"] == VBool(success) && m["message"] == message
  {
    map["success" := VBool(success), "message" := message]
  }

  /** The result map of a caught exception: `success` false and `prefix + e.getMessage()`. */
  function Caught(prefix: string, e: Exception): (m: ObjectMap)
    ensures m.Keys == {"success", "message"} && m["success"] == VBool(false) && m["message"] == VFailure(prefix, e)
    ensures FailedWith(m, prefix)
  {
    Status(false, VFailure(prefix, e))
  }

  /** A failure map reporting a caught exception under `prefix`. */
  predicate FailedWith(m: ObjectMap, prefix: string) {
    "success" in m && m["success"] == VBool(false) && "message" in m && m["message"].VFailure? && m["message"].prefix == prefix
  }

  /** Whether a result map reports success. */
  predicate Succeeded(m: ObjectMap) {
    "success" in m && m["success"] == VBool(true)
  }

  /** POST /user: build, create, and report. */
  method CreateUser(body: Body, freshId: string, now: Timestamp, doubleOf: string -> Option<Score>, reply: Reply<WriteResult>)
    returns (request: Option<IndexRequest>, result: ObjectMap)
    ensures BuildUser(body, freshId, now, doubleOf).Err? ==>
      request.None? && result == Caught("创建用户失败: ", BuildUser(body, freshId, now, doubleOf).error)
    ensures BuildUser(body, freshId, now, doubleOf).Ok? ==> request == Some(UserService.IndexRequestFor(BuildUser(body, freshId, now, doubleOf).value))
    ensures Succeeded(result) <==> BuildUser(body, freshId, now, doubleOf).Ok? && reply == Answer(Created)
    ensures Succeeded(result) ==> result == Status(true, VText("用户创建成功"))["data" := VUser(BuildUser(body, freshId, now, doubleOf).value)]
    ensures !Succeeded(result) ==> FailedWith(result, "创建用户失败: ")
  {
    var built := BuildUser(body, freshId, now, doubleOf);
    if built.Err? {
      return None, Caught("创建用户失败: ", built.error);
    }
    var sent, created := UserService.CreateUser(built.value, freshId, now, reply);
    BuiltUserIsDefaulted(body, freshId, freshId, now, doubleOf);
    request := Some(sent);
    result := map[];
    if created.Ok? {
      result := result["success" := VBool(true)];
      result := result["message" := VText("用户创建成功")];
      result := result["data" := VUser(created.value)];
    } else {
      result := result["success" := VBool(false)];
      result := result["message" := VFailure("创建用户失败: ", created.error)];
    }
  }

  /** POST /user/batch: build every body, create them in one bulk request, and report the count. */
  method CreateUsers(bodies: seq<Body>, freshIds: seq<string>, now: Timestamp, doubleOf: string -> Option<Score>, reply: Reply<BulkResponse>)
    returns (operations: seq<IndexRequest>, result: ObjectMap)
    requires |freshIds| == |bodies|
    ensures BuildAll(bodies, freshIds, now, doubleOf).Err? ==>
      operations == [] && result == Caught("批量创建用户失败: ", BuildAll(bodies, freshIds, now, doubleOf).error)
    ensures BuildAll(bodies, freshIds, now, doubleOf).Ok? ==> (|operations| == |bodies| &&
      forall i :: 0 <= i < |bodies| ==> (BuildUser(bodies[i], freshIds[i], now, doubleOf).Ok? &&
        operations[i] == UserService.IndexRequestFor(BuildUser(bodies[i], freshIds[i], now, doubleOf).value)))
    ensures Succeeded(result) <==> bodies != [] && BuildAll(bodies, freshIds, now, doubleOf).Ok? && reply.Answer? && !reply.value.errors
    ensures bodies == [] ==> result == Caught("批量创建用户失败: ", MissingRequiredPropertyException(UserService.BULK_OPERATIONS))
    ensures Succeeded(result) ==> (result.Keys == {"success", "message", "data", "count"} &&
      result["message"] == VText("批量创建用户成功") && result["count"] == VInt(|bodies|) &&
      result["data"] == VUsers(BuildAll(bodies, freshIds, now, doubleOf).value))
    ensures !Succeeded(result) ==> FailedWith(result, "批量创建用户失败: ")
  {
    var built := BuildAll(bodies, freshIds, now, doubleOf);
    if built.Err? {
      return [], Caught("批量创建用户失败: ", built.error);
    }
    BuildAllElementwise(bodies, freshIds, now, doubleOf);
    var created;
    operations, created := UserService.CreateUsers(built.value, freshIds, now, reply);
    forall i | 0 <= i < |bodies|
      ensures UserService.Defaulted(built.value[i], freshIds[i], now) == built.value[i]
    {
      BuiltUserIsDefaulted(bodies[i], freshIds[i], freshIds[i], now, doubleOf);
    }
    if created.Ok? {
      assert created.value == built.value;
      result := map[];
      result := result["success" := VBool(true)];
      result := result["message" := VText("批量创建用户成功")];
      result := result["data" := VUsers(created.value)];
      result := result["count" := VInt(|created.value|)];
    } else {
      result := Caught("批量创建用户失败: ", created.error);
    }
  }

  /** GET /user/{id}: success exactly when the user exists. */
  method GetUserById(id: string, reply: Reply<Option<User>>) returns (request: GetDocumentRequest, result: ObjectMap)
    ensures request == UserService.FindByIdRequest(id)
    ensures Succeeded(result) <==> reply.Answer? && reply.value.Some?
    ensures Succeeded(result) ==> result == Status(true, VText("查询用户成功"))["data" := VUser(reply.value.value)]
    ensures reply == Answer(None) ==> result == Status(false, VText("用户不存在"))
    ensures !reply.Answer? ==> result == Caught("查询用户失败: ", UserService.FindById(reply).error)
  {
    request := UserService.FindByIdRequest(id);
    var found := UserService.FindById(reply);
    result := map[];
    if found.Err? {
      result := result["success" := VBool(false)];
      result := result["message" := VFailure("查询用户失败: ", found.error)];
    } else if found.value.Some? {
      result := result["success" := VBool(true)];
      result := result["message" := VText("查询用户成功")];
      result := result["data" := VUser(found.value.value)];
    } else {
      result := result["success" := VBool(false)];
      result := result["message" := VText("用户不存在")];
    }
  }

  /** GET /user/search/username: every match, with its count. */
  method GetUsersByUsername(username: string, reply: Reply<SearchResponse>) returns (request: SearchRequest, result: ObjectMap)
    ensures request == UserService.FindByUsernameRequest(username)
    ensures Succeeded(result) <==> reply.Answer?
    ensures reply.Answer? ==> result == Status(true, VText("查询用户成功"))["data" := VUsers(reply.value.hits)]["count" := VInt(|reply.value.hits|)]
    ensures !reply.Answer? ==> result == Caught("查询用户失败: ", UserService.FindByUsername(reply).error)
  {
    request := UserService.FindByUsernameRequest(username);
    var users := UserService.FindByUsername(reply);
    if users.Err? {
      return request, Caught("查询用户失败: ", users.error);
    }
    result := map[];
    result := result["success" := VBool(true)];
    result := result["message" := VText("查询用户成功")];
    result := result["data" := VUsers(users.value)];
    result := result["count" := VInt(|users.value|)];
  }

  /** GET /user/search/email: success exactly when some user has that e-mail address. */
  method GetUserByEmail(email: string, reply: Reply<SearchResponse>) returns (request: SearchRequest, result: ObjectMap)
    ensures request == UserService.FindByEmailRequest(email)
    ensures Succeeded(result) <==> reply.Answer? && reply.value.hits != []
    ensures Succeeded(result) ==> result == Status(true, VText("查询用户成功"))["data" := VUser(reply.value.hits[0])]
    ensures reply.Answer? && reply.value.hits == [] ==> result == Status(false, VText("用户不存在"))
    ensures !reply.Answer? ==> result == Caught("查询用户失败: ", UserService.FindByEmail(reply).error)
  {
    request := UserService.FindByEmailRequest(email);
    var found := UserService.FindByEmail(reply);
    result := map[];
    if found.Err? {
      result := result["success" := VBool(false)];
      result := result["message" := VFailure("查询用户失败: ", found.error)];
    } else if found.value.Some? {
      result := result["success" := VBool(true)];
      result := result["message" := VText("查询用户成功")];
      result := result["data" := VUser(found.value.value)];
    } else {
      result := result["success" := VBool(false)];
      result := result["message" := VText("用户不存在")];
    }
  }

  const DEFAULT_PAGE: Int32 := 1
  const DEFAULT_SIZE: Int32 := 10

  /** GET /user/search: absent `page`/`size` parameters default to 1 and 10; the page result is merged into the map. */
  method SearchUsers(c: UserService.Criteria, page: Option<Int32>, size: Option<Int32>, reply: Reply<SearchResponse>)
    returns (request: SearchRequest, result: ObjectMap)
    ensures var p := if page.Some? then page.value else 1;
      var s := if size.Some? then size.value else 10;
      request == SearchRequest(UserService.INDEX_NAME, UserService.UserQuery(c), Some(UserService.Offset(p, s)), Some(s), UserService.SEARCH_SORT) &&
      (Succeeded(result) <==> reply.Answer? && s != 0) &&
      (Succeeded(result) ==> result == Status(true, VText("搜索用户成功")) + UserService.PageResult(reply.value.hits, UserService.TotalOf(reply.value), p, s))
    ensures page.None? && size.None? ==> request.from == Some(0) && request.size == Some(10)
    ensures !Succeeded(result) ==> FailedWith(result, "搜索用户失败: ")
  {
    var p := if page.Some? then page.value else DEFAULT_PAGE;
    var s := if size.Some? then size.value else DEFAULT_SIZE;
    var outcome;
    request, outcome := UserService.SearchUsers(c, p, s, reply);
    if outcome.Ok? {
      assert outcome.value == UserService.PageResult(reply.value.hits, UserService.TotalOf(reply.value), p, s);
    }
    result := SearchReport(outcome);
  }

  /** The reply map of the search handler: the page map beside success and message, or the caught exception. */
  method SearchReport(outcome: Result<ObjectMap, Exception>) returns (result: ObjectMap)
    ensures outcome.Err? ==> result == Caught("搜索用户失败: ", outcome.error)
    ensures outcome.Ok? && "success" !in outcome.value && "message" !in outcome.value ==>
      result == Status(true, VText("搜索用户成功")) + outcome.value && Succeeded(result)
  {
    if outcome.Err? {
      return Caught("搜索用户失败: ", outcome.error);
    }
    result := map[];
    result := result["success" := VBool(true)];
    result := result["message" := VText("搜索用户成功")];
    result := result + outcome.value;
  }

  /**
   * The first half of PUT /user/{id}: look the user up and merge the body into it. Exactly one of
   * `merged` and `failure` is meaningful: a missing user, a failed lookup and a body that does not
   * convert each give the failure map the handler returns.
   */
  method LocateAndMerge(body: Body, doubleOf: string -> Option<Score>, findReply: Reply<Option<User>>)
    returns (merged: Option<User>, failure: ObjectMap)
    ensures merged.Some? <==> findReply.Answer? && findReply.value.Some? && DecodePatch(body, doubleOf).Ok?
    ensures merged.Some? ==> merged.value == Merged(findReply.value.value, DecodePatch(body, doubleOf).value)
    ensures findReply == Answer(None) ==> failure == Status(false, VText("用户不存在"))
    ensures !findReply.Answer? ==> failure == Caught("更新用户失败: ", UserService.FindById(findReply).error)
    ensures findReply.Answer? && findReply.value.Some? && DecodePatch(body, doubleOf).Err? ==>
      failure == Caught("更新用户失败: ", DecodePatch(body, doubleOf).error)
  {
    failure := map[];
    var found := UserService.FindById(findReply);
    if found.Err? {
      return None, Caught("更新用户失败: ", found.error);
    }
    if found.value.None? {
      failure := failure["success" := VBool(false)];
      failure := failure["message" := VText("用户不存在")];
      return None, failure;
    }
    var r := MergeInto(found.value.value, body, doubleOf);
    if r.Err? {
      return None, Caught("更新用户失败: ", r.error);
    }
    merged := Some(r.value);
  }

  /**
   * PUT /user/{id}, as written: look the user up, merge the body into it, and update through the
   * service as the source has it. A missing user is reported without any update request; so is a
   * body that does not convert. Since the update request never asks for the source, no reply the
   * engine can give to it lets the handler report success.
   */
  method UpdateUser(id: string, body: Body, now: Timestamp, doubleOf: string -> Option<Score>,
                    findReply: Reply<Option<User>>, updateReply: Reply<UpdateResponse>)
    returns (lookup: GetDocumentRequest, request: Option<UpdateRequest>, result: ObjectMap)
    ensures lookup == UserService.FindByIdRequest(id)
    ensures findReply == Answer(None) ==> request.None? && result == Status(false, VText("用户不存在"))
    ensures !findReply.Answer? ==> request.None? && result == Caught("更新用户失败: ", UserService.FindById(findReply).error)
    ensures findReply.Answer? && findReply.value.Some? && DecodePatch(body, doubleOf).Err? ==>
      request.None? && result == Caught("更新用户失败: ", DecodePatch(body, doubleOf).error)
    ensures request.Some? <==> findReply.Answer? && findReply.value.Some? && DecodePatch(body, doubleOf).Ok?
    ensures request.Some? ==>
      request.value == UserService.UpdateRequestFor(id, Merged(findReply.value.value, DecodePatch(body, doubleOf).value), now)
    ensures Succeeded(result) <==>
      request.Some? && updateReply.Answer? && updateReply.value.result == Updated && updateReply.value.get.Some?
    ensures Succeeded(result) ==>
      var source := updateReply.value.get.value.source;
      result == Status(true, VText("用户更新成功"))["data" := if source.Some? then VUser(source.value) else VNull]
    ensures request.Some? && updateReply == Answer(UpdateResponse(Updated, None)) ==>
      result == Caught("更新用户失败: ", NullPointerException)
    ensures request.Some? && UpdateReplyFits(request.value, updateReply) ==> !Succeeded(result)
  {
    lookup := UserService.FindByIdRequest(id);
    var merged;
    merged, result := LocateAndMerge(body, doubleOf, findReply);
    if merged.None? {
      return lookup, None, result;
    }
    request := Some(UserService.UpdateRequestFor(id, merged.value, now));
    var updated := UserService.UpdateUserAsWritten(id, merged.value, now, updateReply);
    if updated.Err? {
      return lookup, request, Caught("更新用户失败: ", updated.error);
    }
    result := map[];
    result := result["success" := VBool(true)];
    result := result["message" := VText("用户更新成功")];
    result := result["data" := if updated.value.Some? then VUser(updated.value.value) else VNull];
  }

  /**
   * PUT /user/{id} over the corrected service update: the same lookup and merge, and success exactly
   * when the engine answers Updated, with the document that was sent.
   */
  method UpdateUserCorrected(id: string, body: Body, now: Timestamp, doubleOf: string -> Option<Score>,
                             findReply: Reply<Option<User>>, updateReply: Reply<UpdateResponse>)
    returns (lookup: GetDocumentRequest, request: Option<UpdateRequest>, result: ObjectMap)
    ensures lookup == UserService.FindByIdRequest(id)
    ensures findReply == Answer(None) ==> request.None? && result == Status(false, VText("用户不存在"))
    ensures !findReply.Answer? ==> request.None? && result == Caught("更新用户失败: ", UserService.FindById(findReply).error)
    ensures findReply.Answer? && findReply.value.Some? && DecodePatch(body, doubleOf).Err? ==>
      request.None? && result == Caught("更新用户失败: ", DecodePatch(body, doubleOf).error)
    ensures request.Some? <==> findReply.Answer? && findReply.value.Some? && DecodePatch(body, doubleOf).Ok?
    ensures request.Some? ==>
      request.value == UserService.UpdateRequestFor(id, Merged(findReply.value.value, DecodePatch(body, doubleOf).value), now)
    ensures Succeeded(result) <==> request.Some? && updateReply.Answer? && updateReply.value.result == Updated
    ensures Succeeded(result) ==> result == Status(true, VText("用户更新成功"))["data" := VUser(request.value.doc)]
  {
    lookup := UserService.FindByIdRequest(id);
    var merged;
    merged, result := LocateAndMerge(body, doubleOf, findReply);
    if merged.None? {
      return lookup, None, result;
    }
    request := Some(UserService.UpdateRequestFor(id, merged.value, now));
    var updated := UserService.UpdateUser(id, merged.value, now, updateReply);
    if updated.Err? {
      return lookup, request, Caught("更新用户失败: ", updated.error);
    }
    result := map[];
    result := result["success" := VBool(true)];
    result := result["message" := VText("用户更新成功")];
    result := result["data" := VUser(updated.value)];
  }

  /** DELETE /user/{id}: success mirrors the service's answer. */
  method DeleteUser(id: string, reply: Reply<WriteResult>) returns (request: DeleteDocumentRequest, result: ObjectMap)
    ensures request == UserService.DeleteUserRequest(id)
    ensures Succeeded(result) <==> UserService.DeleteUser(reply) == Ok(true)
    ensures Succeeded(result) <==> reply == Answer(Deleted)
    ensures reply.Answer? && reply.value != Deleted ==> result == Status(false, VText("用户删除失败"))
    ensures reply == Answer(Deleted) ==> result == Status(true, VText("用户删除成功"))
    ensures !reply.Answer? ==> result == Caught("删除用户失败: ", UserService.DeleteUser(reply).error)
  {
    request := UserService.DeleteUserRequest(id);
    var deleted := UserService.DeleteUser(reply);
    result := map[];
    if deleted.Err? {
      result := result["success" := VBool(false)];
      result := result["message" := VFailure("删除用户失败: ", deleted.error)];
    } else if deleted.value {
      result := result["success" := VBool(true)];
      result := result["message" := VText("用户删除成功")];
    } else {
      result := result["success" := VBool(false)];
      result := result["message" := VText("用户删除失败")];
    }
  }

  /** GET /user/list: the match-all page, with its count. */
  method GetAllUsers(reply: Reply<SearchResponse>) returns (request: SearchRequest, result: ObjectMap)
    ensures request == UserService.GetAllUsersRequest()
    ensures Succeeded(result) <==> reply.Answer?
    ensures reply.Answer? ==> result == Status(true, VText("获取用户列表成功"))["data" := VUsers(reply.value.hits)]["count" := VInt(|reply.value.hits|)]
    ensures !reply.Answer? ==> result == Caught("获取用户列表失败: ", UserService.GetAllUsers(reply).error)
  {
    request := UserService.GetAllUsersRequest();
    var users := UserService.GetAllUsers(reply);
    if users.Err? {
      return request, Caught("获取用户列表失败: ", users.error);
    }
    result := map[];
    result := result["success" := VBool(true)];
    result := result["message" := VText("获取用户列表成功")];
    result := result["data" := VUsers(users.value)];
    result := result["count" := VInt(|users.value|)];
  }

  /** GET /user/count: the number of documents in the index. */
  method CountUsers(reply: Reply<nat>) returns (request: CountRequest, result: ObjectMap)
    ensures request == UserService.CountUsersRequest()
    ensures Succeeded(result) <==> reply.Answer?
    ensures reply.Answer? ==> result == Status(true, VText("统计用户数量成功"))["count" := VInt(reply.value)]
    ensures !reply.Answer? ==> result == Caught("统计用户数量失败: ", UserService.CountUsers(reply).error)
  {
    request := UserService.CountUsersRequest();
    var count := UserService.CountUsers(reply);
    if count.Err? {
      return request, Caught("统计用户数量失败: ", count.error);
    }
    result := map[];
    result := result["success" := VBool(true)];
    result := result["message" := VText("统计用户数量成功")];
    result := result["count" := VInt(count.value)];
  }
}
