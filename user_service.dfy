/**
 * The document gateway and query composer of the `user` index: identity and timestamp defaulting,
 * the single and batch writes and their outcome checks, the point and field lookups, the update and
 * the delete, and the multi-criteria search with its pagination.
 */
module UserService {
  import opened Wrappers
  import opened JavaLang
  import opened Entity
  import opened EngineClient
  import opened Envelope
  import IndexMappingUtil

  const INDEX_NAME: string := "user"

  /** The `catch (IOException e)` policy: rethrow as a RuntimeException whose message is `ioPrefix` and the cause's message. */
  function Rethrow<T>(reply: Reply<T>, ioPrefix: string): (r: Result<T, Exception>)
    ensures r.Ok? <==> reply.Answer?
    ensures reply.Answer? ==> r.value == reply.value
    ensures reply.IoFailure? ==> r.error == RuntimeException(ioPrefix + reply.message)
    ensures reply.ServerError? ==> r.error == ElasticsearchException(reply.status)
  {
    match reply
    case Answer(v) => Ok(v)
    case IoFailure(m) => Err(RuntimeException(ioPrefix + m))
    case ServerError(s) => Err(ElasticsearchException(s))
  }

  // ---------------------------------------------------------------------------
  // Defaulting before a write

  /**
   * A user after the creation defaults: an identity if it has none, a creation time if it has none,
   * the update time always, and the activity flag `true` if it is unset.
   */
  function Defaulted(user: User, freshId: string, now: Timestamp): (r: User)
    ensures r.id.Some?
    ensures user.id.Some? ==> r.id == user.id
    ensures user.id.None? ==> r.id == Some(freshId)
    ensures user.createTime.Some? ==> r.createTime == user.createTime
    ensures user.createTime.None? ==> r.createTime == Some(now)
    ensures r.updateTime == Some(now)
    ensures user.isActive.Some? ==> r.isActive == user.isActive
    ensures user.isActive.None? ==> r.isActive == Some(true)
    ensures r.(id := user.id, createTime := user.createTime, updateTime := user.updateTime, isActive := user.isActive) == user
  {
    user.(
      id := if user.id.None? then Some(freshId) else user.id,
      createTime := if user.createTime.None? then Some(now) else user.createTime,
      updateTime := Some(now),
      isActive := if user.isActive.None? then Some(true) else user.isActive)
  }

  /** Defaulting an already defaulted user again changes nothing but the update time. */
  lemma DefaultedAgain(user: User, id1: string, t1: Timestamp, id2: string, t2: Timestamp)
    ensures Defaulted(Defaulted(user, id1, t1), id2, t2) == Defaulted(user, id1, t1).(updateTime := Some(t2))
  {
  }

  /** The setter sequence of `createUser` and `createUsers`, applied to the user value. */
  method ApplyDefaults(user: User, freshId: string, now: Timestamp) returns (r: User)
    ensures r == Defaulted(user, freshId, now)
  {
    r := user;
    if r.id.None? {
      r := r.(id := Some(freshId));
    }
    if r.createTime.None? {
      r := r.(createTime := Some(now));
    }
    r := r.(updateTime := Some(now));
    if r.isActive.None? {
      r := r.(isActive := Some(true));
    }
  }

  /** The index request that writes a defaulted user under its own identity. */
  function IndexRequestFor(doc: User): (request: IndexRequest)
    requires doc.id.Some?
    ensures request.index == INDEX_NAME && Some(request.id) == doc.id && request.document == doc
  {
    IndexRequest(INDEX_NAME, doc.id.value, doc)
  }

  // ---------------------------------------------------------------------------
  // Writes

  /** `createUser`: default, write under the identity, and succeed only on a `Created` outcome. */
  method CreateUser(user: User, freshId: string, now: Timestamp, reply: Reply<WriteResult>)
    returns (request: IndexRequest, r: Result<User, Exception>)
    ensures request == IndexRequestFor(Defaulted(user, freshId, now))
    ensures r.Ok? <==> reply == Answer(Created)
    ensures r.Ok? ==> r.value == request.document
    ensures reply.Answer? && reply.value != Created ==> r == Err(RuntimeException("用户创建失败"))
    ensures reply.IoFailure? ==> r == Err(RuntimeException("创建用户失败: " + reply.message))
    ensures reply.ServerError? ==> r == Err(ElasticsearchException(reply.status))
  {
    var doc := ApplyDefaults(user, freshId, now);
    request := IndexRequest(INDEX_NAME, doc.id.value, doc);
    var response := Rethrow(reply, "创建用户失败: ");
    if response.Err? {
      return request, Err(response.error);
    }
    if response.value.Name() == "Created" {
      r := Ok(doc);
    } else {
      r := Err(RuntimeException("用户创建失败"));
    }
  }

  /** The required part the client reports missing from a bulk request without operations. */
  const BULK_OPERATIONS := "BulkRequest.operations"

  /**
   * `createUsers`: one bulk request with an index operation per user, in order, each user
   * defaulted as by `createUser` (the i-th fresh identity goes to the i-th user); the whole batch
   * fails when the engine reports any item error. An empty batch never reaches the engine: the
   * client refuses to build a bulk request without operations.
   */
  method CreateUsers(users: seq<User>, freshIds: seq<string>, now: Timestamp, reply: Reply<BulkResponse>)
    returns (operations: seq<IndexRequest>, r: Result<seq<User>, Exception>)
    requires |freshIds| == |users|
    ensures |operations| == |users|
    ensures forall i :: 0 <= i < |users| ==> operations[i] == IndexRequestFor(Defaulted(users[i], freshIds[i], now))
    ensures r.Ok? <==> users != [] && reply.Answer? && !reply.value.errors
    ensures r.Ok? ==> |r.value| == |users| && forall i :: 0 <= i < |users| ==> r.value[i] == operations[i].document
    ensures users == [] ==> r == Err(MissingRequiredPropertyException(BULK_OPERATIONS))
    ensures users != [] && reply.Answer? && reply.value.errors ==> r == Err(RuntimeException("批量创建用户失败"))
    ensures users != [] && reply.IoFailure? ==> r == Err(RuntimeException("批量创建用户失败: " + reply.message))
    ensures users != [] && reply.ServerError? ==> r == Err(ElasticsearchException(reply.status))
  {
    var defaulted: seq<User> := [];
    operations := [];
    var i := 0;
    while i < |users|
      invariant 0 <= i <= |users|
      invariant |defaulted| == i && |operations| == i
      invariant forall k :: 0 <= k < i ==> defaulted[k] == Defaulted(users[k], freshIds[k], now)
      invariant forall k :: 0 <= k < i ==> operations[k] == IndexRequestFor(defaulted[k])
    {
      var doc := ApplyDefaults(users[i], freshIds[i], now);
      defaulted := defaulted + [doc];
      operations := operations + [IndexRequest(INDEX_NAME, doc.id.value, doc)];
      i := i + 1;
    }
    if operations == [] {
      return operations, Err(MissingRequiredPropertyException(BULK_OPERATIONS));
    }
    var response := Rethrow(reply, "批量创建用户失败: ");
    if response.Err? {
      return operations, Err(response.error);
    }
    if response.value.errors {
      r := Err(RuntimeException("批量创建用户失败"));
    } else {
      r := Ok(defaulted);
    }
  }

  /**
   * With fresh identities that are pairwise distinct and distinct from every supplied identity,
   * and supplied identities that are pairwise distinct, the documents of a batch get pairwise
   * distinct identities.
   */
  lemma BatchIdentitiesDistinct(users: seq<User>, freshIds: seq<string>, now: Timestamp)
    requires |freshIds| == |users|
    requires forall i, j :: 0 <= i < j < |freshIds| ==> freshIds[i] != freshIds[j]
    requires forall i, j :: 0 <= i < |users| && 0 <= j < |users| && users[i].id.Some? ==> users[i].id.value != freshIds[j]
    requires forall i, j :: 0 <= i < j < |users| && users[i].id.Some? && users[j].id.Some? ==> users[i].id != users[j].id
    ensures forall i, j :: 0 <= i < j < |users| ==> Defaulted(users[i], freshIds[i], now).id != Defaulted(users[j], freshIds[j], now).id
  {
  }

  // ---------------------------------------------------------------------------
  // Reads

  /** The request of `findById`: a get of the document stored under `id` in the user index. */
  function FindByIdRequest(id: string): (request: GetDocumentRequest)
    ensures request.index == INDEX_NAME && request.id == id
  {
    GetDocumentRequest(INDEX_NAME, id)
  }

  /** `findById`: a missing document is an ordinary `null` answer; only a failed round trip throws. */
  function FindById(reply: Reply<Option<User>>): (r: Result<Option<User>, Exception>)
    ensures r.Ok? <==> reply.Answer?
    ensures reply.Answer? ==> r.value == reply.value
    ensures reply.IoFailure? ==> r.error == RuntimeException("查询用户失败: " + reply.message)
  {
    Rethrow(reply, "查询用户失败: ")
  }

  /** The request of `findByUsername`: a full-text match on `username`, engine-default page size. */
  function FindByUsernameRequest(username: string): (request: SearchRequest)
    ensures request.query == Match("username", username) && request.from.None? && request.size.None?
  {
    SearchRequest(INDEX_NAME, Match("username", username), None, None, [])
  }

  /** `findByUsername`: every hit's source, in rank order. */
  function FindByUsername(reply: Reply<SearchResponse>): (r: Result<seq<User>, Exception>)
    ensures r.Ok? <==> reply.Answer?
    ensures reply.Answer? ==> r.value == reply.value.hits
    ensures reply.IoFailure? ==> r.error == RuntimeException("查询用户失败: " + reply.message)
  {
    var response :- Rethrow(reply, "查询用户失败: ");
    Ok(response.hits)
  }

  /** The request of `findByEmail`: an exact term on `email`. */
  function FindByEmailRequest(email: string): (request: SearchRequest)
    ensures request.query == Term("email", StringValue(email)) && request.from.None? && request.size.None?
  {
    SearchRequest(INDEX_NAME, Term("email", StringValue(email)), None, None, [])
  }

  /** `findByEmail`: the first hit, or `null` when there is none. */
  function FindByEmail(reply: Reply<SearchResponse>): (r: Result<Option<User>, Exception>)
    ensures r.Ok? <==> reply.Answer?
    ensures reply.Answer? ==> (r.value.None? <==> reply.value.hits == [])
    ensures reply.Answer? && r.value.Some? ==> r.value.value == reply.value.hits[0]
    ensures reply.IoFailure? ==> r.error == RuntimeException("查询用户失败: " + reply.message)
  {
    var response :- Rethrow(reply, "查询用户失败: ");
    if response.hits != [] then Ok(Some(response.hits[0])) else Ok(None)
  }

  /** The request of `getAllUsers`: match everything, at most 1000 hits. */
  function GetAllUsersRequest(): (request: SearchRequest)
    ensures request.query == MatchAll && request.size == Some(1000)
  {
    SearchRequest(INDEX_NAME, MatchAll, None, Some(1000), [])
  }

  /** `getAllUsers`: the hits of the match-all request. */
  function GetAllUsers(reply: Reply<SearchResponse>): (r: Result<seq<User>, Exception>)
    ensures r.Ok? <==> reply.Answer?
    ensures reply.Answer? ==> r.value == reply.value.hits
    ensures reply.IoFailure? ==> r.error == RuntimeException("获取用户列表失败: " + reply.message)
  {
    var response :- Rethrow(reply, "获取用户列表失败: ");
    Ok(response.hits)
  }

  /** The request of `countUsers`: a match-all count over the user index. */
  function CountUsersRequest(): (request: CountRequest)
    ensures request.index == INDEX_NAME && request.query == MatchAll
  {
    CountRequest(INDEX_NAME, MatchAll)
  }

  /** `countUsers`: the engine's count for a match-all query on the index. */
  function CountUsers(reply: Reply<nat>): (r: Result<nat, Exception>)
    ensures r.Ok? <==> reply.Answer?
    ensures reply.Answer? ==> r.value == reply.value
    ensures reply.IoFailure? ==> r.error == RuntimeException("统计用户数量失败: " + reply.message)
  {
    Rethrow(reply, "统计用户数量失败: ")
  }

  /** The request of `deleteUser`: a delete of the document stored under `id` in the user index. */
  function DeleteUserRequest(id: string): (request: DeleteDocumentRequest)
    ensures request.index == INDEX_NAME && request.id == id
  {
    DeleteDocumentRequest(INDEX_NAME, id)
  }

  /** `deleteUser`: true exactly when the engine reports the document `Deleted`. */
  function DeleteUser(reply: Reply<WriteResult>): (r: Result<bool, Exception>)
    ensures r.Ok? <==> reply.Answer?
    ensures reply.Answer? ==> (r.value <==> reply.value == Deleted)
    ensures reply.IoFailure? ==> r.error == RuntimeException("删除用户失败: " + reply.message)
  {
    var result :- Rethrow(reply, "删除用户失败: ");
    Ok(result.Name() == "Deleted")
  }

  // ---------------------------------------------------------------------------
  // Update

  /** The request of `updateUser`: the given user, update time refreshed, as a partial document under `id`. */
  function UpdateRequestFor(id: string, user: User, now: Timestamp): (request: UpdateRequest)
    ensures request.id == id && request.doc == user.(updateTime := Some(now)) && !request.fetchSource
  {
    UpdateRequest(INDEX_NAME, id, user.(updateTime := Some(now)), false)
  }

  /** `updateUser` as the source has it: on `Updated` it returns `response.get().source()`. */
  function UpdateUserAsWritten(id: string, user: User, now: Timestamp, reply: Reply<UpdateResponse>): (r: Result<Option<User>, Exception>)
    ensures reply.Answer? && reply.value.result == Updated && reply.value.get.None? ==> r == Err(NullPointerException)
    ensures r.Ok? ==> reply.Answer? && reply.value.result == Updated && reply.value.get.Some?
    ensures r.Ok? ==> r.value == reply.value.get.value.source
    ensures reply.Answer? && reply.value.result != Updated ==> r == Err(RuntimeException("用户更新失败"))
    ensures reply.IoFailure? ==> r == Err(RuntimeException("更新用户失败: " + reply.message))
    ensures reply.ServerError? ==> r == Err(ElasticsearchException(reply.status))
  {
    var response :- Rethrow(reply, "更新用户失败: ");
    if response.result.Name() == "Updated" then
      match response.get
      case None => Err(NullPointerException)
      case Some(inline) => Ok(inline.source)
    else
      Err(RuntimeException("用户更新失败"))
  }

  /**
   * The request as written never asks for the source, so for every reply the engine can give to it
   * the as-written update reports failure, even when the engine applied the update.
   */
  lemma UpdateAsWrittenAlwaysFails(id: string, user: User, now: Timestamp, reply: Reply<UpdateResponse>)
    requires UpdateReplyFits(UpdateRequestFor(id, user, now), reply)
    ensures UpdateUserAsWritten(id, user, now, reply).Err?
    ensures reply == Answer(UpdateResponse(Updated, None)) ==> UpdateUserAsWritten(id, user, now, reply) == Err(NullPointerException)
  {
  }

  /** `updateUser` as intended: on `Updated` it returns the document it wrote. */
  function UpdateUser(id: string, user: User, now: Timestamp, reply: Reply<UpdateResponse>): (r: Result<User, Exception>)
    ensures r.Ok? <==> reply.Answer? && reply.value.result == Updated
    ensures r.Ok? ==> r.value == UpdateRequestFor(id, user, now).doc
    ensures reply.Answer? && reply.value.result != Updated ==> r == Err(RuntimeException("用户更新失败"))
    ensures reply.IoFailure? ==> r == Err(RuntimeException("更新用户失败: " + reply.message))
    ensures reply.ServerError? ==> r == Err(ElasticsearchException(reply.status))
  {
    var response :- Rethrow(reply, "更新用户失败: ");
    if response.result.Name() == "Updated" then Ok(user.(updateTime := Some(now)))
    else Err(RuntimeException("用户更新失败"))
  }

  /** A successful update returns the user with a fresh update time and every other field, the creation time included, as given. */
  lemma UpdateRefreshesOnlyUpdateTime(id: string, user: User, now: Timestamp, reply: Reply<UpdateResponse>)
    requires UpdateUser(id, user, now, reply).Ok?
    ensures var u := UpdateUser(id, user, now, reply).value;
      u.updateTime == Some(now) && u.createTime == user.createTime && u.(updateTime := user.updateTime) == user
  {
  }

  // ---------------------------------------------------------------------------
  // Search: composing the boolean query

  /** The optional criteria of `searchUsers`; `None` is a `null` argument. */
  datatype Criteria = Criteria(
    keyword: Option<string>,
    minAge: Option<Int32>,
    maxAge: Option<Int32>,
    gender: Option<string>,
    city: Option<string>,
    isActive: Option<bool>)

  /** The text fields the keyword is matched against. */
  const KEYWORD_FIELDS: seq<string> := ["username", "bio"]

  /** The scoring clause: present exactly for a non-blank keyword. */
  function KeywordClauses(c: Criteria): (r: seq<Query>)
    ensures |r| <= 1 && (r != [] <==> NonBlank(c.keyword))
  {
    if NonBlank(c.keyword) then [MultiMatch(c.keyword.value, KEYWORD_FIELDS, BestFields)] else []
  }

  /** The age filter: present exactly when a bound is given. */
  function AgeClauses(c: Criteria): (r: seq<Query>)
    ensures |r| <= 1 && (r != [] <==> c.minAge.Some? || c.maxAge.Some?)
  {
    if c.minAge.Some? || c.maxAge.Some? then [Range("age", c.minAge, c.maxAge)] else []
  }

  /** A string term filter: present exactly for a non-blank value. */
  function TermClauses(field: string, value: Option<string>): (r: seq<Query>)
    ensures |r| <= 1 && (r != [] <==> NonBlank(value))
  {
    if NonBlank(value) then [Term(field, StringValue(value.value))] else []
  }

  /** The activity filter: present exactly when the flag is given. */
  function ActiveClauses(c: Criteria): (r: seq<Query>)
    ensures |r| <= 1 && (r != [] <==> c.isActive.Some?)
  {
    if c.isActive.Some? then [Term("isActive", BoolValue(c.isActive.value))] else []
  }

  /** The query `searchUsers` sends: the keyword as the only scoring clause, the rest as filters in source order. */
  function UserQuery(c: Criteria): (q: Query)
    ensures q.Bool? && |q.must| <= 1 && |q.filter| <= 4
    ensures q.must == [] <==> !NonBlank(c.keyword)
    ensures q.filter == [] <==>
      c.minAge.None? && c.maxAge.None? && !NonBlank(c.gender) && !NonBlank(c.city) && c.isActive.None?
  {
    Bool(KeywordClauses(c),
         AgeClauses(c) + TermClauses("gender", c.gender) + TermClauses("city", c.city) + ActiveClauses(c))
  }

  /** The range builder of `searchUsers`: `gte` set only for a minimum, `lte` only for a maximum. */
  method BuildAgeRange(minAge: Option<Int32>, maxAge: Option<Int32>) returns (range: Query)
    ensures range.Range? && range.field == "age"
    ensures range.gte == minAge && range.lte == maxAge
  {
    var gte: Option<Int32> := None;
    var lte: Option<Int32> := None;
    if minAge.Some? {
      gte := Some(minAge.value);
    }
    if maxAge.Some? {
      lte := Some(maxAge.value);
    }
    range := Range("age", gte, lte);
  }

  /** The string term filter of `searchUsers`: appended only for a non-blank value. */
  method AddTermFilter(filter: seq<Query>, field: string, value: Option<string>) returns (r: seq<Query>)
    ensures r == filter + TermClauses(field, value)
  {
    r := filter;
    if NonBlank(value) {
      r := r + [Term(field, StringValue(value.value))];
    }
  }

  /** The builder code of `searchUsers`, clause by clause. */
  method BuildUserQuery(c: Criteria) returns (q: Query)
    ensures q == UserQuery(c)
  {
    var must: seq<Query> := [];
    var filter: seq<Query> := [];
    if NonBlank(c.keyword) {
      must := must + [MultiMatch(c.keyword.value, ["username", "bio"], BestFields)];
    }
    assert must == KeywordClauses(c);
    if c.minAge.Some? || c.maxAge.Some? {
      var range := BuildAgeRange(c.minAge, c.maxAge);
      filter := filter + [range];
    }
    ghost var upTo := AgeClauses(c);
    assert filter == upTo;
    filter := AddTermFilter(filter, "gender", c.gender);
    upTo := upTo + TermClauses("gender", c.gender);
    assert filter == upTo;
    filter := AddTermFilter(filter, "city", c.city);
    upTo := upTo + TermClauses("city", c.city);
    assert filter == upTo;
    if c.isActive.Some? {
      filter := filter + [Term("isActive", BoolValue(c.isActive.value))];
    }
    upTo := upTo + ActiveClauses(c);
    assert filter == upTo;
    q := Bool(must, filter);
  }

  /** A filter clause that tests `field` with a term query. */
  predicate HasTermOn(filter: seq<Query>, field: string) {
    exists x :: x in filter && x.Term? && x.field == field
  }

  /** The keyword clause: present exactly when the keyword is non-blank, a best-fields match over `username` and `bio`. */
  lemma KeywordClause(c: Criteria)
    ensures |UserQuery(c).must| <= 1
    ensures UserQuery(c).must != [] <==> NonBlank(c.keyword)
    ensures UserQuery(c).must != [] ==> UserQuery(c).must[0] == MultiMatch(c.keyword.value, ["username", "bio"], BestFields)
  {
  }

  /** The age filter: present exactly when a bound is given, with `gte`/`lte` exactly the given bounds. */
  lemma AgeFilter(c: Criteria)
    ensures (exists x :: x in UserQuery(c).filter && x.Range?) <==> c.minAge.Some? || c.maxAge.Some?
    ensures forall x :: x in UserQuery(c).filter && x.Range? ==> x == Range("age", c.minAge, c.maxAge)
  {
    var f := UserQuery(c).filter;
    forall x | x in f
      ensures x.Range? ==> x == Range("age", c.minAge, c.maxAge) && (c.minAge.Some? || c.maxAge.Some?)
    {
      FilterMember(c, x);
    }
    if c.minAge.Some? || c.maxAge.Some? {
      assert f[0] == Range("age", c.minAge, c.maxAge);
      assert f[0] in f;
    }
  }

  /** Every filter clause is one of the four the criteria can switch on. */
  lemma FilterMember(c: Criteria, x: Query)
    requires x in UserQuery(c).filter
    ensures x.Range? ==> x == Range("age", c.minAge, c.maxAge) && (c.minAge.Some? || c.maxAge.Some?)
    ensures x.Term? ==> x.field in {"gender", "city", "isActive"}
    ensures x.Term? && x.field == "gender" ==> NonBlank(c.gender) && x == Term("gender", StringValue(c.gender.value))
    ensures x.Term? && x.field == "city" ==> NonBlank(c.city) && x == Term("city", StringValue(c.city.value))
    ensures x.Term? && x.field == "isActive" ==> c.isActive.Some? && x == Term("isActive", BoolValue(c.isActive.value))
    ensures x.Range? || x.Term?
  {
    var a, g, t, i := AgeClauses(c), TermClauses("gender", c.gender), TermClauses("city", c.city), ActiveClauses(c);
    assert UserQuery(c).filter == a + g + t + i;
    if x in a {
      assert x == Range("age", c.minAge, c.maxAge);
    } else if x in g {
      assert NonBlank(c.gender) && x == Term("gender", StringValue(c.gender.value));
    } else if x in t {
      assert NonBlank(c.city) && x == Term("city", StringValue(c.city.value));
    } else {
      assert x in i;
      assert x == Term("isActive", BoolValue(c.isActive.value));
    }
  }

  /** The gender filter: present exactly when the gender is non-blank, testing that exact value. */
  lemma GenderFilter(c: Criteria)
    ensures HasTermOn(UserQuery(c).filter, "gender") <==> NonBlank(c.gender)
    ensures forall x :: x in UserQuery(c).filter && x.Term? && x.field == "gender" ==> c.gender.Some? && x.value == StringValue(c.gender.value)
  {
    var f := UserQuery(c).filter;
    forall x | x in f
      ensures x.Term? && x.field == "gender" ==> NonBlank(c.gender) && x == Term("gender", StringValue(c.gender.value))
    {
      FilterMember(c, x);
    }
    if NonBlank(c.gender) {
      var a, g, t := AgeClauses(c), TermClauses("gender", c.gender), TermClauses("city", c.city);
      assert f == a + g + t + ActiveClauses(c);
      assert f[|a|] == Term("gender", StringValue(c.gender.value)) && f[|a|] in f;
    }
  }

  /** The city filter: present exactly when the city is non-blank, testing that exact value. */
  lemma CityFilter(c: Criteria)
    ensures HasTermOn(UserQuery(c).filter, "city") <==> NonBlank(c.city)
    ensures forall x :: x in UserQuery(c).filter && x.Term? && x.field == "city" ==> c.city.Some? && x.value == StringValue(c.city.value)
  {
    var f := UserQuery(c).filter;
    forall x | x in f
      ensures x.Term? && x.field == "city" ==> NonBlank(c.city) && x == Term("city", StringValue(c.city.value))
    {
      FilterMember(c, x);
    }
    if NonBlank(c.city) {
      var a, g, t := AgeClauses(c), TermClauses("gender", c.gender), TermClauses("city", c.city);
      assert f == a + g + t + ActiveClauses(c);
      assert f[|a| + |g|] == Term("city", StringValue(c.city.value)) && f[|a| + |g|] in f;
    }
  }

  /** The activity filter: present exactly when the flag is given, testing that exact flag. */
  lemma ActiveFilter(c: Criteria)
    ensures HasTermOn(UserQuery(c).filter, "isActive") <==> c.isActive.Some?
    ensures forall x :: x in UserQuery(c).filter && x.Term? && x.field == "isActive" ==> c.isActive.Some? && x.value == BoolValue(c.isActive.value)
  {
    var f := UserQuery(c).filter;
    forall x | x in f
      ensures x.Term? && x.field == "isActive" ==> c.isActive.Some? && x == Term("isActive", BoolValue(c.isActive.value))
    {
      FilterMember(c, x);
    }
    if c.isActive.Some? {
      var a, g, t := AgeClauses(c), TermClauses("gender", c.gender), TermClauses("city", c.city);
      assert f == a + g + t + ActiveClauses(c);
      assert f[|a| + |g| + |t|] == Term("isActive", BoolValue(c.isActive.value)) && f[|a| + |g| + |t|] in f;
    }
  }

  /** No effective criterion at all (blank strings count as absent). */
  predicate NoCriteria(c: Criteria) {
    !NonBlank(c.keyword) && c.minAge.None? && c.maxAge.None? && !NonBlank(c.gender) && !NonBlank(c.city) && c.isActive.None?
  }

  /** The query has no clause, i.e. matches everything, exactly when no criterion is effective. */
  lemma MatchAllIffNoCriteria(c: Criteria)
    ensures UserQuery(c).must == [] && UserQuery(c).filter == [] <==> NoCriteria(c)
    ensures |UserQuery(c).filter| <= 4
  {
  }

  /** `name` is mapped as a full-text field. */
  predicate IsTextField(m: IndexMappingUtil.Mapping, name: string) {
    exists i :: 0 <= i < |m.properties| && m.properties[i].name == name && m.properties[i].kind.Text?
  }

  /**
   * The filters fit the user mapping: string terms test keyword fields, the boolean term a
   * boolean field, the range an integer field.
   */
  lemma FiltersFitUserMapping(c: Criteria)
    ensures forall x :: x in UserQuery(c).filter && x.Term? && x.value.StringValue? ==>
      IndexMappingUtil.Declares(IndexMappingUtil.UserIndexMapping(), x.field, IndexMappingUtil.Keyword)
    ensures forall x :: x in UserQuery(c).filter && x.Term? && x.value.BoolValue? ==>
      IndexMappingUtil.Declares(IndexMappingUtil.UserIndexMapping(), x.field, IndexMappingUtil.BooleanKind)
    ensures forall x :: x in UserQuery(c).filter && x.Range? ==>
      IndexMappingUtil.Declares(IndexMappingUtil.UserIndexMapping(), x.field, IndexMappingUtil.IntegerKind)
  {
    IndexMappingUtil.UserMappingKinds();
    var m := IndexMappingUtil.UserIndexMapping();
    var f := UserQuery(c).filter;
    forall x | x in f && x.Term? && x.value.StringValue?
      ensures IndexMappingUtil.Declares(m, x.field, IndexMappingUtil.Keyword)
    {
      FilterMember(c, x);
      assert x.field == "gender" || x.field == "city";
    }
    forall x | x in f && x.Term? && x.value.BoolValue?
      ensures IndexMappingUtil.Declares(m, x.field, IndexMappingUtil.BooleanKind)
    {
      FilterMember(c, x);
      assert x.field == "isActive";
    }
    forall x | x in f && x.Range?
      ensures IndexMappingUtil.Declares(m, x.field, IndexMappingUtil.IntegerKind)
    {
      FilterMember(c, x);
      assert x.field == "age";
    }
  }

  /** The keyword is matched only against fields the user mapping declares full-text. */
  lemma KeywordFitsUserMapping(c: Criteria)
    ensures forall x :: x in UserQuery(c).must ==> x.MultiMatch? && x.fields == KEYWORD_FIELDS
    ensures KEYWORD_FIELDS == ["username", "bio"]
    ensures IsTextField(IndexMappingUtil.UserIndexMapping(), "username") && IsTextField(IndexMappingUtil.UserIndexMapping(), "bio")
  {
    var p := IndexMappingUtil.UserIndexMapping().properties;
    assert p[1].name == "username" && p[1].kind.Text?;
    assert p[6].name == "bio" && p[6].kind.Text?;
  }

  // ---------------------------------------------------------------------------
  // Search: pagination and the page result

  /** `(page - 1) * size` evaluated in Java `int` arithmetic. */
  function Offset(page: Int32, size: Int32): (r: Int32)
    ensures page == 1 ==> r == 0
    ensures size == 0 ==> r == 0
  {
    Wrap32(Wrap32(page - 1) * size)
  }

  /** For page numbers from 1 and no overflow, the offset is the number of documents on the earlier pages. */
  lemma OffsetOfPage(page: Int32, size: Int32)
    requires 1 <= page && 0 <= size && (page - 1) * size <= INT_MAX
    ensures Offset(page, size) == (page - 1) * size
  {
  }

  /** The page number is not validated: page 0 or below yields a negative offset (for a positive size, without overflow). */
  lemma OffsetOfUnvalidatedPage(page: Int32, size: Int32)
    requires page <= 0 && 0 < size && INT_MIN <= (page - 1) * size
    ensures Offset(page, size) < 0
  {
  }

  /** `(total + size - 1) / size` in Java `long` arithmetic (without overflow). */
  function TotalPages(total: nat, size: int): (t: int)
    requires size != 0
    ensures size > 0 ==> t >= 0 && (t == 0 <==> total == 0)
  {
    JavaDiv(total + size - 1, size)
  }

  /** For a positive size the page count is the ceiling of total / size, and zero exactly when there are no hits. */
  lemma {:induction false} TotalPagesIsCeiling(total: nat, size: int)
    requires size > 0
    ensures var t := TotalPages(total, size); t >= 0 && (t - 1) * size < total <= t * size
    ensures TotalPages(total, size) == 0 <==> total == 0
  {
    var n := total + size - 1;
    var t := TotalPages(total, size);
    assert t == n / size;
    assert n == t * size + n % size && 0 <= n % size < size;
    assert t * size <= n < t * size + size;
    assert (t - 1) * size == t * size - size;
  }

  /** The engine's total-hits count, 0 when it is omitted. */
  function TotalOf(response: SearchResponse): (t: nat)
    ensures response.total.None? ==> t == 0
    ensures response.total.Some? ==> t == response.total.value
  {
    if response.total.Some? then response.total.value else 0
  }

  /** The map `searchUsers` returns. */
  function PageResult(users: seq<User>, total: nat, page: Int32, size: Int32): (m: ObjectMap)
    requires size != 0
    ensures m.Keys == {"users", "total", "page", "size", "totalPages"}
    ensures m["users"] == VUsers(users) && m["total"] == VInt(total) && m["page"] == VInt(page) && m["size"] == VInt(size)
    ensures m["totalPages"] == VInt(TotalPages(total, size))
    ensures "success" !in m && "message" !in m
  {
    map["users" := VUsers(users), "total" := VInt(total), "page" := VInt(page), "size" := VInt(size),
        "totalPages" := VInt(TotalPages(total, size))]
  }

  /** The fixed sort of `searchUsers`: newest creation time first. */
  const SEARCH_SORT: seq<SortOptions> := [FieldSort("createTime", Desc)]

  /**
   * `searchUsers`: the composed query with `from = (page - 1) * size`, `size`, and the fixed sort;
   * then the hits, the total (0 when omitted) and the page count. A zero size divides by zero.
   */
  method SearchUsers(c: Criteria, page: Int32, size: Int32, reply: Reply<SearchResponse>)
    returns (request: SearchRequest, r: Result<ObjectMap, Exception>)
    ensures request == SearchRequest(INDEX_NAME, UserQuery(c), Some(Offset(page, size)), Some(size), SEARCH_SORT)
    ensures r.Ok? <==> reply.Answer? && size != 0
    ensures reply.Answer? && size != 0 ==> r.value == PageResult(reply.value.hits, TotalOf(reply.value), page, size)
    ensures reply.Answer? && size == 0 ==> r == Err(ArithmeticException)
    ensures reply.IoFailure? ==> r == Err(RuntimeException("搜索用户失败: " + reply.message))
    ensures reply.ServerError? ==> r == Err(ElasticsearchException(reply.status))
  {
    var query := BuildUserQuery(c);
    request := SearchRequest(INDEX_NAME, query, Some(Offset(page, size)), Some(size), [FieldSort("createTime", Desc)]);
    var response := Rethrow(reply, "搜索用户失败: ");
    if response.Err? {
      return request, Err(response.error);
    }
    var users := response.value.hits;
    var total := TotalOf(response.value);
    if size == 0 {
      return request, Err(ArithmeticException);
    }
    var result := FillPage(users, total, page, size);
    r := Ok(result);
  }

  /** The puts that fill the map `searchUsers` returns. */
  method FillPage(users: seq<User>, total: nat, page: Int32, size: Int32) returns (result: ObjectMap)
    requires size != 0
    ensures result == PageResult(users, total, page, size)
  {
    result := map[];
    result := result["users" := VUsers(users)];
    result := result["total" := VInt(total)];
    result := result["page" := VInt(page)];
    result := result["size" := VInt(size)];
    result := result["totalPages" := VInt(TotalPages(total, size))];
  }

  /** The lookups query fields of the kind they need: `findByEmail` an exact keyword, `findByUsername` a text field. */
  lemma LookupsFitUserMapping(name: string, email: string)
    ensures IndexMappingUtil.Declares(IndexMappingUtil.UserIndexMapping(), FindByEmailRequest(email).query.field, IndexMappingUtil.Keyword)
    ensures IsTextField(IndexMappingUtil.UserIndexMapping(), FindByUsernameRequest(name).query.field)
  {
    var p := IndexMappingUtil.UserIndexMapping().properties;
    assert p[2].name == "email" && p[2].kind == IndexMappingUtil.Keyword;
    assert p[1].name == "username" && p[1].kind.Text?;
  }
}
