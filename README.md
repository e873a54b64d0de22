# simple-es user service and index administration, modelled in Dafny

This project models the decision logic of a small Spring Boot demo that stores user documents in
Elasticsearch. The model covers four parts:

- **`UserService`**: the document gateway of the `user` index. It covers:
  - identity and timestamp defaulting before a write;
  - the single and batch writes and their result checks;
  - the lookups by id, user name and e-mail;
  - the update and the delete;
  - the multi-criteria search. The search is a boolean query built clause by clause, with an
    offset computed in Java `int` arithmetic, a fixed sort and a ceiling-division page count.
- **`UserController`**: the REST handlers. Each one converts a JSON body into a `User`
  (`(String)` casts, `Integer.valueOf`, `Double.valueOf`), merges a partial update into the stored
  record, and reports a `success`/`message` result map.
- **`IndexService`**: index administration over the engine's set of indices, with existence
  checks, early returns and the policy of catching only I/O errors.
- **`IndexMappingUtil`**: the catalog of mapping templates (user, article, product, test) and the
  index-settings template, as structured data rather than JSON text.

The engine is not modelled. Every round trip becomes an input of the operation that reads it:
- `Reply<T> = IoFailure(message) | ServerError(status) | Answer(value)` for the user store;
- `Conditions(probeFails, requestFails, rejection, acknowledged, parses)` for index administration,
  where `rejection` is an error status the engine may answer the main request with, and `parses`
  says whether the client can read the mapping or settings text as JSON.

Each user-store operation and handler also returns the request it sends (the get, delete and count
requests included), so the request itself is part of what is proved. The index-administration
methods record their requests in the service's request log.
The clock (`LocalDateTime.now()`), `UUID.randomUUID()` and `Double.valueOf` are parameters
(`now`, `freshId`, `doubleOf`).

Files:
- `wrappers.dfy`: `Option` and `Result`.
- `java_lang.dfy`: 32-bit wrap-around, truncating division, `String.trim()` and blankness, and
  `Integer.valueOf` with its round trip through the decimal text.
- `entity.dfy`: the `User` record, with every field optional.
- `engine_client.dfy`: the query language, requests and replies.
- `envelope.dfy`: the values of a result map.
- `index_mapping_util.dfy`, `user_service.dfy`, `user_controller.dfy`: the three user-side cores.
- `index_service.dfy`: the `IndexService` class. Its fields are the index set and the log of
  requests sent. Each method is proved equal to a pure step function, and the properties are
  lemmas about those functions.

## Model

| member | source | states |
|---|---|---|
| UserService.Rethrow | src/main/java/com/example/simplees/service/UserService.java:69-72 | an answer passes through; an I/O failure becomes a RuntimeException whose message is the handler's prefix followed by the cause's message; any other engine error escapes unchanged |
| UserService.Defaulted | src/main/java/com/example/simplees/service/UserService.java:43-52 | the id is always present afterwards: a given id is kept, otherwise the fresh one is used. A present createTime is kept, otherwise it becomes now. updateTime is always now. isActive becomes true only when null, so an explicit false stays. No other field changes |
| UserService.DefaultedAgain | src/main/java/com/example/simplees/service/UserService.java:43-52 | defaulting an already defaulted user only re-stamps updateTime |
| UserService.ApplyDefaults | src/main/java/com/example/simplees/service/UserService.java:43-52 | the setter sequence yields exactly the defaulted user |
| UserService.IndexRequestFor | src/main/java/com/example/simplees/service/UserService.java:55-59 | the write goes to index `user` under the document's own id and carries the document |
| UserService.CreateUser | src/main/java/com/example/simplees/service/UserService.java:38-73 | the request indexes the defaulted user. The call returns that user iff the engine answers Created. Any other answer throws "用户创建失败". An I/O failure throws "创建用户失败: " plus the cause |
| UserService.CreateUsers | src/main/java/com/example/simplees/service/UserService.java:78-128 | the bulk request has one operation per user, in order, each indexing that user defaulted. The call returns the same users (defaulted) iff the batch is non-empty and the bulk answer has no errors. An empty batch fails before any round trip, because the client refuses a bulk request without operations. An erroneous bulk throws "批量创建用户失败". An I/O failure throws that message with ": " plus the cause |
| UserService.BatchIdentitiesDistinct | src/main/java/com/example/simplees/service/UserService.java:85-105 | distinct fresh ids, and caller ids that are distinct and unlike the fresh ones, give every operation of a batch a different document id |
| UserService.FindByIdRequest | src/main/java/com/example/simplees/service/UserService.java:137-139 | a get of the document stored under the given id in index `user` |
| UserService.FindById | src/main/java/com/example/simplees/service/UserService.java:133-154 | the found source, or none when not found; an I/O failure throws "查询用户失败: " plus the cause |
| UserService.FindByUsernameRequest | src/main/java/com/example/simplees/service/UserService.java:163-170 | a full-text match on `username`, with the engine's default from and size |
| UserService.FindByUsername | src/main/java/com/example/simplees/service/UserService.java:159-183 | all hit sources in rank order; I/O failure message as above |
| UserService.FindByEmailRequest | src/main/java/com/example/simplees/service/UserService.java:192-199 | an exact term query on `email` |
| UserService.FindByEmail | src/main/java/com/example/simplees/service/UserService.java:188-217 | absent iff there are no hits, otherwise the first hit |
| UserService.GetAllUsersRequest | src/main/java/com/example/simplees/service/UserService.java:376-379 | match-all with size 1000 |
| UserService.GetAllUsers | src/main/java/com/example/simplees/service/UserService.java:372-392 | the hit sources; I/O failure throws "获取用户列表失败: " plus the cause |
| UserService.CountUsersRequest | src/main/java/com/example/simplees/service/UserService.java:401-403 | a match-all count over index `user` |
| UserService.CountUsers | src/main/java/com/example/simplees/service/UserService.java:397-413 | the engine's count; I/O failure throws "统计用户数量失败: " plus the cause |
| UserService.DeleteUserRequest | src/main/java/com/example/simplees/service/UserService.java:351-353 | a delete of the document stored under the given id in index `user` |
| UserService.DeleteUser | src/main/java/com/example/simplees/service/UserService.java:347-367 | true iff the result is Deleted, false for any other result; I/O failure throws "删除用户失败: " plus the cause |
| UserService.UpdateRequestFor | src/main/java/com/example/simplees/service/UserService.java:322-328 | the update sends the user with updateTime set to now, under the given id, and does not ask for the source back |
| UserService.UpdateUserAsWritten | src/main/java/com/example/simplees/service/UserService.java:317-342 | as written: an Updated answer without an inline get part throws a NullPointerException at line 332, and one with it returns that inline source. Any other result is the "用户更新失败" error; an I/O failure gives "更新用户失败: " plus its message, and an engine error passes through |
| UserService.UpdateAsWrittenAlwaysFails | src/main/java/com/example/simplees/service/UserService.java:325-332 | since the request never asks for the source, the engine returns no inline get, so the as-written update never returns normally |
| UserService.UpdateUser | src/main/java/com/example/simplees/service/UserService.java:317-342 | corrected: returns the document it sent iff the result is Updated; any other result throws "用户更新失败"; I/O failure throws "更新用户失败: " plus the cause |
| UserService.UpdateRefreshesOnlyUpdateTime | src/main/java/com/example/simplees/service/UserService.java:322 | a successful update returns the input user with only updateTime changed, to now |
| UserService.BuildAgeRange | src/main/java/com/example/simplees/service/UserService.java:243-249 | the range is on `age`, with gte exactly the minimum and lte exactly the maximum, each set only when given |
| UserService.AddTermFilter | src/main/java/com/example/simplees/service/UserService.java:254-267 | a term filter on the field is appended exactly when the value is non-null and not blank after trim |
| UserService.BuildUserQuery | src/main/java/com/example/simplees/service/UserService.java:230-275 | the clause-by-clause builder produces exactly the composed query: the keyword as the only must clause, then the age range and the gender, city and isActive terms as filters, in source order |
| UserService.KeywordClauses | src/main/java/com/example/simplees/service/UserService.java:233-239 | at most one scoring clause, present iff the keyword is non-null and non-blank |
| UserService.AgeClauses | src/main/java/com/example/simplees/service/UserService.java:242-251 | at most one age filter, present iff a minimum or a maximum is given |
| UserService.TermClauses | src/main/java/com/example/simplees/service/UserService.java:254-267 | at most one term filter on the field, present iff the value is non-null and non-blank |
| UserService.ActiveClauses | src/main/java/com/example/simplees/service/UserService.java:270-275 | at most one isActive filter, present iff the flag is non-null |
| UserService.UserQuery | src/main/java/com/example/simplees/service/UserService.java:230-275 | the search query is a bool query with at most one must clause and at most four filters. It has no must clause iff the keyword is blank or null, and no filter iff no age bound, gender, city or flag is effective |
| UserService.KeywordClause | src/main/java/com/example/simplees/service/UserService.java:233-239 | there is at most one must clause. It is present iff the keyword is non-null and non-blank, and it is then a best-fields multi-match of the keyword over exactly `username` and `bio` |
| UserService.AgeFilter | src/main/java/com/example/simplees/service/UserService.java:242-251 | a range filter is present iff minAge or maxAge is given; it is on `age`, with gte only for a given minimum and lte only for a given maximum |
| UserService.FilterMember | src/main/java/com/example/simplees/service/UserService.java:242-275 | every filter clause is the age range or a term on gender, city or isActive, and each is there only under its own condition, with the caller's value |
| UserService.GenderFilter | src/main/java/com/example/simplees/service/UserService.java:254-259 | a term filter on `gender` is present iff the gender is non-blank, and it carries that gender |
| UserService.CityFilter | src/main/java/com/example/simplees/service/UserService.java:262-267 | a term filter on `city` is present iff the city is non-blank, and it carries that city |
| UserService.ActiveFilter | src/main/java/com/example/simplees/service/UserService.java:270-275 | a term filter on `isActive` is present iff isActive is non-null, and it carries that boolean |
| UserService.MatchAllIffNoCriteria | src/main/java/com/example/simplees/service/UserService.java:230-275 | the bool query has no clause at all (match-all) iff no criterion is effective; there are at most four filters |
| UserService.FiltersFitUserMapping | src/main/java/com/example/simplees/service/UserService.java:243-274 | every string term filter tests a field the user mapping declares keyword; the boolean term tests a declared boolean field; the range tests a declared integer field |
| UserService.KeywordFitsUserMapping | src/main/java/com/example/simplees/service/UserService.java:236 | the keyword is matched only against `username` and `bio`, both declared as text fields in the user mapping |
| UserService.LookupsFitUserMapping | src/main/java/com/example/simplees/service/UserService.java:166-197 | the e-mail lookup's term query tests a declared keyword field; the user-name match runs on a declared text field |
| UserService.Offset | src/main/java/com/example/simplees/service/UserService.java:281 | the first page starts at offset 0, and size 0 gives offset 0, whatever int overflow does elsewhere |
| UserService.OffsetOfPage | src/main/java/com/example/simplees/service/UserService.java:281 | for page >= 1 and a non-negative size whose product fits in an int, from is exactly (page-1)*size |
| UserService.OffsetOfUnvalidatedPage | src/main/java/com/example/simplees/service/UserService.java:281 | page is not validated: page 0 or below with a positive size gives a negative from |
| UserService.TotalPages | src/main/java/com/example/simplees/service/UserService.java:303 | for a positive size the page count is non-negative and is 0 iff there are no hits |
| UserService.TotalPagesIsCeiling | src/main/java/com/example/simplees/service/UserService.java:303 | for size > 0, (total+size-1)/size is the least t with total <= t*size, i.e. ceil(total/size), and it is 0 iff total is 0 |
| UserService.TotalOf | src/main/java/com/example/simplees/service/UserService.java:295-296 | a total the engine omits counts as 0; otherwise it is the engine's total |
| UserService.PageResult | src/main/java/com/example/simplees/service/UserService.java:298-303 | the result has exactly the keys users, total, page, size and totalPages, with those values, so it never holds the handler's success or message key |
| UserService.FillPage | src/main/java/com/example/simplees/service/UserService.java:298-303 | the five puts produce exactly the page map |
| UserService.SearchUsers | src/main/java/com/example/simplees/service/UserService.java:222-312 | the request holds the composed query, from = (page-1)*size in int arithmetic, the given size and the sort createTime descending. It succeeds iff the engine answers and size is non-zero. The result is the page map, with total 0 when the engine omits the count. Size 0 throws ArithmeticException. I/O failure throws "搜索用户失败: " plus the cause |
| JavaLang.Wrap32 | src/main/java/com/example/simplees/service/UserService.java:281 | Java int arithmetic: an in-range value is unchanged, and one word of overflow on either side wraps by 2^32 |
| JavaLang.JavaDiv | src/main/java/com/example/simplees/service/UserService.java:303 | Java's integer division, truncating toward zero, agrees with floor division for a non-negative dividend and a positive divisor |
| JavaLang.Trim | src/main/java/com/example/simplees/service/UserService.java:233 | the trimmed text is a contiguous part of the input: every character cut before or after it is <= U+0020, and the part itself neither starts nor ends with one |
| JavaLang.TrimmedAtParts | src/main/java/com/example/simplees/service/UserService.java:233 | cutting a prefix of characters <= U+0020 and then a suffix of such characters leaves a contiguous part of the text surrounded only by such characters |
| JavaLang.TrimStart | src/main/java/com/example/simplees/service/UserService.java:233 | a suffix of the input that does not start with a character <= U+0020, with every character cut from the front <= U+0020 |
| JavaLang.TrimEnd | src/main/java/com/example/simplees/service/UserService.java:233 | a prefix of the input that does not end with a character <= U+0020, with every character cut from the back <= U+0020 |
| JavaLang.BlankIffAllTrimmable | src/main/java/com/example/simplees/service/UserService.java:233 | a text is blank after trim iff every character of it is <= U+0020 |
| JavaLang.NatText | src/main/java/com/example/simplees/controller/UserController.java:44 | the decimal text of a natural number is a non-empty digit string whose value is that number |
| JavaLang.ParseInt | src/main/java/com/example/simplees/controller/UserController.java:44 | Integer.valueOf accepts only an optional sign followed by digits. A plain digit string parses to its value iff that fits in an int, "-" followed by digits to the negated value iff it is at least INT_MIN, and "+" followed by digits to their value iff that fits in an int |
| JavaLang.ParseDecimalText | src/main/java/com/example/simplees/controller/UserController.java:44 | Integer.valueOf of an integer's decimal text gives that integer back iff it fits in an int |
| EngineClient.WriteResult.Name | src/main/java/com/example/simplees/service/UserService.java:61 | the result name is "Created", "Updated" or "Deleted" exactly for that result |
| UserController.Get | src/main/java/com/example/simplees/controller/UserController.java:42 | `userData.get(key)` is null iff the key is absent or maps to JSON null |
| UserController.StringField | src/main/java/com/example/simplees/controller/UserController.java:42-47 | `(String)` of nothing is null, of a string is that string, and of anything else is a ClassCastException |
| UserController.AgeField | src/main/java/com/example/simplees/controller/UserController.java:44 | age is parsed only when the key is non-null, otherwise it is null; a text Integer.valueOf rejects is a NumberFormatException for that text |
| UserController.AgeOfInteger | src/main/java/com/example/simplees/controller/UserController.java:44 | a JSON integer that fits in an int converts to exactly that age |
| UserController.ScoreField | src/main/java/com/example/simplees/controller/UserController.java:51 | score is parsed only when the key is non-null, otherwise it is null; a rejected text is a NumberFormatException |
| UserController.BuildUser | src/main/java/com/example/simplees/controller/UserController.java:40-52 | the record builds iff every conversion succeeds. It always has the fresh id, createTime = updateTime = now, isActive true and no tags, whatever the input says. The other seven fields are the converted inputs. Otherwise the exception is that of the first failing conversion in builder order (username, email, age, gender, city, bio, score): a ClassCastException for a string field, the age or score NumberFormatException otherwise |
| UserController.BuiltUserIsDefaulted | src/main/java/com/example/simplees/controller/UserController.java:40-54 | the service's defaulting leaves a built record as it is (same now), so the handler's id and timestamps reach the engine |
| UserController.Collect | src/main/java/com/example/simplees/controller/UserController.java:79-93 | collecting keeps one value per element |
| UserController.CollectElementwise | src/main/java/com/example/simplees/controller/UserController.java:79-93 | collecting succeeds iff every element succeeds, and then keeps each value at its position |
| UserController.CollectFirstError | src/main/java/com/example/simplees/controller/UserController.java:79-93 | a failed collection fails with the error of its first failing element |
| UserController.BuildEach | src/main/java/com/example/simplees/controller/UserController.java:79-92 | each body is converted exactly as by the single create, with its own fresh id |
| UserController.BuildAll | src/main/java/com/example/simplees/controller/UserController.java:79-93 | a successful batch has one record per body |
| UserController.BuildAllElementwise | src/main/java/com/example/simplees/controller/UserController.java:79-93 | the batch builds iff every body builds, and then holds each body's record at its position |
| UserController.BuildAllFirstError | src/main/java/com/example/simplees/controller/UserController.java:79-93 | a failed batch throws the exception of its first body that does not build |
| UserController.DecodePatch | src/main/java/com/example/simplees/controller/UserController.java:251-271 | the seven patch values are the conversions of the body's fields, null for absent keys. Decoding fails iff building would, and with the same first exception |
| UserController.DecodeEmptyBody | src/main/java/com/example/simplees/controller/UserController.java:251-271 | a body with none of the seven keys decodes to the empty patch |
| UserController.Over | src/main/java/com/example/simplees/controller/UserController.java:251-253 | a given value replaces the stored one; an absent one keeps it |
| UserController.Merged | src/main/java/com/example/simplees/controller/UserController.java:251-271 | id, tags, createTime, updateTime and isActive are never changed by the merge |
| UserController.MergeIdempotent | src/main/java/com/example/simplees/controller/UserController.java:251-271 | merging the same patch twice gives the same record as merging it once |
| UserController.MergeEmptyPatch | src/main/java/com/example/simplees/controller/UserController.java:251-271 | an empty patch leaves the record unchanged |
| UserController.MergeFieldRule | src/main/java/com/example/simplees/controller/UserController.java:251-271 | each of username, email, age, gender, city, bio and score is overwritten exactly when the input value is non-null, and then with the converted value; the other five fields are unchanged |
| UserController.MergeInto | src/main/java/com/example/simplees/controller/UserController.java:251-271 | the field-by-field merge gives the merged record, or the first conversion error |
| UserController.Status | src/main/java/com/example/simplees/controller/UserController.java:56-57 | a reply map has exactly the keys success and message, with those values |
| UserController.Caught | src/main/java/com/example/simplees/controller/UserController.java:60-64 | a caught exception gives success false and the message prefix plus the exception's message |
| UserController.CreateUser | src/main/java/com/example/simplees/controller/UserController.java:33-67 | the create request is sent only for a body that builds, and indexes the built record. success holds iff it built and the engine answered Created, and it then carries the record. Every failure reports "创建用户失败: " plus the exception |
| UserController.CreateUsers | src/main/java/com/example/simplees/controller/UserController.java:73-109 | operations are sent only for a batch that builds, one per body. success holds iff the batch is non-empty, it built and the bulk answer has no errors. An empty batch reports "批量创建用户失败: " with the client's missing-operations exception. On success the map holds the records and count, which equals the number of bodies |
| UserController.GetUserById | src/main/java/com/example/simplees/controller/UserController.java:115-139 | the handler sends the get request for the id. success iff the user is found, with the user as data. A missing user reports "用户不存在". Any exception reports "查询用户失败: " |
| UserController.GetUsersByUsername | src/main/java/com/example/simplees/controller/UserController.java:145-165 | success iff the search answers; data holds the hits and count their number |
| UserController.GetUserByEmail | src/main/java/com/example/simplees/controller/UserController.java:171-195 | success iff there is a hit, with the first hit as data; no hit reports "用户不存在" |
| UserController.SearchUsers | src/main/java/com/example/simplees/controller/UserController.java:201-230 | page defaults to 1 and size to 10, so an empty query string asks for from 0 and size 10. On success the service's page map is merged into the reply beside success and message. Any failure reports "搜索用户失败: " |
| UserController.SearchReport | src/main/java/com/example/simplees/controller/UserController.java:219-227 | a service failure reports "搜索用户失败: " plus the exception; a page map without the envelope keys is reported beside success true and "搜索用户成功" |
| UserController.LocateAndMerge | src/main/java/com/example/simplees/controller/UserController.java:241-271 | a merged record exists iff the lookup answered with a user and the body converts, and it is the merge of the body into that user. Otherwise the result is the failure map: "用户不存在" for a missing user, "更新用户失败: " plus the exception for a failed lookup or conversion |
| UserController.UpdateUser | src/main/java/com/example/simplees/controller/UserController.java:236-286 | as written. The handler sends the get request for the id. A missing user reports failure "用户不存在" and sends no update, and neither does a failed lookup or conversion. Otherwise the update sends the merge of the body into the stored record. success holds iff that update is answered Updated with an inline get part, so no reply the engine can give to this request lets the handler succeed. An Updated reply without a get part reports "更新用户失败: " with a NullPointerException |
| UserController.UpdateUserCorrected | src/main/java/com/example/simplees/controller/UserController.java:236-286 | the same handler over the corrected service update: the same lookup, merge and requests, and success iff the update is answered Updated, with the sent document as data |
| UserController.DeleteUser | src/main/java/com/example/simplees/controller/UserController.java:292-315 | the handler sends the delete request for the id. success mirrors the service boolean: true iff the engine answers Deleted |
| UserController.GetAllUsers | src/main/java/com/example/simplees/controller/UserController.java:321-341 | success iff the search answers; data holds the users and count their number |
| UserController.CountUsers | src/main/java/com/example/simplees/controller/UserController.java:347-366 | the handler sends the match-all count request. success iff the count answers, with the count |
| IndexAdmin.AttachedMapping | src/main/java/com/example/simplees/service/IndexService.java:65-74 | a mapping is attached iff it is non-null and non-blank, and then it is the given text |
| IndexAdmin.ExistsStep | src/main/java/com/example/simplees/service/IndexService.java:101-119 | the probe sends one exists request and changes no index. It is true iff it did not fail and the index exists, so a failed probe cannot be told from absence |
| IndexAdmin.CreateStep | src/main/java/com/example/simplees/service/IndexService.java:50-93 | a create always probes first, and sends a create request, with the attached mapping, iff the probe failed or found no index and the mapping is blank or parses. A non-blank mapping the client cannot parse throws a JsonParsingException after the probe, with nothing else sent; otherwise only engine errors escape |
| IndexAdmin.DeleteStep | src/main/java/com/example/simplees/service/IndexService.java:127-156 | a delete always probes first, and sends a delete request iff the probe worked and found the index |
| IndexAdmin.UpdateSettingsStep | src/main/java/com/example/simplees/service/IndexService.java:220-251 | a settings update always probes first. It sends a settings request iff the probe worked, found the index, and the settings are non-null and parse. On a found index, null settings throw a NullPointerException and unparseable settings a JsonParsingException |
| IndexAdmin.RefreshStep | src/main/java/com/example/simplees/service/IndexService.java:260-277 | refresh sends one refresh request and throws iff it reached the engine for a missing index |
| IndexAdmin.IndexInfoStep | src/main/java/com/example/simplees/service/IndexService.java:164-184 | the describe call sends one get request for the name and throws iff it reached the engine for a missing index |
| IndexAdmin.AllIndicesStep | src/main/java/com/example/simplees/service/IndexService.java:191-211 | the list call sends one get request for "*" and never throws |
| IndexAdmin.IndexService.constructor | src/main/java/com/example/simplees/service/IndexService.java:28-31 | a new service sees the given index set and has sent nothing |
| IndexAdmin.IndexService.IndexExists | src/main/java/com/example/simplees/service/IndexService.java:101-119 | the probe sends one exists request, changes no index and returns the engine's answer, or false on I/O failure |
| IndexAdmin.IndexService.CreateIndex | src/main/java/com/example/simplees/service/IndexService.java:50-93 | the new index set, the requests sent and the outcome are those of the create step |
| IndexAdmin.IndexService.CreateIndexDefault | src/main/java/com/example/simplees/service/IndexService.java:39-41 | the one-argument create behaves exactly as the create with a null mapping |
| IndexAdmin.IndexService.DeleteIndex | src/main/java/com/example/simplees/service/IndexService.java:127-156 | state, requests and outcome are those of the delete step |
| IndexAdmin.IndexService.UpdateIndexSettings | src/main/java/com/example/simplees/service/IndexService.java:220-251 | state, requests and outcome are those of the settings step |
| IndexAdmin.IndexService.RefreshIndex | src/main/java/com/example/simplees/service/IndexService.java:260-277 | state, requests and outcome are those of the refresh step |
| IndexAdmin.IndexService.GetIndexInfo | src/main/java/com/example/simplees/service/IndexService.java:164-184 | state, requests and outcome are those of the describe step |
| IndexAdmin.IndexService.GetAllIndices | src/main/java/com/example/simplees/service/IndexService.java:191-211 | state, requests and outcome are those of the list step |
| IndexAdmin.CreateExistingIsNoOp | src/main/java/com/example/simplees/service/IndexService.java:55-58 | creating an index the probe sees returns true, sends no create request and leaves the index set unchanged |
| IndexAdmin.CreateIdempotent | src/main/java/com/example/simplees/service/IndexService.java:55-58 | after a successful create, creating again with a working probe succeeds and changes nothing |
| IndexAdmin.CreateOutcome | src/main/java/com/example/simplees/service/IndexService.java:77-92 | when the mapping is blank or parses: an I/O failure of the create request gives false. For a missing index the engine's rejection escapes as an exception, and otherwise the result is the acknowledged flag. A reported success means the index exists. Nothing else changes, and existing indices keep their contents |
| IndexAdmin.CreateAttachesNonBlankMapping | src/main/java/com/example/simplees/service/IndexService.java:65-74 | when the mapping parses, a newly created index holds a mapping iff a non-blank one was given, and it is that mapping |
| IndexAdmin.CreateDefaultHasNoMapping | src/main/java/com/example/simplees/service/IndexService.java:39-41 | the one-argument overload creates the index without a mapping |
| IndexAdmin.CreateAfterFailedProbe | src/main/java/com/example/simplees/service/IndexService.java:55 | after a failed probe, with a mapping that parses, the create request is sent, and on an existing index the engine's error escapes |
| IndexAdmin.DeleteMissingSucceeds | src/main/java/com/example/simplees/service/IndexService.java:132-135 | deleting a missing index returns true and sends nothing but the probe |
| IndexAdmin.DeleteOutcome | src/main/java/com/example/simplees/service/IndexService.java:138-155 | a delete the probe lets through returns false on I/O failure and otherwise the acknowledged flag, unless the engine rejects the delete request. That rejection is the only exception that escapes. A reported deletion after a working probe means the index is gone, and no other index is touched |
| IndexAdmin.DeleteAfterFailedProbe | src/main/java/com/example/simplees/service/IndexService.java:132-135 | a failed probe makes the delete report success while the index remains |
| IndexAdmin.UpdateMissingFails | src/main/java/com/example/simplees/service/IndexService.java:225-228 | updating the settings of a missing index returns false and changes nothing |
| IndexAdmin.UpdateSettingsOutcome | src/main/java/com/example/simplees/service/IndexService.java:231-250 | a settings update never adds or removes an index or touches a mapping; a reported success means the new settings are in place |
| IndexAdmin.UpdateNullSettingsThrows | src/main/java/com/example/simplees/service/IndexService.java:231-234 | null settings on an existing index throw a NullPointerException before any settings request |
| IndexAdmin.UnparseableMappingThrows | src/main/java/com/example/simplees/service/IndexService.java:65-77 | a non-blank mapping the client cannot parse throws a JsonParsingException once the probe lets the create through: only the probe is sent and nothing changes. A blank mapping is never parsed, and the create is the same as with no mapping |
| IndexAdmin.UnparseableSettingsThrow | src/main/java/com/example/simplees/service/IndexService.java:231-234 | settings the client cannot parse, on a found index, throw a JsonParsingException before any settings request, and nothing changes |
| IndexAdmin.QueriesAreReadOnly | src/main/java/com/example/simplees/service/IndexService.java:260-277 | refresh and the describe calls never change the index set; refresh is true iff it reached an existing index without an I/O failure |
| IndexAdmin.DescribeNullOnFailure | src/main/java/com/example/simplees/service/IndexService.java:164-211 | the describe calls return null iff the round trip fails, and otherwise a one-key map under indexInfo or indices |
| IndexMappingUtil.Lookup | src/main/java/com/example/simplees/util/IndexMappingUtil.java:173-183 | a model helper (the source performs no lookup) for reading the nested attributes' properties by name: it finds a property of that name, and finds none iff no property has that name |
| IndexMappingUtil.LookupAt | src/main/java/com/example/simplees/util/IndexMappingUtil.java:173-183 | a model helper: with distinct names, as the nested attributes have, looking up the name of any property finds that property |
| IndexMappingUtil.UserIndexMapping | src/main/java/com/example/simplees/util/IndexMappingUtil.java:17-78 | the user mapping has twelve properties |
| IndexMappingUtil.UserMappingNamesDistinct | src/main/java/com/example/simplees/util/IndexMappingUtil.java:20-75 | no name is declared twice in the user mapping |
| IndexMappingUtil.UserMappingKinds | src/main/java/com/example/simplees/util/IndexMappingUtil.java:20-75 | id, email, gender, city and tags are keyword; age is integer; isActive is boolean; score is double |
| IndexMappingUtil.UserMappingTextAndDates | src/main/java/com/example/simplees/util/IndexMappingUtil.java:24-67 | username is text with the standard analyzer and a keyword sub-field with ignore_above 256; bio is standard text without sub-fields; createTime and updateTime are dates with the three formats |
| IndexMappingUtil.ArticleIndexMapping | src/main/java/com/example/simplees/util/IndexMappingUtil.java:86-132 | the article mapping has ten properties |
| IndexMappingUtil.ArticleMappingNamesDistinct | src/main/java/com/example/simplees/util/IndexMappingUtil.java:86-132 | no name is declared twice in the article mapping |
| IndexMappingUtil.ArticleMappingKinds | src/main/java/com/example/simplees/util/IndexMappingUtil.java:86-132 | title and content use the ik_max_word / ik_smart analyzers, and title has the keyword sub-field. id, author, category and tags are keyword; publishTime is a date; the counters are long; isPublished is boolean |
| IndexMappingUtil.ProductAttributeProperties | src/main/java/com/example/simplees/util/IndexMappingUtil.java:173-183 | the nested attributes hold name as keyword and value as text |
| IndexMappingUtil.ProductIndexMapping | src/main/java/com/example/simplees/util/IndexMappingUtil.java:140-194 | the product mapping has ten properties |
| IndexMappingUtil.ProductMappingNamesDistinct | src/main/java/com/example/simplees/util/IndexMappingUtil.java:140-194 | no name is declared twice in the product mapping |
| IndexMappingUtil.ProductMappingKinds | src/main/java/com/example/simplees/util/IndexMappingUtil.java:140-194 | location is a geo_point and attributes is nested with its two properties. name and description use the IK analyzers, and name has the keyword sub-field. price is double, the ids and labels are keyword, and createTime is a date |
| IndexMappingUtil.SimpleTestMapping | src/main/java/com/example/simplees/util/IndexMappingUtil.java:202-220 | the test mapping has distinct names: id keyword, name text, value integer, and timestamp a date in epoch_millis only |
| IndexMappingUtil.DateFormatAttributes | src/main/java/com/example/simplees/util/IndexMappingUtil.java:60-67 | the timestamp formats render as "yyyy-MM-dd HH:mm:ss\|\|yyyy-MM-dd\|\|epoch_millis", and the test timestamp as "epoch_millis" |
| IndexMappingUtil.GetIndexSettings | src/main/java/com/example/simplees/util/IndexMappingUtil.java:230-237 | the given shard and replica counts, refresh_interval "1s" and max_result_window 10000 |
| IndexMappingUtil.GetDefaultIndexSettings | src/main/java/com/example/simplees/util/IndexMappingUtil.java:244-246 | the default settings are exactly those for one shard and no replica |

## Left out

- Logging, Spring wiring, the HTTP layer and JSON (de)serialisation are not modelled. Index administration handles the mapping and settings texts as opaque strings; whether the client can parse one is the `parses` input, not a JSON grammar.
- The search engine's behaviour is reduced to replies given as inputs. Relevance, analyzers, sorting, bulk item processing and the contents of a describe answer are not modelled. IndexService assumes the engine returns 400 for creating an existing index and 404 for refreshing or describing a missing one; an unacknowledged request has no effect.
- `UUID.randomUUID()`, `LocalDateTime.now()` and `Double.valueOf` are parameters. The several clock reads of one call are collapsed into one `now`. Score values are opaque.
- Java objects are modelled as values. The in-place setter updates of `User`, the sharing of one instance between handler and service, and the mutated `BulkRequest.Builder`/`BoolQuery.Builder` become returned values and sequences.
- UserController.MergeInto: the handler converts and sets one field at a time, so an exception part-way leaves earlier setters applied to its local copy. The model decodes all seven values first and then applies them. The reply is the same, because the local copy is discarded on an exception.
- Integer.valueOf is modelled on ASCII digits with an optional sign. Other Unicode digit characters that Java also accepts are not.
- UserService.SearchUsers: `total` is a Java `long`. Overflow of `total + size - 1` is not modelled, because totals stay far below 2^63.
- A hit with a null source and a null body list are not modelled.
- ElasticsearchConfig, SimpleEsProperties, SimpleEsDemoApplication, TestController, IndexController and User (beyond the record) are not part of this model.
- Engine errors on the existence probe are not modelled: the probe either answers or fails with an I/O error. Refresh and the describe calls model only the 404 for a missing index, not other engine errors.
- UserService.CreateUsers: an empty batch fails with the client library's missing-required-property exception for `BulkRequest.operations`. This is the Java client's check when a bulk request is built without operations; that library is not part of this model.
- UserController.UpdateUser follows the code as written, so it never reports success on a reply the engine can give. UserController.UpdateUserCorrected is the same handler over the corrected service update.
- The describe calls (getIndexInfo, getAllIndices) catch only I/O errors, so an engine error on a missing index escapes instead of yielding null. The model follows the code here, not a reading under which every failure yields null.

## Findings

| source | as written | input that shows it | evidently intended | confidence | as-written member | corrected member |
|---|---|---|---|---|---|---|
| src/main/java/com/example/simplees/service/UserService.java:332 | after an Updated result, returns `response.get().source()`, but the update request never asks for the source, so `get()` is null | any update the engine applies: the reply is Updated with no inline get part; a NullPointerException escapes and the handler reports "更新用户失败: " although the document was updated | return the document that was sent (or request the source) | not executed | UserService.UpdateAsWrittenAlwaysFails | UserService.UpdateUser |
