/**
 * The schema catalog: the mapping templates of the user, article, product and test indices and
 * the index-settings template, as structured constant data (the source renders each as JSON text).
 */
module IndexMappingUtil {
  import opened Wrappers
  import opened JavaLang

  /** The storage type of a mapped field, with the attributes the templates give it. */
  datatype FieldKind =
    | Keyword
    | Text(analyzer: Option<string>, searchAnalyzer: Option<string>)
    | IntegerKind
    | LongKind
    | DoubleKind
    | BooleanKind
    | Date(formats: seq<string>)
    | GeoPoint
    | Nested(properties: seq<Field>)

  /** One entry of a `properties` object: its `index` flag, `ignore_above` and `fields` (sub-fields). */
  datatype Field = Field(name: string, kind: FieldKind, index: Option<bool>, ignoreAbove: Option<nat>, fields: seq<Field>)

  datatype Mapping = Mapping(properties: seq<Field>)

  /** `number_of_shards`, `number_of_replicas`, `refresh_interval` and `max_result_window`. */
  datatype IndexSettings = IndexSettings(numberOfShards: Int32, numberOfReplicas: Int32, refreshInterval: string, maxResultWindow: nat)

  /** The date formats accepted by the timestamp fields, in the order the templates list them. */
  const DATE_FORMATS: seq<string> := ["yyyy-MM-dd HH:mm:ss", "yyyy-MM-dd", "epoch_millis"]

  /** The `format` attribute of a date field: its formats joined by `||`. */
  function FormatAttribute(formats: seq<string>): string {
    if formats == [] then ""
    else if |formats| == 1 then formats[0]
    else formats[0] + "||" + FormatAttribute(formats[1..])
  }

  function Plain(name: string, kind: FieldKind): Field {
    Field(name, kind, None, None, [])
  }

  function Indexed(name: string, kind: FieldKind): Field {
    Field(name, kind, Some(true), None, [])
  }

  /** The `keyword` sub-field with `ignore_above` 256 that the templates attach to text fields. */
  const KEYWORD_SUBFIELD: Field := Field("keyword", Keyword, None, Some(256), [])

  /** The first property called `name`, if any. */
  function Lookup(props: seq<Field>, name: string): (r: Option<Field>)
    ensures r.Some? ==> r.value in props && r.value.name == name
    ensures r.None? <==> forall f :: f in props ==> f.name != name
  {
    if props == [] then None
    else if props[0].name == name then Some(props[0])
    else Lookup(props[1..], name)
  }

  /** No two properties share a name, so a lookup is unambiguous. */
  predicate NamesDistinct(props: seq<Field>) {
    forall i, j :: 0 <= i < j < |props| ==> props[i].name != props[j].name
  }

  /** With distinct names, looking up the name of the `i`-th property finds that property. */
  lemma {:induction false} LookupAt(props: seq<Field>, i: nat)
    requires NamesDistinct(props) && i < |props|
    ensures Lookup(props, props[i].name) == Some(props[i])
  {
    if i > 0 {
      assert props[0].name != props[i].name;
      assert props[1..][i - 1] == props[i];
      LookupAt(props[1..], i - 1);
    }
  }

  /** `m` declares exactly the property `f`. */
  predicate DeclaresField(m: Mapping, f: Field) {
    exists i :: 0 <= i < |m.properties| && m.properties[i] == f
  }

  /** `m` declares a property called `name` of kind `kind`. */
  predicate Declares(m: Mapping, name: string, kind: FieldKind) {
    exists i :: 0 <= i < |m.properties| && m.properties[i].name == name && m.properties[i].kind == kind
  }

  /** `getUserIndexMapping()` */
  function UserIndexMapping(): (m: Mapping)
    ensures |m.properties| == 12
  {
    Mapping([
      Indexed("id", Keyword),
      Field("username", Text(Some("standard"), Some("standard")), None, None, [KEYWORD_SUBFIELD]),
      Indexed("email", Keyword),
      Indexed("age", IntegerKind),
      Indexed("gender", Keyword),
      Indexed("city", Keyword),
      Plain("bio", Text(Some("standard"), Some("standard"))),
      Indexed("tags", Keyword),
      Plain("createTime", Date(DATE_FORMATS)),
      Plain("updateTime", Date(DATE_FORMATS)),
      Indexed("isActive", BooleanKind),
      Indexed("score", DoubleKind)
    ])
  }

  /** The user mapping never declares a name twice. */
  lemma UserMappingNamesDistinct()
    ensures NamesDistinct(UserIndexMapping().properties)
  {
  }

  /** The keyword, integer, boolean and double properties of the user mapping. */
  lemma UserMappingKinds()
    ensures var m := UserIndexMapping();
      Declares(m, "id", Keyword) && Declares(m, "email", Keyword) &&
      Declares(m, "gender", Keyword) && Declares(m, "city", Keyword) && Declares(m, "tags", Keyword) &&
      Declares(m, "age", IntegerKind) && Declares(m, "isActive", BooleanKind) && Declares(m, "score", DoubleKind)
  {
    var p := UserIndexMapping().properties;
    assert p[0].name == "id" && p[2].name == "email" && p[3].name == "age" && p[4].name == "gender";
    assert p[5].name == "city" && p[7].name == "tags" && p[10].name == "isActive" && p[11].name == "score";
  }

  /** The text and date properties of the user mapping. */
  lemma UserMappingTextAndDates()
    ensures var m := UserIndexMapping();
      DeclaresField(m, Field("username", Text(Some("standard"), Some("standard")), None, None, [KEYWORD_SUBFIELD])) &&
      DeclaresField(m, Field("bio", Text(Some("standard"), Some("standard")), None, None, [])) &&
      Declares(m, "createTime", Date(DATE_FORMATS)) && Declares(m, "updateTime", Date(DATE_FORMATS))
  {
    var p := UserIndexMapping().properties;
    assert p[1].name == "username" && p[6].name == "bio" && p[8].name == "createTime" && p[9].name == "updateTime";
  }

  /** `getArticleIndexMapping()`: IK analysers on the text fields, long counters, a publish date. */
  function ArticleIndexMapping(): (m: Mapping)
    ensures |m.properties| == 10
  {
    Mapping([
      Plain("id", Keyword),
      Field("title", Text(Some("ik_max_word"), Some("ik_smart")), None, None, [KEYWORD_SUBFIELD]),
      Plain("content", Text(Some("ik_max_word"), Some("ik_smart"))),
      Plain("author", Keyword),
      Plain("category", Keyword),
      Plain("tags", Keyword),
      Plain("publishTime", Date(DATE_FORMATS)),
      Plain("viewCount", LongKind),
      Plain("likeCount", LongKind),
      Plain("isPublished", BooleanKind)
    ])
  }

  /** The article mapping never declares a name twice. */
  lemma ArticleMappingNamesDistinct()
    ensures NamesDistinct(ArticleIndexMapping().properties)
  {
  }

  /** The properties of the article mapping and their kinds. */
  lemma ArticleMappingKinds()
    ensures var m := ArticleIndexMapping();
      DeclaresField(m, Field("title", Text(Some("ik_max_word"), Some("ik_smart")), None, None, [KEYWORD_SUBFIELD])) &&
      Declares(m, "content", Text(Some("ik_max_word"), Some("ik_smart"))) &&
      Declares(m, "id", Keyword) && Declares(m, "author", Keyword) &&
      Declares(m, "category", Keyword) && Declares(m, "tags", Keyword) &&
      Declares(m, "publishTime", Date(DATE_FORMATS)) &&
      Declares(m, "viewCount", LongKind) && Declares(m, "likeCount", LongKind) &&
      Declares(m, "isPublished", BooleanKind)
  {
    var p := ArticleIndexMapping().properties;
    assert p[0].name == "id" && p[1].name == "title" && p[2].name == "content" && p[3].name == "author";
    assert p[4].name == "category" && p[5].name == "tags" && p[6].name == "publishTime";
    assert p[7].name == "viewCount" && p[8].name == "likeCount" && p[9].name == "isPublished";
  }

  /** The properties of the product mapping's nested `attributes` objects. */
  function ProductAttributeProperties(): (props: seq<Field>)
    ensures NamesDistinct(props) && |props| == 2
    ensures Lookup(props, "name") == Some(Plain("name", Keyword))
    ensures Lookup(props, "value") == Some(Plain("value", Text(None, None)))
  {
    var props := [Plain("name", Keyword), Plain("value", Text(None, None))];
    LookupAt(props, 0); LookupAt(props, 1);
    props
  }

  /** `getProductIndexMapping()`: adds a geo point and nested attribute objects. */
  function ProductIndexMapping(): (m: Mapping)
    ensures |m.properties| == 10
  {
    Mapping([
      Plain("id", Keyword),
      Field("name", Text(Some("ik_max_word"), Some("ik_smart")), None, None, [KEYWORD_SUBFIELD]),
      Plain("description", Text(Some("ik_max_word"), Some("ik_smart"))),
      Plain("price", DoubleKind),
      Plain("category", Keyword),
      Plain("brand", Keyword),
      Plain("location", GeoPoint),
      Plain("attributes", Nested(ProductAttributeProperties())),
      Plain("images", Keyword),
      Plain("createTime", Date(DATE_FORMATS))
    ])
  }

  /** The product mapping never declares a name twice. */
  lemma ProductMappingNamesDistinct()
    ensures NamesDistinct(ProductIndexMapping().properties)
  {
  }

  /** The properties of the product mapping and their kinds, with the geo point and the nested attributes. */
  lemma ProductMappingKinds()
    ensures var m := ProductIndexMapping();
      Declares(m, "location", GeoPoint) &&
      Declares(m, "attributes", Nested(ProductAttributeProperties())) &&
      DeclaresField(m, Field("name", Text(Some("ik_max_word"), Some("ik_smart")), None, None, [KEYWORD_SUBFIELD])) &&
      Declares(m, "description", Text(Some("ik_max_word"), Some("ik_smart"))) &&
      Declares(m, "price", DoubleKind) &&
      Declares(m, "id", Keyword) && Declares(m, "category", Keyword) &&
      Declares(m, "brand", Keyword) && Declares(m, "images", Keyword) &&
      Declares(m, "createTime", Date(DATE_FORMATS))
  {
    var p := ProductIndexMapping().properties;
    assert p[0].name == "id" && p[1].name == "name" && p[2].name == "description" && p[3].name == "price";
    assert p[4].name == "category" && p[5].name == "brand" && p[6].name == "location";
    assert p[7].name == "attributes" && p[8].name == "images" && p[9].name == "createTime";
  }

  /** `getSimpleTestMapping()`: its `timestamp` accepts epoch milliseconds only. */
  function SimpleTestMapping(): (m: Mapping)
    ensures NamesDistinct(m.properties) && |m.properties| == 4
    ensures Declares(m, "id", Keyword)
    ensures Declares(m, "name", Text(None, None))
    ensures Declares(m, "value", IntegerKind)
    ensures Declares(m, "timestamp", Date(["epoch_millis"]))
  {
    var props := [
      Plain("id", Keyword),
      Plain("name", Text(None, None)),
      Plain("value", IntegerKind),
      Plain("timestamp", Date(["epoch_millis"]))
    ];
    assert props[0].name == "id" && props[1].name == "name" && props[2].name == "value" && props[3].name == "timestamp";
    Mapping(props)
  }

  /** The user and product timestamps render their formats as the one `format` attribute of the templates. */
  lemma DateFormatAttributes()
    ensures FormatAttribute(DATE_FORMATS) == "yyyy-MM-dd HH:mm:ss||yyyy-MM-dd||epoch_millis"
    ensures FormatAttribute(["epoch_millis"]) == "epoch_millis"
  {
  }

  /** `getIndexSettings(numberOfShards, numberOfReplicas)` */
  function GetIndexSettings(numberOfShards: Int32, numberOfReplicas: Int32): (s: IndexSettings)
    ensures s.numberOfShards == numberOfShards && s.numberOfReplicas == numberOfReplicas
    ensures s.refreshInterval == "1s" && s.maxResultWindow == 10000
  {
    IndexSettings(numberOfShards, numberOfReplicas, "1s", 10000)
  }

  /** `getDefaultIndexSettings()`: the single-node template, one primary shard and no replica. */
  function GetDefaultIndexSettings(): (s: IndexSettings)
    ensures s == GetIndexSettings(1, 0)
    ensures s.numberOfShards == 1 && s.numberOfReplicas == 0
  {
    GetIndexSettings(1, 0)
  }
}
