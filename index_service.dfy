/**
 * Index administration: create (with an optional mapping), existence probe, delete, settings update,
 * refresh and the two describe calls, over the engine's set of indices.
 */
module IndexAdmin {
  import opened Wrappers
  import opened JavaLang

  /** What the engine holds for one index: the mapping it was created with and the last settings applied. */
  datatype IndexMeta = IndexMeta(mapping: Option<string>, settings: Option<string>)

  type Indices = map<string, IndexMeta>

  /** The index-administration requests sent to the engine, in order. */
  datatype AdminRequest =
    | ExistsRequest(index: string)
    | CreateRequest(index: string, mappings: Option<string>)
    | DeleteRequest(index: string)
    | GetRequest(pattern: string)
    | PutSettingsRequest(index: string, settings: string)
    | RefreshRequest(index: string)

  /**
   * How the round trips of one call go: whether the existence probe and the main request fail with
   * an I/O error, the error status (if any) the engine answers the main request with besides the
   * ones the model derives from the index set, and whether the engine acknowledges the main request.
   * `parses` says whether the client can read the mapping or settings text as JSON; it does so
   * while building the request, so a text it cannot read throws before anything is sent.
   */
  datatype Conditions = Conditions(probeFails: bool, requestFails: bool, rejection: Option<nat>, acknowledged: bool, parses: bool)

  /** A call that returns a value or lets an exception escape (only I/O errors are caught). */
  datatype Outcome<T> = Returned(value: T) | Raised(e: Exception)

  /** The engine's error statuses for creating an index that exists and for addressing a missing one. */
  const ALREADY_EXISTS: nat := 400
  const NOT_FOUND: nat := 404

  /** The effect of one call: the new index set, the requests sent, and the outcome. */
  datatype Step<T> = Step(indices: Indices, requests: seq<AdminRequest>, outcome: Outcome<T>)

  /** The mapping attached to a create request: only a non-blank one. */
  function AttachedMapping(mappings: Option<string>): (r: Option<string>)
    ensures r.Some? <==> NonBlank(mappings)
    ensures r.Some? ==> r == mappings
  {
    if mappings.Some? && !IsBlank(mappings.value) then mappings else None
  }

  /** `indexExists`: the engine's answer, or false when the probe fails. */
  function ExistsStep(indices: Indices, name: string, fails: bool): (s: Step<bool>)
    ensures s.indices == indices && s.requests == [ExistsRequest(name)]
    ensures s.outcome == Returned(true) <==> !fails && name in indices
  {
    Step(indices, [ExistsRequest(name)], Returned(!fails && name in indices))
  }

  /** `createIndex(name, mappings)`: a non-blank mapping the client cannot parse throws before the create is sent. */
  function CreateStep(indices: Indices, name: string, mappings: Option<string>, cond: Conditions): (s: Step<bool>)
    ensures 1 <= |s.requests| <= 2 && s.requests[0] == ExistsRequest(name)
    ensures |s.requests| == 2 <==> (cond.probeFails || name !in indices) && (!NonBlank(mappings) || cond.parses)
    ensures |s.requests| == 2 ==> s.requests[1] == CreateRequest(name, AttachedMapping(mappings))
    ensures s.outcome == Raised(JsonParsingException) <==> (cond.probeFails || name !in indices) && NonBlank(mappings) && !cond.parses
    ensures s.outcome.Raised? ==> s.outcome.e.ElasticsearchException? || s.outcome.e == JsonParsingException
  {
    if !cond.probeFails && name in indices then
      Step(indices, [ExistsRequest(name)], Returned(true))
    else if AttachedMapping(mappings).Some? && !cond.parses then
      Step(indices, [ExistsRequest(name)], Raised(JsonParsingException))
    else
      var requests := [ExistsRequest(name), CreateRequest(name, AttachedMapping(mappings))];
      if cond.requestFails then Step(indices, requests, Returned(false))
      else if name in indices then Step(indices, requests, Raised(ElasticsearchException(ALREADY_EXISTS)))
      else if cond.rejection.Some? then Step(indices, requests, Raised(ElasticsearchException(cond.rejection.value)))
      else if cond.acknowledged then Step(indices[name := IndexMeta(AttachedMapping(mappings), None)], requests, Returned(true))
      else Step(indices, requests, Returned(false))
  }

  /** `deleteIndex`: a missing index (or a failed probe) counts as deleted. */
  function DeleteStep(indices: Indices, name: string, cond: Conditions): (s: Step<bool>)
    ensures 1 <= |s.requests| <= 2 && s.requests[0] == ExistsRequest(name)
    ensures |s.requests| == 2 <==> !cond.probeFails && name in indices
    ensures |s.requests| == 2 ==> s.requests[1] == DeleteRequest(name)
  {
    if cond.probeFails || name !in indices then
      Step(indices, [ExistsRequest(name)], Returned(true))
    else
      var requests := [ExistsRequest(name), DeleteRequest(name)];
      if cond.requestFails then Step(indices, requests, Returned(false))
      else if cond.rejection.Some? then Step(indices, requests, Raised(ElasticsearchException(cond.rejection.value)))
      else if cond.acknowledged then Step(indices - {name}, requests, Returned(true))
      else Step(indices, requests, Returned(false))
  }

  /**
   * `updateIndexSettings`: a missing index (or a failed probe) is a failure; a null settings text,
   * or one the client cannot parse, throws before sending.
   */
  function UpdateSettingsStep(indices: Indices, name: string, settings: Option<string>, cond: Conditions): (s: Step<bool>)
    ensures 1 <= |s.requests| <= 2 && s.requests[0] == ExistsRequest(name)
    ensures |s.requests| == 2 <==> !cond.probeFails && name in indices && settings.Some? && cond.parses
    ensures |s.requests| == 2 ==> s.requests[1] == PutSettingsRequest(name, settings.value)
    ensures s.outcome == Raised(NullPointerException) <==> !cond.probeFails && name in indices && settings.None?
    ensures s.outcome == Raised(JsonParsingException) <==> !cond.probeFails && name in indices && settings.Some? && !cond.parses
  {
    if cond.probeFails || name !in indices then
      Step(indices, [ExistsRequest(name)], Returned(false))
    else if settings.None? then
      Step(indices, [ExistsRequest(name)], Raised(NullPointerException))
    else if !cond.parses then
      Step(indices, [ExistsRequest(name)], Raised(JsonParsingException))
    else
      var requests := [ExistsRequest(name), PutSettingsRequest(name, settings.value)];
      if cond.requestFails then Step(indices, requests, Returned(false))
      else if cond.rejection.Some? then Step(indices, requests, Raised(ElasticsearchException(cond.rejection.value)))
      else if cond.acknowledged then Step(indices[name := indices[name].(settings := settings)], requests, Returned(true))
      else Step(indices, requests, Returned(false))
  }

  /** `refreshIndex`: true unless the round trip fails; a missing index is an engine error. */
  function RefreshStep(indices: Indices, name: string, fails: bool): (s: Step<bool>)
    ensures s.requests == [RefreshRequest(name)]
    ensures s.outcome.Raised? <==> !fails && name !in indices
  {
    if fails then Step(indices, [RefreshRequest(name)], Returned(false))
    else if name !in indices then Step(indices, [RefreshRequest(name)], Raised(ElasticsearchException(NOT_FOUND)))
    else Step(indices, [RefreshRequest(name)], Returned(true))
  }

  /** `getIndexInfo`: the index's description under `indexInfo`, or null when the round trip fails. */
  function IndexInfoStep(indices: Indices, name: string, fails: bool): (s: Step<Option<map<string, Indices>>>)
    ensures s.requests == [GetRequest(name)]
    ensures s.outcome.Raised? <==> !fails && name !in indices
  {
    if fails then Step(indices, [GetRequest(name)], Returned(None))
    else if name !in indices then Step(indices, [GetRequest(name)], Raised(ElasticsearchException(NOT_FOUND)))
    else Step(indices, [GetRequest(name)], Returned(Some(map["indexInfo" := map[name := indices[name]]])))
  }

  /** `getAllIndices`: every index under `indices`, or null when the round trip fails. */
  function AllIndicesStep(indices: Indices, fails: bool): (s: Step<Option<map<string, Indices>>>)
    ensures s.requests == [GetRequest("*")]
    ensures s.outcome.Returned?
  {
    if fails then Step(indices, [GetRequest("*")], Returned(None))
    else Step(indices, [GetRequest("*")], Returned(Some(map["indices" := indices])))
  }

  /** The administration service over the engine's indices, with the log of the requests it sent. */
  class IndexService {
    var indices: Indices
    var sent: seq<AdminRequest>

    constructor(initial: Indices)
      ensures indices == initial && sent == []
    {
      indices := initial;
      sent := [];
    }

    method IndexExists(name: string, fails: bool) returns (present: bool)
      modifies this
      ensures var s := ExistsStep(old(indices), name, fails);
        indices == s.indices && sent == old(sent) + s.requests && Returned(present) == s.outcome
    {
      sent := sent + [ExistsRequest(name)];
      if fails {
        return false;
      }
      present := name in indices;
    }

    method CreateIndex(name: string, mappings: Option<string>, cond: Conditions) returns (r: Outcome<bool>)
      modifies this
      ensures var s := CreateStep(old(indices), name, mappings, cond);
        indices == s.indices && sent == old(sent) + s.requests && r == s.outcome
    {
      var present := IndexExists(name, cond.probeFails);
      if present {
        return Returned(true);
      }
      var attached: Option<string> := None;
      if mappings.Some? && !IsBlank(mappings.value) {
        attached := mappings;
      }
      if attached.Some? && !cond.parses {
        return Raised(JsonParsingException);
      }
      sent := sent + [CreateRequest(name, attached)];
      ghost var requests := [ExistsRequest(name), CreateRequest(name, AttachedMapping(mappings))];
      assert sent == old(sent) + requests;
      if cond.requestFails {
        assert CreateStep(old(indices), name, mappings, cond) == Step(indices, requests, Returned(false));
        return Returned(false);
      }
      if name in indices {
        assert CreateStep(old(indices), name, mappings, cond) == Step(indices, requests, Raised(ElasticsearchException(ALREADY_EXISTS)));
        return Raised(ElasticsearchException(ALREADY_EXISTS));
      }
      if cond.rejection.Some? {
        assert CreateStep(old(indices), name, mappings, cond) == Step(indices, requests, Raised(ElasticsearchException(cond.rejection.value)));
        return Raised(ElasticsearchException(cond.rejection.value));
      }
      if cond.acknowledged {
        indices := indices[name := IndexMeta(attached, None)];
      }
      r := Returned(cond.acknowledged);
    }

    /** `createIndex(name)`: the same as creating with a null mapping. */
    method CreateIndexDefault(name: string, cond: Conditions) returns (r: Outcome<bool>)
      modifies this
      ensures var s := CreateStep(old(indices), name, None, cond);
        indices == s.indices && sent == old(sent) + s.requests && r == s.outcome
    {
      r := CreateIndex(name, None, cond);
    }

    method DeleteIndex(name: string, cond: Conditions) returns (r: Outcome<bool>)
      modifies this
      ensures var s := DeleteStep(old(indices), name, cond);
        indices == s.indices && sent == old(sent) + s.requests && r == s.outcome
    {
      var present := IndexExists(name, cond.probeFails);
      if !present {
        return Returned(true);
      }
      sent := sent + [DeleteRequest(name)];
      if cond.requestFails {
        return Returned(false);
      }
      if cond.rejection.Some? {
        return Raised(ElasticsearchException(cond.rejection.value));
      }
      if cond.acknowledged {
        indices := indices - {name};
      }
      r := Returned(cond.acknowledged);
    }

    method UpdateIndexSettings(name: string, settings: Option<string>, cond: Conditions) returns (r: Outcome<bool>)
      modifies this
      ensures var s := UpdateSettingsStep(old(indices), name, settings, cond);
        indices == s.indices && sent == old(sent) + s.requests && r == s.outcome
    {
      var present := IndexExists(name, cond.probeFails);
      if !present {
        return Returned(false);
      }
      if settings.None? {
        return Raised(NullPointerException);
      }
      if !cond.parses {
        return Raised(JsonParsingException);
      }
      sent := sent + [PutSettingsRequest(name, settings.value)];
      if cond.requestFails {
        return Returned(false);
      }
      if cond.rejection.Some? {
        return Raised(ElasticsearchException(cond.rejection.value));
      }
      if cond.acknowledged {
        indices := indices[name := indices[name].(settings := settings)];
      }
      r := Returned(cond.acknowledged);
    }

    method RefreshIndex(name: string, fails: bool) returns (r: Outcome<bool>)
      modifies this
      ensures var s := RefreshStep(old(indices), name, fails);
        indices == s.indices && sent == old(sent) + s.requests && r == s.outcome
    {
      sent := sent + [RefreshRequest(name)];
      if fails {
        return Returned(false);
      }
      if name !in indices {
        return Raised(ElasticsearchException(NOT_FOUND));
      }
      r := Returned(true);
    }

    method GetIndexInfo(name: string, fails: bool) returns (r: Outcome<Option<map<string, Indices>>>)
      modifies this
      ensures var s := IndexInfoStep(old(indices), name, fails);
        indices == s.indices && sent == old(sent) + s.requests && r == s.outcome
    {
      sent := sent + [GetRequest(name)];
      if fails {
        return Returned(None);
      }
      if name !in indices {
        return Raised(ElasticsearchException(NOT_FOUND));
      }
      var info: map<string, Indices> := map[];
      info := info["indexInfo" := map[name := indices[name]]];
      r := Returned(Some(info));
    }

    method GetAllIndices(fails: bool) returns (r: Outcome<Option<map<string, Indices>>>)
      modifies this
      ensures var s := AllIndicesStep(old(indices), fails);
        indices == s.indices && sent == old(sent) + s.requests && r == s.outcome
    {
      sent := sent + [GetRequest("*")];
      if fails {
        return Returned(None);
      }
      var all: map<string, Indices> := map[];
      all := all["indices" := indices];
      r := Returned(Some(all));
    }
  }

  // ---------------------------------------------------------------------------
  // Properties of the steps

  /** Whether a request list contains a create request. */
  predicate SendsCreate(requests: seq<AdminRequest>) {
    exists k :: 0 <= k < |requests| && requests[k].CreateRequest?
  }

  /** Creating an index that the probe sees is a no-op success: no create request, the index set unchanged. */
  lemma CreateExistingIsNoOp(indices: Indices, name: string, mappings: Option<string>, cond: Conditions)
    requires name in indices && !cond.probeFails
    ensures var s := CreateStep(indices, name, mappings, cond);
      s.outcome == Returned(true) && s.indices == indices && !SendsCreate(s.requests)
  {
  }

  /** Creating twice with a working transport leaves the same indices as creating once. */
  lemma CreateIdempotent(indices: Indices, name: string, m1: Option<string>, m2: Option<string>, c1: Conditions, c2: Conditions)
    requires CreateStep(indices, name, m1, c1).outcome == Returned(true) && !c2.probeFails
    ensures var once := CreateStep(indices, name, m1, c1).indices;
      CreateStep(once, name, m2, c2).indices == once && CreateStep(once, name, m2, c2).outcome == Returned(true)
  {
  }

  /**
   * A reported success means the index exists afterwards; in every case the only index that can
   * change is the one named, and it only ever appears.
   */
  lemma CreateOutcome(indices: Indices, name: string, mappings: Option<string>, cond: Conditions)
    ensures var s := CreateStep(indices, name, mappings, cond);
      (s.outcome == Returned(true) ==> name in s.indices) &&
      (s.outcome != Returned(true) ==> s.indices == indices)
    ensures var s := CreateStep(indices, name, mappings, cond);
      !NonBlank(mappings) || cond.parses ==>
        ((cond.probeFails || name !in indices) && cond.requestFails ==> s.outcome == Returned(false)) &&
        (name !in indices && !cond.requestFails && cond.rejection.None? ==> s.outcome == Returned(cond.acknowledged)) &&
        (name !in indices && !cond.requestFails && cond.rejection.Some? ==>
          s.outcome == Raised(ElasticsearchException(cond.rejection.value)))
    ensures var s := CreateStep(indices, name, mappings, cond);
      s.indices.Keys == indices.Keys + (if name in s.indices then {name} else {}) &&
      forall n :: n in indices ==> n in s.indices && s.indices[n] == indices[n]
  {
    var s := CreateStep(indices, name, mappings, cond);
    if s.indices != indices {
      assert s.indices == indices[name := IndexMeta(AttachedMapping(mappings), None)] && name !in indices;
    }
  }

  /** A newly created index holds the mapping exactly when a non-blank one was given. */
  lemma CreateAttachesNonBlankMapping(indices: Indices, name: string, mappings: Option<string>, cond: Conditions)
    requires name !in indices && cond.parses && !cond.requestFails && cond.rejection.None? && cond.acknowledged
    ensures var s := CreateStep(indices, name, mappings, cond);
      name in s.indices && (s.indices[name].mapping.Some? <==> NonBlank(mappings)) &&
      (NonBlank(mappings) ==> s.indices[name].mapping == mappings) &&
      s.requests[1] == CreateRequest(name, AttachedMapping(mappings))
  {
  }

  /** The one-argument overload creates without a mapping. */
  lemma CreateDefaultHasNoMapping(indices: Indices, name: string, cond: Conditions)
    requires name !in indices && !cond.requestFails && cond.rejection.None? && cond.acknowledged
    ensures CreateStep(indices, name, None, cond).indices == indices[name := IndexMeta(None, None)]
  {
  }

  /** Because the probe collapses I/O failure to false, creating an existing index after a failed probe lets the engine's error escape. */
  lemma CreateAfterFailedProbe(indices: Indices, name: string, mappings: Option<string>, cond: Conditions)
    requires name in indices && cond.probeFails && cond.parses && !cond.requestFails
    ensures CreateStep(indices, name, mappings, cond).outcome == Raised(ElasticsearchException(ALREADY_EXISTS))
    ensures SendsCreate(CreateStep(indices, name, mappings, cond).requests)
  {
    assert CreateStep(indices, name, mappings, cond).requests[1].CreateRequest?;
  }

  /**
   * A non-blank mapping the client cannot parse lets the parsing exception escape once the probe
   * let the create through: nothing but the probe is sent and nothing changes. A blank mapping is
   * never parsed, so it cannot fail this way and is sent as no mapping at all.
   */
  lemma UnparseableMappingThrows(indices: Indices, name: string, text: string, cond: Conditions)
    requires !cond.parses
    ensures var s := CreateStep(indices, name, Some(text), cond);
      (cond.probeFails || name !in indices) && !IsBlank(text) ==>
        s == Step(indices, [ExistsRequest(name)], Raised(JsonParsingException))
    ensures var s := CreateStep(indices, name, Some(text), cond);
      IsBlank(text) ==> s.outcome != Raised(JsonParsingException) && s == CreateStep(indices, name, None, cond)
  {
  }

  /** Settings the client cannot parse, on a found index, throw before any settings request and change nothing. */
  lemma UnparseableSettingsThrow(indices: Indices, name: string, text: string, cond: Conditions)
    requires !cond.parses && !cond.probeFails && name in indices
    ensures UpdateSettingsStep(indices, name, Some(text), cond) == Step(indices, [ExistsRequest(name)], Raised(JsonParsingException))
  {
  }

  /** Deleting a missing index succeeds without a delete request. */
  lemma DeleteMissingSucceeds(indices: Indices, name: string, cond: Conditions)
    requires name !in indices
    ensures DeleteStep(indices, name, cond) == Step(indices, [ExistsRequest(name)], Returned(true))
  {
  }

  /**
   * With a working probe, a reported deletion means the index is gone; otherwise nothing changed.
   * The only exception that escapes is the engine's rejection of the delete request itself, and no
   * other index is ever touched.
   */
  lemma DeleteOutcome(indices: Indices, name: string, cond: Conditions)
    ensures var s := DeleteStep(indices, name, cond);
      (!cond.probeFails && s.outcome == Returned(true) ==> name !in s.indices) &&
      (!cond.probeFails && name in indices && (cond.requestFails || cond.rejection.None?) ==>
        s.outcome == Returned(!cond.requestFails && cond.acknowledged)) &&
      (s.outcome.Raised? <==> !cond.probeFails && name in indices && !cond.requestFails && cond.rejection.Some?) &&
      (s.outcome.Raised? ==> s.outcome.e == ElasticsearchException(cond.rejection.value)) &&
      (s.outcome != Returned(true) ==> s.indices == indices) &&
      forall n :: n != name ==> (n in s.indices <==> n in indices) && (n in indices ==> s.indices[n] == indices[n])
  {
  }

  /** A failed probe makes `deleteIndex` report success while the index stays. */
  lemma DeleteAfterFailedProbe(indices: Indices, name: string, cond: Conditions)
    requires name in indices && cond.probeFails
    ensures DeleteStep(indices, name, cond).outcome == Returned(true) && name in DeleteStep(indices, name, cond).indices
  {
  }

  /** Updating the settings of a missing index fails without a settings request. */
  lemma UpdateMissingFails(indices: Indices, name: string, settings: Option<string>, cond: Conditions)
    requires name !in indices
    ensures UpdateSettingsStep(indices, name, settings, cond) == Step(indices, [ExistsRequest(name)], Returned(false))
  {
  }

  /**
   * A settings update never adds or removes an index and never touches a mapping; a reported
   * success means the named index now carries the given settings.
   */
  lemma UpdateSettingsOutcome(indices: Indices, name: string, settings: Option<string>, cond: Conditions)
    ensures var s := UpdateSettingsStep(indices, name, settings, cond);
      s.indices.Keys == indices.Keys &&
      (forall n :: n in indices ==> s.indices[n].mapping == indices[n].mapping) &&
      (forall n :: n in indices && n != name ==> s.indices[n] == indices[n]) &&
      (s.outcome == Returned(true) ==> s.indices[name].settings == settings && settings.Some?) &&
      (s.outcome != Returned(true) ==> s.indices == indices)
  {
  }

  /** A null settings text on an existing index throws before any settings request is sent. */
  lemma UpdateNullSettingsThrows(indices: Indices, name: string, cond: Conditions)
    requires name in indices && !cond.probeFails
    ensures UpdateSettingsStep(indices, name, None, cond) == Step(indices, [ExistsRequest(name)], Raised(NullPointerException))
  {
  }

  /** Refresh and the describe calls never change the index set; refresh reports true exactly when it reached an existing index. */
  lemma QueriesAreReadOnly(indices: Indices, name: string, fails: bool)
    ensures RefreshStep(indices, name, fails).indices == indices
    ensures IndexInfoStep(indices, name, fails).indices == indices
    ensures AllIndicesStep(indices, fails).indices == indices
    ensures RefreshStep(indices, name, fails).outcome == Returned(true) <==> !fails && name in indices
    ensures RefreshStep(indices, name, fails).outcome == Raised(ElasticsearchException(NOT_FOUND)) <==> !fails && name !in indices
  {
  }

  /** The describe calls return null exactly when the round trip fails, and otherwise what the engine holds. */
  lemma DescribeNullOnFailure(indices: Indices, name: string, fails: bool)
    ensures IndexInfoStep(indices, name, fails).outcome == Returned(None) <==> fails
    ensures AllIndicesStep(indices, fails).outcome == Returned(None) <==> fails
    ensures !fails ==> AllIndicesStep(indices, fails).outcome.value.value == map["indices" := indices]
    ensures !fails && name in indices ==>
      IndexInfoStep(indices, name, fails).outcome.value.value["indexInfo"] == map[name := indices[name]]
  {
  }
}
