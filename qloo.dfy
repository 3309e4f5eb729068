/** What `get_entity_id` and `get_recommendations` pick out of the
    recommendation service's replies. The replies themselves come from the
    network and are parameters here. */
module Qloo {
  import opened Results
  import opened PyJson

  const NoRecommendations: string := "No recommendations found"

  /** The entity id chosen from a search reply: None when "results" is
      missing or empty, otherwise the first result's nested `entity.id` when
      that is truthy, else its top-level `id`. A reply that is not a dict
      raises AttributeError on `get`, and an id is only ever found in a
      reply with results. */
  function SelectEntityId(data: Json): (r: Result<Json, PyError>)
    ensures !data.JObj? ==> r == Failure(AttributeError(TypeName(data), "get"))
    ensures r.Success? && Truthy(r.value) ==>
      data.JObj? && Truthy(Lookup(data.fields, "results", JArr([])))
  {
    var results :- PyGet(data, "results", JArr([]));
    if !Truthy(results) then Success(JNull)
    else
      var first :- IndexZero(results);
      var entity :- PyGet(first, "entity", JObj([]));
      var nested :- PyGet(entity, "id", JNull);
      if Truthy(nested) then Success(nested) else PyGet(first, "id", JNull)
  }

  /** A reply with no results gives no id. */
  lemma EntityIdOfNoResults(data: Json)
    requires data.JObj?
    requires !HasKey(data.fields, "results") || !Truthy(Lookup(data.fields, "results", JNull))
    ensures SelectEntityId(data) == Success(JNull)
  {
    if HasKey(data.fields, "results") {
      LookupIgnoresDefault(data.fields, "results", JNull, JArr([]));
    }
  }

  /** For a well-formed reply the nested id wins when it is truthy; otherwise
      the top-level id is used, and None when there is none. */
  lemma EntityIdChoice(data: Json, first: Json, rest: seq<Json>)
    requires data.JObj? && HasKey(data.fields, "results")
    requires Lookup(data.fields, "results", JNull) == JArr([first] + rest)
    requires first.JObj?
    requires Lookup(first.fields, "entity", JObj([])).JObj?
    ensures var nested := Lookup(Lookup(first.fields, "entity", JObj([])).fields, "id", JNull);
      && (Truthy(nested) ==> SelectEntityId(data) == Success(nested))
      && (!Truthy(nested) && HasKey(first.fields, "id") ==>
            SelectEntityId(data) == Success(Lookup(first.fields, "id", JNull)))
      && (!Truthy(nested) && !HasKey(first.fields, "id") ==> SelectEntityId(data) == Success(JNull))
  {
    LookupIgnoresDefault(data.fields, "results", JNull, JArr([]));
  }

  /** `r["name"]` */
  function NameOf(r: Json): Result<Json, PyError>
  {
    Subscript(r, "name")
  }

  /** The names `get_recommendations` returns: the sentinel list when the
      entity id is falsy (no request is made, so the reply plays no part),
      otherwise the "name" of each recommendation in the reply. With an id,
      a reply that is not a dict raises AttributeError on `get`, and a
      success has one name per recommendation. */
  function SelectRecommendations(entityId: Json, reply: Json): (r: Result<seq<Json>, PyError>)
    ensures Truthy(entityId) && !reply.JObj? ==> r == Failure(AttributeError(TypeName(reply), "get"))
    ensures Truthy(entityId) && r.Success? ==>
      reply.JObj?
      && Iterate(Lookup(reply.fields, "recommendations", JArr([]))).Success?
      && |r.value| == |Iterate(Lookup(reply.fields, "recommendations", JArr([]))).value|
  {
    if !Truthy(entityId) then Success([JStr(NoRecommendations)])
    else
      var recs :- PyGet(reply, "recommendations", JArr([]));
      var items :- Iterate(recs);
      MapAllSucceeds(NameOf, items);
      MapAll(NameOf, items)
  }

  /** A falsy id gives exactly the sentinel, whatever the reply. */
  lemma RecommendationsWithoutId(entityId: Json, reply: Json)
    requires !Truthy(entityId)
    ensures SelectRecommendations(entityId, reply) == Success([JStr(NoRecommendations)])
  {
  }

  /** With a truthy id and a reply that lists recommendations that all have a
      name, the result is those names, one per recommendation, in order. */
  lemma RecommendationNames(entityId: Json, reply: Json, recs: seq<Json>)
    requires Truthy(entityId)
    requires reply.JObj? && HasKey(reply.fields, "recommendations")
    requires Lookup(reply.fields, "recommendations", JNull) == JArr(recs)
    requires forall k :: 0 <= k < |recs| ==> recs[k].JObj? && HasKey(recs[k].fields, "name")
    ensures SelectRecommendations(entityId, reply).Success?
    ensures var names := SelectRecommendations(entityId, reply).value;
      |names| == |recs| &&
      forall k :: 0 <= k < |recs| ==> names[k] == Lookup(recs[k].fields, "name", JNull)
  {
    LookupIgnoresDefault(reply.fields, "recommendations", JNull, JArr([]));
    MapAllSucceeds(NameOf, recs);
  }

  /** The first recommendation without a name raises KeyError('name'). */
  lemma RecommendationMissingName(entityId: Json, reply: Json, recs: seq<Json>, k: nat)
    requires Truthy(entityId)
    requires reply.JObj? && HasKey(reply.fields, "recommendations")
    requires Lookup(reply.fields, "recommendations", JNull) == JArr(recs)
    requires k < |recs|
    requires forall i :: 0 <= i < k ==> recs[i].JObj? && HasKey(recs[i].fields, "name")
    requires recs[k].JObj? && !HasKey(recs[k].fields, "name")
    ensures SelectRecommendations(entityId, reply) == Failure(KeyError(JStr("name")))
  {
    LookupIgnoresDefault(reply.fields, "recommendations", JNull, JArr([]));
    MapAllFailsAt(NameOf, recs, k);
  }
}
