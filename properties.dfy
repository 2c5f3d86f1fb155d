/**
 What the parameter generator promises: the shape of the catalog, the exact
 lists the two selectors produce, that every reference they produce
 resolves against the catalog, and that a route's parameters resolve to
 parameters unique by name and location.
 */
module ParameterProperties {
  import opened Swagger
  import opened Parameters
  import opened Resolution

  const CATALOG_NAMES: set<string> :=
    {"id", "skip", "limit", "count", "conditions", "sort", "distinct", "hint", "comment",
     "select", "populate", UPDATE_OPERATOR}

  // ---------------------------------------------------------------------------
  // Catalog
  // ---------------------------------------------------------------------------

  /** The catalog has exactly the twelve well-known keys. */
  lemma CatalogKeys()
    ensures CommonParams().Keys == CATALOG_NAMES
    ensures |CommonParams()| == 12
  {
    CatalogSize();
  }

  /** Each of the twelve assignments adds a new key. */
  lemma CatalogSize()
    ensures |CommonParams()| == 12
  {
    var m: map<string, Descriptor> := map[];
    assert "id" !in m; m := m["id" := GetParamId()];
    assert "skip" !in m; m := m["skip" := GetParamSkip()];
    assert "limit" !in m; m := m["limit" := GetParamLimit()];
    assert "count" !in m; m := m["count" := GetParamCount()];
    assert "conditions" !in m; m := m["conditions" := GetParamConditions()];
    assert "sort" !in m; m := m["sort" := GetParamSort()];
    assert "distinct" !in m; m := m["distinct" := GetParamDistinct()];
    assert "hint" !in m; m := m["hint" := GetParamHint()];
    assert "comment" !in m; m := m["comment" := GetParamComment()];
    assert "select" !in m; m := m["select" := GetParamSelect()];
    assert "populate" !in m; m := m["populate" := GetParamPopulate()];
    assert UPDATE_OPERATOR !in m; m := m[UPDATE_OPERATOR := GetParamXBaucisUpdateOperator()];
    assert m == CommonParams();
  }

  /** Every entry is filed under its own `name`. */
  lemma CatalogNamesMatchKeys()
    ensures forall n | n in CommonParams() :: CommonParams()[n].name == n
  {
  }

  /** Only `id` is required, and only `id` is a path parameter; the update
      operator is the one header and every other entry is a query parameter. */
  lemma CatalogLocationsAndRequired()
    ensures forall n | n in CommonParams() :: CommonParams()[n].required <==> n == "id"
    ensures forall n | n in CommonParams() ::
      CommonParams()[n].location == (if n == "id" then Path else if n == UPDATE_OPERATOR then Header else Query)
  {
  }

  /** No catalog entry is a body parameter: all carry a primitive type,
      `integer`/`int32` for `skip` and `limit`, `boolean` for `count`, and
      `string` otherwise. */
  lemma CatalogTypes()
    ensures forall n | n in CommonParams() ::
      CommonParams()[n].value ==
        if n == "skip" || n == "limit" then Primitive(IntegerType, Some("int32"))
        else if n == "count" then Primitive(BooleanType, None)
        else Primitive(StringType, None)
  {
  }

  // ---------------------------------------------------------------------------
  // Reference objects
  // ---------------------------------------------------------------------------

  /** A reference object is `#/parameters/` followed by the name it refers to. */
  lemma GetParamRefForm(name: string)
    ensures GetParamRef(name) == Ref(PARAMETERS_PREFIX + name)
  {
    var p := GetParamRef(name);
    StripPrefixSplits(PARAMETERS_PREFIX, p.ref);
  }

  /** Distinct names give distinct reference objects. */
  lemma GetParamRefInjective(a: string, b: string)
    requires GetParamRef(a) == GetParamRef(b)
    ensures a == b
  {
  }

  /** A reference resolves against the catalog exactly when it is the
      reference object of a catalog key. */
  lemma ResolvesIffCatalogRef(ref: string)
    ensures Resolves(CommonParams(), ref) <==> exists n | n in CommonParams() :: GetParamRef(n) == Ref(ref)
  {
    if Resolves(CommonParams(), ref) {
      var n := ParameterName(ref).value;
      StripPrefixSplits(PARAMETERS_PREFIX, ref);
      GetParamRefForm(n);
      assert GetParamRef(n) == Ref(ref);
    }
  }

  // ---------------------------------------------------------------------------
  // Operation parameters
  // ---------------------------------------------------------------------------

  /** A collection GET takes `count` and then the six query options. */
  lemma CollectionGet(singular: string)
    ensures OperationParameters(false, "get", singular) ==
      [GetParamRef("count"), GetParamRef("skip"), GetParamRef("limit"), GetParamRef("conditions"),
       GetParamRef("distinct"), GetParamRef("hint"), GetParamRef("comment")]
  {
  }

  /** A collection DELETE takes the six query options and no `count`. */
  lemma CollectionDelete(singular: string)
    ensures OperationParameters(false, "delete", singular) ==
      [GetParamRef("skip"), GetParamRef("limit"), GetParamRef("conditions"),
       GetParamRef("distinct"), GetParamRef("hint"), GetParamRef("comment")]
    ensures GetParamRef("count") !in OperationParameters(false, "delete", singular)
  {
  }

  /** An instance PUT takes the update-operator header and then the update body. */
  lemma InstancePut(singular: string)
    ensures OperationParameters(true, "put", singular) ==
      [GetParamRef(UPDATE_OPERATOR), Inline(GetParamDocument(false, singular))]
    ensures GetParamDocument(false, singular).description == UpdateText
  {
  }

  /** A collection PUT takes only the update body. */
  lemma CollectionPut(singular: string)
    ensures OperationParameters(false, "put", singular) == [Inline(GetParamDocument(false, singular))]
  {
  }

  /** A POST, on an instance or a collection, takes exactly the required
      `document` body, described as a creation, whose schema refers to the
      capitalised singular name. */
  lemma Post(isInstance: bool, singular: string)
    ensures var r := OperationParameters(isInstance, "post", singular);
      && |r| == 1 && r[0].Inline?
      && r[0].descriptor.name == "document"
      && r[0].descriptor.location == Body
      && r[0].descriptor.required
      && r[0].descriptor.description == CreateText
      && r[0].descriptor.value == Schema(DEFINITIONS_PREFIX + Capitalize(singular))
  {
    var d := GetParamDocument(true, singular);
    StripPrefixSplits(DEFINITIONS_PREFIX, d.value.schemaRef);
  }

  /** A verb other than get, delete, post and put takes nothing. */
  lemma UnknownVerb(isInstance: bool, verb: string, singular: string)
    requires verb != "get" && verb != "delete" && verb != "post" && verb != "put"
    ensures OperationParameters(isInstance, verb, singular) == []
  {
  }

  /** An instance GET or DELETE takes nothing of its own. */
  lemma InstanceGetOrDelete(verb: string, singular: string)
    requires verb == "get" || verb == "delete"
    ensures OperationParameters(true, verb, singular) == []
  {
  }

  /** The update-operator header is listed exactly for an instance PUT. */
  lemma UpdateOperatorOnlyOnInstancePut(isInstance: bool, verb: string, singular: string)
    ensures GetParamRef(UPDATE_OPERATOR) in OperationParameters(isInstance, verb, singular)
      <==> isInstance && verb == "put"
  {
  }

  /** A body parameter can only be the last entry, so there is at most one
      and every reference precedes it; there is one exactly for POST and PUT. */
  lemma BodyComesLast(isInstance: bool, verb: string, singular: string)
    ensures var r := OperationParameters(isInstance, verb, singular);
      forall k | 0 <= k < |r| && r[k].Inline? :: k == |r| - 1
    ensures var r := OperationParameters(isInstance, verb, singular);
      (|r| > 0 && r[|r| - 1].Inline?) <==> (verb == "post" || verb == "put")
  {
  }

  /** The only inline entry an operation list can hold is the body for its verb. */
  lemma InlineEntriesAreBodies(isInstance: bool, verb: string, singular: string)
    ensures forall p | p in OperationParameters(isInstance, verb, singular) && p.Inline? ::
      p.descriptor == GetParamDocument(verb == "post", singular)
  {
    var refs := if isInstance then SingularOperationRefs(verb) else CollectionOperationRefs(verb);
    assert forall p | p in refs :: p.Ref?;
    assert OperationParameters(isInstance, verb, singular) == refs + PostBody(verb, singular) + PutBody(verb, singular);
  }

  /** Body parameters are written inline and are never catalog entries. */
  lemma BodyIsNotInCatalog(isInstance: bool, verb: string, singular: string)
    ensures forall p | p in OperationParameters(isInstance, verb, singular) && p.Inline? ::
      p.descriptor.location == Body && p.descriptor.name !in CommonParams()
  {
    assert "document" !in CommonParams();
    InlineEntriesAreBodies(isInstance, verb, singular);
  }

  const PATH_NAMES: set<string> := {"select", "populate", "id", "sort"}
  const OPERATION_NAMES: set<string> :=
    {"count", "skip", "limit", "conditions", "distinct", "hint", "comment", UPDATE_OPERATOR}

  /** Operation lists refer only to the operation-level names. */
  lemma OperationRefNames(isInstance: bool, verb: string, singular: string)
    ensures forall q | q in OperationParameters(isInstance, verb, singular) && q.Ref? ::
      ParameterName(q.ref).Some? && ParameterName(q.ref).value in OPERATION_NAMES
  {
    var bodies := PostBody(verb, singular) + PutBody(verb, singular);
    assert forall q | q in bodies :: q.Inline?;
    if isInstance {
      assert OperationParameters(isInstance, verb, singular) == SingularOperationRefs(verb) + bodies;
    } else {
      assert OperationParameters(isInstance, verb, singular) == CollectionOperationRefs(verb) + bodies;
    }
  }

  /** The names operation lists refer to are catalog keys. */
  lemma OperationNamesInCatalog()
    ensures OPERATION_NAMES <= CommonParams().Keys
  {
  }

  /** Every reference an operation list holds resolves against the catalog. */
  lemma OperationReferencesResolve(isInstance: bool, verb: string, singular: string)
    ensures forall p | p in OperationParameters(isInstance, verb, singular) && p.Ref? ::
      Resolves(CommonParams(), p.ref)
  {
    OperationNamesInCatalog();
    OperationRefNames(isInstance, verb, singular);
    ResolvesByNames(CommonParams(), OperationParameters(isInstance, verb, singular), OPERATION_NAMES);
  }

  // ---------------------------------------------------------------------------
  // Path parameters
  // ---------------------------------------------------------------------------

  /** Three references: `select`, `populate`, then `id` or `sort`. */
  lemma PathParametersShape(isInstance: bool)
    ensures var r := PathParameters(isInstance);
      && |r| == 3
      && r[0] == GetParamRef("select") && r[1] == GetParamRef("populate")
      && r[2] == if isInstance then GetParamRef("id") else GetParamRef("sort")
  {
  }

  /** Every path parameter is a reference that resolves against the catalog. */
  lemma PathReferencesResolve(isInstance: bool)
    ensures forall p | p in PathParameters(isInstance) :: p.Ref? && Resolves(CommonParams(), p.ref)
  {
  }

  /** No parameter is listed both for the route and for one of its operations. */
  lemma PathAndOperationDisjoint(pathInstance: bool, isInstance: bool, verb: string, singular: string)
    ensures forall p | p in PathParameters(pathInstance) :: p !in OperationParameters(isInstance, verb, singular)
  {
    assert PATH_NAMES !! OPERATION_NAMES;
    OperationRefNames(isInstance, verb, singular);
    assert forall p | p in PathParameters(pathInstance) :: ParameterName(p.ref).value in PATH_NAMES;
  }

  /** Every catalog entry is referenced by some generated list. */
  lemma CatalogFullyUsed(singular: string)
    ensures forall n | n in CommonParams() ::
      GetParamRef(n) in PathParameters(true) + PathParameters(false)
        + OperationParameters(false, "get", singular) + OperationParameters(true, "put", singular)
  {
  }

  // ---------------------------------------------------------------------------
  // Resolved route parameters
  // ---------------------------------------------------------------------------

  /** The seven collection GET references are distinct; the DELETE ones are a suffix of them. */
  lemma CollectionQueryRefsDistinct()
    ensures Distinct(CollectionOperationRefs("get"))
  {
    var r := CollectionOperationRefs("get");
    forall j, k | 0 <= j < k < |r|
      ensures r[j] != r[k]
    {
      var a, b := ParameterName(r[j].ref).value, ParameterName(r[k].ref).value;
      assert a != b;
    }
  }

  /** No entry appears twice in an operation list. */
  lemma OperationEntriesDistinct(isInstance: bool, verb: string, singular: string)
    ensures Distinct(OperationParameters(isInstance, verb, singular))
  {
    if !isInstance && (verb == "get" || verb == "delete") {
      CollectionQueryRefsDistinct();
      var g := CollectionOperationRefs("get");
      assert OperationParameters(isInstance, verb, singular) == if verb == "get" then g else g[1..];
    }
  }

  /** An operation list meets the conditions under which resolving it gives
      unique parameters. */
  lemma OperationListConditions(isInstance: bool, verb: string, singular: string)
    ensures var r := OperationParameters(isInstance, verb, singular);
      Distinct(r) && InlineLast(r) && ResolvesWithoutShadowing(CommonParams(), r)
  {
    OperationEntriesDistinct(isInstance, verb, singular);
    BodyComesLast(isInstance, verb, singular);
    BodyIsNotInCatalog(isInstance, verb, singular);
    OperationReferencesResolve(isInstance, verb, singular);
  }

  /** The path list has three distinct references that resolve. */
  lemma PathListConditions(isInstance: bool)
    ensures var r := PathParameters(isInstance);
      (forall p | p in r :: p.Ref?) && Distinct(r) && InlineLast(r) && ResolvesWithoutShadowing(CommonParams(), r)
  {
    PathReferencesResolve(isInstance);
  }

  /** The path list and an operation list of the same route, taken together,
      resolve against the catalog to parameters that are unique by name and
      location, as Swagger 2.0 requires of an operation's parameters. */
  lemma RouteParametersAreUnique(isInstance: bool, verb: string, singular: string)
    ensures var r := PathParameters(isInstance) + OperationParameters(isInstance, verb, singular);
      ResolveAll(CommonParams(), r).Some? && UniqueParameters(ResolveAll(CommonParams(), r).value)
  {
    var path := PathParameters(isInstance);
    var ops := OperationParameters(isInstance, verb, singular);
    PathListConditions(isInstance);
    OperationListConditions(isInstance, verb, singular);
    PathAndOperationDisjoint(isInstance, isInstance, verb, singular);
    ConcatKeepsConditions(CommonParams(), path, ops);
    CatalogNamesMatchKeys();
    ResolvedDistinctEntriesAreUnique(CommonParams(), path + ops);
  }
}
