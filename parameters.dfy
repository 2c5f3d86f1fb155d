/**
 The Swagger 2.0 parameter metadata that baucis-swagger2 builds for a REST
 resource: the catalog of shared parameter objects, the operation parameter
 selector and the path parameter selector.
 */
module Parameters {
  import opened Swagger

  // ---------------------------------------------------------------------------
  // Parameter objects
  // ---------------------------------------------------------------------------

  /** The `in` field of a parameter object. */
  datatype Location = Path | Query | Header | Body

  /** The `type` field of a non-body parameter object. */
  datatype PrimitiveType = StringType | IntegerType | BooleanType

  /** A non-body parameter carries a primitive `type` (and maybe a `format`);
      a body parameter carries a `schema` whose `$ref` names a definition. */
  datatype Value =
    | Primitive(primitive: PrimitiveType, format: Option<string>)
    | Schema(schemaRef: string)

  /** Which of the fixed `description` texts a parameter object carries; the
      prose itself is `DescriptionText`. */
  datatype Description =
    | IdText | UpdateOperatorText | SkipText | LimitText | CountText | ConditionsText
    | SortText | SelectText | PopulateText | DistinctText | HintText | CommentText
    | CreateText | UpdateText

  /** A parameter object: `name`, `in`, `description`, type or schema, `required`. */
  datatype Descriptor = Descriptor(
    name: string,
    location: Location,
    description: Description,
    value: Value,
    required: bool)

  /** An entry of a generated parameter list: a reference object `{ $ref: ... }`
      or a parameter object written inline. */
  datatype Param = Ref(ref: string) | Inline(descriptor: Descriptor)

  function DescriptionText(d: Description): string
  {
    match d
    case IdText => "The identifier of the resource."
    case UpdateOperatorText => "**BYPASSES VALIDATION** May be used with PUT to update the document using $push, $pull, or $set. [doc](https://github.com/wprl/baucis/wiki/HTTP-Headers)"
    case SkipText => "How many documents to skip. [doc](https://github.com/wprl/baucis/wiki/Query-String-Parameters#skip)"
    case LimitText => "The maximum number of documents to send. [doc](https://github.com/wprl/baucis/wiki/Query-String-Parameters#limit)"
    case CountText => "Set to true to return count instead of documents. [doc](https://github.com/wprl/baucis/wiki/Query-String-Parameters#count)"
    case ConditionsText => "Set the conditions used to find or remove the document(s). [doc](https://github.com/wprl/baucis/wiki/Query-String-Parameters#conditions)"
    case SortText => "Set the fields by which to sort. [doc](https://github.com/wprl/baucis/wiki/Query-String-Parameters#sort)"
    case SelectText => "Select which paths will be returned by the query. [doc](https://github.com/wprl/baucis/wiki/Query-String-Parameters#select)"
    case PopulateText => "Specify which paths to populate. [doc](https://github.com/wprl/baucis/wiki/Query-String-Parameters#populate)"
    case DistinctText => "Set to a path name to retrieve an array of distinct values. [doc](https://github.com/wprl/baucis/wiki/Query-String-Parameters#distinct)"
    case HintText => "Add an index hint to the query (must be enabled per controller). [doc](https://github.com/wprl/baucis/wiki/Query-String-Parameters#hint)"
    case CommentText => "Add a comment to a query (must be enabled per controller). [doc](https://github.com/wprl/baucis/wiki/Query-String-Parameters#comment)"
    case CreateText => "Create a document by sending the paths to be added in the request body."
    case UpdateText => "Update a document by sending the paths to be updated in the request body."
  }

  /** A reference resolves against `catalog` when it has the
      `#/parameters/<name>` form and `<name>` is a key of the catalog. */
  predicate Resolves(catalog: map<string, Descriptor>, ref: string)
  {
    ParameterName(ref).Some? && ParameterName(ref).value in catalog
  }

  // ---------------------------------------------------------------------------
  // Shared parameter objects (one literal builder per catalog entry)
  // ---------------------------------------------------------------------------

  const UPDATE_OPERATOR := "X-Baucis-Update-Operator"

  function GetParamId(): Descriptor
  {
    Descriptor("id", Path, IdText, Primitive(StringType, None), true)
  }

  function GetParamXBaucisUpdateOperator(): Descriptor
  {
    Descriptor(UPDATE_OPERATOR, Header, UpdateOperatorText, Primitive(StringType, None), false)
  }

  function GetParamSkip(): Descriptor
  {
    Descriptor("skip", Query, SkipText, Primitive(IntegerType, Some("int32")), false)
  }

  function GetParamLimit(): Descriptor
  {
    Descriptor("limit", Query, LimitText, Primitive(IntegerType, Some("int32")), false)
  }

  function GetParamCount(): Descriptor
  {
    Descriptor("count", Query, CountText, Primitive(BooleanType, None), false)
  }

  function GetParamConditions(): Descriptor
  {
    Descriptor("conditions", Query, ConditionsText, Primitive(StringType, None), false)
  }

  function GetParamSort(): Descriptor
  {
    Descriptor("sort", Query, SortText, Primitive(StringType, None), false)
  }

  function GetParamSelect(): Descriptor
  {
    Descriptor("select", Query, SelectText, Primitive(StringType, None), false)
  }

  function GetParamPopulate(): Descriptor
  {
    Descriptor("populate", Query, PopulateText, Primitive(StringType, None), false)
  }

  function GetParamDistinct(): Descriptor
  {
    Descriptor("distinct", Query, DistinctText, Primitive(StringType, None), false)
  }

  function GetParamHint(): Descriptor
  {
    Descriptor("hint", Query, HintText, Primitive(StringType, None), false)
  }

  function GetParamComment(): Descriptor
  {
    Descriptor("comment", Query, CommentText, Primitive(StringType, None), false)
  }

  /** A reference object pointing at catalog entry `name`. */
  function GetParamRef(name: string): (p: Param)
    ensures p.Ref? && ParameterName(p.ref) == Some(name)
  {
    StripPrefixOfConcat(PARAMETERS_PREFIX, name);
    Ref(PARAMETERS_PREFIX + name)
  }

  // ---------------------------------------------------------------------------
  // The inline body parameter
  // ---------------------------------------------------------------------------

  /** Upper-cases an ASCII lower-case first character. The helper module that
      provides `capitalize` is not part of this model; nothing is claimed
      about this function beyond its use as the definition-name builder. */
  function Capitalize(s: string): string
  {
    if s == [] then []
    else [if 'a' <= s[0] <= 'z' then (s[0] as int - 32) as char else s[0]] + s[1..]
  }

  /** The inline body parameter for creating (`isPost`) or updating a document
      of the resource whose singular name is `singular`. */
  function GetParamDocument(isPost: bool, singular: string): (d: Descriptor)
    ensures d.name == "document" && d.location == Body && d.required
    ensures d.description == if isPost then CreateText else UpdateText
    ensures d.value.Schema? && DefinitionName(d.value.schemaRef) == Some(Capitalize(singular))
  {
    StripPrefixOfConcat(DEFINITIONS_PREFIX, Capitalize(singular));
    Descriptor("document", Body,
      if isPost then CreateText else UpdateText,
      Schema(DEFINITIONS_PREFIX + Capitalize(singular)), true)
  }

  // ---------------------------------------------------------------------------
  // The catalog
  // ---------------------------------------------------------------------------

  /** The twelve resource-independent parameters, keyed by name; this is what
      `#/parameters/<name>` references are resolved against. */
  function CommonParams(): map<string, Descriptor>
  {
    map[
      "id" := GetParamId(),
      "skip" := GetParamSkip(),
      "limit" := GetParamLimit(),
      "count" := GetParamCount(),
      "conditions" := GetParamConditions(),
      "sort" := GetParamSort(),
      "distinct" := GetParamDistinct(),
      "hint" := GetParamHint(),
      "comment" := GetParamComment(),
      "select" := GetParamSelect(),
      "populate" := GetParamPopulate(),
      UPDATE_OPERATOR := GetParamXBaucisUpdateOperator()
    ]
  }

  /** Fills a fresh dictionary one key at a time. */
  method GenerateCommonParams() returns (parameters: map<string, Descriptor>)
    ensures parameters == CommonParams()
  {
    parameters := map[];
    parameters := parameters["id" := GetParamId()];
    parameters := parameters["skip" := GetParamSkip()];
    parameters := parameters["limit" := GetParamLimit()];
    parameters := parameters["count" := GetParamCount()];
    parameters := parameters["conditions" := GetParamConditions()];
    parameters := parameters["sort" := GetParamSort()];
    parameters := parameters["distinct" := GetParamDistinct()];
    parameters := parameters["hint" := GetParamHint()];
    parameters := parameters["comment" := GetParamComment()];
    parameters := parameters["select" := GetParamSelect()];
    parameters := parameters["populate" := GetParamPopulate()];
    parameters := parameters[UPDATE_OPERATOR := GetParamXBaucisUpdateOperator()];
  }

  // ---------------------------------------------------------------------------
  // The list the selectors push onto
  // ---------------------------------------------------------------------------

  /** A growable list of parameters, as the selectors' local array. */
  class ParameterArray {
    var elements: seq<Param>

    constructor ()
      ensures elements == []
    {
      elements := [];
    }

    /** `push(p1, ..., pn)`: appends the arguments in order. */
    method Push(ps: seq<Param>)
      modifies this
      ensures elements == old(elements) + ps
    {
      elements := elements + ps;
    }
  }

  // ---------------------------------------------------------------------------
  // Operation parameters: what each rule contributes
  // ---------------------------------------------------------------------------

  /** Rule for a single instance: the update-operator header, for PUT only. */
  function SingularOperationRefs(verb: string): seq<Param>
  {
    if verb == "put" then [GetParamRef(UPDATE_OPERATOR)] else []
  }

  /** The query options shared by collection GET and DELETE, in order. */
  function CollectionQueryRefs(): seq<Param>
  {
    [GetParamRef("skip"), GetParamRef("limit"), GetParamRef("conditions"),
     GetParamRef("distinct"), GetParamRef("hint"), GetParamRef("comment")]
  }

  /** Rule for a collection: `count` for GET, then the query options for GET and DELETE. */
  function CollectionOperationRefs(verb: string): seq<Param>
  {
    (if verb == "get" then [GetParamRef("count")] else [])
    + (if verb == "get" || verb == "delete" then CollectionQueryRefs() else [])
  }

  /** Rule for POST: the create body. */
  function PostBody(verb: string, singular: string): seq<Param>
  {
    if verb == "post" then [Inline(GetParamDocument(true, singular))] else []
  }

  /** Rule for PUT: the update body. */
  function PutBody(verb: string, singular: string): seq<Param>
  {
    if verb == "put" then [Inline(GetParamDocument(false, singular))] else []
  }

  /** The operation's parameter list: its cardinality rule, then the POST body,
      then the PUT body. */
  function OperationParameters(isInstance: bool, verb: string, singular: string): seq<Param>
  {
    (if isInstance then SingularOperationRefs(verb) else CollectionOperationRefs(verb))
    + PostBody(verb, singular) + PutBody(verb, singular)
  }

  method AddOperationSingularParameters(verb: string, parameters: ParameterArray)
    modifies parameters
    ensures parameters.elements == old(parameters.elements) + SingularOperationRefs(verb)
  {
    if verb == "put" {
      parameters.Push([GetParamRef(UPDATE_OPERATOR)]);
    }
  }

  method AddOperationCollectionParameters(verb: string, parameters: ParameterArray)
    modifies parameters
    ensures parameters.elements == old(parameters.elements) + CollectionOperationRefs(verb)
  {
    if verb == "get" {
      parameters.Push([GetParamRef("count")]);
    }
    if verb == "get" || verb == "delete" {
      parameters.Push([GetParamRef("skip"), GetParamRef("limit"), GetParamRef("conditions"),
                       GetParamRef("distinct"), GetParamRef("hint"), GetParamRef("comment")]);
    }
  }

  method AddPostParameters(verb: string, singular: string, parameters: ParameterArray)
    modifies parameters
    ensures parameters.elements == old(parameters.elements) + PostBody(verb, singular)
  {
    if verb == "post" {
      parameters.Push([Inline(GetParamDocument(true, singular))]);
    }
  }

  method AddPutParameters(verb: string, singular: string, parameters: ParameterArray)
    modifies parameters
    ensures parameters.elements == old(parameters.elements) + PutBody(verb, singular)
  {
    if verb == "put" {
      parameters.Push([Inline(GetParamDocument(false, singular))]);
    }
  }

  /** Builds the list in a fresh array and hands its contents to the caller. */
  method GenerateOperationParameters(isInstance: bool, verb: string, singular: string)
    returns (r: seq<Param>)
    ensures r == OperationParameters(isInstance, verb, singular)
  {
    var parameters := new ParameterArray();
    if isInstance {
      AddOperationSingularParameters(verb, parameters);
    } else {
      AddOperationCollectionParameters(verb, parameters);
    }
    AddPostParameters(verb, singular, parameters);
    AddPutParameters(verb, singular, parameters);
    r := parameters.elements;
  }

  // ---------------------------------------------------------------------------
  // Path parameters
  // ---------------------------------------------------------------------------

  /** The route's shared parameters: `select`, `populate`, then `id` for an
      instance route or `sort` for a collection route. */
  function PathParameters(isInstance: bool): seq<Param>
  {
    [GetParamRef("select"), GetParamRef("populate")]
    + (if isInstance then [GetParamRef("id")] else [GetParamRef("sort")])
  }

  method AddPathSingularParameters(parameters: ParameterArray)
    modifies parameters
    ensures parameters.elements == old(parameters.elements) + [GetParamRef("id")]
  {
    parameters.Push([GetParamRef("id")]);
  }

  method AddPathCollectionParameters(parameters: ParameterArray)
    modifies parameters
    ensures parameters.elements == old(parameters.elements) + [GetParamRef("sort")]
  {
    parameters.Push([GetParamRef("sort")]);
  }

  method GeneratePathParameters(isInstance: bool) returns (r: seq<Param>)
    ensures r == PathParameters(isInstance)
  {
    var parameters := new ParameterArray();
    parameters.Push([GetParamRef("select"), GetParamRef("populate")]);
    if isInstance {
      AddPathSingularParameters(parameters);
    } else {
      AddPathCollectionParameters(parameters);
    }
    r := parameters.elements;
  }
}
