# Swagger 2.0 parameter metadata for baucis resources

This project models `parameters.js` of baucis-swagger2. That file builds the
Swagger 2.0 parameter metadata for a REST resource served by baucis. It has
three parts:

- **The common parameter catalog** (`generateCommonParams` and the
  `getParam*` literal builders). This is a fixed map from twelve names to
  parameter objects. It is meant to be mounted as the document's Parameters
  Definitions Object.
- **The operation parameter selector** (`generateOperationParameters` and its
  four `add*Parameters` helpers). For an instance or collection route and an
  HTTP verb, it lists the operation's own parameters. The list holds
  `#/parameters/<name>` reference objects and, for POST and PUT, one inline
  `document` body parameter. That body's schema refers to
  `#/definitions/<Singular>`.
- **The path parameter selector** (`generatePathParameters` and its two
  helpers). It lists the parameters shared by every operation on a route.

Files:

- `swagger.dfy` (module `Swagger`): the two reference forms
  (`#/parameters/`, `#/definitions/`) and stripping a prefix off a reference.
- `parameters.dfy` (module `Parameters`): the parameter object datatypes, the
  literal builders, the catalog, and the two selectors. The source builds its
  lists by `push`ing onto a local array, which a helper then mutates in place.
  The model keeps that shape: the class `ParameterArray` has a `seq` field and
  a `Push` method. Each `add*` helper is a method that `modifies` the array and
  is proved to append exactly what its rule contributes. That contribution is
  given by a function (`SingularOperationRefs`, `CollectionOperationRefs`,
  `PostBody`, `PutBody`, `PathParameters`). `GenerateOperationParameters` and
  `GeneratePathParameters` allocate the array, call the helpers, and are
  proved to return `OperationParameters(...)` and `PathParameters(...)`.
  `GenerateCommonParams` fills a local dictionary one key at a time. It is
  proved equal to the map display `CommonParams()`.
- `resolution.dfy` (module `Resolution`): what a Swagger 2.0 consumer does
  with a generated list. `ResolveAll` replaces each `#/parameters/<name>`
  reference by the catalog entry filed under `<name>`; inline objects stay as
  they are. `UniqueParameters` is the Swagger 2.0 rule that an operation's
  parameters are unique by the pair of `name` and `in`. This module also holds
  general lemmas saying when resolving a list gives unique parameters.
- `properties.dfy` (module `ParameterProperties`): lemmas about those
  functions. They cover the exact lists for every verb and cardinality, the
  catalog's keys and fields, that every reference resolves against the
  catalog, and that the route-level and operation-level lists are disjoint.
  The last of them, `RouteParametersAreUnique`, shows that a route's path list
  and any one of its operation lists, taken together, resolve to unique
  parameters.

The verb is a `string`. As in the source, a verb other than `get`, `delete`,
`post` and `put` contributes nothing and is not an error. The resource's
identity is only its singular name, passed in as `singular: string`.

## Model

| member | source | states |
|---|---|---|
| `Parameters.GetParamRef` | parameters.js:115-119 | the result is a reference object whose `#/parameters/` name is exactly the given name |
| `ParameterProperties.GetParamRefForm` | parameters.js:115-119 | a reference object is `'#/parameters/' + name` |
| `ParameterProperties.GetParamRefInjective` | parameters.js:115-119 | different names give different reference objects |
| `Parameters.GetParamDocument` | parameters.js:121-134 | the body parameter is named `document`, is `in: body` and required, carries the create text for POST and the update text otherwise, and has a schema whose `#/definitions/` name is the capitalised singular |
| `Parameters.GenerateCommonParams` | parameters.js:210-225 | filling the dictionary key by key yields exactly the catalog |
| `ParameterProperties.CatalogKeys` | parameters.js:210-225 | the catalog has exactly the twelve well-known keys, and no others |
| `ParameterProperties.CatalogNamesMatchKeys` | parameters.js:4-113 | every catalog entry's `name` equals its key |
| `ParameterProperties.CatalogLocationsAndRequired` | parameters.js:4-113 | only `id` is required and only `id` is `in: path`; the update operator is the single header; every other entry is a query parameter |
| `ParameterProperties.CatalogTypes` | parameters.js:4-113 | no catalog entry is a body: `skip` and `limit` are `integer`/`int32`, `count` is `boolean`, all others are `string` |
| `ParameterProperties.ResolvesIffCatalogRef` | parameters.js:115-119 | a reference resolves against the catalog if and only if it is the reference object of a catalog key |
| `Parameters.ParameterArray.constructor` | parameters.js:138 | a new parameter array is empty |
| `Parameters.ParameterArray.Push` | parameters.js:162-169 | `push` appends its arguments in order and changes nothing else |
| `Parameters.AddOperationSingularParameters` | parameters.js:152-156 | appends the update-operator reference for `put` and nothing otherwise |
| `Parameters.AddOperationCollectionParameters` | parameters.js:157-171 | appends `count` for `get`, then skip/limit/conditions/distinct/hint/comment for `get` or `delete` |
| `Parameters.AddPostParameters` | parameters.js:172-176 | appends the create body for `post` and nothing otherwise |
| `Parameters.AddPutParameters` | parameters.js:177-181 | appends the update body for `put` and nothing otherwise |
| `Parameters.GenerateOperationParameters` | parameters.js:137-150 | returns the cardinality rule's references, then the POST body, then the PUT body |
| `ParameterProperties.CollectionGet` | parameters.js:157-171 | collection GET gives exactly count, skip, limit, conditions, distinct, hint, comment, in that order |
| `ParameterProperties.CollectionDelete` | parameters.js:158-170 | collection DELETE gives exactly skip, limit, conditions, distinct, hint, comment, with no `count` |
| `ParameterProperties.InstancePut` | parameters.js:137-181 | instance PUT gives exactly the update-operator reference followed by the update body |
| `ParameterProperties.CollectionPut` | parameters.js:137-181 | collection PUT gives only the update body |
| `ParameterProperties.Post` | parameters.js:121-176 | POST on either cardinality gives exactly one inline parameter: `document`, `in: body`, required, create text, schema `'#/definitions/' + capitalize(singular)` |
| `ParameterProperties.UnknownVerb` | parameters.js:137-181 | a verb other than get/delete/post/put gives the empty list |
| `ParameterProperties.InstanceGetOrDelete` | parameters.js:140-156 | an instance GET or DELETE gives the empty list |
| `ParameterProperties.UpdateOperatorOnlyOnInstancePut` | parameters.js:137-181 | the update-operator reference is listed if and only if the route is an instance and the verb is `put` |
| `ParameterProperties.BodyComesLast` | parameters.js:137-150 | a body can only be the last entry, so there is at most one and every reference comes before it; the last entry is a body if and only if the verb is `post` or `put` |
| `ParameterProperties.InlineEntriesAreBodies` | parameters.js:146-147 | an inline entry of an operation list is always the body for its verb: the create body for `post`, the update body otherwise |
| `ParameterProperties.BodyIsNotInCatalog` | parameters.js:121-134 | inline entries are body parameters and their name is not a catalog key |
| `ParameterProperties.OperationRefNames` | parameters.js:152-171 | operation lists refer only to count, skip, limit, conditions, distinct, hint, comment and the update operator |
| `ParameterProperties.OperationReferencesResolve` | parameters.js:152-171 | every reference an operation list holds resolves against the catalog |
| `Parameters.AddPathSingularParameters` | parameters.js:201-204 | appends the `id` reference |
| `Parameters.AddPathCollectionParameters` | parameters.js:205-209 | appends the `sort` reference |
| `Parameters.GeneratePathParameters` | parameters.js:184-199 | returns `select`, `populate`, then the cardinality's reference |
| `ParameterProperties.PathParametersShape` | parameters.js:184-209 | the path list has length 3: `select`, `populate`, then `id` for an instance route and `sort` for a collection route |
| `ParameterProperties.PathReferencesResolve` | parameters.js:184-209 | every path parameter is a reference that resolves against the catalog |
| `ParameterProperties.PathAndOperationDisjoint` | parameters.js:137-209 | no entry of a route's path list appears in any of its operation lists |
| `ParameterProperties.CatalogFullyUsed` | parameters.js:210-225 | every catalog key is referenced by some list the selectors generate |
| `ParameterProperties.CatalogSize` | parameters.js:211-223 | each of the twelve assignments adds a new key, so the catalog has twelve entries |
| `ParameterProperties.OperationNamesInCatalog` | parameters.js:152-171 | every name an operation list refers to is a catalog key |
| `ParameterProperties.CollectionQueryRefsDistinct` | parameters.js:158-169 | the seven collection GET references are pairwise distinct |
| `ParameterProperties.OperationEntriesDistinct` | parameters.js:137-181 | no entry appears twice in an operation list |
| `ParameterProperties.OperationListConditions` | parameters.js:137-181 | an operation list has distinct entries, has its body last, and has references that resolve, with a body name that is not a catalog key |
| `ParameterProperties.PathListConditions` | parameters.js:184-209 | the path list has three distinct references, and each of them resolves |
| `ParameterProperties.RouteParametersAreUnique` | parameters.js:137-209 | a route's path list followed by any of its operation lists resolves against the catalog, and the result is unique by name and location |
| `Resolution.ResolveAll` | parameters.js:115-119 | resolving a list fails exactly when some entry does not resolve; otherwise it keeps the length and puts in each position what that entry stands for |
| `Resolution.ResolvesByNames` | parameters.js:115-119 | references whose names are all catalog keys resolve |
| `Resolution.ResolvedDistinctEntriesAreUnique` | parameters.js:115-134 | suppose a list has distinct entries and nothing but references after an inline object, its references resolve, and its inline name is not a key of a catalog that files entries under their own names; then it resolves to unique parameters |
| `Resolution.ConcatKeepsConditions` | parameters.js:188-197 | putting distinct, resolving references in front of a list that shares none of them keeps those conditions |
| `Swagger.StripPrefixOfConcat` | parameters.js:115-119 | stripping `#/parameters/` (or any prefix) off `prefix + name` gives back `name` |
| `Swagger.StripPrefixSplits` | parameters.js:115-119 | a reference a prefix can be stripped from is that prefix followed by the rest |

The builders `GetParamId` … `GetParamComment` (parameters.js:4-113), the
catalog `CommonParams` (parameters.js:210-225), and the specification functions
`OperationParameters` and `PathParameters` have no contract of their own. The
lemmas above state what they promise.

## Left out

- `utils.capitalize` (parameters.js:2, 130): the helper module it comes from is not part of this model. `Capitalize` stands in for it and upper-cases an ASCII lower-case first character. No property of it is claimed; the lemmas only use it as the name that the body schema refers to.
- `controller.model().singular()` (parameters.js:130) is a call into the baucis controller and its Mongoose model. The model takes the singular name as a plain `singular` argument instead.
- Description prose: every parameter object carries a `Description` tag, and `DescriptionText` gives the exact text. The lemmas speak of the tags. The only behaviour here is the create-versus-update choice of the body text, and that is stated.
- Key order of the catalog object: the JavaScript object keeps insertion order, while the model's `map` has none. The keys and values are modelled; their order when serialised is not.
- GenerateOperationParameters, GeneratePathParameters: they return the final contents of the fresh array, not the array object. So the model does not state that each call gives the caller a new array of its own.
- Idempotence (same inputs give equal output) has no lemma: every model function is deterministic by construction, and the catalog method is proved equal to one fixed value.
- The `module.exports` wiring (parameters.js:227-231) is plumbing.
- The TODO about array request bodies (parameters.js:122) describes behaviour that does not exist.
