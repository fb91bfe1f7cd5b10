# OpenAPI document generation, modelled in Dafny

This project models the core of ASP.NET Core's OpenAPI document generator (`Microsoft.AspNetCore.OpenApi`):

- **`OpenApiDocumentService`** turns endpoint descriptions (`ApiDescription`) into an OpenAPI document.
  - It groups endpoints by relative path, normalises each path and groups its endpoints by HTTP method.
  - Each method group becomes one operation, with an operation id, tags, parameters, a request body and responses.
  - Every tag of every operation built goes into a document-level tag set.
- **`OpenApiComponentService`** resolves CLR types to `OpenApiSchema` values.
  - It caches object schemas under their type and gives them stable component names (`GetReferenceId`).
  - It turns the cache into the document's component map.
- **`JsonSchemaExtensions`** converts a JSON Schema into an `OpenApiSchema`, field by field.

The model works like this:
- The stateful parts are Dafny classes. `OpenApiDocumentService` holds `capturedTags`; `OpenApiComponentService` holds `cache`.
- Their loops are methods proved against specification functions (`PathsOf`, `OperationsOf`, `ResponsesOf`, `Resolve`, `CollectComponents`).
- The LINQ expressions of the source are functions, and lemmas state what they promise.
- Every `Dictionary.Add` loop of the source is one instance of `Dictionaries.AddAll`:
  - build each value in turn;
  - stop at the first build that throws;
  - stop at the first key already present.
- Exceptions are `Err` values of `Result`.

Files:

| file | module | what it holds |
|---|---|---|
| wrappers.dfy | Wrappers | `Option`, `Result` |
| text.dfy | Text | `Trim`, `Replace`, `ToLower`, `Split('`').First()`, decimal formatting of status codes |
| linq.dfy | Linq | `Distinct`, `Where`, `Select`, `GroupBy`, `LastOrDefault`, `Any` |
| dictionaries.dfy | Dictionaries | the add-to-dictionary loop and its properties |
| openapi_model.dfy | OpenApiModel | `OpenApiSchema` as a value |
| reference_naming.dfy | ReferenceNaming | `GetReferenceId`, `IsAnonymousType` |
| json_schema_extensions.dfy | JsonSchemaExtensions | `ToOpenApiSchemaType`, `ToOpenApiSchema` |
| component_service.dfy | ComponentService | the resolver, the cache class and the component map |
| document_service.dfy | DocumentService | operations, paths, tags and the document service class |

Points where the code behaves in a way a reader might not expect, and where the model follows the code:
- **A method group of several endpoints.** `SingleOrDefault` throws, so the model returns `AmbiguousMethod`. The first endpoint does not win.
- **Response content types.** The API-explorer formats take precedence over explicit `Produces` types, because the code assigns them last.
- **The resolver's cache.** An object schema enters the cache after its members are resolved, not before. See "## Findings".
- **The fallback tag.** It is the `controller` route value, and its absence throws.
- **Repeated keys.** A repeated status code, normalised path or operation type throws on `Add`.

The code the core calls but does not contain is a parameter of the model:
- **`DocumentService.Collaborators`:**
  - `ReasonPhrases.GetReasonPhrase`;
  - `ToOperationType`;
  - `ToParameterLocation`;
  - the schema lookup the document service makes, which may throw (an `Err`).
- **`ComponentService.TypeEnv`:**
  - what `JsonTypeInfo` and reflection report about a type;
  - `OpenApiTypeMapper.MapTypeToOpenApiPrimitiveType`.

## Model

| member | source | states |
|---|---|---|
| DocumentService.RoutePartSpec | src/OpenApi/src/OpenApiDocumentService.cs:136-137 | The route part of a generated id contains no `/`, `-`, `{` or `}`. It is no longer than the path. It equals the path when the path has none of those characters. |
| DocumentService.GeneratedOperationId | src/OpenApi/src/OpenApiDocumentService.cs:133-138 | A generated id is the method lower-cased character by character, then `_`, then the route part of the relative path. |
| DocumentService.OperationIdPrecedence | src/OpenApi/src/OpenApiDocumentService.cs:128-131 | The operation id is the attribute route name if present. Otherwise it is the name of the last endpoint-name metadata item. Otherwise it is the generated id. |
| DocumentService.TagsChoice | src/OpenApi/src/OpenApiDocumentService.cs:140-148 | The tags are those of the last tags-metadata item. Without one, the tag is the single `controller` route value, and building fails exactly when that key is missing. |
| DocumentService.ParametersSpec | src/OpenApi/src/OpenApiDocumentService.cs:223-225 | The parameters are built from exactly the descriptions that are neither body- nor form-bound. With no body- or form-bound description, all descriptions are used. |
| DocumentService.ParametersBuilt | src/OpenApi/src/OpenApiDocumentService.cs:221-240 | The parameters are built exactly when the schema lookup succeeds on every plain parameter. Then there is one per plain description, in input order. Each keeps its name, gets its location, is required exactly when path-bound or flagged required, and holds the schema of its type. |
| DocumentService.ParametersFail | src/OpenApi/src/OpenApiDocumentService.cs:221-240 | A failure is the exception of the first plain parameter whose schema lookup throws. The lookup succeeds on every parameter before it. |
| DocumentService.RequestBodyRule | src/OpenApi/src/OpenApiDocumentService.cs:193-219 | There is no request body without a body-bound parameter, and two of them fail. With exactly one, a schema lookup that throws fails the body with its exception. Otherwise the body is required. Its content keys are the declared request formats (`application/json` when none), and each maps to that parameter's schema. |
| DocumentService.ResponseContentChoice | src/OpenApi/src/OpenApiDocumentService.cs:163-191 | A built response is described by the reason phrase of its status code. Its content keys are the API-explorer formats when there are any, else the `Produces` types. Each key maps to the schema the lookup returned for the response type. |
| DocumentService.ResponseFailures | src/OpenApi/src/OpenApiDocumentService.cs:163-191 | A response fails exactly when it has a content type and either the response type is null or its schema lookup throws. A null type gives `NullResponseType`; a throwing lookup gives its exception. |
| DocumentService.ResponsesKeys | src/OpenApi/src/OpenApiDocumentService.cs:150-161 | Built responses hold each response type's response under the decimal text of its effective status code, and nothing else. No two response types share an effective status code. |
| DocumentService.ResponsesSucceed | src/OpenApi/src/OpenApiDocumentService.cs:150-161 | Conversely, the responses are built when every response can be built and the effective status codes are pairwise different. |
| DocumentService.DefaultResponse | src/OpenApi/src/OpenApiDocumentService.cs:152-165 | With no declared response types and no `Produces` metadata, there is exactly one response: key `200`, the reason phrase of 200, and no content. |
| DocumentService.DefaultResponseKey | src/OpenApi/src/OpenApiDocumentService.cs:157-158 | A default response is keyed `200` whatever status code it declares. |
| DocumentService.OperationGroup | src/OpenApi/src/OpenApiDocumentService.cs:103-123 | When the operations are built, every method group holds one endpoint. Its operation is stored under the operation type of the group's method. |
| DocumentService.OperationTypesDistinct | src/OpenApi/src/OpenApiDocumentService.cs:101-116 | When the operations are built, two endpoints of a path never share an operation type, and so never share an HTTP method. |
| DocumentService.OperationOfEndpoint | src/OpenApi/src/OpenApiDocumentService.cs:101-123 | When the operations are built, every endpoint's operation is present under the operation type of its method. |
| DocumentService.OperationKeyOfEndpoint | src/OpenApi/src/OpenApiDocumentService.cs:101-116 | When the operations are built, every operation type present belongs to an endpoint of the path. |
| DocumentService.OperationsShape | src/OpenApi/src/OpenApiDocumentService.cs:99-126 | When the operations are built, there is exactly one operation per endpoint and the operation types are distinct. Each operation is its endpoint's operation, stored under its operation type, and no other key is present. |
| DocumentService.OperationsSucceed | src/OpenApi/src/OpenApiDocumentService.cs:99-126 | Conversely, the operations are built when the endpoints' operation types are pairwise different and every endpoint's operation can be built. |
| DocumentService.OperationStep | src/OpenApi/src/OpenApiDocumentService.cs:103-124 | Proof step (one unfolding of the loop body): pass over an empty group; fail on several endpoints; otherwise build the tags, request body, responses and parameters, and add under a new operation type. The first failure wins. |
| DocumentService.NormalizePathShape | src/OpenApi/src/OpenApiDocumentService.cs:89-93 | A normalised path is `/` followed by the key trimmed of `/`. It starts with one `/` and, unless it is `/`, neither its second nor its last character is `/`. |
| DocumentService.NormalizePathIdempotent | src/OpenApi/src/OpenApiDocumentService.cs:89-93 | Normalising a normalised path changes nothing. |
| DocumentService.NormalizePathCollision | src/OpenApi/src/OpenApiDocumentService.cs:89-94 | Two relative paths normalise to one path exactly when they agree once trimmed of `/`. |
| DocumentService.SlashVariantsCollide | src/OpenApi/src/OpenApiDocumentService.cs:89-94 | A route with a trailing `/` and the same route with a leading `/` are different keys with one normalised path. |
| DocumentService.TrailingSlashCollision | src/OpenApi/src/OpenApiDocumentService.cs:89-94 | `todos/` and `/todos` both normalise to `/todos`. |
| DocumentService.PathGroup | src/OpenApi/src/OpenApiDocumentService.cs:82-95 | When the paths are built, each path group has a relative path. The item under its normalised path holds the operations of the endpoints at that path. |
| DocumentService.PathOfEndpoint | src/OpenApi/src/OpenApiDocumentService.cs:82-95 | When the paths are built, every endpoint has a relative path. Its normalised form is a key whose item holds the operations of all endpoints at that relative path. |
| DocumentService.PathKeyOfEndpoint | src/OpenApi/src/OpenApiDocumentService.cs:82-95 | When the paths are built, every key is the normalised relative path of an endpoint. |
| DocumentService.PathsDistinct | src/OpenApi/src/OpenApiDocumentService.cs:82-95 | When the paths are built, endpoints with different relative paths have different normalised paths. |
| DocumentService.PathsShape | src/OpenApi/src/OpenApiDocumentService.cs:80-97 | The paths hold one entry per distinct relative path, each keyed by its normalised path and holding the operations of the endpoints at it. No other key is present. |
| DocumentService.PathStep | src/OpenApi/src/OpenApiDocumentService.cs:86-95 | Proof step (one unfolding of the loop body): fail on a null relative path; build the operations; add under a new normalised path. |
| DocumentService.OperationTagsAdd | src/OpenApi/src/OpenApiDocumentService.cs:111-116 | Adding an operation under a new operation type adds exactly its tags to the tags of the path's operations. |
| DocumentService.PathTagsAdd | src/OpenApi/src/OpenApiDocumentService.cs:94 | Adding a path item under a new path adds exactly the tags of its operations to the tags of all paths. |
| DocumentService.OpenApiDocumentService.constructor | src/OpenApi/src/OpenApiDocumentService.cs:37-43 | The document is built once. On a path failure it holds that error. Otherwise it is built exactly when no two cached types share a component name. If built, its paths are `PathsOf`, its components are the component map of the cache, and its tags are exactly the tags of all its operations. |
| DocumentService.OpenApiDocumentService.CaptureTags | src/OpenApi/src/OpenApiDocumentService.cs:112-115 | Adding each tag to `_capturedTags` makes the set the old set plus the tags. |
| DocumentService.OpenApiDocumentService.GetResponses | src/OpenApi/src/OpenApiDocumentService.cs:150-161 | The loop returns `ResponsesOf`: the responses, or the first error met. |
| DocumentService.OpenApiDocumentService.GetOperations | src/OpenApi/src/OpenApiDocumentService.cs:99-126 | The loop returns `OperationsOf`. On success the captured tags grew by exactly the tags of the operations built. They never shrink. |
| DocumentService.OpenApiDocumentService.GetOpenApiPaths | src/OpenApi/src/OpenApiDocumentService.cs:80-97 | The loop returns `PathsOf`. On success the captured tags grew by exactly the tags of all operations built. |
| DocumentService.OpenApiDocumentService.AddPath | src/OpenApi/src/OpenApiDocumentService.cs:86-95 | One turn of the path loop agrees with the add step of `PathsOf`. On success the normalised path is a key, and the captured tags and the tags of the map both grew by exactly the new path's operation tags. |
| DocumentService.OpenApiDocumentService.GenerateOpenApiDocument | src/OpenApi/src/OpenApiDocumentService.cs:45-56 | The result is the paths, then the components, then the captured tags. A path failure is returned as is. Given the paths, the document is built exactly when no two cached types share a component name. |
| Linq.LastOrDefaultSpec | src/OpenApi/src/OpenApiDocumentService.cs:143 | `LastOrDefault` finds nothing exactly when no element matches. Otherwise it returns the matching element after which none matches. |
| Linq.GroupByProperties | src/OpenApi/src/OpenApiDocumentService.cs:82-84 | Groups have distinct keys and are never empty. Each holds exactly the elements with its key, and every element's key has a group. |
| Linq.SelectAllOk | src/OpenApi/src/OpenApiDocumentService.cs:226-227 | `Select(...).ToList()` over a builder that may throw succeeds exactly when every element builds. It then keeps the length, and each result is its element's build. |
| Linq.SelectAllErr | src/OpenApi/src/OpenApiDocumentService.cs:226-227 | A failure is the exception of the first element whose build throws. Every element before it builds. |
| Linq.Distinct | src/OpenApi/src/OpenApiDocumentService.cs:175-177 | `Distinct` keeps every element, repeats none, and adds none. |
| ReferenceNaming.SimpleTypeId | src/OpenApi/src/OpenApiComponentService.cs:156-159 | A non-generic type is named by its simple name with every `[]` replaced by `Array`. The name contains no `[]` and equals the simple name when that has no `[`. An array name `n[]` becomes the name of `n` followed by `Array`, so `Int32[]` becomes `Int32Array`. |
| Text.ReplaceBracketsSnoc | src/OpenApi/src/OpenApiComponentService.cs:158 | Replacing `[]` in a text followed by `[]` gives the replaced text followed by `Array`. |
| ReferenceNaming.NamespaceIdCollision | src/OpenApi/src/OpenApiComponentService.cs:156-159 | Types of one simple name in different namespaces share their name. |
| ReferenceNaming.GenericTypeId | src/OpenApi/src/OpenApiComponentService.cs:161-170 | A constructed generic is named by its arguments' names in order, then `AnonymousType` for an anonymous type, else the name up to the first backtick, which the suffix then lacks. |
| ReferenceNaming.ArgumentsIdSnoc | src/OpenApi/src/OpenApiComponentService.cs:161-163 | Proof step: appending an argument appends its name. |
| ReferenceNaming.SingleArgumentNaming | src/OpenApi/src/OpenApiComponentService.cs:161-170 | One-argument instantiations of one generic definition get equal names exactly when their arguments do. |
| ReferenceNaming.TwoArgumentId | src/OpenApi/src/OpenApiComponentService.cs:161-170 | A two-argument instantiation is named by both arguments' names followed by the suffix. |
| ReferenceNaming.GenericIdCollision | src/OpenApi/src/OpenApiComponentService.cs:161-170 | Two different pairs whose argument names concatenate to the same text share their name. |
| ReferenceNaming.PairCollisionExample | src/OpenApi/src/OpenApiComponentService.cs:161-170 | `Pair<A, BC>` and `Pair<AB, C>` are different types, both named `ABCPair`. |
| ReferenceNaming.AnonymousTypeId | src/OpenApi/src/OpenApiComponentService.cs:165-168 | An anonymous constructed type is named by its arguments' names followed by `AnonymousType`. |
| ReferenceNaming.CompilerAnonymousType | src/OpenApi/src/OpenApiComponentService.cs:173-177 | The compiler's name for an anonymous type, on a top-level compiler-generated class, is recognised as anonymous. |
| ReferenceNaming.OrdinaryNamesAreNotAnonymous | src/OpenApi/src/OpenApiComponentService.cs:173-177 | A type whose name does not start with `<` is never anonymous. |
| ComponentService.Resolve | src/OpenApi/src/OpenApiComponentService.cs:46-151 | A cached type returns its stored schema and leaves the cache unchanged. The cache only grows, by referenced object schemas. A resolved object type is cached under itself; any other kind leaves the cache as it is. |
| ComponentService.ResolveObject | src/OpenApi/src/OpenApiComponentService.cs:108-149 | An object schema is cached under its type and refers to the type's component name. |
| ComponentService.ResolveAll | src/OpenApi/src/OpenApiComponentService.cs:110-120 | Derived and base types resolve to one schema each, in order. Object types among them refer to their component names. |
| ComponentService.ResolveProperties | src/OpenApi/src/OpenApiComponentService.cs:125-140 | The listed properties are the kept properties in order, with unique names. Read-only means no setter and write-only means no getter, and a declared default is carried. `PropertiesResolved` states the schema each property holds. |
| ComponentService.PropertiesResolved | src/OpenApi/src/OpenApiComponentService.cs:125-140 | There is one listed property per kept property. An object-typed property holds the schema its type is cached with in the final cache, given the property's default and accessor flags. Any other property holds its type's inline schema, given the same. |
| ComponentService.AllCached | src/OpenApi/src/OpenApiComponentService.cs:110-120 | Each derived or base type resolved in turn is cached in the final cache with the schema it resolved to, when it is an object type. Otherwise it holds its type's inline schema. |
| ComponentService.MemberStep | src/OpenApi/src/OpenApiComponentService.cs:48-149 | In a referenced cache, a resolved object type ends up cached with its schema. Any other type resolves to its inline schema. |
| ComponentService.DictionaryValueType | src/OpenApi/src/OpenApiComponentService.cs:70-75 | A dictionary's value type is its second generic argument when it has exactly two, else null. |
| ComponentService.ElementType | src/OpenApi/src/OpenApiComponentService.cs:105 | The element type is `GetElementType()`, else the first generic argument. With neither, resolution fails. |
| ComponentService.BaseTypes | src/OpenApi/src/OpenApiComponentService.cs:117 | `allOf` gets the base type unless it is missing or `object`. |
| ComponentService.Kept | src/OpenApi/src/OpenApiComponentService.cs:125-130 | Properties that reflection finds declared on another type are skipped. |
| ComponentService.KeptMembers | src/OpenApi/src/OpenApiComponentService.cs:125-130 | A property is kept exactly when it is listed and not declared on another type. |
| ComponentService.KeptAppend | src/OpenApi/src/OpenApiComponentService.cs:125-130 | Keeping distributes over concatenation, so the kept properties stay in declaration order. |
| ComponentService.KeptAll | src/OpenApi/src/OpenApiComponentService.cs:125-130 | When no property is declared on another type, all of them are kept. |
| ComponentService.InlineResolution | src/OpenApi/src/OpenApiComponentService.cs:56-107 | JsonNode, dictionary, enum, primitive and array schemas leave the cache alone and, from an inline mapper, carry no reference. A dictionary maps its value type. Without exactly two generic arguments its value type is null, which the mapper rejects. An enum keeps its values in order. It fails when it has a value and its underlying type is not `int`, because `(int)value` is invalid there. A parameter's default wins over the type's. An array fails only without an element type. |
| ComponentService.OnlyObjectsDiverge | src/OpenApi/src/OpenApiComponentService.cs:48-107 | Only an object type not yet cached can exhaust the recursion budget. |
| ComponentService.ObjectResolution | src/OpenApi/src/OpenApiComponentService.cs:108-149 | An object schema is a closed object with its component reference. `oneOf` holds one member per derived type in declaration order, and `allOf` one for the base. An object-typed member refers to its type's component name; any other member is its type's inline schema. The properties match the kept ones. An object-typed property refers to its type's component name; any other property holds its type's inline schema, given the property's default and accessor flags. The final cache holds the schema under the type, and every member type other than the type itself is cached with the schema its member holds. |
| ComponentService.ResolveIdempotent | src/OpenApi/src/OpenApiComponentService.cs:48-51 | Resolving a type again, in the cache its first resolution left, returns the same schema and cache. |
| ComponentService.FirstFailure | src/OpenApi/src/OpenApiComponentService.cs:112-115 | A failure resolving the first derived type is the failure of the whole loop. |
| ComponentService.PropertiesSkip | src/OpenApi/src/OpenApiComponentService.cs:127-130 | Proof step: a skipped property leaves no trace. |
| ComponentService.PropertiesKeep | src/OpenApi/src/OpenApiComponentService.cs:131-139 | Proof step: a kept property is resolved, given its default and accessor flags, and added under a new name. A repeated name makes `Add` fail. |
| ComponentService.ObjectFailsInDerived | src/OpenApi/src/OpenApiComponentService.cs:110-116 | Proof step: a failing derived type fails the object. |
| ComponentService.ObjectFailsInBase | src/OpenApi/src/OpenApiComponentService.cs:117-120 | Proof step: a failing base type fails the object. |
| ComponentService.ObjectFailsInProperties | src/OpenApi/src/OpenApiComponentService.cs:125-140 | Proof step: a failing property fails the object. |
| ComponentService.ObjectSucceeds | src/OpenApi/src/OpenApiComponentService.cs:108-149 | Proof step: with every stage built, the object schema is composed from them and written to the cache last. |
| ComponentService.ObjectStagesOk | src/OpenApi/src/OpenApiComponentService.cs:108-149 | Proof step: a successful object branch has succeeded in each stage and returns the schema composed from them. |
| ComponentService.StagesResolved | src/OpenApi/src/OpenApiComponentService.cs:110-140 | Proof step: the stages, run from a referenced cache, leave each member resolved in the cache its stage left. |
| ComponentService.ObjectFromStages | src/OpenApi/src/OpenApiComponentService.cs:141-149 | Proof step: the schema composed from such stages describes the object, and storing it keeps what the members left in the cache. |
| ComponentService.PropertiesOfCached | src/OpenApi/src/OpenApiComponentService.cs:125-138 | A kept property whose type is already cached holds the cached schema, with the property's default and accessor flags. |
| ComponentService.PolymorphicBaseDiverges | src/OpenApi/src/OpenApiComponentService.cs:108-145 | As written, a polymorphic base whose derived type inherits from it recurses without end for every budget. |
| ComponentService.DerivedDiverges | src/OpenApi/src/OpenApiComponentService.cs:117-120 | As written, that derived type recurses without end too. |
| ComponentService.ResolveTerminates | src/OpenApi/src/OpenApiComponentService.cs:46-151 | When the cache is written before recursing, every type of a closed type universe resolves without exhausting a budget of the number of uncached types. |
| ComponentService.ClosedResolutionTerminates | src/OpenApi/src/OpenApiComponentService.cs:46-151 | When the cache is written before recursing, resolution from an empty cache with a budget of the universe's size never diverges. |
| ComponentService.RecursiveReference | src/OpenApi/src/OpenApiComponentService.cs:125-148 | When the cache is written before recursing, a property of an object type whose type is that object type holds the cached placeholder, which refers to the type's component name. It does not hold a second copy of the schema. |
| ComponentService.CollectComponents | src/OpenApi/src/OpenApiComponentService.cs:26-34 | The component map has one entry per cached type, under its component name. It is built exactly when no two cached types share a name, and a failure names a shared one. |
| ComponentService.CollectedInjective | src/OpenApi/src/OpenApiComponentService.cs:26-34 | A complete component map means no two cached types share a component name. |
| ComponentService.ComponentsReferenced | src/OpenApi/src/OpenApiComponentService.cs:26-34 | Every component refers to its own key. |
| ComponentService.OpenApiComponentService.constructor | src/OpenApi/src/OpenApiComponentService.cs:20-22 | The cache starts empty. |
| ComponentService.OpenApiComponentService.GetOrCreateSchema | src/OpenApi/src/OpenApiComponentService.cs:46-151 | The method's result and new cache are those of `Resolve`. The cache only grows and stays referenced. |
| ComponentService.OpenApiComponentService.CreateObjectSchema | src/OpenApi/src/OpenApiComponentService.cs:108-149 | The object branch's result and new cache are those of `ResolveObject`. |
| ComponentService.OpenApiComponentService.ResolveEach | src/OpenApi/src/OpenApiComponentService.cs:112-119 | The derived and base loops agree with `ResolveAll`. |
| ComponentService.OpenApiComponentService.ResolvePropertiesOf | src/OpenApi/src/OpenApiComponentService.cs:125-140 | The property loop agrees with `ResolveProperties`. |
| ComponentService.OpenApiComponentService.AddProperty | src/OpenApi/src/OpenApiComponentService.cs:127-139 | One turn of the property loop agrees with `ResolveProperties` on one more property. |
| ComponentService.OpenApiComponentService.GetOpenApiComponents | src/OpenApi/src/OpenApiComponentService.cs:26-34 | It returns the component map of the cache exactly when no two cached types share a component name, and every component refers to its key. |
| JsonSchemaExtensions.ToOpenApiSchemaType | src/OpenApi/src/JsonSchemaExtensions.cs:28-41 | Each of the seven single kinds maps to its name. Anything else, a missing type included, is out of range. |
| JsonSchemaExtensions.KindNameRoundTrip | src/OpenApi/src/JsonSchemaExtensions.cs:30-38 | Kind names parse back to their kind, and no two kinds share a name. |
| JsonSchemaExtensions.CheckedToInt | src/OpenApi/src/JsonSchemaExtensions.cs:15-16 | The checked conversion fails exactly above `int.MaxValue`. Otherwise it keeps the value and its absence. |
| JsonSchemaExtensions.ConversionSucceedsIff | src/OpenApi/src/JsonSchemaExtensions.cs:8-26 | Conversion succeeds exactly on schemas whose counts fit `int`, whose type is a single kind, and whose properties have unique names and are convertible in turn. |
| JsonSchemaExtensions.PropertiesSucceedIff | src/OpenApi/src/JsonSchemaExtensions.cs:18 | The property dictionary is built exactly when its property list is acceptable. |
| JsonSchemaExtensions.PropertiesConvertibleMeaning | src/OpenApi/src/JsonSchemaExtensions.cs:18 | A property list is acceptable exactly when its names are unique and each schema is convertible. |
| JsonSchemaExtensions.ConvertedNames | src/OpenApi/src/JsonSchemaExtensions.cs:18 | The converted properties keep the names in order. |
| JsonSchemaExtensions.PropertiesConvertedInPlace | src/OpenApi/src/JsonSchemaExtensions.cs:18 | Each converted property is the conversion of the property at the same position. |
| JsonSchemaExtensions.ConversionFields | src/OpenApi/src/JsonSchemaExtensions.cs:8-26 | The conversion maps the fields as follows: discriminator, bounds and pattern pass through; the counts keep value and absence; read-only, write-only and unique-items default to false; required becomes a set; the type is the kind's name; properties are converted in place, absent staying absent. Every other field keeps its `new OpenApiSchema()` value: additional properties are allowed but none is given, and there are no items, no enum values, no default, no `oneOf`, no `allOf` and no reference. |
| JsonSchemaExtensions.ConversionFailures | src/OpenApi/src/JsonSchemaExtensions.cs:15-21 | A schema without a type fails. A count above `int.MaxValue` overflows, `MinItems` before `MinLength`. |

## Left out

- `GetOpenApiInfo` and `GetOpenApiServers` (src/OpenApi/src/OpenApiDocumentService.cs:58-78) read the entry assembly and the hosting layer. A `Document` has no info or servers.
- DocumentService.Collaborators: `ReasonPhrases`, `ToOperationType`, `ToParameterLocation` and the schema lookup are uninterpreted functions. The lookup may fail, and its failure reaches the document, but when it fails is not tied to `ComponentService.Resolve`.
- DocumentService.OpenApiDocumentService.GenerateOpenApiDocument: the schema lookups made while building operations do not add to the component service's cache. The components are the map of the cache as it is when the paths are done.
- DocumentService.OpenApiDocumentService.GetOperations: after a failure it promises only that the captured tags did not shrink. A failure aborts the constructor, so that state is never observed.
- The events of the `description == null` skip (src/OpenApi/src/OpenApiDocumentService.cs:107-110) are modelled (`EmptyGroup`), but `GroupBy` yields no empty group and descriptions are not nullable here. No input reaches the skip.
- Null strings inside route values, tags and content types are not modelled; a string is always present.
- DocumentService.TagsChoice: ASP.NET compares `RouteValues` keys case-insensitively. The model compares them exactly, so only the key `controller` as written is found.
- Text.ToLower: only ASCII letters are lowered. `ToLowerInvariant` also lowers other scripts.
- The order of dictionaries (content, responses, operations, paths, components) and of the document's tag list is not kept: they are Dafny maps and sets.
- ComponentService.Resolve: the unbounded recursion of the source is a recursion budget (`fuel`). Running out of it is reported as `Diverged`, standing for a stack overflow.
- ComponentService.PropertySchema: the source writes `Default`, `ReadOnly` and `WriteOnly` onto the schema it got back. When that schema is a cached object schema, the cached entry and every other holder change too. Schemas are values here, so that aliasing is not modelled.
- The live one-argument `GetOrCreateOpenApiSchemaForType` (src/OpenApi/src/OpenApiComponentService.cs:36-43) is modelled only for its cache lookup: the cache-hit clause of `ComponentService.Resolve`. Its remainder calls the external `JsonSchemaBuilder` and does not compile (no return).
- .NET reflection and `JsonTypeInfo` are replaced by `ComponentService.TypeEnv`. `OpenApiTypeMapper` is an uninterpreted function. It is taken to throw `ArgumentNullException` on a null type and to throw on nothing else.
- JsonSchemaExtensions.PropertiesConvertibleMeaning: a model property list may repeat a name, and then conversion fails with `DuplicateKey`. The source's `GetProperties()` is a dictionary, so its names are unique and that failure cannot happen there.
- Default values are the JSON text `JsonSerializer` would produce (`OpenApiModel.Literal`); serialisation itself is not modelled.
- Decimal bounds (`Maximum`, `Minimum`) are reals that are only copied. `Pattern` is the pattern's text.
- JsonSchemaExtensions.ToOpenApiSchema: a flags value combining several kinds is a set of kinds, and the library's getters are the fields of `JsonSchema`.
- The endpoint-routing extensions, service registration and the sample application are not part of this model.
- Concurrency: generation runs once, on one thread, so none is modelled.

## Findings

| source | as written | input that shows it | evidently intended | confidence | as-written member | corrected member |
|---|---|---|---|---|---|---|
| src/OpenApi/src/OpenApiComponentService.cs:110-144 | An object schema enters the cache only after its derived types, base type and properties are resolved. A type reached again during its own resolution is resolved from scratch. | `Shape` with `[JsonDerivedType(typeof(Triangle))]`, where `Triangle : Shape` (src/OpenApi/test/SharedTypes.cs:13-22). Resolving `Shape` resolves `Triangle`, whose base `Shape` is not cached yet, and so on without end. | Cache a placeholder that refers to the component name before recursing, so a recursive reference resolves to the reference. `ComponentService.RecursiveReference` proves that a self-typed property then holds that placeholder. | not executed | ComponentService.PolymorphicBaseDiverges | ComponentService.ClosedResolutionTerminates |
