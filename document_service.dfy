/** `OpenApiDocumentService`: turns the endpoint descriptions of an application into an OpenAPI
    document. Paths are grouped by relative path and then by HTTP method; each method group becomes one
    operation built from small rules (id, tags, parameters, request body, responses), and the tags of
    every operation built are collected into one document-level set. */
module DocumentService {
  import opened Wrappers
  import opened Text
  import opened Linq
  import opened OpenApiModel
  import opened ReferenceNaming
  import opened Dictionaries
  import ComponentService

  // ---------------------------------------------------------------------------------------------
  // Endpoint descriptions (the input)

  /** `BindingSource`: where a parameter's value comes from. Only `Body`, `Form` and `Path` are told
      apart by the service; every other source is carried by its id. */
  datatype BindingSource = Body | Form | Path | Query | Header | OtherSource(id: string)

  /** `ApiParameterDescription`. `defaultValue` is the serialised default value, when there is one. */
  datatype ParameterDescription = ParameterDescription(
    name: string,
    source: BindingSource,
    isRequired: bool,
    parameterType: ClrType,
    defaultValue: Option<Literal>)

  /** The endpoint metadata items the service looks at: `IEndpointNameMetadata`, `ITagsMetadata` and
      `ProducesAttribute`; anything else is `OtherMetadata`. */
  datatype Metadata =
    | EndpointName(endpointName: string)
    | TagsMetadata(tags: seq<string>)
    | Produces(contentTypes: seq<string>)
    | OtherMetadata

  /** `ActionDescriptor`: the attribute route name (`AttributeRouteInfo?.Name`), the endpoint metadata
      (which may be null) and the route values. */
  datatype ActionDescriptor = ActionDescriptor(
    routeName: Option<string>,
    endpointMetadata: Option<seq<Metadata>>,
    routeValues: map<string, string>)

  /** `ApiResponseType`: the declared status code, whether it is the default response, the media types of
      its `ApiResponseFormats`, and its CLR type (which may be null). */
  datatype ResponseType = ResponseType(
    statusCode: int,
    isDefault: bool,
    formats: seq<string>,
    responseType: Option<ClrType>)

  /** `ApiDescription`: one endpoint. `requestFormats` are the media types of `SupportedRequestFormats`. */
  datatype ApiDescription = ApiDescription(
    httpMethod: Option<string>,
    relativePath: Option<string>,
    action: ActionDescriptor,
    parameters: seq<ParameterDescription>,
    requestFormats: seq<string>,
    responseTypes: seq<ResponseType>)

  function HttpMethodOf(d: ApiDescription): Option<string> {
    d.httpMethod
  }

  function RelativePathOf(d: ApiDescription): Option<string> {
    d.relativePath
  }

  // ---------------------------------------------------------------------------------------------
  // The document (the output)

  /** `OperationType` of the OpenAPI object model. */
  datatype OperationType = Get | Put | Post | Delete | Options | Head | Patch | Trace

  /** `ParameterLocation` of the OpenAPI object model. */
  datatype ParameterLocation = InQuery | InHeader | InPath | InCookie

  datatype OpenApiParameter = OpenApiParameter(
    name: string,
    location: ParameterLocation,
    required: bool,
    schema: OpenApiSchema)

  /** A request body: whether it is required, and the schema of each content type. */
  datatype RequestBody = RequestBody(required: bool, content: map<string, OpenApiSchema>)

  /** A response: its description and the schema of each content type. */
  datatype Response = Response(description: string, content: map<string, OpenApiSchema>)

  datatype Operation = Operation(
    tags: seq<string>,
    operationId: string,
    requestBody: Option<RequestBody>,
    responses: map<string, Response>,
    parameters: seq<OpenApiParameter>)

  datatype PathItem = PathItem(operations: map<OperationType, Operation>)

  /** The parts of `OpenApiDocument` the service fills from the endpoints; `tags` is the names of the
      document's tag list, whose order is that of a hash set. */
  datatype Document = Document(
    paths: map<string, PathItem>,
    components: map<string, OpenApiSchema>,
    tags: set<string>)

  /** The code the service calls but does not define: `ReasonPhrases.GetReasonPhrase`,
      `ToOperationType`, `ToParameterLocation`, and the schema resolver, given a type and the default
      value that comes with it, which may throw. */
  datatype Collaborators = Collaborators(
    reasonPhrase: int -> string,
    operationType: Option<string> -> OperationType,
    parameterLocation: BindingSource -> ParameterLocation,
    schemaFor: (ClrType, Option<Literal>) -> Result<OpenApiSchema, ComponentService.ResolveError>)

  /** The exceptions document generation can raise, by their cause. */
  datatype BuildError =
    | MissingRelativePath               // `Trim` on a null relative path
    | DuplicatePath(path: string)       // `paths.Add` of a normalised path already present
    | AmbiguousMethod(httpMethod: Option<string>) // `SingleOrDefault` on a method group of several endpoints
    | DuplicateOperation(operation: OperationType) // `operations.Add` of an operation type already present
    | MissingController                 // `RouteValues["controller"]` without that key
    | AmbiguousBody                     // `SingleOrDefault` on several body parameters
    | NullMetadata                      // `EndpointMetadata.OfType` on null metadata
    | NullResponseType                  // the schema lookup of a response type that is null
    | DuplicateResponse(key: string)    // `responses.Add` of a status code already present
    | SchemaFailed(cause: ComponentService.ResolveError) // the schema resolver throws

  datatype DocumentError = PathsFailed(build: BuildError) | ComponentsFailed(component: ComponentService.ComponentError)

  // ---------------------------------------------------------------------------------------------
  // Operation id

  /** The text of a relative path inside a generated operation id: `/` and `-` become `_`, and `{` and
      `}` are dropped. */
  function RoutePart(path: string): string {
    RemoveChar(RemoveChar(ReplaceChar(ReplaceChar(path, '/', '_'), '-', '_'), '{'), '}')
  }

  /** `GenerateOperationId`: the lower-cased method, `_`, and the route part of the relative path; a null
      method or path contributes nothing, as a null does in a C# string concatenation. */
  function GenerateOperationId(d: ApiDescription): string {
    var verb := if d.httpMethod.Some? then ToLower(d.httpMethod.value) else "";
    var route := if d.relativePath.Some? then RoutePart(d.relativePath.value) else "";
    verb + "_" + route
  }

  predicate IsEndpointName(m: Metadata) {
    m.EndpointName?
  }

  predicate IsTags(m: Metadata) {
    m.TagsMetadata?
  }

  /** `GetOperationId`: the attribute route name, else the name of the last endpoint-name metadata item,
      else a generated id. */
  function GetOperationId(d: ApiDescription): string {
    if d.action.routeName.Some? then d.action.routeName.value
    else
      var named := if d.action.endpointMetadata.Some? then LastOrDefault(d.action.endpointMetadata.value, IsEndpointName) else None;
      if named.Some? then named.value.endpointName else GenerateOperationId(d)
  }

  /** The route part of a generated id has no `/`, `-`, `{` or `}`, is no longer than the path, and is
      the path itself when the path has none of them. */
  lemma RoutePartSpec(path: string)
    ensures var r := RoutePart(path);
      Free(r, '/') && Free(r, '-') && Free(r, '{') && Free(r, '}') && |r| <= |path|
    ensures Free(path, '/') && Free(path, '-') && Free(path, '{') && Free(path, '}') ==> RoutePart(path) == path
  {
    var a := ReplaceChar(path, '/', '_');
    var b := ReplaceChar(a, '-', '_');
    var c := RemoveChar(b, '{');
    assert Free(b, '/') && Free(b, '-');
    RemoveCharKeepsFree(b, '{', '/');
    RemoveCharKeepsFree(b, '{', '-');
    RemoveCharKeepsFree(c, '}', '/');
    RemoveCharKeepsFree(c, '}', '-');
    RemoveCharKeepsFree(c, '}', '{');
    if Free(path, '/') && Free(path, '-') {
      assert a == path;
      assert b == path;
    }
  }

  /** A generated id is the method in lower case, an underscore, and the route part of the path. */
  lemma GeneratedOperationId(d: ApiDescription)
    requires d.httpMethod.Some? && d.relativePath.Some?
    ensures var id := GenerateOperationId(d); var m := d.httpMethod.value;
      && |id| > |m|
      && id[|m|] == '_'
      && (forall i :: 0 <= i < |m| ==> id[i] == LowerChar(m[i]))
      && id[|m| + 1..] == RoutePart(d.relativePath.value)
  {
    var lower := ToLower(d.httpMethod.value);
    var route := RoutePart(d.relativePath.value);
    assert GenerateOperationId(d) == lower + "_" + route;
    assert (lower + "_" + route)[|lower| + 1..] == route;
  }

  /** The operation id is the route name when there is one; otherwise the name of the last
      endpoint-name metadata item when there is one; otherwise the generated id. */
  lemma OperationIdPrecedence(d: ApiDescription)
    ensures d.action.routeName.Some? ==> GetOperationId(d) == d.action.routeName.value
    ensures d.action.routeName.None? && d.action.endpointMetadata.Some? ==>
      var ms := d.action.endpointMetadata.value;
      forall i :: 0 <= i < |ms| && ms[i].EndpointName? && (forall j :: i < j < |ms| ==> !ms[j].EndpointName?) ==>
        GetOperationId(d) == ms[i].endpointName
    ensures (&& d.action.routeName.None?
             && (d.action.endpointMetadata.None? || forall m :: m in d.action.endpointMetadata.value ==> !m.EndpointName?))
      ==> GetOperationId(d) == GenerateOperationId(d)
  {
    if d.action.endpointMetadata.Some? {
      var ms := d.action.endpointMetadata.value;
      LastOrDefaultSpec(ms, IsEndpointName);
      forall i | 0 <= i < |ms| && ms[i].EndpointName? && (forall j :: i < j < |ms| ==> !ms[j].EndpointName?)
        ensures LastOrDefault(ms, IsEndpointName) == Some(ms[i])
      {
        var k :| 0 <= k < |ms| && ms[k] == LastOrDefault(ms, IsEndpointName).value && IsEndpointName(ms[k])
          && forall j :: k < j < |ms| ==> !IsEndpointName(ms[j]);
        assert !(i < k) && !(k < i);
      }
    }
  }

  // ---------------------------------------------------------------------------------------------
  // Tags

  /** `GetTags`: the tags of the last tags metadata item, else one tag named after the `controller`
      route value, whose absence makes the lookup throw. */
  function GetTags(d: ApiDescription): Result<seq<string>, BuildError> {
    var found := if d.action.endpointMetadata.Some? then LastOrDefault(d.action.endpointMetadata.value, IsTags) else None;
    if found.Some? then Ok(found.value.tags)
    else if "controller" in d.action.routeValues then Ok([d.action.routeValues["controller"]])
    else Err(MissingController)
  }

  /** Tags come from the last tags metadata item when there is one, and otherwise are the single
      controller name, failing exactly when that route value is missing. */
  lemma TagsChoice(d: ApiDescription)
    ensures d.action.endpointMetadata.Some? ==>
      var ms := d.action.endpointMetadata.value;
      forall i :: 0 <= i < |ms| && ms[i].TagsMetadata? && (forall j :: i < j < |ms| ==> !ms[j].TagsMetadata?) ==>
        GetTags(d) == Ok(ms[i].tags)
    ensures (d.action.endpointMetadata.None? || forall m :: m in d.action.endpointMetadata.value ==> !m.TagsMetadata?) ==>
      GetTags(d) == if "controller" in d.action.routeValues then Ok([d.action.routeValues["controller"]]) else Err(MissingController)
  {
    if d.action.endpointMetadata.Some? {
      var ms := d.action.endpointMetadata.value;
      LastOrDefaultSpec(ms, IsTags);
      forall i | 0 <= i < |ms| && ms[i].TagsMetadata? && (forall j :: i < j < |ms| ==> !ms[j].TagsMetadata?)
        ensures LastOrDefault(ms, IsTags) == Some(ms[i])
      {
        var k :| 0 <= k < |ms| && ms[k] == LastOrDefault(ms, IsTags).value && IsTags(ms[k])
          && forall j :: k < j < |ms| ==> !IsTags(ms[j]);
        assert !(i < k) && !(k < i);
      }
    }
  }

  // ---------------------------------------------------------------------------------------------
  // Parameters and request body

  /** A parameter listed among the operation's parameters: neither body- nor form-bound. */
  predicate IsPlainParameter(p: ParameterDescription) {
    p.source != Body && p.source != Form
  }

  predicate IsBody(p: ParameterDescription) {
    p.source == Body
  }

  /** A call of the schema resolver, whose exception ends document generation. */
  function SchemaOf(c: Collaborators, t: ClrType, defaultValue: Option<Literal>): Result<OpenApiSchema, BuildError> {
    match c.schemaFor(t, defaultValue)
    case Ok(schema) => Ok(schema)
    case Err(e) => Err(SchemaFailed(e))
  }

  /** `GetParameter`: name, location, required when path-bound or flagged required, and the schema of
      its type with its default value. */
  function GetParameter(c: Collaborators, p: ParameterDescription): Result<OpenApiParameter, BuildError> {
    var schema :- SchemaOf(c, p.parameterType, p.defaultValue);
    Ok(OpenApiParameter(p.name, c.parameterLocation(p.source), p.source == Path || p.isRequired, schema))
  }

  function ParameterBuilder(c: Collaborators): ParameterDescription -> Result<OpenApiParameter, BuildError> {
    (p: ParameterDescription) => GetParameter(c, p)
  }

  /** `GetParameters`: the plain parameters, each built in order; the first resolver exception ends it. */
  function GetParameters(c: Collaborators, d: ApiDescription): Result<seq<OpenApiParameter>, BuildError> {
    SelectAll(Where(d.parameters, IsPlainParameter), ParameterBuilder(c))
  }

  /** The parameters are built from the plain parameter descriptions: every description that is
      neither body- nor form-bound, and only those; when no parameter is body- or form-bound every
      description is listed. */
  lemma ParametersSpec(c: Collaborators, d: ApiDescription)
    ensures var kept := Where(d.parameters, IsPlainParameter);
      && (forall p :: p in d.parameters && p.source != Body && p.source != Form ==> p in kept)
      && (forall i :: 0 <= i < |kept| ==> kept[i] in d.parameters && kept[i].source != Body && kept[i].source != Form)
    ensures (forall p :: p in d.parameters ==> p.source != Body && p.source != Form) ==>
      Where(d.parameters, IsPlainParameter) == d.parameters
  {
    if forall p :: p in d.parameters ==> p.source != Body && p.source != Form {
      WhereAll(d.parameters, IsPlainParameter);
    }
  }

  /** The resolver throws on the `i`th of `ps`, with the exception `e` reports, and on none before it. */
  predicate FirstSchemaFailure(c: Collaborators, ps: seq<ParameterDescription>, i: int, e: BuildError) {
    && 0 <= i < |ps| && c.schemaFor(ps[i].parameterType, ps[i].defaultValue).Err?
    && e == SchemaFailed(c.schemaFor(ps[i].parameterType, ps[i].defaultValue).error)
    && forall j :: 0 <= j < i ==> c.schemaFor(ps[j].parameterType, ps[j].defaultValue).Ok?
  }

  /** One parameter: built exactly when the resolver succeeds on it, and then named, located and typed
      by its description. */
  lemma ParameterOf(c: Collaborators, p: ParameterDescription)
    ensures ParameterBuilder(c)(p).Ok? <==> c.schemaFor(p.parameterType, p.defaultValue).Ok?
    ensures ParameterBuilder(c)(p).Ok? ==>
      var q := ParameterBuilder(c)(p).value;
      && q.name == p.name && q.location == c.parameterLocation(p.source)
      && (q.required <==> p.source == Path || p.isRequired)
      && c.schemaFor(p.parameterType, p.defaultValue) == Ok(q.schema)
    ensures ParameterBuilder(c)(p).Err? ==>
      ParameterBuilder(c)(p).error == SchemaFailed(c.schemaFor(p.parameterType, p.defaultValue).error)
  {
  }

  /** The parameters are built exactly when the resolver succeeds on every plain parameter, and then
      come in the order of their descriptions, each with its name, its location and the schema of its
      type, required exactly when it is path-bound or flagged required. */
  lemma ParametersBuilt(c: Collaborators, d: ApiDescription)
    ensures GetParameters(c, d).Ok? <==> SchemasResolve(c, Where(d.parameters, IsPlainParameter))
    ensures var kept := Where(d.parameters, IsPlainParameter); var r := GetParameters(c, d);
      r.Ok? ==>
        && |r.value| == |kept|
        && forall i :: 0 <= i < |kept| ==>
             && r.value[i].name == kept[i].name
             && r.value[i].location == c.parameterLocation(kept[i].source)
             && (r.value[i].required <==> kept[i].source == Path || kept[i].isRequired)
             && c.schemaFor(kept[i].parameterType, kept[i].defaultValue) == Ok(r.value[i].schema)
  {
    var kept := Where(d.parameters, IsPlainParameter);
    var r := SelectAll(kept, ParameterBuilder(c));
    assert GetParameters(c, d) == r;
    BuiltExactly(c, kept);
    BuiltFields(c, kept);
  }

  /** The schema lookup succeeds on every one of `ps`. */
  predicate SchemasResolve(c: Collaborators, ps: seq<ParameterDescription>) {
    forall i :: 0 <= i < |ps| ==> c.schemaFor(ps[i].parameterType, ps[i].defaultValue).Ok?
  }

  /** The list of `ps` is built exactly when the lookup succeeds on every one of them. */
  lemma BuiltExactly(c: Collaborators, ps: seq<ParameterDescription>)
    ensures SelectAll(ps, ParameterBuilder(c)).Ok? <==> SchemasResolve(c, ps)
  {
    SelectAllOk(ps, ParameterBuilder(c));
    forall i | 0 <= i < |ps|
      ensures ParameterBuilder(c)(ps[i]).Ok? <==> c.schemaFor(ps[i].parameterType, ps[i].defaultValue).Ok?
    {
      ParameterOf(c, ps[i]);
    }
  }

  /** A built list of `ps` holds, at each position, the parameter built from the description there. */
  lemma BuiltFields(c: Collaborators, ps: seq<ParameterDescription>)
    ensures var r := SelectAll(ps, ParameterBuilder(c));
      r.Ok? ==>
        && |r.value| == |ps|
        && forall i :: 0 <= i < |ps| ==>
             && r.value[i].name == ps[i].name
             && r.value[i].location == c.parameterLocation(ps[i].source)
             && (r.value[i].required <==> ps[i].source == Path || ps[i].isRequired)
             && c.schemaFor(ps[i].parameterType, ps[i].defaultValue) == Ok(r.value[i].schema)
  {
    var r := SelectAll(ps, ParameterBuilder(c));
    SelectAllOk(ps, ParameterBuilder(c));
    if r.Ok? {
      forall i | 0 <= i < |ps|
        ensures && r.value[i].name == ps[i].name
                && r.value[i].location == c.parameterLocation(ps[i].source)
                && (r.value[i].required <==> ps[i].source == Path || ps[i].isRequired)
                && c.schemaFor(ps[i].parameterType, ps[i].defaultValue) == Ok(r.value[i].schema)
      {
        ParameterOf(c, ps[i]);
        assert ParameterBuilder(c)(ps[i]) == Ok(r.value[i]);
      }
    }
  }

  /** When the parameters cannot be built, the failure is the exception of the first plain parameter
      on which the resolver throws. */
  lemma ParametersFail(c: Collaborators, d: ApiDescription)
    requires GetParameters(c, d).Err?
    ensures exists i :: FirstSchemaFailure(c, Where(d.parameters, IsPlainParameter), i, GetParameters(c, d).error)
  {
    var kept := Where(d.parameters, IsPlainParameter);
    var r := SelectAll(kept, ParameterBuilder(c));
    assert GetParameters(c, d) == r;
    SelectAllErr(kept, ParameterBuilder(c));
    var i :|
      && 0 <= i < |kept| && ParameterBuilder(c)(kept[i]).Err?
      && ParameterBuilder(c)(kept[i]).error == r.error
      && forall j :: 0 <= j < i ==> ParameterBuilder(c)(kept[j]).Ok?;
    ParameterOf(c, kept[i]);
    forall j | 0 <= j < i ensures c.schemaFor(kept[j].parameterType, kept[j].defaultValue).Ok? {
      ParameterOf(c, kept[j]);
    }
    assert FirstSchemaFailure(c, kept, i, r.error);
  }

  /** The request formats, `application/json` when none is declared. */
  function RequestFormats(d: ApiDescription): seq<string> {
    if d.requestFormats == [] then ["application/json"] else d.requestFormats
  }

  /** `ToDictionary` over distinct keys, all mapped to one schema. */
  function MediaContent(keys: seq<string>, schema: OpenApiSchema): map<string, OpenApiSchema> {
    map k | k in keys :: schema
  }

  /** `GetRequestBody`: none without a body parameter; an error for several; otherwise the body
      parameter's schema under each distinct request format. */
  function GetRequestBody(c: Collaborators, d: ApiDescription): Result<Option<RequestBody>, BuildError> {
    var formats := RequestFormats(d);
    var body := Where(d.parameters, IsBody);
    if |body| > 1 then Err(AmbiguousBody)
    else if body == [] then Ok(None)
    else
      var target := body[0];
      var schema :- SchemaOf(c, target.parameterType, target.defaultValue);
      Ok(Some(RequestBody(Any(d.parameters, IsBody), MediaContent(Distinct(formats), schema))))
  }

  /** Without a body-bound parameter there is no request body; with one, the body is required and maps
      each declared request format (`application/json` when none is declared) to that parameter's
      schema, and fails exactly when the resolver throws on it; with two, building fails. */
  lemma RequestBodyRule(c: Collaborators, d: ApiDescription)
    ensures (forall p :: p in d.parameters ==> p.source != Body) ==> GetRequestBody(c, d) == Ok(None)
    ensures forall i, j :: 0 <= i < j < |d.parameters| && d.parameters[i].source == Body && d.parameters[j].source == Body ==>
      GetRequestBody(c, d) == Err(AmbiguousBody)
    ensures forall i :: (&& 0 <= i < |d.parameters| && d.parameters[i].source == Body
                         && forall j :: 0 <= j < |d.parameters| && j != i ==> d.parameters[j].source != Body) ==>
      var p := d.parameters[i];
      && (c.schemaFor(p.parameterType, p.defaultValue).Err? ==>
            GetRequestBody(c, d) == Err(SchemaFailed(c.schemaFor(p.parameterType, p.defaultValue).error)))
      && (c.schemaFor(p.parameterType, p.defaultValue).Ok? ==>
            && GetRequestBody(c, d).Ok? && GetRequestBody(c, d).value.Some?
            && GetRequestBody(c, d).value.value.required
            && GetRequestBody(c, d).value.value.content.Keys ==
                 (if d.requestFormats == [] then {"application/json"} else set f | f in d.requestFormats)
            && forall f :: f in GetRequestBody(c, d).value.value.content ==>
                 c.schemaFor(p.parameterType, p.defaultValue) == Ok(GetRequestBody(c, d).value.value.content[f]))
  {
    var ps := d.parameters;
    var body := Where(ps, IsBody);
    if forall p :: p in ps ==> p.source != Body {
      WhereNone(ps, IsBody);
    }
    forall i, j | 0 <= i < j < |ps| && ps[i].source == Body && ps[j].source == Body
      ensures GetRequestBody(c, d) == Err(AmbiguousBody)
    {
      WhereCountsTwo(ps, IsBody, i, j);
    }
    forall i | 0 <= i < |ps| && ps[i].source == Body && (forall j :: 0 <= j < |ps| && j != i ==> ps[j].source != Body)
      ensures c.schemaFor(ps[i].parameterType, ps[i].defaultValue).Err? ==>
        GetRequestBody(c, d) == Err(SchemaFailed(c.schemaFor(ps[i].parameterType, ps[i].defaultValue).error))
      ensures c.schemaFor(ps[i].parameterType, ps[i].defaultValue).Ok? ==>
        && GetRequestBody(c, d).Ok? && GetRequestBody(c, d).value.Some?
        && GetRequestBody(c, d).value.value.required
        && GetRequestBody(c, d).value.value.content.Keys ==
             (if d.requestFormats == [] then {"application/json"} else set f | f in d.requestFormats)
        && forall f :: f in GetRequestBody(c, d).value.value.content ==>
             c.schemaFor(ps[i].parameterType, ps[i].defaultValue) == Ok(GetRequestBody(c, d).value.value.content[f])
    {
      WhereSingle(ps, IsBody, i);
      assert body == [ps[i]];
      var formats := RequestFormats(d);
      var keys := Distinct(formats);
      assert (set k | k in keys) == (set f | f in formats);
      assert Any(ps, IsBody);
    }
  }

  // ---------------------------------------------------------------------------------------------
  // Responses

  /** `EndpointMetadata.OfType<ProducesAttribute>().SelectMany(attr => attr.ContentTypes)`. */
  function ProducedContentTypes(ms: seq<Metadata>): seq<string> {
    if ms == [] then []
    else ProducedContentTypes(ms[..|ms| - 1]) + (if ms[|ms| - 1].Produces? then ms[|ms| - 1].contentTypes else [])
  }

  /** The content types of a response: the distinct API-explorer media types when there are any, else
      the distinct explicit `Produces` content types, which may be none. */
  function ResponseContentTypes(ms: seq<Metadata>, rt: ResponseType): seq<string> {
    var explicit := Distinct(ProducedContentTypes(ms));
    var explorer := Distinct(rt.formats);
    var chosen := if explicit != [] then explicit else [];
    if explorer != [] then explorer else chosen
  }

  /** `GetResponse`: the reason phrase of the status code, and the schema of the response type under
      each content type. Null metadata makes the `Produces` lookup throw, and a null response type, or a
      resolver that throws, makes the schema lookup throw as soon as there is a content type to
      describe. */
  function GetResponse(c: Collaborators, d: ApiDescription, statusCode: int, rt: ResponseType): Result<Response, BuildError> {
    if d.action.endpointMetadata.None? then Err(NullMetadata)
    else
      var types := ResponseContentTypes(d.action.endpointMetadata.value, rt);
      if types == [] then Ok(Response(c.reasonPhrase(statusCode), map[]))
      else if rt.responseType.None? then Err(NullResponseType)
      else
        var schema :- SchemaOf(c, rt.responseType.value, None);
        Ok(Response(c.reasonPhrase(statusCode), MediaContent(types, schema)))
  }

  /** `SupportedResponseTypes.DefaultIfEmpty(new ApiResponseType { StatusCode = 200 })`. */
  function SupportedResponseTypes(d: ApiDescription): seq<ResponseType> {
    if d.responseTypes == [] then [ResponseType(200, false, [], None)] else d.responseTypes
  }

  /** The status code a response is keyed by: 200 for the default response. */
  function EffectiveStatus(rt: ResponseType): int {
    if rt.isDefault then 200 else rt.statusCode
  }

  function ResponseKey(rt: ResponseType): string {
    IntToDecimal(EffectiveStatus(rt))
  }

  /** Builds the response of one response type. */
  function ResponseBuilder(c: Collaborators, d: ApiDescription): ResponseType -> Result<Response, BuildError> {
    rt => GetResponse(c, d, EffectiveStatus(rt), rt)
  }

  function DuplicateResponseError(key: string): BuildError {
    DuplicateResponse(key)
  }

  /** The loop of `GetResponses` over the response types `rts`: each response is built and added under
      its key. */
  function Responses(c: Collaborators, d: ApiDescription, rts: seq<ResponseType>): Result<map<string, Response>, BuildError> {
    AddAll(rts, Never, ResponseBuilder(c, d), ResponseKey, DuplicateResponseError)
  }

  /** `GetResponses`. */
  function ResponsesOf(c: Collaborators, d: ApiDescription): Result<map<string, Response>, BuildError> {
    Responses(c, d, SupportedResponseTypes(d))
  }

  /** A response's content types are the API-explorer media types when there are any and otherwise the
      explicit `Produces` content types; each maps to the schema of the response type, and the
      description is the reason phrase of the status code. */
  lemma ResponseContentChoice(c: Collaborators, d: ApiDescription, statusCode: int, rt: ResponseType)
    requires GetResponse(c, d, statusCode, rt).Ok?
    ensures var response := GetResponse(c, d, statusCode, rt).value; var ms := d.action.endpointMetadata.value;
      && response.description == c.reasonPhrase(statusCode)
      && response.content.Keys == (if rt.formats != [] then set f | f in rt.formats else set f | f in ProducedContentTypes(ms))
      && forall f :: f in response.content ==> rt.responseType.Some? && c.schemaFor(rt.responseType.value, None) == Ok(response.content[f])
  {
    var ms := d.action.endpointMetadata.value;
    var explicit := Distinct(ProducedContentTypes(ms));
    var explorer := Distinct(rt.formats);
    assert (set f | f in explicit) == set f | f in ProducedContentTypes(ms);
    assert (set f | f in explorer) == set f | f in rt.formats;
    assert explorer == [] <==> rt.formats == [] by {
      if rt.formats != [] { assert rt.formats[0] in explorer; }
    }
  }

  /** `GetResponse` fails exactly when the metadata is null, or when there is a content type to describe
      and the response type is null or the resolver throws on it. */
  lemma ResponseFailures(c: Collaborators, d: ApiDescription, statusCode: int, rt: ResponseType)
    ensures d.action.endpointMetadata.None? ==> GetResponse(c, d, statusCode, rt) == Err(NullMetadata)
    ensures d.action.endpointMetadata.Some? ==>
      (GetResponse(c, d, statusCode, rt).Err? <==>
        && (rt.formats != [] || ProducedContentTypes(d.action.endpointMetadata.value) != [])
        && (rt.responseType.None? || c.schemaFor(rt.responseType.value, None).Err?))
    ensures d.action.endpointMetadata.Some? && rt.responseType.None? && GetResponse(c, d, statusCode, rt).Err? ==>
      GetResponse(c, d, statusCode, rt) == Err(NullResponseType)
    ensures d.action.endpointMetadata.Some? && rt.responseType.Some? && GetResponse(c, d, statusCode, rt).Err? ==>
      GetResponse(c, d, statusCode, rt) == Err(SchemaFailed(c.schemaFor(rt.responseType.value, None).error))
  {
    if d.action.endpointMetadata.Some? {
      var ms := d.action.endpointMetadata.value;
      if rt.formats != [] { assert rt.formats[0] in Distinct(rt.formats); }
      if ProducedContentTypes(ms) != [] { assert ProducedContentTypes(ms)[0] in Distinct(ProducedContentTypes(ms)); }
    }
  }

  /** When the responses are built, every response type has its response under the decimal text of its
      effective status code, no other key is present, and no two response types share an effective
      status code. */
  lemma ResponsesKeys(c: Collaborators, d: ApiDescription, rts: seq<ResponseType>)
    requires Responses(c, d, rts).Ok?
    ensures var m := Responses(c, d, rts).value;
      && (forall i :: 0 <= i < |rts| ==>
            ResponseKey(rts[i]) in m && GetResponse(c, d, EffectiveStatus(rts[i]), rts[i]) == Ok(m[ResponseKey(rts[i])]))
      && (forall k :: k in m ==> exists i :: 0 <= i < |rts| && ResponseKey(rts[i]) == k)
      && (forall i, j :: 0 <= i < j < |rts| ==> EffectiveStatus(rts[i]) != EffectiveStatus(rts[j]))
  {
    AddAllContents(rts, Never, ResponseBuilder(c, d), ResponseKey, DuplicateResponseError);
    AddAllDistinct(rts, Never, ResponseBuilder(c, d), ResponseKey, DuplicateResponseError);
  }

  /** Conversely, the responses are built whenever every response can be built and the effective status
      codes are pairwise different. */
  lemma ResponsesSucceed(c: Collaborators, d: ApiDescription, rts: seq<ResponseType>)
    requires forall i :: 0 <= i < |rts| ==> GetResponse(c, d, EffectiveStatus(rts[i]), rts[i]).Ok?
    requires forall i, j :: 0 <= i < j < |rts| ==> EffectiveStatus(rts[i]) != EffectiveStatus(rts[j])
    ensures Responses(c, d, rts).Ok?
  {
    forall i, j | 0 <= i < j < |rts| ensures ResponseKey(rts[i]) != ResponseKey(rts[j]) {
      IntToDecimalInjective(EffectiveStatus(rts[i]), EffectiveStatus(rts[j]));
    }
    AddAllSucceeds(rts, Never, ResponseBuilder(c, d), ResponseKey, DuplicateResponseError);
  }

  /** An endpoint without declared response types, and without `Produces` metadata, gets exactly one
      response, keyed `200`, described by the reason phrase of 200 and without content. */
  lemma DefaultResponse(c: Collaborators, d: ApiDescription)
    requires d.responseTypes == [] && d.action.endpointMetadata.Some?
    requires ProducedContentTypes(d.action.endpointMetadata.value) == []
    ensures ResponsesOf(c, d) == Ok(map["200" := Response(c.reasonPhrase(200), map[])])
  {
    Decimal200();
    var rts := SupportedResponseTypes(d);
    var rt := ResponseType(200, false, [], None);
    assert rts == [rt] && rts[..0] == [];
    var ms := d.action.endpointMetadata.value;
    assert ResponseContentTypes(ms, rt) == [];
    assert GetResponse(c, d, 200, rt) == Ok(Response(c.reasonPhrase(200), map[]));
    assert AddStep(map[], rt, Never, ResponseBuilder(c, d), ResponseKey, DuplicateResponseError) == Ok(map["200" := Response(c.reasonPhrase(200), map[])]);
    AddAllSnoc([], rt, Never, ResponseBuilder(c, d), ResponseKey, DuplicateResponseError);
    assert [] + [rt] == rts;
  }

  /** A default response is keyed `200` whatever status code it declares. */
  lemma DefaultResponseKey(rt: ResponseType)
    requires rt.isDefault
    ensures ResponseKey(rt) == "200"
  {
    Decimal200();
  }

  // ---------------------------------------------------------------------------------------------
  // Operations

  /** `new OpenApiOperation { Tags, OperationId, RequestBody, Responses, Parameters }`, its parts built in
      that order. */
  function BuildOperation(c: Collaborators, d: ApiDescription): Result<Operation, BuildError> {
    var tags :- GetTags(d);
    var requestBody :- GetRequestBody(c, d);
    var responses :- ResponsesOf(c, d);
    var parameters :- GetParameters(c, d);
    Ok(Operation(tags, GetOperationId(d), requestBody, responses, parameters))
  }

  /** A method group whose `SingleOrDefault` is null: the loop goes on to the next group. */
  predicate EmptyGroup(g: Grouping<Option<string>, ApiDescription>) {
    g.items == []
  }

  /** The operation of a method group that is not empty: its single endpoint's operation, or an error
      when it holds several (`SingleOrDefault` throws). */
  function BuildGroup(c: Collaborators, g: Grouping<Option<string>, ApiDescription>): Result<Operation, BuildError> {
    if |g.items| == 1 then BuildOperation(c, g.items[0]) else Err(AmbiguousMethod(g.key))
  }

  function OperationBuilder(c: Collaborators): Grouping<Option<string>, ApiDescription> -> Result<Operation, BuildError> {
    (g: Grouping<Option<string>, ApiDescription>) => BuildGroup(c, g)
  }

  function OperationKey(c: Collaborators): Grouping<Option<string>, ApiDescription> -> OperationType {
    (g: Grouping<Option<string>, ApiDescription>) => c.operationType(g.key)
  }

  function DuplicateOperationError(op: OperationType): BuildError {
    DuplicateOperation(op)
  }

  /** The loop of `GetOperations` over the method groups `gs`. */
  function Operations(c: Collaborators, gs: seq<Grouping<Option<string>, ApiDescription>>): Result<map<OperationType, Operation>, BuildError> {
    AddAll(gs, EmptyGroup, OperationBuilder(c), OperationKey(c), DuplicateOperationError)
  }

  /** `GetOperations`: the endpoints of one path, grouped by HTTP method. */
  function OperationsOf(c: Collaborators, ds: seq<ApiDescription>): Result<map<OperationType, Operation>, BuildError> {
    Operations(c, GroupBy(ds, HttpMethodOf))
  }

  /** When the operations of a path are built, each method group holds one endpoint, whose operation
      is stored under the operation type of the group's method. */
  lemma OperationGroup(c: Collaborators, ds: seq<ApiDescription>, n: nat)
    requires OperationsOf(c, ds).Ok? && n < |GroupBy(ds, HttpMethodOf)|
    ensures var g, m := GroupBy(ds, HttpMethodOf)[n], OperationsOf(c, ds).value;
      |g.items| == 1 && c.operationType(g.key) in m && BuildOperation(c, g.items[0]) == Ok(m[c.operationType(g.key)])
  {
    var gs := GroupBy(ds, HttpMethodOf);
    GroupsNonEmpty(ds, HttpMethodOf);
    AddAllAt(gs, EmptyGroup, OperationBuilder(c), OperationKey(c), DuplicateOperationError, n);
  }

  /** When the operations of a path are built, two of its endpoints have different operation types,
      and so different HTTP methods. */
  lemma OperationTypesDistinct(c: Collaborators, ds: seq<ApiDescription>, i: nat, j: nat)
    requires OperationsOf(c, ds).Ok? && i < j < |ds|
    ensures c.operationType(ds[i].httpMethod) != c.operationType(ds[j].httpMethod)
  {
    var gs := GroupBy(ds, HttpMethodOf);
    var n := GroupOf(ds, HttpMethodOf, ds[i]);
    var q := GroupOf(ds, HttpMethodOf, ds[j]);
    OperationGroup(c, ds, n);
    if n == q {
      GroupOfTwo(ds, HttpMethodOf, n, i, j);
    } else {
      OperationGroup(c, ds, q);
      AddAllDistinctAt(gs, EmptyGroup, OperationBuilder(c), OperationKey(c), DuplicateOperationError, n, q);
    }
  }

  /** When the operations of a path are built, an endpoint's operation is stored under the operation
      type of its method. */
  lemma OperationOfEndpoint(c: Collaborators, ds: seq<ApiDescription>, d: ApiDescription)
    requires OperationsOf(c, ds).Ok? && d in ds
    ensures var m := OperationsOf(c, ds).value;
      c.operationType(d.httpMethod) in m && BuildOperation(c, d) == Ok(m[c.operationType(d.httpMethod)])
  {
    var n := GroupOf(ds, HttpMethodOf, d);
    OperationGroup(c, ds, n);
    var g := GroupBy(ds, HttpMethodOf)[n];
    var m := OperationsOf(c, ds).value;
    assert BuildOperation(c, g.items[0]) == Ok(m[c.operationType(g.key)]);
    Singleton(g.items, d);
    assert g.key == d.httpMethod;
  }

  /** When the operations of a path are built, every operation type present is that of an endpoint. */
  lemma OperationKeyOfEndpoint(c: Collaborators, ds: seq<ApiDescription>, k: OperationType)
    requires OperationsOf(c, ds).Ok? && k in OperationsOf(c, ds).value
    ensures exists d :: d in ds && c.operationType(d.httpMethod) == k
  {
    var gs := GroupBy(ds, HttpMethodOf);
    AddAllKeyAt(gs, EmptyGroup, OperationBuilder(c), OperationKey(c), DuplicateOperationError, k);
    var n :| 0 <= n < |gs| && !EmptyGroup(gs[n]) && OperationKey(c)(gs[n]) == k;
    GroupMember(ds, HttpMethodOf, n, gs[n].items[0]);
  }

  /** When the operations of a path are built, no two of its endpoints share an operation type;
      every endpoint's operation is stored under the operation type of its method; and no other
      operation is present. */
  lemma OperationsShape(c: Collaborators, ds: seq<ApiDescription>)
    requires OperationsOf(c, ds).Ok?
    ensures var m := OperationsOf(c, ds).value;
      && (forall i, j :: 0 <= i < j < |ds| ==> c.operationType(ds[i].httpMethod) != c.operationType(ds[j].httpMethod))
      && (forall d :: d in ds ==> c.operationType(d.httpMethod) in m && BuildOperation(c, d) == Ok(m[c.operationType(d.httpMethod)]))
      && (forall k :: k in m ==> exists d :: d in ds && c.operationType(d.httpMethod) == k)
  {
    forall i, j | 0 <= i < j < |ds| ensures c.operationType(ds[i].httpMethod) != c.operationType(ds[j].httpMethod) {
      OperationTypesDistinct(c, ds, i, j);
    }
    forall d | d in ds ensures var m := OperationsOf(c, ds).value;
      c.operationType(d.httpMethod) in m && BuildOperation(c, d) == Ok(m[c.operationType(d.httpMethod)])
    {
      OperationOfEndpoint(c, ds, d);
    }
    forall k | k in OperationsOf(c, ds).value ensures exists d :: d in ds && c.operationType(d.httpMethod) == k {
      OperationKeyOfEndpoint(c, ds, k);
    }
  }

  /** Conversely, the operations of a path are built when its endpoints have pairwise different
      operation types and every endpoint's operation can be built. */
  lemma OperationsSucceed(c: Collaborators, ds: seq<ApiDescription>)
    requires forall i, j :: 0 <= i < j < |ds| ==> c.operationType(ds[i].httpMethod) != c.operationType(ds[j].httpMethod)
    requires forall d :: d in ds ==> BuildOperation(c, d).Ok?
    ensures OperationsOf(c, ds).Ok?
  {
    var gs := GroupBy(ds, HttpMethodOf);
    forall n | 0 <= n < |gs| && !EmptyGroup(gs[n]) ensures OperationBuilder(c)(gs[n]).Ok? {
      GroupMember(ds, HttpMethodOf, n, gs[n].items[0]);
      var i :| 0 <= i < |ds| && ds[i] == gs[n].items[0];
      forall j | 0 <= j < |ds| && j != i ensures HttpMethodOf(ds[j]) != HttpMethodOf(ds[i]) {
      }
      GroupOfOne(ds, HttpMethodOf, n, i);
    }
    forall n, q | 0 <= n < q < |gs| && !EmptyGroup(gs[n]) && !EmptyGroup(gs[q])
      ensures OperationKey(c)(gs[n]) != OperationKey(c)(gs[q])
    {
      GroupMember(ds, HttpMethodOf, n, gs[n].items[0]);
      GroupMember(ds, HttpMethodOf, q, gs[q].items[0]);
      GroupKeysDistinct(ds, HttpMethodOf, n, q);
      var x :| 0 <= x < |ds| && ds[x] == gs[n].items[0];
      var y :| 0 <= y < |ds| && ds[y] == gs[q].items[0];
      assert x != y;
    }
    AddAllSucceeds(gs, EmptyGroup, OperationBuilder(c), OperationKey(c), DuplicateOperationError);
  }

  // ---------------------------------------------------------------------------------------------
  // Paths

  /** The normalised form of a relative path: trimmed of `/` at both ends, with one `/` put in front
      unless it already starts with one. */
  function NormalizePath(key: string): string {
    var path := Trim(key, '/');
    if StartsWith(path, '/') then path else "/" + path
  }

  /** Builds the path item of a path group; a null relative path makes `Trim` throw. */
  function PathBuilder(c: Collaborators): Grouping<Option<string>, ApiDescription> -> Result<PathItem, BuildError> {
    (g: Grouping<Option<string>, ApiDescription>) => if g.key.None? then Err(MissingRelativePath)
         else
           var operations :- OperationsOf(c, g.items);
           Ok(PathItem(operations))
  }

  /** The key a path group is added under; only consulted once its path item was built, which needs a
      relative path. */
  function PathKey(g: Grouping<Option<string>, ApiDescription>): string {
    if g.key.Some? then NormalizePath(g.key.value) else ""
  }

  function DuplicatePathError(path: string): BuildError {
    DuplicatePath(path)
  }

  /** The loop of `GetOpenApiPaths` over the path groups `gs`. */
  function Paths(c: Collaborators, gs: seq<Grouping<Option<string>, ApiDescription>>): Result<map<string, PathItem>, BuildError> {
    AddAll(gs, Never, PathBuilder(c), PathKey, DuplicatePathError)
  }

  /** `GetOpenApiPaths`: the endpoints grouped by relative path. */
  function PathsOf(c: Collaborators, ds: seq<ApiDescription>): Result<map<string, PathItem>, BuildError> {
    Paths(c, GroupBy(ds, RelativePathOf))
  }

  /** A normalised path is `/` followed by the path trimmed of slashes: it starts with exactly one `/`
      and, unless it is `/` itself, does not end with one. */
  lemma NormalizePathShape(key: string)
    ensures NormalizePath(key) == "/" + Trim(key, '/')
    ensures var p := NormalizePath(key); |p| >= 1 && p[0] == '/' && (|p| > 1 ==> p[1] != '/' && p[|p| - 1] != '/')
  {
  }

  /** Normalising a normalised path changes nothing. */
  lemma NormalizePathIdempotent(key: string)
    ensures NormalizePath(NormalizePath(key)) == NormalizePath(key)
  {
    NormalizePathShape(key);
    TrimLeading(Trim(key, '/'), '/');
  }

  /** Two relative paths get one normalised path exactly when they agree once trimmed of slashes. */
  lemma NormalizePathCollision(a: string, b: string)
    ensures NormalizePath(a) == NormalizePath(b) <==> Trim(a, '/') == Trim(b, '/')
  {
    NormalizePathShape(a);
    NormalizePathShape(b);
    if NormalizePath(a) == NormalizePath(b) {
      assert Trim(a, '/') == NormalizePath(a)[1..];
    }
  }

  /** A route with a trailing slash and the same route with a leading slash are different relative
      paths with one normalised path, so two such endpoints make `Add` throw. */
  lemma SlashVariantsCollide(t: string)
    requires t != [] && t[0] != '/' && t[|t| - 1] != '/'
    ensures t + "/" != "/" + t
    ensures NormalizePath(t + "/") == NormalizePath("/" + t) == "/" + t
  {
    assert (t + "/")[0] != ("/" + t)[0];
    TrimTrailing(t, '/');
    TrimLeading(t, '/');
    NormalizePathShape(t + "/");
    NormalizePathShape("/" + t);
  }

  /** `todos/` and `/todos` are both `/todos`. */
  lemma TrailingSlashCollision()
    ensures NormalizePath("todos/") == NormalizePath("/todos") == "/todos"
  {
    var t := "todos";
    assert t + "/" == "todos/" && "/" + t == "/todos";
    SlashVariantsCollide(t);
  }

  /** The endpoints at relative path `path`, in order. */
  function EndpointsAt(ds: seq<ApiDescription>, path: Option<string>): seq<ApiDescription> {
    Where(ds, KeyIs(RelativePathOf, path))
  }

  /** When the paths are built, each path group has a relative path, and the item under its
      normalised path holds the operations of the endpoints at that path. */
  lemma PathGroup(c: Collaborators, ds: seq<ApiDescription>, n: nat)
    requires PathsOf(c, ds).Ok? && n < |GroupBy(ds, RelativePathOf)|
    ensures var g, m := GroupBy(ds, RelativePathOf)[n], PathsOf(c, ds).value;
      && g.key.Some?
      && NormalizePath(g.key.value) in m
      && OperationsOf(c, EndpointsAt(ds, g.key)) == Ok(m[NormalizePath(g.key.value)].operations)
  {
    var gs := GroupBy(ds, RelativePathOf);
    AddAllAt(gs, Never, PathBuilder(c), PathKey, DuplicatePathError, n);
    GroupItems(ds, RelativePathOf, n);
  }

  /** When the paths are built, an endpoint has a relative path whose normalised form is a key and
      whose item holds the operations of the endpoints at that relative path. */
  lemma PathOfEndpoint(c: Collaborators, ds: seq<ApiDescription>, d: ApiDescription)
    requires PathsOf(c, ds).Ok? && d in ds
    ensures var m := PathsOf(c, ds).value;
      && d.relativePath.Some?
      && NormalizePath(d.relativePath.value) in m
      && OperationsOf(c, EndpointsAt(ds, d.relativePath)) == Ok(m[NormalizePath(d.relativePath.value)].operations)
  {
    var n := GroupOf(ds, RelativePathOf, d);
    PathGroup(c, ds, n);
  }

  /** When the paths are built, every path present is the normalised relative path of an endpoint. */
  lemma PathKeyOfEndpoint(c: Collaborators, ds: seq<ApiDescription>, k: string)
    requires PathsOf(c, ds).Ok? && k in PathsOf(c, ds).value
    ensures exists d :: d in ds && d.relativePath.Some? && NormalizePath(d.relativePath.value) == k
  {
    var gs := GroupBy(ds, RelativePathOf);
    AddAllKeyAt(gs, Never, PathBuilder(c), PathKey, DuplicatePathError, k);
    var n :| 0 <= n < |gs| && !Never(gs[n]) && PathKey(gs[n]) == k;
    PathGroup(c, ds, n);
    GroupsNonEmpty(ds, RelativePathOf);
    GroupMember(ds, RelativePathOf, n, gs[n].items[0]);
  }

  /** When the paths are built, endpoints with different relative paths have different normalised
      paths. */
  lemma PathsDistinct(c: Collaborators, ds: seq<ApiDescription>, a: ApiDescription, b: ApiDescription)
    requires PathsOf(c, ds).Ok? && a in ds && b in ds && a.relativePath != b.relativePath
    ensures a.relativePath.Some? && b.relativePath.Some?
    ensures NormalizePath(a.relativePath.value) != NormalizePath(b.relativePath.value)
  {
    var gs := GroupBy(ds, RelativePathOf);
    var n := GroupOf(ds, RelativePathOf, a);
    var q := GroupOf(ds, RelativePathOf, b);
    PathGroup(c, ds, n);
    PathGroup(c, ds, q);
    AddAllDistinctAt(gs, Never, PathBuilder(c), PathKey, DuplicatePathError, n, q);
  }

  /** When the paths are built, every endpoint has a relative path whose normalised form is a key and
      whose item holds the operations of the endpoints at that relative path; no other key is
      present; and endpoints with different relative paths have different normalised paths. */
  lemma PathsShape(c: Collaborators, ds: seq<ApiDescription>)
    requires PathsOf(c, ds).Ok?
    ensures var m := PathsOf(c, ds).value;
      && (forall d :: d in ds ==>
            && d.relativePath.Some?
            && NormalizePath(d.relativePath.value) in m
            && OperationsOf(c, EndpointsAt(ds, d.relativePath)) == Ok(m[NormalizePath(d.relativePath.value)].operations))
      && (forall k :: k in m ==> exists d :: d in ds && d.relativePath.Some? && NormalizePath(d.relativePath.value) == k)
      && (forall a, b :: a in ds && b in ds && a.relativePath != b.relativePath ==>
            a.relativePath.Some? && b.relativePath.Some? && NormalizePath(a.relativePath.value) != NormalizePath(b.relativePath.value))
  {
    forall d | d in ds ensures var m := PathsOf(c, ds).value;
      && d.relativePath.Some?
      && NormalizePath(d.relativePath.value) in m
      && OperationsOf(c, EndpointsAt(ds, d.relativePath)) == Ok(m[NormalizePath(d.relativePath.value)].operations)
    {
      PathOfEndpoint(c, ds, d);
    }
    forall k | k in PathsOf(c, ds).value ensures exists d :: d in ds && d.relativePath.Some? && NormalizePath(d.relativePath.value) == k {
      PathKeyOfEndpoint(c, ds, k);
    }
    forall a, b | a in ds && b in ds && a.relativePath != b.relativePath
      ensures a.relativePath.Some? && b.relativePath.Some? && NormalizePath(a.relativePath.value) != NormalizePath(b.relativePath.value)
    {
      PathsDistinct(c, ds, a, b);
    }
  }

  // ---------------------------------------------------------------------------------------------
  // Tags of the document

  /** The tags of the operations of one path. */
  function OperationTags(ops: map<OperationType, Operation>): set<string> {
    set k, t | k in ops && t in ops[k].tags :: t
  }

  /** The tags of every operation of every path. */
  function PathTags(paths: map<string, PathItem>): set<string> {
    set p, t | p in paths && t in OperationTags(paths[p].operations) :: t
  }

  /** Captured tags that are the initial ones plus the tags built so far stay so when both grow by the
      same tags. */
  lemma TagsStep(initial: set<string>, captured: set<string>, captured': set<string>,
                 built: set<string>, built': set<string>, added: set<string>)
    requires captured == initial + built && captured' == captured + added && built' == built + added
    ensures captured' == initial + built'
  {
  }

  /** Adding an operation under a new key adds its tags. */
  lemma OperationTagsAdd(ops: map<OperationType, Operation>, k: OperationType, op: Operation)
    requires k !in ops
    ensures OperationTags(ops[k := op]) == OperationTags(ops) + set t | t in op.tags
  {
    var next := ops[k := op];
    forall t | t in OperationTags(next) ensures t in OperationTags(ops) + set t | t in op.tags {
      var j :| j in next && t in next[j].tags;
      if j != k { assert t in ops[j].tags; }
    }
    forall t | t in OperationTags(ops) ensures t in OperationTags(next) {
      var j :| j in ops && t in ops[j].tags;
      assert next[j] == ops[j];
    }
    forall t | t in op.tags ensures t in OperationTags(next) {
      assert next[k] == op;
    }
  }

  /** Adding a path item under a new path adds the tags of its operations. */
  lemma PathTagsAdd(paths: map<string, PathItem>, p: string, item: PathItem)
    requires p !in paths
    ensures PathTags(paths[p := item]) == PathTags(paths) + OperationTags(item.operations)
  {
    var next := paths[p := item];
    forall t | t in PathTags(next) ensures t in PathTags(paths) + OperationTags(item.operations) {
      var q :| q in next && t in OperationTags(next[q].operations);
      if q != p { assert t in OperationTags(paths[q].operations); }
    }
    forall t | t in PathTags(paths) ensures t in PathTags(next) {
      var q :| q in paths && t in OperationTags(paths[q].operations);
      assert next[q] == paths[q];
    }
    forall t | t in OperationTags(item.operations) ensures t in PathTags(next) {
      assert next[p] == item;
    }
  }

  /** One iteration of `GetOperations`, branch by branch: an empty group is passed over, a group of
      several endpoints is ambiguous, and otherwise the tags, the request body, the responses and the
      parameters are built in that order before the operation is added under a new operation type. */
  lemma OperationStep(c: Collaborators, m: map<OperationType, Operation>, g: Grouping<Option<string>, ApiDescription>)
    ensures AddStep(m, g, EmptyGroup, OperationBuilder(c), OperationKey(c), DuplicateOperationError) ==
      if g.items == [] then Ok(m)
      else if |g.items| > 1 then Err(AmbiguousMethod(g.key))
      else
        var d := g.items[0];
        if GetTags(d).Err? then Err(GetTags(d).error)
        else if GetRequestBody(c, d).Err? then Err(GetRequestBody(c, d).error)
        else if ResponsesOf(c, d).Err? then Err(ResponsesOf(c, d).error)
        else if GetParameters(c, d).Err? then Err(GetParameters(c, d).error)
        else if c.operationType(g.key) in m then Err(DuplicateOperation(c.operationType(g.key)))
        else Ok(m[c.operationType(g.key) := Operation(GetTags(d).value, GetOperationId(d), GetRequestBody(c, d).value, ResponsesOf(c, d).value, GetParameters(c, d).value)])
  {
  }

  /** One iteration of `GetOpenApiPaths`, branch by branch: a null relative path fails, then the
      operations are built, then the item is added under a new normalised path. */
  lemma PathStep(c: Collaborators, m: map<string, PathItem>, g: Grouping<Option<string>, ApiDescription>)
    ensures AddStep(m, g, Never, PathBuilder(c), PathKey, DuplicatePathError) ==
      if g.key.None? then Err(MissingRelativePath)
      else if OperationsOf(c, g.items).Err? then Err(OperationsOf(c, g.items).error)
      else if NormalizePath(g.key.value) in m then Err(DuplicatePath(NormalizePath(g.key.value)))
      else Ok(m[NormalizePath(g.key.value) := PathItem(OperationsOf(c, g.items).value)])
  {
  }

  // ---------------------------------------------------------------------------------------------
  // The service

  /** `OpenApiDocumentService`: builds the document of a fixed set of endpoints, collecting the tags
      of every operation it builds in `capturedTags` on the way. */
  class OpenApiDocumentService {
    const collaborators: Collaborators
    /** The endpoints of every description group, flattened in order. */
    const descriptions: seq<ApiDescription>
    const componentService: ComponentService.OpenApiComponentService
    /** `_capturedTags`. */
    var capturedTags: set<string>
    /** `Document`: the result of `GenerateOpenApiDocument`, whose failure fails the constructor. */
    var document: Result<Document, DocumentError>

    /** Builds the document once, from no captured tags: its tags are then exactly the tags of its
        operations. */
    constructor (c: Collaborators, descriptions: seq<ApiDescription>, componentService: ComponentService.OpenApiComponentService)
      requires componentService.Valid()
      ensures collaborators == c && this.descriptions == descriptions && this.componentService == componentService
      ensures PathsOf(c, descriptions).Err? ==> document == Err(PathsFailed(PathsOf(c, descriptions).error))
      ensures PathsOf(c, descriptions).Ok? ==>
        (document.Ok? <==> !exists a, b :: ComponentService.Collide(componentService.cache, a, b))
      ensures document.Ok? ==>
        && document.value.paths == PathsOf(c, descriptions).value
        && ComponentService.ComponentsOf(componentService.cache, document.value.components)
        && document.value.tags == PathTags(document.value.paths)
    {
      collaborators := c;
      this.descriptions := descriptions;
      this.componentService := componentService;
      capturedTags := {};
      document := Err(PathsFailed(MissingRelativePath));
      new;
      var generated := GenerateOpenApiDocument();
      document := generated;
    }

    /** `_capturedTags.Add` for each tag of an operation. */
    method CaptureTags(tags: seq<string>)
      modifies this
      ensures capturedTags == old(capturedTags) + set t | t in tags
      ensures document == old(document)
    {
      for i := 0 to |tags|
        invariant capturedTags == old(capturedTags) + set t | t in tags[..i]
        invariant document == old(document)
      {
        TakeSnoc(tags, i);
        capturedTags := capturedTags + {tags[i]};
      }
      assert tags[..|tags|] == tags;
    }

    /** `GetResponses`: adds the response of each supported response type under its status code. */
    method GetResponses(d: ApiDescription) returns (r: Result<map<string, Response>, BuildError>)
      ensures r == ResponsesOf(collaborators, d)
    {
      var c := collaborators;
      var rts := SupportedResponseTypes(d);
      var responses: map<string, Response> := map[];
      for i := 0 to |rts|
        invariant Responses(c, d, rts[..i]) == Ok(responses)
      {
        TakeSnoc(rts, i);
        AddAllSnoc(rts[..i], rts[i], Never, ResponseBuilder(c, d), ResponseKey, DuplicateResponseError);
        var statusCode := EffectiveStatus(rts[i]);
        var key := IntToDecimal(statusCode);
        var response := GetResponse(c, d, statusCode, rts[i]);
        if response.Err? {
          AddAllPrefixFails(rts, i + 1, Never, ResponseBuilder(c, d), ResponseKey, DuplicateResponseError);
          return Err(response.error);
        }
        if key in responses {
          AddAllPrefixFails(rts, i + 1, Never, ResponseBuilder(c, d), ResponseKey, DuplicateResponseError);
          return Err(DuplicateResponse(key));
        }
        responses := responses[key := response.value];
      }
      assert rts[..|rts|] == rts;
      return Ok(responses);
    }

    /** `GetOperations`: the operations of the endpoints `items` of one path, capturing the tags of
        each. Tags captured before a failure stay captured. */
    method GetOperations(items: seq<ApiDescription>) returns (r: Result<map<OperationType, Operation>, BuildError>)
      modifies this
      ensures r == OperationsOf(collaborators, items)
      ensures r.Ok? ==> capturedTags == old(capturedTags) + OperationTags(r.value)
      ensures old(capturedTags) <= capturedTags && document == old(document)
    {
      var c := collaborators;
      var gs := GroupBy(items, HttpMethodOf);
      var operations: map<OperationType, Operation> := map[];
      for i := 0 to |gs|
        invariant Operations(c, gs[..i]) == Ok(operations)
        invariant capturedTags == old(capturedTags) + OperationTags(operations)
        invariant document == old(document)
      {
        TakeSnoc(gs, i);
        AddAllSnoc(gs[..i], gs[i], EmptyGroup, OperationBuilder(c), OperationKey(c), DuplicateOperationError);
        OperationStep(c, operations, gs[i]);
        var group := gs[i];
        if |group.items| > 1 {
          AddAllPrefixFails(gs, i + 1, EmptyGroup, OperationBuilder(c), OperationKey(c), DuplicateOperationError);
          return Err(AmbiguousMethod(group.key));
        }
        if group.items == [] {
          continue;
        }
        var d := group.items[0];
        var tags := GetTags(d);
        if tags.Err? {
          AddAllPrefixFails(gs, i + 1, EmptyGroup, OperationBuilder(c), OperationKey(c), DuplicateOperationError);
          return Err(tags.error);
        }
        CaptureTags(tags.value);
        var requestBody := GetRequestBody(c, d);
        if requestBody.Err? {
          AddAllPrefixFails(gs, i + 1, EmptyGroup, OperationBuilder(c), OperationKey(c), DuplicateOperationError);
          return Err(requestBody.error);
        }
        var responses := GetResponses(d);
        if responses.Err? {
          AddAllPrefixFails(gs, i + 1, EmptyGroup, OperationBuilder(c), OperationKey(c), DuplicateOperationError);
          return Err(responses.error);
        }
        var parameters := GetParameters(c, d);
        if parameters.Err? {
          AddAllPrefixFails(gs, i + 1, EmptyGroup, OperationBuilder(c), OperationKey(c), DuplicateOperationError);
          return Err(parameters.error);
        }
        var operationType := c.operationType(group.key);
        if operationType in operations {
          AddAllPrefixFails(gs, i + 1, EmptyGroup, OperationBuilder(c), OperationKey(c), DuplicateOperationError);
          return Err(DuplicateOperation(operationType));
        }
        var operation := Operation(tags.value, GetOperationId(d), requestBody.value, responses.value, parameters.value);
        OperationTagsAdd(operations, operationType, operation);
        operations := operations[operationType := operation];
      }
      assert gs[..|gs|] == gs;
      return Ok(operations);
    }

    /** `GetOpenApiPaths`: the path items of the endpoints grouped by relative path, each added under
        its normalised path. */
    method GetOpenApiPaths() returns (r: Result<map<string, PathItem>, BuildError>)
      modifies this
      ensures r == PathsOf(collaborators, descriptions)
      ensures r.Ok? ==> capturedTags == old(capturedTags) + PathTags(r.value)
      ensures old(capturedTags) <= capturedTags && document == old(document)
    {
      var c := collaborators;
      var gs := GroupBy(descriptions, RelativePathOf);
      var paths: map<string, PathItem> := map[];
      for i := 0 to |gs|
        invariant Paths(c, gs[..i]) == Ok(paths)
        invariant capturedTags == old(capturedTags) + PathTags(paths)
        invariant document == old(document)
      {
        TakeSnoc(gs, i);
        AddAllSnoc(gs[..i], gs[i], Never, PathBuilder(c), PathKey, DuplicatePathError);
        ghost var before := capturedTags;
        var next := AddPath(gs[i], paths);
        if next.Err? {
          AddAllPrefixFails(gs, i + 1, Never, PathBuilder(c), PathKey, DuplicatePathError);
          return Err(next.error);
        }
        TagsStep(old(capturedTags), before, capturedTags, PathTags(paths), PathTags(next.value),
                 OperationTags(next.value[NormalizePath(gs[i].key.value)].operations));
        paths := next.value;
      }
      assert gs[..|gs|] == gs;
      return Ok(paths);
    }

    /** One iteration of `GetOpenApiPaths`: the path item of one group of endpoints, added under its
        normalised path; the captured tags grow by the tags of its operations. */
    method AddPath(group: Grouping<Option<string>, ApiDescription>, paths: map<string, PathItem>)
      returns (r: Result<map<string, PathItem>, BuildError>)
      modifies this
      ensures r == AddStep(paths, group, Never, PathBuilder(collaborators), PathKey, DuplicatePathError)
      ensures r.Ok? ==> group.key.Some? && NormalizePath(group.key.value) in r.value
      ensures r.Ok? ==>
        var tags := OperationTags(r.value[NormalizePath(group.key.value)].operations);
        capturedTags == old(capturedTags) + tags && PathTags(r.value) == PathTags(paths) + tags
      ensures old(capturedTags) <= capturedTags && document == old(document)
    {
      PathStep(collaborators, paths, group);
      if group.key.None? {
        return Err(MissingRelativePath);
      }
      var path := Trim(group.key.value, '/');
      if !StartsWith(path, '/') {
        path := "/" + path;
      }
      assert path == NormalizePath(group.key.value);
      var operations := GetOperations(group.items);
      if operations.Err? {
        return Err(operations.error);
      }
      if path in paths {
        return Err(DuplicatePath(path));
      }
      PathTagsAdd(paths, path, PathItem(operations.value));
      return Ok(paths[path := PathItem(operations.value)]);
    }

    /** `GenerateOpenApiDocument`: the paths, then the components, then the captured tags. */
    method GenerateOpenApiDocument() returns (r: Result<Document, DocumentError>)
      requires componentService.Valid()
      modifies this
      ensures PathsOf(collaborators, descriptions).Err? ==> r == Err(PathsFailed(PathsOf(collaborators, descriptions).error))
      ensures PathsOf(collaborators, descriptions).Ok? ==>
        (r.Ok? <==> !exists a, b :: ComponentService.Collide(componentService.cache, a, b))
      ensures r.Ok? ==>
        && r.value.paths == PathsOf(collaborators, descriptions).value
        && ComponentService.ComponentsOf(componentService.cache, r.value.components)
        && r.value.tags == capturedTags == old(capturedTags) + PathTags(r.value.paths)
      ensures r.Err? && r.error.ComponentsFailed? ==>
        exists a, b :: ComponentService.Collide(componentService.cache, a, b) && GetReferenceId(a) == r.error.component.id
      ensures document == old(document)
    {
      var paths := GetOpenApiPaths();
      if paths.Err? {
        return Err(PathsFailed(paths.error));
      }
      var components := componentService.GetOpenApiComponents();
      if components.Err? {
        return Err(ComponentsFailed(components.error));
      }
      return Ok(Document(paths.value, components.value, capturedTags));
    }
  }
}
