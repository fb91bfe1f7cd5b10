/** The schema cache of OpenApiComponentService: resolving a type to an `OpenApiSchema`, caching object
    schemas under their type, and turning the cache into the document's component map.

    The resolver follows the two-argument body that OpenApiDocumentService calls. What it reads of a
    type through `JsonTypeInfo` and reflection is given by a `TypeEnv`, so the type graph the resolver
    walks may contain cycles. Resolution is given a recursion budget (`fuel`); running out of it stands
    for the unbounded recursion of the source and is reported as `Diverged`. */
module ComponentService {
  import opened Wrappers
  import opened ReferenceNaming
  import opened OpenApiModel
  import Linq

  /** One `JsonPropertyInfo` of an object type, with what the resolver asks reflection about it.
      `clrDeclaringType` is the declaring type of `Type.GetProperty(name)`, `None` when no CLR property
      has that name; `defaultAttr` is the serialised `[DefaultValue]` of the property. */
  datatype PropertyInfo = PropertyInfo(
    name: string,
    propertyType: ClrType,
    clrDeclaringType: Option<ClrType>,
    hasGetter: bool,
    hasSetter: bool,
    defaultAttr: Option<Literal>)

  /** What `JsonTypeInfo` says about a type: `typeof(JsonNode)`, or its `Kind`. Kind `None` splits into
      enums (underlying type and `Enum.GetValues` in order) and other primitives (the serialised
      `[DefaultValue]` of the type). For kind `Object`: the polymorphic derived types in declaration
      order, `BaseType`, and the properties in order. */
  datatype TypeShape =
    | JsonNodeShape
    | DictionaryShape
    | EnumShape(underlying: ClrType, values: seq<int>)
    | PrimitiveShape(defaultAttr: Option<Literal>)
    | EnumerableShape(elementType: Option<ClrType>)
    | ObjectShape(derivedTypes: seq<ClrType>, baseType: Option<ClrType>, properties: seq<PropertyInfo>)

  /** The type metadata and `OpenApiTypeMapper.MapTypeToOpenApiPrimitiveType` on a type that is not
      null; the mapper throws `ArgumentNullException` on null, which the resolver reports itself. */
  datatype TypeEnv = TypeEnv(shapeOf: ClrType -> TypeShape, mapPrimitive: ClrType -> OpenApiSchema)

  /** When an object type enters the cache: after its members are resolved, as the resolver body does,
      or before, as a resolver that survives recursive types must. */
  datatype CachePolicy = AfterRecursion | BeforeRecursion

  datatype ResolveError =
    | Diverged                    // the recursion budget ran out
    | NoElementType               // `GetGenericArguments().First()` on a non-generic enumerable
    | DuplicateProperty(name: string)   // `Properties.Add` of a name already present
    | InvalidEnumCast             // `(int)value` on a boxed value of an enum whose underlying type is not `int`
    | NullMapperArgument          // the mapper called on the null value type of a dictionary

  type Cache = map<ClrType, OpenApiSchema>

  /** A result together with the cache after computing it. */
  datatype Resolved<T> = Resolved(value: T, cache: Cache)

  /** `typeof(object)`. */
  const ObjectType := ClrType("System", "Object", [], true, false, false)

  /** `typeof(int)`, the only underlying type whose boxed enum values unbox to `int`. */
  const Int32Type := ClrType("System", "Int32", [], false, false, false)

  /** Every cached type is an object type and its schema refers to the type's component name. */
  predicate Referenced(env: TypeEnv, c: Cache) {
    forall k :: k in c ==> env.shapeOf(k).ObjectShape? && c[k].reference == Some(GetReferenceId(k))
  }

  /** `d` keeps every entry of `c`, and what it adds are referenced object schemas. */
  predicate Grows(env: TypeEnv, c: Cache, d: Cache) {
    && (forall k :: k in c ==> k in d && d[k] == c[k])
    && (forall k :: k in d && k !in c ==>
          env.shapeOf(k).ObjectShape? && d[k].reference == Some(GetReferenceId(k)))
  }

  /** Growing twice is growing. */
  lemma GrowsTrans(env: TypeEnv, a: Cache, b: Cache, c: Cache)
    requires Grows(env, a, b) && Grows(env, b, c)
    ensures Grows(env, a, c)
  {
  }

  /** Storing a referenced object schema under a type not yet cached grows the cache. */
  lemma GrowsStore(env: TypeEnv, a: Cache, b: Cache, t: ClrType, s: OpenApiSchema)
    requires Grows(env, a, b) && t !in a
    requires env.shapeOf(t).ObjectShape? && s.reference == Some(GetReferenceId(t))
    ensures Grows(env, a, b[t := s])
  {
  }

  /** The schema of `typeof(JsonNode)`: an object allowing further properties that are objects. */
  const JsonNodeSchema := EmptySchema.(
    schemaType := Some("object"),
    additionalPropertiesAllowed := true,
    additionalProperties := Some(EmptySchema.(schemaType := Some("object"))))

  /** The value type of a dictionary: the last of exactly two generic arguments, otherwise null. */
  function DictionaryValueType(t: ClrType): (r: Option<ClrType>)
    ensures r.Some? <==> |t.genericArgs| == 2
    ensures r.Some? ==> r.value == t.genericArgs[1]
  {
    if |t.genericArgs| == 2 then Some(t.genericArgs[|t.genericArgs| - 1]) else None
  }

  /** A dictionary with value type `value`: an object whose additional properties are the mapped value type. */
  function DictionarySchema(env: TypeEnv, value: ClrType): OpenApiSchema {
    EmptySchema.(
      schemaType := Some("object"),
      additionalPropertiesAllowed := true,
      additionalProperties := Some(env.mapPrimitive(value)))
  }

  /** The dictionary branch: the mapper called on a null value type throws. */
  function ResolveDictionary(env: TypeEnv, t: ClrType): Result<OpenApiSchema, ResolveError> {
    var value := DictionaryValueType(t);
    if value.None? then Err(NullMapperArgument) else Ok(DictionarySchema(env, value.value))
  }

  /** The enum branch: each value is unboxed to `int`, which throws unless the underlying type is `int`;
      an enum without values casts nothing. */
  function ResolveEnum(env: TypeEnv, underlying: ClrType, values: seq<int>): Result<OpenApiSchema, ResolveError> {
    if underlying != Int32Type && values != [] then Err(InvalidEnumCast) else Ok(EnumSchema(env, underlying, values))
  }

  /** The mapped underlying type with the enum's values appended. */
  function EnumSchema(env: TypeEnv, underlying: ClrType, values: seq<int>): OpenApiSchema {
    var m := env.mapPrimitive(underlying);
    m.(enumValues := m.enumValues + values)
  }

  /** The mapped type; a parameter's default wins over the type's `[DefaultValue]`. */
  function PrimitiveSchema(env: TypeEnv, t: ClrType, attr: Option<Literal>, paramDefault: Option<Literal>): OpenApiSchema {
    var m := env.mapPrimitive(t);
    m.(defaultValue := if paramDefault.Some? then paramDefault else if attr.Some? then attr else m.defaultValue)
  }

  /** `GetElementType() ?? GetGenericArguments().First()`. */
  function ElementType(t: ClrType, elementType: Option<ClrType>): (r: Result<ClrType, ResolveError>)
    ensures r.Err? <==> elementType.None? && t.genericArgs == []
    ensures r.Err? ==> r.error == NoElementType
    ensures r.Ok? ==> r.value == if elementType.Some? then elementType.value else t.genericArgs[0]
  {
    if elementType.Some? then Ok(elementType.value)
    else if t.genericArgs != [] then Ok(t.genericArgs[0])
    else Err(NoElementType)
  }

  function ArraySchema(env: TypeEnv, element: ClrType): OpenApiSchema {
    EmptySchema.(schemaType := Some("array"), items := Some(env.mapPrimitive(element)))
  }

  /** What a recursive reference sees while its object type is still being resolved. */
  function Placeholder(t: ClrType): OpenApiSchema {
    EmptySchema.(reference := Some(GetReferenceId(t)))
  }

  /** The cache in which the members of object type `t` are resolved. */
  function Start(policy: CachePolicy, cache: Cache, t: ClrType): Cache {
    if policy == BeforeRecursion then cache[t := Placeholder(t)] else cache
  }

  /** The base type composed through `allOf`: none for a missing base and for `object`. */
  function BaseTypes(base: Option<ClrType>): (r: seq<ClrType>)
    ensures |r| <= 1
    ensures r == [] <==> base.None? || base.value == ObjectType
  {
    if base.Some? && base.value != ObjectType then [base.value] else []
  }

  /** A property that reflection finds declared on another type is represented through `allOf`. */
  predicate Skipped(t: ClrType, p: PropertyInfo) {
    p.clrDeclaringType.Some? && p.clrDeclaringType.value != t
  }

  /** The properties an object schema lists, in order. */
  function Kept(t: ClrType, ps: seq<PropertyInfo>): (r: seq<PropertyInfo>)
    ensures |r| <= |ps|
    ensures forall i :: 0 <= i < |r| ==> !Skipped(t, r[i])
  {
    if ps == [] then []
    else Kept(t, ps[..|ps| - 1]) + (if Skipped(t, ps[|ps| - 1]) then [] else [ps[|ps| - 1]])
  }

  /** The kept properties are exactly the properties not declared elsewhere. */
  lemma {:induction false} KeptMembers(t: ClrType, ps: seq<PropertyInfo>)
    ensures forall p :: p in Kept(t, ps) <==> p in ps && !Skipped(t, p)
  {
    if ps != [] {
      var init := ps[..|ps| - 1];
      KeptMembers(t, init);
      assert ps == init + [ps[|ps| - 1]];
    }
  }

  /** Keeping distributes over concatenation, so the kept properties keep their declaration order. */
  lemma {:induction false} KeptAppend(t: ClrType, a: seq<PropertyInfo>, b: seq<PropertyInfo>)
    ensures Kept(t, a + b) == Kept(t, a) + Kept(t, b)
  {
    if b == [] {
      assert a + b == a;
    } else {
      var init := b[..|b| - 1];
      assert (a + b)[..|a + b| - 1] == a + init;
      KeptAppend(t, a, init);
    }
  }

  /** When no property is declared elsewhere, every property is kept. */
  lemma {:induction false} KeptAll(t: ClrType, ps: seq<PropertyInfo>)
    requires forall i :: 0 <= i < |ps| ==> !Skipped(t, ps[i])
    ensures Kept(t, ps) == ps
  {
    if ps != [] {
      KeptAll(t, ps[..|ps| - 1]);
    }
  }

  /** The schema a property holds: the resolved schema with the property's default, and read-only or
      write-only by the accessors it lacks. */
  function PropertySchema(p: PropertyInfo, s: OpenApiSchema): OpenApiSchema {
    s.(defaultValue := if p.defaultAttr.Some? then p.defaultAttr else s.defaultValue,
       readOnly := !p.hasSetter,
       writeOnly := !p.hasGetter)
  }

  function ObjectSchema(t: ClrType, oneOf: seq<OpenApiSchema>, allOf: seq<OpenApiSchema>, props: seq<Property>): OpenApiSchema {
    EmptySchema.(
      schemaType := Some("object"),
      additionalPropertiesAllowed := false,
      oneOf := oneOf,
      allOf := allOf,
      properties := Some(props),
      reference := Some(GetReferenceId(t)))
  }

  /** `GetOrCreateOpenApiSchemaForType(type, parameterDescription)`: a cached schema is returned as it
      is; an object schema is cached under its type and refers to its component name; every other
      kind is built inline and leaves the cache alone. */
  function Resolve(env: TypeEnv, policy: CachePolicy, cache: Cache, t: ClrType, paramDefault: Option<Literal>, fuel: nat)
    : (r: Result<Resolved<OpenApiSchema>, ResolveError>)
    ensures t in cache ==> r == Ok(Resolved(cache[t], cache))
    ensures r.Ok? ==> Grows(env, cache, r.value.cache)
    ensures r.Ok? && t !in cache && env.shapeOf(t).ObjectShape? ==>
      t in r.value.cache && r.value.cache[t] == r.value.value
    ensures r.Ok? && t !in cache && !env.shapeOf(t).ObjectShape? ==> r.value.cache == cache
    ensures r.Ok? && Referenced(env, cache) && env.shapeOf(t).ObjectShape? ==>
      r.value.value.reference == Some(GetReferenceId(t))
    decreases fuel, 1, 0
  {
    if t in cache then Ok(Resolved(cache[t], cache))
    else if env.shapeOf(t).ObjectShape? then
      if fuel == 0 then Err(Diverged) else ResolveObject(env, policy, cache, t, fuel)
    else
      var schema :- ResolveInline(env, t, paramDefault);
      Ok(Resolved(schema, cache))
  }

  /** The kinds built inline, from the type alone and whatever the cache holds: `JsonNode`,
      dictionaries, enums, other primitives and enumerables. */
  function ResolveInline(env: TypeEnv, t: ClrType, paramDefault: Option<Literal>): Result<OpenApiSchema, ResolveError>
    requires !env.shapeOf(t).ObjectShape?
  {
    match env.shapeOf(t)
    case JsonNodeShape => Ok(JsonNodeSchema)
    case DictionaryShape => ResolveDictionary(env, t)
    case EnumShape(u, vs) => ResolveEnum(env, u, vs)
    case PrimitiveShape(attr) => Ok(PrimitiveSchema(env, t, attr, paramDefault))
    case EnumerableShape(e) =>
      var element :- ElementType(t, e);
      Ok(ArraySchema(env, element))
  }

  /** The object branch: derived types into `oneOf`, the base into `allOf`, the kept properties in
      order, then the schema is cached and given its reference. */
  function ResolveObject(env: TypeEnv, policy: CachePolicy, cache: Cache, t: ClrType, fuel: nat)
    : (r: Result<Resolved<OpenApiSchema>, ResolveError>)
    requires t !in cache && env.shapeOf(t).ObjectShape? && fuel >= 1
    ensures r.Ok? ==> Grows(env, cache, r.value.cache)
    ensures r.Ok? ==> t in r.value.cache && r.value.cache[t] == r.value.value
    ensures r.Ok? ==> r.value.value.reference == Some(GetReferenceId(t))
    decreases fuel, 0, 0
  {
    var shape := env.shapeOf(t);
    var start := Start(policy, cache, t);
    var oneOf :- ResolveAll(env, policy, start, shape.derivedTypes, fuel - 1);
    var allOf :- ResolveAll(env, policy, oneOf.cache, BaseTypes(shape.baseType), fuel - 1);
    var props :- ResolveProperties(env, policy, allOf.cache, t, shape.properties, fuel - 1);
    var schema := ObjectSchema(t, oneOf.value, allOf.value, props.value);
    GrowsStore(env, cache, cache, t, Placeholder(t));
    GrowsTrans(env, cache, start, oneOf.cache);
    GrowsTrans(env, cache, oneOf.cache, allOf.cache);
    GrowsTrans(env, cache, allOf.cache, props.cache);
    GrowsStore(env, cache, props.cache, t, schema);
    Ok(Resolved(schema, props.cache[t := schema]))
  }

  /** Resolving types one after another, each seeing the cache the previous ones left. */
  function ResolveAll(env: TypeEnv, policy: CachePolicy, cache: Cache, ts: seq<ClrType>, fuel: nat)
    : (r: Result<Resolved<seq<OpenApiSchema>>, ResolveError>)
    ensures r.Ok? ==> |r.value.value| == |ts| && Grows(env, cache, r.value.cache)
    ensures r.Ok? && Referenced(env, cache) ==>
      forall i :: 0 <= i < |ts| && env.shapeOf(ts[i]).ObjectShape? ==>
        r.value.value[i].reference == Some(GetReferenceId(ts[i]))
    decreases fuel, 2, |ts|
  {
    if ts == [] then Ok(Resolved([], cache))
    else
      var init :- ResolveAll(env, policy, cache, ts[..|ts| - 1], fuel);
      var last :- Resolve(env, policy, init.cache, ts[|ts| - 1], None, fuel);
      Ok(Resolved(init.value + [last.value], last.cache))
  }

  /** The property loop: skipped properties leave no trace; each kept one is resolved, given its
      default and accessor flags, and added under its name, which must be new. */
  function ResolveProperties(env: TypeEnv, policy: CachePolicy, cache: Cache, t: ClrType, ps: seq<PropertyInfo>, fuel: nat)
    : (r: Result<Resolved<seq<Property>>, ResolveError>)
    ensures r.Ok? ==> Grows(env, cache, r.value.cache)
    ensures r.Ok? ==> PropertiesMatch(Kept(t, ps), r.value.value)
    decreases fuel, 2, |ps|
  {
    if ps == [] then Ok(Resolved([], cache))
    else
      var init :- ResolveProperties(env, policy, cache, t, ps[..|ps| - 1], fuel);
      var p := ps[|ps| - 1];
      if Skipped(t, p) then Ok(init)
      else
        var inner :- Resolve(env, policy, init.cache, p.propertyType, None, fuel);
        if p.name in PropertyNames(init.value) then Err(DuplicateProperty(p.name))
        else
          GrowsTrans(env, cache, init.cache, inner.cache);
          PropertiesMatchSnoc(Kept(t, ps[..|ps| - 1]), init.value, p, inner.value);
          Ok(Resolved(init.value + [Property(p.name, PropertySchema(p, inner.value))], inner.cache))
  }

  /** The properties listed for `kept`: one per kept property, in order, with unique names, read-only
      without a setter, write-only without a getter, and carrying a declared default. */
  predicate PropertiesMatch(kept: seq<PropertyInfo>, props: seq<Property>) {
    && |props| == |kept|
    && Linq.NoDuplicates(PropertyNames(props))
    && forall i :: 0 <= i < |kept| ==>
         && props[i].name == kept[i].name
         && props[i].schema.readOnly == !kept[i].hasSetter
         && props[i].schema.writeOnly == !kept[i].hasGetter
         && (kept[i].defaultAttr.Some? ==> props[i].schema.defaultValue == kept[i].defaultAttr)
  }

  /** Adding a property under a new name extends the listing by that property. */
  lemma PropertiesMatchSnoc(kept: seq<PropertyInfo>, props: seq<Property>, p: PropertyInfo, s: OpenApiSchema)
    requires PropertiesMatch(kept, props) && p.name !in PropertyNames(props)
    ensures PropertiesMatch(kept + [p], props + [Property(p.name, PropertySchema(p, s))])
  {
    var prop := Property(p.name, PropertySchema(p, s));
    PropertyNamesSnoc(props, prop);
    Linq.NoDuplicatesSnoc(PropertyNames(props), p.name);
  }

  /** Keeping every entry and adding only referenced object schemas keeps a cache referenced. */
  lemma GrowsReferenced(env: TypeEnv, c: Cache, d: Cache)
    requires Referenced(env, c) && Grows(env, c, d)
    ensures Referenced(env, d)
  {
  }

  /** Resolving a type again, in the cache its first resolution left, gives the same schema and leaves
      the cache as it is, whatever the budget. */
  lemma ResolveIdempotent(env: TypeEnv, policy: CachePolicy, cache: Cache, t: ClrType, paramDefault: Option<Literal>, fuel: nat, fuel': nat)
    requires Resolve(env, policy, cache, t, paramDefault, fuel).Ok?
    ensures var r := Resolve(env, policy, cache, t, paramDefault, fuel);
      Resolve(env, policy, r.value.cache, t, paramDefault, fuel') == r
  {
  }

  /** The mapper builds fresh inline schemas, as `OpenApiTypeMapper` does. */
  ghost predicate MapperInline(env: TypeEnv) {
    forall t :: env.mapPrimitive(t).reference == None
  }

  /** A type of any kind but object is built inline: the cache stays as it is, and the schema has no
      reference. `JsonNode` is an object with object-valued additional properties; a dictionary maps its
      value type and fails without exactly two generic arguments, whose null value type the mapper
      rejects; an enum is its underlying primitive with the values appended in order, and fails when it
      has a value and its underlying type is not `int`; a primitive takes the parameter's default over the
      type's; an array maps its element type and fails only when there is none. */
  lemma InlineResolution(env: TypeEnv, policy: CachePolicy, cache: Cache, t: ClrType, paramDefault: Option<Literal>, fuel: nat)
    requires t !in cache && !env.shapeOf(t).ObjectShape?
    ensures var r := Resolve(env, policy, cache, t, paramDefault, fuel);
      && (r.Ok? ==> r.value.cache == cache)
      && (r.Ok? && MapperInline(env) ==> r.value.value.reference == None)
      && (env.shapeOf(t).JsonNodeShape? ==>
            r.Ok? && r.value.value.schemaType == Some("object") && r.value.value.additionalPropertiesAllowed
            && r.value.value.additionalProperties == Some(EmptySchema.(schemaType := Some("object"))))
      && (env.shapeOf(t).DictionaryShape? ==>
            && (r.Err? <==> |t.genericArgs| != 2)
            && (r.Err? ==> r.error == NullMapperArgument)
            && (r.Ok? ==>
                  && r.value.value.schemaType == Some("object") && r.value.value.additionalPropertiesAllowed
                  && r.value.value.additionalProperties == Some(env.mapPrimitive(t.genericArgs[1]))))
      && (env.shapeOf(t).EnumShape? ==>
            var u := env.shapeOf(t).underlying;
            var m := env.mapPrimitive(u);
            && (r.Err? <==> u != Int32Type && env.shapeOf(t).values != [])
            && (r.Err? ==> r.error == InvalidEnumCast)
            && (r.Ok? ==>
                  r.value.value.schemaType == m.schemaType
                  && r.value.value.enumValues == m.enumValues + env.shapeOf(t).values))
      && (env.shapeOf(t).PrimitiveShape? ==>
            var m := env.mapPrimitive(t);
            r.Ok? && r.value.value.schemaType == m.schemaType
            && (paramDefault.Some? ==> r.value.value.defaultValue == paramDefault)
            && (paramDefault.None? && env.shapeOf(t).defaultAttr.Some? ==>
                  r.value.value.defaultValue == env.shapeOf(t).defaultAttr)
            && (paramDefault.None? && env.shapeOf(t).defaultAttr.None? ==>
                  r.value.value.defaultValue == m.defaultValue))
      && (env.shapeOf(t).EnumerableShape? ==>
            && (r.Err? <==> env.shapeOf(t).elementType.None? && t.genericArgs == [])
            && (r.Err? ==> r.error == NoElementType)
            && (r.Ok? ==>
                  && r.value.value.schemaType == Some("array")
                  && r.value.value.items == Some(env.mapPrimitive(
                       if env.shapeOf(t).elementType.Some? then env.shapeOf(t).elementType.value
                       else t.genericArgs[0]))))
  {
  }

  /** An object schema is a closed object with its component reference; `oneOf` holds the derived
      types in declaration order, `allOf` the base unless it is `object`, and the properties are the
      kept ones in order, as `PropertiesMatch` says. A member of object type is a schema that refers to
      that type's component name; a member of any other type is that type's inline schema, a property's
      given the property's default and accessor flags. */
  predicate DescribesObject(env: TypeEnv, t: ClrType, s: OpenApiSchema)
    requires env.shapeOf(t).ObjectShape?
  {
    var shape := env.shapeOf(t);
    var bases := BaseTypes(shape.baseType);
    var kept := Kept(t, shape.properties);
    && s.schemaType == Some("object") && !s.additionalPropertiesAllowed
    && s.reference == Some(GetReferenceId(t))
    && |s.oneOf| == |shape.derivedTypes|
    && (forall i :: 0 <= i < |s.oneOf| ==> MemberDescribed(env, shape.derivedTypes[i], s.oneOf[i]))
    && |s.allOf| == |bases|
    && (forall i :: 0 <= i < |s.allOf| ==> MemberDescribed(env, bases[i], s.allOf[i]))
    && s.properties.Some? && PropertiesMatch(kept, s.properties.value)
    && (forall i :: 0 <= i < |kept| ==> PropertyDescribed(env, kept[i], s.properties.value[i].schema))
  }

  /** A member of type `u` holding `s`: a reference to the component name of an object type, the inline
      schema of any other type. */
  predicate MemberDescribed(env: TypeEnv, u: ClrType, s: OpenApiSchema) {
    if env.shapeOf(u).ObjectShape? then s.reference == Some(GetReferenceId(u))
    else ResolveInline(env, u, None) == Ok(s)
  }

  /** A kept property `p` holding `s`: as `MemberDescribed` says of its type, given its default and flags. */
  predicate PropertyDescribed(env: TypeEnv, p: PropertyInfo, s: OpenApiSchema) {
    var u := p.propertyType;
    if env.shapeOf(u).ObjectShape? then s.reference == Some(GetReferenceId(u))
    else ResolveInline(env, u, None).Ok? && s == PropertySchema(p, ResolveInline(env, u, None).value)
  }

  /** After an object type `t` is resolved to `s`, the cache `final` holds `s` under `t`, and every
      member type other than `t` is cached as `MemberResolved` and `PropertyResolved` say: the derived
      and base types are each cached under their own type, and an object-typed property holds the
      cached schema of its type. */
  predicate MembersCached(env: TypeEnv, t: ClrType, s: OpenApiSchema, final: Cache)
    requires env.shapeOf(t).ObjectShape?
  {
    var shape := env.shapeOf(t);
    var bases := BaseTypes(shape.baseType);
    var kept := Kept(t, shape.properties);
    && t in final && final[t] == s
    && |s.oneOf| == |shape.derivedTypes| && |s.allOf| == |bases|
    && s.properties.Some? && |s.properties.value| == |kept|
    && (forall i :: 0 <= i < |s.oneOf| && shape.derivedTypes[i] != t ==>
          MemberResolved(env, final, shape.derivedTypes[i], s.oneOf[i]))
    && (forall i :: 0 <= i < |s.allOf| && bases[i] != t ==> MemberResolved(env, final, bases[i], s.allOf[i]))
    && (forall i :: 0 <= i < |kept| && kept[i].propertyType != t ==>
          PropertyResolved(env, final, kept[i], s.properties.value[i].schema))
  }

  /** An object type not yet cached is resolved to a schema that describes it. */
  lemma ObjectResolution(env: TypeEnv, policy: CachePolicy, cache: Cache, t: ClrType, paramDefault: Option<Literal>, fuel: nat)
    requires t !in cache && env.shapeOf(t).ObjectShape? && Referenced(env, cache)
    requires Resolve(env, policy, cache, t, paramDefault, fuel).Ok?
    ensures DescribesObject(env, t, Resolve(env, policy, cache, t, paramDefault, fuel).value.value)
    ensures var r := Resolve(env, policy, cache, t, paramDefault, fuel).value; MembersCached(env, t, r.value, r.cache)
  {
    ObjectNeedsBudget(env, policy, cache, t, paramDefault, fuel);
    ObjectBranch(env, policy, cache, t, paramDefault, fuel);
    ObjectSchemaDescribes(env, policy, cache, t, fuel);
  }

  /** An object type not yet cached resolves only with a budget. */
  lemma ObjectNeedsBudget(env: TypeEnv, policy: CachePolicy, cache: Cache, t: ClrType, paramDefault: Option<Literal>, fuel: nat)
    requires t !in cache && env.shapeOf(t).ObjectShape? && Resolve(env, policy, cache, t, paramDefault, fuel).Ok?
    ensures fuel >= 1
  {
  }

  /** What the resolver returns for an object type not yet cached is what its object branch returns. */
  lemma ObjectBranch(env: TypeEnv, policy: CachePolicy, cache: Cache, t: ClrType, paramDefault: Option<Literal>, fuel: nat)
    requires t !in cache && env.shapeOf(t).ObjectShape? && fuel >= 1
    ensures Resolve(env, policy, cache, t, paramDefault, fuel) == ResolveObject(env, policy, cache, t, fuel)
  {
  }

  lemma ObjectSchemaDescribes(env: TypeEnv, policy: CachePolicy, cache: Cache, t: ClrType, fuel: nat)
    requires t !in cache && env.shapeOf(t).ObjectShape? && fuel >= 1 && Referenced(env, cache)
    requires ResolveObject(env, policy, cache, t, fuel).Ok?
    ensures DescribesObject(env, t, ResolveObject(env, policy, cache, t, fuel).value.value)
    ensures var r := ResolveObject(env, policy, cache, t, fuel).value; MembersCached(env, t, r.value, r.cache)
  {
    var oneOf, allOf, props := ObjectStagesOk(env, policy, cache, t, fuel);
    StagesResolved(env, policy, cache, t, fuel - 1, oneOf, allOf, props);
    ObjectFromStages(env, t, ResolveObject(env, policy, cache, t, fuel).value, oneOf, allOf, props);
  }

  /** What the three stages of the object branch leave: each member resolved in the cache its stage
      left, the properties matching the kept ones, and every cache referenced and growing. */
  predicate StagesDescribed(env: TypeEnv, t: ClrType, oneOf: Resolved<seq<OpenApiSchema>>, allOf: Resolved<seq<OpenApiSchema>>,
                            props: Resolved<seq<Property>>)
    requires env.shapeOf(t).ObjectShape?
  {
    var shape := env.shapeOf(t);
    var bases := BaseTypes(shape.baseType);
    var kept := Kept(t, shape.properties);
    && Referenced(env, props.cache) && Grows(env, oneOf.cache, allOf.cache) && Grows(env, allOf.cache, props.cache)
    && |oneOf.value| == |shape.derivedTypes|
    && (forall i :: 0 <= i < |shape.derivedTypes| ==> MemberResolved(env, oneOf.cache, shape.derivedTypes[i], oneOf.value[i]))
    && |allOf.value| == |bases|
    && (forall i :: 0 <= i < |bases| ==> MemberResolved(env, allOf.cache, bases[i], allOf.value[i]))
    && PropertiesMatch(kept, props.value) && |props.value| == |kept|
    && (forall i :: 0 <= i < |kept| ==> PropertyResolved(env, props.cache, kept[i], props.value[i].schema))
  }

  /** The stages of the object branch, run from a referenced cache, leave what `StagesDescribed` says. */
  lemma StagesResolved(env: TypeEnv, policy: CachePolicy, cache: Cache, t: ClrType, below: nat,
                       oneOf: Resolved<seq<OpenApiSchema>>, allOf: Resolved<seq<OpenApiSchema>>, props: Resolved<seq<Property>>)
    requires Referenced(env, cache) && env.shapeOf(t).ObjectShape?
    requires ResolveAll(env, policy, Start(policy, cache, t), env.shapeOf(t).derivedTypes, below) == Ok(oneOf)
    requires ResolveAll(env, policy, oneOf.cache, BaseTypes(env.shapeOf(t).baseType), below) == Ok(allOf)
    requires ResolveProperties(env, policy, allOf.cache, t, env.shapeOf(t).properties, below) == Ok(props)
    ensures StagesDescribed(env, t, oneOf, allOf, props)
  {
    var shape := env.shapeOf(t);
    var start := Start(policy, cache, t);
    StartReferenced(env, policy, cache, t);
    GrowsReferenced(env, start, oneOf.cache);
    GrowsReferenced(env, oneOf.cache, allOf.cache);
    GrowsReferenced(env, allOf.cache, props.cache);
    AllCached(env, policy, start, shape.derivedTypes, below);
    AllCached(env, policy, oneOf.cache, BaseTypes(shape.baseType), below);
    PropertiesResolved(env, policy, allOf.cache, t, shape.properties, below);
  }

  /** The object schema built from stages whose members are resolved in the caches they left describes
      the object, and is stored over them. */
  lemma ObjectFromStages(env: TypeEnv, t: ClrType, r: Resolved<OpenApiSchema>,
                         oneOf: Resolved<seq<OpenApiSchema>>, allOf: Resolved<seq<OpenApiSchema>>, props: Resolved<seq<Property>>)
    requires env.shapeOf(t).ObjectShape?
    requires var schema := ObjectSchema(t, oneOf.value, allOf.value, props.value);
      r == Resolved(schema, props.cache[t := schema])
    requires StagesDescribed(env, t, oneOf, allOf, props)
    ensures DescribesObject(env, t, r.value) && MembersCached(env, t, r.value, r.cache)
  {
    var shape := env.shapeOf(t);
    var schema := ObjectSchema(t, oneOf.value, allOf.value, props.value);
    GrowsTrans(env, oneOf.cache, allOf.cache, props.cache);
    MembersAcross(env, shape.derivedTypes, oneOf.value, oneOf.cache, props.cache, t, schema);
    MembersAcross(env, BaseTypes(shape.baseType), allOf.value, allOf.cache, props.cache, t, schema);
    PropertiesAcross(env, Kept(t, shape.properties), props.value, props.cache, t, schema);
  }

  /** The placeholder refers to its type's component name, so the cache the members see stays referenced. */
  lemma StartReferenced(env: TypeEnv, policy: CachePolicy, cache: Cache, t: ClrType)
    requires Referenced(env, cache) && env.shapeOf(t).ObjectShape?
    ensures Referenced(env, Start(policy, cache, t))
  {
  }

  /** An object branch that succeeds has succeeded in each of its stages, and returns what they built. */
  lemma ObjectStagesOk(env: TypeEnv, policy: CachePolicy, cache: Cache, t: ClrType, fuel: nat)
    returns (oneOf: Resolved<seq<OpenApiSchema>>, allOf: Resolved<seq<OpenApiSchema>>, props: Resolved<seq<Property>>)
    requires t !in cache && env.shapeOf(t).ObjectShape? && fuel >= 1
    requires ResolveObject(env, policy, cache, t, fuel).Ok?
    ensures ResolveAll(env, policy, Start(policy, cache, t), env.shapeOf(t).derivedTypes, fuel - 1) == Ok(oneOf)
    ensures ResolveAll(env, policy, oneOf.cache, BaseTypes(env.shapeOf(t).baseType), fuel - 1) == Ok(allOf)
    ensures ResolveProperties(env, policy, allOf.cache, t, env.shapeOf(t).properties, fuel - 1) == Ok(props)
    ensures var schema := ObjectSchema(t, oneOf.value, allOf.value, props.value);
      ResolveObject(env, policy, cache, t, fuel) == Ok(Resolved(schema, props.cache[t := schema]))
  {
    var shape := env.shapeOf(t);
    var below := fuel - 1;
    var first := ResolveAll(env, policy, Start(policy, cache, t), shape.derivedTypes, below);
    if first.Err? {
      ObjectFailsInDerived(env, policy, cache, t, fuel);
      assert false;
    }
    oneOf := first.value;
    var second := ResolveAll(env, policy, oneOf.cache, BaseTypes(shape.baseType), below);
    if second.Err? {
      ObjectFailsInBase(env, policy, cache, t, fuel, oneOf);
      assert false;
    }
    allOf := second.value;
    var third := ResolveProperties(env, policy, allOf.cache, t, shape.properties, below);
    if third.Err? {
      ObjectFailsInProperties(env, policy, cache, t, fuel, oneOf, allOf);
      assert false;
    }
    props := third.value;
    ObjectSucceeds(env, policy, cache, t, fuel, oneOf, allOf, props);
  }

  /** Members resolved in the cache `mid` keep what they left in a cache `c` that grows from it, and
      in `c` with the object `t` stored last. */
  lemma MembersAcross(env: TypeEnv, ts: seq<ClrType>, schemas: seq<OpenApiSchema>, mid: Cache, c: Cache, t: ClrType, s: OpenApiSchema)
    requires |schemas| == |ts| && Grows(env, mid, c) && Referenced(env, c)
    requires forall i :: 0 <= i < |ts| ==> MemberResolved(env, mid, ts[i], schemas[i])
    ensures forall i :: 0 <= i < |ts| ==> MemberDescribed(env, ts[i], schemas[i])
    ensures forall i :: 0 <= i < |ts| && ts[i] != t ==> MemberResolved(env, c[t := s], ts[i], schemas[i])
  {
    forall i | 0 <= i < |ts| ensures MemberResolved(env, c, ts[i], schemas[i]) {
      MemberGrows(env, mid, c, ts[i], schemas[i]);
    }
  }

  /** Properties resolved in the cache `c` are described by their types, and keep what they left in `c`
      with the object `t` stored last. */
  lemma PropertiesAcross(env: TypeEnv, kept: seq<PropertyInfo>, props: seq<Property>, c: Cache, t: ClrType, s: OpenApiSchema)
    requires |props| == |kept| && Referenced(env, c)
    requires forall i :: 0 <= i < |kept| ==> PropertyResolved(env, c, kept[i], props[i].schema)
    ensures forall i :: 0 <= i < |kept| ==> PropertyDescribed(env, kept[i], props[i].schema)
    ensures forall i :: 0 <= i < |kept| && kept[i].propertyType != t ==> PropertyResolved(env, c[t := s], kept[i], props[i].schema)
  {
  }

  /** Resolving a sequence whose first type fails fails the same way. */
  lemma {:induction false} FirstFailure(env: TypeEnv, policy: CachePolicy, cache: Cache, ts: seq<ClrType>, fuel: nat)
    requires ts != [] && Resolve(env, policy, cache, ts[0], None, fuel).Err?
    ensures ResolveAll(env, policy, cache, ts, fuel) == Err(Resolve(env, policy, cache, ts[0], None, fuel).error)
  {
    if |ts| > 1 {
      FirstFailure(env, policy, cache, ts[..|ts| - 1], fuel);
    }
  }

  /** The resolver body caches an object only after resolving its members. A polymorphic base whose
      first derived type has it as its base, as `Shape` and `Triangle` in the tests, is therefore
      resolved again and again: no budget is enough. */
  lemma {:induction false} PolymorphicBaseDiverges(env: TypeEnv, cache: Cache, b: ClrType, d: ClrType, paramDefault: Option<Literal>, fuel: nat)
    requires env.shapeOf(b).ObjectShape? && |env.shapeOf(b).derivedTypes| > 0 && env.shapeOf(b).derivedTypes[0] == d
    requires env.shapeOf(d).ObjectShape? && env.shapeOf(d).derivedTypes == [] && env.shapeOf(d).baseType == Some(b)
    requires b != ObjectType && b !in cache && d !in cache
    ensures Resolve(env, AfterRecursion, cache, b, paramDefault, fuel) == Err(Diverged)
    decreases fuel, 1
  {
    if fuel > 0 {
      var below := fuel - 1;
      DerivedDiverges(env, cache, b, d, below);
      FirstFailure(env, AfterRecursion, cache, env.shapeOf(b).derivedTypes, below);
      DerivedFailureFails(env, cache, b, paramDefault, fuel);
    }
  }

  /** The derived type of such a base diverges too, since it resolves its base again. */
  lemma {:induction false} DerivedDiverges(env: TypeEnv, cache: Cache, b: ClrType, d: ClrType, fuel: nat)
    requires env.shapeOf(b).ObjectShape? && |env.shapeOf(b).derivedTypes| > 0 && env.shapeOf(b).derivedTypes[0] == d
    requires env.shapeOf(d).ObjectShape? && env.shapeOf(d).derivedTypes == [] && env.shapeOf(d).baseType == Some(b)
    requires b != ObjectType && b !in cache && d !in cache
    ensures Resolve(env, AfterRecursion, cache, d, None, fuel) == Err(Diverged)
    decreases fuel, 0
  {
    if fuel > 0 {
      var below := fuel - 1;
      PolymorphicBaseDiverges(env, cache, b, d, None, below);
      FirstFailure(env, AfterRecursion, cache, [b], below);
      BaseFailureFails(env, cache, d, fuel);
    }
  }

  /** Under the resolver body, an object type whose derived types fail fails the same way. */
  lemma DerivedFailureFails(env: TypeEnv, cache: Cache, t: ClrType, paramDefault: Option<Literal>, fuel: nat)
    requires t !in cache && env.shapeOf(t).ObjectShape? && fuel >= 1
    requires ResolveAll(env, AfterRecursion, cache, env.shapeOf(t).derivedTypes, fuel - 1) == Err(Diverged)
    ensures Resolve(env, AfterRecursion, cache, t, paramDefault, fuel) == Err(Diverged)
  {
  }

  /** Under the resolver body, an object type without derived types whose base fails fails the same way. */
  lemma BaseFailureFails(env: TypeEnv, cache: Cache, t: ClrType, fuel: nat)
    requires t !in cache && env.shapeOf(t).ObjectShape? && env.shapeOf(t).derivedTypes == [] && fuel >= 1
    requires ResolveAll(env, AfterRecursion, cache, BaseTypes(env.shapeOf(t).baseType), fuel - 1) == Err(Diverged)
    ensures Resolve(env, AfterRecursion, cache, t, None, fuel) == Err(Diverged)
  {
  }

  /** The universe lists every type an object type of it leads the resolver to. */
  ghost predicate Closed(env: TypeEnv, universe: seq<ClrType>) {
    forall x :: x in universe && env.shapeOf(x).ObjectShape? ==>
      && (forall d :: d in env.shapeOf(x).derivedTypes ==> d in universe)
      && (forall b :: b in BaseTypes(env.shapeOf(x).baseType) ==> b in universe)
      && (forall p :: p in env.shapeOf(x).properties ==> p.propertyType in universe)
  }

  /** How many entries of the universe are not cached yet. */
  function Left(universe: seq<ClrType>, cache: Cache): (n: nat)
    ensures n <= |universe|
  {
    if universe == [] then 0
    else Left(universe[..|universe| - 1], cache) + (if universe[|universe| - 1] in cache then 0 else 1)
  }

  /** Fewer types are left when more are cached. */
  lemma {:induction false} LeftShrinks(universe: seq<ClrType>, c: Cache, d: Cache)
    requires forall k :: k in c ==> k in d
    ensures Left(universe, d) <= Left(universe, c)
  {
    if universe != [] {
      LeftShrinks(universe[..|universe| - 1], c, d);
    }
  }

  /** Caching a type of the universe leaves fewer types to cache. */
  lemma {:induction false} LeftDrops(universe: seq<ClrType>, cache: Cache, t: ClrType, s: OpenApiSchema)
    requires t in universe && t !in cache
    ensures Left(universe, cache[t := s]) < Left(universe, cache)
  {
    var init := universe[..|universe| - 1];
    LeftShrinks(init, cache, cache[t := s]);
    if universe[|universe| - 1] != t {
      LeftDrops(init, cache, t, s);
    }
  }

  /** With the cache entry made before the members are resolved, resolution within a closed universe
      of types never runs out of a budget of one level per type not yet cached. */
  lemma {:induction false} ResolveTerminates(env: TypeEnv, cache: Cache, t: ClrType, paramDefault: Option<Literal>, fuel: nat, universe: seq<ClrType>)
    requires Closed(env, universe) && t in universe && fuel >= Left(universe, cache)
    ensures Resolve(env, BeforeRecursion, cache, t, paramDefault, fuel) != Err(Diverged)
    decreases fuel, 1, 0
  {
    if t !in cache && env.shapeOf(t).ObjectShape? {
      LeftDrops(universe, cache, t, Placeholder(t));
      ObjectTerminates(env, cache, t, fuel, universe);
      ObjectBranch(env, BeforeRecursion, cache, t, paramDefault, fuel);
    } else {
      OnlyObjectsDiverge(env, BeforeRecursion, cache, t, paramDefault, fuel);
    }
  }

  /** From an empty cache, as many levels as the universe has types are enough. */
  lemma ClosedResolutionTerminates(env: TypeEnv, t: ClrType, paramDefault: Option<Literal>, universe: seq<ClrType>)
    requires Closed(env, universe) && t in universe
    ensures Resolve(env, BeforeRecursion, map[], t, paramDefault, |universe|) != Err(Diverged)
  {
    ResolveTerminates(env, map[], t, paramDefault, |universe|, universe);
  }

  lemma {:induction false} ObjectTerminates(env: TypeEnv, cache: Cache, t: ClrType, fuel: nat, universe: seq<ClrType>)
    requires t !in cache && env.shapeOf(t).ObjectShape? && fuel >= 1
    requires Closed(env, universe) && t in universe && fuel - 1 >= Left(universe, cache[t := Placeholder(t)])
    ensures ResolveObject(env, BeforeRecursion, cache, t, fuel) != Err(Diverged)
    decreases fuel, 0, 1
  {
    var below := fuel - 1;
    ObjectStages(env, BeforeRecursion, cache, t, fuel);
    StagesTerminate(env, cache, t, below, universe);
  }

  /** The object branch with cache `start`: derived types, base, properties, as `ResolveObject` runs them
      with the budget `below`; the branch runs out of budget only when one of them does. */
  predicate StagesDiverge(env: TypeEnv, policy: CachePolicy, start: Cache, t: ClrType, below: nat)
    requires env.shapeOf(t).ObjectShape?
  {
    var shape := env.shapeOf(t);
    var oneOf := ResolveAll(env, policy, start, shape.derivedTypes, below);
    || oneOf == Err(Diverged)
    || (oneOf.Ok? &&
          var allOf := ResolveAll(env, policy, oneOf.value.cache, BaseTypes(shape.baseType), below);
          || allOf == Err(Diverged)
          || (allOf.Ok? && ResolveProperties(env, policy, allOf.value.cache, t, shape.properties, below) == Err(Diverged)))
  }

  /** The object branch runs out of budget only in one of its stages. */
  lemma ObjectStages(env: TypeEnv, policy: CachePolicy, cache: Cache, t: ClrType, fuel: nat)
    requires t !in cache && env.shapeOf(t).ObjectShape? && fuel >= 1
    ensures ResolveObject(env, policy, cache, t, fuel) == Err(Diverged) ==>
      StagesDiverge(env, policy, Start(policy, cache, t), t, fuel - 1)
  {
  }

  lemma {:induction false} StagesTerminate(env: TypeEnv, cache: Cache, t: ClrType, below: nat, universe: seq<ClrType>)
    requires t !in cache && env.shapeOf(t).ObjectShape?
    requires Closed(env, universe) && t in universe && below >= Left(universe, cache[t := Placeholder(t)])
    ensures !StagesDiverge(env, BeforeRecursion, cache[t := Placeholder(t)], t, below)
    decreases below + 1, 0, 0
  {
    var shape := env.shapeOf(t);
    var start := cache[t := Placeholder(t)];
    AllTerminates(env, start, shape.derivedTypes, below, universe);
    var oneOf := ResolveAll(env, BeforeRecursion, start, shape.derivedTypes, below);
    if oneOf.Ok? {
      LeftShrinks(universe, start, oneOf.value.cache);
      AllTerminates(env, oneOf.value.cache, BaseTypes(shape.baseType), below, universe);
      var allOf := ResolveAll(env, BeforeRecursion, oneOf.value.cache, BaseTypes(shape.baseType), below);
      if allOf.Ok? {
        LeftShrinks(universe, oneOf.value.cache, allOf.value.cache);
        PropertiesTerminate(env, allOf.value.cache, t, shape.properties, below, universe);
      }
    }
  }

  lemma {:induction false} AllTerminates(env: TypeEnv, cache: Cache, ts: seq<ClrType>, fuel: nat, universe: seq<ClrType>)
    requires Closed(env, universe) && (forall x :: x in ts ==> x in universe)
    requires fuel >= Left(universe, cache)
    ensures ResolveAll(env, BeforeRecursion, cache, ts, fuel) != Err(Diverged)
    decreases fuel, 2, |ts|
  {
    if ts != [] {
      AllTerminates(env, cache, ts[..|ts| - 1], fuel, universe);
      var init := ResolveAll(env, BeforeRecursion, cache, ts[..|ts| - 1], fuel);
      if init.Ok? {
        LeftShrinks(universe, cache, init.value.cache);
        ResolveTerminates(env, init.value.cache, ts[|ts| - 1], None, fuel, universe);
      }
    }
  }

  lemma {:induction false} PropertiesTerminate(env: TypeEnv, cache: Cache, t: ClrType, ps: seq<PropertyInfo>, fuel: nat, universe: seq<ClrType>)
    requires Closed(env, universe) && (forall p :: p in ps ==> p.propertyType in universe)
    requires fuel >= Left(universe, cache)
    ensures ResolveProperties(env, BeforeRecursion, cache, t, ps, fuel) != Err(Diverged)
    decreases fuel, 2, |ps|
  {
    if ps != [] {
      PropertiesTerminate(env, cache, t, ps[..|ps| - 1], fuel, universe);
      var init := ResolveProperties(env, BeforeRecursion, cache, t, ps[..|ps| - 1], fuel);
      if init.Ok? && !Skipped(t, ps[|ps| - 1]) {
        LeftShrinks(universe, cache, init.value.cache);
        ResolveTerminates(env, init.value.cache, ps[|ps| - 1].propertyType, None, fuel, universe);
      }
      PropertyStep(env, BeforeRecursion, cache, t, ps, fuel);
    }
  }

  /** Only an object type not yet cached can run out of budget. */
  lemma OnlyObjectsDiverge(env: TypeEnv, policy: CachePolicy, cache: Cache, t: ClrType, paramDefault: Option<Literal>, fuel: nat)
    requires t in cache || !env.shapeOf(t).ObjectShape?
    ensures Resolve(env, policy, cache, t, paramDefault, fuel) != Err(Diverged)
  {
  }

  /** The property loop runs out of budget only where the earlier properties or the last one do. */
  lemma PropertyStep(env: TypeEnv, policy: CachePolicy, cache: Cache, t: ClrType, ps: seq<PropertyInfo>, fuel: nat)
    requires ps != []
    ensures var init := ResolveProperties(env, policy, cache, t, ps[..|ps| - 1], fuel);
      ResolveProperties(env, policy, cache, t, ps, fuel) == Err(Diverged) ==>
        init == Err(Diverged)
        || (init.Ok? && !Skipped(t, ps[|ps| - 1])
            && Resolve(env, policy, init.value.cache, ps[|ps| - 1].propertyType, None, fuel) == Err(Diverged))
  {
  }

  /** The method's outcome is the resolver's: the same value or the same error, and on success the cache
      the resolver leaves. */
  predicate Agrees<T(==)>(r: Result<T, ResolveError>, spec: Result<Resolved<T>, ResolveError>, cache: Cache) {
    match spec
    case Ok(res) => r == Ok(res.value) && cache == res.cache
    case Err(e) => r == Err(e)
  }

  /** One more type resolved in the left-to-right resolution of a sequence. */
  lemma AllStep(env: TypeEnv, policy: CachePolicy, cache: Cache, ts: seq<ClrType>, fuel: nat, i: nat, init: Resolved<seq<OpenApiSchema>>)
    requires i < |ts| && ResolveAll(env, policy, cache, ts[..i], fuel) == Ok(init)
    ensures ResolveAll(env, policy, cache, ts[..i + 1], fuel) ==
      var last := Resolve(env, policy, init.cache, ts[i], None, fuel);
      if last.Err? then Err(last.error) else Ok(Resolved(init.value + [last.value.value], last.value.cache))
  {
    assert ts[..i + 1][..i] == ts[..i];
  }

  /** A failure on a prefix is the failure of the whole sequence. */
  lemma {:induction false} AllPrefixFails(env: TypeEnv, policy: CachePolicy, cache: Cache, ts: seq<ClrType>, fuel: nat, j: nat)
    requires j <= |ts| && ResolveAll(env, policy, cache, ts[..j], fuel).Err?
    ensures ResolveAll(env, policy, cache, ts, fuel) == ResolveAll(env, policy, cache, ts[..j], fuel)
  {
    if j < |ts| {
      var init := ts[..|ts| - 1];
      assert init[..j] == ts[..j];
      AllPrefixFails(env, policy, cache, init, fuel, j);
    } else {
      assert ts[..j] == ts;
    }
  }

  /** A property declared elsewhere adds nothing to the property loop. */
  lemma PropertiesSkip(env: TypeEnv, policy: CachePolicy, cache: Cache, t: ClrType, ps: seq<PropertyInfo>, i: nat, fuel: nat)
    requires i < |ps| && Skipped(t, ps[i])
    ensures ResolveProperties(env, policy, cache, t, ps[..i + 1], fuel) == ResolveProperties(env, policy, cache, t, ps[..i], fuel)
  {
    assert ps[..i + 1][..i] == ps[..i];
  }

  /** A kept property is resolved against the cache the earlier ones left and added under its name. */
  lemma PropertiesKeep(env: TypeEnv, policy: CachePolicy, cache: Cache, t: ClrType, ps: seq<PropertyInfo>, i: nat, fuel: nat,
                       init: Resolved<seq<Property>>)
    requires i < |ps| && !Skipped(t, ps[i]) && ResolveProperties(env, policy, cache, t, ps[..i], fuel) == Ok(init)
    ensures ResolveProperties(env, policy, cache, t, ps[..i + 1], fuel) ==
      var inner := Resolve(env, policy, init.cache, ps[i].propertyType, None, fuel);
      if inner.Err? then Err(inner.error)
      else if ps[i].name in PropertyNames(init.value) then Err(DuplicateProperty(ps[i].name))
      else Ok(Resolved(init.value + [Property(ps[i].name, PropertySchema(ps[i], inner.value.value))], inner.value.cache))
  {
    assert ps[..i + 1][..i] == ps[..i];
  }

  /** A failure on a prefix of the properties is the failure of the whole loop. */
  lemma {:induction false} PropertiesPrefixFails(env: TypeEnv, policy: CachePolicy, cache: Cache, t: ClrType, ps: seq<PropertyInfo>, fuel: nat, j: nat)
    requires j <= |ps| && ResolveProperties(env, policy, cache, t, ps[..j], fuel).Err?
    ensures ResolveProperties(env, policy, cache, t, ps, fuel) == ResolveProperties(env, policy, cache, t, ps[..j], fuel)
  {
    if j < |ps| {
      var init := ps[..|ps| - 1];
      assert init[..j] == ps[..j];
      PropertiesPrefixFails(env, policy, cache, t, init, fuel, j);
    } else {
      assert ps[..j] == ps;
    }
  }

  /** The object branch fails where resolving the derived types fails. */
  lemma ObjectFailsInDerived(env: TypeEnv, policy: CachePolicy, cache: Cache, t: ClrType, fuel: nat)
    requires t !in cache && env.shapeOf(t).ObjectShape? && fuel >= 1
    requires ResolveAll(env, policy, Start(policy, cache, t), env.shapeOf(t).derivedTypes, fuel - 1).Err?
    ensures ResolveObject(env, policy, cache, t, fuel) ==
      Err(ResolveAll(env, policy, Start(policy, cache, t), env.shapeOf(t).derivedTypes, fuel - 1).error)
  {
  }

  /** The object branch fails where resolving the base fails. */
  lemma ObjectFailsInBase(env: TypeEnv, policy: CachePolicy, cache: Cache, t: ClrType, fuel: nat, oneOf: Resolved<seq<OpenApiSchema>>)
    requires t !in cache && env.shapeOf(t).ObjectShape? && fuel >= 1
    requires ResolveAll(env, policy, Start(policy, cache, t), env.shapeOf(t).derivedTypes, fuel - 1) == Ok(oneOf)
    requires ResolveAll(env, policy, oneOf.cache, BaseTypes(env.shapeOf(t).baseType), fuel - 1).Err?
    ensures ResolveObject(env, policy, cache, t, fuel) ==
      Err(ResolveAll(env, policy, oneOf.cache, BaseTypes(env.shapeOf(t).baseType), fuel - 1).error)
  {
  }

  /** The object branch fails where the property loop fails. */
  lemma ObjectFailsInProperties(env: TypeEnv, policy: CachePolicy, cache: Cache, t: ClrType, fuel: nat,
                                oneOf: Resolved<seq<OpenApiSchema>>, allOf: Resolved<seq<OpenApiSchema>>)
    requires t !in cache && env.shapeOf(t).ObjectShape? && fuel >= 1
    requires ResolveAll(env, policy, Start(policy, cache, t), env.shapeOf(t).derivedTypes, fuel - 1) == Ok(oneOf)
    requires ResolveAll(env, policy, oneOf.cache, BaseTypes(env.shapeOf(t).baseType), fuel - 1) == Ok(allOf)
    requires ResolveProperties(env, policy, allOf.cache, t, env.shapeOf(t).properties, fuel - 1).Err?
    ensures ResolveObject(env, policy, cache, t, fuel) ==
      Err(ResolveProperties(env, policy, allOf.cache, t, env.shapeOf(t).properties, fuel - 1).error)
  {
  }

  /** When every stage succeeds, the object schema is built from them and cached. */
  lemma ObjectSucceeds(env: TypeEnv, policy: CachePolicy, cache: Cache, t: ClrType, fuel: nat,
                       oneOf: Resolved<seq<OpenApiSchema>>, allOf: Resolved<seq<OpenApiSchema>>, props: Resolved<seq<Property>>)
    requires t !in cache && env.shapeOf(t).ObjectShape? && fuel >= 1
    requires ResolveAll(env, policy, Start(policy, cache, t), env.shapeOf(t).derivedTypes, fuel - 1) == Ok(oneOf)
    requires ResolveAll(env, policy, oneOf.cache, BaseTypes(env.shapeOf(t).baseType), fuel - 1) == Ok(allOf)
    requires ResolveProperties(env, policy, allOf.cache, t, env.shapeOf(t).properties, fuel - 1) == Ok(props)
    ensures var schema := ObjectSchema(t, oneOf.value, allOf.value, props.value);
      ResolveObject(env, policy, cache, t, fuel) == Ok(Resolved(schema, props.cache[t := schema]))
  {
  }

  /** A kept property whose type is already cached holds the cached schema, given the property's
      default and accessor flags. */
  lemma {:induction false} PropertiesOfCached(env: TypeEnv, policy: CachePolicy, cache: Cache, t: ClrType, ps: seq<PropertyInfo>,
                                              fuel: nat, u: ClrType)
    requires u in cache && ResolveProperties(env, policy, cache, t, ps, fuel).Ok?
    ensures var props := ResolveProperties(env, policy, cache, t, ps, fuel).value.value; var kept := Kept(t, ps);
      |props| == |kept| &&
      forall i :: 0 <= i < |kept| && kept[i].propertyType == u ==> props[i].schema == PropertySchema(kept[i], cache[u])
  {
    if ps != [] {
      var init, p := ps[..|ps| - 1], ps[|ps| - 1];
      var kept0 := Kept(t, init);
      assert Kept(t, ps) == kept0 + (if Skipped(t, p) then [] else [p]);
      PropertiesOfCached(env, policy, cache, t, init, fuel, u);
      var before := ResolveProperties(env, policy, cache, t, init, fuel).value;
      if !Skipped(t, p) {
        var inner := Resolve(env, policy, before.cache, p.propertyType, None, fuel).value;
        var props := before.value + [Property(p.name, PropertySchema(p, inner.value))];
        assert ResolveProperties(env, policy, cache, t, ps, fuel).value.value == props;
        forall i | 0 <= i < |kept0| + 1 && (kept0 + [p])[i].propertyType == u
          ensures props[i].schema == PropertySchema((kept0 + [p])[i], cache[u])
        {
          if i == |kept0| {
            assert inner.value == cache[u];
          } else {
            assert props[i] == before.value[i];
          }
        }
      }
    }
  }

  /** With the cache entry made before the members are resolved, a property of an object type that has
      the type itself as its type is a reference to the type's component name: it holds the placeholder,
      not a second copy of the schema. */
  lemma RecursiveReference(env: TypeEnv, cache: Cache, t: ClrType, paramDefault: Option<Literal>, fuel: nat)
    requires t !in cache && env.shapeOf(t).ObjectShape?
    requires Resolve(env, BeforeRecursion, cache, t, paramDefault, fuel).Ok?
    ensures var s := Resolve(env, BeforeRecursion, cache, t, paramDefault, fuel).value.value;
      var kept := Kept(t, env.shapeOf(t).properties);
      && s.properties.Some? && |s.properties.value| == |kept|
      && forall i :: 0 <= i < |kept| && kept[i].propertyType == t ==>
           && s.properties.value[i].schema == PropertySchema(kept[i], Placeholder(t))
           && s.properties.value[i].schema.reference == Some(GetReferenceId(t))
  {
    ObjectNeedsBudget(env, BeforeRecursion, cache, t, paramDefault, fuel);
    ObjectBranch(env, BeforeRecursion, cache, t, paramDefault, fuel);
    var shape := env.shapeOf(t);
    var below := fuel - 1;
    var start := Start(BeforeRecursion, cache, t);
    var oneOf := ResolveAll(env, BeforeRecursion, start, shape.derivedTypes, below).value;
    var allOf := ResolveAll(env, BeforeRecursion, oneOf.cache, BaseTypes(shape.baseType), below).value;
    var props := ResolveProperties(env, BeforeRecursion, allOf.cache, t, shape.properties, below).value;
    ObjectSucceeds(env, BeforeRecursion, cache, t, fuel, oneOf, allOf, props);
    assert allOf.cache[t] == Placeholder(t);
    PropertiesOfCached(env, BeforeRecursion, allOf.cache, t, shape.properties, below, t);
  }

  /** What resolving a member type `u` to the schema `s` leaves in the cache `final`: an object type is
      cached with that schema; any other type is built inline, whatever the cache holds. */
  predicate MemberResolved(env: TypeEnv, final: Cache, u: ClrType, s: OpenApiSchema) {
    if env.shapeOf(u).ObjectShape? then u in final && final[u] == s
    else ResolveInline(env, u, None) == Ok(s)
  }

  /** What a kept property `p` holding the schema `s` leaves in the cache `final`: the schema of its type,
      as `MemberResolved` says, given the property's default and accessor flags. */
  predicate PropertyResolved(env: TypeEnv, final: Cache, p: PropertyInfo, s: OpenApiSchema) {
    var u := p.propertyType;
    if env.shapeOf(u).ObjectShape? then u in final && s == PropertySchema(p, final[u])
    else ResolveInline(env, u, None).Ok? && s == PropertySchema(p, ResolveInline(env, u, None).value)
  }

  /** In a referenced cache, a member type resolves to what its kind dictates. */
  lemma MemberStep(env: TypeEnv, policy: CachePolicy, cache: Cache, u: ClrType, fuel: nat)
    requires Referenced(env, cache) && Resolve(env, policy, cache, u, None, fuel).Ok?
    ensures var r := Resolve(env, policy, cache, u, None, fuel).value;
      MemberResolved(env, r.cache, u, r.value)
  {
  }

  /** A cache that grows keeps what a member left in it. */
  lemma MemberGrows(env: TypeEnv, c: Cache, d: Cache, u: ClrType, s: OpenApiSchema)
    requires Grows(env, c, d) && MemberResolved(env, c, u, s)
    ensures MemberResolved(env, d, u, s)
  {
  }

  /** A cache that grows keeps what a property left in it. */
  lemma PropertyGrows(env: TypeEnv, c: Cache, d: Cache, p: PropertyInfo, s: OpenApiSchema)
    requires Grows(env, c, d) && PropertyResolved(env, c, p, s)
    ensures PropertyResolved(env, d, p, s)
  {
  }

  /** Every type of a sequence resolved in a referenced cache ends up as its kind dictates: the object
      types cached with the schemas returned for them, the others built inline. */
  lemma {:induction false} AllCached(env: TypeEnv, policy: CachePolicy, cache: Cache, ts: seq<ClrType>, fuel: nat)
    requires Referenced(env, cache) && ResolveAll(env, policy, cache, ts, fuel).Ok?
    ensures var r := ResolveAll(env, policy, cache, ts, fuel).value;
      forall i :: 0 <= i < |ts| ==> MemberResolved(env, r.cache, ts[i], r.value[i])
  {
    if ts != [] {
      var init := ResolveAll(env, policy, cache, ts[..|ts| - 1], fuel).value;
      AllCached(env, policy, cache, ts[..|ts| - 1], fuel);
      GrowsReferenced(env, cache, init.cache);
      var last := Resolve(env, policy, init.cache, ts[|ts| - 1], None, fuel).value;
      MemberStep(env, policy, init.cache, ts[|ts| - 1], fuel);
      var r := ResolveAll(env, policy, cache, ts, fuel).value;
      assert r == Resolved(init.value + [last.value], last.cache);
      forall i | 0 <= i < |ts| ensures MemberResolved(env, r.cache, ts[i], r.value[i]) {
        if i < |ts| - 1 {
          assert ts[i] == ts[..|ts| - 1][i];
          MemberGrows(env, init.cache, last.cache, ts[i], init.value[i]);
        }
      }
    }
  }

  /** Every kept property of a loop run in a referenced cache holds the schema of its type: an object
      type's cached schema, another type's inline schema, given the property's default and flags. */
  lemma {:induction false} PropertiesResolved(env: TypeEnv, policy: CachePolicy, cache: Cache, t: ClrType, ps: seq<PropertyInfo>, fuel: nat)
    requires Referenced(env, cache) && ResolveProperties(env, policy, cache, t, ps, fuel).Ok?
    ensures var r := ResolveProperties(env, policy, cache, t, ps, fuel).value; var kept := Kept(t, ps);
      |r.value| == |kept| && forall i :: 0 <= i < |kept| ==> PropertyResolved(env, r.cache, kept[i], r.value[i].schema)
  {
    if ps != [] {
      var init, p := ps[..|ps| - 1], ps[|ps| - 1];
      var kept0 := Kept(t, init);
      assert Kept(t, ps) == kept0 + (if Skipped(t, p) then [] else [p]);
      PropertiesResolved(env, policy, cache, t, init, fuel);
      var before := ResolveProperties(env, policy, cache, t, init, fuel).value;
      if !Skipped(t, p) {
        GrowsReferenced(env, cache, before.cache);
        var inner := Resolve(env, policy, before.cache, p.propertyType, None, fuel).value;
        MemberStep(env, policy, before.cache, p.propertyType, fuel);
        var r := ResolveProperties(env, policy, cache, t, ps, fuel).value;
        assert r == Resolved(before.value + [Property(p.name, PropertySchema(p, inner.value))], inner.cache);
        forall i | 0 <= i < |kept0| + 1
          ensures PropertyResolved(env, inner.cache, (kept0 + [p])[i], r.value[i].schema)
        {
          if i < |kept0| {
            assert r.value[i] == before.value[i];
            PropertyGrows(env, before.cache, inner.cache, kept0[i], before.value[i].schema);
          }
        }
      }
    }
  }

  /** The two error kinds of `GetOpenApiComponents`. */
  datatype ComponentError = DuplicateComponent(id: string)

  /** Two different cached types share a component name. */
  predicate Collide(cache: Cache, a: ClrType, b: ClrType) {
    a in cache && b in cache && a != b && GetReferenceId(a) == GetReferenceId(b)
  }

  /** `components` holds exactly one entry per cached type, under its component name. */
  predicate ComponentsOf(cache: Cache, components: map<string, OpenApiSchema>) {
    Collected(cache, cache.Keys, components)
  }

  /** The loop of `GetOpenApiComponents` after the types `done`: their schemas under their names, no
      other entry, and no two of them with one name. */
  predicate Collected(cache: Cache, done: set<ClrType>, components: map<string, OpenApiSchema>) {
    && done <= cache.Keys
    && (forall k :: k in done ==> GetReferenceId(k) in components && components[GetReferenceId(k)] == cache[k])
    && (forall id :: id in components ==> exists k :: k in done && GetReferenceId(k) == id)
    && (forall a, b :: a in done && b in done && a != b ==> GetReferenceId(a) != GetReferenceId(b))
  }

  /** Adding a type whose name is new keeps the collection right. */
  lemma CollectStep(cache: Cache, done: set<ClrType>, components: map<string, OpenApiSchema>, k: ClrType)
    requires Collected(cache, done, components) && k in cache && GetReferenceId(k) !in components
    ensures Collected(cache, done + {k}, components[GetReferenceId(k) := cache[k]])
  {
    var id := GetReferenceId(k);
    var next := components[id := cache[k]];
    forall j | j in done + {k} ensures GetReferenceId(j) in next && next[GetReferenceId(j)] == cache[j] {
      if j != k {
        assert GetReferenceId(j) in components;
      }
    }
    forall n | n in next ensures exists j :: j in done + {k} && GetReferenceId(j) == n {
      if n != id {
        var j :| j in done && GetReferenceId(j) == n;
        assert j in done + {k};
      }
    }
    forall a, b | a in done + {k} && b in done + {k} && a != b ensures GetReferenceId(a) != GetReferenceId(b) {
      if a == k {
        assert GetReferenceId(b) in components;
      } else if b == k {
        assert GetReferenceId(a) in components;
      }
    }
  }

  /** A type whose name is already taken collides with a type collected before. */
  lemma CollectClash(cache: Cache, done: set<ClrType>, components: map<string, OpenApiSchema>, k: ClrType)
    requires Collected(cache, done, components) && k in cache && k !in done && GetReferenceId(k) in components
    ensures exists b :: Collide(cache, k, b)
  {
    var b :| b in done && GetReferenceId(b) == GetReferenceId(k);
    assert Collide(cache, k, b);
  }

  /** Once every type is collected, no two cached types share a name. */
  lemma CollectedInjective(cache: Cache, components: map<string, OpenApiSchema>)
    requires ComponentsOf(cache, components)
    ensures !exists a, b :: Collide(cache, a, b)
  {
  }

  /** A component built from a referenced cache refers to its own name. */
  lemma ComponentsReferenced(env: TypeEnv, cache: Cache, components: map<string, OpenApiSchema>)
    requires Referenced(env, cache) && ComponentsOf(cache, components)
    ensures forall id :: id in components ==> components[id].reference == Some(id)
  {
    forall id | id in components ensures components[id].reference == Some(id) {
      var k :| k in cache && GetReferenceId(k) == id;
    }
  }

  /** The loop of `GetOpenApiComponents`: adds each cached schema under its component name, and fails on
      the first name that is already taken. */
  method CollectComponents(cache: Cache) returns (r: Result<map<string, OpenApiSchema>, ComponentError>)
    ensures r.Ok? <==> !exists a, b :: Collide(cache, a, b)
    ensures r.Ok? ==> ComponentsOf(cache, r.value)
    ensures r.Err? ==> exists a, b :: Collide(cache, a, b) && GetReferenceId(a) == r.error.id
  {
    var components: map<string, OpenApiSchema> := map[];
    var done: set<ClrType> := {};
    var remaining := cache.Keys;
    while remaining != {}
      invariant Collected(cache, done, components)
      invariant remaining == cache.Keys - done
      decreases remaining
    {
      var k :| k in remaining;
      var id := GetReferenceId(k);
      if id in components {
        CollectClash(cache, done, components, k);
        return Err(DuplicateComponent(id));
      }
      CollectStep(cache, done, components, k);
      components := components[id := cache[k]];
      done := done + {k};
      remaining := remaining - {k};
    }
    assert done == cache.Keys;
    CollectedInjective(cache, components);
    return Ok(components);
  }

  /** `OpenApiComponentService`: the schema cache and the resolver that fills it. The reflection data,
      the primitive mapper and the cache policy are fixed when the service is made. */
  class OpenApiComponentService {
    const env: TypeEnv
    const policy: CachePolicy
    /** `_typeToOpenApiSchema`. */
    var cache: Cache

    /** Every cached schema is an object schema that refers to its type's component name. */
    ghost predicate Valid()
      reads this
    {
      Referenced(env, cache)
    }

    constructor (env: TypeEnv, policy: CachePolicy)
      ensures Valid() && this.env == env && this.policy == policy && cache == map[]
    {
      this.env := env;
      this.policy := policy;
      cache := map[];
    }

    /** `GetOrCreateOpenApiSchemaForType(type, parameterDescription)` with a recursion budget. */
    method GetOrCreateSchema(t: ClrType, paramDefault: Option<Literal>, fuel: nat) returns (r: Result<OpenApiSchema, ResolveError>)
      requires Valid()
      modifies this
      ensures Valid() && Grows(env, old(cache), cache)
      ensures Agrees(r, Resolve(env, policy, old(cache), t, paramDefault, fuel), cache)
      decreases fuel, 1
    {
      if t in cache {
        return Ok(cache[t]);
      }
      match env.shapeOf(t)
      case JsonNodeShape =>
        return Ok(JsonNodeSchema);
      case DictionaryShape =>
        var valueType := DictionaryValueType(t);
        if valueType.None? {
          return Err(NullMapperArgument);
        }
        return Ok(DictionarySchema(env, valueType.value));
      case EnumShape(u, vs) =>
        if u != Int32Type && vs != [] {
          return Err(InvalidEnumCast);
        }
        return Ok(EnumSchema(env, u, vs));
      case PrimitiveShape(attr) =>
        return Ok(PrimitiveSchema(env, t, attr, paramDefault));
      case EnumerableShape(e) =>
        var element := ElementType(t, e);
        if element.Err? {
          return Err(element.error);
        }
        return Ok(ArraySchema(env, element.value));
      case ObjectShape(_, _, _) =>
        if fuel == 0 {
          return Err(Diverged);
        }
        ObjectBranch(env, policy, cache, t, paramDefault, fuel);
        r := CreateObjectSchema(t, fuel);
    }

    /** The object branch: resolves the derived types, the base and the properties against the cache,
        then caches the schema under its type. */
    method CreateObjectSchema(t: ClrType, fuel: nat) returns (r: Result<OpenApiSchema, ResolveError>)
      requires Valid() && t !in cache && env.shapeOf(t).ObjectShape? && fuel >= 1
      modifies this
      ensures Valid() && Grows(env, old(cache), cache)
      ensures Agrees(r, ResolveObject(env, policy, old(cache), t, fuel), cache)
      decreases fuel, 0
    {
      var shape := env.shapeOf(t);
      var below := fuel - 1;
      ghost var entry := cache;
      cache := Start(policy, cache, t);
      GrowsStore(env, entry, entry, t, Placeholder(t));
      ghost var start := cache;
      var oneOf := ResolveEach(shape.derivedTypes, below);
      GrowsTrans(env, entry, start, cache);
      if oneOf.Err? {
        ObjectFailsInDerived(env, policy, entry, t, fuel);
        return Err(oneOf.error);
      }
      ghost var derived := Resolved(oneOf.value, cache);
      var allOf := ResolveEach(BaseTypes(shape.baseType), below);
      GrowsTrans(env, entry, derived.cache, cache);
      if allOf.Err? {
        ObjectFailsInBase(env, policy, entry, t, fuel, derived);
        return Err(allOf.error);
      }
      ghost var bases := Resolved(allOf.value, cache);
      var props := ResolvePropertiesOf(t, shape.properties, below);
      GrowsTrans(env, entry, bases.cache, cache);
      if props.Err? {
        ObjectFailsInProperties(env, policy, entry, t, fuel, derived, bases);
        return Err(props.error);
      }
      ObjectSucceeds(env, policy, entry, t, fuel, derived, bases, Resolved(props.value, cache));
      var schema := ObjectSchema(t, oneOf.value, allOf.value, props.value);
      GrowsStore(env, entry, cache, t, schema);
      cache := cache[t := schema];
      return Ok(schema);
    }

    /** Resolves the types in order, each against the cache the previous ones left. */
    method ResolveEach(ts: seq<ClrType>, fuel: nat) returns (r: Result<seq<OpenApiSchema>, ResolveError>)
      requires Valid()
      modifies this
      ensures Valid() && Grows(env, old(cache), cache)
      ensures Agrees(r, ResolveAll(env, policy, old(cache), ts, fuel), cache)
      decreases fuel, 2
    {
      var schemas: seq<OpenApiSchema> := [];
      var i := 0;
      while i < |ts|
        invariant i <= |ts| && Valid() && Grows(env, old(cache), cache)
        invariant ResolveAll(env, policy, old(cache), ts[..i], fuel) == Ok(Resolved(schemas, cache))
      {
        AllStep(env, policy, old(cache), ts, fuel, i, Resolved(schemas, cache));
        var s := GetOrCreateSchema(ts[i], None, fuel);
        if s.Err? {
          AllPrefixFails(env, policy, old(cache), ts, fuel, i + 1);
          return Err(s.error);
        }
        schemas := schemas + [s.value];
        i := i + 1;
      }
      assert ts[..i] == ts;
      return Ok(schemas);
    }

    /** The property loop. */
    method ResolvePropertiesOf(t: ClrType, ps: seq<PropertyInfo>, fuel: nat) returns (r: Result<seq<Property>, ResolveError>)
      requires Valid()
      modifies this
      ensures Valid() && Grows(env, old(cache), cache)
      ensures Agrees(r, ResolveProperties(env, policy, old(cache), t, ps, fuel), cache)
      decreases fuel, 3
    {
      var props: seq<Property> := [];
      var i := 0;
      while i < |ps|
        invariant i <= |ps| && Valid() && Grows(env, old(cache), cache)
        invariant ResolveProperties(env, policy, old(cache), t, ps[..i], fuel) == Ok(Resolved(props, cache))
      {
        var next := AddProperty(t, ps, i, props, fuel, old(cache));
        if next.Err? {
          PropertiesPrefixFails(env, policy, old(cache), t, ps, fuel, i + 1);
          return Err(next.error);
        }
        props := next.value;
        i := i + 1;
      }
      assert ps[..i] == ps;
      return Ok(props);
    }

    /** One turn of the property loop: the `i`th property is skipped, or resolved and added. */
    method AddProperty(t: ClrType, ps: seq<PropertyInfo>, i: nat, props: seq<Property>, fuel: nat, ghost start: Cache)
      returns (r: Result<seq<Property>, ResolveError>)
      requires Valid() && i < |ps| && Grows(env, start, cache)
      requires ResolveProperties(env, policy, start, t, ps[..i], fuel) == Ok(Resolved(props, cache))
      modifies this
      ensures Valid() && Grows(env, start, cache)
      ensures Agrees(r, ResolveProperties(env, policy, start, t, ps[..i + 1], fuel), cache)
      decreases fuel, 2
    {
      var p := ps[i];
      if Skipped(t, p) {
        PropertiesSkip(env, policy, start, t, ps, i, fuel);
        return Ok(props);
      }
      PropertiesKeep(env, policy, start, t, ps, i, fuel, Resolved(props, cache));
      ghost var before := cache;
      var inner := GetOrCreateSchema(p.propertyType, None, fuel);
      GrowsTrans(env, start, before, cache);
      if inner.Err? {
        return Err(inner.error);
      }
      if p.name in PropertyNames(props) {
        return Err(DuplicateProperty(p.name));
      }
      return Ok(props + [Property(p.name, PropertySchema(p, inner.value))]);
    }

    /** `GetOpenApiComponents`: one component per cached type, under its component name; two cached types
        with one name make `Schemas.Add` throw. */
    method GetOpenApiComponents() returns (r: Result<map<string, OpenApiSchema>, ComponentError>)
      requires Valid()
      ensures r.Ok? <==> !exists a, b :: Collide(cache, a, b)
      ensures r.Ok? ==> ComponentsOf(cache, r.value)
      ensures r.Ok? ==> forall id :: id in r.value ==> r.value[id].reference == Some(id)
      ensures r.Err? ==> exists a, b :: Collide(cache, a, b) && GetReferenceId(a) == r.error.id
    {
      r := CollectComponents(cache);
      if r.Ok? {
        ComponentsReferenced(env, cache, r.value);
      }
    }
  }
}
