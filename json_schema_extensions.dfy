/** `JsonSchemaExtensions`: converting a JSON Schema (as the Json.Schema library exposes it through its
    getters) into an `OpenApiSchema`, field by field. */
module JsonSchemaExtensions {
  import opened Wrappers
  import opened OpenApiModel
  import Linq

  /** The single kinds of the JSON Schema `type` keyword. A value of the library's flags enumeration is
      the set of kinds it combines. */
  datatype SchemaValueType = Array | Boolean | Integer | Number | Object | String | Null

  /** What the getters of a `JsonSchema` return: `None` for a keyword that is absent. `GetProperties()`
      is absent when `hasProperties` is false, and is then read as nothing; otherwise it is `properties`. */
  datatype JsonSchema = JsonSchema(
    discriminator: Option<Discriminator>,
    maximum: Option<real>,
    minimum: Option<real>,
    minItems: Option<nat>,
    minLength: Option<nat>,
    pattern: Option<string>,
    hasProperties: bool,
    properties: seq<JsonSchemaProperty>,
    readOnly: Option<bool>,
    required: Option<seq<string>>,
    jsonType: Option<set<SchemaValueType>>,
    uniqueItems: Option<bool>,
    writeOnly: Option<bool>)

  datatype JsonSchemaProperty = JsonSchemaProperty(name: string, schema: JsonSchema)

  /** The exceptions the conversion can throw. */
  datatype ConversionError =
    | ArgumentOutOfRange   // a `type` that is absent or not one of the seven single kinds
    | Overflow             // `checked((int?)…)` on a count above `int.MaxValue`
    | DuplicateKey         // `ToDictionary` meeting a property name twice

  const IntMaxValue: int := 0x7FFF_FFFF

  /** The OpenAPI spelling of each single kind. */
  function KindName(k: SchemaValueType): string {
    match k
    case Array => "array"
    case Boolean => "boolean"
    case Integer => "integer"
    case Number => "number"
    case Object => "object"
    case String => "string"
    case Null => "null"
  }

  /** `ToOpenApiSchemaType`: the seven single kinds map to their names; anything else, an absent type
      included, is out of range. */
  function ToOpenApiSchemaType(t: Option<set<SchemaValueType>>): (r: Result<string, ConversionError>)
    ensures r.Ok? <==> exists k :: t == Some({k})
    ensures forall k :: t == Some({k}) ==> r == Ok(KindName(k))
    ensures r.Err? ==> r.error == ArgumentOutOfRange
  {
    if t == Some({Array}) then Ok("array")
    else if t == Some({Boolean}) then Ok("boolean")
    else if t == Some({Integer}) then Ok("integer")
    else if t == Some({Number}) then Ok("number")
    else if t == Some({Object}) then Ok("object")
    else if t == Some({String}) then Ok("string")
    else if t == Some({Null}) then Ok("null")
    else
      NoSingleKind(t);
      Err(ArgumentOutOfRange)
  }

  lemma NoSingleKind(t: Option<set<SchemaValueType>>)
    requires t != Some({Array}) && t != Some({Boolean}) && t != Some({Integer}) && t != Some({Number})
    requires t != Some({Object}) && t != Some({String}) && t != Some({Null})
    ensures forall k :: t != Some({k})
  {
    forall k ensures t != Some({k}) {
      match k
      case Array => case Boolean => case Integer => case Number =>
      case Object => case String => case Null =>
    }
  }

  /** The kind an OpenAPI type name stands for: the inverse of `KindName`. */
  function ParseKind(s: string): (r: Option<SchemaValueType>)
  {
    if s == "array" then Some(Array)
    else if s == "boolean" then Some(Boolean)
    else if s == "integer" then Some(Integer)
    else if s == "number" then Some(Number)
    else if s == "object" then Some(Object)
    else if s == "string" then Some(String)
    else if s == "null" then Some(Null)
    else None
  }

  /** Kind names round-trip, and no two kinds share a name. */
  lemma KindNameRoundTrip(k: SchemaValueType, s: string)
    ensures ParseKind(KindName(k)) == Some(k)
    ensures ParseKind(s) == Some(k) ==> KindName(k) == s
  {
  }

  /** `checked((int?)n)` for a `uint?` count. */
  function CheckedToInt(n: Option<nat>): (r: Result<Option<int>, ConversionError>)
    ensures r.Ok? <==> (n.None? || n.value <= IntMaxValue)
    ensures r.Ok? ==> (r.value.None? <==> n.None?) && (n.Some? ==> r.value.value == n.value)
  {
    if n.None? then Ok(None)
    else if n.value > IntMaxValue then Err(Overflow)
    else Ok(Some(n.value))
  }

  /** `ToOpenApiSchema`: the object initializer's fields in their order of evaluation. */
  function ToOpenApiSchema(s: JsonSchema): Result<OpenApiSchema, ConversionError>
    decreases s
  {
    var minItems :- CheckedToInt(s.minItems);
    var minLength :- CheckedToInt(s.minLength);
    var properties :- if s.hasProperties then WrapSome(ConvertProperties(s.properties)) else Ok(None);
    var schemaType :- ToOpenApiSchemaType(s.jsonType);
    Ok(EmptySchema.(
      discriminator := s.discriminator,
      maximum := s.maximum,
      minimum := s.minimum,
      minItems := minItems,
      minLength := minLength,
      pattern := s.pattern,
      properties := properties,
      readOnly := s.readOnly == Some(true),
      required := if s.required.Some? then Some(set x | x in s.required.value) else None,
      schemaType := Some(schemaType),
      uniqueItems := Some(s.uniqueItems == Some(true)),
      writeOnly := s.writeOnly == Some(true)))
  }

  /** `?.`: a present dictionary, converted. */
  function WrapSome<T>(r: Result<T, ConversionError>): Result<Option<T>, ConversionError> {
    match r
    case Ok(v) => Ok(Some(v))
    case Err(e) => Err(e)
  }

  /** `ToDictionary(kvp => kvp.Key, kvp => kvp.Value.ToOpenApiSchema())`: each value converted in order,
      a repeated key rejected when it is added. */
  function ConvertProperties(ps: seq<JsonSchemaProperty>): Result<seq<Property>, ConversionError>
    decreases ps
  {
    if ps == [] then Ok([])
    else
      var init :- ConvertProperties(ps[..|ps| - 1]);
      var last := ps[|ps| - 1];
      var value :- ToOpenApiSchema(last.schema);
      if last.name in PropertyNames(init) then Err(DuplicateKey)
      else Ok(init + [Property(last.name, value)])
  }

  /** The names of a JSON Schema's properties, in order: `OpenApiModel.PropertyNames` for this record
      type. The two stay separate first-order functions, one per record type, because one generic listing
      over a name projection (`Linq.Select`) puts a higher-order application under every
      name-membership quantifier of the resolver's proofs, and those then exceed the solver's budget.
      `ConvertedNames` proves that the two listings agree across the conversion. */
  function JsonPropertyNames(ps: seq<JsonSchemaProperty>): (r: seq<string>)
    ensures |r| == |ps| && forall i :: 0 <= i < |ps| ==> r[i] == ps[i].name
  {
    if ps == [] then [] else JsonPropertyNames(ps[..|ps| - 1]) + [ps[|ps| - 1].name]
  }

  /** A schema the conversion accepts: counts within `int`, exactly one kind, property names unique and
      every property schema acceptable in turn. */
  predicate Convertible(s: JsonSchema)
    decreases s
  {
    && (s.minItems.None? || s.minItems.value <= IntMaxValue)
    && (s.minLength.None? || s.minLength.value <= IntMaxValue)
    && (s.hasProperties ==> PropertiesConvertible(s.properties))
    && SingleKind(s.jsonType)
  }

  /** A type keyword naming exactly one kind. */
  predicate SingleKind(t: Option<set<SchemaValueType>>) {
    exists k :: t == Some({k})
  }

  /** Property lists the conversion accepts, one property at a time: every earlier one acceptable, the
      last one's schema acceptable and its name not seen before (see `PropertiesConvertibleMeaning`). */
  predicate PropertiesConvertible(ps: seq<JsonSchemaProperty>)
    decreases ps
  {
    ps == [] ||
    (PropertiesConvertible(ps[..|ps| - 1]) && Convertible(ps[|ps| - 1].schema)
     && ps[|ps| - 1].name !in JsonPropertyNames(ps[..|ps| - 1]))
  }

  /** The conversion succeeds exactly on the acceptable schemas. */
  lemma {:induction false} ConversionSucceedsIff(s: JsonSchema)
    ensures ToOpenApiSchema(s).Ok? <==> Convertible(s)
    decreases s
  {
    if s.hasProperties {
      PropertiesSucceedIff(s.properties);
    }
  }

  lemma {:induction false} PropertiesSucceedIff(ps: seq<JsonSchemaProperty>)
    ensures ConvertProperties(ps).Ok? <==> PropertiesConvertible(ps)
    decreases ps
  {
    if ps != [] {
      var init := ps[..|ps| - 1];
      var last := ps[|ps| - 1];
      PropertiesSucceedIff(init);
      ConversionSucceedsIff(last.schema);
      if ConvertProperties(init).Ok? {
        ConvertedNames(init);
      }
      ConvertSnoc(ps);
    }
  }

  /** One more property converts when the earlier ones do, its schema does and its name is new. */
  lemma ConvertSnoc(ps: seq<JsonSchemaProperty>)
    requires ps != []
    ensures var init := ConvertProperties(ps[..|ps| - 1]);
      ConvertProperties(ps).Ok? <==>
        init.Ok? && ToOpenApiSchema(ps[|ps| - 1].schema).Ok? && ps[|ps| - 1].name !in PropertyNames(init.value)
  {
  }

  /** An acceptable property list is one with unique names whose every schema is acceptable. */
  lemma {:induction false} PropertiesConvertibleMeaning(ps: seq<JsonSchemaProperty>)
    ensures PropertiesConvertible(ps) <==>
      Linq.NoDuplicates(JsonPropertyNames(ps)) && forall i :: 0 <= i < |ps| ==> Convertible(ps[i].schema)
  {
    if ps != [] {
      var init, last := ps[..|ps| - 1], ps[|ps| - 1];
      PropertiesConvertibleMeaning(init);
      assert JsonPropertyNames(ps) == JsonPropertyNames(init) + [last.name];
      Linq.NoDuplicatesSnoc(JsonPropertyNames(init), last.name);
      assert forall i :: 0 <= i < |init| ==> init[i] == ps[i];
    }
  }

  /** The converted properties carry the source's names in the source's order. */
  lemma {:induction false} ConvertedNames(ps: seq<JsonSchemaProperty>)
    requires ConvertProperties(ps).Ok?
    ensures PropertyNames(ConvertProperties(ps).value) == JsonPropertyNames(ps)
  {
    if ps != [] {
      ConvertedNames(ps[..|ps| - 1]);
    }
  }

  /** Each converted property keeps its name and position and holds the conversion of its schema. */
  lemma {:induction false} PropertiesConvertedInPlace(ps: seq<JsonSchemaProperty>)
    requires ConvertProperties(ps).Ok?
    ensures var r := ConvertProperties(ps).value;
      |r| == |ps| && forall i :: 0 <= i < |ps| ==>
        r[i].name == ps[i].name && ToOpenApiSchema(ps[i].schema) == Ok(r[i].schema)
  {
    if ps != [] {
      PropertiesConvertedInPlace(ps[..|ps| - 1]);
    }
  }

  /** On success every field is filled as the initializer says: pass-through values unchanged, flags
      false unless present and true, `required` as a set of the same names, the type its OpenAPI name,
      and the properties with the same names in the same order, each converted in turn. The fields the
      initializer does not set keep the values of `new OpenApiSchema()`. */
  lemma ConversionFields(s: JsonSchema)
    requires ToOpenApiSchema(s).Ok?
    ensures var r := ToOpenApiSchema(s).value;
      && r.discriminator == s.discriminator
      && r.maximum == s.maximum && r.minimum == s.minimum
      && r.pattern == s.pattern
      && (r.minItems.Some? <==> s.minItems.Some?) && (s.minItems.Some? ==> r.minItems.value == s.minItems.value)
      && (r.minLength.Some? <==> s.minLength.Some?) && (s.minLength.Some? ==> r.minLength.value == s.minLength.value)
      && r.readOnly == (s.readOnly == Some(true))
      && r.writeOnly == (s.writeOnly == Some(true))
      && r.uniqueItems == Some(s.uniqueItems == Some(true))
      && (r.required.Some? <==> s.required.Some?)
      && (s.required.Some? ==> forall x :: x in r.required.value <==> x in s.required.value)
      && (exists k :: s.jsonType == Some({k}) && r.schemaType == Some(KindName(k)))
      && (r.properties.Some? <==> s.hasProperties)
      && (s.hasProperties ==>
            |r.properties.value| == |s.properties|
            && forall i :: 0 <= i < |s.properties| ==>
                 r.properties.value[i].name == s.properties[i].name
                 && ToOpenApiSchema(s.properties[i].schema) == Ok(r.properties.value[i].schema))
      && r.additionalPropertiesAllowed && r.additionalProperties.None? && r.items.None?
      && r.enumValues == [] && r.defaultValue.None? && r.oneOf == [] && r.allOf == [] && r.reference.None?
  {
    if s.hasProperties {
      PropertiesConvertedInPlace(s.properties);
    }
  }

  /** A schema without a type cannot be converted, and neither can one whose counts exceed `int`. */
  lemma ConversionFailures(s: JsonSchema)
    ensures s.jsonType.None? ==> ToOpenApiSchema(s).Err?
    ensures s.minItems.Some? && s.minItems.value > IntMaxValue ==> ToOpenApiSchema(s) == Err(Overflow)
    ensures (s.minItems.None? || s.minItems.value <= IntMaxValue) && s.minLength.Some? && s.minLength.value > IntMaxValue
        ==> ToOpenApiSchema(s) == Err(Overflow)
  {
  }
}
