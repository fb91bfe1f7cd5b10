/** The slice of the OpenAPI object model (`OpenApiSchema` and the values it holds) that the core writes. */
module OpenApiModel {
  import opened Wrappers

  /** A default or example value, kept as the JSON text it was serialised to. */
  datatype Literal = Literal(json: string)

  /** `discriminator`: the property that selects a `oneOf` member, and the value-to-schema mapping. */
  datatype Discriminator = Discriminator(propertyName: string, mapping: map<string, string>)

  /** One entry of `properties`. */
  datatype Property = Property(name: string, schema: OpenApiSchema)

  /** `OpenApiSchema`. `properties` keeps insertion order, as the dictionary does; `reference` is the
      component id of `Reference`; decimals are carried as reals and never computed with. */
  datatype OpenApiSchema = OpenApiSchema(
    schemaType: Option<string>,
    discriminator: Option<Discriminator>,
    maximum: Option<real>,
    minimum: Option<real>,
    minItems: Option<int>,
    minLength: Option<int>,
    pattern: Option<string>,
    properties: Option<seq<Property>>,
    required: Option<set<string>>,
    readOnly: bool,
    writeOnly: bool,
    uniqueItems: Option<bool>,
    additionalPropertiesAllowed: bool,
    additionalProperties: Option<OpenApiSchema>,
    items: Option<OpenApiSchema>,
    enumValues: seq<int>,
    defaultValue: Option<Literal>,
    oneOf: seq<OpenApiSchema>,
    allOf: seq<OpenApiSchema>,
    reference: Option<string>)

  /** `new OpenApiSchema()`: empty collections, nothing set, additional properties allowed. */
  const EmptySchema := OpenApiSchema(
    None, None, None, None, None, None, None, Some([]), Some({}), false, false, None,
    true, None, None, [], None, [], [], None)

  /** The property names in order. `JsonSchemaExtensions.JsonPropertyNames` is the same listing for a
      JSON Schema's properties; it says why there are two. */
  function PropertyNames(ps: seq<Property>): (r: seq<string>)
    ensures |r| == |ps| && forall i :: 0 <= i < |ps| ==> r[i] == ps[i].name
  {
    if ps == [] then [] else PropertyNames(ps[..|ps| - 1]) + [ps[|ps| - 1].name]
  }

  /** Appending a property appends its name. */
  lemma PropertyNamesSnoc(ps: seq<Property>, p: Property)
    ensures PropertyNames(ps + [p]) == PropertyNames(ps) + [p.name]
  {
    assert (ps + [p])[..|ps|] == ps;
  }
}
