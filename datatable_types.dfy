/**
 * The records of the datatable resource: the property list as configured,
 * the property map and JSON Schema document sent to the platform, the
 * datatable request body, and the property list written back to state.
 */
module DatatableTypes {
  import opened Wrappers
  import StrConv

  /** A Go float64 kept as its IEEE-754 bit pattern; no arithmetic on it is modelled. */
  datatype Float64 = Float64(bits: bv64)

  /** The typed value a property default is converted to. */
  datatype DefaultValue =
    | BoolDefault(b: bool)
    | StringDefault(s: string)
    | IntDefault(i: int)
    | NumberDefault(f: Float64)

  /** strconv.ParseFloat(s, 64), which this model takes as a parameter. */
  type FloatParser = string -> Result<Float64, StrConv.NumError>

  /** Datatableproperty: one entry of the schema's "properties" object; every field may be absent. */
  datatype DatatableProperty = DatatableProperty(
    id: Option<string>,
    varType: Option<string>,
    title: Option<string>,
    defaultValue: Option<DefaultValue>,
    displayOrder: Option<int>)

  /** Jsonschemadocument: the schema object of a datatable. */
  datatype JsonSchemaDocument = JsonSchemaDocument(
    schema: Option<string>,
    varType: Option<string>,
    required: Option<seq<string>>,
    properties: Option<map<string, DatatableProperty>>,
    additionalProperties: Option<bool>)

  /** platformclientv2.Writabledivision, reduced to the field this resource sets. */
  datatype WritableDivision = WritableDivision(id: Option<string>)

  /** Datatable: the request and response body of the datatables endpoint. */
  datatype Datatable = Datatable(
    id: Option<string>,
    name: Option<string>,
    description: Option<string>,
    division: Option<WritableDivision>,
    schema: Option<JsonSchemaDocument>)

  /**
   * One element of the configured "properties" list. Name and type are
   * required by the resource schema; title and default are None when the
   * key is missing from the element's map.
   */
  datatype ConfigProperty = ConfigProperty(
    name: string,
    varType: string,
    title: Option<string>,
    defaultValue: Option<string>)

  /** One element of the "properties" list written back to state; absent keys are None. */
  datatype StateProperty = StateProperty(
    name: string,
    varType: Option<string>,
    title: Option<string>,
    defaultValue: Option<string>)

  /** The diagnostics building a schema can return. */
  datatype Error =
    | InvalidType(varType: string, propertyName: string)
    | ConversionError(cause: StrConv.NumError)
}
