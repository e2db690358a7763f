/**
 * The request body that create and update send, the path they send it to,
 * and how read copies a returned datatable back into resource state.
 */
module DatatablePayload {
  import opened Wrappers
  import opened DatatableTypes
  import opened DatatableSchema
  import opened DatatableFlatten

  const DatatablesPath := "/api/v2/flows/datatables"

  /**
   * The body assembled by createArchitectDatatable (id None) and
   * updateArchitectDatatable (id Some): name and schema always, the division
   * only for a non-empty division id and the description only when non-empty.
   */
  function RequestBody(id: Option<string>, name: string, divisionId: string, description: string,
                       schema: JsonSchemaDocument): (body: Datatable)
    ensures body.id == id && body.name == Some(name) && body.schema == Some(schema)
    ensures body.division.Some? <==> divisionId != ""
    ensures body.division.Some? ==> body.division.value.id == Some(divisionId)
    ensures body.description.Some? <==> description != ""
    ensures body.description.Some? ==> body.description.value == description
  {
    var division := if divisionId != "" then Some(WritableDivision(Some(divisionId))) else None;
    var desc := if description != "" then Some(description) else None;
    Datatable(id, Some(name), desc, division, Some(schema))
  }

  /**
   * The first steps of create (id None) and update (id Some): build the
   * schema, returning its error untouched, then assemble the body around it.
   */
  method AssembleRequest(id: Option<string>, name: string, divisionId: string, description: string,
                         properties: Option<seq<ConfigProperty>>, parseFloat: FloatParser)
    returns (r: Result<Datatable, Error>)
    ensures r.Failure? <==> properties.Some? && !AllPropertiesBuild(properties.value, parseFloat)
    ensures r.Failure? ==> IsFirstFailure(properties.value, parseFloat, r.error)
    ensures r.Success? ==>
      && r.value.schema.Some?
      && r.value == RequestBody(id, name, divisionId, description, r.value.schema.value)
      && r.value.schema.value.schema == Some(DraftFourSchemaUri)
      && r.value.schema.value.varType == Some("object")
      && r.value.schema.value.required == Some(["key"])
      && r.value.schema.value.additionalProperties == Some(false)
      && r.value.schema.value.properties ==
           (if properties.None? then None else Some(PropertyMap(properties.value, parseFloat)))
  {
    var schema := BuildSchema(properties, parseFloat);
    if schema.Failure? {
      return Failure(schema.error);
    }
    r := Success(RequestBody(id, name, divisionId, description, schema.value));
  }

  /**
   * The path of sdkPutOrPostArchitectDatatable: the datatables collection,
   * followed by "/" and the body's id when the verb is PUT and the body
   * has an id.
   */
  function RequestPath(basePath: string, verb: string, body: Datatable): (path: string)
    ensures |basePath + DatatablesPath| <= |path|
    ensures path[..|basePath + DatatablesPath|] == basePath + DatatablesPath
    ensures path == basePath + DatatablesPath <==> !(verb == "PUT" && body.id.Some?)
    ensures verb == "PUT" && body.id.Some? ==> path[|basePath + DatatablesPath|..] == "/" + body.id.value
  {
    var collection := basePath + DatatablesPath;
    if verb == "PUT" && body.id.Some? then collection + "/" + body.id.value else collection
  }

  /** Create posts to the collection itself. */
  lemma CreatePath(basePath: string, name: string, divisionId: string, description: string, schema: JsonSchemaDocument)
    ensures RequestPath(basePath, "POST", RequestBody(None, name, divisionId, description, schema))
         == basePath + DatatablesPath
  {
  }

  /** Update puts to the datatable's own path, from which its id can be read back. */
  lemma UpdatePath(basePath: string, id: string, name: string, divisionId: string, description: string,
                   schema: JsonSchemaDocument)
    ensures RequestPath(basePath, "PUT", RequestBody(Some(id), name, divisionId, description, schema))
         == basePath + DatatablesPath + "/" + id
  {
  }

  /** The top-level attributes read writes to state; a missing description is stored as "". */
  datatype StateScalars = StateScalars(name: string, divisionId: string, description: string)

  /**
   * The scalar part of readArchitectDatatable. The name and the division id
   * are dereferenced without a check, so a datatable lacking either is
   * outside what read handles.
   */
  function ReadScalars(dt: Datatable): (s: StateScalars)
    requires dt.name.Some? && dt.division.Some? && dt.division.value.id.Some?
    ensures s.name == dt.name.value && s.divisionId == dt.division.value.id.value
    ensures dt.description.Some? ==> s.description == dt.description.value
    ensures dt.description.None? ==> s.description == ""
  {
    StateScalars(dt.name.value, dt.division.value.id.value,
                 if dt.description.Some? then dt.description.value else "")
  }

  /**
   * Reading back a body as it was sent restores the configured name,
   * division id and description, the empty description included. An empty
   * division id is not restored: no division is sent, the platform assigns
   * one, and read stores that one's id.
   */
  lemma ReadAfterWrite(id: Option<string>, name: string, divisionId: string, description: string,
                       schema: JsonSchemaDocument)
    requires divisionId != ""
    ensures var body := RequestBody(id, name, divisionId, description, schema);
      body.name.Some? && body.division.Some? && body.division.value.id.Some?
      && ReadScalars(body) == StateScalars(name, divisionId, description)
  {
  }

  /**
   * readArchitectDatatable after a successful fetch: the scalars, and the
   * flattened properties when the datatable has a schema with a property
   * map (None otherwise).
   */
  method ReadDatatable(dt: Datatable, render: DefaultValue -> string)
    returns (scalars: StateScalars, properties: Option<seq<StateProperty>>)
    requires dt.name.Some? && dt.division.Some? && dt.division.value.id.Some?
    ensures scalars == ReadScalars(dt)
    ensures properties.Some? <==> dt.schema.Some? && dt.schema.value.properties.Some?
    ensures properties.Some? ==> IsFlattening(dt.schema.value.properties.value, render, properties.value)
  {
    scalars := ReadScalars(dt);
    if dt.schema.Some? && dt.schema.value.properties.Some? {
      var flat := FlattenProperties(dt.schema.value.properties.value, render);
      properties := Some(flat);
    } else {
      properties := None;
    }
  }
}
