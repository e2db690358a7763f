# Architect datatable schema translation

A Dafny model of the datatable resource of the Genesys Cloud Terraform
provider. The model covers the layer that turns the configured property list
of a datatable into the JSON Schema document the platform stores, and turns
that document's property map back into the list kept in Terraform state.

- `wrappers.dfy` (`Wrappers`): `Option` and `Result`.
- `strconv.dfy` (`StrConv`): Go's `strconv.ParseBool` and `strconv.Atoi`
  with a 64-bit `int`, including their `NumError` values. These are what
  the build loop uses to convert defaults.
- `datatable_types.dfy` (`DatatableTypes`): the records `Datatableproperty`,
  `Jsonschemadocument` and `Datatable`, a configured list element, a state
  list element, and the two kinds of error.
- `datatable_schema.dfy` (`DatatableSchema`):
  - `buildSdkDatatableProperties` is a method whose loop fills the map in
    place. It is proved equal to `PropertyMap`, a "last write wins"
    function of the list.
  - `buildSdkDatatableSchema` is a method around it.
  - Lemmas cover the id, display order, type, title and default rules, and
    the effect of duplicate names on the map's keys and size.
- `datatable_flatten.dfy` (`DatatableFlatten`): `flattenDatatableProperties`,
  built from its own steps:
  - the walk over the map, which patches a missing display order to 0;
  - an insertion sort on an array;
  - the loop that builds the state elements.
  The result is specified by `IsFlattening`. Every key appears once, display
  orders do not decrease, and each element is the rendering of its entry.
- `datatable_payload.dfy` (`DatatablePayload`):
  - the request body that create and update assemble;
  - the PUT/POST path;
  - the read side, which copies a fetched datatable into state.
- `round_trip.dfy` (`RoundTrip`): when no name repeats, building the map
  and flattening it lists the configured properties in their configured
  order, with the same names, types and titles, and a default exactly where
  a non-empty one was configured. A string default comes back as the
  rendering of its own text.

## Model

| member | source | states |
|---|---|---|
| StrConv.ParseBool | genesyscloud/resource_genesyscloud_architect_datatable.go:315 | succeeds exactly on the six true and six false literals Go accepts, yields true exactly for the true ones, and otherwise fails with a ParseBool syntax error naming the input |
| StrConv.ParseFormatBool | genesyscloud/resource_genesyscloud_architect_datatable.go:315 | ParseBool undoes FormatBool: "true" and "false" parse back to the boolean they spell |
| StrConv.Atoi | genesyscloud/resource_genesyscloud_architect_datatable.go:319 | succeeds exactly on an optionally signed, non-empty run of decimal digits whose value is in the signed 64-bit range, returns that value, and otherwise fails with an Atoi error naming the input: a range error for a well-formed literal outside int64, and otherwise a range error exactly when the leading digit run overflows uint64, a syntax error if not |
| StrConv.AtoiItoa | genesyscloud/resource_genesyscloud_architect_datatable.go:319 | every signed 64-bit integer written in decimal parses back to itself |
| DatatableSchema.BuildProperty | genesyscloud/resource_genesyscloud_architect_datatable.go:285-331 | a built property has id "/properties/" + name, display order equal to its list index, the configured type and the configured title |
| DatatableSchema.ConvertDefault | genesyscloud/resource_genesyscloud_architect_datatable.go:313-324 | a converted default has the declared type; a type outside boolean, string, integer and number gives "Invalid type" for that type and property; a failed boolean, integer or number conversion is a conversion error wrapping exactly the error ParseBool, Atoi or the float parser returned |
| DatatableSchema.ConvertDefaultTyped | genesyscloud/resource_genesyscloud_architect_datatable.go:310-327 | a converted default has the declared type; a string default is the text itself; boolean and integer defaults succeed exactly when ParseBool/Atoi accept the text and carry their value; a number default succeeds exactly when the float parser does and is its result; a failed conversion wraps exactly that parser's error; any other type gives "Invalid type" for that type and property |
| DatatableSchema.BuildPropertyDefault | genesyscloud/resource_genesyscloud_architect_datatable.go:306-331 | a default is stored exactly when a non-empty one is configured, and it is then the converted value of the configured text, of the declared type; building fails exactly when that conversion fails, with its error; a string default is stored verbatim; an unknown type fails exactly when it has a non-empty default |
| DatatableSchema.LastWinsSnoc | genesyscloud/resource_genesyscloud_architect_datatable.go:333 | one more assignment sets the key of the new element to its property and leaves every other key as it was |
| DatatableSchema.LastWinsAt | genesyscloud/resource_genesyscloud_architect_datatable.go:284-334 | after the assignments in list order, each name's entry is the value assigned at the last position carrying that name |
| DatatableSchema.PropertyMapEntry | genesyscloud/resource_genesyscloud_architect_datatable.go:285-333 | the entry under a name is the property built from that name's last position: id "/properties/" + name, display order that position, its type and title, and a default exactly when a non-empty one was configured |
| DatatableSchema.PropertyMapOrders | genesyscloud/resource_genesyscloud_architect_datatable.go:292-296 | every key's display order is the last list position carrying that name |
| DatatableSchema.BuildProperties | genesyscloud/resource_genesyscloud_architect_datatable.go:281-338 | a nil list gives no map and no error; if every property builds, the result is the map keyed by name with the last occurrence winning; otherwise the error is that of the first property that fails |
| DatatableSchema.BuildSchema | genesyscloud/resource_genesyscloud_architect_datatable.go:259-279 | on success the document has the draft-04 $schema URI, type "object", required ["key"], additionalProperties false and the built property map (none for a nil list); an error from the properties comes through unchanged |
| DatatableSchema.LaterDuplicateOverwrites | genesyscloud/resource_genesyscloud_architect_datatable.go:333 | when a name occurs again later, the map no longer holds the earlier occurrence's property |
| DatatableSchema.LastOccurrenceKept | genesyscloud/resource_genesyscloud_architect_datatable.go:333 | the map holds exactly the property of a name's last occurrence |
| DatatableSchema.PropertyMapSize | genesyscloud/resource_genesyscloud_architect_datatable.go:284-335 | the map has at most as many keys as the list has elements, and exactly as many precisely when no name repeats |
| DatatableFlatten.WithDefaultOrder | genesyscloud/resource_genesyscloud_architect_datatable.go:351-354 | the patched property has a display order, 0 if it had none, and differs from the original in nothing else |
| DatatableFlatten.CollectEntries | genesyscloud/resource_genesyscloud_architect_datatable.go:348-356 | the list holds every key of the map exactly once, each with its patched property |
| DatatableFlatten.InsertIntoPrefix | genesyscloud/resource_genesyscloud_architect_datatable.go:359-361 | one insertion step leaves the prefix up to the element sorted by display order, is a permutation, and does not touch what follows |
| DatatableFlatten.SortByDisplayOrder | genesyscloud/resource_genesyscloud_architect_datatable.go:358-361 | the array ends sorted by non-decreasing display order and is a permutation of what it held |
| DatatableFlatten.EntriesPermuted | genesyscloud/resource_genesyscloud_architect_datatable.go:350-361 | sorting keeps every key of the map exactly once, each with its patched property |
| DatatableFlatten.SortedEntriesFlatten | genesyscloud/resource_genesyscloud_architect_datatable.go:358-377 | rendering the sorted entries in turn names every key once, by non-decreasing display order, each element rendering its own entry |
| DatatableFlatten.StateProperties | genesyscloud/resource_genesyscloud_architect_datatable.go:363-377 | one state element per entry, in order, named by the key, with type, title and rendered default present exactly when set on the property |
| DatatableFlatten.FlattenProperties | genesyscloud/resource_genesyscloud_architect_datatable.go:340-378 | the output lists every key of the map exactly once, by non-decreasing display order with a missing one counting as 0, and element i is named by its key and carries that entry's type, title and rendered default exactly when present |
| DatatablePayload.RequestBody | genesyscloud/resource_genesyscloud_architect_datatable.go:134-145 | the body has the given id, the name and the schema; a division with the given id exactly when that id is non-empty; and the description exactly when it is non-empty |
| DatatablePayload.AssembleRequest | genesyscloud/resource_genesyscloud_architect_datatable.go:204-221 | fails exactly when some property fails to build, with the first failure's error; otherwise gives exactly the request body for the given id, name, division id and description around a schema with the draft-04 URI, type "object", required ["key"], additionalProperties false and the built property map |
| DatatablePayload.RequestPath | genesyscloud/resource_genesyscloud_architect_datatable.go:410-413 | the path starts with base path + "/api/v2/flows/datatables"; it is exactly that unless the verb is PUT and the body has an id, in which case it continues with "/" and the id |
| DatatablePayload.ReadScalars | genesyscloud/resource_genesyscloud_architect_datatable.go:172-179 | state gets the name and the division id, and the description or "" when there is none |
| DatatablePayload.ReadAfterWrite | genesyscloud/resource_genesyscloud_architect_datatable.go:172-179 | for a non-empty division id, reading back the body as sent restores the configured name, division id and description (an empty division id is not restored, since none is sent) |
| DatatablePayload.ReadDatatable | genesyscloud/resource_genesyscloud_architect_datatable.go:172-185 | the scalars as ReadScalars gives them; properties are set exactly when the datatable has a schema with a property map, and are then a flattening of that map |
| RoundTrip.IncreasingIndicesAreIdentity | genesyscloud/resource_genesyscloud_architect_datatable.go:292 | strictly increasing display orders drawn from 0..n-1 over n entries are exactly 0, 1, ..., n-1 |
| RoundTrip.FlattenedNamesInListOrder | genesyscloud/resource_genesyscloud_architect_datatable.go:359-361 | with distinct names, element i of any flattening of the built map is named after the i-th configured property |
| RoundTrip.FlattenedElementAt | genesyscloud/resource_genesyscloud_architect_datatable.go:292-374 | with distinct names, element i of a flattening of the built map renders the property built from the i-th configured element |
| RoundTrip.FlattenAfterBuild | genesyscloud/resource_genesyscloud_architect_datatable.go:292-378 | with distinct names, flattening the built map gives one element per configured property, in the configured order, with the same name, type and title, and a default exactly where a non-empty one was configured |
| RoundTrip.FlattenAfterBuildDefault | genesyscloud/resource_genesyscloud_architect_datatable.go:306-374 | with distinct names, a configured non-empty default converts successfully and comes back as the rendering of its converted value |
| RoundTrip.FlattenAfterBuildStringDefault | genesyscloud/resource_genesyscloud_architect_datatable.go:317 | a configured string default comes back as the rendering of that same string |

## Left out

- HTTP and the vendor API are not modelled:
  - the calls in `sdkPutOrPostArchitectDatatable` and `sdkGetArchitectDatatable` (headers, `CallAPI`, JSON decoding);
  - `getAllArchitectDatatables` pagination;
  - `deleteArchitectDatatable`.
  Only the request path and the body's optional-field rules are kept.
- `withRetries`, `withRetriesForRead`, the 404 retry decisions and the five-second sleep after update are timing behaviour and are not modelled.
- The station data source (`data_source_genesyscloud_station.go`) is not part of this model.
- `strconv.ParseFloat` (line 321) is floating point. The model takes it as the parameter `parseFloat`, and a number default as an opaque 64-bit pattern.
- `interfaceToString` (line 374) is not part of this model. Flatten takes it as the parameter `render`.
- FlattenProperties: the order among entries with equal display orders is not stated. It depends on Go's map iteration order, which the model leaves open with a nondeterministic choice. So the model's sort is not claimed to be stable.
- Terraform's `ResourceData` get/set and the schema declarations are host SDK behaviour:
  - A configured list element is a record whose title and default are `None` when the key is absent.
  - A nil description written to state is modelled as "".
  - The `StringInSlice` check on property types is not imposed. The build loop handles other types itself.
- RoundTrip.FlattenAfterBuild: a configured default is not promised to come back as the configured text. It comes back as `render` of the converted value (RoundTrip.FlattenAfterBuildDefault), so a boolean "T" or an integer "+05" returns in whatever form `render` gives true or 5, and a configured empty default returns as no default.
- StrConv.Atoi: only the 64-bit build of the provider is modelled. On a 32-bit build Go's `int` is 32 bits wide and Atoi accepts only values from -2^31 to 2^31-1.
- Strings are sequences of characters. Go's byte strings and UTF-8 are not modelled.
- DatatablePayload.ReadScalars: read dereferences the name and the division id without checking them. The model requires both to be present rather than modelling the nil-pointer panic.
