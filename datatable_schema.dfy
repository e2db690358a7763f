/**
 * Building the JSON Schema document of a datatable from its configured
 * property list (buildSdkDatatableProperties and buildSdkDatatableSchema).
 */
module DatatableSchema {
  import opened Wrappers
  import StrConv
  import opened DatatableTypes

  const PropertyIdPrefix := "/properties/"
  const DraftFourSchemaUri := "http://json-schema.org/draft-04/schema#"

  /** The property types the resource schema admits. */
  const ValidTypes: set<string> := {"boolean", "string", "integer", "number"}

  /** A converted default carries the JSON type its property declares. */
  predicate HasType(v: DefaultValue, varType: string)
  {
    match v
    case BoolDefault(_) => varType == "boolean"
    case StringDefault(_) => varType == "string"
    case IntDefault(_) => varType == "integer"
    case NumberDefault(_) => varType == "number"
  }

  /** The switch on the declared type that converts a non-empty default string. */
  function ConvertDefault(varType: string, propertyName: string, text: string, parseFloat: FloatParser)
    : (r: Result<DefaultValue, Error>)
    ensures r.Success? ==> HasType(r.value, varType)
    ensures varType !in ValidTypes ==> r == Failure(InvalidType(varType, propertyName))
    ensures varType in ValidTypes && r.Failure? ==> r.error.ConversionError?
    ensures varType == "boolean" && r.Failure? ==>
      StrConv.ParseBool(text).Failure? && r.error == ConversionError(StrConv.ParseBool(text).error)
    ensures varType == "integer" && r.Failure? ==>
      StrConv.Atoi(text).Failure? && r.error == ConversionError(StrConv.Atoi(text).error)
    ensures varType == "number" && r.Failure? ==>
      parseFloat(text).Failure? && r.error == ConversionError(parseFloat(text).error)
  {
    if varType == "boolean" then
      match StrConv.ParseBool(text)
      case Success(b) => Success(BoolDefault(b))
      case Failure(e) => Failure(ConversionError(e))
    else if varType == "string" then
      Success(StringDefault(text))
    else if varType == "integer" then
      match StrConv.Atoi(text)
      case Success(n) => Success(IntDefault(n))
      case Failure(e) => Failure(ConversionError(e))
    else if varType == "number" then
      match parseFloat(text)
      case Success(f) => Success(NumberDefault(f))
      case Failure(e) => Failure(ConversionError(e))
    else
      Failure(InvalidType(varType, propertyName))
  }

  /** The default key is present and not the empty string. */
  predicate HasNonEmptyDefault(p: ConfigProperty)
  {
    p.defaultValue.Some? && p.defaultValue.value != ""
  }

  /** One iteration of the build loop: the property at position index of the list. */
  function BuildProperty(p: ConfigProperty, index: nat, parseFloat: FloatParser)
    : (r: Result<DatatableProperty, Error>)
    ensures r.Success? ==>
      && r.value.id == Some(PropertyIdPrefix + p.name)
      && r.value.displayOrder == Some(index)
      && r.value.varType == Some(p.varType)
      && r.value.title == p.title
  {
    var prop := DatatableProperty(Some(PropertyIdPrefix + p.name), Some(p.varType), p.title, None, Some(index));
    if !HasNonEmptyDefault(p) then Success(prop)
    else
      match ConvertDefault(p.varType, p.name, p.defaultValue.value, parseFloat)
      case Failure(e) => Failure(e)
      case Success(v) => Success(prop.(defaultValue := Some(v)))
  }

  /**
   * What a converted default is: a value of the declared type, the text
   * itself for strings, strconv's verdict for booleans and integers, the
   * float parser's for numbers, each failure carrying its parser's own
   * error, and an "Invalid type" error for any type outside the four.
   */
  lemma ConvertDefaultTyped(varType: string, propertyName: string, text: string, parseFloat: FloatParser,
                            r: Result<DefaultValue, Error>)
    requires r == ConvertDefault(varType, propertyName, text, parseFloat)
    ensures r.Success? ==> HasType(r.value, varType)
    ensures varType !in ValidTypes ==> r == Failure(InvalidType(varType, propertyName))
    ensures varType in ValidTypes && r.Failure? ==> r.error.ConversionError?
    ensures varType == "string" ==> r == Success(StringDefault(text))
    ensures varType == "boolean" ==>
        (r.Success? <==> text in StrConv.TrueLiterals + StrConv.FalseLiterals)
    ensures varType == "boolean" && r.Success? ==>
        r.value == BoolDefault(text in StrConv.TrueLiterals)
    ensures varType == "integer" ==>
        (r.Success? <==> StrConv.IsDecimalLiteral(text)
                         && StrConv.MinInt64 <= StrConv.LiteralValue(text) <= StrConv.MaxInt64)
    ensures varType == "integer" && r.Success? ==>
        r.value == IntDefault(StrConv.LiteralValue(text))
    ensures varType == "number" ==> (r.Success? <==> parseFloat(text).Success?)
    ensures varType == "number" && r.Success? ==> r.value == NumberDefault(parseFloat(text).value)
    ensures varType == "boolean" && r.Failure? ==> r.error == ConversionError(StrConv.ParseBool(text).error)
    ensures varType == "integer" && r.Failure? ==> r.error == ConversionError(StrConv.Atoi(text).error)
    ensures varType == "number" && r.Failure? ==> r.error == ConversionError(parseFloat(text).error)
  {
  }

  /** The default rules of one property. */
  lemma BuildPropertyDefault(p: ConfigProperty, index: nat, parseFloat: FloatParser, r: Result<DatatableProperty, Error>)
    requires r == BuildProperty(p, index, parseFloat)
    ensures r.Success? ==> (r.value.defaultValue.Some? <==> HasNonEmptyDefault(p))
    ensures r.Success? && r.value.defaultValue.Some? ==> HasType(r.value.defaultValue.value, p.varType)
    ensures r.Success? && HasNonEmptyDefault(p) ==>
      && ConvertDefault(p.varType, p.name, p.defaultValue.value, parseFloat).Success?
      && r.value.defaultValue == Some(ConvertDefault(p.varType, p.name, p.defaultValue.value, parseFloat).value)
    ensures r.Failure? <==>
        HasNonEmptyDefault(p) && ConvertDefault(p.varType, p.name, p.defaultValue.value, parseFloat).Failure?
    ensures r.Failure? ==>
        ConvertDefault(p.varType, p.name, p.defaultValue.value, parseFloat) == Failure(r.error)
    ensures p.varType == "string" && HasNonEmptyDefault(p) ==>
        r.Success? && r.value.defaultValue == Some(StringDefault(p.defaultValue.value))
    ensures p.varType !in ValidTypes ==>
        (r.Failure? <==> HasNonEmptyDefault(p)) && (r.Failure? ==> r.error == InvalidType(p.varType, p.name))
  {
    if p.defaultValue.Some? {
      var text := p.defaultValue.value;
      ConvertDefaultTyped(p.varType, p.name, text, parseFloat, ConvertDefault(p.varType, p.name, text, parseFloat));
    }
  }

  predicate AllPropertiesBuild(props: seq<ConfigProperty>, parseFloat: FloatParser)
  {
    forall i :: 0 <= i < |props| ==> BuildProperty(props[i], i, parseFloat).Success?
  }

  /** e is the error of the first property of the list that fails to build. */
  ghost predicate IsFirstFailure(props: seq<ConfigProperty>, parseFloat: FloatParser, e: Error)
  {
    exists k ::
      && 0 <= k < |props|
      && BuildProperty(props[k], k, parseFloat) == Failure(e)
      && forall j :: 0 <= j < k ==> BuildProperty(props[j], j, parseFloat).Success?
  }

  function Names(props: seq<ConfigProperty>): set<string>
  {
    set i | 0 <= i < |props| :: props[i].name
  }

  predicate DistinctNames(props: seq<ConfigProperty>)
  {
    forall i, j :: 0 <= i < j < |props| ==> props[i].name != props[j].name
  }

  /** The position of the last property called name, or -1 when there is none. */
  function LastIndexOf(props: seq<ConfigProperty>, name: string): (k: int)
    ensures -1 <= k < |props|
    ensures k >= 0 ==> props[k].name == name
    ensures forall j :: k < j < |props| ==> props[j].name != name
  {
    if props == [] then -1
    else if props[|props| - 1].name == name then |props| - 1
    else LastIndexOf(props[..|props| - 1], name)
  }

  /**
   * The map left by assigning values[i] to key props[i].name for i = 0, 1, ...
   * in turn, starting from the empty map: keyed by property name.
   */
  function LastWins(props: seq<ConfigProperty>, values: seq<DatatableProperty>): (m: map<string, DatatableProperty>)
    requires |values| == |props|
    ensures m.Keys == Names(props)
    decreases |props|
  {
    if props == [] then map[]
    else
      var n := |props| - 1;
      assert props == props[..n] + [props[n]];
      NamesSnoc(props[..n], props[n]);
      LastWins(props[..n], values[..n])[props[n].name := values[n]]
  }

  lemma NamesSnoc(s: seq<ConfigProperty>, x: ConfigProperty)
    ensures Names(s + [x]) == Names(s) + {x.name}
  {
    var t := s + [x];
    forall j | 0 <= j < |s| ensures s[j].name in Names(t) {
      assert t[j] == s[j];
    }
    assert t[|s|] == x;
  }

  /** One more assignment adds (or overwrites) exactly one key. */
  lemma LastWinsSnoc(s: seq<ConfigProperty>, values: seq<DatatableProperty>, x: ConfigProperty, v: DatatableProperty)
    requires |values| == |s|
    ensures LastWins(s + [x], values + [v]) == LastWins(s, values)[x.name := v]
  {
    assert (s + [x])[..|s|] == s;
    assert (values + [v])[..|s|] == values;
  }

  /** Since a later assignment overwrites, each key holds the value of the LAST position carrying its name. */
  lemma {:induction false} LastWinsAt(props: seq<ConfigProperty>, values: seq<DatatableProperty>, name: string)
    requires |values| == |props|
    requires name in Names(props)
    ensures 0 <= LastIndexOf(props, name)
    ensures LastWins(props, values)[name] == values[LastIndexOf(props, name)]
    decreases |props|
  {
    var n := |props| - 1;
    if props[n].name != name {
      assert props == props[..n] + [props[n]];
      NamesSnoc(props[..n], props[n]);
      LastWinsAt(props[..n], values[..n], name);
    }
  }

  /** The property built at each position of a list whose properties all build. */
  function BuiltValues(props: seq<ConfigProperty>, parseFloat: FloatParser): (vs: seq<DatatableProperty>)
    requires AllPropertiesBuild(props, parseFloat)
    ensures |vs| == |props|
    ensures forall i :: 0 <= i < |props| ==> BuildProperty(props[i], i, parseFloat) == Success(vs[i])
  {
    seq(|props|, i requires 0 <= i < |props| && BuildProperty(props[i], i, parseFloat).Success? =>
      BuildProperty(props[i], i, parseFloat).value)
  }

  /** The map the build loop leaves behind. */
  function PropertyMap(props: seq<ConfigProperty>, parseFloat: FloatParser): (m: map<string, DatatableProperty>)
    requires AllPropertiesBuild(props, parseFloat)
    ensures m.Keys == Names(props)
  {
    LastWins(props, BuiltValues(props, parseFloat))
  }

  /**
   * The entry for a listed name is the property built from its last
   * occurrence: its id is the prefixed name, its display order that
   * occurrence's index, its type and title those configured there, and it
   * has a default exactly when a non-empty one was configured there.
   */
  lemma PropertyMapEntry(props: seq<ConfigProperty>, parseFloat: FloatParser, name: string)
    requires AllPropertiesBuild(props, parseFloat)
    requires name in PropertyMap(props, parseFloat)
    ensures 0 <= LastIndexOf(props, name)
    ensures var k := LastIndexOf(props, name);
      var e := PropertyMap(props, parseFloat)[name];
      && e == BuildProperty(props[k], k, parseFloat).value
      && e.id == Some(PropertyIdPrefix + name)
      && e.displayOrder == Some(k)
      && e.varType == Some(props[k].varType)
      && e.title == props[k].title
      && (e.defaultValue.Some? <==> HasNonEmptyDefault(props[k]))
  {
    LastWinsAt(props, BuiltValues(props, parseFloat), name);
    var k := LastIndexOf(props, name);
    BuildPropertyDefault(props[k], k, parseFloat, BuildProperty(props[k], k, parseFloat));
  }

  /** Every key of m carries, as display order, the last list position of that name. */
  ghost predicate OrdersAreLastIndices(props: seq<ConfigProperty>, m: map<string, DatatableProperty>)
  {
    forall name :: name in m ==> 0 <= LastIndexOf(props, name) && m[name].displayOrder == Some(LastIndexOf(props, name))
  }

  /** Every key's display order is the last position of that name in the list. */
  lemma PropertyMapOrders(props: seq<ConfigProperty>, parseFloat: FloatParser)
    requires AllPropertiesBuild(props, parseFloat)
    ensures OrdersAreLastIndices(props, PropertyMap(props, parseFloat))
  {
    forall name | name in PropertyMap(props, parseFloat)
      ensures && 0 <= LastIndexOf(props, name)
              && PropertyMap(props, parseFloat)[name].displayOrder == Some(LastIndexOf(props, name))
    {
      PropertyMapEntry(props, parseFloat, name);
    }
  }

  /**
   * buildSdkDatatableProperties: a nil list gives no map and no error;
   * otherwise the loop fills the map, stopping at the first property that
   * fails to build and returning that property's error.
   */
  method BuildProperties(properties: Option<seq<ConfigProperty>>, parseFloat: FloatParser)
    returns (r: Result<Option<map<string, DatatableProperty>>, Error>)
    ensures properties.None? ==> r == Success(None)
    ensures properties.Some? && AllPropertiesBuild(properties.value, parseFloat) ==>
      r == Success(Some(PropertyMap(properties.value, parseFloat)))
    ensures properties.Some? && !AllPropertiesBuild(properties.value, parseFloat) ==>
      r.Failure? && IsFirstFailure(properties.value, parseFloat, r.error)
  {
    if properties.None? {
      return Success(None);
    }
    var props := properties.value;
    var sdkProps: map<string, DatatableProperty> := map[];
    ghost var built: seq<DatatableProperty> := [];
    var i := 0;
    while i < |props|
      invariant 0 <= i <= |props| && |built| == i
      invariant forall j :: 0 <= j < i ==> BuildProperty(props[j], j, parseFloat) == Success(built[j])
      invariant sdkProps == LastWins(props[..i], built)
    {
      var p := props[i];
      var sdkProp := BuildProperty(p, i, parseFloat);
      if sdkProp.Failure? {
        return Failure(sdkProp.error);
      }
      assert props[..i + 1] == props[..i] + [p];
      LastWinsSnoc(props[..i], built, p, sdkProp.value);
      sdkProps := sdkProps[p.name := sdkProp.value];
      built := built + [sdkProp.value];
      i := i + 1;
    }
    assert props[..i] == props;
    assert built == BuiltValues(props, parseFloat);
    return Success(Some(sdkProps));
  }

  /**
   * buildSdkDatatableSchema: the fixed draft-04 object schema around the
   * property map; an error from building the properties is passed on as is.
   */
  method BuildSchema(properties: Option<seq<ConfigProperty>>, parseFloat: FloatParser)
    returns (r: Result<JsonSchemaDocument, Error>)
    ensures r.Success? ==>
      && r.value.schema == Some(DraftFourSchemaUri)
      && r.value.varType == Some("object")
      && r.value.required == Some(["key"])
      && r.value.additionalProperties == Some(false)
    ensures properties.None? ==> r.Success? && r.value.properties == None
    ensures properties.Some? && AllPropertiesBuild(properties.value, parseFloat) ==>
      r.Success? && r.value.properties == Some(PropertyMap(properties.value, parseFloat))
    ensures properties.Some? && !AllPropertiesBuild(properties.value, parseFloat) ==>
      r.Failure? && IsFirstFailure(properties.value, parseFloat, r.error)
  {
    var built := BuildProperties(properties, parseFloat);
    match built
    case Failure(e) =>
      r := Failure(e);
    case Success(props) =>
      r := Success(JsonSchemaDocument(Some(DraftFourSchemaUri), Some("object"), Some(["key"]), props, Some(false)));
  }

  /** With a repeated name, the later element's property replaces the earlier one's. */
  lemma LaterDuplicateOverwrites(props: seq<ConfigProperty>, parseFloat: FloatParser, i: nat, j: nat)
    requires AllPropertiesBuild(props, parseFloat)
    requires i < j < |props| && props[i].name == props[j].name
    ensures props[i].name in PropertyMap(props, parseFloat)
    ensures PropertyMap(props, parseFloat)[props[i].name] != BuildProperty(props[i], i, parseFloat).value
  {
    assert props[i].name in Names(props);
    PropertyMapEntry(props, parseFloat, props[i].name);
    var k := LastIndexOf(props, props[i].name);
    assert j <= k;
  }

  /** The entry for the last element carrying a name is exactly that element's property. */
  lemma LastOccurrenceKept(props: seq<ConfigProperty>, parseFloat: FloatParser, i: nat)
    requires AllPropertiesBuild(props, parseFloat)
    requires i < |props|
    requires forall j :: i < j < |props| ==> props[j].name != props[i].name
    ensures PropertyMap(props, parseFloat)[props[i].name] == BuildProperty(props[i], i, parseFloat).value
  {
    assert props[i].name in Names(props);
    PropertyMapEntry(props, parseFloat, props[i].name);
  }

  lemma {:induction false} NamesCardinality(props: seq<ConfigProperty>)
    ensures |Names(props)| <= |props|
    ensures |Names(props)| == |props| <==> DistinctNames(props)
  {
    if props != [] {
      var n := |props|;
      var s, x := props[..n - 1], props[n - 1];
      NamesCardinality(s);
      assert props == s + [x];
      NamesSnoc(s, x);
      if x.name in Names(s) {
        var j :| 0 <= j < n - 1 && s[j].name == x.name;
        assert props[j].name == props[n - 1].name;
      } else {
        assert |Names(props)| == |Names(s)| + 1;
        assert DistinctNames(props) <==> DistinctNames(s);
      }
    }
  }

  /** The map has one key per list element exactly when no name is repeated. */
  lemma PropertyMapSize(props: seq<ConfigProperty>, parseFloat: FloatParser)
    requires AllPropertiesBuild(props, parseFloat)
    ensures |PropertyMap(props, parseFloat)| <= |props|
    ensures |PropertyMap(props, parseFloat)| == |props| <==> DistinctNames(props)
  {
    var m := PropertyMap(props, parseFloat);
    NamesCardinality(props);
    assert |m| == |m.Keys|;
  }
}
