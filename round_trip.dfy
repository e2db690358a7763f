/**
 * Building the property map and flattening it back: since each property's
 * display order is its list index, flattening lists the configured
 * properties in their configured order, with their names, types and titles,
 * when no name is repeated. A default comes back as the rendering of its
 * converted value, not as the configured text.
 */
module RoundTrip {
  import opened Wrappers
  import opened DatatableTypes
  import opened DatatableSchema
  import opened DatatableFlatten

  predicate StrictlyIncreasing(s: seq<int>)
  {
    forall p, q :: 0 <= p < q < |s| ==> s[p] < s[q]
  }

  lemma {:induction false} AtLeastIndex(s: seq<int>, i: nat)
    requires i < |s| && StrictlyIncreasing(s)
    requires forall j :: 0 <= j < |s| ==> 0 <= s[j]
    ensures i <= s[i]
  {
    if i > 0 {
      AtLeastIndex(s, i - 1);
      assert s[i - 1] < s[i];
    }
  }

  lemma {:induction false} AtMostIndex(s: seq<int>, i: nat)
    requires i < |s| && StrictlyIncreasing(s)
    requires forall j :: 0 <= j < |s| ==> s[j] < |s|
    ensures s[i] <= i
    decreases |s| - i
  {
    if i < |s| - 1 {
      AtMostIndex(s, i + 1);
      assert s[i] < s[i + 1];
    }
  }

  /** A strictly increasing sequence of n values drawn from 0..n-1 is 0, 1, ..., n-1. */
  lemma IncreasingIndicesAreIdentity(s: seq<int>)
    requires StrictlyIncreasing(s)
    requires forall j :: 0 <= j < |s| ==> 0 <= s[j] < |s|
    ensures forall i :: 0 <= i < |s| ==> s[i] == i
  {
    forall i | 0 <= i < |s| ensures s[i] == i {
      AtLeastIndex(s, i);
      AtMostIndex(s, i);
    }
  }

  /**
   * The list positions whose properties the elements of a flattening came
   * from strictly increase: display orders do not decrease along the
   * flattening, each key's display order is its last position in the list,
   * and different elements name different keys.
   */
  lemma SourceIndicesIncrease(props: seq<ConfigProperty>, m: map<string, DatatableProperty>, out: seq<StateProperty>)
    returns (ks: seq<int>)
    requires forall i :: 0 <= i < |out| ==> out[i].name in m
    requires forall i, j :: 0 <= i < j < |out| ==> out[i].name != out[j].name
    requires forall i, j :: 0 <= i < j < |out| ==> OrderOf(m[out[i].name]) <= OrderOf(m[out[j].name])
    requires OrdersAreLastIndices(props, m)
    ensures |ks| == |out| && StrictlyIncreasing(ks)
    ensures forall i :: 0 <= i < |out| ==> 0 <= ks[i] < |props| && props[ks[i]].name == out[i].name
  {
    ks := seq(|out|, i requires 0 <= i < |out| => LastIndexOf(props, out[i].name));
    forall p, q | 0 <= p < q < |ks| ensures ks[p] < ks[q] {
      assert OrderOf(m[out[p].name]) <= OrderOf(m[out[q].name]);
      assert props[ks[p]].name == out[p].name != out[q].name == props[ks[q]].name;
    }
  }

  /**
   * A flattening of a map with one key per list element, where each key's
   * display order is its last position in the list, names the list's
   * elements in list order.
   */
  lemma NamesInListOrder(props: seq<ConfigProperty>, m: map<string, DatatableProperty>, render: DefaultValue -> string,
                         out: seq<StateProperty>)
    requires IsFlattening(m, render, out) && |m| == |props|
    requires OrdersAreLastIndices(props, m)
    ensures forall i :: 0 <= i < |props| ==> out[i].name == props[i].name
  {
    var ks := SourceIndicesIncrease(props, m, out);
    IncreasingIndicesAreIdentity(ks);
    forall i | 0 <= i < |props| ensures out[i].name == props[i].name {
      assert ks[i] == i;
    }
  }

  /**
   * With distinct names, element i of any flattening of the built map is
   * named after the i-th configured property.
   */
  lemma FlattenedNamesInListOrder(props: seq<ConfigProperty>, parseFloat: FloatParser, render: DefaultValue -> string,
                                  out: seq<StateProperty>)
    requires AllPropertiesBuild(props, parseFloat) && DistinctNames(props)
    requires IsFlattening(PropertyMap(props, parseFloat), render, out)
    ensures |out| == |props|
    ensures forall i :: 0 <= i < |props| ==> out[i].name == props[i].name
  {
    PropertyMapSize(props, parseFloat);
    PropertyMapOrders(props, parseFloat);
    NamesInListOrder(props, PropertyMap(props, parseFloat), render, out);
  }

  /** With distinct names, the entry for the i-th name is the property built from position i. */
  lemma EntryOfPosition(props: seq<ConfigProperty>, parseFloat: FloatParser, i: nat)
    requires AllPropertiesBuild(props, parseFloat) && DistinctNames(props)
    requires i < |props|
    ensures props[i].name in PropertyMap(props, parseFloat)
    ensures PropertyMap(props, parseFloat)[props[i].name] == BuildProperty(props[i], i, parseFloat).value
  {
    assert props[i].name in Names(props);
    PropertyMapEntry(props, parseFloat, props[i].name);
  }

  /** With distinct names, element i of a flattening of the built map renders the property built at i. */
  lemma FlattenedElementAt(props: seq<ConfigProperty>, parseFloat: FloatParser, render: DefaultValue -> string,
                           out: seq<StateProperty>, i: nat)
    requires AllPropertiesBuild(props, parseFloat) && DistinctNames(props)
    requires IsFlattening(PropertyMap(props, parseFloat), render, out)
    requires i < |props|
    ensures i < |out| && out[i] == ToStateProperty(props[i].name, BuildProperty(props[i], i, parseFloat).value, render)
  {
    FlattenedNamesInListOrder(props, parseFloat, render, out);
    EntryOfPosition(props, parseFloat, i);
  }

  /**
   * Round trip: for a list with distinct names whose properties all build,
   * flattening the built map gives one element per configured property, in
   * the configured order, with the same name, type and title, and a default
   * exactly where a non-empty one was configured.
   */
  lemma FlattenAfterBuild(props: seq<ConfigProperty>, parseFloat: FloatParser, render: DefaultValue -> string,
                          out: seq<StateProperty>)
    requires AllPropertiesBuild(props, parseFloat) && DistinctNames(props)
    requires IsFlattening(PropertyMap(props, parseFloat), render, out)
    ensures |out| == |props|
    ensures forall i :: 0 <= i < |props| ==>
      && out[i].name == props[i].name
      && out[i].varType == Some(props[i].varType)
      && out[i].title == props[i].title
      && (out[i].defaultValue.Some? <==> HasNonEmptyDefault(props[i]))
  {
    FlattenedNamesInListOrder(props, parseFloat, render, out);
    forall i | 0 <= i < |props|
      ensures && out[i].name == props[i].name
              && out[i].varType == Some(props[i].varType)
              && out[i].title == props[i].title
              && (out[i].defaultValue.Some? <==> HasNonEmptyDefault(props[i]))
    {
      FlattenedElementAt(props, parseFloat, render, out, i);
      BuildPropertyDefault(props[i], i, parseFloat, BuildProperty(props[i], i, parseFloat));
    }
  }

  /**
   * A configured non-empty default comes back as render applied to its
   * converted value: for a boolean the truth of the text being one of the
   * true literals, for an integer the value of the literal.
   */
  lemma FlattenAfterBuildDefault(props: seq<ConfigProperty>, parseFloat: FloatParser,
                                 render: DefaultValue -> string, out: seq<StateProperty>, i: nat)
    requires AllPropertiesBuild(props, parseFloat) && DistinctNames(props)
    requires IsFlattening(PropertyMap(props, parseFloat), render, out)
    requires i < |props| && HasNonEmptyDefault(props[i])
    ensures ConvertDefault(props[i].varType, props[i].name, props[i].defaultValue.value, parseFloat).Success?
    ensures i < |out| && out[i].defaultValue ==
      Some(render(ConvertDefault(props[i].varType, props[i].name, props[i].defaultValue.value, parseFloat).value))
  {
    FlattenedElementAt(props, parseFloat, render, out, i);
    BuildPropertyDefault(props[i], i, parseFloat, BuildProperty(props[i], i, parseFloat));
  }

  /** A string default comes back as render applied to the stored string. */
  lemma FlattenAfterBuildStringDefault(props: seq<ConfigProperty>, parseFloat: FloatParser,
                                       render: DefaultValue -> string, out: seq<StateProperty>, i: nat)
    requires AllPropertiesBuild(props, parseFloat) && DistinctNames(props)
    requires IsFlattening(PropertyMap(props, parseFloat), render, out)
    requires i < |props| && props[i].varType == "string" && HasNonEmptyDefault(props[i])
    ensures i < |out| && out[i].defaultValue == Some(render(StringDefault(props[i].defaultValue.value)))
  {
    FlattenedElementAt(props, parseFloat, render, out, i);
    BuildPropertyDefault(props[i], i, parseFloat, BuildProperty(props[i], i, parseFloat));
  }
}
