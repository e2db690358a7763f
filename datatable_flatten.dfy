/**
 * Turning the schema's property map back into the ordered property list
 * kept in state (flattenDatatableProperties).
 */
module DatatableFlatten {
  import opened Wrappers
  import opened DatatableTypes

  /** The sort key of a property: a missing display order counts as 0. */
  function OrderOf(p: DatatableProperty): int
  {
    if p.displayOrder.Some? then p.displayOrder.value else 0
  }

  /** The patch applied before sorting, so that every entry has a display order. */
  function WithDefaultOrder(p: DatatableProperty): (q: DatatableProperty)
    ensures q.displayOrder == Some(OrderOf(p))
    ensures q.(displayOrder := p.displayOrder) == p
  {
    if p.displayOrder.None? then p.(displayOrder := Some(0)) else p
  }

  /** A key and its (patched) property, the element type of the list that is sorted. */
  datatype Entry = Entry(key: string, value: DatatableProperty)

  function EntryOrder(e: Entry): int
  {
    OrderOf(e.value)
  }

  ghost predicate SortedByOrder(s: seq<Entry>)
  {
    forall p, q :: 0 <= p < q < |s| ==> EntryOrder(s[p]) <= EntryOrder(s[q])
  }

  method SwapWithPrevious(a: array<Entry>, j: int)
    requires 0 < j < a.Length
    modifies a
    ensures a[j - 1] == old(a[j]) && a[j] == old(a[j - 1])
    ensures forall k :: 0 <= k < a.Length && k != j - 1 && k != j ==> a[k] == old(a[k])
    ensures multiset(a[..]) == multiset(old(a[..]))
  {
    a[j - 1], a[j] := a[j], a[j - 1];
  }

  /**
   * One step of the insertion sort: a[i] moves left past every strictly larger
   * key, so that the prefix a[..i+1] becomes sorted.
   */
  method InsertIntoPrefix(a: array<Entry>, i: int)
    requires 0 <= i < a.Length
    requires forall p, q :: 0 <= p < q < i ==> EntryOrder(a[p]) <= EntryOrder(a[q])
    modifies a
    ensures forall p, q :: 0 <= p < q <= i ==> EntryOrder(a[p]) <= EntryOrder(a[q])
    ensures forall k :: i < k < a.Length ==> a[k] == old(a[k])
    ensures multiset(a[..]) == multiset(old(a[..]))
  {
    var j := i;
    while j > 0 && EntryOrder(a[j - 1]) > EntryOrder(a[j])
      invariant 0 <= j <= i
      invariant forall p, q :: 0 <= p < q <= i && p != j && q != j ==> EntryOrder(a[p]) <= EntryOrder(a[q])
      invariant forall q :: j < q <= i ==> EntryOrder(a[j]) < EntryOrder(a[q])
      invariant forall k :: i < k < a.Length ==> a[k] == old(a[k])
      invariant multiset(a[..]) == multiset(old(a[..]))
    {
      SwapWithPrevious(a, j);
      j := j - 1;
    }
  }

  /**
   * sort.SliceStable on the entries by display order: an insertion sort that
   * moves an element left only past strictly larger keys.
   */
  method SortByDisplayOrder(a: array<Entry>)
    modifies a
    ensures SortedByOrder(a[..])
    ensures multiset(a[..]) == multiset(old(a[..]))
  {
    var i := 0;
    while i < a.Length
      invariant 0 <= i <= a.Length
      invariant forall p, q :: 0 <= p < q < i ==> EntryOrder(a[p]) <= EntryOrder(a[q])
      invariant multiset(a[..]) == multiset(old(a[..]))
    {
      InsertIntoPrefix(a, i);
      i := i + 1;
    }
  }

  /** The state element for one map entry: name from the key, type, title and default when present. */
  function ToStateProperty(name: string, p: DatatableProperty, render: DefaultValue -> string): StateProperty
  {
    StateProperty(
      name,
      p.varType,
      p.title,
      if p.defaultValue.Some? then Some(render(p.defaultValue.value)) else None)
  }

  lemma {:induction false} DistinctCount<T>(s: seq<T>, x: T)
    requires forall i, j :: 0 <= i < j < |s| ==> s[i] != s[j]
    ensures multiset(s)[x] <= 1
  {
    if s != [] {
      var n := |s|;
      DistinctCount(s[..n - 1], x);
      assert s == s[..n - 1] + [s[n - 1]];
      if s[n - 1] == x {
        assert x !in s[..n - 1];
      }
    }
  }

  /** A permutation of a sequence without repetitions has none either. */
  lemma DistinctPermutation<T>(s: seq<T>, t: seq<T>)
    requires multiset(s) == multiset(t)
    requires forall i, j :: 0 <= i < j < |s| ==> s[i] != s[j]
    ensures forall i, j :: 0 <= i < j < |t| ==> t[i] != t[j]
  {
    forall i, j | 0 <= i < j < |t| ensures t[i] != t[j] {
      if t[i] == t[j] {
        assert t == t[..j] + t[j..];
        assert t[i] in t[..j];
        assert t[j] in t[j..];
        assert multiset(t)[t[i]] >= 2;
        DistinctCount(s, t[i]);
        assert false;
      }
    }
  }

  /** s holds, once each, every key of m with its patched property. */
  ghost predicate IsEntriesOf(m: map<string, DatatableProperty>, s: seq<Entry>)
  {
    && |s| == |m|
    && (forall i :: 0 <= i < |s| ==> s[i].key in m && s[i].value == WithDefaultOrder(m[s[i].key]))
    && (forall k :: k in m ==> Entry(k, WithDefaultOrder(m[k])) in s)
    && (forall i, j :: 0 <= i < j < |s| ==> s[i] != s[j])
  }

  /** Sorting keeps the entries of m, once each. */
  lemma EntriesPermuted(m: map<string, DatatableProperty>, s: seq<Entry>, t: seq<Entry>)
    requires IsEntriesOf(m, s)
    requires multiset(t) == multiset(s)
    ensures IsEntriesOf(m, t)
  {
    DistinctPermutation(s, t);
    assert |t| == |multiset(t)| == |multiset(s)| == |s|;
    forall i | 0 <= i < |t| ensures t[i].key in m && t[i].value == WithDefaultOrder(m[t[i].key]) {
      assert t[i] in multiset(s);
    }
    forall k | k in m ensures Entry(k, WithDefaultOrder(m[k])) in t {
      assert Entry(k, WithDefaultOrder(m[k])) in multiset(t);
    }
  }

  /** The first loop of flattenDatatableProperties: one patched entry per key, in map iteration order. */
  method CollectEntries(properties: map<string, DatatableProperty>) returns (propList: seq<Entry>)
    ensures IsEntriesOf(properties, propList)
  {
    propList := [];
    var remaining := properties.Keys;
    while remaining != {}
      invariant remaining <= properties.Keys
      invariant |propList| + |remaining| == |properties|
      invariant forall i :: 0 <= i < |propList| ==>
        && propList[i].key in properties
        && propList[i].key !in remaining
        && propList[i].value == WithDefaultOrder(properties[propList[i].key])
      invariant forall i, j :: 0 <= i < j < |propList| ==> propList[i] != propList[j]
      invariant forall k :: k in properties && k !in remaining ==> Entry(k, WithDefaultOrder(properties[k])) in propList
      decreases |remaining|
    {
      var k :| k in remaining;
      var v := properties[k];
      if v.displayOrder.None? {
        v := v.(displayOrder := Some(0));
      }
      propList := propList + [Entry(k, v)];
      remaining := remaining - {k};
    }
  }

  /**
   * out is a flattening of m: it names every key of m exactly once, by
   * non-decreasing display order (a missing one counting as 0), and each
   * element is the state element of the entry it names.
   */
  ghost predicate IsFlattening(m: map<string, DatatableProperty>, render: DefaultValue -> string, out: seq<StateProperty>)
  {
    && |out| == |m|
    && (forall i :: 0 <= i < |out| ==> out[i].name in m)
    && (forall k :: k in m ==> exists i :: 0 <= i < |out| && out[i].name == k)
    && (forall i, j :: 0 <= i < j < |out| ==> out[i].name != out[j].name)
    && (forall i, j :: 0 <= i < j < |out| ==> OrderOf(m[out[i].name]) <= OrderOf(m[out[j].name]))
    && (forall i :: 0 <= i < |out| ==> out[i] == ToStateProperty(out[i].name, m[out[i].name], render))
  }

  /** Naming the entries of m in turn names every key of m exactly once. */
  lemma NamesCoverKeys(m: map<string, DatatableProperty>, s: seq<Entry>, out: seq<StateProperty>)
    requires IsEntriesOf(m, s)
    requires |out| == |s| && forall j :: 0 <= j < |s| ==> out[j].name == s[j].key
    ensures forall k :: k in m ==> exists i :: 0 <= i < |out| && out[i].name == k
    ensures forall i, j :: 0 <= i < j < |out| ==> out[i].name != out[j].name
  {
    forall k | k in m ensures exists i :: 0 <= i < |out| && out[i].name == k {
      var j :| 0 <= j < |s| && s[j] == Entry(k, WithDefaultOrder(m[k]));
      assert out[j].name == k;
    }
    forall p, q | 0 <= p < q < |out| ensures out[p].name != out[q].name {
      assert s[p] != s[q];
    }
  }

  /** Naming sorted entries in turn lists keys by ascending display order of the unpatched properties. */
  lemma NamesAscend(m: map<string, DatatableProperty>, s: seq<Entry>, out: seq<StateProperty>)
    requires IsEntriesOf(m, s) && SortedByOrder(s)
    requires |out| == |s| && forall j :: 0 <= j < |s| ==> out[j].name == s[j].key
    ensures forall i, j :: 0 <= i < j < |out| ==> OrderOf(m[out[i].name]) <= OrderOf(m[out[j].name])
  {
    forall p, q | 0 <= p < q < |out| ensures OrderOf(m[out[p].name]) <= OrderOf(m[out[q].name]) {
      assert EntryOrder(s[p]) <= EntryOrder(s[q]);
    }
  }

  /** Rendering a patched entry gives what rendering the map's own property gives. */
  lemma RenderedEntries(m: map<string, DatatableProperty>, s: seq<Entry>, out: seq<StateProperty>,
                        render: DefaultValue -> string)
    requires IsEntriesOf(m, s)
    requires |out| == |s|
    requires forall j :: 0 <= j < |s| ==> out[j] == ToStateProperty(s[j].key, s[j].value, render)
    ensures forall j :: 0 <= j < |out| ==> out[j].name in m
    ensures forall j :: 0 <= j < |out| ==> out[j] == ToStateProperty(out[j].name, m[out[j].name], render)
  {
    forall j | 0 <= j < |s| ensures out[j] == ToStateProperty(s[j].key, m[s[j].key], render) {
      assert s[j].value == WithDefaultOrder(m[s[j].key]);
    }
  }

  /** Rendering sorted entries of m in turn gives a flattening of m. */
  lemma SortedEntriesFlatten(m: map<string, DatatableProperty>, s: seq<Entry>, out: seq<StateProperty>,
                             render: DefaultValue -> string)
    requires IsEntriesOf(m, s) && SortedByOrder(s)
    requires |out| == |s|
    requires forall j :: 0 <= j < |s| ==> out[j] == ToStateProperty(s[j].key, s[j].value, render)
    ensures IsFlattening(m, render, out)
  {
    NamesCoverKeys(m, s, out);
    NamesAscend(m, s, out);
    RenderedEntries(m, s, out, render);
  }

  /** The last loop of flattenDatatableProperties: one state element per sorted entry. */
  method StateProperties(entries: seq<Entry>, render: DefaultValue -> string) returns (configProps: seq<StateProperty>)
    ensures |configProps| == |entries|
    ensures forall j :: 0 <= j < |entries| ==> configProps[j] == ToStateProperty(entries[j].key, entries[j].value, render)
  {
    configProps := [];
    for i := 0 to |entries|
      invariant |configProps| == i
      invariant forall j :: 0 <= j < i ==> configProps[j] == ToStateProperty(entries[j].key, entries[j].value, render)
    {
      var kv := entries[i];
      var propMap := StateProperty(kv.key, None, None, None);
      if kv.value.varType.Some? {
        propMap := propMap.(varType := kv.value.varType);
      }
      if kv.value.title.Some? {
        propMap := propMap.(title := kv.value.title);
      }
      if kv.value.defaultValue.Some? {
        propMap := propMap.(defaultValue := Some(render(kv.value.defaultValue.value)));
      }
      configProps := configProps + [propMap];
    }
  }

  /**
   * flattenDatatableProperties. The map is walked in an unspecified order
   * (Go's map iteration), each entry gets a display order if it lacks one,
   * the entries are sorted by display order and each becomes one state
   * element.
   */
  method FlattenProperties(properties: map<string, DatatableProperty>, render: DefaultValue -> string)
    returns (configProps: seq<StateProperty>)
    ensures IsFlattening(properties, render, configProps)
  {
    var propList := CollectEntries(properties);

    var a := new Entry[|propList|](i requires 0 <= i < |propList| => propList[i]);
    assert a[..] == propList;
    SortByDisplayOrder(a);
    ghost var sorted := a[..];
    EntriesPermuted(properties, propList, sorted);

    configProps := StateProperties(a[..], render);
    SortedEntriesFlatten(properties, sorted, configProps, render);
  }
}
