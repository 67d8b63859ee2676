/**
 * The autocomplete widget: the suggestion filter over the datasource, the
 * selection list it manages, and the form-control hooks through which a host
 * form reads and writes that list.
 */
module LmtAutocomplete {
  import opened Wrappers
  import opened LmtAutocompleteParam

  // ---------------------------------------------------------------------------
  // Case folding and prefix matching
  // ---------------------------------------------------------------------------

  /** Lower-casing of one character, for the ASCII letters: no capital remains, anything else is kept. */
  function LowerChar(c: char): (r: char)
    ensures !('A' <= r <= 'Z')
    ensures !('A' <= c <= 'Z') ==> r == c
    ensures 'A' <= c <= 'Z' ==> 'a' <= r <= 'z' && r as int - c as int == 'a' as int - 'A' as int
  {
    if 'A' <= c <= 'Z' then (c as int + 32) as char else c
  }

  /** `toLowerCase`, restricted to ASCII: same length, and no capital letter remains. */
  function Lower(s: string): (r: string)
    ensures |r| == |s|
    ensures forall i :: 0 <= i < |r| ==> !('A' <= r[i] <= 'Z')
  {
    seq(|s|, i requires 0 <= i < |s| => LowerChar(s[i]))
  }

  /**
   * The test `defaultFilter` applies to one item: the lower-cased query occurs
   * at index 0 of the lower-cased filter attribute, that is, it is a prefix.
   */
  predicate Matches(item: Item, attr: string, q: string): (b: bool)
    requires attr in item
    ensures b <==>
              && |q| <= |item[attr]|
              && forall i :: 0 <= i < |q| ==> LowerChar(q[i]) == LowerChar(item[attr][i])
  {
    var lq, lv := Lower(q), Lower(item[attr]);
    assert forall i :: 0 <= i < |lq| ==> lq[i] == LowerChar(q[i]);
    assert forall i :: 0 <= i < |lv| ==> lv[i] == LowerChar(item[attr][i]);
    assert |lq| <= |lv| ==> (lq <= lv <==> lq == lv[..|lq|]);
    lq <= lv
  }

  /** Every small letter is the lower-cased form of its capital, so a capital in the query matches. */
  lemma LowerCharOfCapital(c: char)
    requires 'a' <= c <= 'z'
    ensures LowerChar((c as int - 32) as char) == c
  {
  }

  lemma LowerIdempotent(s: string)
    ensures Lower(Lower(s)) == Lower(s)
  {
  }

  // ---------------------------------------------------------------------------
  // The suggestion filter
  // ---------------------------------------------------------------------------

  /**
   * `Array.prototype.filter`: the elements that `keep` accepts, in their order.
   * It is defined on the list with its last element split off, so that
   * appending to the input appends to the result.
   */
  function Filter<T>(s: seq<T>, keep: T -> bool): (r: seq<T>)
    ensures |r| <= |s|
    ensures forall k :: 0 <= k < |r| ==> r[k] in s && keep(r[k])
    decreases |s|
  {
    if s == [] then []
    else
      var n := |s| - 1;
      Filter(s[..n], keep) + (if keep(s[n]) then [s[n]] else [])
  }

  /**
   * Reference definition of what `filter` selects: the positions whose element
   * is accepted, in increasing order, and all of them.
   */
  ghost function KeptIndices<T>(s: seq<T>, keep: T -> bool): (idx: seq<nat>)
    ensures forall k :: 0 <= k < |idx| ==> idx[k] < |s| && keep(s[idx[k]])
    ensures forall k, l :: 0 <= k < l < |idx| ==> idx[k] < idx[l]
    ensures forall i :: 0 <= i < |s| && keep(s[i]) ==> i in idx
    decreases |s|
  {
    if s == [] then []
    else
      var n := |s| - 1;
      var front := KeptIndices(s[..n], keep);
      assert forall k :: 0 <= k < |front| ==> s[front[k]] == s[..n][front[k]];
      assert forall i :: 0 <= i < n ==> s[i] == s[..n][i];
      front + (if keep(s[n]) then [n] else [])
  }

  /**
   * `filter` returns exactly the accepted elements, as a subsequence in input
   * order: its k-th element is the element at the k-th accepted position.
   */
  lemma {:induction false} FilterIsKeptSubsequence<T>(s: seq<T>, keep: T -> bool)
    ensures |Filter(s, keep)| == |KeptIndices(s, keep)|
    ensures forall k :: 0 <= k < |Filter(s, keep)| ==> Filter(s, keep)[k] == s[KeptIndices(s, keep)[k]]
  {
    if s != [] {
      var n := |s| - 1;
      var init := s[..n];
      FilterIsKeptSubsequence(init, keep);
      var r, front := Filter(init, keep), KeptIndices(init, keep);
      assert Filter(s, keep) == r + (if keep(s[n]) then [s[n]] else []);
      assert KeptIndices(s, keep) == front + (if keep(s[n]) then [n] else []);
      forall k | 0 <= k < |r|
        ensures Filter(s, keep)[k] == s[KeptIndices(s, keep)[k]]
      {
        assert r[k] == init[front[k]];
      }
    }
  }

  /** Filtering a concatenation filters each part: `filter` keeps relative order. */
  lemma {:induction false} FilterDistributes<T>(a: seq<T>, b: seq<T>, keep: T -> bool)
    ensures Filter(a + b, keep) == Filter(a, keep) + Filter(b, keep)
  {
    if b == [] {
      assert a + b == a;
    } else {
      var n := |b| - 1;
      var ab, init := a + b, b[..n];
      var tail := if keep(b[n]) then [b[n]] else [];
      assert ab[..|ab| - 1] == a + init && ab[|ab| - 1] == b[n];
      assert Filter(ab, keep) == Filter(a + init, keep) + tail;
      FilterDistributes(a, init, keep);
      assert Filter(b, keep) == Filter(init, keep) + tail;
      assert Filter(a, keep) + Filter(init, keep) + tail == Filter(a, keep) + (Filter(init, keep) + tail);
    }
  }

  /** `filter` with a test every element passes returns its input unchanged. */
  lemma {:induction false} FilterKeepsAll<T>(s: seq<T>, keep: T -> bool)
    requires forall i :: 0 <= i < |s| ==> keep(s[i])
    ensures Filter(s, keep) == s
  {
    if s != [] {
      var n := |s| - 1;
      FilterKeepsAll(s[..n], keep);
      assert s[..n] + [s[n]] == s;
    }
  }

  /** Two tests that agree on every element select the same elements. */
  lemma {:induction false} FilterCongruent<T>(s: seq<T>, keep1: T -> bool, keep2: T -> bool)
    requires forall i :: 0 <= i < |s| ==> keep1(s[i]) == keep2(s[i])
    ensures Filter(s, keep1) == Filter(s, keep2)
  {
    if s != [] {
      FilterCongruent(s[..|s| - 1], keep1, keep2);
    }
  }

  /** The callback `defaultFilter` hands to `filter`. */
  function PrefixTest(attr: string, q: string): (test: Item -> bool)
    ensures forall item :: attr in item ==> (test(item) <==> Matches(item, attr, q))
  {
    item => attr in item && Matches(item, attr, q)
  }

  /**
   * `datasource.filter(...)` in `defaultFilter`: every returned item comes from
   * the datasource and its lower-cased filter attribute starts with the
   * lower-cased query.
   */
  function FilterByPrefix(ds: seq<Item>, attr: string, q: string): (r: seq<Item>)
    requires AllHave(ds, attr)
    ensures |r| <= |ds|
    ensures forall x :: x in r ==> x in ds && attr in x && Matches(x, attr, q)
  {
    Filter(ds, PrefixTest(attr, q))
  }

  /**
   * The prefix filter returns exactly the matching items, in datasource order:
   * its k-th element is the item at the k-th position whose item matches.
   */
  lemma {:induction false} PrefixFilterIsMatchingSubsequence(ds: seq<Item>, attr: string, q: string)
    requires AllHave(ds, attr)
    ensures var idx := KeptIndices(ds, PrefixTest(attr, q));
            && (forall i :: 0 <= i < |ds| && Matches(ds[i], attr, q) ==> i in idx)
            && (forall k :: 0 <= k < |idx| ==> idx[k] < |ds| && Matches(ds[idx[k]], attr, q))
            && |FilterByPrefix(ds, attr, q)| == |idx|
            && forall k :: 0 <= k < |idx| ==> FilterByPrefix(ds, attr, q)[k] == ds[idx[k]]
  {
    FilterIsKeptSubsequence(ds, PrefixTest(attr, q));
  }

  /** The empty query is a prefix of everything, so it keeps the whole datasource. */
  lemma EmptyQueryKeepsAll(ds: seq<Item>, attr: string)
    requires AllHave(ds, attr)
    ensures FilterByPrefix(ds, attr, "") == ds
  {
    FilterKeepsAll(ds, PrefixTest(attr, ""));
  }

  /** Matching is case-insensitive on the query side too. */
  lemma FilterIgnoresQueryCase(ds: seq<Item>, attr: string, q: string)
    requires AllHave(ds, attr)
    ensures FilterByPrefix(ds, attr, Lower(q)) == FilterByPrefix(ds, attr, q)
  {
    LowerIdempotent(q);
    FilterCongruent(ds, PrefixTest(attr, Lower(q)), PrefixTest(attr, q));
  }

  /**
   * The value the item control emits: `null`, a string typed by the user, or
   * some other value (an option object the panel writes into the control), which
   * JavaScript treats as true or false in a condition.
   */
  datatype Query = NullQuery | Text(text: string) | NonString(truthy: bool)

  /** JavaScript truthiness of a query: `null` and `""` are false, other strings true. */
  predicate Truthy(q: Query): (b: bool)
    ensures q.NullQuery? ==> !b
    ensures q.Text? ==> (b <==> |q.text| > 0)
    ensures q.NonString? ==> b == q.truthy
  {
    match q
    case NullQuery => false
    case Text(s) => s != ""
    case NonString(t) => t
  }

  /**
   * `defaultFilter`: `undefined` (here `None`) for a query that is not a string;
   * otherwise the prefix filter of the datasource on the filter attribute.
   */
  function DefaultFilter(p: Parameter, q: Query): (r: Option<seq<Item>>)
    requires q.Text? ==> AllHave(p.datasource, p.attributeNameForFilter)
    ensures r.Some? <==> q.Text?
    ensures r.Some? ==> forall x :: x in r.value ==> x in p.datasource
  {
    if !q.Text? then None
    else Some(FilterByPrefix(p.datasource, p.attributeNameForFilter, q.text))
  }

  /** The mapping of `getFilterCallback`: a falsy query shows a copy of the datasource. */
  function Suggestions(p: Parameter, q: Query): (r: Option<seq<Item>>)
    requires q.Text? && q.text != "" ==> AllHave(p.datasource, p.attributeNameForFilter)
    ensures !Truthy(q) ==> r == Some(p.datasource)
    ensures q.NonString? && q.truthy ==> r == None
  {
    if Truthy(q) then DefaultFilter(p, q) else Some(p.datasource)
  }

  /**
   * On every string query the mapping agrees with the prefix filter, the empty
   * string included: the short cut for `""` changes nothing.
   */
  lemma SuggestionsOfText(p: Parameter, s: string)
    requires AllHave(p.datasource, p.attributeNameForFilter)
    ensures Suggestions(p, Text(s)) == Some(FilterByPrefix(p.datasource, p.attributeNameForFilter, s))
  {
    if s == "" {
      EmptyQueryKeepsAll(p.datasource, p.attributeNameForFilter);
    }
  }

  /** Example: over Anna, Amy and Bob the query "Am" selects only Amy. */
  lemma FilterExample()
    ensures var anna := map["name" := "Anna", "id" := "1"];
            var amy := map["name" := "Amy", "id" := "2"];
            var bob := map["name" := "Bob", "id" := "3"];
            FilterByPrefix([anna, amy, bob], "name", "Am") == [amy]
  {
    var anna := map["name" := "Anna", "id" := "1"];
    var amy := map["name" := "Amy", "id" := "2"];
    var bob := map["name" := "Bob", "id" := "3"];
    var ds := [anna, amy, bob];
    assert Lower("Am") == "am";
    assert Lower("Anna") == "anna";
    assert Lower("Amy") == "amy";
    assert Lower("Bob") == "bob";
    assert !Matches(anna, "name", "Am") by { assert Lower("Anna")[1] == 'n'; }
    assert Matches(amy, "name", "Am") by { assert Lower("Amy")[..2] == "am"; }
    assert !Matches(bob, "name", "Am") by { assert Lower("Bob")[0] == 'b'; }
    assert ds[..2][..1] == [anna];
    assert ds[..2] == [anna, amy];
    assert [anna][..0] == [];
    assert FilterByPrefix([anna], "name", "Am") == [];
    assert FilterByPrefix([anna, amy], "name", "Am") == [amy];
  }

  // ---------------------------------------------------------------------------
  // Removal by key: `R.findIndex(R.propEq(key, v))` then `splice(i, 1)`
  // ---------------------------------------------------------------------------

  /** `item[key]`: the attribute's value, or `undefined` (here `None`) when the item lacks it. */
  function KeyOf(item: Item, key: string): (v: Option<string>)
    ensures v.None? <==> key !in item
    ensures v.Some? ==> v.value == item[key]
  {
    if key in item then Some(item[key]) else None
  }

  /**
   * `R.propEq(key, v)(item)`: `item[key]` equals `v`. Two `undefined` values are
   * equal, so `None` matches exactly the items that lack the attribute.
   */
  predicate PropEq(key: string, v: Option<string>, item: Item): (b: bool)
    ensures b <==> KeyOf(item, key) == v
    ensures v.Some? && b ==> key in item && item[key] == v.value
  {
    if key in item then v == Some(item[key]) else v == None
  }

  /** `R.findIndex`: the first position whose item satisfies `PropEq`, or -1. */
  function FindIndex(s: seq<Item>, key: string, v: Option<string>): (i: int)
    ensures -1 <= i < |s|
    ensures i == -1 <==> forall j :: 0 <= j < |s| ==> !PropEq(key, v, s[j])
    ensures 0 <= i ==> PropEq(key, v, s[i]) && forall j :: 0 <= j < i ==> !PropEq(key, v, s[j])
  {
    if s == [] then -1
    else if PropEq(key, v, s[0]) then 0
    else
      var k := FindIndex(s[1..], key, v);
      if k == -1 then -1 else k + 1
  }

  /**
   * The position `splice` starts at: a negative start counts back from the end
   * and is clamped at 0; a start past the end is clamped to the end.
   */
  function SpliceStart(len: nat, start: int): (k: nat)
    ensures k <= len
    ensures 0 <= start <= len ==> k == start
    ensures start < 0 && len + start >= 0 ==> k == len + start
  {
    if start < 0 then (if len + start < 0 then 0 else len + start)
    else if start > len then len
    else start
  }

  /** The array after `splice(start, 1)`: one element removed at the start position, if there is one. */
  function SpliceOne<T>(s: seq<T>, start: int): (r: seq<T>)
    ensures SpliceStart(|s|, start) < |s| ==> |r| == |s| - 1
    ensures SpliceStart(|s|, start) == |s| ==> r == s
  {
    var k := SpliceStart(|s|, start);
    if k < |s| then s[..k] + s[k + 1..] else s
  }

  /** What `removeItem` leaves of the selection list `s` for key value `v`. */
  function RemoveByKey(s: seq<Item>, key: string, v: Option<string>): (r: seq<Item>)
    ensures |r| == if s == [] then 0 else |s| - 1
    ensures multiset(r) <= multiset(s)
  {
    var i := FindIndex(s, key, v);
    assert 0 <= i ==> s == s[..i] + [s[i]] + s[i + 1..];
    assert i < 0 && s != [] ==> s == s[..|s| - 1] + [s[|s| - 1]];
    SpliceOne(s, i)
  }

  /** Some item of `s` has the key value `v`. */
  predicate KeyPresent(s: seq<Item>, key: string, v: Option<string>)
  {
    exists j :: 0 <= j < |s| && PropEq(key, v, s[j])
  }

  /**
   * When some item has the key value, the first such item is removed: one
   * element fewer, the others in their order, the same multiset less that item.
   */
  lemma RemoveByKeyWhenPresent(s: seq<Item>, key: string, v: Option<string>)
    requires KeyPresent(s, key, v)
    ensures var i := FindIndex(s, key, v);
            && 0 <= i < |s|
            && PropEq(key, v, s[i])
            && (forall j :: 0 <= j < i ==> !PropEq(key, v, s[j]))
            && RemoveByKey(s, key, v) == s[..i] + s[i + 1..]
            && |RemoveByKey(s, key, v)| == |s| - 1
            && multiset(RemoveByKey(s, key, v)) + multiset{s[i]} == multiset(s)
  {
    var i := FindIndex(s, key, v);
    assert s == s[..i] + [s[i]] + s[i + 1..];
  }

  /**
   * When no item has the key value, `findIndex` gives -1 and `splice(-1, 1)`
   * drops the last element of a non-empty list; an empty list stays empty.
   */
  lemma RemoveByKeyWhenAbsent(s: seq<Item>, key: string, v: Option<string>)
    requires !KeyPresent(s, key, v)
    ensures FindIndex(s, key, v) == -1
    ensures RemoveByKey(s, key, v) == if s == [] then [] else s[..|s| - 1]
  {
  }

  /**
   * Removing an item that is itself in the list always finds a holder of its
   * key value, so the absent-key branch is reached only for other items.
   */
  lemma {:induction false} SelectedItemKeyPresent(s: seq<Item>, key: string, x: Item)
    requires x in s
    ensures KeyPresent(s, key, KeyOf(x, key))
  {
    var j :| 0 <= j < |s| && s[j] == x;
    assert PropEq(key, KeyOf(x, key), s[j]);
  }

  // ---------------------------------------------------------------------------
  // The component's state
  // ---------------------------------------------------------------------------

  /** The callback registered through `registerOnChange`; `NoOp` is the initial one. */
  datatype Handler = NoOp | Registered(id: nat)

  /** The filter function `setupFilter` installs. */
  datatype FilterKind = DefaultFilterFn | NormalizedFilterFn

  /** The text of the error `setupFilter` throws, before the offending mode. */
  const UnknownFilterMessage: string := "unknown research filter to use: "

  class Component {
    /** `_lmtAutocompleteParam`, undefined until the setter receives a non-nil value. */
    var param: Option<Parameter>
    /** The latest value of `_componentReady`. */
    var ready: bool
    /** `_selectedItems`. */
    var selectedItems: seq<Item>
    /** The text of the input element. */
    var inputText: string
    /** The value of `_itemControl`. */
    var itemControl: Query
    /**
     * The latest query seen by the `_filteredItems` stream, or `None` while
     * that stream is undefined.
     */
    var filterQuery: Option<Query>
    /** `_filter`. */
    var filter: Option<FilterKind>
    /** `onChange`. */
    var onChange: Handler
    /** Every call of `onChange`: the callback called and the list it received. */
    ghost var notified: seq<(Handler, seq<Item>)>

    /** The suggestion stream exists exactly when the component is ready, and then a parameter is set. */
    ghost predicate Valid()
      reads this
    {
      && (ready <==> filterQuery.Some?)
      && (ready ==> param.Some?)
    }

    constructor ()
      ensures Valid()
      ensures param == None && !ready && filterQuery == None && filter == None
      ensures selectedItems == [] && inputText == "" && itemControl == NullQuery
      ensures onChange == NoOp && notified == []
    {
      param := None;
      ready := false;
      selectedItems := [];
      inputText := "";
      itemControl := NullQuery;
      filterQuery := None;
      filter := None;
      onChange := NoOp;
      notified := [];
    }

    /** The suggestion list can be computed: the stream exists and reads only attributes that are there. */
    predicate SuggestionsDefined()
      reads this
    {
      && ready && param.Some? && filterQuery.Some?
      && (filterQuery.value.Text? && filterQuery.value.text != "" ==>
            AllHave(param.value.datasource, param.value.attributeNameForFilter))
    }

    /**
     * The latest value of `filteredItems`: `undefined` exactly for a truthy
     * non-string query, the whole datasource for a falsy one, and the prefix
     * filter for every string.
     */
    function FilteredItems(): (r: Option<seq<Item>>)
      reads this
      requires SuggestionsDefined()
      ensures r.None? <==> filterQuery.value.NonString? && filterQuery.value.truthy
      ensures !Truthy(filterQuery.value) ==> r == Some(param.value.datasource)
      ensures filterQuery.value.Text? && AllHave(param.value.datasource, param.value.attributeNameForFilter) ==>
                r == Some(FilterByPrefix(param.value.datasource, param.value.attributeNameForFilter, filterQuery.value.text))
    {
      if filterQuery.value.Text? && AllHave(param.value.datasource, param.value.attributeNameForFilter) then
        SuggestionsOfText(param.value, filterQuery.value.text);
        Suggestions(param.value, filterQuery.value)
      else
        Suggestions(param.value, filterQuery.value)
    }

    /**
     * `setupFilter`: a known mode installs its filter; any other value throws,
     * leaving the filter as it was. The suggestions shown do not depend on it.
     */
    method SetupFilter(mode: ResearchFilter) returns (thrown: Option<string>)
      requires Valid()
      modifies this`filter
      ensures Valid()
      ensures mode.Natural? ==> thrown == None && filter == Some(DefaultFilterFn)
      ensures mode.Normalized? ==> thrown == None && filter == Some(NormalizedFilterFn)
      ensures mode.Unrecognized? ==>
                thrown == Some(UnknownFilterMessage + mode.raw) && filter == old(filter)
      ensures old(SuggestionsDefined()) ==> SuggestionsDefined() && FilteredItems() == old(FilteredItems())
    {
      match mode
      case Natural =>
        filter := Some(DefaultFilterFn);
        thrown := None;
      case Normalized =>
        filter := Some(NormalizedFilterFn);
        thrown := None;
      case Unrecognized(raw) =>
        thrown := Some(UnknownFilterMessage + raw);
    }

    /**
     * The `lmtAutocompleteParam` setter: nil is ignored; any other value is
     * stored and makes the component ready, which (re)creates the suggestion
     * stream starting from a `null` query.
     */
    method SetParam(p: Option<Parameter>)
      requires Valid()
      modifies this`param, this`ready, this`filterQuery
      ensures Valid()
      ensures p.None? ==> param == old(param) && ready == old(ready) && filterQuery == old(filterQuery)
      ensures p.Some? ==> param == p && ready && filterQuery == Some(NullQuery)
    {
      if p.None? {
        return;
      }
      param := p;
      ready := true;
      filterQuery := Some(NullQuery);
    }

    /** The item control takes a new value; the suggestion stream, if there is one, sees it. */
    method ItemControlValueChanged(q: Query)
      requires Valid()
      modifies this`itemControl, this`filterQuery
      ensures Valid()
      ensures itemControl == q
      ensures filterQuery == if ready then Some(q) else None
    {
      itemControl := q;
      if ready {
        filterQuery := Some(q);
      }
    }

    /**
     * The user types `s` into the input element: the element holds the text and
     * the item control, bound to it, takes the same string.
     */
    method InputTyped(s: string)
      requires Valid()
      modifies this`inputText, this`itemControl, this`filterQuery
      ensures Valid()
      ensures inputText == s && itemControl == Text(s)
      ensures filterQuery == if ready then Some(Text(s)) else None
    {
      inputText := s;
      ItemControlValueChanged(Text(s));
    }

    /**
     * `selectedItem`: the chosen option is appended (a second copy if it is
     * already there), the input is cleared, the control is reset to `null`, and
     * `onChange` receives the whole list.
     */
    method SelectedItem(v: Item)
      requires Valid()
      modifies this`selectedItems, this`inputText, this`itemControl, this`filterQuery, this`notified
      ensures Valid()
      ensures selectedItems == old(selectedItems) + [v]
      ensures inputText == "" && itemControl == NullQuery
      ensures filterQuery == if ready then Some(NullQuery) else None
      ensures notified == old(notified) + [(onChange, selectedItems)]
    {
      selectedItems := selectedItems + [v];
      inputText := "";
      ItemControlValueChanged(NullQuery);
      notified := notified + [(onChange, selectedItems)];
    }

    /**
     * `removeItem`: removes the element at `findIndex` of the key equality and
     * hands the list to `onChange`. A present key value removes its first holder;
     * an absent one removes the last element. An item without the key attribute
     * looks for a selected item that lacks it too.
     */
    method RemoveItem(itemToRemove: Item)
      requires Valid()
      requires param.Some?
      modifies this`selectedItems, this`notified
      ensures Valid()
      ensures selectedItems ==
                RemoveByKey(old(selectedItems), param.value.attributeNameKey,
                            KeyOf(itemToRemove, param.value.attributeNameKey))
      ensures KeyPresent(old(selectedItems), param.value.attributeNameKey,
                         KeyOf(itemToRemove, param.value.attributeNameKey)) ==>
                |selectedItems| == |old(selectedItems)| - 1
      ensures !KeyPresent(old(selectedItems), param.value.attributeNameKey,
                          KeyOf(itemToRemove, param.value.attributeNameKey)) ==>
                selectedItems == if old(selectedItems) == [] then [] else old(selectedItems)[..|old(selectedItems)| - 1]
      ensures notified == old(notified) + [(onChange, selectedItems)]
    {
      var key := param.value.attributeNameKey;
      var v := KeyOf(itemToRemove, key);
      if KeyPresent(selectedItems, key, v) {
        RemoveByKeyWhenPresent(selectedItems, key, v);
      } else {
        RemoveByKeyWhenAbsent(selectedItems, key, v);
      }
      selectedItems := RemoveByKey(selectedItems, key, v);
      notified := notified + [(onChange, selectedItems)];
    }

    /** `writeValue`: the host's values are appended; nothing is replaced and no one is notified. */
    method WriteValue(values: seq<Item>)
      requires Valid()
      modifies this`selectedItems
      ensures Valid()
      ensures selectedItems == old(selectedItems) + values
    {
      selectedItems := selectedItems + values;
    }

    /** `registerOnChange`: later changes are reported to `fn`. */
    method RegisterOnChange(fn: Handler)
      requires Valid()
      modifies this`onChange
      ensures Valid()
      ensures onChange == fn
    {
      onChange := fn;
    }
  }
}
