/** The catalog's filter record, the query string built from it with
    URLSearchParams, and the JSON text of the record that decides when the
    catalog is fetched again. A query is an ordered list of name/value pairs;
    percent-encoding is not modelled. */
module Query {
  import opened JsValue

  /** The filters the root component holds: `{q, rank, min_price, max_price}`,
      each possibly undefined (the initial state is `{}`). */
  datatype FilterParams = FilterParams(q: Option<string>, rank: Option<string>,
                                       minPrice: Option<string>, maxPrice: Option<string>)

  /** The initial filter state `{}`. */
  const NoFilters := FilterParams(None, None, None, None)

  /** The record the filter panel emits while all four of its fields are empty. */
  const EmptyFilters := FilterParams(Some(""), Some(""), Some(""), Some(""))

  type Pair = (string, string)

  /** The query keys in the order the query builder visits them. */
  const QueryKeys: seq<string> := ["q", "rank", "min_price", "max_price"]

  /** The filter value stored under a key name; undefined for any other name. */
  function FieldNamed(f: FilterParams, key: string): Option<string> {
    if key == "q" then f.q
    else if key == "rank" then f.rank
    else if key == "min_price" then f.minPrice
    else if key == "max_price" then f.maxPrice
    else None
  }

  /** `URLSearchParams.get(name)`: the value of the first pair with that name. */
  function Get(list: seq<Pair>, name: string): Option<string>
    decreases |list|
  {
    if list == [] then None
    else if list[0].0 == name then Some(list[0].1)
    else Get(list[1..], name)
  }

  /** The list without any pair named `name`, the other pairs in order. */
  function RemoveAll(list: seq<Pair>, name: string): (r: seq<Pair>)
    decreases |list|
  {
    if list == [] then []
    else if list[0].0 == name then RemoveAll(list[1..], name)
    else [list[0]] + RemoveAll(list[1..], name)
  }

  /** The first pair named `name` gets the new value and later ones are removed. */
  function ReplaceFirst(list: seq<Pair>, name: string, value: string): (r: seq<Pair>)
    ensures Get(list, name).Some? ==> Get(r, name) == Some(value)
    decreases |list|
  {
    if list == [] then []
    else if list[0].0 == name then [(name, value)] + RemoveAll(list[1..], name)
    else [list[0]] + ReplaceFirst(list[1..], name, value)
  }

  /** `URLSearchParams.set(name, value)` as the URLSearchParams class of the
      WHATWG URL Standard defines it: replace the first pair with that name
      and drop the others, or append a new pair when there is none. */
  function SetPair(list: seq<Pair>, name: string, value: string): (r: seq<Pair>)
    ensures Get(r, name) == Some(value)
  {
    if Get(list, name).None? then
      GetConcat(list, [(name, value)], name);
      list + [(name, value)]
    else ReplaceFirst(list, name, value)
  }

  /** Looking a name up in two lists one after the other. */
  lemma {:induction false} GetConcat(a: seq<Pair>, b: seq<Pair>, name: string)
    ensures Get(a + b, name) == if Get(a, name).Some? then Get(a, name) else Get(b, name)
    decreases |a|
  {
    if a != [] {
      assert (a + b)[1..] == a[1..] + b;
      GetConcat(a[1..], b, name);
    } else {
      assert a + b == b;
    }
  }

  /** Removing a name hides it and leaves every other name's lookup alone. */
  lemma {:induction false} GetRemoveAll(list: seq<Pair>, name: string, other: string)
    ensures Get(RemoveAll(list, name), other) == if other == name then None else Get(list, other)
    decreases |list|
  {
    if list != [] {
      GetRemoveAll(list[1..], name, other);
    }
  }

  /** Replacing the first pair of a name changes that name's value only. */
  lemma {:induction false} GetReplaceFirst(list: seq<Pair>, name: string, value: string, other: string)
    requires Get(list, name).Some?
    ensures Get(ReplaceFirst(list, name, value), other) == if other == name then Some(value) else Get(list, other)
    decreases |list|
  {
    if list[0].0 == name {
      GetRemoveAll(list[1..], name, other);
    } else {
      GetReplaceFirst(list[1..], name, value, other);
    }
  }

  /** After `set(name, value)`, `get(name)` is `value` and every other name
      reads as before. */
  lemma GetAfterSet(list: seq<Pair>, name: string, value: string, other: string)
    ensures Get(SetPair(list, name, value), other) == if other == name then Some(value) else Get(list, other)
  {
    if Get(list, name).None? {
      GetConcat(list, [(name, value)], other);
    } else {
      GetReplaceFirst(list, name, value, other);
    }
  }

  /** A mutable `URLSearchParams` object. */
  class SearchParams {
    var list: seq<Pair>

    /** `new URLSearchParams()`: no pairs. */
    constructor ()
      ensures list == []
    {
      list := [];
    }

    /** `set(name, value)`. */
    method Set(name: string, value: string)
      modifies this
      ensures list == SetPair(old(list), name, value)
      ensures Get(list, name) == Some(value)
      ensures forall other :: other != name ==> Get(list, other) == Get(old(list), other)
    {
      list := SetPair(list, name, value);
      GetAfterSet(old(list), name, value, name);
      forall other | other != name
        ensures Get(list, other) == Get(old(list), other)
      {
        GetAfterSet(old(list), name, value, other);
      }
    }
  }

  /** The pair a filter value contributes to the query: one when it is truthy. */
  function Entry(key: string, v: Option<string>): seq<Pair> {
    if Truthy(v) then [(key, v.value)] else []
  }

  /** The query `fetchItems` sends: q, rank, min_price, max_price, each only when truthy. */
  function QueryOf(f: FilterParams): (r: seq<Pair>)
    ensures |r| <= |QueryKeys|
    ensures forall i :: 0 <= i < |r| ==>
      r[i].0 in QueryKeys && FieldNamed(f, r[i].0) == Some(r[i].1) && r[i].1 != ""
  {
    Entry("q", f.q) + Entry("rank", f.rank) + Entry("min_price", f.minPrice) + Entry("max_price", f.maxPrice)
  }

  /** Builds the query as `fetchItems` does, with one `set` call per truthy filter. */
  method BuildQuery(f: FilterParams) returns (query: seq<Pair>)
    ensures query == QueryOf(f)
  {
    var params := new SearchParams();
    if Truthy(f.q) {
      params.Set("q", f.q.value);
    }
    assert params.list == Entry("q", f.q);
    if Truthy(f.rank) {
      params.Set("rank", f.rank.value);
    }
    assert params.list == Entry("q", f.q) + Entry("rank", f.rank);
    if Truthy(f.minPrice) {
      params.Set("min_price", f.minPrice.value);
    }
    assert params.list == Entry("q", f.q) + Entry("rank", f.rank) + Entry("min_price", f.minPrice);
    if Truthy(f.maxPrice) {
      params.Set("max_price", f.maxPrice.value);
    }
    query := params.list;
  }

  /** The position of a key in the order the query builder visits the keys;
      any other name comes after them all. */
  function KeyIndex(k: string): (n: nat)
    ensures n < |QueryKeys| <==> k in QueryKeys
    ensures n < |QueryKeys| ==> QueryKeys[n] == k
  {
    if k == "q" then 0
    else if k == "rank" then 1
    else if k == "min_price" then 2
    else if k == "max_price" then 3
    else 4
  }

  /** The query's keys strictly follow the order q, rank, min_price,
      max_price, so no key appears twice. */
  lemma QueryInKeyOrder(f: FilterParams)
    ensures forall i, j :: 0 <= i < j < |QueryOf(f)| ==>
      KeyIndex(QueryOf(f)[i].0) < KeyIndex(QueryOf(f)[j].0)
  {
  }

  /** A key is present in the query exactly when its filter value is truthy,
      and then it carries that value unchanged; no other key is ever present. */
  lemma QueryGet(f: FilterParams, key: string)
    ensures Get(QueryOf(f), key) == if Truthy(FieldNamed(f, key)) then FieldNamed(f, key) else None
  {
    var a := Entry("q", f.q);
    var b := Entry("rank", f.rank);
    var c := Entry("min_price", f.minPrice);
    var d := Entry("max_price", f.maxPrice);
    GetConcat(a + b + c, d, key);
    GetConcat(a + b, c, key);
    GetConcat(a, b, key);
  }

  /** An empty string omits its key while `"0"` is kept: truthiness, not numeric value. */
  lemma QueryKeepsZero()
    ensures QueryOf(FilterParams(Some(""), Some("0"), None, Some(""))) == [("rank", "0")]
  {
  }

  /** `{q: "", rank: "Mythic", min_price: "", max_price: "100000"}` yields
      exactly `rank=Mythic&max_price=100000`. */
  lemma QueryExample()
    ensures QueryOf(FilterParams(Some(""), Some("Mythic"), Some(""), Some("100000")))
         == [("rank", "Mythic"), ("max_price", "100000")]
  {
  }

  /** The member a filter value contributes to `JSON.stringify(filters)`:
      one when defined, even when empty. */
  function Member(key: string, v: Option<string>): seq<Pair> {
    if v.Some? then [(key, v.value)] else []
  }

  /** The members of `JSON.stringify(filters)` in key order; undefined keys
      are skipped. String escaping inside the JSON text is not modelled. */
  function JsonMembers(f: FilterParams): (r: seq<Pair>)
    ensures |r| <= |QueryKeys|
    ensures forall i :: 0 <= i < |r| ==> r[i].0 in QueryKeys && FieldNamed(f, r[i].0) == Some(r[i].1)
  {
    Member("q", f.q) + Member("rank", f.rank) + Member("min_price", f.minPrice) + Member("max_price", f.maxPrice)
  }

  /** `JSON.parse` of the members back into a filter record. */
  function ParseMembers(members: seq<Pair>): FilterParams {
    FilterParams(Get(members, "q"), Get(members, "rank"), Get(members, "min_price"), Get(members, "max_price"))
  }

  /** Parsing the JSON members of a filter record gives the record back. */
  lemma JsonRoundTrip(f: FilterParams)
    ensures ParseMembers(JsonMembers(f)) == f
  {
    var a := Member("q", f.q);
    var b := Member("rank", f.rank);
    var c := Member("min_price", f.minPrice);
    var d := Member("max_price", f.maxPrice);
    forall key | key in QueryKeys
      ensures Get(JsonMembers(f), key) == FieldNamed(f, key)
    {
      GetConcat(a + b + c, d, key);
      GetConcat(a + b, c, key);
      GetConcat(a, b, key);
    }
    assert Get(JsonMembers(f), QueryKeys[0]) == f.q;
    assert Get(JsonMembers(f), QueryKeys[1]) == f.rank;
    assert Get(JsonMembers(f), QueryKeys[2]) == f.minPrice;
    assert Get(JsonMembers(f), QueryKeys[3]) == f.maxPrice;
  }

  /** Two filter records have the same JSON text exactly when they are equal:
      the effect re-fetches for every change of the record and only then. */
  lemma JsonInjective(a: FilterParams, b: FilterParams)
    ensures JsonMembers(a) == JsonMembers(b) <==> a == b
  {
    JsonRoundTrip(a);
    JsonRoundTrip(b);
  }
}
