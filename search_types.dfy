/** The fixed table of backend routing targets offered in the search-type selector. */
module SearchTypes {
  import opened Wrappers

  datatype SearchType = SearchType(value: string, caption: string, clientId: string)

  const Table: seq<SearchType> := [
    SearchType("OPERATOR_SEARCH", "Operator Search", "b37deea6401ddb33423dd5c83cbbea09"),
    SearchType("DEV_SEARCH", "Developer Experience", "69876ccedb16b10df730febee45a3104"),
    SearchType("QUERY_GPT", "Query GPT", "207fe2f9f58345293d678d3c6376d5a0"),
    SearchType("PRODUCT_GPT", "Product GPT", "2b2165cc8f35d12465794ea6b9590df9")
  ]

  /** `types.find(t => t.value === value)`: the first entry with that value. */
  function FindIn(types: seq<SearchType>, value: string): (r: Option<SearchType>)
    ensures r.Some? ==> r.value in types && r.value.value == value
    ensures r.None? <==> forall t :: t in types ==> t.value != value
    ensures types != [] && types[0].value == value ==> r == Some(types[0])
    ensures r.Some? ==> exists k :: 0 <= k < |types| && types[k] == r.value
                                    && forall j :: 0 <= j < k ==> types[j].value != value
  {
    if types == [] then None
    else if types[0].value == value then Some(types[0])
    else FindIn(types[1..], value)
  }

  /** `searchTypes.find(t => t.value === value)`. */
  function Find(value: string): (r: Option<SearchType>)
    ensures r.Some? ==> r.value in Table && r.value.value == value
    ensures r.None? <==> forall t :: t in Table ==> t.value != value
  {
    FindIn(Table, value)
  }

  /** Each entry is found by its own value, so the captions shown and the client ids sent agree. */
  lemma FindsEveryEntry(k: nat)
    requires k < |Table|
    ensures Find(Table[k].value) == Some(Table[k])
  {
    if k == 0 {
    } else if k == 1 {
      assert Table[1..][0] == Table[1];
    } else if k == 2 {
      assert Table[1..][1..][0] == Table[2];
    } else {
      assert Table[1..][1..][1..][0] == Table[3];
    }
  }

  /** The initial, unselected value `''` names no search type. */
  lemma EmptyValueUnknown()
    ensures Find("").None?
  {
  }
}
