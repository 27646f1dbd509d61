/**
  `QueryParameters.subscript` (CIEIDSdk.swift lines 20-22): the value of the
  first query item with the given name. Splitting a URL into query items is
  Foundation's `URLComponents` and is not part of this model.
 */
module QueryParameters {
  import opened Wrappers

  /** `URLQueryItem`: a name and an optional value. */
  datatype QueryItem = QueryItem(name: string, value: Option<string>)

  /** `first(where: { $0.name == name })`, as an index. */
  function FirstMatch(items: seq<QueryItem>, name: string): (r: Option<nat>)
    ensures r.Some? ==> r.value < |items| && items[r.value].name == name
    ensures r.Some? ==> forall j :: 0 <= j < r.value ==> items[j].name != name
    ensures r.None? ==> forall j :: 0 <= j < |items| ==> items[j].name != name
  {
    if items == [] then None
    else if items[0].name == name then Some(0)
    else
      match FirstMatch(items[1..], name)
      case None => None
      case Some(i) => Some(i + 1)
  }

  /** `queryParameters[name]`: `?.value` flattens, so a first match without
      a value gives `nil` even when a later item has one. */
  function Lookup(items: seq<QueryItem>, name: string): (r: Option<string>)
    ensures r.Some? ==> exists i :: 0 <= i < |items| && items[i] == QueryItem(name, r)
    ensures (forall j :: 0 <= j < |items| ==> items[j].name != name) ==> r.None?
  {
    match FirstMatch(items, name)
    case None => None
    case Some(i) => items[i].value
  }

  /** The lookup finds `v` exactly when some item named `name` carries `v`
      and no earlier item has that name. */
  lemma LookupFindsFirst(items: seq<QueryItem>, name: string, v: string)
    ensures Lookup(items, name) == Some(v) <==>
      exists i :: 0 <= i < |items| && items[i] == QueryItem(name, Some(v)) &&
        forall j :: 0 <= j < i ==> items[j].name != name
  {
    if exists i :: 0 <= i < |items| && items[i] == QueryItem(name, Some(v)) &&
        forall j :: 0 <= j < i ==> items[j].name != name
    {
      var i :| 0 <= i < |items| && items[i] == QueryItem(name, Some(v)) &&
        forall j :: 0 <= j < i ==> items[j].name != name;
      var k := FirstMatch(items, name);
      assert k == Some(i);
    }
  }

  /** Items after a first match never change the answer. */
  lemma LookupIgnoresLater(items: seq<QueryItem>, more: seq<QueryItem>, name: string)
    requires exists i :: 0 <= i < |items| && items[i].name == name
    ensures Lookup(items + more, name) == Lookup(items, name)
  {
    var k := FirstMatch(items, name).value;
    var k' := FirstMatch(items + more, name);
    assert (items + more)[k] == items[k];
    assert forall j :: 0 <= j < k ==> (items + more)[j] == items[j];
    assert k' == Some(k);
  }
}
