/**
 * The name-keyed result dict that the MyWaifuList commands build from the
 * items of an API answer (`store_in_dict`, `store_dict`) and the type filter
 * of the `search` command, over decoded JSON values.
 */
module WaifuResults {
  import opened Wrappers
  import opened RowLoading
  import Pagination

  /** A decoded JSON value (numbers are integers here). */
  datatype Json =
    | JNull
    | JInt(i: int)
    | JStr(s: string)
    | JList(elems: seq<Json>)
    | JObject(fields: map<string, Json>)

  /** One result of the API: a JSON object. */
  type Item = map<string, Json>

  /** The values Python can use as a dict key; lists and dicts raise `TypeError`. */
  predicate Hashable(j: Json) {
    j.JNull? || j.JInt? || j.JStr?
  }

  /** A Python dict from names to items, with the insertion order of its keys. */
  datatype NameDict = NameDict(order: seq<Json>, entries: map<Json, Item>)

  const EmptyDict := NameDict([], map[])

  /** The order lists each key of the dict exactly once. */
  predicate WellFormed(d: NameDict) {
    && (forall k :: k in d.entries ==> k in d.order)
    && (forall k :: k in d.order ==> k in d.entries)
    && (forall i, j :: 0 <= i < j < |d.order| ==> d.order[i] != d.order[j])
  }

  /** `d[k] = v`: a new key goes last, a key already there keeps its place. */
  function Put(d: NameDict, k: Json, v: Item): (r: NameDict)
    ensures r.entries == d.entries[k := v]
    ensures d.order <= r.order && k in r.order
    ensures forall x :: x in r.order ==> x in d.order || x == k
    ensures k in d.order ==> r.order == d.order
  {
    NameDict(if k in d.order then d.order else d.order + [k], d.entries[k := v])
  }

  lemma PutWellFormed(d: NameDict, k: Json, v: Item)
    requires WellFormed(d)
    ensures WellFormed(Put(d, k, v))
  {
  }

  /** Writing the same key twice leaves the dict as the second write alone would. */
  lemma PutTwice(d: NameDict, k: Json, v: Item, w: Item)
    ensures Put(Put(d, k, v), k, w) == Put(d, k, w)
  {
  }

  // ------------------------------------------------------------ store_in_dict

  /** The item can be stored: it has a `name` that can be a key. */
  predicate Named(item: Item) {
    "name" in item && Hashable(item["name"])
  }

  /** The key an item is stored under. */
  function NameOf(item: Item): Json {
    if "name" in item then item["name"] else JNull
  }

  /** The field-by-field copy `store_dict` makes of an item: every field, same value. */
  function Copy(item: Item): Item {
    item
  }

  /** The items in order, each stored under its name; a later duplicate replaces the earlier. */
  function PutAll(d: NameDict, items: seq<Item>): NameDict
  {
    if items == [] then d
    else
      var last := items[|items| - 1];
      Put(PutAll(d, items[..|items| - 1]), NameOf(last), last)
  }

  /** The entries of `PutAll` are those of a bulk load keyed by name. */
  lemma {:induction false} PutAllEntries(d: NameDict, items: seq<Item>)
    ensures PutAll(d, items).entries == LoadRows(d.entries, items, NameOf, Copy)
  {
    if items != [] {
      PutAllEntries(d, items[..|items| - 1]);
    }
  }

  lemma {:induction false} PutAllWellFormed(d: NameDict, items: seq<Item>)
    requires WellFormed(d)
    ensures WellFormed(PutAll(d, items))
  {
    if items != [] {
      var last := items[|items| - 1];
      PutAllWellFormed(d, items[..|items| - 1]);
      PutWellFormed(PutAll(d, items[..|items| - 1]), NameOf(last), last);
    }
  }

  /** The number of leading items that can be stored; the first other one ends the loop. */
  function NamedPrefix(api: seq<Item>): (n: nat)
    ensures n <= |api|
    ensures forall i :: 0 <= i < n ==> Named(api[i])
    ensures n < |api| ==> !Named(api[n])
  {
    if api == [] || !Named(api[0]) then 0 else 1 + NamedPrefix(api[1..])
  }

  /**
   * What `store_in_dict` leaves in `d`: the stored items are the named prefix
   * of `api`; a name is a key exactly when it was one before or a stored item
   * has it, and then it holds the last such item, copied field by field.
   */
  lemma StoreInDictContents(d: NameDict, api: seq<Item>, k: Json)
    ensures var n := NamedPrefix(api);
      k in PutAll(d, api[..n]).entries <==> k in d.entries || exists j :: 0 <= j < n && api[j]["name"] == k
    ensures var n := NamedPrefix(api);
      forall j :: LastWithKey(api[..n], NameOf, k, j) ==> PutAll(d, api[..n]).entries[k] == api[j]
    ensures var n := NamedPrefix(api);
      (forall j :: 0 <= j < n ==> api[j]["name"] != k) && k in d.entries ==> PutAll(d, api[..n]).entries[k] == d.entries[k]
  {
    var n := NamedPrefix(api);
    var rows := api[..n];
    PutAllEntries(d, rows);
    LoadRowsContents(d.entries, rows, NameOf, Copy, k);
    assert forall j :: 0 <= j < n ==> NameOf(rows[j]) == api[j]["name"];
  }

  /** `store_dict(dict_, key, value)`: copy field `value` of item `key` into its entry. */
  method StoreDict(d: NameDict, item: Item, field: string) returns (r: NameDict)
    requires "name" in item && field in item && item["name"] in d.entries
    ensures r.order == d.order
    ensures r.entries == d.entries[item["name"] := d.entries[item["name"]][field := item[field]]]
  {
    var name := item["name"];
    r := NameDict(d.order, d.entries[name := d.entries[name][field := item[field]]]);
  }

  /** `_dict[item["name"]] = {}` and then `store_dict` for every field of the item. */
  method StoreItem(d: NameDict, item: Item) returns (r: NameDict)
    requires Named(item)
    ensures r == Put(d, item["name"], item)
  {
    var name := item["name"];
    r := Put(d, name, map[]);
    var remaining := item.Keys;
    while remaining != {}
      invariant remaining <= item.Keys
      invariant r == Put(d, name, map f | f in item.Keys - remaining :: item[f])
      decreases |remaining|
    {
      var f :| f in remaining;
      ghost var before := map g | g in item.Keys - remaining :: item[g];
      r := StoreDict(r, item, f);
      remaining := remaining - {f};
      assert (map g | g in item.Keys - remaining :: item[g]) == before[f := item[f]];
      PutTwice(d, name, before, before[f := item[f]]);
    }
    assert (map f | f in item.Keys - remaining :: item[f]) == item;
  }

  /**
   * `store_in_dict`: store every item under its name; the first item without
   * a usable name raises, and the handler ends the loop there.
   */
  method StoreInDict(d: NameDict, api: seq<Item>) returns (r: NameDict)
    ensures r == PutAll(d, api[..NamedPrefix(api)])
  {
    r := d;
    var i := 0;
    while i < |api| && Named(api[i])
      invariant 0 <= i <= |api|
      invariant forall j :: 0 <= j < i ==> Named(api[j])
      invariant r == PutAll(d, api[..i])
    {
      assert api[..i + 1][..i] == api[..i];
      assert PutAll(d, api[..i + 1]) == Put(PutAll(d, api[..i]), NameOf(api[i]), api[i]);
      r := StoreItem(r, api[i]);
      i := i + 1;
    }
  }

  // ------------------------------------------------------------------ search

  /** The result types the `search` command keeps. */
  const AllowedTypes: seq<Json> := [JStr("Waifu"), JStr("Husbando"), JStr("TV"), JStr("ONA"), JStr("OVA")]

  /** The exception that ends a search. */
  datatype SearchError =
    | KeyError     // an item without `type`, or a kept item without `name`
    | TypeError    // a kept item whose `name` cannot be a key

  /** The item is of a type the search keeps. */
  predicate Kept(item: Item) {
    "type" in item && item["type"] in AllowedTypes
  }

  /** One item of the search loop. */
  function SearchStep(d: NameDict, item: Item): Result<NameDict, SearchError>
  {
    if "type" !in item then Err(KeyError)
    else if item["type"] !in AllowedTypes then Ok(d)
    else if "name" !in item then Err(KeyError)
    else if !Hashable(item["name"]) then Err(TypeError)
    else Ok(Put(d, item["name"], item))
  }

  /** The search loop over the items in order, from an empty dict. */
  function SearchDict(api: seq<Item>): Result<NameDict, SearchError>
  {
    if api == [] then Ok(EmptyDict)
    else
      match SearchDict(api[..|api| - 1])
      case Err(e) => Err(e)
      case Ok(d) => SearchStep(d, api[|api| - 1])
  }

  /** The items a search keeps, in order. */
  function Filtered(api: seq<Item>): (kept: seq<Item>)
    ensures forall i :: 0 <= i < |kept| ==> Kept(kept[i])
    ensures forall item :: item in kept <==> item in api && Kept(item)
  {
    if api == [] then []
    else
      var last := api[|api| - 1];
      var init := Filtered(api[..|api| - 1]);
      assert forall item :: item in api <==> item in api[..|api| - 1] || item == last;
      if Kept(last) then init + [last] else init
  }

  /** Every item has a `type`, and every kept item has a usable name. */
  predicate Searchable(api: seq<Item>) {
    forall i :: 0 <= i < |api| ==> "type" in api[i] && (Kept(api[i]) ==> Named(api[i]))
  }

  /** The search succeeds exactly when every item has a `type` and every kept one a usable name. */
  lemma {:induction false} SearchDictSucceeds(api: seq<Item>)
    ensures SearchDict(api).Ok? <==> Searchable(api)
  {
    if api != [] {
      var init := api[..|api| - 1];
      SearchDictSucceeds(init);
      assert forall i :: 0 <= i < |init| ==> init[i] == api[i];
    }
  }

  /** A successful search stores the kept items, in order, by name. */
  lemma {:induction false} SearchDictStoresFiltered(api: seq<Item>)
    requires SearchDict(api).Ok?
    ensures SearchDict(api).value == PutAll(EmptyDict, Filtered(api))
  {
    if api != [] {
      var init := api[..|api| - 1];
      var last := api[|api| - 1];
      SearchDictStoresFiltered(init);
      if Kept(last) {
        assert Filtered(api)[..|Filtered(api)| - 1] == Filtered(init);
      }
    }
  }

  /**
   * The search succeeds exactly when every item has a `type` and every kept
   * one a usable name, and then it stores the kept items, in order, by name.
   */
  lemma SearchDictFilters(api: seq<Item>)
    ensures SearchDict(api).Ok? <==> Searchable(api)
    ensures SearchDict(api).Ok? ==> SearchDict(api).value == PutAll(EmptyDict, Filtered(api))
  {
    SearchDictSucceeds(api);
    if SearchDict(api).Ok? {
      SearchDictStoresFiltered(api);
    }
  }

  /** A failure part-way through is the result of the whole search. */
  lemma {:induction false} SearchErrorSticks(api: seq<Item>, i: nat)
    requires i <= |api| && SearchDict(api[..i]).Err?
    ensures SearchDict(api) == SearchDict(api[..i])
    decreases |api| - i
  {
    if i < |api| {
      assert api[..i + 1][..i] == api[..i];
      SearchErrorSticks(api, i + 1);
    } else {
      assert api[..i] == api;
    }
  }

  /** The result-dict loop of the `search` command. */
  method Search(api: seq<Item>) returns (r: Result<NameDict, SearchError>)
    ensures r == SearchDict(api)
  {
    var d := EmptyDict;
    for i := 0 to |api|
      invariant SearchDict(api[..i]) == Ok(d)
    {
      assert api[..i + 1][..i] == api[..i];
      var item := api[i];
      if "type" !in item {
        SearchErrorSticks(api, i + 1);
        return Err(KeyError);
      }
      if item["type"] in AllowedTypes {
        if "name" !in item {
          SearchErrorSticks(api, i + 1);
          return Err(KeyError);
        }
        if !Hashable(item["name"]) {
          SearchErrorSticks(api, i + 1);
          return Err(TypeError);
        }
        d := StoreItem(d, item);
      }
    }
    assert api[..|api|] == api;
    return Ok(d);
  }

  /** A successful search holds only kept items, each under its own name. */
  lemma SearchKeepsOnlyAllowed(api: seq<Item>, d: NameDict)
    requires SearchDict(api) == Ok(d)
    ensures WellFormed(d)
    ensures forall k :: k in d.entries ==> Kept(d.entries[k]) && Named(d.entries[k]) && d.entries[k]["name"] == k
  {
    SearchDictFilters(api);
    var kept := Filtered(api);
    PutAllWellFormed(EmptyDict, kept);
    PutAllEntries(EmptyDict, kept);
    forall k | k in d.entries
      ensures Kept(d.entries[k]) && Named(d.entries[k]) && d.entries[k]["name"] == k
    {
      LoadRowsContents(EmptyDict.entries, kept, NameOf, Copy, k);
      var j :| LastWithKey(kept, NameOf, k, j) && d.entries[k] == kept[j];
      assert kept[j] in api;
    }
  }

  /** A successful search holds the name of every kept item. */
  lemma SearchKeepsAllAllowed(api: seq<Item>, d: NameDict)
    requires SearchDict(api) == Ok(d)
    ensures forall i :: 0 <= i < |api| && Kept(api[i]) ==> Named(api[i]) && api[i]["name"] in d.entries
  {
    SearchDictFilters(api);
    var kept := Filtered(api);
    PutAllEntries(EmptyDict, kept);
    forall i | 0 <= i < |api| && Kept(api[i])
      ensures Named(api[i]) && api[i]["name"] in d.entries
    {
      var k := api[i]["name"];
      assert api[i] in kept;
      var j :| 0 <= j < |kept| && kept[j] == api[i];
      LoadRowsContents(EmptyDict.entries, kept, NameOf, Copy, k);
    }
  }

  /** Every allowed type is a plain word, which page labels keep unchanged. */
  lemma AllowedTypesArePlain(t: Json)
    requires t in AllowedTypes
    ensures t.JStr? && Pagination.Stripped(t.s) && '|' !in t.s
  {
  }

  /**
   * The menu pages of a search are labelled with the result's type, and every
   * later page turn keeps showing that type.
   */
  lemma SearchPagesKeepType(api: seq<Item>, d: NameDict, k: Json, cur: nat, pages: nat, cur': nat, pages': nat)
    requires SearchDict(api) == Ok(d) && k in d.entries
    ensures Kept(d.entries[k]) && d.entries[k]["type"].JStr?
    ensures var t := d.entries[k]["type"].s;
      Pagination.SetAuthorAfter(Pagination.SetAuthor(t, cur, pages), cur', pages') == Pagination.PageLabel(t, cur', pages')
  {
    SearchKeepsOnlyAllowed(api, d);
    AllowedTypesArePlain(d.entries[k]["type"]);
    Pagination.SetAuthorThenAfter(d.entries[k]["type"].s, cur, pages, cur', pages');
  }
}
