/** `GET /api/search`: a case-insensitive substring search over the item master, capped in size. */
module ItemSearch {
  import opened Wrappers
  import opened Text
  import opened Seqs

  /** A row of the item table (its creation time is not modelled). */
  datatype Item = Item(id: string, sku: string, name: string, barcode: Option<string>)

  /** The most items one search answers with. */
  const MaxResults: nat := 20

  /** The item's sku, name or barcode contains `q`, ignoring case; a missing barcode matches nothing. */
  predicate Matches(item: Item, q: string)
    ensures Matches(item, q) <==>
      || (exists i :: OccursAt(LowerCase(q), LowerCase(item.sku), i))
      || (exists i :: OccursAt(LowerCase(q), LowerCase(item.name), i))
      || (item.barcode.Some? && exists i :: OccursAt(LowerCase(q), LowerCase(item.barcode.value), i))
  {
    || ContainsIgnoringCase(item.sku, q)
    || ContainsIgnoringCase(item.name, q)
    || (item.barcode.Some? && ContainsIgnoringCase(item.barcode.value, q))
  }

  /** The items that match `q`, each kept as often as it occurs in the table. */
  function Matching(items: seq<Item>, q: string): (r: seq<Item>)
    ensures |r| <= |items|
    ensures forall x :: x in r ==> x in items && Matches(x, q)
    ensures forall x :: multiset(r)[x] == if Matches(x, q) then multiset(items)[x] else 0
  {
    Filter(items, (x: Item) => Matches(x, q))
  }

  /** The query string as the handler reads it (`req.query.q || ''`): a missing parameter is the empty string. */
  function QueryText(q: Option<string>): (r: string)
    ensures q.Some? ==> r == q.value
    ensures r == "" <==> q.None? || q.value == ""
  {
    if q.Some? then q.value else ""
  }

  /** The search handler over a snapshot of the item table. */
  function Search(items: seq<Item>, query: Option<string>): (r: seq<Item>)
    ensures Trim(QueryText(query)) == [] ==> r == []
    ensures |r| <= MaxResults
    ensures forall x :: x in r ==> x in items && Matches(x, Trim(QueryText(query)))
    ensures Trim(QueryText(query)) != [] ==>
      var all := Matching(items, Trim(QueryText(query)));
      && |r| == (if |all| < MaxResults then |all| else MaxResults)
      && r == all[..|r|]
  {
    var q := Trim(QueryText(query));
    if q == [] then []
    else
      var all := Matching(items, q);
      if |all| <= MaxResults then all
      else
        assert forall x :: x in all[..MaxResults] ==> x in all;
        all[..MaxResults]
  }

  /** When no more than `MaxResults` items match, the search returns every one of them. */
  lemma SearchIsComplete(items: seq<Item>, query: Option<string>, x: Item)
    requires Trim(QueryText(query)) != []
    requires |Matching(items, Trim(QueryText(query)))| <= MaxResults
    requires x in items && Matches(x, Trim(QueryText(query)))
    ensures x in Search(items, query)
  {
    var q := Trim(QueryText(query));
    assert multiset(items)[x] > 0;
    assert multiset(Matching(items, q))[x] > 0;
  }
}
