/** The mobile property picker: its fixed list of properties and the search filter over it. */
module PropertyPicker {
  import opened Text
  import opened Sequences

  datatype PickerProperty = PickerProperty(id: int, name: string, role: string, address: string, unread: int)

  /** `PROPERTIES`. */
  const Properties := [
    PickerProperty(1, "The Lofts", "Tenant", "123 Innovation Dr", 3),
    PickerProperty(2, "Skyline Apartments", "Landlord", "456 Metro Ave", 0),
    PickerProperty(3, "Sunset Villas", "Maintenance", "789 Coastal Hwy", 1)
  ]

  /** The property's name or address contains the query, ignoring case. */
  predicate Matches(p: PickerProperty, query: string) {
    Contains(Lower(p.name), Lower(query)) || Contains(Lower(p.address), Lower(query))
  }

  /** `filteredProperties`. */
  function FilterProperties(ps: seq<PickerProperty>, query: string): (r: seq<PickerProperty>)
    ensures forall p :: p in r <==> p in ps && Matches(p, query)
    ensures IsSubsequence(r, ps)
  {
    if ps == [] then []
    else
      var rest := FilterProperties(ps[1..], query);
      if Matches(ps[0], query) then [ps[0]] + rest else rest
  }

  /** An empty search keeps every property. */
  lemma {:induction false} EmptyQueryKeepsAll(ps: seq<PickerProperty>)
    ensures FilterProperties(ps, "") == ps
  {
    if ps != [] {
      assert StartsWith(Lower(ps[0].name), Lower(""));
      EmptyQueryKeepsAll(ps[1..]);
    }
  }

  /** Searching in capitals finds the same properties. */
  lemma {:induction false} QueryCaseIgnored(ps: seq<PickerProperty>, query: string)
    ensures FilterProperties(ps, Upper(query)) == FilterProperties(ps, query)
  {
    LowerOfUpper(query);
    if ps != [] {
      QueryCaseIgnored(ps[1..], query);
    }
  }

  /** A card shows its unread badge when it has unread messages. */
  predicate UnreadShown(p: PickerProperty) {
    p.unread > 0
  }

  /** Selecting a card reports that card's property id, which names no other card. */
  function SelectedId(p: PickerProperty): (id: int)
    ensures p in Properties ==> 1 <= id <= 3 && forall q :: q in Properties && q.id == id ==> q == p
  {
    p.id
  }

  /** Of the fixed properties, The Lofts and Sunset Villas carry unread badges. */
  lemma UnreadBadges()
    ensures UnreadShown(Properties[0]) && !UnreadShown(Properties[1]) && UnreadShown(Properties[2])
  {
  }
}
