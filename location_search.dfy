/** The location search modal: the guard in front of a place search, the two
    formatters that turn a search hit into a name line and a detail line, and the
    state reset on selection. */
module LocationSearch {
  import opened Js
  import opened Seqs
  import opened Strings

  /** The parts of a hit's `address` the name is built from. */
  datatype Address = Address(road: Option<string>, suburb: Option<string>, city: Option<string>, state: Option<string>)

  /** A search hit: `place_id`, `display_name`, and the optional `address`. The other
      fields (`lat`, `lon`, `type`, the rest of `address`) are carried, not read. */
  datatype Location = Location(placeId: int, displayName: string, address: Option<Address>)

  const PartSeparator: string := ", "
  const MinQueryLength: nat := 3
  const SearchFailedMessage: string := "Failed to search locations. Please try again."

  /** `[x]` when `x` is truthy, `[]` otherwise: one conditional `push`. */
  function Present(x: Option<string>): (r: seq<string>)
    ensures Truthy(x) ==> r == [x.value]
    ensures !Truthy(x) ==> r == []
  {
    if Truthy(x) then [x.value] else []
  }

  /** `road`, `suburb`, `city` and `state` in the order they are pushed, a missing one
      read as `""`. */
  function Candidates(a: Address): seq<string> {
    [Or(a.road, ""), Or(a.suburb, ""), Or(a.city, ""), Or(a.state, "")]
  }

  predicate NonEmpty(s: string) {
    s != ""
  }

  /** The truthy ones among `road`, `suburb`, `city` and `state`, in that order. */
  function AddressParts(a: Address): (parts: seq<string>)
    ensures parts == Filter(Candidates(a), NonEmpty)
    ensures |parts| <= 4
    ensures forall i :: 0 <= i < |parts| ==> parts[i] != ""
    ensures parts == [] <==> !Truthy(a.road) && !Truthy(a.suburb) && !Truthy(a.city) && !Truthy(a.state)
    ensures IsSubsequence(parts, Candidates(a))
  {
    var parts := Present(a.road) + Present(a.suburb) + Present(a.city) + Present(a.state);
    PresentIsFilter(a.road);
    PresentIsFilter(a.suburb);
    PresentIsFilter(a.city);
    PresentIsFilter(a.state);
    FilterFour(Or(a.road, ""), Or(a.suburb, ""), Or(a.city, ""), Or(a.state, ""), NonEmpty);
    FilterIsSubsequence(Candidates(a), NonEmpty);
    parts
  }

  lemma FilterFour(a: string, b: string, c: string, d: string, p: string -> bool)
    ensures Filter([a, b, c, d], p) == Filter([a], p) + Filter([b], p) + Filter([c], p) + Filter([d], p)
  {
    assert [a, b, c, d] == [a] + [b] + [c] + [d];
    FilterAppend([a] + [b] + [c], [d], p);
    FilterAppend([a] + [b], [c], p);
    FilterAppend([a], [b], p);
  }

  /** One conditional push keeps exactly the non-empty candidate. */
  lemma PresentIsFilter(x: Option<string>)
    ensures Present(x) == Filter([Or(x, "")], NonEmpty)
  {
    assert [Or(x, "")][1..] == [];
  }

  /** The `display_name` split on `", "`. */
  function DisplayParts(loc: Location): (parts: seq<string>)
    ensures |parts| >= 1
  {
    Split(loc.displayName, PartSeparator)
  }

  /** The fallback name: the first three parts of the display name. */
  function FallbackName(loc: Location): string {
    Join(Take(DisplayParts(loc), 3), PartSeparator)
  }

  /** `formatLocationName`: the address parts joined with `", "`, or, when the address
      is missing or has none of them, the fallback name. */
  function LocationName(loc: Location): (name: string)
    ensures loc.address.Some? && AddressParts(loc.address.value) != [] ==>
              name == Join(AddressParts(loc.address.value), PartSeparator)
    ensures loc.address.None? || AddressParts(loc.address.value) == [] ==> name == FallbackName(loc)
  {
    if loc.address.Some? && AddressParts(loc.address.value) != [] then Join(AddressParts(loc.address.value), PartSeparator)
    else FallbackName(loc)
  }

  /** When no part holds the separator, splitting the name on `", "` gives back exactly
      the truthy address parts, in order. */
  lemma LocationNameSplitsBack(loc: Location)
    requires loc.address.Some? && AddressParts(loc.address.value) != []
    requires forall i :: 0 <= i < |AddressParts(loc.address.value)| ==>
               !Contains(AddressParts(loc.address.value)[i], PartSeparator)
    ensures Split(LocationName(loc), PartSeparator) == AddressParts(loc.address.value)
  {
    SplitJoin(AddressParts(loc.address.value), PartSeparator);
  }

  /** A road and a suburb with no city or state give `"road, suburb"`. */
  lemma RoadAndSuburbJoined(id: int, display: string, road: string, suburb: string)
    requires road != "" && suburb != ""
    ensures LocationName(Location(id, display, Some(Address(Some(road), Some(suburb), None, None)))) == road + ", " + suburb
  {
    var a := Address(Some(road), Some(suburb), None, None);
    var loc := Location(id, display, Some(a));
    var parts := [road, suburb];
    assert AddressParts(a) == parts;
    assert LocationName(loc) == Join(parts, PartSeparator);
    assert parts[1..] == [suburb];
    assert Join(parts, PartSeparator) == road + PartSeparator + Join([suburb], PartSeparator);
  }

  /** `formatLocationDetails`: the parts of the display name from the fourth on, joined. */
  function LocationDetails(loc: Location): (details: string)
    ensures |DisplayParts(loc)| <= 3 ==> details == ""
  {
    Join(Drop(DisplayParts(loc), 3), PartSeparator)
  }

  /** With more than three parts, the fallback name and the details put back together
      give the display name. */
  lemma {:induction false} FallbackRoundTrip(loc: Location)
    requires |DisplayParts(loc)| > 3
    ensures FallbackName(loc) + PartSeparator + LocationDetails(loc) == loc.displayName
  {
    var parts := DisplayParts(loc);
    JoinAppend(Take(parts, 3), Drop(parts, 3), PartSeparator);
    JoinSplit(loc.displayName, PartSeparator);
  }

  /** With three parts or fewer, the fallback name is the whole display name. */
  lemma {:induction false} ShortFallbackIsWhole(loc: Location)
    requires |DisplayParts(loc)| <= 3
    ensures FallbackName(loc) == loc.displayName
    ensures LocationDetails(loc) == ""
  {
    JoinSplit(loc.displayName, PartSeparator);
  }

  /** The search guard: a query empty after trimming, or shorter than three characters as
      typed, is not searched. Only the emptiness test trims. */
  predicate Searchable(query: string) {
    Trim(query) != "" && |query| >= MinQueryLength
  }

  /** Two characters padded with spaces pass the length test and are searched. */
  lemma PaddedShortQuerySearched()
    ensures Searchable("  ab")
    ensures !Searchable("ab")
  {
    var q := "  ab";
    assert q[2] == 'a' && !IsSpace('a');
    TrimIsSlice(q);
  }

  /** The answer to the search request: the request or the JSON parse threw, the status
      was not 2xx, or a list of hits arrived. */
  datatype SearchResponse = SearchThrows | SearchNotOk | SearchOk(data: seq<Location>)

  datatype SearchView = SearchView(searchQuery: string, locations: seq<Location>, isLoading: bool, error: Option<string>)

  /** `searchLocations`: an unsearchable query clears the hits and sends nothing;
      otherwise the hits of a good answer, or the error with no hits. Returns the new state
      and whether a request was sent. */
  function SearchResult(v: SearchView, query: string, response: SearchResponse): (res: (SearchView, bool))
    ensures res.1 <==> Searchable(query)
    ensures !res.1 ==> res.0 == v.(locations := [])
    ensures res.1 ==> !res.0.isLoading && res.0.searchQuery == v.searchQuery
    ensures res.1 && response.SearchOk? ==> res.0.locations == response.data && res.0.error == None
    ensures res.1 && !response.SearchOk? ==> res.0.locations == [] && res.0.error == Some(SearchFailedMessage)
  {
    if !Searchable(query) then (v.(locations := []), false)
    else
      match response
      case SearchOk(data) => (v.(locations := data, isLoading := false, error := None), true)
      case _ => (v.(locations := [], isLoading := false, error := Some(SearchFailedMessage)), true)
  }

  class LocationSearchModal {
    var searchQuery: string
    var locations: seq<Location>
    var isLoading: bool
    var error: Option<string>

    constructor ()
      ensures View() == SearchView("", [], false, None)
    {
      searchQuery, locations, isLoading, error := "", [], false, None;
    }

    function View(): SearchView
      reads this
    {
      SearchView(searchQuery, locations, isLoading, error)
    }

    method SearchLocations(query: string, response: SearchResponse) returns (requested: bool)
      modifies this
      ensures (View(), requested) == SearchResult(old(View()), query, response)
    {
      if Trim(query) == "" || |query| < MinQueryLength {
        locations := [];
        return false;
      }
      isLoading, error := true, None;
      requested := true;
      match response {
        case SearchOk(data) =>
          locations := data;
        case _ =>
          error := Some(SearchFailedMessage);
          locations := [];
      }
      isLoading := false;
    }

    /** `handleSelectLocation`: hands the hit to the caller and clears the query and the
      hits. */
    method SelectLocation(loc: Location) returns (selected: Location)
      modifies this
      ensures selected == loc
      ensures View() == old(View()).(searchQuery := "", locations := [])
    {
      selected := loc;
      searchQuery := "";
      locations := [];
    }
  }

  /** `formatLocationName` as written: pushes the truthy address parts, in order, into
      a list, and falls back to the display name's first three parts. */
  method FormatLocationName(loc: Location) returns (name: string)
    ensures name == LocationName(loc)
  {
    var parts := DisplayParts(loc);
    if loc.address.Some? {
      var a := loc.address.value;
      var addressParts: seq<string> := [];
      if Truthy(a.road) { addressParts := addressParts + [a.road.value]; }
      assert addressParts == Present(a.road);
      if Truthy(a.suburb) { addressParts := addressParts + [a.suburb.value]; }
      assert addressParts == Present(a.road) + Present(a.suburb);
      if Truthy(a.city) { addressParts := addressParts + [a.city.value]; }
      assert addressParts == Present(a.road) + Present(a.suburb) + Present(a.city);
      if Truthy(a.state) { addressParts := addressParts + [a.state.value]; }
      assert addressParts == AddressParts(a);
      if |addressParts| > 0 {
        return Join(addressParts, PartSeparator);
      }
    }
    name := Join(Take(parts, 3), PartSeparator);
  }
}
