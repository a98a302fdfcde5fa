/** The map page's state: which booth or service is selected, where the booth
    was selected from, which view is shown, and the search over booth names. */
module EventMap {
  import opened Base
  import opened Text
  import opened Records
  import TopBar

  datatype View = MapView | ListView

  /** What the list's `onSelect` receives: a service id string (the theatre shortcut
      passes "th") or a record. */
  datatype ListItem = ItemId(id: string) | ItemRecord(record: Place)

  /** `loc.name.toLowerCase().includes(searchQuery.toLowerCase())`. */
  predicate NameMatches(loc: Place, query: string) {
    Contains(ToLower(loc.name), ToLower(query))
  }

  /** The search effect: `scaledLocations.filter(...)`. */
  function Search(locations: seq<Place>, query: string): seq<Place> {
    Filter(locations, loc => NameMatches(loc, query))
  }

  /** The search keeps, in their order, exactly the locations whose lower-cased name
      contains the lower-cased query. */
  lemma SearchSpec(locations: seq<Place>, query: string)
    ensures Subseq(Search(locations, query), locations)
    ensures forall loc :: loc in Search(locations, query) <==> loc in locations && NameMatches(loc, query)
  {
    FilterIsSubseq(locations, loc => NameMatches(loc, query));
    forall loc ensures loc in Search(locations, query) <==> loc in locations && NameMatches(loc, query) {
      FilterMembership(locations, l => NameMatches(l, query), loc);
    }
  }

  /** The empty query keeps every location. */
  lemma SearchEmptyQuery(locations: seq<Place>)
    ensures Search(locations, "") == locations
  {
    forall loc | loc in locations ensures NameMatches(loc, "") {
      ContainsEmpty(ToLower(loc.name));
    }
    FilterAll(locations, loc => NameMatches(loc, ""));
  }

  /** `services.find(s => s.boothId === id)`. */
  function FindService(services: seq<Place>, id: string): (r: Option<Place>)
    ensures r.None? <==> forall s :: s in services ==> s.boothId != id
    ensures r.Some? ==> r.value in services && r.value.boothId == id
    ensures r.Some? ==> exists i :: 0 <= i < |services| && services[i] == r.value
                                   && forall j :: 0 <= j < i ==> services[j].boothId != id
  {
    Find(services, (s: Place) => s.boothId == id)
  }

  /** `loc.sectorjourneys?.split(",").map(s => s.trim()) || []`. */
  function SectorJourneys(loc: Place): seq<string> {
    CommaList(loc.sectorjourneys)
  }

  /** The sector tags are the trimmed comma-separated pieces, one per field, or none when
      the field is absent; tags written as a comma list come back unchanged. */
  lemma SectorJourneysSpec(loc: Place)
    ensures loc.sectorjourneys.None? ==> SectorJourneys(loc) == []
    ensures loc.sectorjourneys.Some? ==>
              |SectorJourneys(loc)| == Count(loc.sectorjourneys.value, ',') + 1
    ensures forall i :: 0 <= i < |SectorJourneys(loc)| ==>
              ',' !in SectorJourneys(loc)[i] && Trim(SectorJourneys(loc)[i]) == SectorJourneys(loc)[i]
    ensures forall tags :: tags != [] && loc.sectorjourneys == Some(Join(tags, ',')) &&
              (forall i :: 0 <= i < |tags| ==> ',' !in tags[i] && Trim(tags[i]) == tags[i])
              ==> SectorJourneys(loc) == tags
  {
    CommaListShape(loc.sectorjourneys);
    forall tags | tags != [] && loc.sectorjourneys == Some(Join(tags, ',')) &&
              (forall i :: 0 <= i < |tags| ==> ',' !in tags[i] && Trim(tags[i]) == tags[i])
      ensures SectorJourneys(loc) == tags
    {
      CommaListRoundTrip(tags);
    }
  }

  class EventMapState {
    var activeView: View
    var selectedLocation: Option<Place>
    var selectedService: Option<Place>
    var locationOrigin: Origin
    /** The loaded services, searched by id from the list. */
    var services: seq<Place>
    /** The loaded booths, positioned for the current viewport. */
    var scaledLocations: seq<Place>
    var searchQuery: string

    /** Never a booth and a service selected at once. */
    predicate AtMostOneSelected()
      reads this
    {
      !(selectedLocation.Some? && selectedService.Some?)
    }

    /** `filteredLocations`, as the search effect leaves it. */
    function FilteredLocations(): seq<Place>
      reads this
    {
      Search(scaledLocations, searchQuery)
    }

    constructor (loadedServices: seq<Place>, loadedLocations: seq<Place>)
      ensures AtMostOneSelected()
      ensures activeView == MapView && locationOrigin == FromMap && searchQuery == ""
      ensures selectedLocation == None && selectedService == None
      ensures services == loadedServices && scaledLocations == loadedLocations
    {
      activeView := MapView;
      selectedLocation := None;
      selectedService := None;
      locationOrigin := FromMap;
      services := loadedServices;
      scaledLocations := loadedLocations;
      searchQuery := "";
    }

    /** Clicking a booth marker. */
    method ClickBooth(loc: Place)
      modifies this`selectedService, this`selectedLocation, this`locationOrigin
      ensures AtMostOneSelected()
      ensures selectedService == None && selectedLocation == Some(loc) && locationOrigin == FromMap
    {
      selectedService := None;
      selectedLocation := Some(loc);
      locationOrigin := FromMap;
    }

    /** Clicking a service marker; the origin is left as it was. */
    method ClickService(svc: Place)
      modifies this`selectedService, this`selectedLocation
      ensures AtMostOneSelected()
      ensures selectedLocation == None && selectedService == Some(svc)
    {
      selectedLocation := None;
      selectedService := Some(svc);
    }

    /** The list's `onSelect`: clear both selections, then select at most one. */
    method ListSelect(item: ListItem)
      modifies this`selectedService, this`selectedLocation, this`locationOrigin
      ensures AtMostOneSelected()
      ensures locationOrigin == FromList
      ensures item.ItemId? ==> selectedLocation == None && selectedService == FindService(services, item.id)
      ensures item.ItemRecord? && item.record.kind == Some("service") ==>
                selectedLocation == None && selectedService == Some(item.record)
      ensures item.ItemRecord? && item.record.kind != Some("service") ==>
                selectedLocation == Some(item.record) && selectedService == None
    {
      selectedLocation := None;
      selectedService := None;
      match item {
        case ItemId(id) =>
          var svc := FindService(services, id);
          if svc.Some? {
            selectedService := svc;
          }
        case ItemRecord(r) =>
          if r.kind == Some("service") {
            selectedService := Some(r);
          } else {
            selectedLocation := Some(r);
          }
      }
      locationOrigin := FromList;
    }

    /** The bottom bar's view switch: the list view starts with nothing selected. */
    method ChangeView(view: View)
      requires AtMostOneSelected()
      modifies this`selectedService, this`selectedLocation, this`activeView
      ensures AtMostOneSelected()
      ensures activeView == view
      ensures view == ListView ==> selectedLocation == None && selectedService == None
      ensures view == MapView ==>
                selectedLocation == old(selectedLocation) && selectedService == old(selectedService)
    {
      if view == ListView {
        selectedLocation := None;
        selectedService := None;
      }
      activeView := view;
    }

    /** The booth sheet's `onClose`. */
    method CloseBoothSheet()
      modifies this`selectedLocation
      ensures AtMostOneSelected()
      ensures selectedLocation == None
    {
      selectedLocation := None;
    }

    /** The service sheet's `onClose`. */
    method CloseServiceSheet()
      modifies this`selectedService
      ensures AtMostOneSelected()
      ensures selectedService == None
    {
      selectedService := None;
    }

    /** Typing in the search box (`onSearch`). */
    method SetSearch(query: string)
      modifies this`searchQuery
      ensures searchQuery == query
      ensures TopBar.ClearButtonShown(searchQuery) <==> query != ""
    {
      searchQuery := query;
    }

    /** The search box's clear button: `onSearch("")`, after which every booth is listed. */
    method ClearSearch()
      modifies this`searchQuery
      ensures searchQuery == ""
      ensures !TopBar.ClearButtonShown(searchQuery)
      ensures FilteredLocations() == scaledLocations
    {
      searchQuery := "";
      SearchEmptyQuery(scaledLocations);
    }
  }
}
