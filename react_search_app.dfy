/** The React web app's supermarket search: the list comes from the nearby
    endpoint (three demo stores when that fails); a search replaces the list
    with its matching part, so successive searches narrow it, and an empty
    search reloads from the server. */
module ReactSearchApp {
  import opened Common
  import Text

  datatype Store = Store(id: int, name: string, address: string, latitude: real, longitude: real, distance: real)

  /** `getDemoData()`. */
  const DemoData: seq<Store> := [
    Store(1, "イオン 東京店", "東京都千代田区丸の内1-1-1", 35.6812, 139.7671, 0.5),
    Store(2, "ライフ 銀座店", "東京都中央区銀座1-1-1", 35.6721, 139.7696, 0.8),
    Store(3, "西友 日本橋店", "東京都中央区日本橋1-1-1", 35.6838, 139.7746, 1.2)
  ]

  /** The default location (Tokyo) before the browser reports one. */
  const DefaultLat: real := 35.6762
  const DefaultLng: real := 139.6503

  predicate Matches(s: Store, term: string)
  {
    Text.NameOrAddressContains(s.name, s.address, term)
  }

  function TermTest(term: string): Store -> bool
  {
    (s: Store) => Matches(s, term)
  }

  /** The list a non-empty search leaves: the matching entries of the current list, in order. */
  function Narrow(ss: seq<Store>, term: string): (r: seq<Store>)
    ensures IsSubsequence(r, ss)
    ensures forall s :: s in r <==> s in ss && Matches(s, term)
  {
    FilterIsSubsequence(ss, TermTest(term));
    forall s ensures s in Filter(ss, TermTest(term)) <==> s in ss && Matches(s, term) {
      FilterMembers(ss, TermTest(term), s);
    }
    Filter(ss, TermTest(term))
  }

  function BothTerms(a: string, b: string): Store -> bool
  {
    (s: Store) => Matches(s, a) && Matches(s, b)
  }

  /** Searching `a` and then `b` keeps exactly the entries matching both, in order. */
  lemma NarrowTwice(ss: seq<Store>, a: string, b: string)
    ensures Narrow(Narrow(ss, a), b) == Filter(ss, BothTerms(a, b))
    ensures forall s :: s in Narrow(Narrow(ss, a), b) <==> s in ss && Matches(s, a) && Matches(s, b)
  {
    FilterFilter(ss, TermTest(a), TermTest(b), BothTerms(a, b));
  }

  class ReactSearchAppState {
    var supermarkets: seq<Store>
    var searchTerm: string
    var loading: bool
    var userLocation: (real, real)
    /** The locations sent to the nearby endpoint, in order. */
    var loadRequests: seq<(real, real)>

    constructor()
      ensures supermarkets == [] && searchTerm == "" && !loading
      ensures userLocation == (DefaultLat, DefaultLng) && loadRequests == []
    {
      supermarkets := [];
      searchTerm := "";
      loading := false;
      userLocation := (DefaultLat, DefaultLng);
      loadRequests := [];
    }

    /** `loadSupermarkets` up to the request: loading is on and the current location is sent. */
    method BeginLoad()
      modifies this
      ensures loading && loadRequests == old(loadRequests) + [userLocation]
      ensures supermarkets == old(supermarkets) && searchTerm == old(searchTerm) && userLocation == old(userLocation)
    {
      loading := true;
      loadRequests := loadRequests + [userLocation];
    }

    /** The request settles: the answer, or the three demo stores on failure, replace the list; loading ends. */
    method LoadSettled(outcome: Option<seq<Store>>)
      modifies this
      ensures !loading
      ensures outcome.Some? ==> supermarkets == outcome.value
      ensures outcome.None? ==> supermarkets == DemoData
      ensures searchTerm == old(searchTerm) && userLocation == old(userLocation) && loadRequests == old(loadRequests)
    {
      supermarkets := if outcome.Some? then outcome.value else DemoData;
      loading := false;
    }

    /** The geolocation answer: the location is stored and the load effect runs. */
    method LocationFound(lat: real, lng: real)
      modifies this
      ensures userLocation == (lat, lng) && loading
      ensures loadRequests == old(loadRequests) + [(lat, lng)]
      ensures supermarkets == old(supermarkets) && searchTerm == old(searchTerm)
    {
      userLocation := (lat, lng);
      BeginLoad();
    }

    /** `handleSearch`: a non-empty term narrows the current list; an empty one starts a reload. */
    method HandleSearch(term: string)
      modifies this
      ensures searchTerm == term && userLocation == old(userLocation)
      ensures term != "" ==> supermarkets == Narrow(old(supermarkets), term)
                             && loadRequests == old(loadRequests) && loading == old(loading)
      ensures term == "" ==> supermarkets == old(supermarkets) && loading
                             && loadRequests == old(loadRequests) + [userLocation]
    {
      searchTerm := term;
      if term != "" {
        supermarkets := Narrow(supermarkets, term);
      } else {
        BeginLoad();
      }
    }
  }
}
