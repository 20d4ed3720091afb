/** The browser demo's supermarket search: four demo stores, and a search
    that always filters the full list by name or address and replaces the
    shown list with the result. */
module WebSearchApp {
  import opened Common
  import Text

  datatype Store = Store(id: int, name: string, address: string, lat: real, lng: real, distance: real)

  /** The demo records the page starts with. */
  const DemoData: seq<Store> := [
    Store(1, "イオン 東京店", "東京都千代田区丸の内1-1-1", 35.6812, 139.7671, 0.5),
    Store(2, "ライフ 銀座店", "東京都中央区銀座1-1-1", 35.6721, 139.7696, 0.8),
    Store(3, "西友 日本橋店", "東京都中央区日本橋1-1-1", 35.6838, 139.7746, 1.2),
    Store(4, "マルエツ 新橋店", "東京都港区新橋2-2-2", 35.6665, 139.7568, 1.5)
  ]

  /** The full list and the list shown. */
  datatype SearchState = SearchState(supermarkets: seq<Store>, filtered: seq<Store>)

  /** After mounting: both lists are the four demo stores. */
  function InitialState(): (st: SearchState)
    ensures st.supermarkets == st.filtered == DemoData
    ensures |st.supermarkets| == 4
    ensures forall i :: 0 <= i < 4 ==> st.supermarkets[i].id == i + 1
  {
    SearchState(DemoData, DemoData)
  }

  function TermTest(term: string): Store -> bool
  {
    (s: Store) => Text.NameOrAddressContains(s.name, s.address, term)
  }

  /** `handleSearch`: an empty term shows the full list; otherwise the
      stores of the full list whose name or address contains the term,
      ignoring case, in their order. The full list is never changed. */
  function HandleSearch(st: SearchState, term: string): (r: SearchState)
    ensures r.supermarkets == st.supermarkets
    ensures term == "" ==> r.filtered == st.supermarkets
    ensures term != "" ==> IsSubsequence(r.filtered, st.supermarkets)
    ensures term != "" ==> forall s :: s in r.filtered <==>
                             s in st.supermarkets && Text.NameOrAddressContains(s.name, s.address, term)
  {
    if term == "" then st.(filtered := st.supermarkets)
    else
      FilterIsSubsequence(st.supermarkets, TermTest(term));
      forall s ensures s in Filter(st.supermarkets, TermTest(term)) <==>
                       s in st.supermarkets && Text.NameOrAddressContains(s.name, s.address, term) {
        FilterMembers(st.supermarkets, TermTest(term), s);
      }
      st.(filtered := Filter(st.supermarkets, TermTest(term)))
  }

  /** A search does not depend on the searches before it: only the last term counts. */
  lemma {:induction false} LastSearchWins(st: SearchState, earlier: string, term: string)
    ensures HandleSearch(HandleSearch(st, earlier), term) == HandleSearch(st, term)
  {
    assert HandleSearch(st, earlier).supermarkets == st.supermarkets;
  }

  /** Clearing the term after any search shows the full list again. */
  lemma ClearingRestoresAll(st: SearchState, earlier: string)
    ensures HandleSearch(HandleSearch(st, earlier), "").filtered == st.supermarkets
  {
  }
}
