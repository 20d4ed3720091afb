/** The product list screen: the loaded products, narrowed by the selected
    category and the search text; a search also asks the server and appends
    the products it returns that the list does not hold yet. */
module ProductList {
  import opened Common
  import Text
  import Backend

  const AllCategories: string := "全て"
  const LoadLimit: nat := 200
  const ErrorTitle: string := "エラー"
  const LoadFailedMessage: string := "商品情報の取得に失敗しました"

  /** The category chips, in display order. */
  const Categories: seq<string> := ["全て", "野菜", "果物", "肉類", "魚類", "乳製品", "パン", "米・穀物", "調味料", "冷凍食品", "お菓子", "飲み物", "その他"]

  // ----- filtering -------------------------------------------------------------

  /** A category filter applies for a non-empty selection other than '全て'. */
  predicate CategoryActive(category: string)
  {
    category != "" && category != AllCategories
  }

  function InCategory(category: string): Product -> bool
  {
    (p: Product) => p.category == category
  }

  /** The query test: the name, or a non-empty brand, contains the query ignoring case. */
  predicate MatchesQuery(p: Product, query: string)
  {
    Text.ContainsIgnoringCase(p.name, query)
    || (p.brand.Some? && p.brand.value != "" && Text.ContainsIgnoringCase(p.brand.value, query))
  }

  function QueryTest(query: string): Product -> bool
  {
    (p: Product) => MatchesQuery(p, query)
  }

  type Product = Backend.Product

  /** A product is listed when it passes the category test (if one applies)
      and the query test (if the query is non-empty). */
  predicate Listed(p: Product, query: string, category: string)
  {
    (CategoryActive(category) ==> p.category == category) && (query != "" ==> MatchesQuery(p, query))
  }

  function ListedTest(query: string, category: string): Product -> bool
  {
    (p: Product) => Listed(p, query, category)
  }

  /** `filterProducts`: the category filter, then the query filter. The
      result keeps the listed products in their order, and the two steps
      amount to one filter by both tests. */
  function FilterProducts(products: seq<Product>, query: string, category: string): (r: seq<Product>)
    ensures r == Filter(products, ListedTest(query, category))
    ensures IsSubsequence(r, products)
    ensures forall p :: p in r <==> p in products && Listed(p, query, category)
  {
    FilterIsSubsequence(products, ListedTest(query, category));
    forall p ensures p in Filter(products, ListedTest(query, category)) <==> p in products && Listed(p, query, category) {
      FilterMembers(products, ListedTest(query, category), p);
    }
    if CategoryActive(category) && query != "" then
      FilterFilter(products, InCategory(category), QueryTest(query), ListedTest(query, category));
      Filter(Filter(products, InCategory(category)), QueryTest(query))
    else if CategoryActive(category) then
      FilterCongruent(products, InCategory(category), ListedTest(query, category));
      Filter(products, InCategory(category))
    else if query != "" then
      FilterCongruent(products, QueryTest(query), ListedTest(query, category));
      Filter(products, QueryTest(query))
    else
      FilterAll(products, ListedTest(query, category));
      products
  }

  /** With no category and no query, the whole list is shown. */
  lemma NoFilterShowsAll(products: seq<Product>, category: string)
    requires !CategoryActive(category)
    ensures FilterProducts(products, "", category) == products
  {
    FilterAll(products, ListedTest("", category));
  }

  /** Tapping a chip: '全て' stores the empty selection, any other chip its own name. */
  function CategoryPressed(item: string): (selected: string)
    ensures selected == "" <==> item == AllCategories || item == ""
    ensures item != AllCategories ==> selected == item
    ensures !CategoryActive(selected) <==> !CategoryActive(item)
  {
    if item == AllCategories then "" else item
  }

  // ----- search merge ------------------------------------------------------------

  function IdsOf(ps: seq<Product>): (ids: seq<int>)
    ensures |ids| == |ps|
    ensures forall k :: 0 <= k < |ps| ==> ids[k] == ps[k].id
  {
    seq(|ps|, k requires 0 <= k < |ps| => ps[k].id)
  }

  function IdNotIn(ids: seq<int>): Product -> bool
  {
    (p: Product) => p.id !in ids
  }

  /** The merge in `handleSearch`: the list as it was, followed by the search
      results whose id none of its products has, in result order. */
  function MergeSearchResults(products: seq<Product>, results: seq<Product>): (r: seq<Product>)
    ensures |r| >= |products| && r[..|products|] == products
    ensures IsSubsequence(r[|products|..], results)
    ensures forall p :: p in r[|products|..] <==>
              p in results && forall k :: 0 <= k < |products| ==> products[k].id != p.id
  {
    var added := Filter(results, IdNotIn(IdsOf(products)));
    FilterIsSubsequence(results, IdNotIn(IdsOf(products)));
    forall p ensures p in added <==> p in results && forall k :: 0 <= k < |products| ==> products[k].id != p.id {
      FilterMembers(results, IdNotIn(IdsOf(products)), p);
      if p.id in IdsOf(products) {
        var k :| 0 <= k < |products| && IdsOf(products)[k] == p.id;
      }
    }
    assert (products + added)[|products|..] == added;
    products + added
  }

  /** A search that finds nothing new leaves the list as it is. */
  lemma MergeNothingNew(products: seq<Product>, results: seq<Product>)
    requires forall j :: 0 <= j < |results| ==> exists k :: 0 <= k < |products| && products[k].id == results[j].id
    ensures MergeSearchResults(products, results) == products
  {
    forall j | 0 <= j < |results| ensures !IdNotIn(IdsOf(products))(results[j]) {
      var k :| 0 <= k < |products| && products[k].id == results[j].id;
      assert IdsOf(products)[k] == results[j].id;
    }
    FilterNoneOf(results, IdNotIn(IdsOf(products)));
  }

  // ----- the screen ---------------------------------------------------------------

  class ProductListScreenState {
    var products: seq<Product>
    var filteredProducts: seq<Product>
    var loading: bool
    var searchQuery: string
    var selectedCategory: string
    /** The queries sent to the search endpoint, in order. */
    var searchRequests: seq<string>
    var alerts: seq<(string, string)>

    /** The filter effect has run on the current state. */
    predicate Valid()
      reads this
    {
      filteredProducts == FilterProducts(products, searchQuery, selectedCategory)
    }

    constructor()
      ensures Valid()
      ensures products == [] && loading && searchQuery == "" && selectedCategory == ""
      ensures searchRequests == [] && alerts == []
    {
      products := [];
      filteredProducts := [];
      loading := true;
      searchQuery := "";
      selectedCategory := "";
      searchRequests := [];
      alerts := [];
    }

    /** The filter effect, run after products, query or category change. */
    method RunFilterEffect()
      modifies this
      ensures Valid()
      ensures products == old(products) && searchQuery == old(searchQuery) && selectedCategory == old(selectedCategory)
      ensures loading == old(loading) && searchRequests == old(searchRequests) && alerts == old(alerts)
    {
      filteredProducts := FilterProducts(products, searchQuery, selectedCategory);
    }

    /** `loadProducts` once the request for up to 200 products settles:
        the answer replaces the list, a failure alerts and keeps it. */
    method LoadProducts(outcome: Option<seq<Product>>)
      modifies this
      ensures Valid() && !loading
      ensures outcome.Some? ==> products == outcome.value && alerts == old(alerts)
      ensures outcome.None? ==> products == old(products) && alerts == old(alerts) + [(ErrorTitle, LoadFailedMessage)]
      ensures searchQuery == old(searchQuery) && selectedCategory == old(selectedCategory) && searchRequests == old(searchRequests)
    {
      loading := true;
      if outcome.Some? {
        products := outcome.value;
      } else {
        alerts := alerts + [(ErrorTitle, LoadFailedMessage)];
      }
      loading := false;
      RunFilterEffect();
    }

    /** A chip press. */
    method SelectCategory(item: string)
      modifies this
      ensures Valid()
      ensures selectedCategory == CategoryPressed(item)
      ensures products == old(products) && searchQuery == old(searchQuery) && loading == old(loading)
      ensures searchRequests == old(searchRequests) && alerts == old(alerts)
    {
      selectedCategory := CategoryPressed(item);
      RunFilterEffect();
    }

    /** `handleSearch`: the query is stored; an empty one sends nothing; for a
        non-empty one the products the server returns are merged in, and a
        failed search changes nothing further. */
    method HandleSearch(query: string, outcome: Option<seq<Product>>)
      modifies this
      ensures Valid()
      ensures searchQuery == query
      ensures query == "" ==> searchRequests == old(searchRequests) && products == old(products)
      ensures query != "" ==> searchRequests == old(searchRequests) + [query]
      ensures query != "" && outcome.Some? ==> products == MergeSearchResults(old(products), outcome.value)
      ensures outcome.None? ==> products == old(products)
      ensures selectedCategory == old(selectedCategory) && loading == old(loading) && alerts == old(alerts)
    {
      searchQuery := query;
      if |query| > 0 {
        searchRequests := searchRequests + [query];
        if outcome.Some? {
          var merged := MergeSearchResults(products, outcome.value);
          if |merged| > |products| {
            products := merged;
          } else {
            assert merged == merged[..|products|];
          }
        }
      }
      RunFilterEffect();
    }
  }
}
