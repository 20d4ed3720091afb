/** The price-comparison API: queries over the supermarket, product and
    price tables. A table is a sequence of rows in database order; the
    great-circle distance and the rounding to two decimals are parameters. */
module Backend {
  import opened Common
  import opened Sorting
  import Text

  datatype Supermarket = Supermarket(id: int, name: string, address: string, latitude: real, longitude: real, phone: Option<string>)
  datatype Product = Product(id: int, name: string, category: string, brand: Option<string>)
  datatype Price = Price(id: int, productId: int, supermarketId: int, price: real, unit: string, recordedBy: string, recordedAt: int)
  datatype Database = Database(supermarkets: seq<Supermarket>, products: seq<Product>, prices: seq<Price>)

  /** An HTTP outcome: the body, a 404 with its detail, or a server error. */
  datatype Response<T> = Ok(value: T) | NotFound(detail: string) | ServerError

  const DefaultNearbyRadiusKm: real := 5.0
  const DefaultSkip: nat := 0
  const DefaultLimit: nat := 100
  const DefaultUnit: string := "個"
  const SupermarketNotFound: string := "スーパーマーケットが見つかりません"
  const ProductNotFound: string := "商品が見つかりません"
  const PricesNotFound: string := "価格情報が見つかりません"

  type Distance = (real, real, real, real) -> real

  // ----- lookups by primary key ----------------------------------------------

  /** `filter(Supermarket.id == id).first()`. */
  function FindSupermarket(ss: seq<Supermarket>, id: int): (r: Option<Supermarket>)
    ensures r.None? <==> forall i :: 0 <= i < |ss| ==> ss[i].id != id
    ensures r.Some? ==> exists i :: 0 <= i < |ss| && ss[i] == r.value && r.value.id == id
                                    && forall j :: 0 <= j < i ==> ss[j].id != id
  {
    if ss == [] then None
    else if ss[0].id == id then Some(ss[0])
    else
      var r := FindSupermarket(ss[1..], id);
      if r.Some? then
        var i :| 0 <= i < |ss[1..]| && ss[1..][i] == r.value && r.value.id == id
                 && forall j :: 0 <= j < i ==> ss[1..][j].id != id;
        assert ss[i + 1] == r.value;
        r
      else r
  }

  /** `filter(Product.id == id).first()`. */
  function FindProduct(ps: seq<Product>, id: int): (r: Option<Product>)
    ensures r.None? <==> forall i :: 0 <= i < |ps| ==> ps[i].id != id
    ensures r.Some? ==> exists i :: 0 <= i < |ps| && ps[i] == r.value && r.value.id == id
                                    && forall j :: 0 <= j < i ==> ps[j].id != id
  {
    if ps == [] then None
    else if ps[0].id == id then Some(ps[0])
    else
      var r := FindProduct(ps[1..], id);
      if r.Some? then
        var i :| 0 <= i < |ps[1..]| && ps[1..][i] == r.value && r.value.id == id
                 && forall j :: 0 <= j < i ==> ps[1..][j].id != id;
        assert ps[i + 1] == r.value;
        r
      else r
  }

  /** `GET /supermarkets/{id}`: the row, or a 404 when no row has that id. */
  function GetSupermarket(db: Database, id: int): (r: Response<Supermarket>)
    ensures r.NotFound? <==> forall i :: 0 <= i < |db.supermarkets| ==> db.supermarkets[i].id != id
    ensures r.NotFound? ==> r.detail == SupermarketNotFound
    ensures r.Ok? ==> r.value in db.supermarkets && r.value.id == id
    ensures !r.ServerError?
  {
    var s := FindSupermarket(db.supermarkets, id);
    if s.None? then NotFound(SupermarketNotFound) else Ok(s.value)
  }

  /** `GET /supermarkets/`: one page of the table. */
  function GetSupermarkets(db: Database, skip: nat, limit: nat): (r: seq<Supermarket>)
    ensures |r| <= limit
    ensures forall k :: 0 <= k < |r| ==> skip + k < |db.supermarkets| && r[k] == db.supermarkets[skip + k]
  {
    Page(db.supermarkets, skip, limit)
  }

  // ----- nearby search -----------------------------------------------------------

  /** One row of the nearby answer. */
  datatype NearbyEntry = NearbyEntry(id: int, name: string, address: string, latitude: real, longitude: real,
                                     phone: Option<string>, distanceKm: real)

  function EntryFor(s: Supermarket, distanceKm: real): NearbyEntry
  {
    NearbyEntry(s.id, s.name, s.address, s.latitude, s.longitude, s.phone, distanceKm)
  }

  function DistanceKey(e: NearbyEntry): real
  {
    e.distanceKm
  }

  /** The entries the loop appends, in table order: the stores within
      `radius` of the centre, each with its rounded distance. */
  function NearbyEntries(ss: seq<Supermarket>, lat: real, lng: real, radius: real,
                         distance: Distance, round2: real -> real): (es: seq<NearbyEntry>)
    ensures |es| <= |ss|
  {
    if ss == [] then []
    else
      var s := ss[|ss| - 1];
      var d := distance(lat, lng, s.latitude, s.longitude);
      NearbyEntries(ss[..|ss| - 1], lat, lng, radius, distance, round2)
      + (if d <= radius then [EntryFor(s, round2(d))] else [])
  }

  /** The test the loop applies to a store: its distance is at most `radius`. */
  function WithinRadius(lat: real, lng: real, radius: real, distance: Distance): Supermarket -> bool
  {
    (s: Supermarket) => distance(lat, lng, s.latitude, s.longitude) <= radius
  }

  /** The loop keeps table order: entry `k` is built from the `k`-th store
      within the radius, one entry per such store. */
  lemma {:induction false} NearbyEntriesInOrder(ss: seq<Supermarket>, lat: real, lng: real, radius: real,
                                                distance: Distance, round2: real -> real)
    ensures var stores := IndicesWhere(ss, WithinRadius(lat, lng, radius, distance));
            var es := NearbyEntries(ss, lat, lng, radius, distance, round2);
            && |es| == |stores|
            && forall k :: 0 <= k < |stores| ==>
                 es[k] == EntryFor(ss[stores[k]], round2(distance(lat, lng, ss[stores[k]].latitude, ss[stores[k]].longitude)))
  {
    if ss != [] {
      var n := |ss| - 1;
      var init := ss[..n];
      var within := WithinRadius(lat, lng, radius, distance);
      NearbyEntriesInOrder(init, lat, lng, radius, distance, round2);
      var before := IndicesWhere(init, within);
      var stores := IndicesWhere(ss, within);
      var earlier := NearbyEntries(init, lat, lng, radius, distance, round2);
      var last := if within(ss[n]) then [EntryFor(ss[n], round2(distance(lat, lng, ss[n].latitude, ss[n].longitude)))] else [];
      assert stores == before + (if within(ss[n]) then [n] else []);
      assert NearbyEntries(ss, lat, lng, radius, distance, round2) == earlier + last;
      forall k | 0 <= k < |stores|
        ensures (earlier + last)[k]
                == EntryFor(ss[stores[k]], round2(distance(lat, lng, ss[stores[k]].latitude, ss[stores[k]].longitude)))
      {
        if k < |before| {
          assert stores[k] == before[k] && ss[before[k]] == init[before[k]];
        }
      }
    }
  }

  /** An entry is appended exactly for a store whose distance is at most
      `radius`, the bound included. */
  lemma {:induction false} NearbyEntriesMembers(ss: seq<Supermarket>, lat: real, lng: real, radius: real,
                                                distance: Distance, round2: real -> real, e: NearbyEntry)
    ensures e in NearbyEntries(ss, lat, lng, radius, distance, round2) <==>
              exists s :: s in ss && distance(lat, lng, s.latitude, s.longitude) <= radius
                          && e == EntryFor(s, round2(distance(lat, lng, s.latitude, s.longitude)))
  {
    if ss != [] {
      var init := ss[..|ss| - 1];
      NearbyEntriesMembers(init, lat, lng, radius, distance, round2, e);
      assert ss == init + [ss[|ss| - 1]];
      forall s | s in ss ensures s in init || s == ss[|ss| - 1] {
        var i :| 0 <= i < |ss| && ss[i] == s;
        if i < |ss| - 1 { assert init[i] == s; }
      }
    }
  }

  /** `GET /supermarkets-nearby`: the loop over all stores, then the sort by distance. */
  method NearbySupermarkets(db: Database, lat: real, lng: real, radius: real, distance: Distance, round2: real -> real)
    returns (r: seq<NearbyEntry>)
    ensures r == SortBy(NearbyEntries(db.supermarkets, lat, lng, radius, distance, round2), DistanceKey)
  {
    var acc: seq<NearbyEntry> := [];
    var i := 0;
    while i < |db.supermarkets|
      invariant 0 <= i <= |db.supermarkets|
      invariant acc == NearbyEntries(db.supermarkets[..i], lat, lng, radius, distance, round2)
    {
      var s := db.supermarkets[i];
      var d := distance(lat, lng, s.latitude, s.longitude);
      if d <= radius {
        acc := acc + [EntryFor(s, round2(d))];
      }
      assert db.supermarkets[..i + 1][..i] == db.supermarkets[..i];
      i := i + 1;
    }
    assert db.supermarkets[..i] == db.supermarkets;
    r := SortBy(acc, DistanceKey);
  }

  /** The nearby answer holds exactly the stores within the radius, each
      once per row, in ascending rounded distance; stores at the same
      rounded distance keep their table order. */
  lemma NearbyAnswer(db: Database, lat: real, lng: real, radius: real, distance: Distance, round2: real -> real)
    ensures var es := NearbyEntries(db.supermarkets, lat, lng, radius, distance, round2);
            var r := SortBy(es, DistanceKey);
            && SortedBy(r, DistanceKey)
            && multiset(r) == multiset(es)
            && (forall k :: KeyClass(r, DistanceKey, k) == KeyClass(es, DistanceKey, k))
            && (forall e :: e in r <==>
                  exists s :: s in db.supermarkets && distance(lat, lng, s.latitude, s.longitude) <= radius
                              && e == EntryFor(s, round2(distance(lat, lng, s.latitude, s.longitude))))
  {
    var es := NearbyEntries(db.supermarkets, lat, lng, radius, distance, round2);
    SortBySorted(es, DistanceKey);
    SortByPermutation(es, DistanceKey);
    forall k ensures KeyClass(SortBy(es, DistanceKey), DistanceKey, k) == KeyClass(es, DistanceKey, k) {
      SortByStable(es, DistanceKey, k);
    }
    forall e ensures e in SortBy(es, DistanceKey) <==> e in es {
      assert e in SortBy(es, DistanceKey) <==> e in multiset(SortBy(es, DistanceKey));
    }
    forall e ensures e in es <==>
                       exists s :: s in db.supermarkets && distance(lat, lng, s.latitude, s.longitude) <= radius
                                   && e == EntryFor(s, round2(distance(lat, lng, s.latitude, s.longitude))) {
      NearbyEntriesMembers(db.supermarkets, lat, lng, radius, distance, round2, e);
    }
  }

  // ----- products and prices -------------------------------------------------

  /** Python truthiness of an optional string: set and non-empty. */
  predicate GivenText(s: Option<string>)
  {
    s.Some? && s.value != ""
  }

  /** Python truthiness of an optional id: set and non-zero. */
  predicate GivenId(id: Option<int>)
  {
    id.Some? && id.value != 0
  }

  /** `GET /products/`: the category filter applies only to a truthy
      category, then one page. */
  function GetProducts(db: Database, skip: nat, limit: nat, category: Option<string>): (r: seq<Product>)
    ensures |r| <= limit
    ensures !GivenText(category) ==> r == Page(db.products, skip, limit)
    ensures GivenText(category) ==> r == Page(Filter(db.products, (p: Product) => p.category == category.value), skip, limit)
    ensures forall p :: p in r ==> p in db.products && (GivenText(category) ==> p.category == category.value)
  {
    var rows := if GivenText(category) then Filter(db.products, (p: Product) => p.category == category.value) else db.products;
    PageMembers(rows, skip, limit);
    Page(rows, skip, limit)
  }

  lemma PageMembers<T>(s: seq<T>, skip: nat, limit: nat)
    ensures forall x :: x in Page(s, skip, limit) ==> x in s
  {
    forall x | x in Page(s, skip, limit) ensures x in s {
      var k :| 0 <= k < |Page(s, skip, limit)| && Page(s, skip, limit)[k] == x;
      assert s[skip + k] == x;
    }
  }

  /** `GET /products/search`: the products whose name contains `q`. */
  function SearchProducts(db: Database, q: string): (r: seq<Product>)
    ensures forall p :: p in r <==> p in db.products && Text.Contains(p.name, q)
    ensures IsSubsequence(r, db.products)
  {
    FilterIsSubsequence(db.products, (p: Product) => Text.Contains(p.name, q));
    forall p ensures p in Filter(db.products, (p: Product) => Text.Contains(p.name, q)) <==> p in db.products && Text.Contains(p.name, q) {
      FilterMembers(db.products, (p: Product) => Text.Contains(p.name, q), p);
    }
    Filter(db.products, (p: Product) => Text.Contains(p.name, q))
  }

  /** The test `get_prices` applies: a truthy product id and a truthy store id each must match. */
  predicate PriceMatches(p: Price, productId: Option<int>, supermarketId: Option<int>)
  {
    (GivenId(productId) ==> p.productId == productId.value)
    && (GivenId(supermarketId) ==> p.supermarketId == supermarketId.value)
  }

  /** `GET /prices/`: the two filters, each only when its id is truthy, then one page. */
  function GetPrices(db: Database, skip: nat, limit: nat, productId: Option<int>, supermarketId: Option<int>): (r: seq<Price>)
    ensures |r| <= limit
    ensures r == Page(Filter(db.prices, (p: Price) => PriceMatches(p, productId, supermarketId)), skip, limit)
  {
    var rows := db.prices;
    if GivenId(productId) && GivenId(supermarketId) then
      var byProduct := Filter(rows, (p: Price) => p.productId == productId.value);
      FilterFilter(rows, (p: Price) => p.productId == productId.value, (p: Price) => p.supermarketId == supermarketId.value,
                   (p: Price) => PriceMatches(p, productId, supermarketId));
      Page(Filter(byProduct, (p: Price) => p.supermarketId == supermarketId.value), skip, limit)
    else if GivenId(productId) then
      FilterCongruent(rows, (p: Price) => p.productId == productId.value, (p: Price) => PriceMatches(p, productId, supermarketId));
      Page(Filter(rows, (p: Price) => p.productId == productId.value), skip, limit)
    else if GivenId(supermarketId) then
      FilterCongruent(rows, (p: Price) => p.supermarketId == supermarketId.value, (p: Price) => PriceMatches(p, productId, supermarketId));
      Page(Filter(rows, (p: Price) => p.supermarketId == supermarketId.value), skip, limit)
    else
      FilterAll(rows, (p: Price) => PriceMatches(p, productId, supermarketId));
      Page(rows, skip, limit)
  }

  /** An id of 0 filters nothing: it is the same as no id. */
  lemma ZeroIdIsNoFilter(db: Database, skip: nat, limit: nat, supermarketId: Option<int>)
    ensures GetPrices(db, skip, limit, Some(0), supermarketId) == GetPrices(db, skip, limit, None, supermarketId)
  {
    FilterCongruent(db.prices, (p: Price) => PriceMatches(p, Some(0), supermarketId),
                               (p: Price) => PriceMatches(p, None, supermarketId));
  }

  /** The body of `POST /prices/`. */
  datatype PriceCreate = PriceCreate(productId: int, supermarketId: int, price: real, unit: string, recordedBy: string)

  /** `POST /prices/`: the product is checked first, then the store; the row
      is inserted only when both exist, with the id and time the database assigns. */
  function CreatePrice(db: Database, body: PriceCreate, newId: int, now: int): (r: (Database, Response<Price>))
    ensures FindProduct(db.products, body.productId).None? ==> r == (db, NotFound(ProductNotFound))
    ensures FindProduct(db.products, body.productId).Some? && FindSupermarket(db.supermarkets, body.supermarketId).None? ==>
              r == (db, NotFound(SupermarketNotFound))
    ensures r.1.Ok? <==> FindProduct(db.products, body.productId).Some? && FindSupermarket(db.supermarkets, body.supermarketId).Some?
    ensures r.1.Ok? ==> && r.1.value == Price(newId, body.productId, body.supermarketId, body.price, body.unit, body.recordedBy, now)
                        && r.0 == db.(prices := db.prices + [r.1.value])
    ensures !r.1.Ok? ==> r.0 == db
  {
    if FindProduct(db.products, body.productId).None? then (db, NotFound(ProductNotFound))
    else if FindSupermarket(db.supermarkets, body.supermarketId).None? then (db, NotFound(SupermarketNotFound))
    else
      var row := Price(newId, body.productId, body.supermarketId, body.price, body.unit, body.recordedBy, now);
      (db.(prices := db.prices + [row]), Ok(row))
  }

  /** With neither the product nor the store present, the answer is the product's 404. */
  lemma CreatePriceBothMissing(db: Database, body: PriceCreate, newId: int, now: int)
    requires forall i :: 0 <= i < |db.products| ==> db.products[i].id != body.productId
    requires forall i :: 0 <= i < |db.supermarkets| ==> db.supermarkets[i].id != body.supermarketId
    ensures CreatePrice(db, body, newId, now) == (db, NotFound(ProductNotFound))
  {
  }

  // ----- comparison ---------------------------------------------------------------

  datatype ComparisonEntry = ComparisonEntry(supermarket: string, address: string, price: real, unit: string, recordedAt: int)
  datatype Comparison = Comparison(product: string, prices: seq<ComparisonEntry>)

  function PriceKey(e: ComparisonEntry): real
  {
    e.price
  }

  /** The price rows of a product, in table order. */
  function RowsFor(db: Database, productId: int): (rows: seq<Price>)
    ensures forall p :: p in rows <==> p in db.prices && p.productId == productId
  {
    forall p ensures p in Filter(db.prices, (p: Price) => p.productId == productId) <==> p in db.prices && p.productId == productId {
      FilterMembers(db.prices, (p: Price) => p.productId == productId, p);
    }
    Filter(db.prices, (p: Price) => p.productId == productId)
  }

  /** The entries the loop appends for `rows`, or `None` when a row's store is missing. */
  function ComparisonEntries(db: Database, rows: seq<Price>): (r: Option<seq<ComparisonEntry>>)
    ensures r.Some? ==> |r.value| == |rows|
    ensures r.None? <==> exists k :: 0 <= k < |rows| && FindSupermarket(db.supermarkets, rows[k].supermarketId).None?
  {
    if rows == [] then Some([])
    else
      var init := ComparisonEntries(db, rows[..|rows| - 1]);
      var p := rows[|rows| - 1];
      var s := FindSupermarket(db.supermarkets, p.supermarketId);
      if init.None? then
        var k :| 0 <= k < |rows[..|rows| - 1]| && FindSupermarket(db.supermarkets, rows[..|rows| - 1][k].supermarketId).None?;
        assert rows[k] == rows[..|rows| - 1][k];
        None
      else if s.None? then None
      else
        assert forall k :: 0 <= k < |rows| - 1 ==> rows[k] == rows[..|rows| - 1][k];
        Some(init.value + [ComparisonEntry(s.value.name, s.value.address, p.price, p.unit, p.recordedAt)])
  }

  /** The answer of `GET /prices/compare/{id}`. */
  function Compare(db: Database, productId: int): (r: Response<Comparison>)
    ensures r.NotFound? <==> RowsFor(db, productId) == []
    ensures r.NotFound? ==> r.detail == PricesNotFound
    ensures r.ServerError? <==>
              RowsFor(db, productId) != [] && (ComparisonEntries(db, RowsFor(db, productId)).None? || FindProduct(db.products, productId).None?)
    ensures r.Ok? ==> && ComparisonEntries(db, RowsFor(db, productId)).Some?
                      && r.value.prices == SortBy(ComparisonEntries(db, RowsFor(db, productId)).value, PriceKey)
                      && FindProduct(db.products, productId).Some?
                      && r.value.product == FindProduct(db.products, productId).value.name
  {
    var rows := RowsFor(db, productId);
    if rows == [] then NotFound(PricesNotFound)
    else
      var entries := ComparisonEntries(db, rows);
      assert rows[0] in rows;
      if entries.None? then ServerError
      else
        var product := FindProduct(db.products, rows[0].productId);
        if product.None? then ServerError
        else Ok(Comparison(product.value.name, SortBy(entries.value, PriceKey)))
  }

  /** `compare_prices`: the query, the 404, the loop building one entry per
      row, the sort by price and the product name read from the first row. */
  method ComparePrices(db: Database, productId: int) returns (r: Response<Comparison>)
    ensures r == Compare(db, productId)
  {
    var rows := RowsFor(db, productId);
    if rows == [] {
      return NotFound(PricesNotFound);
    }
    var entries := BuildEntries(db, rows);
    if entries.None? {
      return ServerError;
    }
    var product := FindProduct(db.products, rows[0].productId);
    assert rows[0] in rows;
    if product.None? {
      return ServerError;
    }
    r := Ok(Comparison(product.value.name, SortBy(entries.value, PriceKey)));
  }

  /** The loop of `compare_prices`: one entry per row, in row order, each
      with its store's name and address; the 500 as soon as a store is missing. */
  method BuildEntries(db: Database, rows: seq<Price>) returns (r: Option<seq<ComparisonEntry>>)
    ensures r == ComparisonEntries(db, rows)
  {
    var acc: seq<ComparisonEntry> := [];
    var i := 0;
    while i < |rows|
      invariant 0 <= i <= |rows|
      invariant ComparisonEntries(db, rows[..i]) == Some(acc)
    {
      var s := FindSupermarket(db.supermarkets, rows[i].supermarketId);
      EntriesStep(db, rows, i);
      if s.None? {
        PrefixMissingStore(db, rows, i + 1);
        return None;
      }
      acc := acc + [ComparisonEntry(s.value.name, s.value.address, rows[i].price, rows[i].unit, rows[i].recordedAt)];
      i := i + 1;
    }
    assert rows[..i] == rows;
    r := Some(acc);
  }

  /** One more row: its entry is appended, or the answer becomes `None` when its store is missing. */
  lemma EntriesStep(db: Database, rows: seq<Price>, i: nat)
    requires i < |rows| && ComparisonEntries(db, rows[..i]).Some?
    ensures var s := FindSupermarket(db.supermarkets, rows[i].supermarketId);
            ComparisonEntries(db, rows[..i + 1])
            == if s.None? then None
               else Some(ComparisonEntries(db, rows[..i]).value
                         + [ComparisonEntry(s.value.name, s.value.address, rows[i].price, rows[i].unit, rows[i].recordedAt)])
  {
    assert rows[..i + 1][..i] == rows[..i];
  }

  lemma PrefixMissingStore(db: Database, rows: seq<Price>, n: nat)
    requires n <= |rows| && ComparisonEntries(db, rows[..n]).None?
    ensures ComparisonEntries(db, rows).None?
  {
    var k :| 0 <= k < n && FindSupermarket(db.supermarkets, rows[..n][k].supermarketId).None?;
    assert rows[k] == rows[..n][k];
  }

  /** A successful comparison lists one entry per price row of the product,
      in ascending price, as a permutation of the rows' entries, equal prices
      in table order. */
  lemma CompareAnswer(db: Database, productId: int)
    requires Compare(db, productId).Ok?
    ensures var entries := ComparisonEntries(db, RowsFor(db, productId)).value;
            var ps := Compare(db, productId).value.prices;
            && |ps| == |RowsFor(db, productId)|
            && SortedBy(ps, PriceKey)
            && multiset(ps) == multiset(entries)
            && forall k :: KeyClass(ps, PriceKey, k) == KeyClass(entries, PriceKey, k)
  {
    var entries := ComparisonEntries(db, RowsFor(db, productId)).value;
    SortBySorted(entries, PriceKey);
    SortByPermutation(entries, PriceKey);
    forall k ensures KeyClass(SortBy(entries, PriceKey), PriceKey, k) == KeyClass(entries, PriceKey, k) {
      SortByStable(entries, PriceKey, k);
    }
  }
}
