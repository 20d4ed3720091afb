/** The price band the sample-data script draws each price from: a base
    price per product and a factor band per store chain, the chain being
    the first of seven keywords found in the store's name. Factors are
    integer percentages. */
module DummyData {
  import Text

  const DefaultBasePrice: nat := 200

  /** The base price in yen of each sample product. */
  const BasePrices: map<string, nat> := map[
    "卵" := 200, "牛乳" := 180, "食パン" := 150, "米" := 400, "鶏肉" := 300, "豚肉" := 350,
    "玉ねぎ" := 250, "じゃがいも" := 300, "バナナ" := 150, "キャベツ" := 200, "人参" := 180, "りんご" := 400]

  /** `base_prices.get(product_name, 200)`. */
  function BasePrice(product: string): (p: nat)
    ensures product in BasePrices ==> p == BasePrices[product]
    ensures product !in BasePrices ==> p == DefaultBasePrice
    ensures 150 <= p <= 400
  {
    if product in BasePrices then BasePrices[product] else DefaultBasePrice
  }

  /** The everyday goods the discount chain prices normally. */
  const Staples: seq<string> := ["卵", "牛乳", "食パン"]

  datatype Band = Band(minPercent: nat, maxPercent: nat)

  /** The chains in the order their keywords are tried; `Other` when none matches. */
  datatype Chain = Gyomu | BigA | DonQuijote | Aeon | Seiyu | Life | MyBasket | Other

  const ChainOrder: seq<Chain> := [Gyomu, BigA, DonQuijote, Aeon, Seiyu, Life, MyBasket]

  /** The store name contains one of the spellings. */
  predicate ContainsAny(name: string, spellings: seq<string>)
  {
    exists j :: 0 <= j < |spellings| && Text.Contains(name, spellings[j])
  }

  /** The index of the first entry of `table` whose spellings the name
      contains, `|table|` when there is none. */
  function FirstMatch(name: string, table: seq<seq<string>>): (k: nat)
    ensures k <= |table|
    ensures k < |table| ==> ContainsAny(name, table[k])
    ensures forall i :: 0 <= i < k ==> !ContainsAny(name, table[i])
  {
    if table == [] then 0
    else if ContainsAny(name, table[0]) then 0
    else
      var k := 1 + FirstMatch(name, table[1..]);
      assert forall i :: 1 <= i < k ==> table[i] == table[1..][i - 1];
      k
  }

  /** The keywords as the script tests them, one spelling per chain. */
  const KeywordsAsWritten: seq<seq<string>> := [["業務スーパー"], ["ビッグ・エー"], ["ドンキホーテ"], ["イオン"], ["西友"], ["ライフ"], ["まいばすけっと"]]

  /** The keywords with the other spellings the store list itself uses for
      two of the chains ('ビッグエー', 'ドン・キホーテ'). */
  const Keywords: seq<seq<string>> := [["業務スーパー"], ["ビッグ・エー", "ビッグエー"], ["ドンキホーテ", "ドン・キホーテ"], ["イオン"], ["西友"], ["ライフ"], ["まいばすけっと"]]

  /** The chain of a store as written: the first keyword found. */
  function ChainOfAsWritten(name: string): (c: Chain)
    ensures c == Other <==> forall k :: 0 <= k < |KeywordsAsWritten| ==> !ContainsAny(name, KeywordsAsWritten[k])
  {
    var k := FirstMatch(name, KeywordsAsWritten);
    if k < |KeywordsAsWritten| then ChainOrder[k] else Other
  }

  /** The chain of a store, every spelling of its keyword accepted. */
  function ChainOf(name: string): (c: Chain)
    ensures c == Other <==> forall k :: 0 <= k < |Keywords| ==> !ContainsAny(name, Keywords[k])
    ensures forall k :: 0 <= k < |Keywords| && ChainOrder[k] == c ==>
              ContainsAny(name, Keywords[k]) && forall i :: 0 <= i < k ==> !ContainsAny(name, Keywords[i])
  {
    var k := FirstMatch(name, Keywords);
    if k < |Keywords| then ChainOrder[k] else Other
  }

  /** The factor band of a chain; only the discount chain looks at the product. */
  function ChainBand(c: Chain, product: string): Band
  {
    match c
    case Gyomu => Band(70, 90)
    case BigA => Band(75, 92)
    case DonQuijote => if product in Staples then Band(80, 110) else Band(85, 130)
    case Aeon => Band(85, 105)
    case Seiyu => Band(80, 100)
    case Life => Band(90, 115)
    case MyBasket => Band(88, 108)
    case Other => Band(90, 110)
  }

  /** `get_price_range` as written: the band for the first keyword found;
      the cheapest price is the base price scaled down by the lower factor,
      the dearest scaled by the upper one, both rounded down. */
  function PriceRangeAsWritten(store: string, product: string): (r: (nat, nat))
    ensures r.0 <= r.1
  {
    var b := ChainBand(ChainOfAsWritten(store), product);
    BandOrdered(ChainOfAsWritten(store), product);
    ScaleMonotone(BasePrice(product), b.minPercent, b.maxPercent);
    (BasePrice(product) * b.minPercent / 100, BasePrice(product) * b.maxPercent / 100)
  }

  /** `get_price_range` with every spelling of the keywords recognised. */
  function PriceRange(store: string, product: string): (r: (nat, nat))
    ensures r.0 <= r.1
    ensures r == ((BasePrice(product) * ChainBand(ChainOf(store), product).minPercent) / 100,
                  (BasePrice(product) * ChainBand(ChainOf(store), product).maxPercent) / 100)
  {
    var b := ChainBand(ChainOf(store), product);
    BandOrdered(ChainOf(store), product);
    ScaleMonotone(BasePrice(product), b.minPercent, b.maxPercent);
    (BasePrice(product) * b.minPercent / 100, BasePrice(product) * b.maxPercent / 100)
  }

  /** In every branch the lower factor is below the upper one. */
  lemma BandOrdered(c: Chain, product: string)
    ensures ChainBand(c, product).minPercent < ChainBand(c, product).maxPercent
  {
  }

  lemma ScaleMonotone(base: nat, lo: nat, hi: nat)
    requires lo <= hi
    ensures base * lo / 100 <= base * hi / 100
  {
    assert base * lo <= base * hi by {
      assert base * hi - base * lo == base * (hi - lo);
    }
  }

  /** Only the discount chain's band depends on the product; its staples get the narrower band. */
  lemma BandDependsOnProductOnlyForDiscounter(c: Chain, p1: string, p2: string)
    ensures c != DonQuijote ==> ChainBand(c, p1) == ChainBand(c, p2)
    ensures c == DonQuijote ==> (ChainBand(c, p1) == Band(80, 110) <==> p1 in Staples)
  {
  }

  /** The two lists of keywords give the same chain for a name that uses
      neither of the extra spellings. */
  lemma ChainsAgreeWithoutExtraSpellings(name: string)
    requires !Text.Contains(name, "ビッグエー") && !Text.Contains(name, "ドン・キホーテ")
    ensures ChainOf(name) == ChainOfAsWritten(name)
  {
    assert forall k :: 0 <= k < 7 ==> (ContainsAny(name, Keywords[k]) <==> ContainsAny(name, KeywordsAsWritten[k])) by {
      forall k | 0 <= k < 7 ensures ContainsAny(name, Keywords[k]) <==> ContainsAny(name, KeywordsAsWritten[k]) {
        if ContainsAny(name, Keywords[k]) {
          var j :| 0 <= j < |Keywords[k]| && Text.Contains(name, Keywords[k][j]);
          assert Text.Contains(name, KeywordsAsWritten[k][0]);
        }
        if ContainsAny(name, KeywordsAsWritten[k]) {
          assert Text.Contains(name, Keywords[k][0]);
        }
      }
    }
    SameMatches(name, Keywords, KeywordsAsWritten);
  }

  /** For a store name with neither extra spelling, the script's price band
      is the band with every spelling recognised. */
  lemma PriceRangesAgreeWithoutExtraSpellings(store: string, product: string)
    requires !Text.Contains(store, "ビッグエー") && !Text.Contains(store, "ドン・キホーテ")
    ensures PriceRangeAsWritten(store, product) == PriceRange(store, product)
  {
    ChainsAgreeWithoutExtraSpellings(store);
  }

  lemma {:induction false} SameMatches(name: string, t1: seq<seq<string>>, t2: seq<seq<string>>)
    requires |t1| == |t2|
    requires forall k :: 0 <= k < |t1| ==> (ContainsAny(name, t1[k]) <==> ContainsAny(name, t2[k]))
    ensures FirstMatch(name, t1) == FirstMatch(name, t2)
  {
    if t1 != [] {
      SameMatches(name, t1[1..], t2[1..]);
    }
  }

  /** Two store names of the sample list. */
  const KabukichoStore: string := "ドン・キホーテ 新宿歌舞伎町店"
  const IchikawaBigA: string := "BIGA（ビッグエー） 市川八幡店"
}
