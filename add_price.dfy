/** The add-price screen: the form fields, the ordered validation, the
    product and store suggestions, picking a suggestion, and the submit flow
    (create the product when none is selected, require a selected store,
    then create the price). Each request's answer is a parameter of the
    method that handles it. */
module AddPrice {
  import opened Common
  import opened JsValues
  import Text
  import Backend

  const DefaultUnit: string := "個"
  const MinQueryLength: nat := 2
  const MaxSuggestions: nat := 5

  const ErrorTitle: string := "エラー"
  const MissingProductName: string := "商品名を入力してください"
  const MissingCategory: string := "カテゴリを選択してください"
  const MissingSupermarketName: string := "スーパーマーケット名を入力してください"
  const InvalidPrice: string := "正しい価格を入力してください"
  const MissingRecorder: string := "登録者名を入力してください"
  const ProductCreateFailed: string := "商品の作成に失敗しました"
  const PriceCreateFailed: string := "価格の登録に失敗しました"
  const NewSupermarketTitle: string := "新しいスーパーマーケット"
  const NewSupermarketMessage: string := "このスーパーマーケットは未登録です。位置情報の設定は後で行えます。"
  const DoneTitle: string := "登録完了"
  const DoneMessage: string := "価格情報を登録しました"
  const AddressFallback: string := "住所未設定"

  const Units: seq<string> := ["個", "パック", "kg", "g", "本", "袋", "L", "ml", "箱"]

  // ----- validation -----------------------------------------------------------

  /** The price check: non-blank, parses to a number, and that number is not `<= 0`. */
  predicate ValidPrice(price: string)
  {
    var v := ParseFloat(price);
    Text.Trim(price) != "" && !v.NaN? && !(v.Num? && v.n <= 0.0) && !(v.Inf? && v.negative)
  }

  function ParseFloat(s: string): Value
  {
    Text.ParseFloat(s)
  }

  predicate Filled(s: string)
  {
    Text.Trim(s) != ""
  }

  /** `validateForm`: the message of the first failing check (name, category,
      store name, price, recorder), or `None` when the form is valid. */
  function FirstFailure(productName: string, category: string, supermarketName: string, price: string, recordedBy: string)
    : (r: Option<string>)
    ensures r.None? <==> Filled(productName) && Filled(category) && Filled(supermarketName) && ValidPrice(price) && Filled(recordedBy)
    ensures r == Some(MissingProductName) <==> !Filled(productName)
    ensures r == Some(MissingCategory) <==> Filled(productName) && !Filled(category)
    ensures r == Some(MissingSupermarketName) <==> Filled(productName) && Filled(category) && !Filled(supermarketName)
    ensures r == Some(InvalidPrice) <==> Filled(productName) && Filled(category) && Filled(supermarketName) && !ValidPrice(price)
    ensures r == Some(MissingRecorder) <==>
              Filled(productName) && Filled(category) && Filled(supermarketName) && ValidPrice(price) && !Filled(recordedBy)
  {
    if !Filled(productName) then Some(MissingProductName)
    else if !Filled(category) then Some(MissingCategory)
    else if !Filled(supermarketName) then Some(MissingSupermarketName)
    else if !ValidPrice(price) then Some(InvalidPrice)
    else if !Filled(recordedBy) then Some(MissingRecorder)
    else None
  }

  /** A valid price text parses to a positive number or to `Infinity`. */
  lemma ValidPriceIsPositive(price: string)
    requires ValidPrice(price)
    ensures (ParseFloat(price).Num? && ParseFloat(price).n > 0.0) || ParseFloat(price) == Inf(false)
  {
  }

  /** The decimal text of a positive whole number is a valid price; blank
      text and `0` are not. */
  lemma ValidPriceExamples(n: nat)
    requires n > 0
    ensures ValidPrice(Text.NatToString(n))
    ensures !ValidPrice("") && !ValidPrice("0")
  {
    Text.ParseFloatOfNatToString(n);
    Text.NatToStringDigits(n);
    Text.TrimStartOfDigits(Text.NatToString(n));
    Text.ParseFloatOfNatToString(0);
    assert Text.NatToString(0) == "0";
    var s := Text.NatToString(n);
    assert !Text.IsWhitespace(s[0]);
    Text.TrimEmptyIffBlank(s);
  }

  // ----- suggestions ------------------------------------------------------------

  /** The store test: the name or the address contains the query, ignoring case. */
  predicate StoreMatches(s: Backend.Supermarket, query: string)
  {
    Text.NameOrAddressContains(s.name, s.address, query)
  }

  function StoreTest(query: string): Backend.Supermarket -> bool
  {
    (s: Backend.Supermarket) => StoreMatches(s, query)
  }

  /** The store suggestions: the first five matching stores, in fetched order. */
  function StoreSuggestions(all: seq<Backend.Supermarket>, query: string): (r: seq<Backend.Supermarket>)
    ensures r <= Filter(all, StoreTest(query))
    ensures |r| == if |Filter(all, StoreTest(query))| < MaxSuggestions then |Filter(all, StoreTest(query))| else MaxSuggestions
    ensures forall s :: s in r ==> s in all && StoreMatches(s, query)
  {
    Take(Filter(all, StoreTest(query)), MaxSuggestions)
  }

  /** The product suggestions: the first five search results. */
  function ProductSuggestions(results: seq<Backend.Product>): (r: seq<Backend.Product>)
    ensures r <= results
    ensures |r| == if |results| < MaxSuggestions then |results| else MaxSuggestions
  {
    Take(results, MaxSuggestions)
  }

  /** The product the form submits when none is selected: the trimmed name,
      the category as chosen, and the trimmed brand or `null` when blank. */
  datatype ProductRequest = ProductRequest(name: string, category: string, brand: Option<string>)

  function NewProductRequest(name: string, category: string, brand: string): ProductRequest
  {
    ProductRequest(Text.Trim(name), category, if Text.Trim(brand) == "" then None else Some(Text.Trim(brand)))
  }

  /** The created product's brand is absent exactly when the brand field is
      blank (only whitespace), and otherwise is the non-empty trimmed text. */
  lemma NewProductRequestFields(name: string, category: string, brand: string)
    ensures var r := NewProductRequest(name, category, brand);
            && r.name == Text.Trim(name) && r.category == category
            && (r.brand.None? <==> forall i :: 0 <= i < |brand| ==> Text.IsWhitespace(brand[i]))
            && (r.brand.Some? ==> r.brand.value == Text.Trim(brand) && r.brand.value != "")
  {
    Text.TrimEmptyIffBlank(brand);
  }

  /** The store the confirmation button would create: unplaced, with the trimmed name and address. */
  datatype SupermarketRequest = SupermarketRequest(name: string, address: string, latitude: real, longitude: real, phone: Option<string>)

  function NewSupermarketRequest(name: string, address: string): (r: SupermarketRequest)
    ensures r.name == Text.Trim(name) && r.latitude == 0.0 && r.longitude == 0.0 && r.phone.None?
    ensures Filled(address) ==> r.address == Text.Trim(address)
    ensures !Filled(address) ==> r.address == AddressFallback
  {
    SupermarketRequest(Text.Trim(name), if Text.Trim(address) == "" then AddressFallback else Text.Trim(address), 0.0, 0.0, None)
  }

  /** The body of the price request. */
  datatype PriceRequest = PriceRequest(productId: int, supermarketId: int, price: Value, unit: string, recordedBy: string)

  function NewPriceRequest(p: Backend.Product, s: Backend.Supermarket, price: string, unit: string, recordedBy: string): PriceRequest
  {
    PriceRequest(p.id, s.id, ParseFloat(price), unit, Text.Trim(recordedBy))
  }

  /** The alert after the price request: done, or the failure's message (a default when it is empty). */
  function PriceAlert(priceError: Option<string>): (string, string)
  {
    if priceError.None? then (DoneTitle, DoneMessage)
    else (ErrorTitle, if priceError.value != "" then priceError.value else PriceCreateFailed)
  }

  /** `brand || ''` for an optional brand. */
  function BrandText(brand: Option<string>): (t: string)
    ensures brand.Some? ==> t == brand.value
    ensures brand.None? ==> t == ""
  {
    if brand.Some? then brand.value else ""
  }

  /** The logs after the submit flow of a valid form, from the logs
      before it: a product request exactly when no product was selected; a
      failed creation alerts and stops; without a selected store the
      new-store dialog is shown and no price is sent; otherwise one price
      request for the selected or created product and the outcome's alert. */
  predicate SubmitOutcome(product0: Option<Backend.Product>, supermarket0: Option<Backend.Supermarket>,
                          name0: string, category0: string, brand0: string, price0: string, unit0: string, recordedBy0: string,
                          productRequests0: seq<ProductRequest>, priceRequests0: seq<PriceRequest>, alerts0: seq<(string, string)>,
                          created: Option<Backend.Product>, priceError: Option<string>,
                          productRequests: seq<ProductRequest>, priceRequests: seq<PriceRequest>, alerts: seq<(string, string)>)
  {
    && (product0.None? ==> productRequests == productRequests0 + [NewProductRequest(name0, category0, brand0)])
    && (product0.Some? ==> productRequests == productRequests0)
    && (product0.None? && created.None? ==>
          alerts == alerts0 + [(ErrorTitle, ProductCreateFailed)] && priceRequests == priceRequests0)
    && ((product0.Some? || created.Some?) && supermarket0.None? ==>
          alerts == alerts0 + [(NewSupermarketTitle, NewSupermarketMessage)] && priceRequests == priceRequests0)
    && ((product0.Some? || created.Some?) && supermarket0.Some? ==>
          var p := if product0.Some? then product0.value else created.value;
          && priceRequests == priceRequests0 + [NewPriceRequest(p, supermarket0.value, price0, unit0, recordedBy0)]
          && alerts == alerts0 + [PriceAlert(priceError)])
  }

  /** The steps of the submit flow: `createProductIfNeeded`, then
      `createSupermarketIfNeeded`, then the price request. */
  function SubmitRequests(product0: Option<Backend.Product>, supermarket0: Option<Backend.Supermarket>,
                          name0: string, category0: string, brand0: string, price0: string, unit0: string, recordedBy0: string,
                          productRequests0: seq<ProductRequest>, priceRequests0: seq<PriceRequest>, alerts0: seq<(string, string)>,
                          created: Option<Backend.Product>, priceError: Option<string>)
    : (r: (seq<ProductRequest>, seq<PriceRequest>, seq<(string, string)>))
    ensures SubmitOutcome(product0, supermarket0, name0, category0, brand0, price0, unit0, recordedBy0,
                          productRequests0, priceRequests0, alerts0, created, priceError, r.0, r.1, r.2)
  {
    var requests := if product0.None? then productRequests0 + [NewProductRequest(name0, category0, brand0)]
                    else productRequests0;
    if product0.None? && created.None? then
      (requests, priceRequests0, alerts0 + [(ErrorTitle, ProductCreateFailed)])
    else if supermarket0.None? then
      (requests, priceRequests0, alerts0 + [(NewSupermarketTitle, NewSupermarketMessage)])
    else
      var finalProduct := if product0.Some? then product0.value else created.value;
      (requests, priceRequests0 + [NewPriceRequest(finalProduct, supermarket0.value, price0, unit0, recordedBy0)],
       alerts0 + [PriceAlert(priceError)])
  }

  // ----- the screen ---------------------------------------------------------------

  class AddPriceScreenState {
    var product: Option<Backend.Product>
    var supermarket: Option<Backend.Supermarket>
    var price: string
    var unit: string
    var recordedBy: string
    var productName: string
    var productCategory: string
    var productBrand: string
    var supermarketName: string
    var supermarketAddress: string
    var loading: bool
    var productSuggestions: seq<Backend.Product>
    var supermarketSuggestions: seq<Backend.Supermarket>
    var alerts: seq<(string, string)>
    /** The requests sent, in order. */
    var productSearches: seq<string>
    var supermarketFetches: nat
    var productRequests: seq<ProductRequest>
    var supermarketRequests: seq<SupermarketRequest>
    var priceRequests: seq<PriceRequest>

    /** The screen after mounting: the route's product and store, if given, fill their fields. */
    constructor(initialProduct: Option<Backend.Product>, initialSupermarket: Option<Backend.Supermarket>)
      ensures product == initialProduct && supermarket == initialSupermarket
      ensures price == "" && unit == DefaultUnit && recordedBy == "" && !loading
      ensures initialProduct.Some? ==> && productName == initialProduct.value.name
                                       && productCategory == initialProduct.value.category
                                       && productBrand == BrandText(initialProduct.value.brand)
      ensures initialProduct.None? ==> productName == "" && productCategory == "" && productBrand == ""
      ensures initialSupermarket.Some? ==> supermarketName == initialSupermarket.value.name
                                           && supermarketAddress == initialSupermarket.value.address
      ensures initialSupermarket.None? ==> supermarketName == "" && supermarketAddress == ""
      ensures productSuggestions == [] && supermarketSuggestions == [] && alerts == []
      ensures productSearches == [] && supermarketFetches == 0
      ensures productRequests == [] && supermarketRequests == [] && priceRequests == []
    {
      product := initialProduct;
      supermarket := initialSupermarket;
      price := "";
      unit := DefaultUnit;
      recordedBy := "";
      productName := if initialProduct.Some? then initialProduct.value.name else "";
      productCategory := if initialProduct.Some? then initialProduct.value.category else "";
      productBrand := if initialProduct.Some? then BrandText(initialProduct.value.brand) else "";
      supermarketName := if initialSupermarket.Some? then initialSupermarket.value.name else "";
      supermarketAddress := if initialSupermarket.Some? then initialSupermarket.value.address else "";
      loading := false;
      productSuggestions := [];
      supermarketSuggestions := [];
      alerts := [];
      productSearches := [];
      supermarketFetches := 0;
      productRequests := [];
      supermarketRequests := [];
      priceRequests := [];
    }

    /** The product half of the form is as it was. */
    twostate predicate ProductFormKept()
      reads this
    {
      && product == old(product) && productName == old(productName)
      && productCategory == old(productCategory) && productBrand == old(productBrand)
    }

    /** The store half of the form is as it was. */
    twostate predicate StoreFormKept()
      reads this
    {
      supermarket == old(supermarket) && supermarketName == old(supermarketName) && supermarketAddress == old(supermarketAddress)
    }

    /** The price, unit and recorder fields are as they were. */
    twostate predicate EntryKept()
      reads this
    {
      price == old(price) && unit == old(unit) && recordedBy == old(recordedBy)
    }

    /** No create request was sent. */
    twostate predicate CreatesKept()
      reads this
    {
      productRequests == old(productRequests) && supermarketRequests == old(supermarketRequests) && priceRequests == old(priceRequests)
    }

    /** No search request was sent. */
    twostate predicate SearchesKept()
      reads this
    {
      productSearches == old(productSearches) && supermarketFetches == old(supermarketFetches)
    }

    /** `searchProducts`: a query shorter than two characters clears the
        suggestions and sends nothing; otherwise the search is sent and its
        first five results become the suggestions (a failure keeps them). */
    method SearchProducts(query: string, outcome: Option<seq<Backend.Product>>)
      modifies this
      ensures |query| < MinQueryLength ==> productSuggestions == [] && productSearches == old(productSearches)
      ensures |query| >= MinQueryLength ==> productSearches == old(productSearches) + [query]
      ensures |query| >= MinQueryLength && outcome.Some? ==> productSuggestions == ProductSuggestions(outcome.value)
      ensures |query| >= MinQueryLength && outcome.None? ==> productSuggestions == old(productSuggestions)
      ensures supermarketSuggestions == old(supermarketSuggestions) && supermarketFetches == old(supermarketFetches)
      ensures ProductFormKept() && StoreFormKept() && EntryKept() && CreatesKept()
      ensures loading == old(loading) && alerts == old(alerts)
    {
      if |query| < MinQueryLength {
        productSuggestions := [];
        return;
      }
      productSearches := productSearches + [query];
      if outcome.Some? {
        productSuggestions := ProductSuggestions(outcome.value);
      }
    }

    /** `searchSupermarkets`: the same threshold; otherwise all stores are
        fetched and the first five matching ones become the suggestions. */
    method SearchSupermarkets(query: string, outcome: Option<seq<Backend.Supermarket>>)
      modifies this
      ensures |query| < MinQueryLength ==> supermarketSuggestions == [] && supermarketFetches == old(supermarketFetches)
      ensures |query| >= MinQueryLength ==> supermarketFetches == old(supermarketFetches) + 1
      ensures |query| >= MinQueryLength && outcome.Some? ==> supermarketSuggestions == StoreSuggestions(outcome.value, query)
      ensures |query| >= MinQueryLength && outcome.None? ==> supermarketSuggestions == old(supermarketSuggestions)
      ensures productSuggestions == old(productSuggestions) && productSearches == old(productSearches)
      ensures ProductFormKept() && StoreFormKept() && EntryKept() && CreatesKept()
      ensures loading == old(loading) && alerts == old(alerts)
    {
      if |query| < MinQueryLength {
        supermarketSuggestions := [];
        return;
      }
      supermarketFetches := supermarketFetches + 1;
      if outcome.Some? {
        supermarketSuggestions := StoreSuggestions(outcome.value, query);
      }
    }

    /** `selectProduct`: the picked product fills the fields and the suggestions close. */
    method SelectProduct(p: Backend.Product)
      modifies this
      ensures product == Some(p) && productName == p.name && productCategory == p.category
      ensures productBrand == BrandText(p.brand) && productSuggestions == []
      ensures StoreFormKept() && EntryKept() && SearchesKept() && CreatesKept()
      ensures loading == old(loading) && alerts == old(alerts) && supermarketSuggestions == old(supermarketSuggestions)
    {
      product := Some(p);
      productName := p.name;
      productCategory := p.category;
      productBrand := BrandText(p.brand);
      productSuggestions := [];
    }

    /** `selectSupermarket`. */
    method SelectSupermarket(s: Backend.Supermarket)
      modifies this
      ensures supermarket == Some(s) && supermarketName == s.name && supermarketAddress == s.address
      ensures supermarketSuggestions == []
      ensures ProductFormKept() && EntryKept() && SearchesKept() && CreatesKept()
      ensures loading == old(loading) && alerts == old(alerts) && productSuggestions == old(productSuggestions)
    {
      supermarket := Some(s);
      supermarketName := s.name;
      supermarketAddress := s.address;
      supermarketSuggestions := [];
    }

    function Validation(): Option<string>
      reads this
    {
      FirstFailure(productName, productCategory, supermarketName, price, recordedBy)
    }

    /** `handleSubmit`: an invalid form alerts its first failure and sends
        nothing; a valid one goes on to the requests. */
    method HandleSubmit(created: Option<Backend.Product>, priceError: Option<string>)
      modifies this
      ensures old(Validation()).Some? ==>
                && loading == old(loading)
                && alerts == old(alerts) + [(ErrorTitle, old(Validation()).value)]
                && productRequests == old(productRequests) && priceRequests == old(priceRequests)
      ensures old(Validation()).None? ==> !loading && SubmitOutcome(old(product), old(supermarket), old(productName), old(productCategory),
                                                     old(productBrand), old(price), old(unit), old(recordedBy),
                                                     old(productRequests), old(priceRequests), old(alerts), created, priceError,
                                                     productRequests, priceRequests, alerts)
      ensures ProductFormKept() && StoreFormKept() && EntryKept() && SearchesKept()
      ensures supermarketRequests == old(supermarketRequests)
      ensures productSuggestions == old(productSuggestions) && supermarketSuggestions == old(supermarketSuggestions)
    {
      var failure := Validation();
      if failure.Some? {
        alerts := alerts + [(ErrorTitle, failure.value)];
        return;
      }
      SubmitValidForm(created, priceError);
    }

    /** The product is the selected one or is created (`created` is the
        answer; a failure alerts). Without a selected store the new-store
        dialog is shown and nothing more happens. Otherwise the price is
        sent with the parsed price, the unit and the trimmed recorder;
        `priceError` is the failure message, if it fails. */
    method SubmitValidForm(created: Option<Backend.Product>, priceError: Option<string>)
      modifies this
      ensures !loading
      ensures SubmitOutcome(old(product), old(supermarket), old(productName), old(productCategory), old(productBrand),
                            old(price), old(unit), old(recordedBy), old(productRequests), old(priceRequests), old(alerts),
                            created, priceError, productRequests, priceRequests, alerts)
      ensures ProductFormKept() && StoreFormKept() && EntryKept() && SearchesKept()
      ensures supermarketRequests == old(supermarketRequests)
      ensures productSuggestions == old(productSuggestions) && supermarketSuggestions == old(supermarketSuggestions)
    {
      var r := SubmitRequests(product, supermarket, productName, productCategory, productBrand,
                              price, unit, recordedBy, productRequests, priceRequests, alerts, created, priceError);
      loading := true;
      productRequests, priceRequests, alerts, loading := r.0, r.1, r.2, false;
    }

    /** The dialog's continue button: a store is created from the form, and
        its answer is dropped, so the submit does not resume. */
    method NewSupermarketConfirmed()
      modifies this
      ensures supermarketRequests == old(supermarketRequests) + [NewSupermarketRequest(supermarketName, supermarketAddress)]
      ensures productRequests == old(productRequests) && priceRequests == old(priceRequests) && alerts == old(alerts)
      ensures ProductFormKept() && StoreFormKept() && EntryKept() && SearchesKept()
      ensures loading == old(loading)
      ensures productSuggestions == old(productSuggestions) && supermarketSuggestions == old(supermarketSuggestions)
    {
      supermarketRequests := supermarketRequests + [NewSupermarketRequest(supermarketName, supermarketAddress)];
    }
  }

  /** Every price the screen sends passed validation, so its price is a
      positive number or `Infinity`, and its recorder is not blank. */
  lemma SubmittedPriceIsValid(productName: string, category: string, supermarketName: string, price: string, recordedBy: string)
    requires FirstFailure(productName, category, supermarketName, price, recordedBy).None?
    ensures (ParseFloat(price).Num? && ParseFloat(price).n > 0.0) || ParseFloat(price) == Inf(false)
    ensures Text.Trim(recordedBy) != ""
  {
    ValidPriceIsPositive(price);
  }
}
