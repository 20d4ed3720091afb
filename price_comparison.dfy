/** The price-comparison screen of one product: a rank badge (label and
    colour) per price, a relative date per price, the summary block with the
    store count, the cheapest price and the spread, and the loading of the
    comparison with its 404 case. */
module PriceComparison {
  import opened Common
  import Text
  import Backend

  const CheapestLabel: string := "最安値"
  const DearestLabel: string := "最高値"
  const PlaceSuffix: string := "位"
  const CheapestColour: string := "#4CAF50"
  const DearestColour: string := "#FF5722"
  const MiddleColour: string := "#FF9800"

  // ----- rank badges -------------------------------------------------------

  /** The badge position of row `index` of `total`: the cheapest at 0, the
      dearest at the last row of a list of more than two, a place otherwise. */
  predicate IsCheapest(index: nat, total: nat)
  {
    index == 0
  }

  predicate IsDearest(index: nat, total: nat)
  {
    index != 0 && index == total - 1 && total > 2
  }

  /** `getPriceRankText`. */
  function RankText(index: nat, total: nat): (t: string)
    ensures IsCheapest(index, total) ==> t == CheapestLabel
    ensures IsDearest(index, total) ==> t == DearestLabel
    ensures !IsCheapest(index, total) && !IsDearest(index, total) ==> t == Text.NatToString(index + 1) + PlaceSuffix
  {
    if index == 0 then CheapestLabel
    else if index == total - 1 && total > 2 then DearestLabel
    else Text.NatToString(index + 1) + PlaceSuffix
  }

  /** `getPriceRankColor`. */
  function RankColour(index: nat, total: nat): (c: string)
    ensures IsCheapest(index, total) ==> c == CheapestColour
    ensures IsDearest(index, total) ==> c == DearestColour
    ensures !IsCheapest(index, total) && !IsDearest(index, total) ==> c == MiddleColour
  {
    if index == 0 then CheapestColour
    else if index == total - 1 && total > 2 then DearestColour
    else MiddleColour
  }

  /** Label and colour follow the same case split: the badge is green exactly
      when it reads '最安値', red exactly when it reads '最高値', and a place
      label is orange. */
  lemma RankColourMatchesText(index: nat, total: nat)
    ensures RankColour(index, total) == CheapestColour <==> RankText(index, total) == CheapestLabel
    ensures RankColour(index, total) == DearestColour <==> RankText(index, total) == DearestLabel
    ensures RankColour(index, total) == MiddleColour <==>
              RankText(index, total) == Text.NatToString(index + 1) + PlaceSuffix
  {
    var place := Text.NatToString(index + 1) + PlaceSuffix;
    assert place[|place| - 1] == '位';
  }

  /** In a list of `total` prices, only the first reads '最安値', a '最高値'
      appears only on the last row and only when there are more than two, and
      every other row shows its 1-based place. */
  lemma RankLabelsOfList(total: nat)
    ensures forall i :: 0 <= i < total ==> (RankText(i, total) == CheapestLabel <==> i == 0)
    ensures forall i :: 0 <= i < total ==> (RankText(i, total) == DearestLabel <==> total > 2 && i == total - 1)
    ensures forall i :: 0 < i < total && !(total > 2 && i == total - 1) ==>
              RankText(i, total) == Text.NatToString(i + 1) + PlaceSuffix
  {
    forall i | 0 <= i < total ensures (RankText(i, total) == CheapestLabel <==> i == 0)
                                   && (RankText(i, total) == DearestLabel <==> total > 2 && i == total - 1) {
      RankColourMatchesText(i, total);
    }
  }

  /** With two prices the dearer one is shown as '2位', not '最高値'. */
  lemma TwoPricesHaveNoDearest()
    ensures RankText(1, 2) == "2位" && RankColour(1, 2) == MiddleColour
  {
    assert Text.NatToString(2) == "2";
  }

  // ----- relative dates ------------------------------------------------------

  const MillisecondsPerDay: nat := 1000 * 60 * 60 * 24

  /** `Math.ceil(Math.abs(now - date) / day)` on millisecond timestamps. */
  function DiffDays(nowMs: int, dateMs: int): (d: nat)
    ensures var elapsed := if nowMs >= dateMs then nowMs - dateMs else dateMs - nowMs;
            && (d - 1) * MillisecondsPerDay < elapsed <= d * MillisecondsPerDay
            && (d == 0 <==> elapsed == 0)
  {
    var elapsed := if nowMs >= dateMs then nowMs - dateMs else dateMs - nowMs;
    (elapsed + MillisecondsPerDay - 1) / MillisecondsPerDay
  }

  /** A relative label, or the calendar date (`toLocaleDateString`, left to the runtime). */
  datatype DateLabel = Relative(text: string) | CalendarDate

  /** `formatDate` as written: 1 reads '今日', 2 reads '昨日', up to 7 reads
      `(d - 1)日前`, later dates the calendar date. */
  function FormatDateAsWritten(diffDays: nat): DateLabel
  {
    if diffDays == 1 then Relative("今日")
    else if diffDays == 2 then Relative("昨日")
    else if diffDays <= 7 then Relative(Text.IntToString(diffDays - 1) + "日前")
    else CalendarDate
  }

  /** A price stamped at the current millisecond is 0 days old and, as
      written, falls into the `<= 7` branch and reads '-1日前'. */
  lemma FormatDateOfNowAsWritten(t: int)
    ensures DiffDays(t, t) == 0
    ensures FormatDateAsWritten(DiffDays(t, t)) == Relative("-1日前")
  {
    assert Text.NatToString(1) == "1";
  }

  /** `formatDate` with 0 days counted as today. */
  function FormatDate(diffDays: nat): DateLabel
  {
    if diffDays <= 1 then Relative("今日")
    else if diffDays == 2 then Relative("昨日")
    else if diffDays <= 7 then Relative(Text.NatToString(diffDays - 1) + "日前")
    else CalendarDate
  }

  /** The buckets: within a day '今日', within two '昨日', within a week the
      whole days past (2 to 6) before '日前', later the calendar date; never a
      negative count; the same label as written for every positive count. */
  lemma FormatDateBuckets(nowMs: int, dateMs: int)
    ensures var d := DiffDays(nowMs, dateMs);
            var elapsed := if nowMs >= dateMs then nowMs - dateMs else dateMs - nowMs;
            && (FormatDate(d) == Relative("今日") <==> elapsed <= MillisecondsPerDay)
            && (FormatDate(d) == Relative("昨日") <==> MillisecondsPerDay < elapsed <= 2 * MillisecondsPerDay)
            && (FormatDate(d) == CalendarDate <==> elapsed > 7 * MillisecondsPerDay)
            && (2 * MillisecondsPerDay < elapsed <= 7 * MillisecondsPerDay ==>
                  FormatDate(d) == Relative(Text.NatToString(d - 1) + "日前") && 2 <= d - 1 <= 6)
            && (d >= 1 ==> FormatDate(d) == FormatDateAsWritten(d))
  {
    var d := DiffDays(nowMs, dateMs);
    var elapsed := if nowMs >= dateMs then nowMs - dateMs else dateMs - nowMs;
    if 3 <= d <= 7 {
      var t := Text.NatToString(d - 1) + "日前";
      assert |t| > 2;
    }
  }

  // ----- summary -------------------------------------------------------------------

  function PricesOf(entries: seq<Backend.ComparisonEntry>): (ps: seq<real>)
    ensures |ps| == |entries|
    ensures forall k :: 0 <= k < |entries| ==> ps[k] == entries[k].price
  {
    seq(|entries|, k requires 0 <= k < |entries| => entries[k].price)
  }

  /** `Math.max(...ps)` of a non-empty list. */
  function Highest(ps: seq<real>): (m: real)
    requires |ps| > 0
    ensures m in ps && forall k :: 0 <= k < |ps| ==> ps[k] <= m
  {
    if |ps| == 1 then ps[0]
    else
      var rest := Highest(ps[..|ps| - 1]);
      assert forall k :: 0 <= k < |ps| - 1 ==> ps[k] == ps[..|ps| - 1][k];
      if ps[|ps| - 1] > rest then ps[|ps| - 1] else rest
  }

  /** `Math.min(...ps)` of a non-empty list. */
  function Lowest(ps: seq<real>): (m: real)
    requires |ps| > 0
    ensures m in ps && forall k :: 0 <= k < |ps| ==> m <= ps[k]
  {
    if |ps| == 1 then ps[0]
    else
      var rest := Lowest(ps[..|ps| - 1]);
      assert forall k :: 0 <= k < |ps| - 1 ==> ps[k] == ps[..|ps| - 1][k];
      if ps[|ps| - 1] < rest then ps[|ps| - 1] else rest
  }

  /** `calculatePriceDifference` without the percentage: nothing for fewer
      than two prices, otherwise the spread between the dearest and the cheapest. */
  function PriceDifference(entries: seq<Backend.ComparisonEntry>): (d: Option<real>)
    ensures d.None? <==> |entries| < 2
    ensures d.Some? ==> d.value >= 0.0
    ensures d.Some? ==> exists i, j :: 0 <= i < |entries| && 0 <= j < |entries| && d.value == entries[i].price - entries[j].price
    ensures d.Some? ==> forall i, j :: 0 <= i < |entries| && 0 <= j < |entries| ==> entries[i].price - entries[j].price <= d.value
  {
    if |entries| < 2 then None
    else
      var ps := PricesOf(entries);
      var hi := Highest(ps);
      var lo := Lowest(ps);
      var i :| 0 <= i < |ps| && ps[i] == hi;
      var j :| 0 <= j < |ps| && ps[j] == lo;
      assert hi - lo == entries[i].price - entries[j].price;
      Some(hi - lo)
  }

  /** The summary block: the number of stores, the cheapest price and, for two or more, the spread. */
  datatype Summary = Summary(stores: nat, cheapest: real, difference: Option<real>)

  /** The summary shown for the loaded data: none unless there is at least
      one price; the cheapest value is the lowest price. */
  function SummaryOf(data: Option<Backend.Comparison>): (s: Option<Summary>)
    ensures s.Some? <==> data.Some? && |data.value.prices| > 0
    ensures s.Some? ==> && s.value.stores == |data.value.prices|
                        && s.value.difference == PriceDifference(data.value.prices)
                        && (exists k :: 0 <= k < |data.value.prices| && s.value.cheapest == data.value.prices[k].price)
                        && forall k :: 0 <= k < |data.value.prices| ==> s.value.cheapest <= data.value.prices[k].price
  {
    if data.None? || |data.value.prices| == 0 then None
    else
      var ps := PricesOf(data.value.prices);
      var lo := Lowest(ps);
      var k :| 0 <= k < |ps| && ps[k] == lo;
      Some(Summary(|ps|, lo, PriceDifference(data.value.prices)))
  }

  /** The header: the name in the answer when it is non-empty, otherwise the name passed to the screen. */
  function HeaderTitle(data: Option<Backend.Comparison>, productName: string): (t: string)
    ensures data.Some? && data.value.product != "" ==> t == data.value.product
    ensures data.None? || data.value.product == "" ==> t == productName
  {
    if data.Some? && data.value.product != "" then data.value.product else productName
  }

  /** The count in the section title: the number of prices, 0 before any data. */
  function ListedCount(data: Option<Backend.Comparison>): (n: nat)
    ensures data.None? ==> n == 0
    ensures data.Some? ==> n == |data.value.prices|
  {
    if data.None? then 0 else |data.value.prices|
  }

  // ----- loading ----------------------------------------------------------------

  /** How `priceAPI.compare` settles: the body, or a failure with its HTTP status if any. */
  datatype CompareOutcome = Answered(data: Backend.Comparison) | Failed(status: Option<int>)

  const ErrorTitle: string := "エラー"
  const LoadFailedMessage: string := "価格比較データの取得に失敗しました"

  class PriceComparisonScreenState {
    const product: Backend.Product
    var comparisonData: Option<Backend.Comparison>
    var loading: bool
    var refreshing: bool
    var alerts: seq<(string, string)>

    constructor(product: Backend.Product)
      ensures this.product == product
      ensures comparisonData.None? && loading && !refreshing && alerts == []
    {
      this.product := product;
      comparisonData := None;
      loading := true;
      refreshing := false;
      alerts := [];
    }

    /** `loadPriceComparison` once the request settles: the body replaces the
        data; a 404 shows the product with no prices; any other failure
        alerts and keeps the data; loading ends in every case. */
    method LoadPriceComparison(outcome: CompareOutcome)
      modifies this
      ensures !loading && refreshing == old(refreshing)
      ensures outcome.Answered? ==> comparisonData == Some(outcome.data) && alerts == old(alerts)
      ensures outcome == Failed(Some(404)) ==> comparisonData == Some(Backend.Comparison(product.name, [])) && alerts == old(alerts)
      ensures outcome.Failed? && outcome.status != Some(404) ==>
                comparisonData == old(comparisonData) && alerts == old(alerts) + [(ErrorTitle, LoadFailedMessage)]
    {
      loading := true;
      match outcome {
        case Answered(data) =>
          comparisonData := Some(data);
        case Failed(status) =>
          if status == Some(404) {
            comparisonData := Some(Backend.Comparison(product.name, []));
          } else {
            alerts := alerts + [(ErrorTitle, LoadFailedMessage)];
          }
      }
      loading := false;
    }

    /** `onRefresh`: a reload with the refresh indicator off again at the end. */
    method Refresh(outcome: CompareOutcome)
      modifies this
      ensures !loading && !refreshing
      ensures outcome.Answered? ==> comparisonData == Some(outcome.data) && alerts == old(alerts)
      ensures outcome == Failed(Some(404)) ==> comparisonData == Some(Backend.Comparison(product.name, [])) && alerts == old(alerts)
      ensures outcome.Failed? && outcome.status != Some(404) ==>
                comparisonData == old(comparisonData) && alerts == old(alerts) + [(ErrorTitle, LoadFailedMessage)]
    {
      refreshing := true;
      LoadPriceComparison(outcome);
      refreshing := false;
    }
  }

  /** A product without recorded prices shows its name, an empty list and no summary. */
  lemma NotFoundShowsEmptyList(product: Backend.Product)
    ensures SummaryOf(Some(Backend.Comparison(product.name, []))) == None
    ensures ListedCount(Some(Backend.Comparison(product.name, []))) == 0
    ensures HeaderTitle(Some(Backend.Comparison(product.name, [])), product.name) == product.name
  {
  }
}
