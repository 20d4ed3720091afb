/** The platform-neutral map component: it validates the region prop,
    normalises the raw marker list (drops markers without a numeric
    coordinate, fills in title, description and id) and hands one prop
    bundle to the web map or to the native map. */
module MapWrapper {
  import opened Common
  import opened JsValues
  import opened Text

  const DefaultTitle: string := "マーカー"

  datatype Platform = Web | Ios | Android

  /** The props of the component. `markers` is `None` when the prop is
      `undefined`, in which case the default `[]` applies. */
  datatype Props = Props(
    region: Value,
    markers: Option<seq<Record>>,
    onMarkerPress: Value,
    showsUserLocation: Value,
    onRegionChangeComplete: Value,
    style: Value,
    otherProps: Record)

  /** The bundle handed to the concrete map. */
  datatype CommonProps = CommonProps(
    region: Value,
    markers: seq<Record>,
    onMarkerPress: Value,
    showsUserLocation: Value,
    onRegionChangeComplete: Value,
    style: Value,
    otherProps: Record)

  datatype Rendered = Nothing | WebMapElement(props: CommonProps) | NativeMapElement(props: CommonProps)

  /** A region is accepted when it is truthy and its latitude and longitude are numbers. */
  predicate ValidRegion(region: Value)
  {
    Truthy(region) && IsNumber(Prop(region, "latitude")) && IsNumber(Prop(region, "longitude"))
  }

  /** A marker is kept when its `coordinate` is truthy with numeric latitude and longitude. */
  predicate HasValidCoordinate(m: Record)
  {
    var c := Get(m, "coordinate");
    Truthy(c) && IsNumber(Prop(c, "latitude")) && IsNumber(Prop(c, "longitude"))
  }

  /** The identifier given to the marker at input position `index` when it has none. */
  function SynthesizedId(index: nat): (id: string)
    ensures |id| > |"marker-"| && id[..|"marker-"|] == "marker-"
  {
    "marker-" + NatToString(index)
  }

  /** The marker at input position `index` after normalisation, or `None` when it is dropped. */
  function NormalizeAt(m: Record, index: nat): Option<Record>
  {
    if HasValidCoordinate(m) then
      Some(m + map[
        "title" := Or(Or(Get(m, "title"), Get(m, "name")), Str(DefaultTitle)),
        "description" := Or(Or(Get(m, "description"), Get(m, "address")), Str("")),
        "id" := Or(Get(m, "id"), Str(SynthesizedId(index)))])
    else None
  }

  /** `markers.map(normalise).filter(Boolean)`. */
  function NormalizeMarkers(markers: seq<Record>): seq<Record>
  {
    Compact(MapIndexed(markers, NormalizeAt))
  }

  /** The input positions of the markers that survive, in increasing order. */
  function KeptPositions(markers: seq<Record>): (ks: seq<nat>)
    ensures forall k :: 0 <= k < |ks| ==> ks[k] < |markers| && HasValidCoordinate(markers[ks[k]])
    ensures forall j, k :: 0 <= j < k < |ks| ==> ks[j] < ks[k]
    ensures forall i :: 0 <= i < |markers| && HasValidCoordinate(markers[i]) ==> i in ks
  {
    IndicesWhere(markers, HasValidCoordinate)
  }

  /** The component: nothing at all for an invalid region, otherwise the web
      map on the web and the native map elsewhere, both with the same bundle. */
  function Render(props: Props, platform: Platform): (r: Rendered)
    ensures r.Nothing? <==> !ValidRegion(props.region)
    ensures !r.Nothing? ==> (r.props.region == props.region
                         && r.props.markers == NormalizeMarkers(if props.markers.Some? then props.markers.value else [])
                         && r.props.onMarkerPress == props.onMarkerPress
                         && r.props.onRegionChangeComplete == props.onRegionChangeComplete
                         && r.props.style == props.style
                         && r.props.otherProps == props.otherProps)
    ensures !r.Nothing? ==> (r.props.showsUserLocation == if props.showsUserLocation.Undefined? then Bool(false) else props.showsUserLocation)
    ensures r.WebMapElement? <==> ValidRegion(props.region) && platform == Web
    ensures r.NativeMapElement? <==> ValidRegion(props.region) && platform != Web
  {
    if !ValidRegion(props.region) then Nothing
    else
      var bundle := CommonProps(
        props.region,
        NormalizeMarkers(if props.markers.Some? then props.markers.value else []),
        props.onMarkerPress,
        if props.showsUserLocation.Undefined? then Bool(false) else props.showsUserLocation,
        props.onRegionChangeComplete,
        props.style,
        props.otherProps);
      if platform == Web then WebMapElement(bundle) else NativeMapElement(bundle)
  }

  // ----- what normalisation keeps ------------------------------------------

  /** The output holds exactly the markers with a valid coordinate, in input
      order: output position `k` comes from input position `KeptPositions[k]`. */
  lemma NormalizeMarkersKeeps(markers: seq<Record>)
    ensures |NormalizeMarkers(markers)| == |KeptPositions(markers)| <= |markers|
    ensures forall k :: 0 <= k < |KeptPositions(markers)| ==>
              NormalizeMarkers(markers)[k] == NormalizeAt(markers[KeptPositions(markers)[k]], KeptPositions(markers)[k]).value
  {
    CompactMapIndexed(markers, NormalizeAt, HasValidCoordinate);
  }

  /** The fields of one normalised marker: the first truthy of title, name and
      'マーカー'; the first truthy of description, address and ''; the raw id
      when truthy, otherwise the id made from the ORIGINAL position; every other
      field is carried over unchanged, the coordinate included. */
  lemma NormalizeAtFields(m: Record, index: nat)
    requires HasValidCoordinate(m)
    ensures NormalizeAt(m, index).Some?
    ensures var n := NormalizeAt(m, index).value;
      && (Truthy(Get(m, "title")) ==> n["title"] == m["title"])
      && (!Truthy(Get(m, "title")) && Truthy(Get(m, "name")) ==> n["title"] == m["name"])
      && (!Truthy(Get(m, "title")) && !Truthy(Get(m, "name")) ==> n["title"] == Str(DefaultTitle))
      && Truthy(n["title"])
      && (Truthy(Get(m, "description")) ==> n["description"] == m["description"])
      && (!Truthy(Get(m, "description")) && Truthy(Get(m, "address")) ==> n["description"] == m["address"])
      && (!Truthy(Get(m, "description")) && !Truthy(Get(m, "address")) ==> n["description"] == Str(""))
      && (Truthy(Get(m, "id")) ==> n["id"] == m["id"])
      && (!Truthy(Get(m, "id")) ==> n["id"] == Str(SynthesizedId(index)))
      && Truthy(n["id"])
      && (forall key :: key != "title" && key != "description" && key != "id" ==>
            (key in n <==> key in m) && (key in m ==> n[key] == m[key]))
      && HasValidCoordinate(n)
  {
  }

  /** Markers whose coordinate is missing or not numeric never reach a map;
      an input made only of such markers normalises to the empty list. */
  lemma {:induction false} InvalidMarkersDropped(markers: seq<Record>)
    requires forall i :: 0 <= i < |markers| ==> !HasValidCoordinate(markers[i])
    ensures NormalizeMarkers(markers) == []
  {
    NormalizeMarkersKeeps(markers);
    IndicesWhereNone(markers, HasValidCoordinate);
  }

  /** Two synthesized ids of different input positions differ. */
  lemma SynthesizedIdsDistinct(i: nat, j: nat)
    requires i != j
    ensures SynthesizedId(i) != SynthesizedId(j)
  {
    PrefixedNatInjective("marker-", i, j);
  }

  /** Two output markers that both had no truthy id of their own carry different ids. */
  lemma NormalizedSynthesizedIdsDistinct(markers: seq<Record>, j: nat, k: nat)
    requires j < k < |KeptPositions(markers)|
    requires !Truthy(Get(markers[KeptPositions(markers)[j]], "id"))
    requires !Truthy(Get(markers[KeptPositions(markers)[k]], "id"))
    ensures k < |NormalizeMarkers(markers)|
    ensures Get(NormalizeMarkers(markers)[j], "id") != Get(NormalizeMarkers(markers)[k], "id")
  {
    NormalizeMarkersKeeps(markers);
    var ks := KeptPositions(markers);
    NormalizeAtFields(markers[ks[j]], ks[j]);
    NormalizeAtFields(markers[ks[k]], ks[k]);
    SynthesizedIdsDistinct(ks[j], ks[k]);
  }

  /** The raw ids are passed through as they are: two input markers with the
      same truthy id give two output markers with that same id. */
  lemma DuplicateRawIdsSurvive()
    ensures var c := Obj(map["latitude" := Num(1.0), "longitude" := Num(2.0)]);
            var m := map["coordinate" := c, "id" := Str("a")];
            var out := NormalizeMarkers([m, m]);
            |out| == 2 && Get(out[0], "id") == Get(out[1], "id") == Str("a")
  {
    var c := Obj(map["latitude" := Num(1.0), "longitude" := Num(2.0)]);
    var m := map["coordinate" := c, "id" := Str("a")];
    NormalizeMarkersKeeps([m, m]);
    var ks := KeptPositions([m, m]);
    assert 0 in ks && 1 in ks;
    NormalizeAtFields(m, 0);
    NormalizeAtFields(m, 1);
  }

  /** A single store with a name and a coordinate becomes a marker titled by
      the name, with an empty description and the id made from position 0. */
  lemma SingleStoreExample()
    ensures var c := Obj(map["latitude" := Num(35.6812), "longitude" := Num(139.7671)]);
            var m := map["coordinate" := c, "name" := Str("Store A")];
            var out := NormalizeMarkers([m]);
            |out| == 1
            && Get(out[0], "title") == Str("Store A")
            && Get(out[0], "description") == Str("")
            && Get(out[0], "id") == Str("marker-0")
            && Get(out[0], "coordinate") == c
  {
    var c := Obj(map["latitude" := Num(35.6812), "longitude" := Num(139.7671)]);
    var m := map["coordinate" := c, "name" := Str("Store A")];
    NormalizeMarkersKeeps([m]);
    assert 0 in KeptPositions([m]);
    NormalizeAtFields(m, 0);
    assert NatToString(0) == "0";
  }

  /** A region without numeric latitude renders nothing, whatever the markers. */
  lemma MissingRegionRendersNothing(props: Props, platform: Platform)
    requires IsNullish(props.region) || !IsNumber(Prop(props.region, "latitude"))
    ensures Render(props, platform) == Nothing
  {
  }
}
