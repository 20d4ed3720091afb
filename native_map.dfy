/** The map on iOS and Android (react-native-maps): nothing on the web or
    when the native module failed to load; an initial region with default
    spans; region changes kept in local state and forwarded; a
    my-location button that resets to the prop centre; one native marker
    per input marker with a coordinate. */
module NativeMap {
  import opened Common
  import opened JsValues
  import Text

  const DefaultLatitudeDelta: real := 0.0922
  const DefaultLongitudeDelta: real := 0.0421
  const MarkerFallbackTitle: string := "スーパーマーケット"
  /** The duration of the animation to the user's region, in milliseconds. */
  const MyLocationAnimationMs: nat := 1000

  datatype MapRegion = MapRegion(latitude: Value, longitude: Value, latitudeDelta: Value, longitudeDelta: Value)

  /** The starting `mapRegion`: the prop's centre and spans, a falsy span
      replaced by its default; `None` for a nullish region, whose
      `region.latitude` throws during render. */
  function InitialRegion(region: Value): (r: Option<MapRegion>)
    ensures r.None? <==> IsNullish(region)
    ensures r.Some? ==> && r.value.latitude == Prop(region, "latitude")
                        && r.value.longitude == Prop(region, "longitude")
    ensures r.Some? && Truthy(Prop(region, "latitudeDelta")) ==> r.value.latitudeDelta == Prop(region, "latitudeDelta")
    ensures r.Some? && !Truthy(Prop(region, "latitudeDelta")) ==> r.value.latitudeDelta == Num(DefaultLatitudeDelta)
    ensures r.Some? && Truthy(Prop(region, "longitudeDelta")) ==> r.value.longitudeDelta == Prop(region, "longitudeDelta")
    ensures r.Some? && !Truthy(Prop(region, "longitudeDelta")) ==> r.value.longitudeDelta == Num(DefaultLongitudeDelta)
  {
    if IsNullish(region) then None
    else Some(MapRegion(Prop(region, "latitude"), Prop(region, "longitude"),
                        Or(Prop(region, "latitudeDelta"), Num(DefaultLatitudeDelta)),
                        Or(Prop(region, "longitudeDelta"), Num(DefaultLongitudeDelta))))
  }

  /** The region the my-location button moves to: the prop centre with the default spans. */
  function MyLocationRegion(region: Value): (r: Option<MapRegion>)
    ensures r.None? <==> IsNullish(region)
    ensures r.Some? ==> && r.value.latitude == Prop(region, "latitude") && r.value.longitude == Prop(region, "longitude")
                        && r.value.latitudeDelta == Num(DefaultLatitudeDelta)
                        && r.value.longitudeDelta == Num(DefaultLongitudeDelta)
  {
    if IsNullish(region) then None
    else Some(MapRegion(Prop(region, "latitude"), Prop(region, "longitude"), Num(DefaultLatitudeDelta), Num(DefaultLongitudeDelta)))
  }

  /** One `<Marker>`: its key, position, title, description and the raw marker its press forwards. */
  datatype NativeMarker = NativeMarker(key: Value, latitude: Value, longitude: Value, title: Value, description: Value, pressed: Record)

  predicate HasCoordinate(m: Record)
  {
    Truthy(Get(m, "coordinate"))
  }

  /** The marker rendered for input marker `index`, or `None` (a `null` child). */
  function MarkerAt(m: Record, index: nat): Option<NativeMarker>
  {
    if !HasCoordinate(m) then None
    else
      var c := Get(m, "coordinate");
      Some(NativeMarker(
        Or(Get(m, "id"), Str("marker-" + Text.NatToString(index))),
        Prop(c, "latitude"), Prop(c, "longitude"),
        Or(Or(Get(m, "title"), Get(m, "name")), Str(MarkerFallbackTitle)),
        Or(Or(Get(m, "description"), Get(m, "address")), Str("")),
        m))
  }

  /** The markers rendered inside the map, in input order. */
  function NativeMarkers(markers: seq<Record>): seq<NativeMarker>
  {
    Compact(MapIndexed(markers, MarkerAt))
  }

  /** One native marker per input marker with a truthy coordinate, in input
      order; the `k`-th comes from input position `i`: its key is the raw id
      or `marker-i`, its title the first truthy of title and name or
      'スーパーマーケット', its description the first truthy of description
      and address or '', and it forwards the raw marker. */
  lemma NativeMarkersFields(markers: seq<Record>)
    ensures |NativeMarkers(markers)| == |IndicesWhere(markers, HasCoordinate)| <= |markers|
    ensures forall k :: 0 <= k < |NativeMarkers(markers)| ==>
              var i := IndicesWhere(markers, HasCoordinate)[k];
              var m := markers[i];
              var n := NativeMarkers(markers)[k];
              && n.key == Or(Get(m, "id"), Str("marker-" + Text.NatToString(i)))
              && n.latitude == Prop(Get(m, "coordinate"), "latitude")
              && n.longitude == Prop(Get(m, "coordinate"), "longitude")
              && Truthy(n.title)
              && (Truthy(Get(m, "title")) ==> n.title == Get(m, "title"))
              && (!Truthy(Get(m, "title")) && Truthy(Get(m, "name")) ==> n.title == Get(m, "name"))
              && (!Truthy(Get(m, "title")) && !Truthy(Get(m, "name")) ==> n.title == Str(MarkerFallbackTitle))
              && (Truthy(Get(m, "description")) ==> n.description == Get(m, "description"))
              && (!Truthy(Get(m, "description")) && Truthy(Get(m, "address")) ==> n.description == Get(m, "address"))
              && (!Truthy(Get(m, "description")) && !Truthy(Get(m, "address")) ==> n.description == Str(""))
              && n.pressed == m
  {
    CompactMapIndexed(markers, MarkerAt, HasCoordinate);
  }

  /** A list in which no marker has a coordinate renders no native marker. */
  lemma {:induction false} NoCoordinateNoMarker(markers: seq<Record>)
    requires forall i :: 0 <= i < |markers| ==> !HasCoordinate(markers[i])
    ensures NativeMarkers(markers) == []
  {
    CompactMapIndexed(markers, MarkerAt, HasCoordinate);
    IndicesWhereNone(markers, HasCoordinate);
  }

  /** What the component renders: nothing on the web or without the native
      module (`None`), otherwise the map with its initial region and the
      markers; a nullish region throws while rendering (`Some(None)`). */
  function Render(onWeb: bool, mapViewLoaded: bool, region: Value, markers: seq<Record>)
    : (r: Option<Option<(MapRegion, seq<NativeMarker>)>>)
    ensures r.None? <==> onWeb || !mapViewLoaded
    ensures r.Some? ==> (r.value.None? <==> IsNullish(region))
    ensures r.Some? && r.value.Some? ==>
              r.value.value.0 == InitialRegion(region).value && r.value.value.1 == NativeMarkers(markers)
  {
    if onWeb || !mapViewLoaded then None
    else if IsNullish(region) then Some(None)
    else Some(Some((InitialRegion(region).value, NativeMarkers(markers))))
  }

  /** `handleMarkerPress`: the callback and the raw marker, when a callback is set. */
  function PressMarker(n: NativeMarker, onMarkerPress: Value): (call: Option<(Value, Record)>)
    ensures call.Some? <==> Truthy(onMarkerPress)
    ensures call.Some? ==> call.value == (onMarkerPress, n.pressed)
  {
    if Truthy(onMarkerPress) then Some((onMarkerPress, n.pressed)) else None
  }

  /** The mounted component's state: `mapRegion` and the animations asked of the map. */
  class NativeMapComponent {
    var mapRegion: MapRegion
    var hasMapRef: bool
    var animations: seq<(MapRegion, nat)>

    constructor(initial: MapRegion, hasMapRef: bool)
      ensures mapRegion == initial && this.hasMapRef == hasMapRef && animations == []
    {
      mapRegion := initial;
      this.hasMapRef := hasMapRef;
      animations := [];
    }

    /** `handleRegionChange`: keep the region and hand the same region to the callback, if any. */
    method HandleRegionChange(newRegion: MapRegion, onRegionChangeComplete: Value) returns (forwarded: Option<(Value, MapRegion)>)
      modifies this
      ensures mapRegion == newRegion && animations == old(animations) && hasMapRef == old(hasMapRef)
      ensures forwarded.Some? <==> Truthy(onRegionChangeComplete)
      ensures forwarded.Some? ==> forwarded.value == (onRegionChangeComplete, newRegion)
    {
      mapRegion := newRegion;
      forwarded := if Truthy(onRegionChangeComplete) then Some((onRegionChangeComplete, newRegion)) else None;
    }

    /** `handleMyLocationPress`: reset to the prop centre with the default
        spans and animate there over one second when the map ref is set.
        A nullish region throws before anything changes. */
    method HandleMyLocationPress(region: Value) returns (ok: bool)
      modifies this
      ensures ok <==> !IsNullish(region)
      ensures !ok ==> unchanged(this)
      ensures ok ==> mapRegion == MyLocationRegion(region).value
      ensures ok && hasMapRef ==> animations == old(animations) + [(mapRegion, MyLocationAnimationMs)]
      ensures ok && !hasMapRef ==> animations == old(animations)
      ensures hasMapRef == old(hasMapRef)
    {
      var target := MyLocationRegion(region);
      if target.None? {
        ok := false;
        return;
      }
      ok := true;
      mapRegion := target.value;
      if hasMapRef {
        animations := animations + [(mapRegion, MyLocationAnimationMs)];
      }
    }
  }
}
