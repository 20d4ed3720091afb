/** The map screen: it asks for the device position, loads the nearby
    supermarkets around it, shapes them into map markers, and offers
    "my location" and "search this area" buttons. */
module MapScreen {
  import opened Common
  import opened JsValues
  import Text
  import MapWrapper

  const DefaultRadiusKm: real := 20.0
  const MyLocationRadiusKm: real := 10.0
  const MaxAreaRadiusKm: real := 50.0
  const DefaultLatitudeDelta: real := 0.0922
  const DefaultLongitudeDelta: real := 0.0421

  /** The region shown before any position is known (near Ichikawa station). */
  function InitialRegion(): (r: Value)
    ensures Prop(r, "latitude") == Num(35.7227) && Prop(r, "longitude") == Num(139.9259)
    ensures Prop(r, "latitudeDelta") == Num(DefaultLatitudeDelta) && Prop(r, "longitudeDelta") == Num(DefaultLongitudeDelta)
  {
    Obj(map["latitude" := Num(35.7227), "longitude" := Num(139.9259),
            "latitudeDelta" := Num(DefaultLatitudeDelta), "longitudeDelta" := Num(DefaultLongitudeDelta)])
  }

  /** The device position, as `{latitude, longitude}`. */
  datatype Position = Position(latitude: Value, longitude: Value)

  /** `{...position, latitudeDelta: 0.0922, longitudeDelta: 0.0421}`. */
  function RegionAround(p: Position): (r: Value)
    ensures Prop(r, "latitude") == p.latitude && Prop(r, "longitude") == p.longitude
    ensures Prop(r, "latitudeDelta") == Num(DefaultLatitudeDelta) && Prop(r, "longitudeDelta") == Num(DefaultLongitudeDelta)
  {
    Obj(map["latitude" := p.latitude, "longitude" := p.longitude,
            "latitudeDelta" := Num(DefaultLatitudeDelta), "longitudeDelta" := Num(DefaultLongitudeDelta)])
  }

  /** The marker made for the supermarket at position `index`: the computed
      coordinate, name, address, distance and id, then every field of the
      record itself, which wins over the computed ones. */
  function ShapeMarker(s: Record, index: nat): (m: Record)
    ensures forall key :: key in s ==> key in m && m[key] == s[key]
    ensures "id" !in s ==> Get(m, "id") == Or(Get(s, "id"), Str("supermarket-" + Text.NatToString(index)))
    ensures "coordinate" !in s ==>
              Get(m, "coordinate") == Obj(map["latitude" := Get(s, "latitude"), "longitude" := Get(s, "longitude")])
    ensures forall key :: key in m ==> key in s || key in {"coordinate", "name", "address", "distance_km", "id"}
  {
    map["coordinate" := Obj(map["latitude" := Get(s, "latitude"), "longitude" := Get(s, "longitude")]),
        "name" := Get(s, "name"),
        "address" := Get(s, "address"),
        "distance_km" := Get(s, "distance_km"),
        "id" := Or(Get(s, "id"), Str("supermarket-" + Text.NatToString(index)))] + s
  }

  /** One marker per supermarket, in the same order. */
  function ShapeMarkers(supermarkets: seq<Record>): (ms: seq<Record>)
    ensures |ms| == |supermarkets|
    ensures forall i :: 0 <= i < |ms| ==> ms[i] == ShapeMarker(supermarkets[i], i)
  {
    MapIndexed(supermarkets, ShapeMarker)
  }

  /** A record without an `id` key gets the id made from its position; a
      record with one keeps it, even a falsy one. */
  lemma ShapedIds(supermarkets: seq<Record>, i: nat)
    requires i < |supermarkets|
    ensures "id" !in supermarkets[i] ==> Get(ShapeMarkers(supermarkets)[i], "id") == Str("supermarket-" + Text.NatToString(i))
    ensures "id" in supermarkets[i] ==> Get(ShapeMarkers(supermarkets)[i], "id") == supermarkets[i]["id"]
  {
  }

  /** A supermarket without its own `coordinate` field reaches the map
      exactly when its latitude and longitude are numbers. */
  lemma ShapedMarkerKept(s: Record, index: nat)
    requires "coordinate" !in s
    ensures MapWrapper.HasValidCoordinate(ShapeMarker(s, index)) <==>
              IsNumber(Get(s, "latitude")) && IsNumber(Get(s, "longitude"))
  {
    var c := Obj(map["latitude" := Get(s, "latitude"), "longitude" := Get(s, "longitude")]);
    assert Get(ShapeMarker(s, index), "coordinate") == c;
    assert Prop(c, "latitude") == Get(s, "latitude");
    assert Prop(c, "longitude") == Get(s, "longitude");
  }

  /** `Math.min(radius, 50)`. */
  function CappedRadius(radius: real): (r: real)
    ensures r <= MaxAreaRadiusKm
    ensures r == radius || r == MaxAreaRadiusKm
    ensures radius <= MaxAreaRadiusKm ==> r == radius
  {
    if radius <= MaxAreaRadiusKm then radius else MaxAreaRadiusKm
  }

  /** The centre of a nearby search: each given coordinate when truthy,
      otherwise the device's; with no device position that reading throws (`None`). */
  function SearchCentre(centerLat: Value, centerLng: Value, location: Option<Position>): (c: Option<(Value, Value)>)
    ensures c.None? <==> location.None? && (!Truthy(centerLat) || !Truthy(centerLng))
    ensures c.Some? ==> c.value.0 == (if Truthy(centerLat) then centerLat else location.value.latitude)
    ensures c.Some? ==> c.value.1 == (if Truthy(centerLng) then centerLng else location.value.longitude)
  {
    if !Truthy(centerLat) && location.None? then None
    else
      var lat := if Truthy(centerLat) then centerLat else location.value.latitude;
      if !Truthy(centerLng) && location.None? then None
      else Some((lat, if Truthy(centerLng) then centerLng else location.value.longitude))
  }

  /** A centre coordinate of 0 is falsy and falls back to the device position. */
  lemma ZeroCentreFallsBack(centerLng: Value, p: Position)
    ensures var c := SearchCentre(Num(0.0), centerLng, Some(p));
            c.Some? && c.value.0 == p.latitude
  {
  }

  datatype NearbyRequest = NearbyRequest(latitude: Value, longitude: Value, radius: real)

  /** The outcome of a nearby request: an error, or a response whose `data` may be missing. */
  datatype FetchOutcome = FetchFailed | Fetched(data: Option<seq<Record>>)

  /** The outcome of asking for the device position. */
  datatype PositionOutcome = PermissionDenied | PositionFailed | PositionFound(p: Position)

  const PermissionAlert: string := "位置情報の許可が必要です"
  const ErrorAlert: string := "エラー"

  /** `styles.map`. */
  const MapStyle: Value := Obj(map["flex" := Num(1.0)])

  class MapScreenState {
    var location: Option<Position>
    var supermarkets: seq<Record>
    var loading: bool
    var region: Value
    var requests: seq<NearbyRequest>     // nearby requests in flight
    var positionRequests: nat            // position requests in flight
    var alerts: seq<string>              // titles of the alerts shown

    constructor()
      ensures location.None? && supermarkets == [] && loading && region == InitialRegion()
      ensures requests == [] && positionRequests == 1 && alerts == []
    {
      location := None;
      supermarkets := [];
      loading := true;
      region := InitialRegion();
      requests := [];
      positionRequests := 1;   // the mount effect asks for the position
      alerts := [];
    }

    /** The props the screen hands to the map; the two handlers are the
        screen's `onMarkerPress` and `onRegionChangeComplete`. */
    function MapProps(): (p: MapWrapper.Props)
      reads this
      ensures p.region == region && p.markers == Some(ShapeMarkers(supermarkets))
      ensures p.showsUserLocation == Bool(location.Some?)
      ensures p.style == MapStyle && p.otherProps == map[]
    {
      MapWrapper.Props(region, Some(ShapeMarkers(supermarkets)), Fn(0), Bool(location.Some?), Fn(1), MapStyle, map[])
    }

    /** The full-screen spinner shows while loading before any position is known. */
    predicate ShowsSpinnerOnly()
      reads this
    {
      loading && location.None?
    }

    /** `loadNearbySupermarkets`: set `loading` and send the request for the
        centre; a centre that cannot be read empties the list at once. */
    method LoadNearby(centerLat: Value, centerLng: Value, radius: real)
      modifies this
      ensures var c := SearchCentre(centerLat, centerLng, old(location));
              && (c.Some? ==> loading && requests == old(requests) + [NearbyRequest(c.value.0, c.value.1, radius)]
                              && supermarkets == old(supermarkets) && alerts == old(alerts))
              && (c.None? ==> !loading && requests == old(requests) && supermarkets == []
                              && alerts == old(alerts) + [ErrorAlert])
      ensures location == old(location) && region == old(region) && positionRequests == old(positionRequests)
    {
      loading := true;
      var c := SearchCentre(centerLat, centerLng, location);
      if c.None? {
        alerts := alerts + [ErrorAlert];
        supermarkets := [];
        loading := false;
      } else {
        requests := requests + [NearbyRequest(c.value.0, c.value.1, radius)];
      }
    }

    /** The request at position `k` settles: the list becomes the data, or
        empty when it is missing or the request failed; loading ends. */
    method NearbySettled(k: nat, outcome: FetchOutcome)
      requires k < |requests|
      modifies this
      ensures requests == old(requests)[..k] + old(requests)[k + 1..]
      ensures !loading
      ensures outcome.Fetched? && outcome.data.Some? ==> supermarkets == outcome.data.value
      ensures outcome.Fetched? && outcome.data.None? ==> supermarkets == []
      ensures outcome.FetchFailed? ==> supermarkets == [] && alerts == old(alerts) + [ErrorAlert]
      ensures outcome.Fetched? ==> alerts == old(alerts)
      ensures location == old(location) && region == old(region) && positionRequests == old(positionRequests)
    {
      requests := requests[..k] + requests[k + 1..];
      match outcome {
        case FetchFailed =>
          alerts := alerts + [ErrorAlert];
          supermarkets := [];
        case Fetched(data) =>
          supermarkets := if data.Some? then data.value else [];
      }
      loading := false;
    }

    /** A position request settles. A denial or a failure shows an alert and
        ends loading; a position is stored, the region recentred on it, and
        the location effect loads the stores around it with the default radius. */
    method PositionSettled(outcome: PositionOutcome)
      requires positionRequests > 0
      modifies this
      ensures positionRequests == old(positionRequests) - 1
      ensures outcome.PermissionDenied? ==> && location == old(location) && !loading
                                            && alerts == old(alerts) + [PermissionAlert]
      ensures outcome.PositionFailed? ==> && location == old(location) && !loading
                                          && alerts == old(alerts) + [ErrorAlert]
      ensures outcome.PositionFound? ==> && location == Some(outcome.p) && region == RegionAround(outcome.p)
                                         && loading && alerts == old(alerts)
                                         && requests == old(requests) + [NearbyRequest(outcome.p.latitude, outcome.p.longitude, DefaultRadiusKm)]
      ensures !outcome.PositionFound? ==> region == old(region) && requests == old(requests)
      ensures supermarkets == old(supermarkets)
    {
      positionRequests := positionRequests - 1;
      match outcome {
        case PermissionDenied =>
          alerts := alerts + [PermissionAlert];
          loading := false;
        case PositionFailed =>
          alerts := alerts + [ErrorAlert];
          loading := false;
        case PositionFound(p) =>
          location := Some(p);
          region := RegionAround(p);
          LoadNearby(Undefined, Undefined, DefaultRadiusKm);
      }
    }

    /** The map reported a new region. */
    method RegionChanged(newRegion: Value)
      modifies this
      ensures region == newRegion
      ensures location == old(location) && supermarkets == old(supermarkets) && loading == old(loading)
      ensures requests == old(requests) && alerts == old(alerts) && positionRequests == old(positionRequests)
    {
      region := newRegion;
    }

    /** The my-location button (disabled while loading): with a position,
        recentre on it and search within 10 km; without one, ask again. */
    method MyLocationPressed()
      modifies this
      ensures old(loading) ==> unchanged(this)
      ensures !old(loading) && old(location).Some? ==>
                && region == RegionAround(old(location).value) && loading
                && requests == old(requests) + [NearbyRequest(old(location).value.latitude, old(location).value.longitude, MyLocationRadiusKm)]
                && positionRequests == old(positionRequests)
      ensures !old(loading) && old(location).None? ==>
                && positionRequests == old(positionRequests) + 1 && requests == old(requests) && region == old(region)
                && loading == old(loading)
      ensures location == old(location) && supermarkets == old(supermarkets) && alerts == old(alerts)
    {
      if loading {
        return;
      }
      if location.Some? {
        var p := location.value;
        region := RegionAround(p);
        LoadNearby(p.latitude, p.longitude, MyLocationRadiusKm);
        // the position's own coordinates are the centre, so it is always readable
        assert SearchCentre(p.latitude, p.longitude, Some(p)) == Some((p.latitude, p.longitude));
      } else {
        positionRequests := positionRequests + 1;
      }
    }

    /** The search-this-area button (disabled while loading): search around
        the region's centre with the radius estimated from its spans, capped
        at 50 km. */
    method SearchThisAreaPressed(estimatedRadius: real)
      modifies this
      ensures old(loading) ==> unchanged(this)
      ensures !old(loading) ==>
                var c := SearchCentre(Prop(old(region), "latitude"), Prop(old(region), "longitude"), old(location));
                && (c.Some? ==> loading && requests == old(requests) + [NearbyRequest(c.value.0, c.value.1, CappedRadius(estimatedRadius))]
                                && supermarkets == old(supermarkets) && alerts == old(alerts))
                && (c.None? ==> !loading && requests == old(requests) && supermarkets == []
                                && alerts == old(alerts) + [ErrorAlert])
      ensures region == old(region) && location == old(location) && positionRequests == old(positionRequests)
    {
      if loading {
        return;
      }
      LoadNearby(Prop(region, "latitude"), Prop(region, "longitude"), CappedRadius(estimatedRadius));
    }
  }
}
