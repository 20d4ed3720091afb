/** The part of a map engine (Leaflet, Google Maps) that the adapters touch,
    seen from outside: a map instance holds layers under handles, has a view
    (centre and zoom) and raises events. Handles are handed out from a
    counter, so a newly added layer never collides with an existing one. */
module MapEngine {
  import opened Common
  import opened JsValues

  /** The zoom level every adapter uses when it centres the map. */
  const DefaultZoom: nat := 13

  /** What the button of a marker popup does when pressed. */
  datatype ButtonAction =
    | CallHandleMarkerClick(index: nat)                 // `window.handleMarkerClick(index)`
    | DispatchMarkerClick(index: nat, detail: Record)   // a `marker-click-<index>` window event
    | DispatchSupermarketClick(detail: Record)          // a `supermarket-click` window event
    | InertScript(script: string)                       // an onclick script that does not parse: nothing happens

  /** The information shown in a marker popup. */
  datatype Popup = Popup(title: Value, description: Option<Value>, distance: Option<Value>, button: Option<ButtonAction>)

  datatype Layer =
    | TileLayer
    | UserLocationPin(lat: Value, lng: Value)
    | StorePin(lat: Value, lng: Value, popup: Popup)

  datatype View = View(lat: Value, lng: Value, zoom: nat)

  /** The region handed to `onRegionChangeComplete` after the map stopped moving. */
  datatype RegionReport = RegionReport(latitude: real, longitude: real, latitudeDelta: real, longitudeDelta: real)

  /** `setView([region.latitude, region.longitude], 13)`. */
  function CentreOn(region: Value): (v: View)
    ensures v.zoom == DefaultZoom
  {
    View(Prop(region, "latitude"), Prop(region, "longitude"), DefaultZoom)
  }

  /** The region reported for a view with centre (`lat`, `lng`) and the given
      bounds: the centre, with the deltas spanned by the bounds. */
  function ReportRegion(lat: real, lng: real, north: real, south: real, east: real, west: real): (r: RegionReport)
    ensures r.latitude == lat && r.longitude == lng
    ensures r.latitudeDelta + south == north && r.longitudeDelta + west == east
    ensures south <= north ==> r.latitudeDelta >= 0.0
    ensures west <= east ==> r.longitudeDelta >= 0.0
  {
    RegionReport(lat, lng, north - south, east - west)
  }

  /** The layers left after `removeLayer` on each of `handles` that is on the map. */
  method RemoveHandles(layers: map<nat, Layer>, handles: seq<nat>) returns (ls: map<nat, Layer>)
    ensures forall h :: h in ls <==> h in layers && h !in handles
    ensures forall h :: h in ls ==> ls[h] == layers[h]
  {
    ls := layers;
    var i := 0;
    while i < |handles|
      invariant 0 <= i <= |handles|
      invariant forall h :: h in ls <==> h in layers && h !in handles[..i]
      invariant forall h :: h in ls ==> ls[h] == layers[h]
    {
      if handles[i] in ls {
        ls := ls - {handles[i]};
      }
      assert handles[..i + 1] == handles[..i] + [handles[i]];
      i := i + 1;
    }
    assert handles[..|handles|] == handles;
  }

  /** Add `pins` to the map one after the other under fresh handles from
      `next` on, collecting the handles in order (the `push` loop). */
  method AddPins(layers: map<nat, Layer>, next: nat, pins: seq<Layer>)
    returns (ls: map<nat, Layer>, refs: seq<nat>, nh: nat)
    requires forall h :: h in layers ==> h < next
    ensures |refs| == |pins| && nh == next + |pins|
    ensures forall k :: 0 <= k < |refs| ==> refs[k] == next + k
    ensures forall k :: 0 <= k < |refs| ==> refs[k] in ls && ls[refs[k]] == pins[k]
    ensures forall h :: h in layers ==> h in ls && ls[h] == layers[h]
    ensures forall h :: h in ls ==> h in layers || h in refs
    ensures forall h :: h in ls ==> h < nh
  {
    ls := layers;
    refs := [];
    nh := next;
    var j := 0;
    while j < |pins|
      invariant 0 <= j <= |pins|
      invariant |refs| == j && nh == next + j
      invariant forall k :: 0 <= k < j ==> refs[k] == next + k
      invariant forall k :: 0 <= k < j ==> refs[k] in ls && ls[refs[k]] == pins[k]
      invariant forall h :: h in layers ==> h in ls && ls[h] == layers[h]
      invariant forall h :: h in ls ==> h in layers || h in refs
      invariant forall h :: h in ls ==> h < nh
    {
      ls := ls[nh := pins[j]];
      refs := refs + [nh];
      nh := nh + 1;
      j := j + 1;
    }
  }

  /** One refresh of the layers: remove the `held` pins, add the user pin if
      one is given, then add `pins` in order; all new handles are fresh. */
  method RefreshLayers(layers: map<nat, Layer>, held: seq<nat>, next: nat, userPin: Option<Layer>, pins: seq<Layer>)
    returns (ls: map<nat, Layer>, refs: seq<nat>, userHandle: Option<nat>, nh: nat)
    requires HandlesBelow(layers, held, next)
    ensures next <= nh
    ensures HandlesBelow(ls, refs, nh)
    ensures PinsRebuilt(layers, held, next, ls, refs, pins, userHandle)
    ensures userHandle.Some? <==> userPin.Some?
    ensures userHandle.Some? ==> && userHandle.value in ls && ls[userHandle.value] == userPin.value
                                 && next <= userHandle.value && userHandle.value !in refs
  {
    ls := RemoveHandles(layers, held);
    nh := next;
    userHandle := None;
    if userPin.Some? {
      ls := ls[nh := userPin.value];
      userHandle := Some(nh);
      nh := nh + 1;
    }
    ghost var base := ls;
    ghost var firstPin := nh;
    ls, refs, nh := AddPins(ls, nh, pins);
    forall h | h in held
      ensures h !in ls
    {
      assert h !in base && h < firstPin;
    }
  }

  /** `after`/`refs` is the outcome of one refresh of `before`, whose pins
      `held` were in the ref and whose next free handle was `next`: the held
      pins are gone, everything else is untouched, and the ref lists freshly
      added layers holding `pins` in order. The only other new layer is the
      user pin `userPin`, if one was added. */
  ghost predicate PinsRebuilt(before: map<nat, Layer>, held: seq<nat>, next: nat,
                              after: map<nat, Layer>, refs: seq<nat>, pins: seq<Layer>, userPin: Option<nat>)
  {
    && |refs| == |pins|
    && (forall k :: 0 <= k < |refs| ==> refs[k] in after && after[refs[k]] == pins[k])
    && (forall k :: 0 <= k < |refs| ==> next <= refs[k])
    && Ascending(refs)
    && (forall h :: h in held ==> h !in after)
    && (forall h :: h in before && h !in held ==> h in after && after[h] == before[h])
    && (forall h :: h in after ==> (h in before && h !in held) || h in refs || userPin == Some(h))
  }

  /** Each handle in the ref is larger than the ones before it. */
  predicate Ascending(refs: seq<nat>)
  {
    forall j, k :: 0 <= j < k < |refs| ==> refs[j] < refs[k]
  }

  /** The map shows layer `l` under some handle. */
  predicate Shows(layers: map<nat, Layer>, l: Layer)
  {
    exists h :: h in layers && layers[h] == l
  }

  /** A layer that was on the map and not held in the ref survives a rebuild
      unchanged and is not among the new pins. */
  lemma UntouchedLayerKept(before: map<nat, Layer>, held: seq<nat>, next: nat,
                           after: map<nat, Layer>, refs: seq<nat>, pins: seq<Layer>, userPin: Option<nat>, h: nat)
    requires HandlesBelow(before, held, next)
    requires PinsRebuilt(before, held, next, after, refs, pins, userPin)
    requires h in before && h !in held
    ensures h in after && after[h] == before[h] && h !in refs
  {
    assert forall k :: 0 <= k < |refs| ==> h < next <= refs[k];
  }

  /** A rebuild over a fresh map holding only the tile layer keeps the tile,
      and every layer afterwards is the tile, a pin of the ref or the user pin. */
  lemma FreshMapRebuilt(tile: nat, held: seq<nat>, next: nat,
                        after: map<nat, Layer>, refs: seq<nat>, pins: seq<Layer>, userPin: Option<nat>)
    requires tile < next && HandlesBelow(map[], held, tile)
    requires PinsRebuilt(map[tile := TileLayer], held, next, after, refs, pins, userPin)
    ensures tile in after && after[tile] == TileLayer && tile !in refs
    ensures forall h :: h in after ==> after[h] == TileLayer || h in refs || userPin == Some(h)
  {
    UntouchedLayerKept(map[tile := TileLayer], held, next, after, refs, pins, userPin, tile);
  }

  /** Every handle on the map or in the ref was handed out before `next`. */
  ghost predicate HandlesBelow(layers: map<nat, Layer>, refs: seq<nat>, next: nat)
  {
    (forall h :: h in layers ==> h < next) && (forall k :: 0 <= k < |refs| ==> refs[k] < next)
  }
}
