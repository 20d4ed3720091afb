/** The browser map built on Leaflet: it loads the library on mount, creates
    one map instance, keeps the store markers it placed in `markersRef`,
    places the user-location marker once per map instance, stops recentring
    once the user has dragged the map, and routes popup-button presses
    through `window.handleMarkerClick(index)`. */
module WebMap {
  import opened Common
  import opened JsValues
  import opened MapEngine

  const PopupFallbackTitle: string := "スーパーマーケット"

  /** The markers that get a pin: those with a truthy `coordinate`. */
  predicate HasCoordinate(m: Record)
  {
    Truthy(Get(m, "coordinate"))
  }

  /** The popup of the store marker at input position `index`: the title is
      the first truthy of title and name, else 'スーパーマーケット'; the
      description line, present when description or address is truthy,
      shows the first truthy of the two; the distance line shows a truthy
      `distance_km`; the button needs a truthy `onMarkerPress`. */
  function PopupFor(m: Record, index: nat, onMarkerPress: Value): (p: Popup)
    ensures Truthy(p.title)
    ensures Truthy(Get(m, "title")) ==> p.title == Get(m, "title")
    ensures !Truthy(Get(m, "title")) && Truthy(Get(m, "name")) ==> p.title == Get(m, "name")
    ensures !Truthy(Get(m, "title")) && !Truthy(Get(m, "name")) ==> p.title == Str(PopupFallbackTitle)
    ensures p.description.Some? <==> Truthy(Get(m, "description")) || Truthy(Get(m, "address"))
    ensures Truthy(Get(m, "description")) ==> p.description == Some(Get(m, "description"))
    ensures !Truthy(Get(m, "description")) && Truthy(Get(m, "address")) ==> p.description == Some(Get(m, "address"))
    ensures p.distance.Some? <==> Truthy(Get(m, "distance_km"))
    ensures p.distance.Some? ==> p.distance.value == Get(m, "distance_km")
    ensures p.button.Some? <==> Truthy(onMarkerPress)
    ensures p.button.Some? ==> p.button.value == CallHandleMarkerClick(index)
  {
    var description := Or(Get(m, "description"), Get(m, "address"));
    Popup(
      Or(Or(Get(m, "title"), Get(m, "name")), Str(PopupFallbackTitle)),
      if Truthy(description) then Some(description) else None,
      if Truthy(Get(m, "distance_km")) then Some(Get(m, "distance_km")) else None,
      if Truthy(onMarkerPress) then Some(CallHandleMarkerClick(index)) else None)
  }

  /** The pin `updateMarkers` adds for the marker at input position `index`, if any. */
  function PinAt(onMarkerPress: Value): (Record, nat) -> Option<Layer>
  {
    (m: Record, index: nat) =>
      if HasCoordinate(m) then
        var c := Get(m, "coordinate");
        Some(StorePin(Prop(c, "latitude"), Prop(c, "longitude"), PopupFor(m, index, onMarkerPress)))
      else None
  }

  /** The store pins of one refresh, in the order they are pushed onto `markersRef`. */
  function StorePins(markers: seq<Record>, onMarkerPress: Value): seq<Layer>
  {
    Compact(MapIndexed(markers, PinAt(onMarkerPress)))
  }

  /** There is one pin per marker with a coordinate, in input order; the pin
      of input marker `i` sits at its coordinate and its button calls
      `handleMarkerClick(i)` with the ORIGINAL index `i`. */
  lemma StorePinsPositions(markers: seq<Record>, onMarkerPress: Value)
    ensures |StorePins(markers, onMarkerPress)| == |IndicesWhere(markers, HasCoordinate)|
    ensures forall k :: 0 <= k < |StorePins(markers, onMarkerPress)| ==>
              var i := IndicesWhere(markers, HasCoordinate)[k];
              var pin := StorePins(markers, onMarkerPress)[k];
              && pin.StorePin?
              && pin.lat == Prop(Get(markers[i], "coordinate"), "latitude")
              && pin.lng == Prop(Get(markers[i], "coordinate"), "longitude")
              && pin.popup == PopupFor(markers[i], i, onMarkerPress)
  {
    CompactMapIndexed(markers, PinAt(onMarkerPress), HasCoordinate);
  }

  /** `window.handleMarkerClick` as installed by the click-handler effect:
      the markers and the callback of the render that installed it. */
  datatype ClickHandler = ClickHandler(markers: seq<Record>, onMarkerPress: Value)

  /** The argument `onMarkerPress` is called with when the handler receives
      `index`, or `None` when it calls nothing. */
  function RouteClick(handler: ClickHandler, index: nat): (r: Option<Record>)
    ensures r.Some? <==> Truthy(handler.onMarkerPress) && index < |handler.markers|
    ensures r.Some? ==> r.value == handler.markers[index]
  {
    if Truthy(handler.onMarkerPress) && index < |handler.markers| then Some(handler.markers[index]) else None
  }

  /** Pressing the button of the `k`-th pin of a refresh, with the handler
      installed for the same markers, reports the input marker that pin was
      made from. */
  lemma ClickReachesItsMarker(markers: seq<Record>, onMarkerPress: Value, k: nat)
    requires Truthy(onMarkerPress)
    requires k < |StorePins(markers, onMarkerPress)|
    ensures k < |IndicesWhere(markers, HasCoordinate)|
    ensures StorePins(markers, onMarkerPress)[k].StorePin?
    ensures var b := StorePins(markers, onMarkerPress)[k].popup.button;
            && b.Some? && b.value.CallHandleMarkerClick?
            && RouteClick(ClickHandler(markers, onMarkerPress), b.value.index)
               == Some(markers[IndicesWhere(markers, HasCoordinate)[k]])
  {
    StorePinsPositions(markers, onMarkerPress);
  }

  /** The user-location pin, once placed, is on the map and not among the store pins. */
  ghost predicate UserPinKept(userPin: Option<nat>, layers: map<nat, Layer>, refs: seq<nat>)
  {
    userPin.Some? ==> userPin.value in layers && layers[userPin.value].UserLocationPin? && userPin.value !in refs
  }

  /** The layers of a freshly built map: the tile layer, the store pins
      held in order in the ref, the user-location pin exactly when
      `userLayer` wants one, and nothing else. */
  ghost predicate FreshLayers(layers: map<nat, Layer>, refs: seq<nat>, pins: seq<Layer>,
                              userSet: bool, userMarker: Option<nat>, userLayer: Option<Layer>)
  {
    && Shows(layers, TileLayer)
    && |refs| == |pins|
    && (forall k :: 0 <= k < |refs| ==> refs[k] in layers && layers[refs[k]] == pins[k])
    && (userSet <==> userLayer.Some?)
    && (userSet ==> userMarker.Some? && userMarker.value in layers && layers[userMarker.value] == userLayer.value)
    && (forall h :: h in layers ==> layers[h] == TileLayer || h in refs || userMarker == Some(h))
  }

  /** A refresh over a map holding only the tile layer leaves the layers
      `FreshLayers` describes, with the user-location pin `userPin` when it
      is wanted. */
  lemma RefreshedFreshMap(tile: nat, held: seq<nat>, next: nat, after: map<nat, Layer>, refs: seq<nat>, pins: seq<Layer>,
                          wantUser: bool, userSet: bool, userMarker: Option<nat>, userPin: Layer)
    requires tile < next && HandlesBelow(map[], held, tile)
    requires PinsRebuilt(map[tile := TileLayer], held, next, after, refs, pins, if wantUser then userMarker else None)
    requires wantUser ==> userSet && userMarker.Some? && userMarker.value in after && after[userMarker.value] == userPin
    requires !wantUser ==> !userSet && userMarker.None?
    ensures FreshLayers(after, refs, pins, userSet, userMarker, if wantUser then Some(userPin) else None)
  {
    FreshMapRebuilt(tile, held, next, after, refs, pins, if wantUser then userMarker else None);
  }

  class WebMapComponent {
    // the page
    var hasContainer: bool                // `mapRef.current` is set
    var leafletLoaded: bool               // `window.L` is defined
    var scriptPending: bool               // leaflet.js appended, its `onload` not yet run
    var cssInjected: bool                 // the leaflet.css link is in the document
    var clickHandler: Option<ClickHandler>  // `window.handleMarkerClick`
    // the map instance and what is stored on it
    var hasInstance: bool                 // `mapInstanceRef.current !== null`
    var layers: map<nat, Layer>
    var nextHandle: nat
    var view: Option<View>
    var moveendCallback: Option<Value>    // the callback of the `moveend` listener, if attached
    var userLocationSet: bool             // `_userLocationSet`
    var userLocationMarker: Option<nat>   // `_userLocationMarker`
    var userHasMovedMap: bool             // `_userHasMovedMap`
    var dragstartArmed: bool              // a `once('dragstart')` listener is registered
    // the component's ref
    var markersRef: seq<nat>

    ghost predicate Valid()
      reads this
    {
      && HandlesBelow(layers, markersRef, nextHandle)
      && (hasInstance ==> leafletLoaded && hasContainer)
      && (!hasInstance ==> layers == map[] && view.None? && moveendCallback.None?
                           && !userLocationSet && !userHasMovedMap && !dragstartArmed)
      && (userLocationSet <==> userLocationMarker.Some?)
      && UserPinKept(userLocationMarker, layers, markersRef)
      && (moveendCallback.Some? ==> Truthy(moveendCallback.value))
    }

    /** The page is as it was: container, library, script, stylesheet and
        `window.handleMarkerClick`. */
    twostate predicate PageKept()
      reads this
    {
      && hasContainer == old(hasContainer) && leafletLoaded == old(leafletLoaded)
      && scriptPending == old(scriptPending) && cssInjected == old(cssInjected)
      && clickHandler == old(clickHandler)
    }

    /** The instance, its layers, its `moveend` listener, the user-location
        pin and the ref are as they were. */
    twostate predicate PinsKept()
      reads this
    {
      && hasInstance == old(hasInstance) && layers == old(layers) && nextHandle == old(nextHandle)
      && moveendCallback == old(moveendCallback)
      && userLocationSet == old(userLocationSet) && userLocationMarker == old(userLocationMarker)
      && markersRef == old(markersRef)
    }

    /** Everything on the instance (pins, view and drag state) and the ref is as it was. */
    twostate predicate InstanceKept()
      reads this
    {
      PinsKept() && view == old(view) && userHasMovedMap == old(userHasMovedMap) && dragstartArmed == old(dragstartArmed)
    }

    /** Everything but `window.handleMarkerClick` is as it was: the page, the
        instance with its layers, view and listeners, and the ref. */
    twostate predicate AllButHandlerKept()
      reads this
    {
      && hasContainer == old(hasContainer) && leafletLoaded == old(leafletLoaded)
      && scriptPending == old(scriptPending) && cssInjected == old(cssInjected)
      && InstanceKept()
    }

    /** The map `initializeMap` builds for these props: centred on the
        region at zoom 13, the `moveend` listener exactly when a callback is
        given, the tile layer, the store pins held in order in the ref, and
        the user-location pin exactly when it is wanted; nothing else is on
        it, and the user has not moved it. */
    ghost predicate Built(region: Value, markers: seq<Record>, showsUserLocation: Value, onMarkerPress: Value, onRegionChangeComplete: Value)
      reads this
    {
      && hasInstance && view == Some(CentreOn(region))
      && moveendCallback == (if Truthy(onRegionChangeComplete) then Some(onRegionChangeComplete) else None)
      && FreshLayers(layers, markersRef, StorePins(markers, onMarkerPress), userLocationSet, userLocationMarker,
                     if Truthy(showsUserLocation) && Truthy(region)
                     then Some(UserLocationPin(Prop(region, "latitude"), Prop(region, "longitude"))) else None)
      && !userHasMovedMap && !dragstartArmed
    }

    /** One refresh of the pins on the instance: the ref's pins are replaced
        by the store pins, the user-location pin is added exactly when
        `wantUser`, and the view, the listeners and the page stay. */
    twostate predicate Rebuilt(markers: seq<Record>, wantUser: bool, region: Value, onMarkerPress: Value)
      reads this
    {
      && PinsRebuilt(old(layers), old(markersRef), old(nextHandle), layers, markersRef,
                     StorePins(markers, onMarkerPress), if wantUser then userLocationMarker else None)
      && (wantUser ==>
            && userLocationSet && userLocationMarker.Some? && userLocationMarker.value !in old(layers)
            && userLocationMarker.value in layers
            && layers[userLocationMarker.value] == UserLocationPin(Prop(region, "latitude"), Prop(region, "longitude")))
      && (!wantUser ==> userLocationMarker == old(userLocationMarker) && userLocationSet == old(userLocationSet))
      && hasInstance == old(hasInstance) && view == old(view) && moveendCallback == old(moveendCallback)
      && userHasMovedMap == old(userHasMovedMap) && dragstartArmed == old(dragstartArmed)
      && PageKept()
    }

    /** The state of a fresh page with the component rendered but not mounted. */
    constructor(hasContainer: bool, leafletLoaded: bool)
      ensures Valid()
      ensures this.hasContainer == hasContainer && this.leafletLoaded == leafletLoaded
      ensures !scriptPending && !cssInjected && clickHandler.None? && !hasInstance
      ensures markersRef == [] && nextHandle == 0
    {
      this.hasContainer := hasContainer;
      this.leafletLoaded := leafletLoaded;
      scriptPending := false;
      cssInjected := false;
      clickHandler := None;
      hasInstance := false;
      layers := map[];
      nextHandle := 0;
      view := None;
      moveendCallback := None;
      userLocationSet := false;
      userLocationMarker := None;
      userHasMovedMap := false;
      dragstartArmed := false;
      markersRef := [];
    }

    /** The mount effect: inject the stylesheet, then either append the
        Leaflet script (the map is built when it has loaded) or build the map
        straight away. */
    method Mount(region: Value, markers: seq<Record>, showsUserLocation: Value, onMarkerPress: Value, onRegionChangeComplete: Value)
      requires Valid()
      modifies this
      ensures Valid()
      ensures cssInjected
      ensures !old(leafletLoaded) ==> scriptPending && !hasInstance
      ensures old(leafletLoaded) && old(hasContainer) && !old(hasInstance) && !IsNullish(region) ==> hasInstance
      ensures old(hasInstance) ==> hasInstance && layers == old(layers) && markersRef == old(markersRef)
      ensures old(leafletLoaded) && old(hasContainer) && !old(hasInstance) && !IsNullish(region) ==>
                Built(region, markers, showsUserLocation, onMarkerPress, onRegionChangeComplete)
      ensures !(old(leafletLoaded) && old(hasContainer) && !old(hasInstance) && !IsNullish(region)) ==> InstanceKept()
      ensures old(leafletLoaded) ==> scriptPending == old(scriptPending)
      ensures hasContainer == old(hasContainer) && leafletLoaded == old(leafletLoaded) && clickHandler == old(clickHandler)
    {
      cssInjected := true;
      if !leafletLoaded {
        scriptPending := true;
      } else {
        InitializeMap(region, markers, showsUserLocation, onMarkerPress, onRegionChangeComplete);
      }
    }

    /** The Leaflet script's `onload`: the library is now present and the
        map is built with the props the mount effect captured. */
    method ScriptLoaded(region: Value, markers: seq<Record>, showsUserLocation: Value, onMarkerPress: Value, onRegionChangeComplete: Value)
      requires Valid() && scriptPending
      modifies this
      ensures Valid()
      ensures leafletLoaded && !scriptPending
      ensures old(hasContainer) && !old(hasInstance) && !IsNullish(region) ==> hasInstance
      ensures old(hasContainer) && !old(hasInstance) && !IsNullish(region) ==>
                Built(region, markers, showsUserLocation, onMarkerPress, onRegionChangeComplete)
      ensures !(old(hasContainer) && !old(hasInstance) && !IsNullish(region)) ==> InstanceKept()
      ensures hasContainer == old(hasContainer) && cssInjected == old(cssInjected) && clickHandler == old(clickHandler)
    {
      leafletLoaded := true;
      scriptPending := false;
      InitializeMap(region, markers, showsUserLocation, onMarkerPress, onRegionChangeComplete);
    }

    /** `initializeMap`: nothing without a container, with an existing
        instance or without the library, so there is never a second
        instance. Otherwise a new instance centred on the region at zoom 13
        with one tile layer, the `moveend` listener only when a callback is
        given, then a marker refresh. A nullish region makes `setView` throw
        before the instance is stored. */
    method InitializeMap(region: Value, markers: seq<Record>, showsUserLocation: Value, onMarkerPress: Value, onRegionChangeComplete: Value)
      requires Valid()
      modifies this
      ensures Valid()
      ensures !old(hasContainer) || old(hasInstance) || !old(leafletLoaded) || IsNullish(region) ==> unchanged(this)
      ensures old(hasContainer) && !old(hasInstance) && old(leafletLoaded) && !IsNullish(region) ==>
                Built(region, markers, showsUserLocation, onMarkerPress, onRegionChangeComplete)
      ensures hasContainer == old(hasContainer) && leafletLoaded == old(leafletLoaded)
      ensures scriptPending == old(scriptPending) && cssInjected == old(cssInjected) && clickHandler == old(clickHandler)
    {
      if !hasContainer || hasInstance || !leafletLoaded || IsNullish(region) {
        return;
      }
      CreateMap(region, markers, showsUserLocation, onMarkerPress, onRegionChangeComplete);
    }

    /** The instance proper, once the guards of `initializeMap` have passed. */
    method CreateMap(region: Value, markers: seq<Record>, showsUserLocation: Value, onMarkerPress: Value, onRegionChangeComplete: Value)
      requires Valid() && hasContainer && !hasInstance && leafletLoaded && !IsNullish(region)
      modifies this
      ensures Valid()
      ensures Built(region, markers, showsUserLocation, onMarkerPress, onRegionChangeComplete)
      ensures hasContainer && leafletLoaded
      ensures scriptPending == old(scriptPending) && cssInjected == old(cssInjected) && clickHandler == old(clickHandler)
    {
      ghost var tile := nextHandle;
      NewInstance(region, onRegionChangeComplete);
      ghost var held, next := markersRef, nextHandle;
      RebuildPins(markers, Truthy(showsUserLocation) && Truthy(region), region, onMarkerPress);
      RefreshedFreshMap(tile, held, next, layers, markersRef, StorePins(markers, onMarkerPress),
                        Truthy(showsUserLocation) && Truthy(region), userLocationSet, userLocationMarker,
                        UserLocationPin(Prop(region, "latitude"), Prop(region, "longitude")));
    }

    /** `L.map(..).setView(..)`, the tile layer and the `moveend` listener. */
    method NewInstance(region: Value, onRegionChangeComplete: Value)
      requires Valid() && hasContainer && !hasInstance && leafletLoaded
      modifies this
      ensures Valid()
      ensures hasInstance && view == Some(CentreOn(region))
      ensures moveendCallback == if Truthy(onRegionChangeComplete) then Some(onRegionChangeComplete) else None
      ensures layers == map[old(nextHandle) := TileLayer] && nextHandle == old(nextHandle) + 1
      ensures markersRef == old(markersRef) && !userLocationSet && !userHasMovedMap && !dragstartArmed
      ensures hasContainer && leafletLoaded
      ensures scriptPending == old(scriptPending) && cssInjected == old(cssInjected) && clickHandler == old(clickHandler)
    {
      hasInstance := true;
      view := Some(CentreOn(region));
      layers := map[nextHandle := TileLayer];
      nextHandle := nextHandle + 1;
      moveendCallback := if Truthy(onRegionChangeComplete) then Some(onRegionChangeComplete) else None;
    }

    /** `updateMarkers`: a no-op without an instance. Otherwise every pin
        held in `markersRef` is removed from the map, the user-location pin
        is added if it is wanted and has not been placed on this instance
        yet, and one pin per marker with a coordinate is added and
        remembered in `markersRef`, in input order. The user-location pin is
        not kept in `markersRef`, so later refreshes leave it alone. */
    method UpdateMarkers(markers: seq<Record>, showsUserLocation: Value, region: Value, onMarkerPress: Value)
      requires Valid()
      modifies this
      ensures Valid()
      ensures !old(hasInstance) ==> unchanged(this)
      ensures old(hasInstance) ==>
                Rebuilt(markers, Truthy(showsUserLocation) && Truthy(region) && !old(userLocationSet), region, onMarkerPress)
    {
      if !hasInstance || !leafletLoaded {
        return;
      }
      RebuildPins(markers, Truthy(showsUserLocation) && Truthy(region) && !userLocationSet, region, onMarkerPress);
    }

    /** The refresh proper, on an existing instance: the pins in the ref are
        replaced by the store pins, and the user-location pin is added when
        `wantUser` says it is wanted and not yet placed. */
    method RebuildPins(markers: seq<Record>, wantUser: bool, region: Value, onMarkerPress: Value)
      requires Valid() && hasInstance
      requires wantUser ==> !userLocationSet
      modifies this
      ensures Valid()
      ensures Rebuilt(markers, wantUser, region, onMarkerPress)
    {
      var userPin := if wantUser then Some(UserLocationPin(Prop(region, "latitude"), Prop(region, "longitude"))) else None;
      var ls, refs, userHandle, nh := RefreshLayers(layers, markersRef, nextHandle, userPin, StorePins(markers, onMarkerPress));
      if !wantUser && userLocationMarker.Some? {
        UntouchedLayerKept(layers, markersRef, nextHandle, ls, refs, StorePins(markers, onMarkerPress), userHandle, userLocationMarker.value);
      }
      var um := if wantUser then userHandle else userLocationMarker;
      var uset := userLocationSet || wantUser;
      assert (if wantUser then um else None) == userHandle;
      layers := ls;
      nextHandle := nh;
      markersRef := refs;
      userLocationMarker := um;
      userLocationSet := uset;
    }

    /** The marker effect: refresh when there is an instance. */
    method MarkersEffect(markers: seq<Record>, showsUserLocation: Value, region: Value, onMarkerPress: Value)
      requires Valid()
      modifies this
      ensures Valid()
      ensures !old(hasInstance) ==> unchanged(this)
      ensures old(hasInstance) ==> |markersRef| == |StorePins(markers, onMarkerPress)|
      ensures old(hasInstance) ==>
                Rebuilt(markers, Truthy(showsUserLocation) && Truthy(region) && !old(userLocationSet), region, onMarkerPress)
    {
      if hasInstance {
        UpdateMarkers(markers, showsUserLocation, region, onMarkerPress);
      }
    }

    /** The click-handler effect: the previous run's cleanup deletes
        `window.handleMarkerClick`, then a handler over the current markers
        and callback is installed. */
    method ClickHandlerEffect(markers: seq<Record>, onMarkerPress: Value)
      requires Valid()
      modifies this
      ensures Valid()
      ensures clickHandler == Some(ClickHandler(markers, onMarkerPress))
      ensures AllButHandlerKept()
    {
      clickHandler := Some(ClickHandler(markers, onMarkerPress));
    }

    /** The click-handler effect's cleanup: `delete window.handleMarkerClick`. */
    method ClickHandlerCleanup()
      requires Valid()
      modifies this
      ensures Valid()
      ensures clickHandler.None?
      ensures AllButHandlerKept()
    {
      clickHandler := None;
    }

    /** A press on the popup button of the pin with handle `h`: the argument
        `onMarkerPress` receives, or `None` when nothing is called (no such
        pin, no button, no handler installed, or no marker at that index). */
    method PressPopupButton(h: nat) returns (call: Option<Record>)
      requires Valid()
      ensures call.Some? <==>
                && h in layers && layers[h].StorePin?
                && layers[h].popup.button.Some? && layers[h].popup.button.value.CallHandleMarkerClick?
                && clickHandler.Some?
                && RouteClick(clickHandler.value, layers[h].popup.button.value.index).Some?
      ensures call.Some? ==> call == RouteClick(clickHandler.value, layers[h].popup.button.value.index)
    {
      call := None;
      if h in layers && layers[h].StorePin? {
        var button := layers[h].popup.button;
        if button.Some? && button.value.CallHandleMarkerClick? && clickHandler.Some? {
          call := RouteClick(clickHandler.value, button.value.index);
        }
      }
    }

    /** The region effect: recentre at zoom 13 and arm a one-shot
        `dragstart` listener, but only while the user has not moved the map. */
    method RegionEffect(region: Value)
      requires Valid()
      modifies this
      ensures Valid()
      ensures old(hasInstance) && Truthy(region) && !old(userHasMovedMap) ==>
                view == Some(CentreOn(region)) && dragstartArmed
      ensures !(old(hasInstance) && Truthy(region) && !old(userHasMovedMap)) ==> unchanged(this)
      ensures layers == old(layers) && markersRef == old(markersRef) && userHasMovedMap == old(userHasMovedMap)
      ensures PageKept() && PinsKept()
    {
      if hasInstance && Truthy(region) && !userHasMovedMap {
        view := Some(CentreOn(region));
        dragstartArmed := true;
      }
    }

    /** The first `dragstart` after a recentre sets `_userHasMovedMap`; the
        listener is registered with `once`, so it is gone afterwards. */
    method DragStart()
      requires Valid()
      modifies this
      ensures Valid()
      ensures old(dragstartArmed) ==> userHasMovedMap && !dragstartArmed
      ensures !old(dragstartArmed) ==> unchanged(this)
      ensures view == old(view) && layers == old(layers) && markersRef == old(markersRef)
      ensures PageKept() && PinsKept()
    {
      if dragstartArmed {
        userHasMovedMap := true;
        dragstartArmed := false;
      }
    }

    /** `moveend` on a map whose view has centre (`lat`, `lng`) and the given
        bounds: the callback attached at initialisation receives the region
        report; without that listener nothing is reported. */
    method MoveEnd(lat: real, lng: real, north: real, south: real, east: real, west: real)
      returns (report: Option<(Value, RegionReport)>)
      requires Valid()
      ensures report.Some? <==> hasInstance && moveendCallback.Some?
      ensures report.Some? ==> (report.value.0 == moveendCallback.value
                            && report.value.1 == ReportRegion(lat, lng, north, south, east, west))
    {
      if hasInstance && moveendCallback.Some? {
        report := Some((moveendCallback.value, ReportRegion(lat, lng, north, south, east, west)));
      } else {
        report := None;
      }
    }

    /** Unmounting: the mount effect's cleanup removes the instance, with
        everything on it, and nulls the ref, and React detaches `mapRef`, so
        a script that finishes loading afterwards builds no map. */
    method Cleanup()
      requires Valid()
      modifies this
      ensures Valid()
      ensures !hasContainer && !hasInstance && layers == map[] && view.None?
      ensures moveendCallback.None? && !userLocationSet && userLocationMarker.None?
      ensures !userHasMovedMap && !dragstartArmed
      ensures markersRef == old(markersRef) && clickHandler == old(clickHandler) && leafletLoaded == old(leafletLoaded)
      ensures scriptPending == old(scriptPending) && cssInjected == old(cssInjected) && nextHandle == old(nextHandle)
    {
      hasContainer := false;
      if hasInstance {
        hasInstance, layers, view, moveendCallback := false, map[], None, None;
        userLocationSet, userLocationMarker, userHasMovedMap, dragstartArmed := false, None, false, false;
      }
    }
  }
}
