/** The second browser map built on Leaflet: every refresh rebuilds all
    pins, the user-location pin first; every region change recentres the
    map; popup buttons dispatch a `marker-click-<index>` window event that
    a per-index listener forwards to `onMarkerPress`. */
module LeafletMapView {
  import opened Common
  import opened JsValues
  import opened Text
  import opened MapEngine

  const PopupFallbackTitle: string := "マーカー"

  /** The name of the window event the popup button of input marker `index` dispatches. */
  function ClickEventName(index: nat): (name: string)
    ensures |name| > |"marker-click-"| && name[..|"marker-click-"|] == "marker-click-"
  {
    "marker-click-" + NatToString(index)
  }

  lemma ClickEventNamesDistinct(i: nat, j: nat)
    requires i != j
    ensures ClickEventName(i) != ClickEventName(j)
  {
    PrefixedNatInjective("marker-click-", i, j);
  }

  /** The event payload: the marker's own fields plus `index`. */
  function ClickDetail(m: Record, index: nat): (d: Record)
    ensures Get(d, "index") == Num(index as real)
    ensures forall key :: key != "index" ==> Get(d, key) == Get(m, key)
  {
    m + map["index" := Num(index as real)]
  }

  /** The popup of input marker `index`: the title falls back to 'マーカー'
      only, the description line needs a truthy description, the button
      needs a truthy `onMarkerPress`. */
  function PopupFor(m: Record, index: nat, onMarkerPress: Value): (p: Popup)
    ensures Truthy(p.title)
    ensures Truthy(Get(m, "title")) ==> p.title == Get(m, "title")
    ensures !Truthy(Get(m, "title")) ==> p.title == Str(PopupFallbackTitle)
    ensures p.description.Some? <==> Truthy(Get(m, "description"))
    ensures p.description.Some? ==> p.description.value == Get(m, "description")
    ensures p.distance.None?
    ensures p.button.Some? <==> Truthy(onMarkerPress)
    ensures p.button.Some? ==> p.button.value == DispatchMarkerClick(index, ClickDetail(m, index))
  {
    Popup(
      Or(Get(m, "title"), Str(PopupFallbackTitle)),
      if Truthy(Get(m, "description")) then Some(Get(m, "description")) else None,
      None,
      if Truthy(onMarkerPress) then Some(DispatchMarkerClick(index, ClickDetail(m, index))) else None)
  }

  /** Reading `marker.coordinate.latitude` throws a TypeError when the coordinate is nullish. */
  predicate CoordinateReadable(m: Record)
  {
    !IsNullish(Get(m, "coordinate"))
  }

  function PinFor(m: Record, index: nat, onMarkerPress: Value): Layer
  {
    var c := Get(m, "coordinate");
    StorePin(Prop(c, "latitude"), Prop(c, "longitude"), PopupFor(m, index, onMarkerPress))
  }

  /** The pins for `markers`, one per marker, in order. */
  function StorePins(markers: seq<Record>, onMarkerPress: Value): (pins: seq<Layer>)
    ensures |pins| == |markers|
    ensures forall i :: 0 <= i < |markers| ==> pins[i] == PinFor(markers[i], i, onMarkerPress)
  {
    seq(|markers|, i requires 0 <= i < |markers| => PinFor(markers[i], i, onMarkerPress))
  }

  /** The number of markers processed before the first one whose coordinate
      cannot be read: all of them when every coordinate is readable. */
  function ReadablePrefix(markers: seq<Record>): (n: nat)
    ensures n <= |markers|
    ensures forall i :: 0 <= i < n ==> CoordinateReadable(markers[i])
    ensures n < |markers| ==> !CoordinateReadable(markers[n])
  {
    if |markers| == 0 || !CoordinateReadable(markers[0]) then 0 else 1 + ReadablePrefix(markers[1..])
  }

  /** The pins of one refresh: the user pin first when it is wanted. */
  function RefreshPins(markers: seq<Record>, showsUserLocation: Value, region: Value, onMarkerPress: Value): (pins: seq<Layer>)
    ensures |pins| == (if Truthy(showsUserLocation) && Truthy(region) then 1 else 0) + ReadablePrefix(markers)
  {
    (if Truthy(showsUserLocation) && Truthy(region)
     then [UserLocationPin(Prop(region, "latitude"), Prop(region, "longitude"))] else [])
    + StorePins(markers[..ReadablePrefix(markers)], onMarkerPress)
  }

  /** A listener registered on `window`: its event name, the identity of the
      closure (one per run of the listener effect) and the callback it forwards to. */
  datatype Listener = Listener(eventName: string, handler: nat, onMarkerPress: Value)

  /** The listeners one run of the effect registers: `marker-click-0` up to
      `marker-click-(n-1)`, in that order. */
  function Registered(n: nat, handler: nat, onMarkerPress: Value): (ls: seq<Listener>)
    ensures |ls| == n
    ensures forall i :: 0 <= i < n ==> ls[i] == Listener(ClickEventName(i), handler, onMarkerPress)
  {
    seq(n, i requires 0 <= i < n => Listener(ClickEventName(i), handler, onMarkerPress))
  }

  /** `window.dispatchEvent(new CustomEvent(name, ...))`: `onMarkerPress` of
      each listener for `name` whose callback is set, in registration order. */
  function Dispatch(listeners: seq<Listener>, name: string): (calls: seq<Value>)
    ensures |calls| <= |listeners|
  {
    if |listeners| == 0 then []
    else
      var l := listeners[|listeners| - 1];
      Dispatch(listeners[..|listeners| - 1], name)
      + (if l.eventName == name && Truthy(l.onMarkerPress) then [l.onMarkerPress] else [])
  }

  lemma {:induction false} DispatchAppend(a: seq<Listener>, b: seq<Listener>, name: string)
    ensures Dispatch(a + b, name) == Dispatch(a, name) + Dispatch(b, name)
    decreases |b|
  {
    if |b| == 0 {
      assert a + b == a;
    } else {
      assert (a + b)[..|a + b| - 1] == a + b[..|b| - 1];
      DispatchAppend(a, b[..|b| - 1], name);
    }
  }

  /** Listeners of other events are never invoked. */
  lemma {:induction false} DispatchNone(listeners: seq<Listener>, name: string)
    requires forall k :: 0 <= k < |listeners| ==> listeners[k].eventName != name
    ensures Dispatch(listeners, name) == []
  {
    if |listeners| > 0 {
      DispatchNone(listeners[..|listeners| - 1], name);
    }
  }

  /** With exactly one run's listeners registered, the event of index `i`
      reaches `onMarkerPress` exactly once. */
  lemma {:induction false} DispatchRegistered(n: nat, handler: nat, onMarkerPress: Value, i: nat)
    requires i < n && Truthy(onMarkerPress)
    ensures Dispatch(Registered(n, handler, onMarkerPress), ClickEventName(i)) == [onMarkerPress]
  {
    var ls := Registered(n, handler, onMarkerPress);
    var before := ls[..i];
    var after := ls[i + 1..];
    assert ls == before + [ls[i]] + after;
    DispatchAppend(before + [ls[i]], after, ClickEventName(i));
    DispatchAppend(before, [ls[i]], ClickEventName(i));
    forall k | 0 <= k < |before| ensures before[k].eventName != ClickEventName(i) {
      ClickEventNamesDistinct(k, i);
    }
    forall k | 0 <= k < |after| ensures after[k].eventName != ClickEventName(i) {
      assert after[k] == ls[i + 1 + k];
      ClickEventNamesDistinct(i + 1 + k, i);
    }
    DispatchNone(before, ClickEventName(i));
    DispatchNone(after, ClickEventName(i));
    assert Dispatch([ls[i]], ClickEventName(i)) == Dispatch([], ClickEventName(i)) + [onMarkerPress] by {
      assert [ls[i]][..0] == [];
    }
  }

  /** Removing one run's listeners after registering them gives back the
      listeners that were there before, provided the run's closure is new. */
  lemma {:induction false} CleanupUndoesRegistration(before: seq<Listener>, n: nat, handler: nat, onMarkerPress: Value)
    requires forall k :: 0 <= k < |before| ==> before[k].handler != handler
    ensures Filter(before + Registered(n, handler, onMarkerPress), (l: Listener) => l.handler != handler) == before
  {
    var p := (l: Listener) => l.handler != handler;
    FilterAppend(before, Registered(n, handler, onMarkerPress), p);
    FilterAll(before, p);
    FilterNoneOf(Registered(n, handler, onMarkerPress), p);
  }

  /** The test a listener passes when it is not among `names` for the closure `handler`. */
  function KeptBy(names: seq<string>, handler: nat): Listener -> bool
  {
    (l: Listener) => !(l.eventName in names && l.handler == handler)
  }

  lemma RemoveOneMore(ws: seq<Listener>, names: seq<string>, name: string, handler: nat)
    ensures Filter(Filter(ws, KeptBy(names, handler)), KeptBy([name], handler)) == Filter(ws, KeptBy(names + [name], handler))
  {
    FilterFilter(ws, KeptBy(names, handler), KeptBy([name], handler), KeptBy(names + [name], handler));
  }

  /** One round of the removal loop: the next name leaves the filter of the first `i`. */
  lemma RemoveStep(ws: seq<Listener>, names: seq<string>, i: nat, handler: nat)
    requires i < |names|
    ensures Filter(Filter(ws, KeptBy(names[..i], handler)), KeptBy([names[i]], handler))
            == Filter(ws, KeptBy(names[..i + 1], handler))
  {
    assert names[..i + 1] == names[..i] + [names[i]];
    RemoveOneMore(ws, names[..i], names[i], handler);
  }

  /** `listeners.forEach(name => window.removeEventListener(name, handler))`. */
  method RemoveListeners(ws: seq<Listener>, names: seq<string>, handler: nat) returns (rest: seq<Listener>)
    ensures rest == Filter(ws, KeptBy(names, handler))
  {
    rest := ws;
    assert names[..0] == [];
    FilterAll(ws, KeptBy([], handler));
    var i := 0;
    while i < |names|
      invariant 0 <= i <= |names|
      invariant rest == Filter(ws, KeptBy(names[..i], handler))
    {
      rest := Filter(rest, KeptBy([names[i]], handler));
      RemoveStep(ws, names, i, handler);
      i := i + 1;
    }
    assert names[..|names|] == names;
  }

  /** The registration loop of the listener effect: one listener per marker index. */
  method RegisterListeners(ws: seq<Listener>, count: nat, handler: nat, onMarkerPress: Value)
    returns (ws': seq<Listener>, names: seq<string>)
    ensures ws' == ws + Registered(count, handler, onMarkerPress)
    ensures |names| == count && forall i :: 0 <= i < count ==> names[i] == ClickEventName(i)
  {
    ws' := ws;
    names := [];
    var i := 0;
    while i < count
      invariant 0 <= i <= count
      invariant ws' == ws + Registered(i, handler, onMarkerPress)
      invariant |names| == i && forall k :: 0 <= k < i ==> names[k] == ClickEventName(k)
    {
      var name := ClickEventName(i);
      ws' := ws' + [Listener(name, handler, onMarkerPress)];
      names := names + [name];
      assert Registered(i + 1, handler, onMarkerPress) == Registered(i, handler, onMarkerPress) + [Listener(name, handler, onMarkerPress)];
      i := i + 1;
    }
  }

  class LeafletMapViewComponent {
    // the page
    var hasContainer: bool                // `mapRef.current` is set
    var leafletLoaded: bool               // `window.L` is defined
    var scriptPending: bool               // leaflet.js appended, its `onload` not yet run
    var cssInjected: bool
    var windowListeners: seq<Listener>    // the `marker-click-*` listeners on `window`
    var nextClosure: nat                  // identities handed to listener closures
    var currentRun: Option<(nat, seq<string>)>  // the live effect run: its closure and `listeners` array
    // the map instance
    var hasInstance: bool
    var layers: map<nat, Layer>
    var nextHandle: nat
    var view: Option<View>
    var moveendCallback: Option<Value>
    // the component's ref
    var markersRef: seq<nat>

    ghost predicate Valid()
      reads this
    {
      && HandlesBelow(layers, markersRef, nextHandle)
      && (hasInstance ==> hasContainer && leafletLoaded)
      && (!hasInstance ==> layers == map[] && view.None? && moveendCallback.None?)
      && (moveendCallback.Some? ==> Truthy(moveendCallback.value))
      && (forall k :: 0 <= k < |windowListeners| ==> windowListeners[k].handler < nextClosure)
      && (currentRun.Some? ==> currentRun.value.0 < nextClosure)
    }

    /** The page is as it was: container, library, script and stylesheet. */
    twostate predicate PageKept()
      reads this
    {
      hasContainer == old(hasContainer) && leafletLoaded == old(leafletLoaded)
      && scriptPending == old(scriptPending) && cssInjected == old(cssInjected)
    }

    /** The window's listeners and the record of the live effect run are as they were. */
    twostate predicate ListenersKept()
      reads this
    {
      windowListeners == old(windowListeners) && nextClosure == old(nextClosure) && currentRun == old(currentRun)
    }

    /** The instance with its layers, view and `moveend` listener, and the ref, are as they were. */
    twostate predicate InstanceKept()
      reads this
    {
      && hasInstance == old(hasInstance) && layers == old(layers) && nextHandle == old(nextHandle)
      && view == old(view) && moveendCallback == old(moveendCallback) && markersRef == old(markersRef)
    }

    /** The map `initializeMap` builds for these props: centred on the
        region at zoom 13, the `moveend` listener exactly when a callback is
        given, the tile layer, and the refresh's pins held in order in the
        ref; nothing else is on it. */
    ghost predicate Built(region: Value, markers: seq<Record>, showsUserLocation: Value, onMarkerPress: Value, onRegionChangeComplete: Value)
      reads this
    {
      && hasInstance && view == Some(CentreOn(region))
      && moveendCallback == (if Truthy(onRegionChangeComplete) then Some(onRegionChangeComplete) else None)
      && Shows(layers, TileLayer)
      && |markersRef| == |RefreshPins(markers, showsUserLocation, region, onMarkerPress)|
      && (forall k :: 0 <= k < |markersRef| ==>
            markersRef[k] in layers && layers[markersRef[k]] == RefreshPins(markers, showsUserLocation, region, onMarkerPress)[k])
      && (forall h :: h in layers ==> layers[h] == TileLayer || h in markersRef)
    }

    /** One refresh on the instance: the ref's pins are replaced by the
        refresh's pins, and the view, the listeners and the page stay. */
    twostate predicate Rebuilt(markers: seq<Record>, showsUserLocation: Value, region: Value, onMarkerPress: Value)
      reads this
    {
      && PinsRebuilt(old(layers), old(markersRef), old(nextHandle), layers, markersRef,
                     RefreshPins(markers, showsUserLocation, region, onMarkerPress), None)
      && hasInstance == old(hasInstance) && view == old(view) && moveendCallback == old(moveendCallback)
      && PageKept() && ListenersKept()
    }

    constructor(hasContainer: bool, leafletLoaded: bool, windowListeners: seq<Listener>, nextClosure: nat)
      requires forall k :: 0 <= k < |windowListeners| ==> windowListeners[k].handler < nextClosure
      ensures Valid()
      ensures this.hasContainer == hasContainer && this.leafletLoaded == leafletLoaded
      ensures this.windowListeners == windowListeners && currentRun.None?
      ensures !hasInstance && markersRef == [] && !scriptPending
    {
      this.hasContainer := hasContainer;
      this.leafletLoaded := leafletLoaded;
      scriptPending := false;
      cssInjected := false;
      this.windowListeners := windowListeners;
      this.nextClosure := nextClosure;
      currentRun := None;
      hasInstance := false;
      layers := map[];
      nextHandle := 0;
      view := None;
      moveendCallback := None;
      markersRef := [];
    }

    /** The mount effect: inject the stylesheet, then append the Leaflet
        script when the library is missing, otherwise build the map. */
    method Mount(region: Value, markers: seq<Record>, showsUserLocation: Value, onMarkerPress: Value, onRegionChangeComplete: Value)
      returns (ok: bool)
      requires Valid()
      modifies this
      ensures Valid()
      ensures cssInjected
      ensures !old(leafletLoaded) ==> scriptPending && !hasInstance && ok
      ensures old(leafletLoaded) && old(hasContainer) && !old(hasInstance) && !IsNullish(region) ==> hasInstance
      ensures !old(leafletLoaded) ==> InstanceKept()
      ensures old(leafletLoaded) && (!old(hasContainer) || old(hasInstance)) ==> ok && InstanceKept()
      ensures old(leafletLoaded) && old(hasContainer) && !old(hasInstance) && IsNullish(region) ==> !ok && InstanceKept()
      ensures old(leafletLoaded) && old(hasContainer) && !old(hasInstance) && !IsNullish(region) ==>
                && Built(region, markers, showsUserLocation, onMarkerPress, onRegionChangeComplete)
                && (ok <==> ReadablePrefix(markers) == |markers|)
      ensures old(leafletLoaded) ==> scriptPending == old(scriptPending)
      ensures hasContainer == old(hasContainer) && leafletLoaded == old(leafletLoaded) && ListenersKept()
    {
      cssInjected := true;
      ok := true;
      if !leafletLoaded {
        scriptPending := true;
      } else {
        ok := InitializeMap(region, markers, showsUserLocation, onMarkerPress, onRegionChangeComplete);
      }
    }

    /** The Leaflet script's `onload`. */
    method ScriptLoaded(region: Value, markers: seq<Record>, showsUserLocation: Value, onMarkerPress: Value, onRegionChangeComplete: Value)
      returns (ok: bool)
      requires Valid() && scriptPending
      modifies this
      ensures Valid()
      ensures leafletLoaded && !scriptPending
      ensures old(hasContainer) && !old(hasInstance) && !IsNullish(region) ==> hasInstance
      ensures !old(hasContainer) || old(hasInstance) ==> ok && InstanceKept()
      ensures old(hasContainer) && !old(hasInstance) && IsNullish(region) ==> !ok && InstanceKept()
      ensures old(hasContainer) && !old(hasInstance) && !IsNullish(region) ==>
                && Built(region, markers, showsUserLocation, onMarkerPress, onRegionChangeComplete)
                && (ok <==> ReadablePrefix(markers) == |markers|)
      ensures hasContainer == old(hasContainer) && cssInjected == old(cssInjected) && ListenersKept()
    {
      leafletLoaded := true;
      scriptPending := false;
      ok := InitializeMap(region, markers, showsUserLocation, onMarkerPress, onRegionChangeComplete);
    }

    /** `initializeMap`: nothing without a container or with an existing
        instance. It does not check for the library: without it, and with
        a nullish region, it throws before an instance is stored. Otherwise
        a new instance centred on the region at zoom 13, the `moveend`
        listener when a callback is given, and a refresh. `ok` is false
        when a TypeError escapes. */
    method InitializeMap(region: Value, markers: seq<Record>, showsUserLocation: Value, onMarkerPress: Value, onRegionChangeComplete: Value)
      returns (ok: bool)
      requires Valid()
      modifies this
      ensures Valid()
      ensures !old(hasContainer) || old(hasInstance) ==> ok && unchanged(this)
      ensures old(hasContainer) && !old(hasInstance) && (!old(leafletLoaded) || IsNullish(region)) ==> !ok && unchanged(this)
      ensures old(hasContainer) && !old(hasInstance) && old(leafletLoaded) && !IsNullish(region) ==>
                && Built(region, markers, showsUserLocation, onMarkerPress, onRegionChangeComplete)
                && (ok <==> ReadablePrefix(markers) == |markers|)
      ensures windowListeners == old(windowListeners) && currentRun == old(currentRun) && nextClosure == old(nextClosure)
      ensures cssInjected == old(cssInjected) && scriptPending == old(scriptPending) && leafletLoaded == old(leafletLoaded)
    {
      ok := true;
      if !hasContainer || hasInstance {
        return;
      }
      if !leafletLoaded || IsNullish(region) {
        ok := false;
        return;
      }
      ghost var tile := nextHandle;
      NewInstance(region, onRegionChangeComplete);
      ghost var before, held, next := layers, markersRef, nextHandle;
      ok := UpdateMarkers(markers, showsUserLocation, region, onMarkerPress);
      UntouchedLayerKept(before, held, next, layers, markersRef, RefreshPins(markers, showsUserLocation, region, onMarkerPress), None, tile);
      assert layers[tile] == TileLayer;
      forall h | h in layers
        ensures layers[h] == TileLayer || h in markersRef
      {
        assert (h in before && h !in held) || h in markersRef;
      }
    }

    /** `L.map(..).setView(..)`, the tile layer and the `moveend` listener. */
    method NewInstance(region: Value, onRegionChangeComplete: Value)
      requires Valid() && hasContainer && !hasInstance && leafletLoaded
      modifies this
      ensures Valid()
      ensures hasInstance && view == Some(CentreOn(region))
      ensures moveendCallback == if Truthy(onRegionChangeComplete) then Some(onRegionChangeComplete) else None
      ensures layers == map[old(nextHandle) := TileLayer] && nextHandle == old(nextHandle) + 1
      ensures markersRef == old(markersRef) && hasContainer && leafletLoaded
      ensures windowListeners == old(windowListeners) && currentRun == old(currentRun) && nextClosure == old(nextClosure)
      ensures cssInjected == old(cssInjected) && scriptPending == old(scriptPending)
    {
      hasInstance := true;
      view := Some(CentreOn(region));
      layers := map[nextHandle := TileLayer];
      nextHandle := nextHandle + 1;
      moveendCallback := if Truthy(onRegionChangeComplete) then Some(onRegionChangeComplete) else None;
    }

    /** `updateMarkers`: a no-op without an instance or library. Otherwise
        every pin in `markersRef` is removed; the user pin (when wanted) and
        then one pin per marker are added and pushed onto `markersRef`. A
        marker whose coordinate is nullish throws a TypeError: the pins added
        before it stay, and `ok` is false. */
    method UpdateMarkers(markers: seq<Record>, showsUserLocation: Value, region: Value, onMarkerPress: Value)
      returns (ok: bool)
      requires Valid()
      modifies this
      ensures Valid()
      ensures !(old(hasInstance) && old(leafletLoaded)) ==> ok && unchanged(this)
      ensures old(hasInstance) && old(leafletLoaded) ==>
                && (ok <==> ReadablePrefix(markers) == |markers|)
                && Rebuilt(markers, showsUserLocation, region, onMarkerPress)
    {
      ok := true;
      if !hasInstance || !leafletLoaded {
        return;
      }
      var n := ReadablePrefix(markers);
      var ls, refs, userHandle, nh := RefreshLayers(layers, markersRef, nextHandle, None, RefreshPins(markers, showsUserLocation, region, onMarkerPress));
      layers := ls;
      nextHandle := nh;
      markersRef := refs;
      ok := n == |markers|;
    }

    /** The marker effect runs `updateMarkers` on every change of markers,
        user-location flag or region, so the user pin follows the region. */
    method MarkersEffect(markers: seq<Record>, showsUserLocation: Value, region: Value, onMarkerPress: Value)
      returns (ok: bool)
      requires Valid()
      modifies this
      ensures Valid()
      ensures old(hasInstance) && old(leafletLoaded) && Truthy(showsUserLocation) && Truthy(region) ==>
                |markersRef| >= 1 && markersRef[0] in layers
                && layers[markersRef[0]] == UserLocationPin(Prop(region, "latitude"), Prop(region, "longitude"))
      ensures !(old(hasInstance) && old(leafletLoaded)) ==> ok && unchanged(this)
      ensures old(hasInstance) && old(leafletLoaded) ==>
                && (ok <==> ReadablePrefix(markers) == |markers|)
                && Rebuilt(markers, showsUserLocation, region, onMarkerPress)
    {
      ok := UpdateMarkers(markers, showsUserLocation, region, onMarkerPress);
    }

    /** The region effect: recentre at zoom 13 on every region change. */
    method RegionEffect(region: Value)
      requires Valid()
      modifies this
      ensures Valid()
      ensures old(hasInstance) && Truthy(region) ==> view == Some(CentreOn(region))
      ensures !(old(hasInstance) && Truthy(region)) ==> unchanged(this)
      ensures layers == old(layers) && markersRef == old(markersRef) && hasInstance == old(hasInstance)
      ensures nextHandle == old(nextHandle) && moveendCallback == old(moveendCallback)
      ensures PageKept() && ListenersKept()
    {
      if hasInstance && Truthy(region) {
        view := Some(CentreOn(region));
      }
    }

    /** The listener effect's cleanup: remove exactly the listeners of the
        live run, by the names that run recorded. */
    method ListenerCleanup()
      requires Valid()
      modifies this
      ensures Valid()
      ensures currentRun.None?
      ensures old(currentRun).None? ==> unchanged(this)
      ensures old(currentRun).Some? ==>
                windowListeners == Filter(old(windowListeners), KeptBy(old(currentRun).value.1, old(currentRun).value.0))
      ensures hasInstance == old(hasInstance) && layers == old(layers) && markersRef == old(markersRef)
      ensures nextClosure == old(nextClosure)
      ensures PageKept() && InstanceKept()
    {
      if currentRun.Some? {
        var (handler, names) := currentRun.value;
        var rest := RemoveListeners(windowListeners, names, handler);
        forall k | 0 <= k < |rest| ensures rest[k].handler < nextClosure {
          assert rest[k] in rest;
          var j :| 0 <= j < |windowListeners| && windowListeners[j] == rest[k];
        }
        windowListeners := rest;
        currentRun := None;
      }
    }

    /** The listener effect: after the previous run's cleanup, a new closure
        is registered for `marker-click-0` up to `marker-click-(n-1)`. */
    method ListenerEffect(markers: seq<Record>, onMarkerPress: Value)
      requires Valid()
      modifies this
      ensures Valid()
      ensures currentRun.Some? && |currentRun.value.1| == |markers|
      ensures forall i :: 0 <= i < |markers| ==> currentRun.value.1[i] == ClickEventName(i)
      ensures old(currentRun).None? ==>
                windowListeners == old(windowListeners) + Registered(|markers|, currentRun.value.0, onMarkerPress)
      ensures old(currentRun).Some? ==>
                windowListeners == Filter(old(windowListeners), KeptBy(old(currentRun).value.1, old(currentRun).value.0))
                                   + Registered(|markers|, currentRun.value.0, onMarkerPress)
      ensures currentRun.value.0 == old(nextClosure) && nextClosure == old(nextClosure) + 1
      ensures forall k :: 0 <= k < |old(windowListeners)| ==> old(windowListeners)[k].handler != currentRun.value.0
      ensures hasInstance == old(hasInstance) && layers == old(layers) && markersRef == old(markersRef)
      ensures PageKept() && InstanceKept()
    {
      ListenerCleanup();
      var handler := nextClosure;
      nextClosure := nextClosure + 1;
      var ws, names := RegisterListeners(windowListeners, |markers|, handler, onMarkerPress);
      windowListeners := ws;
      currentRun := Some((handler, names));
    }

    /** A press on the popup button of the pin with handle `h`: the
        callbacks invoked, each with the pin's payload (the marker's fields
        plus its index), or none when the pin has no button. */
    method PressPopupButton(h: nat) returns (calls: seq<Value>, detail: Option<Record>)
      requires Valid()
      ensures detail.Some? <==> h in layers && layers[h].StorePin? && layers[h].popup.button.Some?
                                && layers[h].popup.button.value.DispatchMarkerClick?
      ensures detail.None? ==> calls == []
      ensures detail.Some? ==> && detail.value == layers[h].popup.button.value.detail
                               && calls == Dispatch(windowListeners, ClickEventName(layers[h].popup.button.value.index))
    {
      calls := [];
      detail := None;
      if h in layers && layers[h].StorePin? {
        var button := layers[h].popup.button;
        if button.Some? && button.value.DispatchMarkerClick? {
          detail := Some(button.value.detail);
          calls := Dispatch(windowListeners, ClickEventName(button.value.index));
        }
      }
    }

    /** `moveend`: the callback attached at initialisation receives the centre and the spans of the bounds. */
    method MoveEnd(lat: real, lng: real, north: real, south: real, east: real, west: real)
      returns (report: Option<(Value, RegionReport)>)
      requires Valid()
      ensures report.Some? <==> hasInstance && moveendCallback.Some?
      ensures report.Some? ==> (report.value.0 == moveendCallback.value
                                && report.value.1 == ReportRegion(lat, lng, north, south, east, west))
    {
      if hasInstance && moveendCallback.Some? {
        report := Some((moveendCallback.value, ReportRegion(lat, lng, north, south, east, west)));
      } else {
        report := None;
      }
    }

    /** Unmounting: the mount effect's cleanup removes the instance and nulls
        the ref, and React detaches `mapRef`, so a script that finishes
        loading afterwards builds no map. */
    method Cleanup()
      requires Valid()
      modifies this
      ensures Valid()
      ensures !hasContainer && !hasInstance && layers == map[] && view.None? && moveendCallback.None?
      ensures markersRef == old(markersRef) && windowListeners == old(windowListeners) && currentRun == old(currentRun)
      ensures leafletLoaded == old(leafletLoaded) && nextHandle == old(nextHandle) && nextClosure == old(nextClosure)
      ensures scriptPending == old(scriptPending) && cssInjected == old(cssInjected)
    {
      hasContainer := false;
      if hasInstance {
        hasInstance := false;
        layers := map[];
        view := None;
        moveendCallback := None;
      }
    }
  }

  /** A press on the button of input marker `i`'s pin, with only the
      listeners of one run over the same markers registered, invokes
      `onMarkerPress` exactly once, with that marker's fields plus `index: i`. */
  lemma ClickReachesItsMarker(markers: seq<Record>, onMarkerPress: Value, handler: nat, i: nat)
    requires i < |markers| && Truthy(onMarkerPress)
    ensures var pin := StorePins(markers, onMarkerPress)[i];
            && pin.popup.button == Some(DispatchMarkerClick(i, ClickDetail(markers[i], i)))
            && Dispatch(Registered(|markers|, handler, onMarkerPress), ClickEventName(i)) == [onMarkerPress]
  {
    DispatchRegistered(|markers|, handler, onMarkerPress, i);
  }
}
