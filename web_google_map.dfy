/** The browser map with provider failover: it loads the Google Maps script
    when an API key is configured, and any failure on the way (no key, a
    rejected key, a script error, a 15-second timeout, a missing API, a
    missing container, a failing constructor) records the error and falls
    back to Leaflet with OpenStreetMap tiles. Every marker refresh clears
    the previous pins and places the user pin and one pin per supermarket. */
module WebGoogleMap {
  import opened Common
  import opened JsValues
  import opened MapEngine

  /** The key value the example environment file ships with. */
  const PlaceholderApiKey: string := "your_google_maps_api_key_here"
  /** How long the script may take to call back, in milliseconds. */
  const ScriptTimeoutMs: nat := 15000

  const DefaultErrorMessage: string := "❓ 不明なエラーが発生しました"

  /** The message recorded for an error type; unknown types get the default. */
  function ErrorMessage(errorType: string): (message: string)
    ensures message == DefaultErrorMessage <==> errorType !in KnownErrorTypes
    ensures errorType == "NO_API_KEY" ==> message == "🔑 .envファイルにEXPO_PUBLIC_GOOGLE_MAPS_API_KEYを設定してください"
    ensures errorType == "AUTHENTICATION_FAILED" ==> message == "🚫 APIキーが無効または権限が不足しています"
    ensures errorType == "SCRIPT_LOAD_FAILED" ==> message == "📡 Google Maps APIスクリプトの読み込みに失敗しました"
    ensures errorType == "TIMEOUT" ==> message == "⏰ Google Maps APIの読み込みがタイムアウトしました"
    ensures errorType == "API_NOT_AVAILABLE" ==> message == "❌ Google Maps APIが利用できません"
    ensures errorType == "INITIALIZATION_FAILED" ==> message == "🔧 Google Mapの初期化に失敗しました"
    ensures errorType == "NO_CONTAINER" ==> message == "📦 地図コンテナが見つかりません"
  {
    if errorType in ErrorMessages then ErrorMessages[errorType] else DefaultErrorMessage
  }

  const KnownErrorTypes: set<string> := {"NO_API_KEY", "AUTHENTICATION_FAILED", "SCRIPT_LOAD_FAILED",
                                         "TIMEOUT", "API_NOT_AVAILABLE", "INITIALIZATION_FAILED", "NO_CONTAINER"}

  const ErrorMessages: map<string, string> := map[
    "NO_API_KEY" := "🔑 .envファイルにEXPO_PUBLIC_GOOGLE_MAPS_API_KEYを設定してください",
    "AUTHENTICATION_FAILED" := "🚫 APIキーが無効または権限が不足しています",
    "SCRIPT_LOAD_FAILED" := "📡 Google Maps APIスクリプトの読み込みに失敗しました",
    "TIMEOUT" := "⏰ Google Maps APIの読み込みがタイムアウトしました",
    "API_NOT_AVAILABLE" := "❌ Google Maps APIが利用できません",
    "INITIALIZATION_FAILED" := "🔧 Google Mapの初期化に失敗しました",
    "NO_CONTAINER" := "📦 地図コンテナが見つかりません"]

  /** A key is usable when it is set and is not the placeholder. */
  predicate UsableApiKey(apiKey: Value)
  {
    Truthy(apiKey) && apiKey != Str(PlaceholderApiKey)
  }

  /** The engine behind the map instance. */
  datatype Engine = GoogleMaps | OpenStreetMap

  /** The popup of a pin of the Google refresh (lines 302-325): name,
      address, the distance line when `distance_km` is truthy, and a button
      dispatching `supermarket-click` with the record. */
  function SupermarketPopup(s: Record): (p: Popup)
    ensures p.title == Get(s, "name") && p.description == Some(Get(s, "address"))
    ensures p.distance.Some? <==> Truthy(Get(s, "distance_km"))
    ensures p.distance.Some? ==> p.distance.value == Get(s, "distance_km")
    ensures p.button == Some(DispatchSupermarketClick(s))
  {
    Popup(Get(s, "name"), Some(Get(s, "address")),
          if Truthy(Get(s, "distance_km")) then Some(Get(s, "distance_km")) else None,
          Some(DispatchSupermarketClick(s)))
  }

  /** `JSON.stringify` leaves out the properties whose value is `undefined`
      or a function: the JSON text of a record has a field exactly when the
      record has a property of any other kind. */
  predicate JsonHasField(s: Record)
  {
    exists key :: key in s && !s[key].Undefined? && !s[key].Fn?
  }

  /** The popup button of a pin of the Leaflet refresh (line 390). The JSON
      text is not escaped, so for a record with a field the attribute ends
      right after `detail: {` and the script does not parse; only the text
      `{}` survives whole, dispatching an empty record. */
  function OsmButton(s: Record): (b: ButtonAction)
    ensures b.DispatchSupermarketClick? <==> !JsonHasField(s)
    ensures b.DispatchSupermarketClick? ==> b.detail == map[]
  {
    if JsonHasField(s) then InertScript(HandlerStart + "{") else DispatchSupermarketClick(map[])
  }

  /** The popup of a pin of the Leaflet refresh (lines 372-394): the same
      lines as the Google popup, with the button of the unescaped attribute. */
  function OsmPopup(s: Record): (p: Popup)
    ensures p.title == Get(s, "name") && p.description == Some(Get(s, "address"))
    ensures p.distance.Some? <==> Truthy(Get(s, "distance_km"))
    ensures p.distance.Some? ==> p.distance.value == Get(s, "distance_km")
    ensures p.button == Some(OsmButton(s))
  {
    SupermarketPopup(s).(button := Some(OsmButton(s)))
  }

  /** The popup of a supermarket pin on an engine. */
  function PopupOn(engine: Engine, s: Record): Popup
  {
    if engine == GoogleMaps then SupermarketPopup(s) else OsmPopup(s)
  }

  /** The pins of one refresh on an engine: the user pin first when
      `showsUserLocation && region`, then one pin per supermarket, in order,
      at its own latitude and longitude. */
  function RefreshPins(engine: Engine, supermarkets: seq<Record>, showsUserLocation: Value, region: Value): (pins: seq<Layer>)
    ensures var u := if Truthy(showsUserLocation) && Truthy(region) then 1 else 0;
            && |pins| == u + |supermarkets|
            && (u == 1 ==> pins[0] == UserLocationPin(Prop(region, "latitude"), Prop(region, "longitude")))
            && (forall k :: 0 <= k < |supermarkets| ==>
                  pins[u + k] == StorePin(Get(supermarkets[k], "latitude"), Get(supermarkets[k], "longitude"),
                                         PopupOn(engine, supermarkets[k])))
  {
    (if Truthy(showsUserLocation) && Truthy(region)
     then [UserLocationPin(Prop(region, "latitude"), Prop(region, "longitude"))] else [])
    + seq(|supermarkets|, k requires 0 <= k < |supermarkets| =>
            StorePin(Get(supermarkets[k], "latitude"), Get(supermarkets[k], "longitude"), PopupOn(engine, supermarkets[k])))
  }

  /** Which refresh the marker effect runs: Google's exactly when the Google
      API is present and no error has been recorded. */
  function RefreshEngine(googleMapsPresent: bool, loadError: bool): (e: Engine)
    ensures e == GoogleMaps <==> googleMapsPresent && !loadError
  {
    if googleMapsPresent && !loadError then GoogleMaps else OpenStreetMap
  }

  // ----- the popup button's `onclick` attribute ------------------------------

  /** The script of the popup button of a supermarket, around the detail text. */
  const HandlerStart: string := "window.dispatchEvent(" + "new CustomEvent(" + "'supermarket-click', " + "{ detail: "
  const HandlerEnd: string := " }))"

  /** The script of the popup button of a supermarket, for the detail text `json`. */
  function OnclickHandler(json: string): string
  {
    HandlerStart + json + HandlerEnd
  }

  /** Neither double quotes nor ampersands occur around the detail text. */
  lemma HandlerTextPlain()
    ensures '"' !in HandlerStart && '&' !in HandlerStart
    ensures '"' !in HandlerEnd && '&' !in HandlerEnd
  {
    HandlerTextFree('"');
    HandlerTextFree('&');
  }

  lemma HandlerTextFree(c: char)
    requires c == '"' || c == '&'
    ensures c !in HandlerStart && c !in HandlerEnd
  {
    assert c !in "window.dispatchEvent(";
    assert c !in "new CustomEvent(";
    assert c !in "'supermarket-click', ";
    assert c !in "{ detail: ";
  }

  /** An attribute written `onclick="..."` ends at the first double quote. */
  function AttributeValue(raw: string): (v: string)
    ensures v <= raw && '"' !in v
    ensures |v| < |raw| ==> raw[|v|] == '"'
  {
    if raw == [] || raw[0] == '"' then [] else [raw[0]] + AttributeValue(raw[1..])
  }

  /** `.replace(/"/g, '&quot;')`. */
  function EscapeQuotes(t: string): (e: string)
    ensures '"' !in e
  {
    if t == [] then [] else (if t[0] == '"' then "&quot;" else [t[0]]) + EscapeQuotes(t[1..])
  }

  /** The browser's decoding of `&quot;` in an attribute value. */
  function DecodeQuotes(t: string): string
  {
    if |t| >= 6 && t[..6] == "&quot;" then "\"" + DecodeQuotes(t[6..])
    else if t == [] then []
    else [t[0]] + DecodeQuotes(t[1..])
  }

  /** The attribute of the Leaflet popup as written: the JSON text without escaping. */
  function OsmOnclickAsWritten(json: string): (v: string)
    ensures v <= OnclickHandler(json)
  {
    AttributeValue(OnclickHandler(json))
  }

  /** The attribute with the quotes escaped, as the Google popup does it. */
  function OnclickAttribute(json: string): (v: string)
    ensures '"' !in v
  {
    HandlerTextPlain();
    OnclickHandler(EscapeQuotes(json))
  }

  lemma {:induction false} AttributeValueAppend(prefix: string, rest: string)
    requires '"' !in prefix
    ensures AttributeValue(prefix + rest) == prefix + AttributeValue(rest)
  {
    if prefix != [] {
      assert (prefix + rest)[1..] == prefix[1..] + rest;
      AttributeValueAppend(prefix[1..], rest);
    } else {
      assert prefix + rest == rest;
    }
  }

  lemma {:induction false} AttributeValueWhole(raw: string)
    requires '"' !in raw
    ensures AttributeValue(raw) == raw
  {
    if raw != [] {
      AttributeValueWhole(raw[1..]);
    }
  }

  /** The JSON text of a record with at least one field starts with the
      quoted first key, so the unescaped attribute stops right after `{`:
      the handler is cut short and the button does nothing. */
  lemma OsmOnclickTruncated(json: string)
    requires |json| >= 2 && json[..2] == "{\""
    ensures OsmOnclickAsWritten(json) == HandlerStart + "{"
    ensures OsmOnclickAsWritten(json) != OnclickHandler(json)
  {
    HandlerTextPlain();
    var prefix := HandlerStart + "{";
    var rest := json[1..] + HandlerEnd;
    assert OnclickHandler(json) == prefix + rest;
    AttributeValueAppend(prefix, rest);
    assert rest[0] == '"';
  }

  lemma {:induction false} DecodeEscaped(json: string, rest: string)
    requires '&' !in json
    ensures DecodeQuotes(EscapeQuotes(json) + rest) == json + DecodeQuotes(rest)
  {
    if json == [] {
      assert EscapeQuotes(json) + rest == rest;
    } else {
      var tail := EscapeQuotes(json[1..]) + rest;
      EscapeStep(json, rest);
      DecodeEscaped(json[1..], rest);
      if json[0] == '"' {
        DecodeQuotEntity(tail);
      } else {
        DecodeOther(json[0], tail);
      }
      HeadThenTail(json, DecodeQuotes(rest));
    }
  }

  lemma EscapeStep(json: string, rest: string)
    requires json != []
    ensures EscapeQuotes(json) + rest
            == (if json[0] == '"' then "&quot;" else [json[0]]) + (EscapeQuotes(json[1..]) + rest)
  {
  }

  lemma HeadThenTail(s: string, d: string)
    requires s != []
    ensures [s[0]] + (s[1..] + d) == s + d
  {
    assert s == [s[0]] + s[1..];
  }

  lemma DecodeQuotEntity(t: string)
    ensures DecodeQuotes("&quot;" + t) == "\"" + DecodeQuotes(t)
  {
    assert ("&quot;" + t)[..6] == "&quot;";
    assert ("&quot;" + t)[6..] == t;
  }

  lemma DecodeOther(c: char, t: string)
    requires c != '&'
    ensures DecodeQuotes([c] + t) == [c] + DecodeQuotes(t)
  {
    if |[c] + t| >= 6 {
      assert ([c] + t)[..6][0] == c;
    }
    assert ([c] + t)[1..] == t;
  }

  lemma {:induction false} DecodePlain(t: string)
    requires '&' !in t
    ensures DecodeQuotes(t) == t
  {
    if t != [] {
      if |t| >= 6 {
        assert t[..6][0] == t[0];
      }
      DecodePlain(t[1..]);
    }
  }

  /** With the quotes escaped the whole handler is the attribute value, and
      the browser's decoding gives back the handler over the original JSON
      text (for JSON without `&`, which the escaping leaves as it is). */
  lemma OnclickAttributeSurvives(json: string)
    requires '&' !in json
    ensures AttributeValue(OnclickAttribute(json)) == OnclickAttribute(json)
    ensures DecodeQuotes(OnclickAttribute(json)) == OnclickHandler(json)
  {
    AttributeValueWhole(OnclickAttribute(json));
    HandlerTextPlain();
    var prefix := HandlerStart;
    var suffix := HandlerEnd;
    assert OnclickAttribute(json) == prefix + (EscapeQuotes(json) + suffix);
    DecodeEscapedAfter(prefix, EscapeQuotes(json) + suffix);
    DecodeEscaped(json, suffix);
    DecodePlain(suffix);
  }

  /** The button of a pin of the Leaflet refresh is what the browser makes
      of the unescaped attribute over the record's JSON text `json`: for a
      record with a field (whose JSON starts with its quoted first key) the
      script is cut short; for one without, `{}` reaches the browser whole. */
  lemma OsmButtonIsAttributeAsWritten(s: Record, json: string)
    requires JsonHasField(s) ==> |json| >= 2 && json[..2] == "{\""
    requires !JsonHasField(s) ==> json == "{}"
    ensures JsonHasField(s) ==> OsmButton(s) == InertScript(OsmOnclickAsWritten(json))
                                && OsmOnclickAsWritten(json) != OnclickHandler(json)
    ensures !JsonHasField(s) ==> OsmOnclickAsWritten(json) == OnclickHandler(json)
  {
    if JsonHasField(s) {
      OsmOnclickTruncated(json);
    } else {
      HandlerTextPlain();
      assert '"' !in "{}";
      assert '"' !in OnclickHandler(json);
      AttributeValueWhole(OnclickHandler(json));
    }
  }

  lemma {:induction false} DecodeEscapedAfter(prefix: string, rest: string)
    requires '&' !in prefix
    ensures DecodeQuotes(prefix + rest) == prefix + DecodeQuotes(rest)
  {
    if prefix == [] {
      assert prefix + rest == rest;
    } else {
      assert (prefix + rest)[1..] == prefix[1..] + rest;
      if |prefix + rest| >= 6 {
        assert (prefix + rest)[..6][0] == prefix[0];
      }
      DecodeEscapedAfter(prefix[1..], rest);
    }
  }

  class WebGoogleMapComponent {
    // the page
    var hasContainer: bool                // `mapRef.current` is set
    var googleMapsPresent: bool           // `window.google && window.google.maps`
    var scriptInjected: bool              // the Maps script tag is in the document
    var callbackInstalled: bool           // the script's global callback is defined
    var authHandlerInstalled: bool        // `window.gm_authFailure` is defined
    var timeoutPending: bool              // the 15-second timer is armed
    var pendingLeafletImports: nat        // `import('leaflet')` of the fallback, not yet settled
    var storedError: Option<(string, string)>  // the error type and message last saved
    var mountRegion: Value                // the region the mount-time closures see
    // the component's state
    var isLoaded: bool
    var loadError: bool
    var instance: Option<Engine>
    var layers: map<nat, Layer>
    var nextHandle: nat
    var view: Option<View>
    var markersRef: seq<nat>
    var pendingOsmRefreshes: seq<(seq<Record>, Value, Value)>  // refreshes waiting for `import('leaflet')`
    var clickListener: Option<Value>      // the `supermarket-click` listener's `onMarkerPress`

    ghost predicate Valid()
      reads this
    {
      && HandlesBelow(layers, markersRef, nextHandle)
      && (isLoaded ==> instance.Some?)
      && (instance.None? ==> layers == map[] && view.None? && markersRef == [])
      && (instance.Some? ==> view.Some?)
      && ((callbackInstalled || timeoutPending || authHandlerInstalled) ==> scriptInjected)
      && (pendingLeafletImports > 0 ==> loadError)
      && (instance == Some(OpenStreetMap) ==> loadError)
    }

    /** The page's side of the component is as it was: the script, its
        callbacks and timer, the stored error, the fallback imports and the
        `supermarket-click` listener. */
    twostate predicate PageKept()
      reads this
    {
      && ScriptKept()
      && pendingLeafletImports == old(pendingLeafletImports) && storedError == old(storedError)
      && mountRegion == old(mountRegion)
    }

    /** The container, the Maps API, the script with its callbacks and
        timer, and the `supermarket-click` listener are as they were. */
    twostate predicate ScriptKept()
      reads this
    {
      && hasContainer == old(hasContainer) && googleMapsPresent == old(googleMapsPresent)
      && scriptInjected == old(scriptInjected) && callbackInstalled == old(callbackInstalled)
      && authHandlerInstalled == old(authHandlerInstalled) && timeoutPending == old(timeoutPending)
      && clickListener == old(clickListener)
    }

    /** The map's layers, view and ref, and the queued Leaflet refreshes, are as they were. */
    twostate predicate MapKept()
      reads this
    {
      && layers == old(layers) && nextHandle == old(nextHandle) && view == old(view)
      && markersRef == old(markersRef) && pendingOsmRefreshes == old(pendingOsmRefreshes)
    }

    /** `handleGoogleMapsError(errorType)` ran: the error and its message are
        stored, `loadError` is set and one more fallback import is started;
        the status and the map stay. */
    twostate predicate Errored(errorType: string)
      reads this
    {
      && storedError == Some((errorType, ErrorMessage(errorType)))
      && loadError && pendingLeafletImports == old(pendingLeafletImports) + 1
      && isLoaded == old(isLoaded) && instance == old(instance)
      && MapKept()
    }

    /** What one `initializeGoogleMap` did, read against the container, the
        API and the mount-time region at the call: each of the three checks
        that fails goes through `handleGoogleMapsError` with its own error
        type; an existing instance ends it with nothing changed; otherwise a
        Google map centred on the region and `isLoaded`. */
    twostate predicate InitOutcome(constructorThrows: bool)
      reads this
    {
      && (!hasContainer ==> Errored("NO_CONTAINER"))
      && (hasContainer && old(instance).Some? ==>
            && StatusKept() && MapKept()
            && storedError == old(storedError) && pendingLeafletImports == old(pendingLeafletImports))
      && (hasContainer && old(instance).None? && !googleMapsPresent ==> Errored("API_NOT_AVAILABLE"))
      && (hasContainer && old(instance).None? && googleMapsPresent && (constructorThrows || IsNullish(mountRegion)) ==>
            Errored("INITIALIZATION_FAILED"))
      && (hasContainer && old(instance).None? && googleMapsPresent && !constructorThrows && !IsNullish(mountRegion) ==>
            && instance == Some(GoogleMaps) && isLoaded && view == Some(CentreOn(mountRegion))
            && loadError == old(loadError) && storedError == old(storedError)
            && pendingLeafletImports == old(pendingLeafletImports)
            && layers == old(layers) && nextHandle == old(nextHandle) && markersRef == old(markersRef)
            && pendingOsmRefreshes == old(pendingOsmRefreshes))
    }

    /** The component's status is as it was: loaded, errored, which instance. */
    twostate predicate StatusKept()
      reads this
    {
      isLoaded == old(isLoaded) && loadError == old(loadError) && instance == old(instance)
    }

    constructor(hasContainer: bool, googleMapsPresent: bool)
      ensures Valid()
      ensures this.hasContainer == hasContainer && this.googleMapsPresent == googleMapsPresent
      ensures !isLoaded && !loadError && instance.None? && !scriptInjected && pendingLeafletImports == 0
      ensures storedError.None? && clickListener.None? && pendingOsmRefreshes == []
    {
      this.hasContainer := hasContainer;
      this.googleMapsPresent := googleMapsPresent;
      scriptInjected := false;
      callbackInstalled := false;
      authHandlerInstalled := false;
      timeoutPending := false;
      pendingLeafletImports := 0;
      storedError := None;
      mountRegion := Undefined;
      isLoaded := false;
      loadError := false;
      instance := None;
      layers := map[];
      nextHandle := 0;
      view := None;
      markersRef := [];
      pendingOsmRefreshes := [];
      clickListener := None;
    }

    /** `handleGoogleMapsError`: save the error and its message, set
        `loadError` and start loading the fallback. */
    method HandleError(errorType: string)
      requires Valid()
      modifies this
      ensures Valid()
      ensures storedError == Some((errorType, ErrorMessage(errorType)))
      ensures loadError && pendingLeafletImports == old(pendingLeafletImports) + 1
      ensures isLoaded == old(isLoaded) && instance == old(instance) && layers == old(layers)
      ensures view == old(view) && markersRef == old(markersRef) && nextHandle == old(nextHandle)
      ensures scriptInjected == old(scriptInjected) && callbackInstalled == old(callbackInstalled)
      ensures timeoutPending == old(timeoutPending) && authHandlerInstalled == old(authHandlerInstalled)
      ensures googleMapsPresent == old(googleMapsPresent) && hasContainer == old(hasContainer)
      ensures mountRegion == old(mountRegion) && pendingOsmRefreshes == old(pendingOsmRefreshes)
      ensures clickListener == old(clickListener)
      ensures Errored(errorType) && ScriptKept()
    {
      storedError := Some((errorType, ErrorMessage(errorType)));
      loadError := true;
      pendingLeafletImports := pendingLeafletImports + 1;
    }

    /** The mount effect (web only): `loadGoogleMaps` with the configured key. */
    method Mount(onWeb: bool, apiKey: Value, region: Value, constructorThrows: bool)
      requires Valid()
      modifies this
      ensures Valid()
      ensures !onWeb ==> unchanged(this)
      ensures onWeb ==> mountRegion == region
      ensures onWeb && !UsableApiKey(apiKey) ==>
                && storedError == Some(("NO_API_KEY", ErrorMessage("NO_API_KEY")))
                && loadError && scriptInjected == old(scriptInjected)
                && pendingLeafletImports == old(pendingLeafletImports) + 1
                && instance == old(instance)
      ensures onWeb && UsableApiKey(apiKey) && old(googleMapsPresent) ==> scriptInjected == old(scriptInjected)
      ensures onWeb && UsableApiKey(apiKey) && old(googleMapsPresent) && old(hasContainer) && old(instance).None?
              && !constructorThrows && !IsNullish(region) ==>
                instance == Some(GoogleMaps) && isLoaded && loadError == old(loadError)
      ensures onWeb && UsableApiKey(apiKey) && !old(googleMapsPresent) ==>
                && scriptInjected && callbackInstalled && authHandlerInstalled && timeoutPending
                && instance == old(instance) && loadError == old(loadError)
      ensures onWeb && !UsableApiKey(apiKey) ==> Errored("NO_API_KEY") && ScriptKept()
      ensures onWeb && UsableApiKey(apiKey) && old(googleMapsPresent) ==> InitOutcome(constructorThrows) && ScriptKept()
      ensures onWeb && UsableApiKey(apiKey) && !old(googleMapsPresent) ==>
                && StatusKept() && MapKept() && storedError == old(storedError)
                && pendingLeafletImports == old(pendingLeafletImports)
                && hasContainer == old(hasContainer) && !googleMapsPresent && clickListener == old(clickListener)
    {
      if !onWeb {
        return;
      }
      mountRegion := region;
      if !UsableApiKey(apiKey) {
        HandleError("NO_API_KEY");
        return;
      }
      if googleMapsPresent {
        InitializeGoogleMap(constructorThrows);
      } else {
        InjectScript();
      }
    }

    /** The Maps API is absent: the script is injected with its callback, its
        authentication handler and its timeout; any earlier Maps script is
        replaced by this one. */
    method InjectScript()
      requires Valid()
      modifies this
      ensures Valid()
      ensures scriptInjected && callbackInstalled && authHandlerInstalled && timeoutPending
      ensures StatusKept() && MapKept()
      ensures storedError == old(storedError) && pendingLeafletImports == old(pendingLeafletImports)
      ensures hasContainer == old(hasContainer) && googleMapsPresent == old(googleMapsPresent)
      ensures clickListener == old(clickListener) && mountRegion == old(mountRegion)
    {
      scriptInjected, authHandlerInstalled, callbackInstalled, timeoutPending := true, true, true, true;
    }

    /** `initializeGoogleMap`, at the mount-time region: no container is an
        error, an existing instance ends it quietly, a missing API is an
        error, a throwing constructor (a nullish region among the causes) is
        an error; otherwise a Google map centred at zoom 13 and `isLoaded`. */
    method InitializeGoogleMap(constructorThrows: bool)
      requires Valid()
      modifies this
      ensures Valid()
      ensures !old(hasContainer) ==> storedError == Some(("NO_CONTAINER", ErrorMessage("NO_CONTAINER")))
                                     && loadError && instance == old(instance)
      ensures old(hasContainer) && old(instance).Some? ==> unchanged(this)
      ensures old(hasContainer) && old(instance).None? && !old(googleMapsPresent) ==>
                storedError == Some(("API_NOT_AVAILABLE", ErrorMessage("API_NOT_AVAILABLE"))) && loadError && instance.None?
      ensures old(hasContainer) && old(instance).None? && old(googleMapsPresent) && (constructorThrows || IsNullish(mountRegion)) ==>
                storedError == Some(("INITIALIZATION_FAILED", ErrorMessage("INITIALIZATION_FAILED"))) && loadError && instance.None?
      ensures old(hasContainer) && old(instance).None? && old(googleMapsPresent) && !constructorThrows && !IsNullish(mountRegion) ==>
                && instance == Some(GoogleMaps) && view == Some(CentreOn(mountRegion)) && isLoaded
                && loadError == old(loadError) && storedError == old(storedError)
                && pendingLeafletImports == old(pendingLeafletImports)
      ensures instance.Some? ==> instance == old(instance) || instance == Some(GoogleMaps)
      ensures timeoutPending == old(timeoutPending) && callbackInstalled == old(callbackInstalled)
      ensures authHandlerInstalled == old(authHandlerInstalled) && scriptInjected == old(scriptInjected)
      ensures googleMapsPresent == old(googleMapsPresent) && hasContainer == old(hasContainer)
      ensures mountRegion == old(mountRegion) && clickListener == old(clickListener)
      ensures pendingLeafletImports <= old(pendingLeafletImports) + 1
      ensures InitOutcome(constructorThrows) && ScriptKept()
    {
      if !hasContainer {
        HandleError("NO_CONTAINER");
        return;
      }
      if instance.Some? {
        return;
      }
      if !googleMapsPresent {
        HandleError("API_NOT_AVAILABLE");
        return;
      }
      if constructorThrows || IsNullish(mountRegion) {
        HandleError("INITIALIZATION_FAILED");
        return;
      }
      instance := Some(GoogleMaps);
      view := Some(CentreOn(mountRegion));
      isLoaded := true;
    }

    /** The Maps script ran: the API is defined, and if the callback is
        still installed it clears the timer, deletes itself and initialises. */
    method ScriptLoaded(constructorThrows: bool)
      requires Valid() && scriptInjected
      modifies this
      ensures Valid()
      ensures googleMapsPresent
      ensures old(callbackInstalled) ==> !timeoutPending && !callbackInstalled
      ensures old(callbackInstalled) && old(hasContainer) && old(instance).None? && !constructorThrows && !IsNullish(mountRegion) ==>
                instance == Some(GoogleMaps) && isLoaded
      ensures !old(callbackInstalled) ==> timeoutPending == old(timeoutPending) && instance == old(instance)
                                          && loadError == old(loadError)
      ensures old(callbackInstalled) ==> InitOutcome(constructorThrows)
      ensures !old(callbackInstalled) ==> && StatusKept() && MapKept() && storedError == old(storedError)
                                          && pendingLeafletImports == old(pendingLeafletImports)
      ensures hasContainer == old(hasContainer) && scriptInjected == old(scriptInjected)
      ensures authHandlerInstalled == old(authHandlerInstalled)
      ensures !old(callbackInstalled) ==> callbackInstalled == old(callbackInstalled)
      ensures mountRegion == old(mountRegion) && clickListener == old(clickListener)
    {
      googleMapsPresent := true;
      if callbackInstalled {
        timeoutPending := false;
        callbackInstalled := false;
        InitializeGoogleMap(constructorThrows);
      }
    }

    /** The script's `onerror`: the callback is deleted and the error
        handled; the timer is NOT cleared. */
    method ScriptFailed()
      requires Valid() && scriptInjected
      modifies this
      ensures Valid()
      ensures !callbackInstalled && timeoutPending == old(timeoutPending)
      ensures storedError == Some(("SCRIPT_LOAD_FAILED", ErrorMessage("SCRIPT_LOAD_FAILED"))) && loadError
      ensures pendingLeafletImports == old(pendingLeafletImports) + 1 && instance == old(instance)
      ensures Errored("SCRIPT_LOAD_FAILED")
      ensures hasContainer == old(hasContainer) && googleMapsPresent == old(googleMapsPresent)
      ensures scriptInjected == old(scriptInjected) && authHandlerInstalled == old(authHandlerInstalled)
      ensures mountRegion == old(mountRegion) && clickListener == old(clickListener)
    {
      callbackInstalled := false;
      HandleError("SCRIPT_LOAD_FAILED");
    }

    /** The timer fires unless it was cleared: the callback is deleted and a
        TIMEOUT handled, even after a script error was already handled. */
    method TimeoutFired()
      requires Valid()
      modifies this
      ensures Valid()
      ensures !old(timeoutPending) ==> unchanged(this)
      ensures old(timeoutPending) ==> && !timeoutPending && !callbackInstalled
                                      && storedError == Some(("TIMEOUT", ErrorMessage("TIMEOUT"))) && loadError
                                      && pendingLeafletImports == old(pendingLeafletImports) + 1
                                      && instance == old(instance)
                                      && Errored("TIMEOUT")
      ensures hasContainer == old(hasContainer) && googleMapsPresent == old(googleMapsPresent)
      ensures scriptInjected == old(scriptInjected) && authHandlerInstalled == old(authHandlerInstalled)
      ensures mountRegion == old(mountRegion) && clickListener == old(clickListener)
    {
      if timeoutPending {
        timeoutPending := false;
        callbackInstalled := false;
        HandleError("TIMEOUT");
      }
    }

    /** Google reports a rejected key through `gm_authFailure`, also after a
        Google map has been created: the error is handled, but the instance
        stays the Google map. */
    method AuthenticationFailed()
      requires Valid()
      modifies this
      ensures Valid()
      ensures !old(authHandlerInstalled) ==> unchanged(this)
      ensures old(authHandlerInstalled) ==> && storedError == Some(("AUTHENTICATION_FAILED", ErrorMessage("AUTHENTICATION_FAILED")))
                                            && loadError && instance == old(instance) && isLoaded == old(isLoaded)
                                            && pendingLeafletImports == old(pendingLeafletImports) + 1
                                            && Errored("AUTHENTICATION_FAILED")
      ensures ScriptKept() && mountRegion == old(mountRegion)
    {
      if authHandlerInstalled {
        HandleError("AUTHENTICATION_FAILED");
      }
    }

    /** One fallback `import('leaflet')` settles. A failure sets `loadError`
        and clears `isLoaded`. A success runs `initializeOpenStreetMap` at the
        mount-time region: nothing without a container or with an existing
        instance (of either engine); a throwing constructor sets `loadError`
        and clears `isLoaded`; otherwise a Leaflet map at zoom 13 with a tile
        layer, and `isLoaded`. */
    method LeafletImportSettled(succeeded: bool, constructorThrows: bool)
      requires Valid() && pendingLeafletImports > 0
      modifies this
      ensures Valid()
      ensures pendingLeafletImports == old(pendingLeafletImports) - 1
      ensures old(instance).Some? ==> instance == old(instance) && layers == old(layers) && view == old(view)
      ensures !succeeded ==> loadError && !isLoaded
      ensures succeeded && old(hasContainer) && old(instance).None? && (constructorThrows || IsNullish(mountRegion)) ==>
                loadError && !isLoaded && instance.None?
      ensures succeeded && old(hasContainer) && old(instance).None? && !constructorThrows && !IsNullish(mountRegion) ==>
                && instance == Some(OpenStreetMap) && isLoaded && view == Some(CentreOn(mountRegion))
                && Shows(layers, TileLayer) && loadError == old(loadError)
                && layers == map[old(nextHandle) := TileLayer] && nextHandle == old(nextHandle) + 1
      ensures succeeded && (!old(hasContainer) || old(instance).Some?) ==>
                isLoaded == old(isLoaded) && loadError == old(loadError) && instance == old(instance)
      ensures !(succeeded && old(hasContainer) && old(instance).None? && !constructorThrows && !IsNullish(mountRegion)) ==>
                instance == old(instance) && layers == old(layers) && nextHandle == old(nextHandle) && view == old(view)
      ensures storedError == old(storedError) && timeoutPending == old(timeoutPending)
      ensures ScriptKept() && mountRegion == old(mountRegion)
      ensures markersRef == old(markersRef) && pendingOsmRefreshes == old(pendingOsmRefreshes)
    {
      pendingLeafletImports := pendingLeafletImports - 1;
      if !succeeded {
        loadError := true;
        isLoaded := false;
        return;
      }
      if !hasContainer || instance.Some? {
        return;
      }
      if constructorThrows || IsNullish(mountRegion) {
        loadError := true;
        isLoaded := false;
        return;
      }
      NewLeafletInstance();
    }

    /** `L.map(..).setView(..)` at the mount-time region and the tile layer,
        then `isLoaded`. */
    method NewLeafletInstance()
      requires Valid() && instance.None? && loadError
      modifies this
      ensures Valid()
      ensures instance == Some(OpenStreetMap) && isLoaded && view == Some(CentreOn(mountRegion))
      ensures layers == map[old(nextHandle) := TileLayer] && nextHandle == old(nextHandle) + 1
      ensures Shows(layers, TileLayer)
      ensures loadError && PageKept() && markersRef == old(markersRef) && pendingOsmRefreshes == old(pendingOsmRefreshes)
    {
      instance, view, isLoaded := Some(OpenStreetMap), Some(CentreOn(mountRegion)), true;
      layers, nextHandle := map[nextHandle := TileLayer], nextHandle + 1;
      assert layers[nextHandle - 1] == TileLayer;
    }

    /** The marker effect: with a loaded instance, the Google refresh when
        the Google API is present and no error was recorded, otherwise a
        Leaflet refresh once `import('leaflet')` settles. */
    method MarkersEffect(supermarkets: seq<Record>, showsUserLocation: Value, region: Value)
      returns (ok: bool, engine: Option<Engine>)
      requires Valid()
      modifies this
      ensures Valid()
      ensures engine.Some? <==> old(isLoaded) && old(instance).Some?
      ensures engine.Some? ==> engine.value == RefreshEngine(old(googleMapsPresent), old(loadError))
      ensures engine == Some(GoogleMaps) ==>
                && (ok <==> !IsNullish(region))
                && PinsRebuilt(old(layers), old(markersRef), old(nextHandle), layers, markersRef,
                               RefreshPins(GoogleMaps, supermarkets, showsUserLocation, region), None)
                && pendingOsmRefreshes == old(pendingOsmRefreshes)
      ensures engine == Some(OpenStreetMap) ==>
                ok && pendingOsmRefreshes == old(pendingOsmRefreshes) + [(supermarkets, showsUserLocation, region)]
                && layers == old(layers) && markersRef == old(markersRef) && nextHandle == old(nextHandle)
                && view == old(view)
      ensures engine.None? ==> ok && unchanged(this)
      ensures PageKept() && StatusKept()
    {
      ok := true;
      engine := None;
      if isLoaded && instance.Some? {
        engine := Some(RefreshEngine(googleMapsPresent, loadError));
        if engine == Some(GoogleMaps) {
          assert instance == Some(GoogleMaps) by {
            assert instance != Some(OpenStreetMap);
            assert instance.value == GoogleMaps;
          }
          ok := UpdateGoogleMapsMarkers(supermarkets, showsUserLocation, region);
        } else {
          pendingOsmRefreshes := pendingOsmRefreshes + [(supermarkets, showsUserLocation, region)];
        }
      }
    }

    /** `updateGoogleMapsMarkers`, which the marker effect runs only over a
        Google map: `setMap(null)` on every held marker, then the user marker
        and one marker per supermarket, then `setCenter` on the region, which
        throws for a nullish region after the pins are placed. */
    method UpdateGoogleMapsMarkers(supermarkets: seq<Record>, showsUserLocation: Value, region: Value)
      returns (ok: bool)
      requires Valid()
      requires instance == Some(GoogleMaps)
      modifies this
      ensures Valid()
      ensures ok <==> !IsNullish(region)
      ensures PinsRebuilt(old(layers), old(markersRef), old(nextHandle), layers, markersRef,
                          RefreshPins(GoogleMaps, supermarkets, showsUserLocation, region), None)
      ensures ok ==> view == Some(View(Prop(region, "latitude"), Prop(region, "longitude"), old(view).value.zoom))
      ensures !ok ==> view == old(view)
      ensures PageKept() && StatusKept() && pendingOsmRefreshes == old(pendingOsmRefreshes)
    {
      ReplacePins(GoogleMaps, supermarkets, showsUserLocation, region);
      ok := !IsNullish(region);
      if ok {
        view := Some(View(Prop(region, "latitude"), Prop(region, "longitude"), view.value.zoom));
      }
    }

    /** The part both refreshes share: every held marker is taken off the
        map, then the user marker and one marker per supermarket are added
        under fresh handles and held in the ref. */
    method ReplacePins(engine: Engine, supermarkets: seq<Record>, showsUserLocation: Value, region: Value)
      requires Valid() && instance.Some?
      modifies this
      ensures Valid()
      ensures PinsRebuilt(old(layers), old(markersRef), old(nextHandle), layers, markersRef,
                          RefreshPins(engine, supermarkets, showsUserLocation, region), None)
      ensures view == old(view) && PageKept() && StatusKept() && pendingOsmRefreshes == old(pendingOsmRefreshes)
    {
      var ls, refs, userHandle, nh := RefreshLayers(layers, markersRef, nextHandle, None,
                                                     RefreshPins(engine, supermarkets, showsUserLocation, region));
      layers, markersRef, nextHandle := ls, refs, nh;
    }

    /** The `import('leaflet')` of the oldest waiting refresh settles:
        `updateOpenStreetMapMarkers` with the props of the render that
        scheduled it. Over a Leaflet map it removes every held marker, adds
        the user marker and one marker per supermarket, and recentres at
        zoom 13 (throwing for a nullish region after the pins are placed).
        Over a Google map (an authentication failure after a successful
        Google initialisation) the first `removeLayer`, `addTo` or `setView`
        is not a method of the instance and throws before anything changes. */
    method OsmRefreshImportSettled() returns (ok: bool)
      requires Valid() && |pendingOsmRefreshes| > 0 && instance.Some?
      modifies this
      ensures Valid()
      ensures pendingOsmRefreshes == old(pendingOsmRefreshes)[1..]
      ensures old(instance) == Some(GoogleMaps) ==>
                !ok && layers == old(layers) && markersRef == old(markersRef) && nextHandle == old(nextHandle)
                && view == old(view)
      ensures var (supermarkets, showsUserLocation, region) := old(pendingOsmRefreshes)[0];
              old(instance) == Some(OpenStreetMap) ==>
                && (ok <==> !IsNullish(region))
                && PinsRebuilt(old(layers), old(markersRef), old(nextHandle), layers, markersRef,
                               RefreshPins(OpenStreetMap, supermarkets, showsUserLocation, region), None)
                && (ok ==> view == Some(CentreOn(region)))
                && (!ok ==> view == old(view))
      ensures PageKept() && StatusKept()
    {
      var (supermarkets, showsUserLocation, region) := pendingOsmRefreshes[0];
      pendingOsmRefreshes := pendingOsmRefreshes[1..];
      if instance == Some(GoogleMaps) {
        ok := false;
        return;
      }
      ReplacePins(OpenStreetMap, supermarkets, showsUserLocation, region);
      ok := !IsNullish(region);
      if ok {
        view := Some(CentreOn(region));
      }
    }

    /** The listener effect (web only): the previous `supermarket-click`
        listener is removed and one for the current `onMarkerPress` added. */
    method ClickListenerEffect(onWeb: bool, onMarkerPress: Value)
      requires Valid()
      modifies this
      ensures Valid()
      ensures onWeb ==> clickListener == Some(onMarkerPress)
      ensures !onWeb ==> unchanged(this)
      ensures hasContainer == old(hasContainer) && googleMapsPresent == old(googleMapsPresent)
      ensures scriptInjected == old(scriptInjected) && callbackInstalled == old(callbackInstalled)
      ensures authHandlerInstalled == old(authHandlerInstalled) && timeoutPending == old(timeoutPending)
      ensures pendingLeafletImports == old(pendingLeafletImports) && storedError == old(storedError)
      ensures mountRegion == old(mountRegion) && StatusKept()
      ensures layers == old(layers) && markersRef == old(markersRef) && nextHandle == old(nextHandle)
      ensures view == old(view) && pendingOsmRefreshes == old(pendingOsmRefreshes)
    {
      if onWeb {
        clickListener := Some(onMarkerPress);
      }
    }

    /** A press on the popup button of the pin with handle `h`: the callback
        and the record it receives, when the pin dispatches `supermarket-click`
        and the listener's callback is set. */
    method PressPopupButton(h: nat) returns (call: Option<(Value, Record)>)
      requires Valid()
      ensures call.Some? <==> && h in layers && layers[h].StorePin? && layers[h].popup.button.Some?
                              && layers[h].popup.button.value.DispatchSupermarketClick?
                              && clickListener.Some? && Truthy(clickListener.value)
      ensures call.Some? ==> call.value == (clickListener.value, layers[h].popup.button.value.detail)
    {
      call := None;
      if h in layers && layers[h].StorePin? && layers[h].popup.button.Some?
         && layers[h].popup.button.value.DispatchSupermarketClick?
         && clickListener.Some? && Truthy(clickListener.value) {
        call := Some((clickListener.value, layers[h].popup.button.value.detail));
      }
    }
  }

  /** The button of the `k`-th supermarket's pin of a Google refresh carries that record. */
  lemma SupermarketButtonCarriesRecord(supermarkets: seq<Record>, showsUserLocation: Value, region: Value, k: nat)
    requires k < |supermarkets|
    ensures var u := if Truthy(showsUserLocation) && Truthy(region) then 1 else 0;
            u + k < |RefreshPins(GoogleMaps, supermarkets, showsUserLocation, region)|
            && RefreshPins(GoogleMaps, supermarkets, showsUserLocation, region)[u + k].popup.button
               == Some(DispatchSupermarketClick(supermarkets[k]))
  {
  }

  /** The button of the `k`-th supermarket's pin of a Leaflet refresh runs a
      script that does not parse when the record has a field, so a press on
      it reaches no listener. */
  lemma OsmButtonDead(supermarkets: seq<Record>, showsUserLocation: Value, region: Value, k: nat)
    requires k < |supermarkets| && JsonHasField(supermarkets[k])
    ensures var u := if Truthy(showsUserLocation) && Truthy(region) then 1 else 0;
            u + k < |RefreshPins(OpenStreetMap, supermarkets, showsUserLocation, region)|
            && RefreshPins(OpenStreetMap, supermarkets, showsUserLocation, region)[u + k].popup.button
               == Some(InertScript(HandlerStart + "{"))
  {
  }

  /** After an authentication failure following a successful Google
      initialisation the refresh engine is Leaflet's while the instance is
      a Google map. */
  lemma AuthFailureAfterInitSwitchesRefresh(googleMapsPresent: bool)
    ensures RefreshEngine(googleMapsPresent, true) == OpenStreetMap
  {
  }
}
