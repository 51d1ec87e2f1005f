/**
 * The store map (components/map/MapComponent.tsx): a map widget created once
 * its container exists, one marker per located store kept in a registry keyed
 * by store id, a camera fit around the stores, and a fly-to with the popup
 * opened for the selected store.
 *
 * The map library is opaque here. A map or marker is a handle (a number drawn
 * from a counter); adding a marker to a map is an entry in `attached`; the
 * camera calls the component makes are appended to logs. Whether a library
 * call throws is a parameter of the method that makes it.
 */
module MapComponent {
  import opened Wrappers
  import opened Types

  type Handle = nat

  /** One `flyTo` call. */
  datatype Flight = Flight(center: Location, zoom: int, duration: int)

  const TokenMessage := "Mapbox token not configured. Add NEXT_PUBLIC_MAPBOX_TOKEN to your .env.local file."
  const InitMessage := "Failed to initialize map. Please check your Mapbox configuration."
  /** The camera of a new map: New York at zoom 12. */
  const InitialCenter := Location(40.7128, -74.0060)
  const InitialZoom := 12
  const SelectZoom := 15
  const SelectDuration := 1000
  const FitPadding := 50

  /** `store.location && store.location.lng && store.location.lat`: a location with both coordinates non-zero. */
  predicate Located(s: Store) {
    s.location.Some? && s.location.value.lng != 0.0 && s.location.value.lat != 0.0
  }

  /**
   * Building a marker succeeds: the store is located, the popup text can read
   * `store.neighborhood.name` and `store.primaryCategory.name`, and the
   * library does not throw (`throws`).
   */
  predicate Builds(s: Store, throws: bool) {
    Located(s) && s.neighborhood.Some? && s.primaryCategory.Some? && !throws
  }

  /** The registry `addMarkers` leaves: stores whose marker builds, by id, a later store replacing an earlier one with the same id. */
  function Registry(stores: seq<Store>, throws: seq<bool>): (r: map<string, Store>)
    requires |throws| == |stores|
    ensures forall id :: id in r ==> r[id].id == id
    decreases |stores|
  {
    if stores == [] then map[]
    else
      var n := |stores| - 1;
      var prev := Registry(stores[..n], throws[..n]);
      if Builds(stores[n], throws[n]) then prev[stores[n].id := stores[n]] else prev
  }

  /** The ids in the registry are exactly the ids of stores whose marker builds. */
  lemma {:induction false} RegistryKeys(stores: seq<Store>, throws: seq<bool>)
    requires |throws| == |stores|
    ensures forall id :: id in Registry(stores, throws) <==>
      exists i :: 0 <= i < |stores| && Builds(stores[i], throws[i]) && stores[i].id == id
    decreases |stores|
  {
    if stores != [] {
      var n := |stores| - 1;
      var ss, ts := stores[..n], throws[..n];
      RegistryKeys(ss, ts);
      forall id ensures id in Registry(stores, throws) <==>
        exists i :: 0 <= i < |stores| && Builds(stores[i], throws[i]) && stores[i].id == id
      {
        if id in Registry(ss, ts) {
          var i :| 0 <= i < n && Builds(ss[i], ts[i]) && ss[i].id == id;
          assert ss[i] == stores[i] && ts[i] == throws[i];
        }
        if exists i :: 0 <= i < |stores| && Builds(stores[i], throws[i]) && stores[i].id == id {
          var i :| 0 <= i < |stores| && Builds(stores[i], throws[i]) && stores[i].id == id;
          if i < n {
            assert ss[i] == stores[i] && ts[i] == throws[i];
          }
        }
      }
    }
  }

  /** With no library failure, and every store carrying a neighbourhood and a category, the registry holds exactly the located stores' ids. */
  lemma RegistryOfLocated(stores: seq<Store>, throws: seq<bool>)
    requires |throws| == |stores|
    requires forall i :: 0 <= i < |stores| ==>
      !throws[i] && stores[i].neighborhood.Some? && stores[i].primaryCategory.Some?
    ensures forall id :: id in Registry(stores, throws) <==>
      exists i :: 0 <= i < |stores| && Located(stores[i]) && stores[i].id == id
  {
    RegistryKeys(stores, throws);
  }

  /** Last wins: the entry for an id is the last store with that id whose marker builds. */
  lemma {:induction false} RegistryLastWins(stores: seq<Store>, throws: seq<bool>, j: nat)
    requires |throws| == |stores| && j < |stores| && Builds(stores[j], throws[j])
    requires forall k :: j < k < |stores| && stores[k].id == stores[j].id ==> !Builds(stores[k], throws[k])
    ensures stores[j].id in Registry(stores, throws) && Registry(stores, throws)[stores[j].id] == stores[j]
    decreases |stores|
  {
    var n := |stores| - 1;
    if j < n {
      assert stores[..n][j] == stores[j] && throws[..n][j] == throws[j];
      RegistryLastWins(stores[..n], throws[..n], j);
    }
  }

  /**
   * A store that gets no marker, because the library throws for it or it is
   * skipped, adds nothing and does not stop the stores after it.
   */
  lemma RegistrySkipsFailure(a: seq<Store>, ta: seq<bool>, s: Store, t: bool, b: seq<Store>, tb: seq<bool>)
    requires |ta| == |a| && |tb| == |b| && !Builds(s, t)
    ensures Registry(a + [s] + b, ta + [t] + tb) == RegistryOver(Registry(a, ta), b, tb)
  {
    RegistryConcat(a + [s], ta + [t], b, tb);
    assert (a + [s])[..|a|] == a && (ta + [t])[..|a|] == ta;
  }

  /** Continuing a registry over more stores. */
  function RegistryOver(start: map<string, Store>, stores: seq<Store>, throws: seq<bool>): map<string, Store>
    requires |throws| == |stores|
    decreases |stores|
  {
    if stores == [] then start
    else
      var n := |stores| - 1;
      var prev := RegistryOver(start, stores[..n], throws[..n]);
      if Builds(stores[n], throws[n]) then prev[stores[n].id := stores[n]] else prev
  }

  lemma {:induction false} RegistryConcat(a: seq<Store>, ta: seq<bool>, b: seq<Store>, tb: seq<bool>)
    requires |ta| == |a| && |tb| == |b|
    ensures Registry(a + b, ta + tb) == RegistryOver(Registry(a, ta), b, tb)
    decreases |b|
  {
    if b == [] {
      assert a + b == a && ta + tb == ta;
    } else {
      var n := |b| - 1;
      assert (a + b)[..|a| + n] == a + b[..n];
      assert (ta + tb)[..|a| + n] == ta + tb[..n];
      RegistryConcat(a, ta, b[..n], tb[..n]);
    }
  }

  /** The points the bounds are extended with: the located stores' coordinates, in order. */
  function BoundsPoints(stores: seq<Store>): (r: seq<Location>)
    ensures |r| <= |stores|
    ensures forall p :: p in r <==> exists s :: s in stores && Located(s) && s.location.value == p
  {
    if stores == [] then []
    else
      var n := |stores| - 1;
      var prev := BoundsPoints(stores[..n]);
      assert forall s :: s in stores <==> s == stores[n] || s in stores[..n];
      if Located(stores[n]) then prev + [stores[n].location.value] else prev
  }

  class MapComponent {
    /** Whether the container element is mounted. */
    var hasContainer: bool
    /** `mapboxgl.accessToken`. */
    var token: string
    /** `map.current` (`map` is a Dafny keyword). */
    var mapRef: Option<Handle>
    var mapError: Option<string>
    /** `markers.current`: store id to marker. */
    var markers: map<string, Handle>
    /** The store each marker shows in its popup and selects on click. */
    var markerStore: map<Handle, Store>
    /** Markers currently on a map, with the map they were added to. */
    var attached: map<Handle, Handle>
    /** Every `fitBounds` call, with the points the bounds were built from. */
    var fits: seq<seq<Location>>
    var flights: seq<Flight>
    /** Every `togglePopup` call, by marker. */
    var toggles: seq<Handle>
    /** The next unused handle. */
    var nextHandle: Handle

    constructor (hasContainer: bool, token: string)
      ensures this.hasContainer == hasContainer && this.token == token
      ensures mapRef == None && mapError == None && markers == map[] && attached == map[]
      ensures fits == [] && flights == [] && toggles == []
      ensures Valid()
    {
      this.hasContainer := hasContainer;
      this.token := token;
      mapRef := None;
      mapError := None;
      markers := map[];
      markerStore := map[];
      attached := map[];
      fits := [];
      flights := [];
      toggles := [];
      nextHandle := 0;
    }

    /** Every handle in use was drawn from the counter, and every registered marker has a store. */
    predicate Valid()
      reads this
    {
      (mapRef.Some? ==> mapRef.value < nextHandle)
      && (forall id :: id in markers ==> markers[id] < nextHandle && markers[id] in markerStore)
      && (forall h :: h in attached ==> h < nextHandle)
    }

    /**
     * The initialisation effect. Nothing happens without a container or when a
     * map exists; a missing token, or a library failure (`throws`), sets the
     * error and creates nothing; otherwise a fresh map is created.
     */
    method Init(throws: bool)
      requires Valid()
      modifies this
      ensures Valid()
      ensures !hasContainer || old(mapRef).Some? ==> mapRef == old(mapRef) && mapError == old(mapError) && nextHandle == old(nextHandle)
      ensures hasContainer && old(mapRef).None? && token == "" ==> mapRef.None? && mapError == Some(TokenMessage)
      ensures hasContainer && old(mapRef).None? && token != "" && throws ==> mapRef.None? && mapError == Some(InitMessage)
      ensures hasContainer && old(mapRef).None? && token != "" && !throws ==>
        mapRef == Some(old(nextHandle)) && mapError == old(mapError) && nextHandle == old(nextHandle) + 1
      ensures markers == old(markers) && markerStore == old(markerStore) && attached == old(attached)
      ensures fits == old(fits) && flights == old(flights) && toggles == old(toggles)
      ensures hasContainer == old(hasContainer) && token == old(token)
    {
      if !hasContainer || mapRef.Some? {
        return;
      }
      if token == "" {
        mapError := Some(TokenMessage);
        return;
      }
      if throws {
        mapError := Some(InitMessage);
        return;
      }
      mapRef := Some(nextHandle);
      nextHandle := nextHandle + 1;
    }

    /** The effect cleanup: removes the map, with every marker on it, and clears the map ref. */
    method Teardown()
      requires Valid()
      modifies this
      ensures Valid() && mapRef.None?
      ensures old(mapRef).Some? ==> forall h :: h in attached <==> h in old(attached) && old(attached)[h] != old(mapRef).value
      ensures old(mapRef).None? ==> attached == old(attached)
      ensures forall h :: h in attached ==> attached[h] == old(attached)[h]
      ensures markers == old(markers) && markerStore == old(markerStore) && mapError == old(mapError)
      ensures fits == old(fits) && flights == old(flights) && toggles == old(toggles)
      ensures nextHandle == old(nextHandle) && hasContainer == old(hasContainer) && token == old(token)
    {
      if mapRef.Some? {
        var m := mapRef.value;
        attached := map h | h in attached && attached[h] != m :: attached[h];
        mapRef := None;
      }
    }

    /**
     * `addMarkers`: removes every registered marker, then builds one marker per
     * store whose marker builds (`throws[i]` says whether the library throws
     * for store `i`), registers it by store id and adds it to the map; then
     * fits the camera to the located stores unless the list is empty or the
     * fit throws (`fitThrows`).
     */
    method AddMarkers(stores: seq<Store>, throws: seq<bool>, fitThrows: bool)
      requires Valid() && |throws| == |stores|
      modifies this
      ensures Valid() && mapRef == old(mapRef)
      ensures old(mapRef).None? ==>
        markers == old(markers) && attached == old(attached) && fits == old(fits) && nextHandle == old(nextHandle)
      ensures old(mapRef).Some? ==> Shows(markers, markerStore, attached, Registry(stores, throws), mapRef.value, old(nextHandle))
      ensures old(mapRef).Some? ==> forall id :: id in old(markers) ==> old(markers)[id] !in attached
      ensures old(mapRef).Some? ==> forall h :: h in attached && h < old(nextHandle) ==> h in old(attached)
      ensures old(mapRef).Some? ==>
        forall h :: h in old(attached) && h !in old(markers).Values ==> h in attached && attached[h] == old(attached)[h]
      ensures old(mapRef).Some? ==> forall h :: old(nextHandle) <= h < nextHandle ==> h in attached && attached[h] == mapRef.value
      ensures old(mapRef).Some? ==>
        fits == if |stores| > 0 && !fitThrows then old(fits) + [BoundsPoints(stores)] else old(fits)
      ensures mapError == old(mapError)
      ensures flights == old(flights) && toggles == old(toggles)
      ensures hasContainer == old(hasContainer) && token == old(token)
    {
      if mapRef.None? {
        return;
      }
      Rebuild(stores, throws);
      if |stores| > 0 {
        var points := CollectBounds(stores);
        if !fitThrows {
          fits := fits + [points];
        }
      }
    }

    /** The marker half of `addMarkers` on a live map: the old markers removed, the new ones built, registered and added. */
    method Rebuild(stores: seq<Store>, throws: seq<bool>)
      requires Valid() && mapRef.Some? && |throws| == |stores|
      modifies this
      ensures Valid() && mapRef == old(mapRef)
      ensures Shows(markers, markerStore, attached, Registry(stores, throws), mapRef.value, old(nextHandle))
      ensures forall id :: id in old(markers) ==> old(markers)[id] !in attached
      ensures forall h :: h in attached && h < old(nextHandle) ==> h in old(attached)
      ensures forall h :: h in old(attached) && h !in old(markers).Values ==> h in attached && attached[h] == old(attached)[h]
      ensures forall h :: old(nextHandle) <= h < nextHandle ==> h in attached && attached[h] == mapRef.value
      ensures mapError == old(mapError) && fits == old(fits) && flights == old(flights) && toggles == old(toggles)
      ensures hasContainer == old(hasContainer) && token == old(token)
    {
      var m := mapRef.value;
      var previous := markers;
      var att := Detach(attached, previous.Values);
      var reg, shown, att', next := BuildMarkers(stores, throws, m, markerStore, att, nextHandle);
      forall id | id in previous
        ensures previous[id] !in att'
      {
        assert previous[id] in previous.Values;
      }
      markers := reg;
      markerStore := shown;
      attached := att';
      nextHandle := next;
    }

    /** Selecting a store: no selection, no map or no location does nothing; otherwise the camera flies to it and its popup is toggled if it has a marker. */
    method SelectStore(selected: Option<Store>, flyThrows: bool)
      requires Valid()
      modifies this
      ensures Valid()
      ensures selected.None? || mapRef.None? || !Located(selected.value) || flyThrows ==>
        flights == old(flights) && toggles == old(toggles)
      ensures selected.Some? && mapRef.Some? && Located(selected.value) && !flyThrows ==>
        flights == old(flights) + [Flight(selected.value.location.value, SelectZoom, SelectDuration)]
        && toggles == (if selected.value.id in markers then old(toggles) + [markers[selected.value.id]] else old(toggles))
      ensures mapRef == old(mapRef) && mapError == old(mapError) && markers == old(markers) && markerStore == old(markerStore)
      ensures attached == old(attached) && fits == old(fits) && nextHandle == old(nextHandle)
      ensures hasContainer == old(hasContainer) && token == old(token)
    {
      if selected.None? || mapRef.None? {
        return;
      }
      var s := selected.value;
      if !Located(s) {
        return;
      }
      if flyThrows {
        return;
      }
      flights := flights + [Flight(s.location.value, SelectZoom, SelectDuration)];
      if s.id in markers {
        toggles := toggles + [markers[s.id]];
      }
    }
  }

  /**
   * The marker table `reg` shows registry `r` on map `m`: one marker per
   * entry and no other, each drawn at or after `lo`, showing that entry's
   * store and attached to `m`.
   */
  ghost predicate Shows(reg: map<string, Handle>, shown: map<Handle, Store>, att: map<Handle, Handle>,
                  r: map<string, Store>, m: Handle, lo: Handle) {
    (forall id :: id in reg <==> id in r)
    && forall id :: id in reg ==>
      id in r && lo <= reg[id] && reg[id] in shown && shown[reg[id]] == r[id] && reg[id] in att && att[reg[id]] == m
  }

  /** `marker.remove()` for every marker in `removed`: those markers leave their map. */
  function Detach(attached: map<Handle, Handle>, removed: set<Handle>): (r: map<Handle, Handle>)
    ensures forall h :: h in r <==> h in attached && h !in removed
    ensures forall h :: h in r ==> r[h] == attached[h]
  {
    map h | h in attached && h !in removed :: attached[h]
  }

  /**
   * The `stores.forEach` of `addMarkers` on an emptied registry: a fresh marker
   * for each store whose marker builds, added to map `m` and registered by id.
   */
  method BuildMarkers(stores: seq<Store>, throws: seq<bool>, m: Handle,
                      shown0: map<Handle, Store>, att0: map<Handle, Handle>, next0: Handle)
    returns (reg: map<string, Handle>, shown: map<Handle, Store>, att: map<Handle, Handle>, next: Handle)
    requires |throws| == |stores|
    requires forall h :: h in att0 ==> h < next0
    ensures next0 <= next
    ensures Shows(reg, shown, att, Registry(stores, throws), m, next0)
    ensures forall id :: id in reg ==> reg[id] < next
    ensures forall h :: h in att ==> h < next
    ensures forall h :: h in att && h < next0 ==> h in att0 && att[h] == att0[h]
    ensures forall h :: h in att0 ==> h in att && att[h] == att0[h]
    ensures forall h :: next0 <= h < next ==> h in att && att[h] == m
  {
    reg := map[];
    shown := shown0;
    att := att0;
    next := next0;
    var i := 0;
    while i < |stores|
      invariant 0 <= i <= |stores|
      invariant next0 <= next
      invariant Shows(reg, shown, att, Registry(stores[..i], throws[..i]), m, next0)
      invariant forall id :: id in reg ==> reg[id] < next
      invariant forall h :: h in att ==> h < next
      invariant forall h :: h in att && h < next0 ==> h in att0 && att[h] == att0[h]
      invariant forall h :: h in att0 ==> h in att && att[h] == att0[h]
      invariant forall h :: next0 <= h < next ==> h in att && att[h] == m
    {
      var s := stores[i];
      assert stores[..i + 1][..i] == stores[..i] && throws[..i + 1][..i] == throws[..i];
      assert stores[..i + 1][i] == s && throws[..i + 1][i] == throws[i];
      if Builds(s, throws[i]) {
        var h := next;
        next := next + 1;
        shown := shown[h := s];
        att := att[h := m];
        reg := reg[s.id := h];
      }
      i := i + 1;
    }
    assert stores[..i] == stores && throws[..i] == throws;
  }

  /** The bounds loop: extends the bounds with each located store's coordinates. */
  method CollectBounds(stores: seq<Store>) returns (points: seq<Location>)
    ensures points == BoundsPoints(stores)
  {
    points := [];
    var i := 0;
    while i < |stores|
      invariant 0 <= i <= |stores|
      invariant points == BoundsPoints(stores[..i])
    {
      assert stores[..i + 1][..i] == stores[..i];
      if Located(stores[i]) {
        points := points + [stores[i].location.value];
      }
      i := i + 1;
    }
    assert stores[..i] == stores;
  }
}
