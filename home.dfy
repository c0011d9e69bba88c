/** The home screen (app/home.tsx): the region the native map centres on, the hardware back button,
    choosing a search suggestion, and jumping to the device location. Permission answers, positions
    and geocoding results are handler parameters; the `alert` calls and geocoding requests the screen
    makes are appended to `events`. */
module Home {
  import opened Wrappers
  import opened Geo
  import Search

  /** The native map's `region`. */
  datatype Region = Region(latitude: real, longitude: real, latitudeDelta: real, longitudeDelta: real)

  /** Where the map looks when nothing is known: central Bengaluru. */
  const DefaultCenter := Coordinates(12.9716, 77.5946)

  const LatitudeDelta: real := 0.0922
  const LongitudeDelta: real := 0.0421

  function Centered(c: Coordinates): Region {
    Region(c.latitude, c.longitude, LatitudeDelta, LongitudeDelta)
  }

  /** The native map's region: the selected place if any, else the device position if known, else
      the default centre; the zoom never changes. */
  function MapRegion(selectedLocation: Option<Coordinates>, location: Option<Coordinates>): (r: Region)
    ensures r.latitudeDelta == LatitudeDelta && r.longitudeDelta == LongitudeDelta
    ensures selectedLocation.Some? ==> r == Centered(selectedLocation.value)
    ensures selectedLocation.None? && location.Some? ==> r == Centered(location.value)
    ensures selectedLocation.None? && location.None? ==> r == Centered(DefaultCenter)
  {
    Centered(
      if selectedLocation.Some? then selectedLocation.value
      else if location.Some? then location.value
      else DefaultCenter)
  }

  const PermissionDeniedAlert := "Permission to access location was denied."
  const LocationFailedAlert := "Failed to get location. Please check your GPS settings."

  /** What leaves the screen: browser alerts and forward-geocoding requests. */
  datatype Event = AlertShown(message: string) | GeocodeRequested(query: string)

  /** The answer of `getLastKnownPositionAsync`: it threw, it had no fix (`null`), or a fix. */
  datatype LastKnown = LastKnownThrew | NoLastKnown | LastKnownFix(coords: Coordinates)

  /** The fix `goToCurrentLocation` settles on: the last known one, else a fresh one (`current`,
      `None` when that call threw); `None` when none is obtained. */
  function ChosenFix(lastKnown: LastKnown, current: Option<Coordinates>): (r: Option<Coordinates>)
    ensures lastKnown.LastKnownFix? ==> r == Some(lastKnown.coords)
    ensures lastKnown.NoLastKnown? ==> r == current
    ensures lastKnown.LastKnownThrew? ==> r == None
  {
    match lastKnown
    case LastKnownThrew => None
    case NoLastKnown => current
    case LastKnownFix(c) => Some(c)
  }

  /** The text geocoded for a suggestion without coordinates: `address || title`. */
  function GeocodeQuery(s: Search.Suggestion): (q: string)
    ensures Truthy(s.address) ==> q == s.address.value
    ensures !Truthy(s.address) ==> q == s.title
  {
    if Truthy(s.address) then s.address.value else s.title
  }

  /** The screen returns `null` until fonts load and a device position is known. */
  predicate Renders(fontsLoaded: bool, location: Option<Coordinates>) {
    fontsLoaded && location.Some?
  }

  /** Whenever the screen draws, the map without a selected place centres on the device position,
      never on the fallback centre (unless the device is there). */
  lemma RenderedMapFollowsDevice(fontsLoaded: bool, location: Option<Coordinates>)
    ensures Renders(fontsLoaded, location) ==> MapRegion(None, location) == Centered(location.value)
    ensures !Renders(fontsLoaded, location) && fontsLoaded ==> location.None?
  {
  }

  class HomeScreen {
    var location: Option<Coordinates>
    var selectedLocation: Option<Coordinates>
    var searchQuery: string
    var showSearchOverlay: bool
    var events: seq<Event>

    constructor ()
      ensures location == None && selectedLocation == None && searchQuery == "" && !showSearchOverlay
      ensures events == []
    {
      location, selectedLocation, searchQuery, showSearchOverlay, events := None, None, "", false, [];
    }

    /** The mount effect: with permission granted, the fresh position becomes `location`. `position`
        is `None` when that call threw, which leaves `location` as it was. */
    method LoadInitialLocation(permission: string, position: Option<Coordinates>)
      modifies this`location
      ensures permission == "granted" && position.Some? ==> location == position
      ensures !(permission == "granted" && position.Some?) ==> location == old(location)
    {
      if permission == "granted" && position.Some? {
        location := position;
      }
    }

    /** The hardware back button: consumed, closing the search overlay, exactly when it is open. */
    method BackPress() returns (handled: bool)
      modifies this`showSearchOverlay
      ensures handled == old(showSearchOverlay)
      ensures !showSearchOverlay
    {
      if showSearchOverlay {
        showSearchOverlay := false;
        return true;
      }
      return false;
    }

    /** `goToCurrentLocation`. `permission` is the status the request answers (`None` if it threw). */
    method GoToCurrentLocation(permission: Option<string>, lastKnown: LastKnown, current: Option<Coordinates>)
      modifies this`location, this`selectedLocation, this`searchQuery, this`events
      ensures permission.None? ==>
        events == old(events) + [AlertShown(LocationFailedAlert)]
        && location == old(location) && selectedLocation == old(selectedLocation) && searchQuery == old(searchQuery)
      ensures permission.Some? && permission.value != "granted" ==>
        events == old(events) + [AlertShown(PermissionDeniedAlert)]
        && location == old(location) && selectedLocation == old(selectedLocation) && searchQuery == old(searchQuery)
      ensures permission == Some("granted") && ChosenFix(lastKnown, current).None? ==>
        events == old(events) + [AlertShown(LocationFailedAlert)]
        && location == old(location) && selectedLocation == old(selectedLocation) && searchQuery == old(searchQuery)
      ensures permission == Some("granted") && ChosenFix(lastKnown, current).Some? ==>
        events == old(events) && location == ChosenFix(lastKnown, current)
        && selectedLocation == None && searchQuery == "Current Location"
        && MapRegion(selectedLocation, location) == Centered(ChosenFix(lastKnown, current).value)
    {
      if permission.None? {
        events := events + [AlertShown(LocationFailedAlert)];
        return;
      }
      if permission.value != "granted" {
        events := events + [AlertShown(PermissionDeniedAlert)];
        return;
      }
      var fix := ChosenFix(lastKnown, current);
      if fix.None? {
        events := events + [AlertShown(LocationFailedAlert)];
        return;
      }
      location := fix;
      selectedLocation := None;
      searchQuery := "Current Location";
    }

    /** `handleLocationSelect`. "Current Location" defers to `goToCurrentLocation` (whose answers are
        `permission`, `lastKnown`, `current`); a suggestion with coordinates is taken as is; any other
        is geocoded, `geocoded` being the results (`None` if the call threw). The overlay always
        closes. */
    method HandleLocationSelect(s: Search.Suggestion, permission: Option<string>, lastKnown: LastKnown,
                                current: Option<Coordinates>, geocoded: Option<seq<Coordinates>>)
      modifies this`location, this`selectedLocation, this`searchQuery, this`showSearchOverlay, this`events
      ensures !showSearchOverlay
      ensures s.kind != "current" ==> location == old(location)
      ensures s.kind != "current" && s.coordinates.Some? ==>
        selectedLocation == s.coordinates && searchQuery == s.title && events == old(events)
        && MapRegion(selectedLocation, location) == Centered(s.coordinates.value)
      ensures s.kind != "current" && s.coordinates.None? ==>
        events == old(events) + [GeocodeRequested(GeocodeQuery(s))]
      ensures s.kind != "current" && s.coordinates.None? && geocoded.Some? && geocoded.value != [] ==>
        selectedLocation == Some(geocoded.value[0]) && searchQuery == s.title
      ensures s.kind != "current" && s.coordinates.None? && !(geocoded.Some? && geocoded.value != []) ==>
        selectedLocation == old(selectedLocation) && searchQuery == old(searchQuery)
      ensures s.kind == "current" && permission.None? ==>
        events == old(events) + [AlertShown(LocationFailedAlert)]
        && location == old(location) && selectedLocation == old(selectedLocation) && searchQuery == old(searchQuery)
      ensures s.kind == "current" && permission.Some? && permission.value != "granted" ==>
        events == old(events) + [AlertShown(PermissionDeniedAlert)]
        && location == old(location) && selectedLocation == old(selectedLocation) && searchQuery == old(searchQuery)
      ensures s.kind == "current" && permission == Some("granted") && ChosenFix(lastKnown, current).None? ==>
        events == old(events) + [AlertShown(LocationFailedAlert)]
        && location == old(location) && selectedLocation == old(selectedLocation) && searchQuery == old(searchQuery)
      ensures s.kind == "current" && permission == Some("granted") && ChosenFix(lastKnown, current).Some? ==>
        events == old(events) && location == ChosenFix(lastKnown, current)
        && selectedLocation == None && searchQuery == "Current Location"
    {
      if s.kind == "current" {
        GoToCurrentLocation(permission, lastKnown, current);
      } else if s.coordinates.Some? {
        selectedLocation := s.coordinates;
        searchQuery := s.title;
      } else {
        events := events + [GeocodeRequested(GeocodeQuery(s))];
        if geocoded.Some? && geocoded.value != [] {
          selectedLocation := Some(geocoded.value[0]);
          searchQuery := s.title;
        }
      }
      showSearchOverlay := false;
    }

    /** The search bar's `onPress`. */
    method OpenSearch()
      modifies this`showSearchOverlay
      ensures showSearchOverlay
    {
      showSearchOverlay := true;
    }
  }
}
