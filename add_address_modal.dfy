/** The new-address form (components/AddAddressModal.tsx): filling the address from the device
    position, finding coordinates for a typed address, and the ordered checks before the
    `add_user_address` call. Permission, position and geocoding results are handler parameters. */
module AddAddress {
  import opened Wrappers
  import opened Strings
  import opened Geo

  /** The fields of a reverse-geocoding result that the form reads; each may be missing. */
  datatype Place = Place(
    street: Option<string>, district: Option<string>, city: Option<string>,
    region: Option<string>, postalCode: Option<string>)

  function Parts(p: Place): seq<Option<string>> {
    [p.street, p.district, p.city, p.region, p.postalCode]
  }

  /** `.filter(Boolean)` on optional strings: the present, non-empty values. */
  function KeepTruthy(xs: seq<Option<string>>): (r: seq<string>)
    ensures |r| <= |xs|
    ensures forall i :: 0 <= i < |r| ==> r[i] != ""
    ensures forall s :: s in r <==> s != "" && Some(s) in xs
  {
    if xs == [] then []
    else
      var rest := KeepTruthy(xs[1..]);
      assert forall s :: Some(s) in xs <==> Some(s) == xs[0] || Some(s) in xs[1..];
      (if Truthy(xs[0]) then [xs[0].value] else []) + rest
  }

  /** Filtering keeps the order of the input: it distributes over concatenation. */
  lemma {:induction false} KeepTruthyAppend(xs: seq<Option<string>>, ys: seq<Option<string>>)
    ensures KeepTruthy(xs + ys) == KeepTruthy(xs) + KeepTruthy(ys)
  {
    if xs == [] {
      assert xs + ys == ys;
    } else {
      assert (xs + ys)[0] == xs[0];
      assert (xs + ys)[1..] == xs[1..] + ys;
      KeepTruthyAppend(xs[1..], ys);
    }
  }

  lemma KeepTruthyOne(x: Option<string>)
    ensures KeepTruthy([x]) == if Truthy(x) then [x.value] else []
  {
    assert [x][1..] == [];
  }

  /** The address text `getCurrentLocation` builds from a reverse-geocoding result. */
  function FormatAddress(p: Place): string {
    Join(KeepTruthy(Parts(p)), ", ")
  }

  /** The formatted address is the non-empty values among street, district, city, region and postal
      code, in that order, each followed by ", " except the last. */
  lemma FormatAddressSpec(p: Place)
    ensures FormatAddress(p) == Join(
      (if Truthy(p.street) then [p.street.value] else [])
      + (if Truthy(p.district) then [p.district.value] else [])
      + (if Truthy(p.city) then [p.city.value] else [])
      + (if Truthy(p.region) then [p.region.value] else [])
      + (if Truthy(p.postalCode) then [p.postalCode.value] else []), ", ")
  {
    var xs := Parts(p);
    assert xs == [p.street] + [p.district] + [p.city] + [p.region] + [p.postalCode];
    KeepTruthyAppend([p.street] + [p.district] + [p.city] + [p.region], [p.postalCode]);
    KeepTruthyAppend([p.street] + [p.district] + [p.city], [p.region]);
    KeepTruthyAppend([p.street] + [p.district], [p.city]);
    KeepTruthyAppend([p.street], [p.district]);
    KeepTruthyOne(p.street);
    KeepTruthyOne(p.district);
    KeepTruthyOne(p.city);
    KeepTruthyOne(p.region);
    KeepTruthyOne(p.postalCode);
  }

  /** A joined list of non-empty parts is empty only when there are no parts. */
  lemma JoinEmptyIff(parts: seq<string>, sep: string)
    requires forall i :: 0 <= i < |parts| ==> parts[i] != ""
    ensures Join(parts, sep) == "" <==> parts == []
  {
    if |parts| > 1 {
      assert Join(parts, sep)[..|parts[0]|] == parts[0];
    }
  }

  /** The formatted address is empty exactly when the result has no non-empty field. */
  lemma FormatAddressEmptyIff(p: Place)
    ensures FormatAddress(p) == "" <==> forall x :: x in Parts(p) ==> !Truthy(x)
  {
    JoinEmptyIff(KeepTruthy(Parts(p)), ", ");
    if KeepTruthy(Parts(p)) != [] {
      var s := KeepTruthy(Parts(p))[0];
      assert s in KeepTruthy(Parts(p));
      assert Some(s) in Parts(p);
    }
  }

  const TitleMessage := "Please enter a title for this address"
  const AddressMessage := "Please enter an address"
  const LocationMessage := "Please select a valid location"
  const SaveFailedMessage := "Failed to save address"
  const DeniedMessage := "Permission to access location was denied"
  const LocationFailedMessage := "Failed to get current location"
  const NotFoundMessage := "Address not found"
  const FindFailedMessage := "Failed to find address"

  /** The validation prefix of `handleSave`: blank title, then blank address, then no coordinates;
      the first failure's message, or `None` when the form may be sent. */
  function SaveError(title: string, address: string, coordinates: Option<Coordinates>): (e: Option<string>)
    ensures AllTrimmable(title) ==> e == Some(TitleMessage)
    ensures e == Some(AddressMessage) <==> !AllTrimmable(title) && AllTrimmable(address)
    ensures e == Some(LocationMessage) <==> !AllTrimmable(title) && !AllTrimmable(address) && coordinates.None?
    ensures e == None <==> !AllTrimmable(title) && !AllTrimmable(address) && coordinates.Some?
  {
    BlankIff(title);
    BlankIff(address);
    if IsBlank(title) then Some(TitleMessage)
    else if IsBlank(address) then Some(AddressMessage)
    else if coordinates.None? then Some(LocationMessage)
    else None
  }

  /** What leaves the form: the `add_user_address` call and the parent's callbacks. */
  datatype Event =
    | AddUserAddress(userId: string, title: string, address: string, latitude: real, longitude: real, isDefault: bool)
    | Succeeded
    | Closed

  class AddAddressModal {
    var title: string
    var address: string
    var loading: bool
    var error: Option<string>
    var coordinates: Option<Coordinates>
    var events: seq<Event>

    constructor ()
      ensures title == "" && address == "" && !loading && error == None && coordinates == None && events == []
    {
      title, address, loading, error, coordinates, events := "", "", false, None, None, [];
    }

    method SetTitle(text: string)
      modifies this`title
      ensures title == text
    {
      title := text;
    }

    method SetAddress(text: string)
      modifies this`address
      ensures address == text
    {
      address := text;
    }

    /** `getCurrentLocation`. `permission` is the status the permission request answers (`None` if it
        threw), `position` the device fix (`None` if it threw), `places` the reverse-geocoding results
        (`None` if the call threw). */
    method GetCurrentLocation(permission: Option<string>, position: Option<Coordinates>, places: Option<seq<Place>>)
      modifies this`loading, this`error, this`coordinates, this`address
      ensures !loading
      ensures permission.None? ==>
        error == Some(LocationFailedMessage) && coordinates == old(coordinates) && address == old(address)
      ensures permission.Some? && permission.value != "granted" ==>
        error == Some(DeniedMessage) && coordinates == old(coordinates) && address == old(address)
      ensures permission == Some("granted") && position.None? ==>
        error == Some(LocationFailedMessage) && coordinates == old(coordinates) && address == old(address)
      ensures permission == Some("granted") && position.Some? ==>
        coordinates == position
        && (places.None? ==> error == Some(LocationFailedMessage) && address == old(address))
        && (places.Some? ==>
              error == None
              && address == if places.value == [] then old(address) else FormatAddress(places.value[0]))
    {
      loading := true;
      error := None;
      if permission.None? {
        error := Some(LocationFailedMessage);
      } else if permission.value != "granted" {
        error := Some(DeniedMessage);
      } else if position.None? {
        error := Some(LocationFailedMessage);
      } else {
        coordinates := position;
        if places.None? {
          error := Some(LocationFailedMessage);
        } else if places.value != [] {
          address := FormatAddress(places.value[0]);
        }
      }
      loading := false;
    }

    /** `searchAddress`: the first geocoding result becomes the coordinates. `results` is `None` when
        the geocoding call threw. */
    method SearchAddress(results: Option<seq<Coordinates>>)
      modifies this`loading, this`error, this`coordinates
      ensures !loading
      ensures results.None? ==> error == Some(FindFailedMessage) && coordinates == old(coordinates)
      ensures results == Some([]) ==> error == Some(NotFoundMessage) && coordinates == old(coordinates)
      ensures results.Some? && results.value != [] ==> error == None && coordinates == Some(results.value[0])
    {
      loading := true;
      error := None;
      match results {
        case None => error := Some(FindFailedMessage);
        case Some(rs) =>
          if rs != [] {
            coordinates := Some(rs[0]);
          } else {
            error := Some(NotFoundMessage);
          }
      }
      loading := false;
    }

    /** `handleSave`. `userId` is the signed-in user (`None` when there is none or the lookup threw);
        `rpcOk` says whether `add_user_address` returned without error. */
    method HandleSave(userId: Option<string>, rpcOk: bool)
      modifies this`loading, this`error, this`events
      ensures !loading
      ensures SaveError(title, address, coordinates).Some? ==>
        error == SaveError(title, address, coordinates) && events == old(events)
      ensures SaveError(title, address, coordinates).None? && userId.None? ==>
        error == Some(SaveFailedMessage) && events == old(events)
      ensures SaveError(title, address, coordinates).None? && userId.Some? ==>
        && coordinates.Some?
        && events == old(events)
           + [AddUserAddress(userId.value, title, address, coordinates.value.latitude, coordinates.value.longitude, false)]
           + (if rpcOk then [Succeeded, Closed] else [])
        && error == (if rpcOk then None else Some(SaveFailedMessage))
    {
      loading := true;
      error := None;
      var e := SaveError(title, address, coordinates);
      if e.Some? {
        error := e;
      } else if userId.None? {
        error := Some(SaveFailedMessage);
      } else {
        var c := coordinates.value;
        events := events + [AddUserAddress(userId.value, title, address, c.latitude, c.longitude, false)];
        if rpcOk {
          events := events + [Succeeded, Closed];
        } else {
          error := Some(SaveFailedMessage);
        }
      }
      loading := false;
    }
  }
}
