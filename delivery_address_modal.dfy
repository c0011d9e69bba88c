/** The saved-address picker (components/DeliveryAddressModal.tsx): loading the user's addresses,
    re-loading after a new one is added, what the list area shows, and the icon of each row. The
    signed-in user and the table query are handler parameters. */
module DeliveryAddress {
  import opened Wrappers
  import opened Strings

  datatype Address = Address(id: string, title: string, address: string, isDefault: bool)

  const LoadFailedMessage := "Failed to load addresses"

  /** What leaves the picker: the query for a user's addresses and the chosen address. */
  datatype Event = AddressesRequested(userId: string) | AddressSelected(address: Address)

  /** What the list area shows. */
  datatype Pane = LoadingAddresses | ErrorText(message: string) | NoSavedAddresses | AddressList(rows: seq<Address>)

  /** The list area, by priority: loading, then the error, then "No saved addresses", then the rows. */
  function PaneOf(loading: bool, error: Option<string>, addresses: seq<Address>): (p: Pane)
    ensures p == LoadingAddresses <==> loading
    ensures p.ErrorText? <==> !loading && Truthy(error)
    ensures p == NoSavedAddresses <==> !loading && !Truthy(error) && addresses == []
    ensures p.AddressList? <==> !loading && !Truthy(error) && addresses != []
    ensures p.AddressList? ==> p.rows == addresses
  {
    if loading then LoadingAddresses
    else if Truthy(error) then ErrorText(error.value)
    else if addresses == [] then NoSavedAddresses
    else AddressList(addresses)
  }

  datatype Icon = HomeIcon | Building2 | MapPin

  /** The row icon: by the lowercased title, "home" and "office" get their own icons. */
  function AddressIcon(title: string): (r: Icon)
    ensures r == HomeIcon <==> Lower(title) == "home"
    ensures r == Building2 <==> Lower(title) == "office"
    ensures r == MapPin <==> Lower(title) != "home" && Lower(title) != "office"
  {
    if Lower(title) == "home" then HomeIcon
    else if Lower(title) == "office" then Building2
    else MapPin
  }

  /** The icon ignores the case of the title, and a plain "Home" or "Office" gets its own icon. */
  lemma AddressIconIgnoresCase(title: string)
    ensures AddressIcon(Lower(title)) == AddressIcon(title)
    ensures AddressIcon("Home") == HomeIcon && AddressIcon("OFFICE") == Building2
    ensures AddressIcon("Work") == MapPin
  {
    LowerIdempotent(title);
    assert Lower("Home") == "home";
    assert Lower("OFFICE") == "office";
    assert Lower("Work")[0] == 'w';
  }

  class DeliveryAddressModal {
    var addresses: seq<Address>
    var loading: bool
    var error: Option<string>
    var showAddAddress: bool
    var events: seq<Event>

    constructor ()
      ensures addresses == [] && loading && error == None && !showAddAddress && events == []
    {
      addresses, loading, error, showAddAddress, events := [], true, None, false, [];
    }

    /** `fetchAddresses`. `userId` is the signed-in user (`None` when there is none); `rows` the
        query's data (`None` when it failed). Any failure keeps the list and shows one message. */
    method FetchAddresses(userId: Option<string>, rows: Option<seq<Address>>)
      modifies this`addresses, this`loading, this`error, this`events
      ensures !loading
      ensures userId.None? ==> events == old(events)
      ensures userId.Some? ==> events == old(events) + [AddressesRequested(userId.value)]
      ensures userId.Some? && rows.Some? ==> addresses == rows.value && error == None
      ensures !(userId.Some? && rows.Some?) ==> addresses == old(addresses) && error == Some(LoadFailedMessage)
    {
      loading := true;
      error := None;
      if userId.None? {
        error := Some(LoadFailedMessage);
      } else {
        events := events + [AddressesRequested(userId.value)];
        if rows.None? {
          error := Some(LoadFailedMessage);
        } else {
          addresses := rows.value;
        }
      }
      loading := false;
    }

    /** "Add New Address". */
    method OpenAddAddress()
      modifies this`showAddAddress
      ensures showAddAddress
    {
      showAddAddress := true;
    }

    /** `handleAddressSuccess`: closes the new-address form, then loads the list again. */
    method HandleAddressSuccess(userId: Option<string>, rows: Option<seq<Address>>)
      modifies this`showAddAddress, this`addresses, this`loading, this`error, this`events
      ensures !showAddAddress && !loading
      ensures userId.None? ==> events == old(events)
      ensures userId.Some? ==> events == old(events) + [AddressesRequested(userId.value)]
      ensures userId.Some? && rows.Some? ==> addresses == rows.value && error == None
      ensures !(userId.Some? && rows.Some?) ==> addresses == old(addresses) && error == Some(LoadFailedMessage)
    {
      showAddAddress := false;
      FetchAddresses(userId, rows);
    }

    /** Tapping a row passes exactly that address to `onAddressSelect`. */
    method Tap(i: int)
      requires 0 <= i < |addresses|
      modifies this`events
      ensures events == old(events) + [AddressSelected(addresses[i])]
    {
      events := events + [AddressSelected(addresses[i])];
    }
  }
}
