# AquaGo client rules in Dafny

AquaGo is a React Native app for ordering water-tanker deliveries. Stock, pricing, orders, the wallet
ledger and chat live behind a hosted backend (Supabase RPCs and tables); what the client itself decides
is a set of small rules: validators, formatting and filtering of lists, and screen state machines.
This project models those rules and proves what they promise.

Each React component is one module. Its `useState` variables are the fields of a class, and its
handlers are methods with `modifies` clauses naming exactly the state they set. Every awaited backend
or device call is a parameter of the handler that awaits it, given as the answer the call returns or
that it threw: the auth lookup, an RPC, the location permission, a position, a geocoding result, the
image picker. The calls a component makes outward are appended to an `events` sequence. They include
RPC requests, callbacks to the parent (`onSuccess`, `onClose`, `onAddressSelect`), alerts and
geocoding requests. So "no RPC is made" reads `events == old(events)`. The pure rules are functions
with lemmas:

- the UPI-ID regular expression, as the automaton a matcher runs, proved equal to its language;
- JavaScript's `trim`, ASCII `toLowerCase`, `includes`, `join` and `Number()` on decimal strings;
- the top-up bounds;
- address formatting;
- the suggestion filter and its distance ordering, as a stable sort;
- the countdown;
- alert-list composition;
- the render and enable gates.

Files: `wrappers.dfy` (Option, Result, JS truthiness of an optional string), `strings.dfy`,
`numbers.dfy`, `geo.dfy`, `upi_id.dfy`, then one file per component: `payment_modal.dfy`,
`add_money_modal.dfy`, `add_address_modal.dfy`, `order_confirmation_modal.dfy`, `search_overlay.dfy`,
`water_volume_modal.dfy`, `chat_modal.dfy`, `delivery_address_modal.dfy`, `alerts_overlay.dfy`,
`home.dfy`, `profile.dfy`.

Where a source line gives no value, as in `data.status == "success"` with no response, the handler's
parameter says which case applies. JavaScript's `sort` with the overlay's comparator is modelled as a
stable insertion sort (ECMAScript 2019 requires `sort` to be stable).

## Model

| member | source | states |
|---|---|---|
| UpiId.MatchesIff | components/PaymentModal.tsx:72-75 | the matcher for `^[\w.-]+@[\w.-]+$` accepts exactly the strings `X@Y` with X and Y non-empty runs of `[A-Za-z0-9_.-]` |
| UpiId.RunLocalSplit | components/PaymentModal.tsx:73 | from inside the local part the matcher accepts exactly the rest `x@Y` (x possibly empty, Y non-empty) |
| UpiId.RunDomain | components/PaymentModal.tsx:73 | after at least one domain character, the matcher accepts exactly the all-class suffixes |
| UpiId.RunAfterAt | components/PaymentModal.tsx:73 | right after `@`, the matcher accepts exactly the non-empty all-class suffixes |
| UpiId.OneAt | components/PaymentModal.tsx:73 | an accepted id has exactly one `@` |
| UpiId.Examples | components/PaymentModal.tsx:73 | `name@bank` is accepted; `name@`, `name` and the empty id are refused |
| Payment.ValidateUpiId | components/PaymentModal.tsx:72-75 | `validateUpiId` holds exactly for the well-formed UPI ids |
| Payment.FirstError | components/PaymentModal.tsx:106-117 | no method gives "Please select a payment method" first; "Insufficient wallet balance" iff wallet and balance < amount; "Please enter a valid UPI ID" iff upi and a malformed id; no error iff all checks pass |
| Payment.EnabledPayHasMethod | components/PaymentModal.tsx:229 | while the Pay button is enabled, the no-method check cannot fail |
| Payment.UnloadedWalletRefuses | components/PaymentModal.tsx:34 | with the balance left at its initial 0, every positive wallet payment is refused as insufficient |
| Payment.ConfirmOutcome | components/PaymentModal.tsx:90-96 | `onPaymentComplete('upi', {upi_id})` then `onClose` iff the reply's status is "success"; any other reply only alerts "Payment failed"; a failed request does nothing |
| Payment.PaymentModal.constructor | components/PaymentModal.tsx:31-39 | the initial state of the sheet |
| Payment.PaymentModal.HandleMethodSelect | components/PaymentModal.tsx:77-81 | the method is stored, the error cleared, and the UPI field shown iff the method is "upi" |
| Payment.PaymentModal.SetUpiId | components/PaymentModal.tsx:214 | the UPI field holds the typed text |
| Payment.PaymentModal.HandlePayment | components/PaymentModal.tsx:101-173 | a failed check sets its message and requests no link; a failure reading user data shows its message; otherwise one link request carries the generated id, the amount and the phone; the stored link id is the reply's `link_id` (`None` when the reply lacks it) or, when the request failed, the generated id; the payment page opens only for a non-empty `link_url`; `loading` is false on every path |
| Payment.PaymentModal.ConfirmPayment | components/PaymentModal.tsx:82-100 | one confirmation request for the current link id, followed by the outcome of `ConfirmOutcome` |
| Numbers.ToDecimal | components/AddMoneyModal.tsx:35 | `value.toString()` of a whole number below 10^21 (every quick amount) is a non-empty digit string without a leading zero |
| Numbers.IntegerValueOfDecimal | components/AddMoneyModal.tsx:35 | reading the decimal string back gives the number |
| Numbers.NumberOfDigits | components/AddMoneyModal.tsx:39 | `Number` of a digit string is its value |
| Numbers.NumberOfDecimal | components/AddMoneyModal.tsx:35-39 | `Number(n.toString()) == n` |
| AddMoney.CheckAmount | components/AddMoneyModal.tsx:38-49 | NaN and values <= 0 are invalid, values > 50000 too high, and exactly 0 < n <= 50000 pass |
| AddMoney.ValidateAmount | components/AddMoneyModal.tsx:38-49 | the amount text passes iff it reads as a number in (0, 50000]; text that is not a number is an invalid amount |
| AddMoney.ValidateDecimalIff | components/AddMoneyModal.tsx:35-49 | a whole amount written as its decimal string passes iff it is in 1..50000, and is too high iff above 50000 |
| AddMoney.AmountAlert | components/AddMoneyModal.tsx:40-47 | each refusal raises an alert |
| AddMoney.ValidateUpiId | components/AddMoneyModal.tsx:51-54 | the top-up sheet's UPI check is the payment sheet's, and both are the well-formed ids |
| AddMoney.QuickAmountsValid | components/AddMoneyModal.tsx:16 | each of 100, 200, 500, 1000, 2000, 5000, written as its decimal string, passes `validateAmount` |
| AddMoney.TopUpEvents | components/AddMoneyModal.tsx:69-93 | with a user, the wallet call comes first; success (user and RPC ok) is the call, the "Success" alert, `onSuccess`, `onClose`, in that order; a failed call is the call then the failure alert; any failure, including no user, alerts "Failed to add money to wallet" |
| AddMoney.AddMoneyModal.constructor | components/AddMoneyModal.tsx:19-22 | the initial state of the sheet |
| AddMoney.AddMoneyModal.HandleQuickAmount | components/AddMoneyModal.tsx:34-36 | the amount becomes the decimal string of the chosen value, which passes `validateAmount` when it is a quick amount |
| AddMoney.AddMoneyModal.SetAmount | components/AddMoneyModal.tsx:122 | the amount field holds the typed text |
| AddMoney.AddMoneyModal.SetUpiId | components/AddMoneyModal.tsx:154 | the UPI field holds the typed text |
| AddMoney.AddMoneyModal.HandleAddMoney | components/AddMoneyModal.tsx:56-94 | an invalid amount alerts first in either stage; the first valid press only shows the UPI field; an invalid UPI id alerts with no RPC; only after both checks does `add_money_to_wallet` go out with `Number(amount)`, and `loading` ends false |
| Strings.TrimStartSpec | components/ChatModal.tsx:85 | dropping leading whitespace keeps a suffix starting with a kept character, and drops only whitespace |
| Strings.TrimEndSpec | components/ChatModal.tsx:85 | dropping trailing whitespace keeps a prefix ending with a kept character, and drops only whitespace |
| Strings.TrimSpec | components/ChatModal.tsx:85 | `trim()` never lengthens, leaves no whitespace at either end, and is empty iff the text is all whitespace |
| Strings.BlankIff | components/AddAddressModal.tsx:107 | `!s.trim()` holds iff `s` is empty or whitespace only |
| Strings.TrimOfTrimmed | components/ChatModal.tsx:90 | a text with no whitespace at its ends is its own trim |
| Strings.TrimIdempotent | components/ChatModal.tsx:90 | trimming twice is trimming once |
| Strings.Lower | components/SearchOverlay.tsx:127-128 | `toLowerCase` keeps the length and lowers each ASCII letter |
| Strings.LowerIdempotent | components/SearchOverlay.tsx:127-128 | lowercasing twice is lowercasing once |
| Strings.IncludesIff | components/SearchOverlay.tsx:127-128 | `includes` holds iff the needle occurs at some offset |
| AddAddress.KeepTruthy | components/AddAddressModal.tsx:68 | `.filter(Boolean)` keeps exactly the present, non-empty values, and no more of them than given |
| AddAddress.KeepTruthyAppend | components/AddAddressModal.tsx:61-68 | the filter distributes over concatenation, so it keeps input order |
| AddAddress.KeepTruthyOne | components/AddAddressModal.tsx:68 | a single value is kept iff it is present and non-empty |
| AddAddress.FormatAddressSpec | components/AddAddressModal.tsx:61-69 | the formatted address is the non-empty street, district, city, region, postal code, in that order, joined by ", " |
| AddAddress.JoinEmptyIff | components/AddAddressModal.tsx:69 | joining non-empty parts gives "" iff there are none |
| AddAddress.FormatAddressEmptyIff | components/AddAddressModal.tsx:61-70 | the formatted address is empty iff no field is present and non-empty |
| AddAddress.SaveError | components/AddAddressModal.tsx:107-120 | blank title first, then blank address, then missing coordinates, each with its message; no error iff all three hold |
| AddAddress.AddAddressModal.constructor | components/AddAddressModal.tsx:25-29 | the initial state of the form |
| AddAddress.AddAddressModal.SetTitle | components/AddAddressModal.tsx:172 | the title field holds the typed text |
| AddAddress.AddAddressModal.SetAddress | components/AddAddressModal.tsx:184 | the address field holds the typed text |
| AddAddress.AddAddressModal.GetCurrentLocation | components/AddAddressModal.tsx:37-78 | a denied permission shows its message; a throw shows "Failed to get current location"; a fix sets the coordinates, and the first reverse-geocoding result, if any, the formatted address; `loading` ends false |
| AddAddress.AddAddressModal.SearchAddress | components/AddAddressModal.tsx:80-100 | the first geocoding result becomes the coordinates; none gives "Address not found" and keeps them; a throw gives "Failed to find address"; `loading` ends false |
| AddAddress.AddAddressModal.HandleSave | components/AddAddressModal.tsx:102-144 | a validation failure sets its message and makes no RPC; no user gives "Failed to save address"; otherwise `add_user_address` carries the untrimmed title and address with `p_is_default` false, then `onSuccess`, `onClose` on success or "Failed to save address" on error; `loading` ends false on every path |
| OrderConfirmation.CountdownValue | components/OrderConfirmationModal.tsx:37-45 | k ticks take k off the time left, never going below zero |
| OrderConfirmation.CancelWindow | components/OrderConfirmationModal.tsx:24-45 | from 60, the time stays within 0..60, equals 60 - k after k <= 60 ticks, and the cancel section shows until the 60th tick and never after it |
| OrderConfirmation.Title | components/OrderConfirmationModal.tsx:129 | the heading reads "Order Cancelled" iff cancelled |
| OrderConfirmation.CallTarget | components/OrderConfirmationModal.tsx:89-92 | no target without a contact; otherwise `tel:` followed by exactly the contact |
| OrderConfirmation.CancelErrorText | components/OrderConfirmationModal.tsx:82 | a thrown `Error` shows its message, anything else "Failed to cancel order" |
| OrderConfirmation.OrderConfirmationModal.constructor | components/OrderConfirmationModal.tsx:24-29 | the initial state; the time left starts at 60 |
| OrderConfirmation.OrderConfirmationModal.Tick | components/OrderConfirmationModal.tsx:37-45 | one tick takes one off only while visible, not cancelled and time remains; the time stays within 0..60, and once cancelled it stops |
| OrderConfirmation.OrderConfirmationModal.HandleCancel | components/OrderConfirmationModal.tsx:69-87 | one `cancel_water_delivery` call; success sets `cancelled`; failure sets the error and keeps `cancelled`; `cancelled` never goes back to false; `loading` ends false |
| OrderConfirmation.OrderConfirmationModal.FetchSupplierContact | components/OrderConfirmationModal.tsx:53-67 | a row read sets the contact; a failure keeps it |
| OrderConfirmation.OrderConfirmationModal.HandleCall | components/OrderConfirmationModal.tsx:89-101 | nothing without a contact; otherwise one dial request for `tel:<contact>` |
| OrderConfirmation.OrderConfirmationModal.OpenChat | components/OrderConfirmationModal.tsx:175 | the chat opens |
| Search.Filter | components/SearchOverlay.tsx:126-129 | the result holds exactly the table rows whose lowercased title or address contains the lowercased query, and never more rows than the table |
| Search.FilterOne | components/SearchOverlay.tsx:126-129 | a single row is kept iff it matches the query |
| Search.FilterAppend | components/SearchOverlay.tsx:126-129 | filtering a concatenation is the concatenation of the filtered parts, so the kept rows stay in table order |
| Search.FilterIgnoresCase | components/SearchOverlay.tsx:126-129 | the filter gives the same rows for a query and its lowercase form |
| Search.DeviceLocation | components/SearchOverlay.tsx:132-140 | distances are measured only when the permission is "granted" and a position is obtained |
| Search.Annotate | components/SearchOverlay.tsx:143-154 | each result keeps its place, and gains a distance exactly when both ends are known |
| Search.InsertPermutes | components/SearchOverlay.tsx:157-162 | inserting one result only reorders |
| Search.SortPermutes | components/SearchOverlay.tsx:157-162 | the sort is a permutation of the filtered results |
| Search.InsertSorted | components/SearchOverlay.tsx:157-162 | inserting a measured result into a list ordered by distance keeps it ordered |
| Search.SortSorts | components/SearchOverlay.tsx:157-162 | when every result has a non-zero distance, the sorted list is ordered nearest first |
| Search.SortKeepsUnmeasured | components/SearchOverlay.tsx:157-162 | with no distances every comparison returns 0 and the order is kept |
| Search.TableRows | components/SearchOverlay.tsx:19-68 | every table row has coordinates and no distance |
| Search.SuggestionsSpec | components/SearchOverlay.tsx:111-167 | Current Location and the two saved places come first; then the two recent places for a blank query, or a permutation of the annotated matching rows otherwise |
| Search.UnlocatedKeepsOrder | components/SearchOverlay.tsx:126-167 | without the device location, the results are the matching rows in table order |
| Search.LocatedSortsByDistance | components/SearchOverlay.tsx:143-167 | with the device location and no zero distance, the results come nearest first |
| Search.GetIcon | components/SearchOverlay.tsx:207-220 | saved, recent and location get Home, Clock and Building2; everything else, "current" included, gets MapPin |
| Search.IconsOfLists | components/SearchOverlay.tsx:207-220 | each listed suggestion gets the icon of the list it came from |
| Search.SearchOverlay.constructor | components/SearchOverlay.tsx:94-95 | the list starts empty and not loading |
| Search.SearchOverlay.FetchSuggestions | components/SearchOverlay.tsx:107-175 | the list becomes the composed suggestions, or empty when the handler throws; `isLoading` ends false |
| WaterVolume.ConfirmEnabledIff | components/WaterVolumeModal.tsx:213 | Confirm Order is enabled iff not loading, a default address exists, and a wallet payment is covered; the add-money prompt implies it is disabled |
| WaterVolume.NoAddressBlocksConfirm | components/WaterVolumeModal.tsx:87-98 | while "Add Delivery Address" replaces the address card, Confirm Order is disabled; with an address, nothing loading and a non-wallet method, it is enabled |
| WaterVolume.WaterVolumeModal.constructor | components/WaterVolumeModal.tsx:6-21 | the initial state, with payment method "wallet" |
| WaterVolume.WaterVolumeModal.Open | components/WaterVolumeModal.tsx:29-39 | opening with a container starts both loads and resets step, date and both inline forms, keeping the payment method and top-up amount; otherwise nothing changes |
| WaterVolume.WaterVolumeModal.SelectWallet | components/WaterVolumeModal.tsx:160 | the payment method becomes "wallet" |
| WaterVolume.WaterVolumeModal.OpenAddMoney | components/WaterVolumeModal.tsx:173 | the top-up form opens |
| WaterVolume.WaterVolumeModal.SetMoneyAmount | components/WaterVolumeModal.tsx:191 | the top-up field holds the typed text |
| WaterVolume.WaterVolumeModal.OpenAddAddress | components/WaterVolumeModal.tsx:95 | the address form opens |
| Chat.SendEnabledIff | components/ChatModal.tsx:159 | the send button is enabled iff no send is in flight and the text has a non-whitespace character |
| Chat.PaneOf | components/ChatModal.tsx:125-144 | loading first, then "No messages yet" iff no messages, then the list of exactly the messages |
| Chat.SideOf | components/ChatModal.tsx:135 | a bubble is on the supplier side iff `is_supplier` |
| Chat.ChatModal.constructor | components/ChatModal.tsx:31-34 | the initial state |
| Chat.ChatModal.SetNewMessage | components/ChatModal.tsx:151 | the text field holds the typed text |
| Chat.ChatModal.FetchMessages | components/ChatModal.tsx:49-63 | one `get_chat_messages` call; success replaces the list with `data \|\| []`; an error keeps it; `loading` ends false |
| Chat.ChatModal.SendMessage | components/ChatModal.tsx:84-101 | blank text does nothing; otherwise the trimmed text, non-empty and its own trim, is sent, the field is cleared only on success, and `sending` ends false; whenever the send button is enabled, a press sends exactly the trimmed text |
| DeliveryAddress.PaneOf | components/DeliveryAddressModal.tsx:110-117 | loading, then the error, then "No saved addresses", then exactly the addresses |
| DeliveryAddress.AddressIcon | components/DeliveryAddressModal.tsx:124-130 | a row gets the Home icon iff its lowercased title is "home", Building2 iff it is "office", and MapPin for every other title |
| DeliveryAddress.AddressIconIgnoresCase | components/DeliveryAddressModal.tsx:124-130 | for every title, the icon depends on the lowercased title only; "Home" gets Home, "OFFICE" Building2 and "Work" MapPin |
| DeliveryAddress.DeliveryAddressModal.constructor | components/DeliveryAddressModal.tsx:31-34 | the initial state, loading |
| DeliveryAddress.DeliveryAddressModal.FetchAddresses | components/DeliveryAddressModal.tsx:48-70 | the error is cleared on entry; success replaces the list; no user or a query error gives "Failed to load addresses" and keeps the list; `loading` ends false |
| DeliveryAddress.DeliveryAddressModal.OpenAddAddress | components/DeliveryAddressModal.tsx:100 | the new-address form opens |
| DeliveryAddress.DeliveryAddressModal.HandleAddressSuccess | components/DeliveryAddressModal.tsx:72-75 | the new-address form closes, then the list loads again: no request without a signed-in user, one request for the user otherwise, and the list, error and `loading` as `fetchAddresses` leaves them |
| DeliveryAddress.DeliveryAddressModal.Tap | components/DeliveryAddressModal.tsx:121 | tapping a row passes exactly that address to `onAddressSelect` |
| Alerts.ExpectedAlertsSpec | components/AlertsOverlay.tsx:39-99 | the location alert iff not web and the status read is not "granted"; the profile alert iff a user, no query error, and a missing name, phone or address; at most one of each, location first |
| Alerts.ProfileCheckIndependent | components/AlertsOverlay.tsx:61-67 | the outcome of the location check never affects the profile check |
| Alerts.BannerShownIff | components/AlertsOverlay.tsx:107-109 | with fonts loaded and the check done, the banner shows iff the location or the profile check asks for its alert; it never shows while checking |
| Alerts.AlertsOverlay.constructor | components/AlertsOverlay.tsx:19-20 | no alerts, checking |
| Alerts.AlertsOverlay.CheckAlerts | components/AlertsOverlay.tsx:37-107 | the list is rebuilt from scratch by pushes and equals `ExpectedAlerts`; `checking` ends false |
| Home.MapRegion | app/home.tsx:57-72 | the selected place, else the device position, else (12.9716, 77.5946), always with deltas 0.0922 and 0.0421 |
| Home.ChosenFix | app/home.tsx:189-196 | the last known position if any, else a fresh one; none if a call threw |
| Home.GeocodeQuery | app/home.tsx:168 | the address if present and non-empty, else the title |
| Home.RenderedMapFollowsDevice | app/home.tsx:207-209 | whenever the screen draws, the map with no selected place centres on the device position; with fonts loaded it draws nothing only while no position is known |
| Home.HomeScreen.constructor | app/home.tsx:96-99 | the initial state |
| Home.HomeScreen.LoadInitialLocation | app/home.tsx:136-146 | with permission granted, the fresh position becomes the location |
| Home.HomeScreen.BackPress | app/home.tsx:148-157 | consumed, hiding the overlay, iff the overlay is shown |
| Home.HomeScreen.GoToCurrentLocation | app/home.tsx:181-205 | a denied permission alerts and changes nothing; a failure alerts "Failed to get location"; success sets the location, clears the selection, sets the query to "Current Location", and the map centres on the fix |
| Home.HomeScreen.HandleLocationSelect | app/home.tsx:160-205 | "current" runs `goToCurrentLocation`: a thrown permission request or no fix alerts the GPS failure, a refused permission alerts the denial, each leaving location, selection and query unchanged, and a fix becomes the location with "Current Location" as query; coordinates are taken with the title as query; otherwise one geocoding request, whose first result is taken, and none leaves selection and query; the overlay always closes |
| Home.HomeScreen.OpenSearch | app/home.tsx:242 | the search overlay opens |
| Profile.WithField | app/profile.tsx:147-165 | a field edit sets that field and leaves the other fields and the photo |
| Profile.WithFieldLaws | app/profile.tsx:147-165 | re-typing a field's value changes nothing; of two edits to a field the last wins |
| Profile.UpdateFor | app/profile.tsx:59-66 | the update carries name, phone and address for the row whose email is the current email field |
| Profile.ProfileScreen.constructor | app/profile.tsx:22-29 | not editing, with the initial profile values |
| Profile.ProfileScreen.HandleSave | app/profile.tsx:57-75 | one update; success leaves editing mode and alerts success; failure alerts and stays |
| Profile.ProfileScreen.EditButton | app/profile.tsx:116 | enters editing when not editing, saves when editing |
| Profile.ProfileScreen.HandlePhotoSelect | app/profile.tsx:37-55 | only the photo changes, and only to a present, non-empty first URI; a throw, including reading a missing first asset, alerts |
| Profile.ProfileScreen.SetField | app/profile.tsx:147-165 | each row's edit changes only its own field |

## Left out

- Backend state: every Supabase query and RPC is an answer passed to the handler, so the wallet, orders, addresses and messages stored server-side are not modelled.
- Floating point: the haversine `calculateDistance` is a distance function the caller supplies (only its results are compared); `toFixed` in the payment link and price labels and the web map's bounding-box arithmetic are not modelled; amounts and coordinates are exact reals.
- Timing and concurrency: the realtime chat subscription, the 10-second alert polling, the 300 ms search debounce, the 2-second simulated top-up delay and the interleaving of in-flight async handlers are not modelled; each handler runs to completion with its answers given, and the countdown interval is one `Tick` per firing.
- Payment hand-off: a reply without `link_id` stores `undefined` as the link id, modelled as `None`, which the confirmation request then carries. The HTTP requests to the payment-link service, `Math.random` (the link id is a parameter), reading and parsing AsyncStorage `userdata` (a parameter holding the phone or the thrown message) and the WebView are not modelled beyond their results.
- Device calls: permission requests, positions, geocoding, the image picker and `Linking.canOpenURL`/`openURL` are answers passed in, or requests logged in `events`.
- Auth and session plumbing (AuthContext, SessionContext, `useAuth`, the Supabase client, the root layout) and presentation-only components (loading animation, profile menu, web view wrapper, styles, fonts, theme) are not part of this model.
- Numbers.ToDecimal: JavaScript prints whole numbers of 10^21 and above in exponent form (`1e+21`); the model writes every natural number as plain digits, which matches JavaScript only below 10^21, the range the quick amounts lie in.
- Numbers.Number: JavaScript `Number()` is modelled for blank input, an optional sign, digits and an optional fraction; exponents, hex, `Infinity` and other forms count as NaN here.
- Strings.Lower: `toLowerCase` is modelled on ASCII letters only, and `\w` in the UPI regular expression is ASCII as in JavaScript without the `u` flag.
- Search.SortByDistance: `Array.prototype.sort` on a fresh array is modelled as a function on sequences (a stable insertion sort); the in-place update of that array is not modelled, and when some distance is exactly 0 the comparator is inconsistent, so the engine's order may differ from this one.
- WaterVolumeModal: its source is truncated; `handleConfirmOrder`, `handleAddMoney`, `handleAddAddress`, `fetchWalletBalance`, `fetchDefaultAddress` and the address-form and date-picker handlers are referenced but not present, so they are not modelled; the gates are predicates over the state they read.
- Payment.PaymentModal: `fetchWalletBalance` is never called (its effect is commented out), so the wallet balance stays 0; the fetch itself is not modelled.
- OrderConfirmation.OrderConfirmationModal: the 60-tick window is a client counter only; `handleCancel` does not consult it, and nothing ties it to the order's creation time.
- The `null` returns of WaterVolumeModal before fonts load or without a container, and DeliveryAddressModal's "Default" badge, are presentation gates with no rule to state; they are not modelled.
- Component effects that only call a modelled handler (opening a modal, the first `checkAlerts`) are not separate members; the caller runs the handler.
