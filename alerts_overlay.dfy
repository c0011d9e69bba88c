/** The banner of pending alerts (components/AlertsOverlay.tsx): a location alert when location
    permission is missing, a profile alert when the profile lacks a name, phone or address. Each
    check is rebuilt from the platform, the permission answer, the auth answer and the profile row,
    which are the parameters of `CheckAlerts`; the 10-second re-check is not part of this model. */
module Alerts {
  import opened Wrappers

  datatype AlertKind = LocationKind | ProfileKind

  /** What the alert's button does: ask for permission and re-check, or open the profile editor. */
  datatype AlertAction = RequestPermissionAndRecheck | OpenEditProfile

  datatype Alert = Alert(kind: AlertKind, title: string, message: string, action: string, onPress: AlertAction)

  const LocationAlert := Alert(LocationKind, "Location Access Required",
    "Please enable location services to find nearby water suppliers.", "Enable Location",
    RequestPermissionAndRecheck)

  const ProfileAlert := Alert(ProfileKind, "Complete Your Profile",
    "Please complete your profile information for better service.", "Update Profile", OpenEditProfile)

  /** The answer of `auth.getUser()`: an error (returned or thrown), no user, or the user's id. */
  datatype AuthAnswer = AuthFailed | NoUser | SignedIn(id: string)

  /** The answer of the `profiles` query: an error (returned or thrown), or the row's three fields. */
  datatype ProfileAnswer = ProfileFailed | ProfileRow(name: Option<string>, phone: Option<string>, address: Option<string>)

  /** The location check adds its alert when not on the web and the permission status read is not
      "granted"; `permission` is `None` when reading it threw, which adds nothing. */
  predicate NeedsLocationAlert(isWeb: bool, permission: Option<string>) {
    !isWeb && permission.Some? && permission.value != "granted"
  }

  /** The profile check adds its alert when a user is signed in, the query succeeded, and one of name,
      phone or address is missing or empty. */
  predicate NeedsProfileAlert(auth: AuthAnswer, profile: ProfileAnswer) {
    auth.SignedIn? && profile.ProfileRow?
    && (!Truthy(profile.name) || !Truthy(profile.phone) || !Truthy(profile.address))
  }

  /** The list `checkAlerts` sets: the location alert, if due, then the profile alert, if due. */
  function ExpectedAlerts(isWeb: bool, permission: Option<string>, auth: AuthAnswer, profile: ProfileAnswer)
    : seq<Alert>
  {
    (if NeedsLocationAlert(isWeb, permission) then [LocationAlert] else [])
    + (if NeedsProfileAlert(auth, profile) then [ProfileAlert] else [])
  }

  /** Each alert is present exactly when its check asks for it, there is at most one of each, and
      the location alert comes first. */
  lemma ExpectedAlertsSpec(isWeb: bool, permission: Option<string>, auth: AuthAnswer, profile: ProfileAnswer)
    ensures var r := ExpectedAlerts(isWeb, permission, auth, profile);
      && (LocationAlert in r <==> NeedsLocationAlert(isWeb, permission))
      && (ProfileAlert in r <==> NeedsProfileAlert(auth, profile))
      && |r| <= 2
      && (forall i :: 0 <= i < |r| ==> r[i] == LocationAlert || r[i] == ProfileAlert)
      && (forall i, j :: 0 <= i < j < |r| ==> r[i] != r[j])
      && (forall i :: 0 <= i < |r| && r[i] == ProfileAlert ==> i == |r| - 1)
  {
  }

  /** A location check that fails or is skipped never changes the outcome of the profile check. */
  lemma ProfileCheckIndependent(isWeb: bool, p1: Option<string>, p2: Option<string>,
                                auth: AuthAnswer, profile: ProfileAnswer)
    ensures (ProfileAlert in ExpectedAlerts(isWeb, p1, auth, profile))
        == (ProfileAlert in ExpectedAlerts(isWeb, p2, auth, profile))
  {
    ExpectedAlertsSpec(isWeb, p1, auth, profile);
    ExpectedAlertsSpec(isWeb, p2, auth, profile);
  }

  /** The component draws nothing until fonts load, while checking, or with no alerts. */
  predicate Renders(fontsLoaded: bool, checking: bool, alerts: seq<Alert>) {
    fontsLoaded && !checking && |alerts| > 0
  }

  /** Once fonts are loaded and the check is done, the banner shows exactly when one of the two
      checks asks for its alert; it never shows while checking. */
  lemma BannerShownIff(fontsLoaded: bool, isWeb: bool, permission: Option<string>, auth: AuthAnswer,
                       profile: ProfileAnswer)
    ensures Renders(true, false, ExpectedAlerts(isWeb, permission, auth, profile))
      <==> NeedsLocationAlert(isWeb, permission) || NeedsProfileAlert(auth, profile)
    ensures !Renders(fontsLoaded, true, ExpectedAlerts(isWeb, permission, auth, profile))
  {
  }

  class AlertsOverlay {
    var alerts: seq<Alert>
    var checking: bool

    constructor ()
      ensures alerts == [] && checking
    {
      alerts, checking := [], true;
    }

    /** `checkAlerts`: a fresh list is built by pushing the location alert, then the profile alert,
        and replaces the old one. */
    method CheckAlerts(isWeb: bool, permission: Option<string>, auth: AuthAnswer, profile: ProfileAnswer)
      modifies this`alerts, this`checking
      ensures alerts == ExpectedAlerts(isWeb, permission, auth, profile)
      ensures !checking
    {
      var newAlerts: seq<Alert> := [];
      if !isWeb {
        if permission.Some? && permission.value != "granted" {
          newAlerts := newAlerts + [LocationAlert];
        }
      }
      match auth {
        case AuthFailed =>
        case NoUser =>
        case SignedIn(_) =>
          match profile {
            case ProfileFailed =>
            case ProfileRow(name, phone, address) =>
              if !Truthy(name) || !Truthy(phone) || !Truthy(address) {
                newAlerts := newAlerts + [ProfileAlert];
              }
          }
      }
      alerts := newAlerts;
      checking := false;
    }
  }
}
