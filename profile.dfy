/** The profile screen (app/profile.tsx): the Edit/Save toggle, saving the edited fields, choosing a
    new photo, and the per-field edits. The profile update and the image picker are handler
    parameters; the alerts and the update request are appended to `events`. */
module Profile {
  import opened Wrappers

  datatype ProfileData = ProfileData(name: string, email: string, phone: string, address: string, photo: string)

  /** The values the screen starts with. */
  const InitialProfile := ProfileData(
    "Trevor Smith", "trevor.does.work@gmail.com", "+1 (555) 123-4567",
    "123 Main Street, San Francisco, CA 94105",
    "https://images.unsplash.com/photo-1633332755192-727a05c4013d?w=400")

  /** The four editable rows. */
  datatype Field = Name | Email | Phone | Address

  function Get(p: ProfileData, f: Field): string {
    match f
    case Name => p.name
    case Email => p.email
    case Phone => p.phone
    case Address => p.address
  }

  /** `{ ...profileData, <field>: text }`: the edited field takes the text, nothing else moves. */
  function WithField(p: ProfileData, f: Field, text: string): (r: ProfileData)
    ensures Get(r, f) == text
    ensures forall g :: g != f ==> Get(r, g) == Get(p, g)
    ensures r.photo == p.photo
  {
    match f
    case Name => p.(name := text)
    case Email => p.(email := text)
    case Phone => p.(phone := text)
    case Address => p.(address := text)
  }

  /** Re-typing a field's own value changes nothing, and of two edits to one field the last wins. */
  lemma WithFieldLaws(p: ProfileData, f: Field, a: string, b: string)
    ensures WithField(p, f, Get(p, f)) == p
    ensures WithField(WithField(p, f, a), f, b) == WithField(p, f, b)
  {
  }

  /** What leaves the screen: the profile update and the alerts. */
  datatype Event =
    | UpdateProfile(email: string, name: string, phone: string, address: string)
    | AlertShown(title: string, message: string)

  const SaveSucceeded := AlertShown("Success", "Profile updated successfully")
  const SaveFailed := AlertShown("Error", "Failed to update profile")
  const PhotoFailed := AlertShown("Error", "Failed to select photo")

  /** The update `handleSave` sends: name, phone and address of the row whose email is the current
      (possibly edited) email field. */
  function UpdateFor(p: ProfileData): (e: Event)
    ensures e.UpdateProfile? && e.email == p.email
    ensures e.name == p.name && e.phone == p.phone && e.address == p.address
  {
    UpdateProfile(p.email, p.name, p.phone, p.address)
  }

  /** The answer of the image picker: canceled, the picked assets' URIs, or it threw. */
  datatype PickerResult = PickerCanceled | Picked(uris: seq<Option<string>>) | PickerThrew

  class ProfileScreen {
    var isEditing: bool
    var profileData: ProfileData
    var events: seq<Event>

    constructor ()
      ensures !isEditing && profileData == InitialProfile && events == []
    {
      isEditing, profileData, events := false, InitialProfile, [];
    }

    /** `handleSave`. `ok` says whether the update returned without error. */
    method HandleSave(ok: bool)
      modifies this`isEditing, this`events
      ensures events == old(events) + [UpdateFor(profileData), if ok then SaveSucceeded else SaveFailed]
      ensures isEditing == (if ok then false else old(isEditing))
    {
      events := events + [UpdateFor(profileData)];
      if ok {
        isEditing := false;
        events := events + [SaveSucceeded];
      } else {
        events := events + [SaveFailed];
      }
    }

    /** The Edit/Save button: enters editing mode, or saves when already editing. */
    method EditButton(saveOk: bool)
      modifies this`isEditing, this`events
      ensures !old(isEditing) ==> isEditing && events == old(events)
      ensures old(isEditing) ==>
        events == old(events) + [UpdateFor(profileData), if saveOk then SaveSucceeded else SaveFailed]
        && isEditing == !saveOk
    {
      if isEditing {
        HandleSave(saveOk);
      } else {
        isEditing := true;
      }
    }

    /** `handlePhotoSelect`: only the photo changes, and only to a present, non-empty URI of the first
        asset; with no asset at all, reading `assets[0].uri` throws and the failure alert shows. */
    method HandlePhotoSelect(result: PickerResult)
      modifies this`profileData, this`events
      ensures profileData.(photo := old(profileData).photo) == old(profileData)
      ensures result.Picked? && result.uris != [] && Truthy(result.uris[0]) ==>
        profileData.photo == result.uris[0].value && events == old(events)
      ensures !(result.Picked? && result.uris != [] && Truthy(result.uris[0])) ==> profileData == old(profileData)
      ensures (result.PickerThrew? || result == Picked([])) ==> events == old(events) + [PhotoFailed]
      ensures !(result.PickerThrew? || result == Picked([])) ==> events == old(events)
    {
      match result {
        case PickerCanceled =>
        case PickerThrew => events := events + [PhotoFailed];
        case Picked(uris) =>
          if uris == [] {
            events := events + [PhotoFailed];
          } else if Truthy(uris[0]) {
            profileData := profileData.(photo := uris[0].value);
          }
      }
    }

    /** A row's `onChangeText`. */
    method SetField(f: Field, text: string)
      modifies this`profileData
      ensures profileData == WithField(old(profileData), f, text)
    {
      profileData := WithField(profileData, f, text);
    }
  }
}
