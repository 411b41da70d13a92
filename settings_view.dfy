/**
 * The member settings screen (pages/dashboard/SettingsView.tsx): the settings
 * form seeded from the stored preferences and the profile, the save that
 * merges them into the preferences document and renames the profile, and the
 * profile picture upload.
 */
module SettingsView {
  import opened Records

  /** The stored preferences; every field may be absent. */
  datatype UserSettings = UserSettings(
    farmName: Option<string>,
    contactName: Option<string>,
    phoneNumber: Option<string>,
    notifyMarket: Option<bool>,
    notifyNews: Option<bool>,
    notifyPrice: Option<bool>)

  /** `x || ''` for an optional text. */
  function TextOrEmpty(x: Option<string>): (r: string)
    ensures x.Some? ==> r == x.value
    ensures x.None? ==> r == ""
  {
    if x.Some? then x.value else ""
  }

  /** `x ?? true`: only an absent flag defaults; an explicit `false` is kept. */
  function FlagOrTrue(x: Option<bool>): (r: bool)
    ensures x.Some? ==> r == x.value
    ensures x.None? ==> r
  {
    if x.Some? then x.value else true
  }

  /** The contact name the form starts with: the profile's name if it has one, else the stored one. */
  function InitialContactName(initial: UserSettings, profile: Option<Profile>): (r: string)
    ensures profile.Some? && profile.value.name != "" ==> r == profile.value.name
    ensures !(profile.Some? && profile.value.name != "") ==> r == TextOrEmpty(initial.contactName)
  {
    if profile.Some? && profile.value.name != "" then profile.value.name else TextOrEmpty(initial.contactName)
  }

  /** Every field is present: the form never holds an absent value after seeding. */
  predicate Complete(s: UserSettings)
  {
    s.farmName.Some? && s.contactName.Some? && s.phoneNumber.Some? &&
    s.notifyMarket.Some? && s.notifyNews.Some? && s.notifyPrice.Some?
  }

  /** The seeding effect: texts default to empty, flags to on, and the profile name wins for the contact. */
  function Normalize(initial: UserSettings, profile: Option<Profile>): (s: UserSettings)
    ensures Complete(s)
    ensures s.farmName == Some(TextOrEmpty(initial.farmName)) && s.phoneNumber == Some(TextOrEmpty(initial.phoneNumber))
    ensures s.contactName == Some(InitialContactName(initial, profile))
    ensures s.notifyMarket == Some(FlagOrTrue(initial.notifyMarket))
    ensures s.notifyNews == Some(FlagOrTrue(initial.notifyNews))
    ensures s.notifyPrice == Some(FlagOrTrue(initial.notifyPrice))
  {
    UserSettings(
      Some(TextOrEmpty(initial.farmName)),
      Some(InitialContactName(initial, profile)),
      Some(TextOrEmpty(initial.phoneNumber)),
      Some(FlagOrTrue(initial.notifyMarket)),
      Some(FlagOrTrue(initial.notifyNews)),
      Some(FlagOrTrue(initial.notifyPrice)))
  }

  /** Seeding again from already-seeded settings changes nothing. */
  lemma NormalizeIdempotent(initial: UserSettings, profile: Option<Profile>)
    ensures Normalize(Normalize(initial, profile), profile) == Normalize(initial, profile)
  {
  }

  /** Stored settings that are already complete, with the profile's name as contact, are seeded unchanged. */
  lemma NormalizeKeepsCompleteSettings(s: UserSettings, profile: Option<Profile>)
    requires Complete(s)
    requires profile.Some? && profile.value.name != "" ==> s.contactName == Some(profile.value.name)
    ensures Normalize(s, profile) == s
  {
  }

  datatype TextField = FarmNameField | ContactNameField | PhoneNumberField
  datatype FlagField = NotifyMarketField | NotifyNewsField | NotifyPriceField

  /** A change event: a text input's name and value, or a toggle's name and checked state. */
  datatype InputEvent = TextInput(field: TextField, value: string) | Checkbox(flag: FlagField, checked: bool)

  /** The text field an input's `name` designates. */
  function TextOf(s: UserSettings, f: TextField): Option<string>
  {
    match f
    case FarmNameField => s.farmName
    case ContactNameField => s.contactName
    case PhoneNumberField => s.phoneNumber
  }

  /** The flag a toggle's `name` designates. */
  function FlagOf(s: UserSettings, f: FlagField): Option<bool>
  {
    match f
    case NotifyMarketField => s.notifyMarket
    case NotifyNewsField => s.notifyNews
    case NotifyPriceField => s.notifyPrice
  }

  /**
   * `handleInputChange`: the event's named field takes the typed value (text)
   * or the checked state (toggle), and every other field keeps its value.
   */
  function ApplyInput(s: UserSettings, e: InputEvent): (r: UserSettings)
    ensures e.TextInput? ==> TextOf(r, e.field) == Some(e.value)
    ensures e.TextInput? ==> forall f :: f != e.field ==> TextOf(r, f) == TextOf(s, f)
    ensures e.TextInput? ==> forall g :: FlagOf(r, g) == FlagOf(s, g)
    ensures e.Checkbox? ==> FlagOf(r, e.flag) == Some(e.checked)
    ensures e.Checkbox? ==> forall g :: g != e.flag ==> FlagOf(r, g) == FlagOf(s, g)
    ensures e.Checkbox? ==> forall f :: TextOf(r, f) == TextOf(s, f)
  {
    match e
    case TextInput(FarmNameField, v) => s.(farmName := Some(v))
    case TextInput(ContactNameField, v) => s.(contactName := Some(v))
    case TextInput(PhoneNumberField, v) => s.(phoneNumber := Some(v))
    case Checkbox(NotifyMarketField, c) => s.(notifyMarket := Some(c))
    case Checkbox(NotifyNewsField, c) => s.(notifyNews := Some(c))
    case Checkbox(NotifyPriceField, c) => s.(notifyPrice := Some(c))
  }

  /** Input changes keep a seeded form complete. */
  lemma ApplyInputKeepsComplete(s: UserSettings, e: InputEvent)
    requires Complete(s)
    ensures Complete(ApplyInput(s, e))
  {
  }

  /** The toggles show `?? false` of the form; after seeding that is the stored flag, or on when absent. */
  lemma SeededTogglesShowStoredFlags(initial: UserSettings, profile: Option<Profile>)
    ensures var s := Normalize(initial, profile);
            (if s.notifyMarket.Some? then s.notifyMarket.value else false) == FlagOrTrue(initial.notifyMarket) &&
            (if s.notifyNews.Some? then s.notifyNews.value else false) == FlagOrTrue(initial.notifyNews) &&
            (if s.notifyPrice.Some? then s.notifyPrice.value else false) == FlagOrTrue(initial.notifyPrice)
  {
  }

  /** The profile is renamed when the contact name is non-empty and differs from the profile's name. */
  predicate RenamesProfile(s: UserSettings, profile: Option<Profile>)
  {
    s.contactName.Some? && s.contactName.value != "" &&
    (profile.None? || s.contactName.value != profile.value.name)
  }

  /** The document writes a save or an upload issues. */
  datatype Write =
    | PreferencesMerge(uid: string, settings: UserSettings)
    | ProfileNameMerge(uid: string, name: string)
    | PictureUpload(path: string)
    | PhotoUrlMerge(uid: string, url: string)

  function PicturePath(uid: string): string
  {
    "users/" + uid + "/profile_picture"
  }

  class SettingsForm {
    var settings: UserSettings
    var isSaving: bool
    var saveSuccess: bool
    var uploading: bool

    /** Mounting, with the seeding effect already run. */
    constructor (initial: UserSettings, profile: Option<Profile>)
      ensures settings == Normalize(initial, profile)
      ensures !isSaving && !saveSuccess && !uploading
    {
      settings := Normalize(initial, profile);
      isSaving := false;
      saveSuccess := false;
      uploading := false;
    }

    /** New stored settings or a new profile re-run the seeding effect, discarding unsaved input. */
    method PropsChanged(initial: UserSettings, profile: Option<Profile>)
      modifies this`settings
      ensures settings == Normalize(initial, profile)
    {
      settings := Normalize(initial, profile);
    }

    method InputChange(e: InputEvent)
      modifies this`settings
      ensures settings == ApplyInput(old(settings), e)
    {
      settings := ApplyInput(settings, e);
    }

    /**
     * `handleSave`, given whether each write succeeds: nothing happens without
     * a signed-in user. Otherwise the six fields are merged into the
     * preferences; only after that succeeds is the profile renamed, when the
     * contact name calls for it; success is shown only when every write issued
     * succeeded. Saving is over afterwards.
     */
    method Save(user: Option<User>, profile: Option<Profile>, preferencesOk: bool, profileOk: bool)
      returns (writes: seq<Write>)
      modifies this`isSaving, this`saveSuccess
      ensures user.None? ==> writes == [] && isSaving == old(isSaving) && saveSuccess == old(saveSuccess)
      ensures user.Some? ==> |writes| >= 1 && writes[0] == PreferencesMerge(user.value.uid, settings)
      ensures user.Some? ==>
        (|writes| == 2 <==> preferencesOk && RenamesProfile(settings, profile)) &&
        (|writes| == 2 ==> writes[1] == ProfileNameMerge(user.value.uid, settings.contactName.value)) &&
        |writes| <= 2
      ensures user.Some? ==> !isSaving
      ensures user.Some? ==> (saveSuccess <==> preferencesOk && (RenamesProfile(settings, profile) ==> profileOk))
    {
      if user.None? {
        return [];
      }
      isSaving := true;
      saveSuccess := false;
      var uid := user.value.uid;
      writes := [PreferencesMerge(uid, settings)];
      if preferencesOk {
        var renamed := true;
        if RenamesProfile(settings, profile) {
          writes := writes + [ProfileNameMerge(uid, settings.contactName.value)];
          renamed := profileOk;
        }
        if renamed {
          saveSuccess := true;
        }
      }
      isSaving := false;
    }

    /** The timer three seconds after a successful save. */
    method HideSuccess()
      modifies this`saveSuccess
      ensures !saveSuccess
    {
      saveSuccess := false;
    }

    /**
     * `handleImageUpload`: without a chosen file or a signed-in user nothing
     * happens; otherwise the picture is uploaded to the user's storage path and,
     * only once that succeeds, its download address is merged into the profile.
     */
    method ImageUpload(fileChosen: bool, user: Option<User>, uploadOk: bool, downloadUrl: string)
      returns (writes: seq<Write>)
      modifies this`uploading
      ensures !fileChosen || user.None? ==> writes == [] && uploading == old(uploading)
      ensures fileChosen && user.Some? && !uploadOk ==> writes == [PictureUpload(PicturePath(user.value.uid))]
      ensures fileChosen && user.Some? && uploadOk ==>
                writes == [PictureUpload(PicturePath(user.value.uid)), PhotoUrlMerge(user.value.uid, downloadUrl)]
      ensures fileChosen && user.Some? ==> !uploading
    {
      if !fileChosen || user.None? {
        return [];
      }
      uploading := true;
      writes := [PictureUpload(PicturePath(user.value.uid))];
      if uploadOk {
        writes := writes + [PhotoUrlMerge(user.value.uid, downloadUrl)];
      }
      uploading := false;
    }
  }
}
