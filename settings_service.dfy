/** `SettingsService`: reads and rewrites the single settings record kept in
    `settings.json` next to the executable. */
module SettingsServices {
  import opened Wrappers
  import opened Models
  import opened FileSystems

  /** The sub-folder of the user profile that serves as the default download path. */
  const DownloadsFolder := "Downloads"

  /** What `settings.json` holds: a record that deserializes, or content that does not
      (or cannot be read). */
  datatype SettingsFile = Readable(settings: SettingsModel) | Unreadable

  predicate IsNullOrEmpty(s: Option<string>) {
    s.None? || s.value == []
  }

  /** `GetSettings` over the stored file: a fresh record when there is no file or it
      cannot be read, and otherwise the stored record, its download path defaulted to
      the profile's `Downloads` folder when empty or missing. */
  function LoadSettings(stored: Option<SettingsFile>, userProfile: string): SettingsModel {
    match stored
    case None => EmptySettings
    case Some(Unreadable) => EmptySettings
    case Some(Readable(settings)) =>
      if IsNullOrEmpty(settings.downloadUpdatesPath)
      then settings.(downloadUpdatesPath := Some(Combine(userProfile, DownloadsFolder)))
      else settings
  }

  /** Without a readable record every setting is unset, the download path included; a
      readable one keeps every other field and always comes with a download path. */
  lemma LoadSettingsSpec(stored: Option<SettingsFile>, userProfile: string)
    ensures !(stored.Some? && stored.value.Readable?) ==> LoadSettings(stored, userProfile) == EmptySettings
    ensures stored.Some? && stored.value.Readable? ==>
      var s := stored.value.settings;
      var loaded := LoadSettings(stored, userProfile);
      loaded.(downloadUpdatesPath := s.downloadUpdatesPath) == s
      && !IsNullOrEmpty(loaded.downloadUpdatesPath)
      && (!IsNullOrEmpty(s.downloadUpdatesPath) ==> loaded == s)
      && (IsNullOrEmpty(s.downloadUpdatesPath) ==>
            loaded.downloadUpdatesPath == Some(Combine(userProfile, DownloadsFolder)))
  {
    if stored.Some? && stored.value.Readable? {
      var s := stored.value.settings;
      if IsNullOrEmpty(s.downloadUpdatesPath) {
        var p := Combine(userProfile, DownloadsFolder);
        assert p != [] by {
          if userProfile != [] && !IsSeparator(userProfile[|userProfile| - 1]) {
            assert |p| == |userProfile| + 1 + |DownloadsFolder|;
          }
        }
      }
    }
  }

  /** A saved record with a download path reads back exactly. */
  lemma LoadSaved(settings: SettingsModel, userProfile: string)
    requires !IsNullOrEmpty(settings.downloadUpdatesPath)
    ensures LoadSettings(Some(Readable(settings)), userProfile) == settings
  {
  }

  /** After `UpdateDownloadPath(p)` with a non-empty `p` the settings read back are the
      earlier ones with only the download path changed to `p`. */
  lemma UpdateDownloadPathReadsBack(stored: Option<SettingsFile>, userProfile: string, path: string)
    requires path != []
    ensures var updated := LoadSettings(stored, userProfile).(downloadUpdatesPath := Some(path));
      LoadSettings(Some(Readable(updated)), userProfile) == updated
  {
  }

  /** After `SaveWithoutDownloadPath(s)` over a readable record the settings read back
      are `s` with the download path that was in effect before. */
  lemma SaveWithoutDownloadPathReadsBack(stored: Option<SettingsFile>, userProfile: string, settings: SettingsModel)
    requires stored.Some? && stored.value.Readable?
    ensures var current := LoadSettings(stored, userProfile);
      var saved := settings.(downloadUpdatesPath := current.downloadUpdatesPath);
      LoadSettings(Some(Readable(saved)), userProfile) == saved
      && LoadSettings(Some(Readable(saved)), userProfile).downloadUpdatesPath == current.downloadUpdatesPath
  {
    LoadSettingsSpec(stored, userProfile);
  }

  class SettingsService {
    /** `settings.json`: absent, or its content. */
    var stored: Option<SettingsFile>
    /** Whether `settings.json` can be opened for writing. */
    const writable: bool
    /** `Environment.SpecialFolder.UserProfile` */
    const userProfile: string

    constructor(stored: Option<SettingsFile>, writable: bool, userProfile: string)
      ensures this.stored == stored && this.writable == writable && this.userProfile == userProfile
    {
      this.stored := stored;
      this.writable := writable;
      this.userProfile := userProfile;
    }

    /** `GetSettings`; nothing is written back. */
    function GetSettings(): SettingsModel
      reads this
    {
      LoadSettings(stored, userProfile)
    }

    /** `Save`: replaces the whole record; a file that cannot be written is left as it
        was, and the error goes no further. */
    method Save(settings: SettingsModel)
      modifies this`stored
      ensures stored == if writable then Some(Readable(settings)) else old(stored)
    {
      if writable {
        stored := Some(Readable(settings));
      }
    }

    /** `UpdateDownloadPath`: the current settings with only the download path changed. */
    method UpdateDownloadPath(path: Option<string>)
      modifies this`stored
      ensures stored == if writable then Some(Readable(old(GetSettings()).(downloadUpdatesPath := path))) else old(stored)
    {
      var settings := GetSettings();
      settings := settings.(downloadUpdatesPath := path);
      Save(settings);
    }

    /** `SaveWithoutDownloadPath`: `settings` with the current download path, which also
        ends up in the caller's record, returned here as `updated`. */
    method SaveWithoutDownloadPath(settings: SettingsModel) returns (updated: SettingsModel)
      modifies this`stored
      ensures updated == settings.(downloadUpdatesPath := old(GetSettings()).downloadUpdatesPath)
      ensures stored == if writable then Some(Readable(updated)) else old(stored)
    {
      var currentSettings := GetSettings();
      updated := settings.(downloadUpdatesPath := currentSettings.downloadUpdatesPath);
      Save(updated);
    }
  }
}
