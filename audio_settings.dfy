/**
 * The audio settings shared by the whole game: two volumes and two
 * switches, started from the defaults overlaid with whatever record was
 * stored, changed one field at a time, and written back to storage under
 * one key after every change.
 */
module AudioSettings {
  import opened Wrappers

  datatype Settings = Settings(musicVolume: real, sfxVolume: real, musicEnabled: bool, sfxEnabled: bool)

  const Defaults := Settings(0.25, 0.5, true, true)

  /** The storage key the settings live under. */
  const StorageKey := "audio-settings"

  /** A parsed stored record: each field may be present or not. */
  datatype Record = Record(musicVolume: Option<real>, sfxVolume: Option<real>, musicEnabled: Option<bool>, sfxEnabled: Option<bool>)

  /**
   * What reading the key gave: nothing (no entry, or an empty one), text
   * that does not parse, or a parsed record.
   */
  datatype Stored = NothingStored | Unparsable | Parsed(record: Record)

  function OrElse<T>(o: Option<T>, d: T): (r: T)
    ensures o.Some? ==> r == o.value
    ensures o.None? ==> r == d
  {
    if o.Some? then o.value else d
  }

  /** The settings the provider starts from. */
  function InitialSettings(stored: Stored): (s: Settings)
    ensures !stored.Parsed? ==> s == Defaults
    ensures stored.Parsed? ==>
      && s.musicVolume == OrElse(stored.record.musicVolume, Defaults.musicVolume)
      && s.sfxVolume == OrElse(stored.record.sfxVolume, Defaults.sfxVolume)
      && s.musicEnabled == OrElse(stored.record.musicEnabled, Defaults.musicEnabled)
      && s.sfxEnabled == OrElse(stored.record.sfxEnabled, Defaults.sfxEnabled)
  {
    match stored
    case Parsed(r) =>
      Settings(OrElse(r.musicVolume, Defaults.musicVolume), OrElse(r.sfxVolume, Defaults.sfxVolume),
               OrElse(r.musicEnabled, Defaults.musicEnabled), OrElse(r.sfxEnabled, Defaults.sfxEnabled))
    case _ => Defaults
  }

  /** The record that writing the settings to storage produces: every field present. */
  function ToRecord(s: Settings): (r: Record)
    ensures r.musicVolume.Some? && r.sfxVolume.Some? && r.musicEnabled.Some? && r.sfxEnabled.Some?
    ensures InitialSettings(Parsed(r)) == s
  {
    Record(Some(s.musicVolume), Some(s.sfxVolume), Some(s.musicEnabled), Some(s.sfxEnabled))
  }

  /** Reading back what was written gives the same settings. */
  lemma StoreRoundTrip(s: Settings)
    ensures InitialSettings(Parsed(ToRecord(s))) == s
  {
  }

  /** An empty record leaves the defaults in place. */
  lemma EmptyRecordIsDefaults()
    ensures InitialSettings(Parsed(Record(None, None, None, None))) == Defaults
  {
  }

  function WithMusicVolume(s: Settings, v: real): (r: Settings)
    ensures r.musicVolume == v
    ensures r.sfxVolume == s.sfxVolume && r.musicEnabled == s.musicEnabled && r.sfxEnabled == s.sfxEnabled
  {
    s.(musicVolume := v)
  }

  function WithSfxVolume(s: Settings, v: real): (r: Settings)
    ensures r.sfxVolume == v
    ensures r.musicVolume == s.musicVolume && r.musicEnabled == s.musicEnabled && r.sfxEnabled == s.sfxEnabled
  {
    s.(sfxVolume := v)
  }

  function WithMusicEnabled(s: Settings, on: bool): (r: Settings)
    ensures r.musicEnabled == on
    ensures r.musicVolume == s.musicVolume && r.sfxVolume == s.sfxVolume && r.sfxEnabled == s.sfxEnabled
  {
    s.(musicEnabled := on)
  }

  function WithSfxEnabled(s: Settings, on: bool): (r: Settings)
    ensures r.sfxEnabled == on
    ensures r.musicVolume == s.musicVolume && r.sfxVolume == s.sfxVolume && r.musicEnabled == s.musicEnabled
  {
    s.(sfxEnabled := on)
  }

  /** Setters of different fields commute, and a second set of the same field overrides the first. */
  lemma SettersCommute(s: Settings, v: real, w: real, on: bool)
    ensures WithMusicVolume(WithSfxVolume(s, w), v) == WithSfxVolume(WithMusicVolume(s, v), w)
    ensures WithMusicEnabled(WithMusicVolume(s, v), on) == WithMusicVolume(WithMusicEnabled(s, on), v)
    ensures WithSfxEnabled(WithSfxVolume(s, w), on) == WithSfxVolume(WithSfxEnabled(s, on), w)
    ensures WithMusicVolume(WithMusicVolume(s, w), v) == WithMusicVolume(s, v)
  {
  }

  /**
   * The provider: the current settings and the storage they are written
   * to. Every change is followed by the write-back of the whole record.
   */
  class Provider {
    var settings: Settings
    var storage: map<string, Record>

    /** The stored record under the key reads back as the current settings. */
    predicate Persisted()
      reads this
    {
      StorageKey in storage && InitialSettings(Parsed(storage[StorageKey])) == settings
    }

    /** Mounting: the settings come from what was read, and the first write-back follows. */
    constructor (stored: Stored, initialStorage: map<string, Record>)
      ensures settings == InitialSettings(stored)
      ensures storage == initialStorage[StorageKey := ToRecord(settings)]
      ensures Persisted()
    {
      settings := InitialSettings(stored);
      storage := initialStorage[StorageKey := ToRecord(InitialSettings(stored))];
      StoreRoundTrip(InitialSettings(stored));
    }

    /** The write-back effect. */
    method Persist()
      modifies this`storage
      ensures storage == old(storage)[StorageKey := ToRecord(settings)]
      ensures Persisted()
    {
      storage := storage[StorageKey := ToRecord(settings)];
      StoreRoundTrip(settings);
    }

    method SetMusicVolume(v: real)
      modifies this
      ensures settings == WithMusicVolume(old(settings), v)
      ensures storage == old(storage)[StorageKey := ToRecord(settings)]
      ensures Persisted()
    {
      settings := WithMusicVolume(settings, v);
      Persist();
    }

    method SetSfxVolume(v: real)
      modifies this
      ensures settings == WithSfxVolume(old(settings), v)
      ensures storage == old(storage)[StorageKey := ToRecord(settings)]
      ensures Persisted()
    {
      settings := WithSfxVolume(settings, v);
      Persist();
    }

    method SetMusicEnabled(on: bool)
      modifies this
      ensures settings == WithMusicEnabled(old(settings), on)
      ensures storage == old(storage)[StorageKey := ToRecord(settings)]
      ensures Persisted()
    {
      settings := WithMusicEnabled(settings, on);
      Persist();
    }

    method SetSfxEnabled(on: bool)
      modifies this
      ensures settings == WithSfxEnabled(old(settings), on)
      ensures storage == old(storage)[StorageKey := ToRecord(settings)]
      ensures Persisted()
    {
      settings := WithSfxEnabled(settings, on);
      Persist();
    }
  }

  const OutsideProvider := "useAudioSettings must be used within AudioSettingsProvider"

  /** Reading the settings: inside a provider they are its settings, outside it is an error. */
  function UseAudioSettings(context: Option<Settings>): (r: Result<Settings, string>)
    ensures context.Some? <==> r.Ok?
    ensures context.Some? ==> r.value == context.value
    ensures context.None? ==> r.error == OutsideProvider
  {
    match context
    case Some(s) => Ok(s)
    case None => Err(OutsideProvider)
  }
}
