/**
 * config.go: profiles (named sets of call defaults), their defaulting, the
 * configuration that maps profile IDs to profiles, and the defaulting pass
 * that follows TOML decoding. A profile is an object: SetDefaults updates it
 * through a pointer and the configuration hands out the stored pointer.
 */
module Profiles {
  import opened Wrappers
  import opened Errors
  import opened Els

  // The three output modes (config.go:20-22).
  const OutputWhole: string := "wholeResponse"
  const OutputBodyOnly: string := "bodyOnly"
  const OutputStatusCodeOnly: string := "statusCodeOnly"

  // The values SetDefaults fills in (config.go:55, 63).
  const DefaultMaxAPITries: int := 2
  const DefaultAPITimeoutSecs: int := 30

  /** The value held by a Profile object (its Sign method is not modelled). */
  datatype Settings = Settings(accessKey: AccessKey, maxAPITries: int, output: string, apiTimeoutSecs: int)

  /** The zero value Profile{}. */
  const ZeroSettings := Settings(ZeroAccessKey, 0, "", 0)

  /** No field that SetDefaults looks at holds its zero value. */
  predicate Defaulted(s: Settings) {
    s.maxAPITries != 0 && s.output != "" && s.apiTimeoutSecs != 0
  }

  /** What SetDefaults makes of a profile: each zero-valued field gets its default. */
  function WithDefaults(s: Settings): (r: Settings)
    ensures Defaulted(r)
    ensures Defaulted(s) ==> r == s
    ensures r.accessKey == s.accessKey
    ensures s.maxAPITries != 0 ==> r.maxAPITries == s.maxAPITries
    ensures s.maxAPITries == 0 ==> r.maxAPITries == DefaultMaxAPITries
    ensures s.output != "" ==> r.output == s.output
    ensures s.output == "" ==> r.output == OutputWhole
    ensures s.apiTimeoutSecs != 0 ==> r.apiTimeoutSecs == s.apiTimeoutSecs
    ensures s.apiTimeoutSecs == 0 ==> r.apiTimeoutSecs == DefaultAPITimeoutSecs
  {
    s.(maxAPITries := if s.maxAPITries == 0 then DefaultMaxAPITries else s.maxAPITries,
       output := if s.output == "" then OutputWhole else s.output,
       apiTimeoutSecs := if s.apiTimeoutSecs == 0 then DefaultAPITimeoutSecs else s.apiTimeoutSecs)
  }

  /** Defaulting twice is defaulting once. */
  lemma WithDefaultsIdempotent(s: Settings)
    ensures WithDefaults(WithDefaults(s)) == WithDefaults(s)
  {
  }

  /**
   * Only the zero value is replaced: a negative retry count stays negative,
   * so "at least one try after defaulting" does not hold.
   */
  lemma NegativeTriesSurviveDefaults(s: Settings)
    requires s.maxAPITries < 0
    ensures WithDefaults(s).maxAPITries == s.maxAPITries < 1
  {
  }

  /** The defaults of a fresh profile: two tries, whole responses, 30 seconds, no key. */
  lemma DefaultProfileSettings()
    ensures WithDefaults(ZeroSettings) == Settings(ZeroAccessKey, 2, "wholeResponse", 30)
  {
  }

  class Profile {
    var accessKey: AccessKey
    var maxAPITries: int
    var output: string
    var apiTimeoutSecs: int

    function Value(): Settings
      reads this
    {
      Settings(accessKey, maxAPITries, output, apiTimeoutSecs)
    }

    /** A profile literal, or one the TOML decoder allocated. */
    constructor (s: Settings)
      ensures Value() == s
    {
      accessKey, maxAPITries, output, apiTimeoutSecs := s.accessKey, s.maxAPITries, s.output, s.apiTimeoutSecs;
    }

    /** Replaces every zero-valued field by its default and leaves the rest alone. */
    method SetDefaults()
      modifies this
      ensures Value() == WithDefaults(old(Value()))
    {
      if maxAPITries == 0 {
        maxAPITries := DefaultMaxAPITries;
      }
      if output == "" {
        output := OutputWhole;
      }
      if apiTimeoutSecs == 0 {
        apiTimeoutSecs := DefaultAPITimeoutSecs;
      }
    }
  }

  /** A new profile holding the defaults. */
  method NewProfile() returns (p: Profile)
    ensures fresh(p)
    ensures p.Value() == WithDefaults(ZeroSettings)
    ensures p.Value() == Settings(ZeroAccessKey, DefaultMaxAPITries, OutputWhole, DefaultAPITimeoutSecs)
  {
    p := new Profile(ZeroSettings);
    p.SetDefaults();
  }

  class Config {
    /** Profiles by ID; the map holds pointers, so lookups share the stored objects. */
    var profiles: map<string, Profile>

    constructor (profiles: map<string, Profile>)
      ensures this.profiles == profiles
    {
      this.profiles := profiles;
    }

    /**
     * The stored profile for a known ID; otherwise a new default profile
     * together with ProfileNotFound. The map itself is never changed.
     */
    method Profile(profileID: string) returns (p: Profile, err: Option<Error>)
      ensures profileID in profiles ==> p == profiles[profileID] && err == None
      ensures profileID !in profiles ==>
        fresh(p) && p.Value() == WithDefaults(ZeroSettings) && err == Some(ProfileNotFound)
    {
      if profileID in profiles {
        return profiles[profileID], None;
      }
      p := NewProfile();
      err := Some(ProfileNotFound);
    }
  }

  /**
   * ReadTOML after decoding: the decoded profiles (and the decoder's error,
   * returned even when decoding failed) become the configuration, and every
   * decoded profile is defaulted. Two IDs may share one profile object: a
   * second SetDefaults on it changes nothing.
   */
  method ReadTOML(decoded: map<string, Profile>, decodeErr: Option<Error>) returns (c: Config, err: Option<Error>)
    modifies decoded.Values
    ensures fresh(c) && c.profiles == decoded && err == decodeErr
    ensures forall id :: id in decoded ==> decoded[id].Value() == WithDefaults(old(decoded[id].Value()))
  {
    c := new Config(decoded);
    var pending := decoded.Keys;
    while pending != {}
      invariant pending <= decoded.Keys
      invariant forall id :: id in decoded && id !in pending ==>
        decoded[id].Value() == WithDefaults(old(decoded[id].Value()))
      invariant forall id :: id in decoded && id in pending ==>
        decoded[id].Value() == old(decoded[id].Value()) ||
        decoded[id].Value() == WithDefaults(old(decoded[id].Value()))
      invariant c.profiles == decoded
      decreases pending
    {
      var id :| id in pending;
      decoded[id].SetDefaults();
      pending := pending - {id};
    }
    err := decodeErr;
  }
}
