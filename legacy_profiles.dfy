/**
 * config/config.go: the older configuration package. Its map holds profile
 * values rather than pointers, so a lookup returns a copy and a missing ID
 * yields the zero profile, with no defaults applied.
 */
module LegacyProfiles {
  import opened Wrappers
  import opened Els

  datatype Error = ProfileNotFound

  datatype Profile = Profile(accessKey: AccessKey, customerID: string, vendorID: string, cloudProviderID: string)

  /** The zero value Profile{}. */
  const ZeroProfile := Profile(ZeroAccessKey, "", "", "")

  datatype Config = Config(profiles: map<string, Profile>) {

    /** The stored profile for a known ID; the zero profile and ProfileNotFound otherwise. */
    function Profile(profileID: string): (r: (Profile, Option<Error>))
      ensures r.1 == None <==> profileID in profiles
      ensures r.1 == None ==> r.0 == profiles[profileID]
      ensures r.1 != None ==> r.1 == Some(ProfileNotFound) && r.0 == ZeroProfile
    {
      if profileID in profiles then (profiles[profileID], None) else (ZeroProfile, Some(ProfileNotFound))
    }
  }

  /**
   * Storing a profile under an ID and then looking the ID up gives that
   * profile back, and lookups of every other ID are unaffected.
   */
  lemma LookupAfterStore(c: Config, profileID: string, p: Profile, otherID: string)
    requires otherID != profileID
    ensures Config(c.profiles[profileID := p]).Profile(profileID) == (p, None)
    ensures Config(c.profiles[profileID := p]).Profile(otherID) == c.Profile(otherID)
  {
  }

  /**
   * The zero profile a miss returns is indistinguishable from a stored zero
   * profile except by the error: callers must look at the error.
   */
  lemma MissLooksLikeStoredZero(c: Config, profileID: string)
    requires profileID !in c.profiles
    ensures Config(c.profiles[profileID := ZeroProfile]).Profile(profileID).0 == c.Profile(profileID).0
    ensures Config(c.profiles[profileID := ZeroProfile]).Profile(profileID).1 != c.Profile(profileID).1
  {
  }
}
