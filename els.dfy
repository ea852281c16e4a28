/** The one record of the ELS API SDK that the configuration stores. */
module Els {

  /** els.AccessKey; the expiry date is an opaque time stamp (0 is Go's zero time). */
  datatype AccessKey = AccessKey(id: string, secretAccessKey: string, email: string, expiryDate: int)

  /** The zero value els.AccessKey{}. */
  const ZeroAccessKey := AccessKey("", "", "", 0)
}
