/** The session flag: one boolean, mirrored to storage as the literal string "true" or "false". */
module Session {
  import opened Wrappers

  /** The storage key the flag is mirrored under. */
  const AuthKey: string := "isAuthenticated"

  /** The string written to storage for a flag value. */
  function EncodeFlag(authenticated: bool): (s: string)
    ensures s == "true" || s == "false"
    ensures authenticated <==> s == "true"
  {
    if authenticated then "true" else "false"
  }

  /** Startup decoding: the flag is set iff the stored value is present and equals "true". */
  function DecodeFlag(stored: Option<string>): (authenticated: bool)
    ensures stored.None? ==> !authenticated
    ensures stored.Some? && stored.value != "true" ==> !authenticated
    ensures stored == Some("true") ==> authenticated
  {
    stored == Some("true")
  }

  /** Decoding what was encoded gives back the flag. */
  lemma DecodeEncode(authenticated: bool)
    ensures DecodeFlag(Some(EncodeFlag(authenticated))) == authenticated
  {
  }

  /** Each of the two strings the application writes is re-encoded unchanged after decoding. */
  lemma EncodeDecode(stored: string)
    requires stored == "true" || stored == "false"
    ensures EncodeFlag(DecodeFlag(Some(stored))) == stored
  {
  }
}
