/** What the pages share about the stored session token. */
module Session {
  import opened Wrappers

  /**
   * `Bearer ${token}`: the `Authorization` header built from a token, which
   * reads `Bearer null` when no token is stored.
   */
  function BearerHeader(token: Option<string>): (h: string)
    ensures |h| >= 7 && h[..7] == "Bearer "
    ensures token.Some? ==> h[7..] == token.value
    ensures token.None? ==> h[7..] == "null"
  {
    "Bearer " + token.GetOr("null")
  }

  /**
   * Two headers are equal exactly when they carry the same token text, so the
   * header tells tokens apart, except that no token looks like the text `null`.
   */
  lemma BearerHeaderDistinguishes(a: Option<string>, b: Option<string>)
    ensures BearerHeader(a) == BearerHeader(b) <==> a.GetOr("null") == b.GetOr("null")
    ensures BearerHeader(None) == BearerHeader(Some("null"))
  {
    if BearerHeader(a) == BearerHeader(b) {
      assert BearerHeader(a)[7..] == BearerHeader(b)[7..];
    }
  }
}
