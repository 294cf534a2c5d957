/** The shared-secret check guarding the write routes (configuration update
    and catalog synchronisation), which both define the same rule. */
module Auth {
  import opened Wrappers
  import opened Strings

  /** `secret` is the configured shared secret (unset or empty disables the
      check); `header` is the request's Authorization header. The header is
      split on spaces: the first piece must be "Bearer" and the second the
      secret; further pieces are ignored. */
  function CheckAuth(secret: Option<string>, header: Option<string>): (ok: bool)
    ensures secret.None? || secret == Some("") ==> ok
    ensures secret.Some? && secret.value != "" && header.None? ==> !ok
    ensures secret.Some? && secret.value != "" && header.Some? ==>
      (ok <==> BearerPrefix(header.value, secret.value))
  {
    if secret.None? || secret.value == "" then true
    else if header.None? || header.value == "" then false
    else
      var h := header.value;
      var kind := FirstPiece(h, ' ');
      var token := SecondPiece(h, ' ');
      BearerIff(h, secret.value);
      kind == "Bearer" && token == Some(secret.value)
  }

  /** `h` starts with "Bearer ", then the secret, then the end of the header
      or another space; a secret containing a space can never match. */
  predicate BearerPrefix(h: string, secret: string) {
    var n := |"Bearer "| + |secret|;
    && ' ' !in secret
    && n <= |h|
    && h[..n] == "Bearer " + secret
    && (n == |h| || h[n] == ' ')
  }

  lemma BearerIff(h: string, secret: string)
    requires secret != ""
    ensures (FirstPiece(h, ' ') == "Bearer" && SecondPiece(h, ' ') == Some(secret)) <==> BearerPrefix(h, secret)
  {
    var n := |"Bearer "| + |secret|;
    if FirstPiece(h, ' ') == "Bearer" && SecondPiece(h, ' ') == Some(secret) {
      var rest := h[7..];
      assert h[..6] == "Bearer" && h[6] == ' ';
      assert FirstPiece(rest, ' ') == secret;
      assert h[..n] == h[..6] + [h[6]] + rest[..|secret|];
    }
    if BearerPrefix(h, secret) {
      assert ' ' !in "Bearer";
      FirstPieceUnique(h, ' ', "Bearer");
      var rest := h[7..];
      assert rest[..|secret|] == h[7..n];
      FirstPieceUnique(rest, ' ', secret);
    }
  }

  /** Examples: the scheme is case-sensitive, must be followed by exactly one
      space, and anything after the token is ignored. */
  lemma CheckAuthAccepts()
    ensures CheckAuth(Some("s3cret"), Some("Bearer s3cret"))
    ensures CheckAuth(Some("s3cret"), Some("Bearer s3cret trailing"))
    ensures CheckAuth(None, None) && CheckAuth(Some(""), Some("anything"))
  {
    assert BearerPrefix("Bearer s3cret", "s3cret");
    assert ("Bearer s3cret trailing")[..13] == "Bearer s3cret";
    assert BearerPrefix("Bearer s3cret trailing", "s3cret");
  }

  lemma CheckAuthRejectsLowerCaseScheme()
    ensures !CheckAuth(Some("s3cret"), Some("bearer s3cret"))
  {
    assert ("bearer s3cret")[..13][0] == 'b';
    assert !BearerPrefix("bearer s3cret", "s3cret");
  }

  lemma CheckAuthRejectsDoubleSpace()
    ensures !CheckAuth(Some("s3cret"), Some("Bearer  s3cret"))
  {
    assert ("Bearer  s3cret")[..13][7] == ' ';
    assert !BearerPrefix("Bearer  s3cret", "s3cret");
  }
}
