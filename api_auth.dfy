/** `verifyAuth`, which both KYC routes define with the same text: the bearer token is
    read from the `Authorization` header and handed to the auth service. */
module ApiAuth {
  import opened Js
  import opened Strings

  const BearerPrefix: string := "Bearer "

  predicate NoSpace(s: string) {
    forall i :: 0 <= i < |s| ==> s[i] != ' '
  }

  /** The token of an `Authorization` header: none when the header is absent or does
      not start with `Bearer `, otherwise field 1 of `split(' ')`, which is the text
      after the prefix up to the next space. */
  function BearerToken(header: Option<string>): (r: Option<string>)
    ensures r.Some? <==> header.Some? && StartsWith(header.value, BearerPrefix)
    ensures r.Some? ==>
      var rest := header.value[|BearerPrefix|..];
      && r.value <= rest
      && NoSpace(r.value)
      && (|r.value| < |rest| ==> rest[|r.value|] == ' ')
  {
    if header.None? || !StartsWith(header.value, BearerPrefix) then None
    else
      var h := header.value;
      assert h == "Bearer" + [' '] + h[7..];
      SplitAfterPrefix("Bearer", h[7..], ' ');
      SplitFirstPiece(h[7..], ' ');
      Some(Split(h, " ")[1])
  }

  /** A space-free token after the prefix is read back as it was sent. */
  lemma BearerRoundTrip(token: string)
    requires NoSpace(token)
    ensures BearerToken(Some(BearerPrefix + token)) == Some(token)
  {
    var h := BearerPrefix + token;
    assert h == "Bearer" + [' '] + token;
    SplitAfterPrefix("Bearer", token, ' ');
    SplitWithoutSeparator(token, ' ');
  }

  /** Two spaces after `Bearer` give the empty token, whatever follows. */
  lemma DoubleSpaceEmptyToken(rest: string)
    ensures BearerToken(Some(BearerPrefix + " " + rest)) == Some("")
  {
    var h := BearerPrefix + " " + rest;
    assert h == "Bearer" + [' '] + (" " + rest);
    SplitAfterPrefix("Bearer", " " + rest, ' ');
    assert (" " + rest)[1..] == rest;
    assert Split(" " + rest, " ") == [""] + Split(rest, " ");
  }

  /** `verifyAuth`: the id of the user the auth service returns for the token, if any.
      The service is `getUser`, whose errors, missing users and exceptions all come back
      as `None`. */
  function VerifyAuth(header: Option<string>, getUser: string -> Option<string>): (user: Option<string>)
    ensures BearerToken(header).None? ==> user.None?
    ensures BearerToken(header).Some? ==> user == getUser(BearerToken(header).value)
  {
    match BearerToken(header)
    case None => None
    case Some(token) => getUser(token)
  }

  /** A header without the prefix, such as the bare token or a lower-case `bearer `,
      never reaches the auth service. */
  lemma WithoutPrefixNoUser(header: string, getUser: string -> Option<string>)
    requires !(BearerPrefix <= header)
    ensures VerifyAuth(Some(header), getUser) == None
  {
  }
}
