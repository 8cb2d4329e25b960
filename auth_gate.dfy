/**
 * The access gate in front of every cart route: the Authorization header
 * must carry a bearer token (the `Bearer <token>` form of section 2.1 of
 * RFC 6750), and the token must pass the verifier, which checks the JSON
 * Web Token (RFC 7519) signature and expiry and yields the user id it
 * carries. The verifier is a parameter: its cryptography and the clock are
 * outside the model.
 */
module AuthGate {
  import opened Values
  import opened UserSchema

  const BearerPrefix := "Bearer "
  const NoToken := "No token, authorization denied"
  const InvalidToken := "Token is not valid"
  const Unauthorized := 401

  /** What the gate decides: refuse with 401 and a message, or pass the request on with a user id. */
  datatype Gate = Denied(message: string) | Granted(userId: UserId)

  predicate StartsWith(s: string, prefix: string)
  {
    |prefix| <= |s| && s[..|prefix|] == prefix
  }

  /** String.prototype.replace with a string pattern: only the first occurrence is replaced. */
  function ReplaceFirst(s: string, pattern: string, replacement: string): string
    decreases |s|
  {
    if StartsWith(s, pattern) then replacement + s[|pattern|..]
    else if s == [] then s
    else [s[0]] + ReplaceFirst(s[1..], pattern, replacement)
  }

  /** The token the gate hands to the verifier: the header with its first "Bearer " removed. */
  function ExtractToken(header: string): (token: string)
    requires StartsWith(header, BearerPrefix)
    ensures BearerPrefix + token == header
  {
    ReplaceFirst(header, BearerPrefix, "")
  }

  /** The gate: the header's form first, then the verifier. */
  function Authenticate(header: Option<string>, verify: string -> Option<UserId>): (g: Gate)
    ensures g == Denied(NoToken) <==> header.None? || !StartsWith(header.value, BearerPrefix)
    ensures g == Denied(InvalidToken) <==>
      header.Some? && StartsWith(header.value, BearerPrefix) && verify(header.value[|BearerPrefix|..]).None?
    ensures g.Granted? <==>
      header.Some? && StartsWith(header.value, BearerPrefix) && verify(header.value[|BearerPrefix|..]).Some?
    ensures g.Granted? ==> Some(g.userId) == verify(header.value[|BearerPrefix|..])
  {
    if header.None? || header.value == "" || !StartsWith(header.value, BearerPrefix) then Denied(NoToken)
    else
      var token := ExtractToken(header.value);
      assert token == header.value[|BearerPrefix|..];
      match verify(token)
      case None => Denied(InvalidToken)
      case Some(userId) => Granted(userId)
  }
}
