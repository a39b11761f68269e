/** backend/internal/api/middleware/auth.go: the decision on the
    Authorization header. Token verification is external: the verifier's
    answer for each token is a parameter, and the decision records which
    token, if any, was handed to it. */
module AuthMiddleware {
  import opened Common

  /** What a valid token carries. */
  datatype Claims = Claims(userId: string, roles: seq<string>)

  /** Abort with a status and an error body, or go on with the user id and
      roles set on the request context. */
  datatype Outcome = Reject(status: int, error: string) | Admit(userId: string, roles: seq<string>)

  datatype Decision = Decision(outcome: Outcome, verified: Option<string>)

  const BearerPrefix: string := "Bearer "

  /** `strings.TrimPrefix`: removes one leading `p`, if there is one. */
  function TrimPrefix(s: string, p: string): string
  {
    if HasPrefix(s, p) then s[|p|..] else s
  }

  /** Trimming a non-empty prefix changes the string exactly when the
      string starts with it. */
  lemma TrimPrefixChanges(s: string, p: string)
    requires p != []
    ensures TrimPrefix(s, p) != s <==> HasPrefix(s, p)
    ensures HasPrefix(s, p) ==> p + TrimPrefix(s, p) == s
  {
    if HasPrefix(s, p) {
      assert |TrimPrefix(s, p)| < |s|;
      assert s == s[..|p|] + s[|p|..];
    }
  }

  /** The middleware: empty header, then missing "Bearer " prefix, then a
      token the verifier rejects, each a 401 with its own message; otherwise
      the claims' user id and roles are admitted. */
  function Authorize(header: string, verify: string -> Result<Claims>): Decision
  {
    if header == "" then Decision(Reject(401, "Authorization header is required"), None)
    else
      var token := TrimPrefix(header, BearerPrefix);
      if token == header then Decision(Reject(401, "Bearer token is required"), None)
      else
        var claims := verify(token);
        if claims.Err? then Decision(Reject(401, "Invalid token"), Some(token))
        else Decision(Admit(claims.value.userId, claims.value.roles), Some(token))
  }

  /** The decision by cases on the header: the verifier is consulted iff the
      header starts with exactly "Bearer ", and then with the header minus
      that one prefix; a header that is only "Bearer " hands it the empty
      token. */
  lemma AuthorizeCases(header: string, verify: string -> Result<Claims>)
    ensures header == "" ==>
      Authorize(header, verify) == Decision(Reject(401, "Authorization header is required"), None)
    ensures header != "" && !HasPrefix(header, BearerPrefix) ==>
      Authorize(header, verify) == Decision(Reject(401, "Bearer token is required"), None)
    ensures HasPrefix(header, BearerPrefix) ==>
      var token := header[|BearerPrefix|..];
      && BearerPrefix + token == header
      && Authorize(header, verify).verified == Some(token)
      && (verify(token).Err? ==> Authorize(header, verify).outcome == Reject(401, "Invalid token"))
      && (verify(token).Ok? ==>
            Authorize(header, verify).outcome == Admit(verify(token).value.userId, verify(token).value.roles))
  {
    TrimPrefixChanges(header, BearerPrefix);
  }

  /** Exactly one of abort and continue: the request is admitted iff the
      header carries a bearer token the verifier accepts. */
  lemma AdmitIffVerified(header: string, verify: string -> Result<Claims>)
    ensures Authorize(header, verify).outcome.Admit? <==>
      HasPrefix(header, BearerPrefix) && verify(header[|BearerPrefix|..]).Ok?
    ensures Authorize(header, verify).outcome.Reject? ==> Authorize(header, verify).outcome.status == 401
  {
    AuthorizeCases(header, verify);
  }
}
