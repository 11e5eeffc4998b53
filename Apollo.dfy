/** The context link of the GraphQL client (src/apollo.ts): before each
    request it copies the incoming headers and sets `authorization` to a
    bearer credential built from the current session, in the form of
    section 2.1 of RFC 6750 ("Bearer" SP token), or to the empty string. */
module Apollo {

  import opened Wrappers
  import opened Provider

  type Headers = map<string, string>

  /** The GraphQL operation the link is invoked for; the link ignores it. */
  datatype Operation = Operation(operationName: string, query: string)

  const AuthorizationHeader := "authorization"
  const BearerPrefix := "Bearer "

  /** `session?.accessToken || null`: an absent session, an absent token and
      the empty token all count as no token. */
  function TokenOf(session: Option<Session>): (token: Option<string>)
    ensures token.Some? <==> session.Some? && session.value.accessToken.Some?
                             && session.value.accessToken.value != ""
    ensures token.Some? ==> token.value == session.value.accessToken.value
  {
    match session
    case None => None
    case Some(s) =>
      match s.accessToken
      case None => None
      case Some(t) => if t == "" then None else Some(t)
  }

  /** The headers the link returns for one request. A missing incoming
      headers object spreads to nothing, so it is the empty map here. */
  function AuthLink(operation: Operation, headers: Headers, session: Option<Session>): (r: Headers)
    ensures AuthorizationHeader in r
    ensures TokenOf(session).Some? ==> r[AuthorizationHeader] == BearerPrefix + TokenOf(session).value
    ensures TokenOf(session).None? ==> r[AuthorizationHeader] == ""
    ensures r.Keys == headers.Keys + {AuthorizationHeader}
    ensures forall k :: k in headers && k != AuthorizationHeader ==> r[k] == headers[k]
  {
    var value := match TokenOf(session)
                 case Some(t) => BearerPrefix + t
                 case None => "";
    headers[AuthorizationHeader := value]
  }

  /** The reading side of the credential: the token carried by an
      `authorization` value of the form "Bearer " token, if any. */
  function BearerToken(value: string): (token: Option<string>)
    ensures token.Some? ==> value == BearerPrefix + token.value && token.value != ""
    ensures forall t :: t != "" && value == BearerPrefix + t ==> token == Some(t)
  {
    if |value| > |BearerPrefix| && value[..|BearerPrefix|] == BearerPrefix
    then Some(value[|BearerPrefix|..])
    else None
  }

  /** Round trip: reading the header the link wrote gives back exactly the
      session's token, and no token when there is none. */
  lemma AuthLinkCarriesToken(operation: Operation, headers: Headers, session: Option<Session>)
    ensures BearerToken(AuthLink(operation, headers, session)[AuthorizationHeader]) == TokenOf(session)
  {
  }

  /** Whatever `authorization` value came in is replaced: the result is
      the same as if the incoming headers had none. */
  lemma AuthLinkOverwrites(operation: Operation, headers: Headers, session: Option<Session>)
    ensures AuthLink(operation, headers, session)
         == AuthLink(operation, headers - {AuthorizationHeader}, session)
  {
  }

  /** The result depends on the incoming headers and the session only. */
  lemma AuthLinkIgnoresOperation(op1: Operation, op2: Operation, headers: Headers, session: Option<Session>)
    ensures AuthLink(op1, headers, session) == AuthLink(op2, headers, session)
  {
  }
}
