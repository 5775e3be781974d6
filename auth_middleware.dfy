/**
 * The authentication middleware in front of every job route: it reads the
 * `Authorization` header, insists on the `Bearer ` scheme, validates the token and
 * copies the user's id and name into the request context before passing the request
 * on. Token parsing, signature checking and expiry are an oracle (`verify`).
 */
module AuthMiddleware {
  import opened Wrappers
  import opened Strings
  import opened Api
  import opened Responses

  const BearerPrefix := "Bearer "

  const MissingHeader := "Authorization header is required"
  const BadFormat := "Invalid authorization header format"
  const BadToken := "Invalid token"
  const BadClaims := "Invalid token claims"

  /** The two claims the handlers read. */
  datatype Claims = Claims(userId: int, username: string)

  /**
   * What `jwt.Parse` makes of a token: rejected (a parse error or an invalid token),
   * or accepted with its claims (`None` when they are not a claims map).
   */
  datatype TokenVerdict = Rejected | Accepted(claims: Option<Claims>)

  /** The token is the header with one leading `Bearer ` removed. */
  function BearerToken(header: string): (token: string)
    requires HasPrefix(header, BearerPrefix)
    ensures BearerPrefix + token == header
  {
    TrimPrefix(header, BearerPrefix)
  }

  /** The middleware's decision: the first failing check's message, or the caller's claims. */
  datatype Decision = Refuse(message: string) | Admit(claims: Claims)

  /** The checks in order: header present, `Bearer ` scheme, token valid, claims readable. */
  function Authenticate(header: string, verify: string -> TokenVerdict): (d: Decision)
    ensures d.Admit? ==>
      HasPrefix(header, BearerPrefix) && verify(BearerToken(header)) == Accepted(Some(d.claims))
    ensures (HasPrefix(header, BearerPrefix) && verify(BearerToken(header)).Accepted? &&
             verify(BearerToken(header)).claims.Some?) ==> d.Admit?
    ensures d.Refuse? ==> d.message in {MissingHeader, BadFormat, BadToken, BadClaims}
    ensures header == "" ==> d == Refuse(MissingHeader)
    ensures header != "" && !HasPrefix(header, BearerPrefix) ==> d == Refuse(BadFormat)
    ensures HasPrefix(header, BearerPrefix) && verify(BearerToken(header)).Rejected? ==> d == Refuse(BadToken)
    ensures HasPrefix(header, BearerPrefix) && verify(BearerToken(header)) == Accepted(None) ==> d == Refuse(BadClaims)
  {
    if header == "" then Refuse(MissingHeader)
    else if !HasPrefix(header, BearerPrefix) then Refuse(BadFormat)
    else match verify(BearerToken(header))
      case Rejected => Refuse(BadToken)
      case Accepted(None) => Refuse(BadClaims)
      case Accepted(Some(claims)) => Admit(claims)
  }

  /** A missing header or a header without the scheme is refused before any token is parsed. */
  lemma HeaderChecksComeFirst(header: string, verify1: string -> TokenVerdict, verify2: string -> TokenVerdict)
    requires !HasPrefix(header, BearerPrefix)
    ensures Authenticate(header, verify1) == Authenticate(header, verify2)
    ensures Authenticate(header, verify1) == Refuse(if header == "" then MissingHeader else BadFormat)
  {
  }

  /** Once the scheme is right, the decision depends on the token alone. */
  lemma DecisionDependsOnToken(h1: string, h2: string, verify: string -> TokenVerdict)
    requires HasPrefix(h1, BearerPrefix) && HasPrefix(h2, BearerPrefix)
    requires BearerToken(h1) == BearerToken(h2)
    ensures Authenticate(h1, verify) == Authenticate(h2, verify)
  {
    assert h1 == BearerPrefix + BearerToken(h1);
  }

  /** The header the client builds for token `t` carries `t` back to the server. */
  lemma ClientHeaderCarriesToken(headers: map<string, string>, t: string)
    requires t != ""
    ensures var sent := WithBearer(headers, Some(t));
      "Authorization" in sent && HasPrefix(sent["Authorization"], BearerPrefix) &&
      BearerToken(sent["Authorization"]) == t
  {
    PrefixRoundTrip(BearerPrefix, t);
  }

  /** A request sent with a stored token the server accepts is admitted with that token's claims. */
  lemma ClientRequestAdmitted(headers: map<string, string>, t: string, verify: string -> TokenVerdict, claims: Claims)
    requires t != "" && verify(t) == Accepted(Some(claims))
    ensures Authenticate(WithBearer(headers, Some(t))["Authorization"], verify) == Admit(claims)
  {
    ClientHeaderCarriesToken(headers, t);
  }

  /** A request sent without a stored token, and without a header of its own, is refused as missing. */
  lemma AnonymousRequestRefused(headers: map<string, string>, verify: string -> TokenVerdict)
    requires "Authorization" !in headers
    ensures var sent := WithBearer(headers, None);
      "Authorization" !in sent && Authenticate("", verify) == Refuse(MissingHeader)
  {
  }

  /** A value stored in the request context. */
  datatype Value = IntValue(i: int) | TextValue(s: string)

  /** The parts of a Gin request context the middleware touches. */
  class Context {
    var headers: map<string, string>
    var keys: map<string, Value>
    var reply: Option<Response>
    var aborted: bool
    /** The context keys the next handler saw, once the chain was continued. */
    var continuedWith: Option<map<string, Value>>

    constructor (headers: map<string, string>)
      ensures this.headers == headers && keys == map[] && reply.None? && !aborted && continuedWith.None?
    {
      this.headers := headers;
      keys := map[];
      reply := None;
      aborted := false;
      continuedWith := None;
    }

    /** `c.GetHeader`: an absent header reads as "". */
    function Header(name: string): (v: string)
      reads this
      ensures name !in headers ==> v == ""
      ensures name in headers ==> v == headers[name]
    {
      if name in headers then headers[name] else ""
    }

    /** `c.JSON` with an error body followed by `c.Abort`. */
    method Refuse(message: string)
      modifies this
      ensures reply == Some(Error(StatusUnauthorized, message)) && aborted
      ensures headers == old(headers) && keys == old(keys) && continuedWith == old(continuedWith)
    {
      reply := Some(Error(StatusUnauthorized, message));
      aborted := true;
    }

    /** `c.Next`: the rest of the chain runs with the keys set so far. */
    method Next()
      modifies this
      ensures continuedWith == Some(keys)
      ensures headers == old(headers) && keys == old(keys) && reply == old(reply) && aborted == old(aborted)
    {
      continuedWith := Some(keys);
    }
  }

  /**
   * The middleware. A refusal writes one 401 with the first failing check's message
   * and aborts; an admission sets `user_id` and `username` and only then continues.
   */
  method Handle(c: Context, verify: string -> TokenVerdict)
    requires c.reply.None? && !c.aborted && c.continuedWith.None?
    modifies c
    ensures c.headers == old(c.headers)
    ensures match Authenticate(old(c.Header("Authorization")), verify)
      case Refuse(message) =>
        c.reply == Some(Error(StatusUnauthorized, message)) && c.aborted &&
        c.keys == old(c.keys) && c.continuedWith.None?
      case Admit(claims) =>
        c.keys == old(c.keys)["user_id" := IntValue(claims.userId)]["username" := TextValue(claims.username)] &&
        c.continuedWith == Some(c.keys) && c.reply.None? && !c.aborted
  {
    var authHeader := c.Header("Authorization");
    if authHeader == "" {
      c.Refuse(MissingHeader);
      return;
    }
    if !HasPrefix(authHeader, BearerPrefix) {
      c.Refuse(BadFormat);
      return;
    }
    var tokenString := TrimPrefix(authHeader, BearerPrefix);
    var verdict := verify(tokenString);
    if verdict.Rejected? {
      c.Refuse(BadToken);
      return;
    }
    if verdict.claims.None? {
      c.Refuse(BadClaims);
      return;
    }
    var claims := verdict.claims.value;
    c.keys := c.keys["user_id" := IntValue(claims.userId)];
    c.keys := c.keys["username" := TextValue(claims.username)];
    c.Next();
  }
}
