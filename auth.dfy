/** The two Express middlewares that read a bearer token: `authenticate`,
    which admits a request only with a token that verifies and names an
    existing user, and `optionalAuth`, which attaches such a user when there
    is one and lets every request through.

    Token verification and the user lookup are calls into other code; their
    outcomes are inputs here. Each is a Step: it returned a value, or it threw
    an error whose `name` the handlers inspect. */
module AuthMiddleware {
  import opened Common

  /** A user document; only its id matters to the middlewares. */
  datatype User = User(id: ObjectId)

  /** The decoded token payload. */
  datatype Payload = Payload(userId: string, email: string)

  /** What a call into a collaborator did. */
  datatype Step<+T> = Returned(value: T) | Threw(name: string)

  /** The JSON error body `{ success: false, message }` and its status. */
  datatype Response = Response(status: int, success: bool, message: string)

  /** What a handler does with the request: answers it, or passes it on. */
  datatype Effect = Sent(response: Response) | NextCalled

  const BearerPrefix := "Bearer "

  const AuthRequiredMessage := "Authentication required. Please provide a valid token."
  const TokenMissingMessage := "Authentication token is missing."
  const UserNotFoundMessage := "User not found. Token may be invalid."
  const InvalidTokenMessage := "Invalid token. Please log in again."
  const ExpiredTokenMessage := "Token has expired. Please log in again."
  const AuthFailedMessage := "Authentication failed. Please try again."

  /** The name of the plain `Error` thrown when JWT_SECRET is unset. */
  const MissingSecretErrorName := "Error"

  /** The token of an `Authorization` header: present only when the header is
      set, non-empty and starts with "Bearer " exactly (case-sensitive), and
      then the header with those 7 characters removed. */
  function BearerToken(header: Option<string>): (token: Option<string>)
    ensures token.Some? <==> header.Some? && StartsWith(header.value, BearerPrefix)
    ensures token.Some? ==> header.value == BearerPrefix + token.value
  {
    if header.None? || header.value == "" || !StartsWith(header.value, BearerPrefix) then None
    else Some(header.value[7..])
  }

  /** `process.env.JWT_SECRET` is truthy: set and non-empty. */
  predicate SecretPresent(secret: Option<string>) {
    secret.Some? && secret.value != ""
  }

  /** The catch block of `authenticate`: errors are told apart by name only. */
  function ErrorResponse(name: string): (r: Response)
    ensures !r.success
    ensures r.status == 401 <==> name == "JsonWebTokenError" || name == "TokenExpiredError"
    ensures r.status != 401 ==> r.status == 500 && r.message == AuthFailedMessage
    ensures name == "JsonWebTokenError" ==> r.message == InvalidTokenMessage
    ensures name == "TokenExpiredError" ==> r.message == ExpiredTokenMessage
  {
    if name == "JsonWebTokenError" then Response(401, false, InvalidTokenMessage)
    else if name == "TokenExpiredError" then Response(401, false, ExpiredTokenMessage)
    else Response(500, false, AuthFailedMessage)
  }

  /** How `authenticate` settles a request. */
  datatype Decision = Reject(response: Response) | Accept(user: User)

  /** The decision `authenticate` takes for an `Authorization` header, the
      JWT secret, what `jwt.verify` did and what `User.findById` did. A
      collaborator whose step is never reached is not consulted. */
  function Authenticate(header: Option<string>, secret: Option<string>,
                        verify: Step<Payload>, lookup: Step<Option<User>>): (d: Decision)
    ensures d.Accept? <==>
      && BearerToken(header).Some? && BearerToken(header).value != ""
      && SecretPresent(secret)
      && verify.Returned?
      && lookup.Returned? && lookup.value.Some?
    ensures d.Accept? ==> lookup == Returned(Some(d.user))
    ensures d.Reject? ==> !d.response.success && (d.response.status == 401 || d.response.status == 500)
  {
    match BearerToken(header)
    case None => Reject(Response(401, false, AuthRequiredMessage))
    case Some(token) =>
      if token == "" then Reject(Response(401, false, TokenMissingMessage))
      else if !SecretPresent(secret) then Reject(ErrorResponse(MissingSecretErrorName))
      else match verify
        case Threw(name) => Reject(ErrorResponse(name))
        case Returned(_) =>
          match lookup
          case Threw(name) => Reject(ErrorResponse(name))
          case Returned(None) => Reject(Response(401, false, UserNotFoundMessage))
          case Returned(Some(user)) => Accept(user)
  }

  /** The user `optionalAuth` attaches, if any, for the same inputs. */
  function OptionalAuth(header: Option<string>, secret: Option<string>,
                        verify: Step<Payload>, lookup: Step<Option<User>>): (u: Option<User>)
    ensures u.Some? <==>
      && BearerToken(header).Some? && BearerToken(header).value != ""
      && SecretPresent(secret)
      && verify.Returned?
      && lookup.Returned? && lookup.value.Some?
    ensures u.Some? ==> lookup == Returned(u)
  {
    match BearerToken(header)
    case None => None
    case Some(token) =>
      if !SecretPresent(secret) || token == "" then None
      else match verify
        case Threw(_) => None
        case Returned(_) =>
          match lookup
          case Threw(_) => None
          case Returned(found) => found
  }

  // ---------------------------------------------------------------------
  // Properties of the two decisions
  // ---------------------------------------------------------------------

  /** Without a "Bearer " header the request is refused before anything else
      is looked at. */
  lemma MissingBearerRejected(header: Option<string>, secret: Option<string>,
                              verify: Step<Payload>, lookup: Step<Option<User>>)
    requires header.None? || !StartsWith(header.value, BearerPrefix)
    ensures Authenticate(header, secret, verify, lookup) == Reject(Response(401, false, AuthRequiredMessage))
  {
  }

  /** The prefix test is case-sensitive. */
  lemma LowerCaseBearerRejected(secret: Option<string>, verify: Step<Payload>, lookup: Step<Option<User>>)
    ensures Authenticate(Some("bearer abc"), secret, verify, lookup) == Reject(Response(401, false, AuthRequiredMessage))
  {
    assert "bearer abc"[..7] != BearerPrefix by { assert "bearer abc"[0] != BearerPrefix[0]; }
  }

  /** A header of exactly "Bearer " carries the empty token. */
  lemma BareBearerRejected(secret: Option<string>, verify: Step<Payload>, lookup: Step<Option<User>>)
    ensures BearerToken(Some(BearerPrefix)) == Some("")
    ensures Authenticate(Some(BearerPrefix), secret, verify, lookup) == Reject(Response(401, false, TokenMissingMessage))
  {
  }

  /** A verified token whose user no longer exists is refused with 401. */
  lemma UserNotFoundRejected(header: Option<string>, secret: Option<string>, payload: Payload)
    requires BearerToken(header).Some? && BearerToken(header).value != "" && SecretPresent(secret)
    ensures Authenticate(header, secret, Returned(payload), Returned(None)) == Reject(Response(401, false, UserNotFoundMessage))
  {
  }

  /** Verification errors are answered by their name: a malformed or wrongly
      signed token and an expired one with 401, anything else with 500. */
  lemma VerifyErrorClassified(header: Option<string>, secret: Option<string>, name: string, lookup: Step<Option<User>>)
    requires BearerToken(header).Some? && BearerToken(header).value != "" && SecretPresent(secret)
    ensures Authenticate(header, secret, Threw(name), lookup) == Reject(ErrorResponse(name))
    ensures name == "JsonWebTokenError" ==> ErrorResponse(name) == Response(401, false, InvalidTokenMessage)
    ensures name == "TokenExpiredError" ==> ErrorResponse(name) == Response(401, false, ExpiredTokenMessage)
    ensures name != "JsonWebTokenError" && name != "TokenExpiredError" ==>
      ErrorResponse(name) == Response(500, false, AuthFailedMessage)
  {
  }

  /** Errors thrown by the user lookup (a CastError for a malformed id, a
      database failure) reach the same catch block and are answered by name
      in the same way. */
  lemma LookupErrorClassified(header: Option<string>, secret: Option<string>, payload: Payload, name: string)
    requires BearerToken(header).Some? && BearerToken(header).value != "" && SecretPresent(secret)
    ensures Authenticate(header, secret, Returned(payload), Threw(name)) == Reject(ErrorResponse(name))
    ensures name != "JsonWebTokenError" && name != "TokenExpiredError" ==>
      Authenticate(header, secret, Returned(payload), Threw(name)) == Reject(Response(500, false, AuthFailedMessage))
  {
  }

  /** A missing secret is a server error, whatever the token. */
  lemma MissingSecretIsServerError(header: Option<string>, secret: Option<string>,
                                   verify: Step<Payload>, lookup: Step<Option<User>>)
    requires BearerToken(header).Some? && BearerToken(header).value != "" && !SecretPresent(secret)
    ensures Authenticate(header, secret, verify, lookup) == Reject(Response(500, false, AuthFailedMessage))
  {
  }

  /** The two middlewares agree on who the request belongs to: optionalAuth
      attaches a user exactly when authenticate would admit the request with
      that user. */
  lemma OptionalAuthAgrees(header: Option<string>, secret: Option<string>,
                           verify: Step<Payload>, lookup: Step<Option<User>>, user: User)
    ensures OptionalAuth(header, secret, verify, lookup) == Some(user) <==>
            Authenticate(header, secret, verify, lookup) == Accept(user)
  {
  }

  // ---------------------------------------------------------------------
  // The handlers, acting on the request object
  // ---------------------------------------------------------------------

  /** The request as the middlewares see it: the header they read and the two
      fields they may set. */
  class AuthRequest {
    const authorization: Option<string>
    var user: Option<User>
    var userId: Option<string>

    constructor (authorization: Option<string>, user: Option<User>, userId: Option<string>)
      ensures this.authorization == authorization && this.user == user && this.userId == userId
    {
      this.authorization := authorization;
      this.user := user;
      this.userId := userId;
    }
  }

  /** `authenticate(req, res, next)`: exactly one effect, either the error
      response or the call to `next`; the user and its id string are set on
      the request only when `next` is called. */
  method HandleAuthenticate(req: AuthRequest, secret: Option<string>,
                            verify: Step<Payload>, lookup: Step<Option<User>>)
    returns (effects: seq<Effect>)
    modifies req
    ensures |effects| == 1
    ensures effects[0] == NextCalled <==> Authenticate(req.authorization, secret, verify, lookup).Accept?
    ensures effects[0].Sent? ==> effects[0].response == Authenticate(req.authorization, secret, verify, lookup).response
    ensures effects[0] == NextCalled ==>
      && lookup.Returned? && req.user == lookup.value
      && req.userId == Some(req.user.value.id.hex)
    ensures effects[0].Sent? ==> req.user == old(req.user) && req.userId == old(req.userId)
  {
    match Authenticate(req.authorization, secret, verify, lookup)
    case Reject(response) =>
      effects := [Sent(response)];
    case Accept(user) =>
      req.user := Some(user);
      req.userId := Some(user.id.hex);
      effects := [NextCalled];
  }

  /** `optionalAuth(req, res, next)`: never answers, always calls `next` once,
      and sets the user fields only when a user was found for a verified,
      non-empty bearer token; otherwise the request is left as it was. */
  method HandleOptionalAuth(req: AuthRequest, secret: Option<string>,
                            verify: Step<Payload>, lookup: Step<Option<User>>)
    returns (effects: seq<Effect>)
    modifies req
    ensures effects == [NextCalled]
    ensures OptionalAuth(req.authorization, secret, verify, lookup).Some? ==>
      && req.user == OptionalAuth(req.authorization, secret, verify, lookup)
      && req.userId == Some(req.user.value.id.hex)
    ensures OptionalAuth(req.authorization, secret, verify, lookup).None? ==>
      req.user == old(req.user) && req.userId == old(req.userId)
  {
    match OptionalAuth(req.authorization, secret, verify, lookup) {
    case Some(user) =>
      req.user := Some(user);
      req.userId := Some(user.id.hex);
    case None =>
    }
    effects := [NextCalled];
  }
}
