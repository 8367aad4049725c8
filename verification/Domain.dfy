/** The entities of the service: accounts, signed tokens, stored refresh tokens,
    configuration, and the errors and bodies a request can end with. */
module Domain {
  datatype Option<+T> = None | Some(value: T)

  datatype Result<+T, +E> = Ok(value: T) | Err(error: E)

  /** A value drawn by `uuidv4` or by the database's `uuid()` default; only equality matters. */
  type Uuid = nat

  datatype Role = USER | MODERATOR | ADMIN

  datatype User = User(email: string, username: string, passwordHash: string, role: Role, isActive: bool)

  /** The optional fields of a PATCH on an account. */
  datatype Patch = Patch(username: Option<string>, isActive: Option<bool>, role: Option<Role>)

  datatype TokenType = Access | Refresh

  /** JWT claims; `iat` and `exp` are in whole seconds. */
  datatype Claims = Claims(sub: Uuid, email: string, role: Role, jti: Option<Uuid>, tokenType: TokenType,
                           iat: nat, exp: nat)

  /** A token string. Signatures are ideal: a signed string determines its secret and its claims. */
  datatype Token = Signed(secret: string, claims: Claims) | Malformed(text: string)

  /** A row of `refresh_tokens`; `expiresAt` is in milliseconds. */
  datatype RefreshToken = RefreshToken(token: Token, userId: Uuid, expiresAt: nat, isRevoked: bool)

  const ACCESS_TOKEN_TTL_SECONDS: nat := 15 * 60
  const REFRESH_TOKEN_TTL_MS: nat := 7 * 24 * 60 * 60 * 1000

  /** The environment: secrets, lifetimes in seconds, and bcrypt as two arbitrary functions. */
  datatype Config = Config(accessSecret: string, refreshSecret: string, accessTtl: nat, refreshTtl: nat,
                           hash: (string, nat) -> string, compare: (string, string) -> bool)
  {
    /** What the service assumes of its environment. The two secrets may be equal, and different
        passwords may match the same hash. */
    ghost predicate Valid() {
      && accessTtl <= ACCESS_TOKEN_TTL_SECONDS
      && 1000 * refreshTtl <= REFRESH_TOKEN_TTL_MS
      && forall password, salt :: compare(password, hash(password, salt))
    }
  }

  /** Which message text an operational error carries. */
  datatype Reason =
    | EmailRegistered | UsernameInUse | InvalidCredentials | InvalidRefreshToken | AccountDeactivated
    | UserNotFound | WrongPassword | InvalidToken | TokenExpired | InvalidTokenType | TokenRevoked
    | MissingHeader | AuthenticationRequired | NotPermitted

  /** Prisma's known request errors: unique violation, missing foreign key, record not found. */
  datatype DbError = P2002 | P2003 | P2025

  datatype ServiceError = AppError(status: nat, reason: Reason) | PrismaError(code: DbError) | UnknownError

  /** What a successful request answers with. */
  datatype Body =
    | Session(userId: Uuid, email: string, username: string, role: Role, access: Token, refresh: Token)
    | Tokens(access: Token, refresh: Token)
    | Profile(id: Uuid, email: string, username: string, role: Role, isActive: bool)
    | Principal(claims: Claims)
    | Empty

  type Answer = Result<Body, ServiceError>

  /** The columns of an account that are safe to return: everything but the password hash. */
  function ProfileOf(id: Uuid, user: User): Body {
    Profile(id, user.email, user.username, user.role, user.isActive)
  }

  function Conflict(reason: Reason): ServiceError { AppError(409, reason) }

  function NotFound(reason: Reason): ServiceError { AppError(404, reason) }

  function Unauthorized(reason: Reason): ServiceError { AppError(401, reason) }

  function Forbidden(reason: Reason): ServiceError { AppError(403, reason) }

  /** The status the central error handler gives an error. */
  function StatusOf(e: ServiceError): nat {
    match e
    case AppError(status, _) => status
    case PrismaError(P2002) => 409
    case PrismaError(P2025) => 404
    case _ => 500
  }

  /** Equal answers up to the text of an error message. */
  predicate SameAnswer(a: Answer, b: Answer) {
    match (a, b)
    case (Ok(x), Ok(y)) => x == y
    case (Err(x), Err(y)) => StatusOf(x) == StatusOf(y)
    case _ => false
  }
}
