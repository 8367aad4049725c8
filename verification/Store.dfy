/** The relational store: two tables and the constraints the schema puts on them. Every write either
    yields the next database, with the constraints intact, or fails with one of Prisma's error codes. */
module Store {
  import opened Domain

  datatype Db = Db(users: map<Uuid, User>, tokens: map<Uuid, RefreshToken>)

  ghost predicate UniqueEmails(db: Db) {
    forall i, j :: i in db.users && j in db.users && db.users[i].email == db.users[j].email ==> i == j
  }

  ghost predicate UniqueUsernames(db: Db) {
    forall i, j :: i in db.users && j in db.users && db.users[i].username == db.users[j].username ==> i == j
  }

  ghost predicate UniqueTokens(db: Db) {
    forall i, j :: i in db.tokens && j in db.tokens && db.tokens[i].token == db.tokens[j].token ==> i == j
  }

  ghost predicate OwnersExist(db: Db) {
    forall i :: i in db.tokens ==> db.tokens[i].userId in db.users
  }

  /** The schema's constraints: three unique columns and one foreign key. */
  ghost predicate Constraints(db: Db) {
    UniqueEmails(db) && UniqueUsernames(db) && UniqueTokens(db) && OwnersExist(db)
  }

  // ---- reads ----

  predicate EmailTaken(db: Db, email: string) {
    exists i :: i in db.users && db.users[i].email == email
  }

  predicate UsernameTaken(db: Db, username: string) {
    exists i :: i in db.users && db.users[i].username == username
  }

  ghost function FindUser(db: Db, email: string): Option<Uuid> {
    if EmailTaken(db, email) then
      var i :| i in db.users && db.users[i].email == email;
      Some(i)
    else None
  }

  predicate TokenStored(db: Db, token: Token) {
    exists i :: i in db.tokens && db.tokens[i].token == token
  }

  ghost function FindToken(db: Db, token: Token): Option<Uuid> {
    if TokenStored(db, token) then
      var i :| i in db.tokens && db.tokens[i].token == token;
      Some(i)
    else None
  }

  /** A stored token that can still be rotated as far as the table is concerned. */
  predicate Live(db: Db, i: Uuid) {
    i in db.tokens && !db.tokens[i].isRevoked
  }

  // ---- writes ----

  function CreateUser(db: Db, id: Uuid, user: User): (r: Result<Db, DbError>)
    ensures Constraints(db) && r.Ok? ==> Constraints(r.value)
  {
    if id in db.users || EmailTaken(db, user.email) || UsernameTaken(db, user.username) then Err(P2002)
    else Ok(db.(users := db.users[id := user]))
  }

  function CreateToken(db: Db, id: Uuid, row: RefreshToken): (r: Result<Db, DbError>)
    ensures Constraints(db) && r.Ok? ==> Constraints(r.value)
  {
    if id in db.tokens || TokenStored(db, row.token) then Err(P2002)
    else if row.userId !in db.users then Err(P2003)
    else Ok(db.(tokens := db.tokens[id := row]))
  }

  function Patched(user: User, patch: Patch): User {
    var u1 := if patch.username.Some? then user.(username := patch.username.value) else user;
    var u2 := if patch.isActive.Some? then u1.(isActive := patch.isActive.value) else u1;
    if patch.role.Some? then u2.(role := patch.role.value) else u2
  }

  predicate UsernameHeldByOther(db: Db, id: Uuid, username: string) {
    exists i :: i in db.users && i != id && db.users[i].username == username
  }

  function PatchUser(db: Db, id: Uuid, patch: Patch): (r: Result<Db, DbError>)
    ensures Constraints(db) && r.Ok? ==> Constraints(r.value)
  {
    if id !in db.users then Err(P2025)
    else if patch.username.Some? && UsernameHeldByOther(db, id, patch.username.value) then Err(P2002)
    else Ok(db.(users := db.users[id := Patched(db.users[id], patch)]))
  }

  function SetPasswordHash(db: Db, id: Uuid, passwordHash: string): (r: Result<Db, DbError>)
    ensures Constraints(db) && r.Ok? ==> Constraints(r.value)
  {
    if id !in db.users then Err(P2025)
    else Ok(db.(users := db.users[id := db.users[id].(passwordHash := passwordHash)]))
  }

  /** Deletes an account; the foreign key cascades to its refresh tokens. */
  function RemoveUser(db: Db, id: Uuid): (r: Result<Db, DbError>)
    ensures Constraints(db) && r.Ok? ==> Constraints(r.value)
  {
    if id !in db.users then Err(P2025)
    else Ok(Db(db.users - {id}, map i | i in db.tokens && db.tokens[i].userId != id :: db.tokens[i]))
  }

  function RevokeToken(db: Db, id: Uuid): (r: Result<Db, DbError>)
    ensures Constraints(db) && r.Ok? ==> Constraints(r.value)
  {
    if id !in db.tokens then Err(P2025)
    else Ok(db.(tokens := db.tokens[id := db.tokens[id].(isRevoked := true)]))
  }

  /** `updateMany`: revokes the user's tokens, or only the one whose string is given. */
  function RevokeMany(db: Db, userId: Uuid, token: Option<Token>): (r: Db)
    ensures Constraints(db) ==> Constraints(r)
  {
    db.(tokens := map i | i in db.tokens ::
          if db.tokens[i].userId == userId && (token.None? || db.tokens[i].token == token.value)
          then db.tokens[i].(isRevoked := true) else db.tokens[i])
  }

  // ---- lookups are exact ----

  lemma FindUserIs(db: Db, i: Uuid)
    requires UniqueEmails(db) && i in db.users
    ensures FindUser(db, db.users[i].email) == Some(i)
  {
  }

  lemma FindTokenIs(db: Db, i: Uuid)
    requires UniqueTokens(db) && i in db.tokens
    ensures FindToken(db, db.tokens[i].token) == Some(i)
  {
  }
}
