/**
 * The records of the auth tables and the shapes of the auth API: a user keyed
 * by id with a unique email, a session keyed by its token and pointing at its
 * user, and the request and response bodies of the auth endpoints.
 */
module Models {
  import opened Common
  import opened Text

  /** The prefix of every user id made by the table's default factory. */
  const UserIdPrefix: string := "u_"

  /** A row of the `user` table. Times are integer clock readings. */
  datatype User = User(
    id: string,
    email: string,
    name: string,
    passwordHash: string,
    image: Option<string>,
    createdAt: int,
    updatedAt: int)

  /** A row of the `session` table: a bearer token, its owner and its expiry. */
  datatype SessionRecord = SessionRecord(
    token: string,
    userId: string,
    expiresAt: int,
    createdAt: int)

  datatype SignUpRequest = SignUpRequest(email: string, password: string, name: string, image: Option<string> := None)

  datatype SignInRequest = SignInRequest(email: string, password: string)

  datatype UserResponse = UserResponse(id: string, email: string, name: string, image: Option<string> := None)

  datatype SessionResponse = SessionResponse(token: string)

  /** Every successful auth call answers with the user and one session token. */
  datatype AuthResponse = AuthResponse(user: UserResponse, session: SessionResponse)

  /** The id a new user gets: `u_` followed by the text of a fresh UUID. */
  function NewUserId(uuid: string): string {
    UserIdPrefix + uuid
  }

  /** Distinct UUIDs give distinct user ids, and every id carries the prefix. */
  lemma NewUserIdInjective(a: string, b: string)
    ensures StartsWith(NewUserId(a), UserIdPrefix)
    ensures NewUserId(a) == NewUserId(b) ==> a == b
  {
    assert NewUserId(a)[|UserIdPrefix|..] == a;
    assert NewUserId(b)[|UserIdPrefix|..] == b;
  }

  /** The public view of a user: everything but the password hash and the timestamps. */
  function ResponseFor(u: User): UserResponse {
    UserResponse(u.id, u.email, u.name, u.image)
  }

  /** The `user` table is keyed by the id each row carries. */
  ghost predicate UsersKeyedById(users: map<string, User>) {
    forall id :: id in users ==> users[id].id == id
  }

  /** The unique index on `user.email`. */
  ghost predicate EmailsUnique(users: map<string, User>) {
    forall a, b :: a in users && b in users && users[a].email == users[b].email ==> a == b
  }

  /** The `session` table is keyed by the token each row carries. */
  ghost predicate SessionsKeyedByToken(sessions: map<string, SessionRecord>) {
    forall token :: token in sessions ==> sessions[token].token == token
  }

  /** The foreign key `session.user_id -> user.id`. */
  ghost predicate SessionsReferenceUsers(users: map<string, User>, sessions: map<string, SessionRecord>) {
    forall token :: token in sessions ==> sessions[token].userId in users
  }
}
