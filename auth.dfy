/**
 * The auth router: sign-up, sign-in and session lookup over the `user` and
 * `session` tables.
 *
 * Each handler is specified by a step function from the tables before the
 * request to the tables after it and the handler's answer; `SessionStore`
 * implements the handlers over two mutable maps and is proved to follow the
 * step functions, and the lemmas state what the steps promise. Password
 * hashing and checking, token generation, UUIDs and the clock are parameters.
 */
module Auth {
  import opened Common
  import opened Text
  import opened Models

  /** `timedelta(days=7)` on the integer clock, which counts seconds. */
  const SessionLifetime: int := 7 * 24 * 60 * 60

  const BearerPrefix: string := "Bearer "

  const UserExists: HttpError := HttpError(400, "User already exists")
  const InvalidCredentials: HttpError := HttpError(401, "Invalid credentials")

  /** Why a handler fails: an HTTP error it raises, or a primary-key clash reported by the database on commit. */
  datatype Failure = Rejected(error: HttpError) | IntegrityError(table: string)

  datatype Tables = Tables(users: map<string, User>, sessions: map<string, SessionRecord>)

  /** The tables after a request, and the handler's answer. */
  datatype Outcome<R> = Outcome(tables: Tables, result: R)

  /** What the database schema guarantees of the two tables. */
  ghost predicate Consistent(t: Tables) {
    && UsersKeyedById(t.users)
    && EmailsUnique(t.users)
    && SessionsKeyedByToken(t.sessions)
    && SessionsReferenceUsers(t.users, t.sessions)
  }

  /** `select(User).where(User.email == email).first()` finds a row. */
  predicate EmailRegistered(users: map<string, User>, email: string) {
    exists id :: id in users && users[id].email == email
  }

  /** The id of the row `select(User).where(User.email == email).first()` returns. */
  ghost function AccountWithEmail(users: map<string, User>, email: string): (r: Option<string>)
    ensures r.Some? <==> EmailRegistered(users, email)
    ensures r.Some? ==> r.value in users && users[r.value].email == email
  {
    if EmailRegistered(users, email) then
      var id :| id in users && users[id].email == email;
      Some(id)
    else None
  }

  /** A session for `userId` issued at `now`, valid for seven days. */
  function NewSession(token: string, userId: string, now: int): SessionRecord {
    SessionRecord(token, userId, now + SessionLifetime, now)
  }

  /** `sign_up`: refuse a registered email, else insert the user, then its first session. */
  function SignUpStep(t: Tables, req: SignUpRequest, hash: string -> string, uuid: string,
                      token: string, now: int): Outcome<Result<AuthResponse, Failure>>
  {
    if EmailRegistered(t.users, req.email) then Outcome(t, Err(Rejected(UserExists)))
    else
      var user := User(NewUserId(uuid), req.email, req.name, hash(req.password), req.image, now, now);
      if user.id in t.users then Outcome(t, Err(IntegrityError("user")))
      else
        // the user row is committed before the session row is added
        var users := t.users[user.id := user];
        if token in t.sessions then Outcome(Tables(users, t.sessions), Err(IntegrityError("session")))
        else
          Outcome(Tables(users, t.sessions[token := NewSession(token, user.id, now)]),
                  Ok(AuthResponse(ResponseFor(user), SessionResponse(token))))
  }

  /** `sign_in`: on a matching email and password, add a session for that user. */
  ghost function SignInStep(t: Tables, req: SignInRequest, verify: (string, string) -> bool,
                            token: string, now: int): Outcome<Result<AuthResponse, Failure>>
  {
    match AccountWithEmail(t.users, req.email)
    case None => Outcome(t, Err(Rejected(InvalidCredentials)))
    case Some(id) =>
      var user := t.users[id];
      if !verify(req.password, user.passwordHash) then Outcome(t, Err(Rejected(InvalidCredentials)))
      else if token in t.sessions then Outcome(t, Err(IntegrityError("session")))
      else
        Outcome(t.(sessions := t.sessions[token := NewSession(token, user.id, now)]),
                Ok(AuthResponse(ResponseFor(user), SessionResponse(token))))
  }

  /** What `authorization.split(" ")[1]` gives for a header that starts with `Bearer `. */
  lemma BearerFields(header: string)
    requires StartsWith(header, BearerPrefix)
    ensures |Split(header, ' ')| >= 2
    ensures var rest := header[|BearerPrefix|..];
            Split(header, ' ')[1] == rest[..FirstIndex(rest, ' ')]
  {
    var rest := header[|BearerPrefix|..];
    assert header == "Bearer" + [' '] + rest;
    SplitAfterSeparator("Bearer", ' ', rest);
    SplitHead(rest, ' ');
  }

  /**
   * The token of an `Authorization` header: present exactly when the header
   * starts with `Bearer `, and then the space-free run that follows it, up to
   * the next space or the end.
   */
  function BearerToken(authorization: Option<string>): (token: Option<string>)
    ensures token.Some? <==> authorization.Some? && StartsWith(authorization.value, BearerPrefix)
    ensures token.Some? ==>
              && ' ' !in token.value
              && StartsWith(authorization.value, BearerPrefix + token.value)
              && var end := |BearerPrefix| + |token.value|;
                 end == |authorization.value| || authorization.value[end] == ' '
  {
    if authorization.None? || authorization.value == [] || !StartsWith(authorization.value, BearerPrefix) then None
    else
      var header := authorization.value;
      BearerFields(header);
      var rest := header[|BearerPrefix|..];
      assert header[..|BearerPrefix| + FirstIndex(rest, ' ')] == BearerPrefix + rest[..FirstIndex(rest, ' ')];
      Some(Split(header, ' ')[1])
  }

  /** A header built from a space-free token gives that token back. */
  lemma BearerRoundTrip(token: string)
    requires ' ' !in token
    ensures BearerToken(Some(BearerPrefix + token)) == Some(token)
  {
    var header := BearerPrefix + token;
    assert header[|BearerPrefix|..] == token;
    assert header[..|BearerPrefix|] == BearerPrefix;
    assert FirstIndex(token, ' ') == |token|;
    BearerFields(header);
    assert token[..|token|] == token;
  }

  /** `get_current_session`: resolve a bearer token, deleting its session if it has expired. */
  function SessionLookupStep(t: Tables, authorization: Option<string>, now: int): Outcome<Option<AuthResponse>> {
    match BearerToken(authorization)
    case None => Outcome(t, None)
    case Some(token) =>
      if token !in t.sessions then Outcome(t, None)
      else
        var record := t.sessions[token];
        if record.expiresAt < now then Outcome(t.(sessions := t.sessions - {token}), None)
        else if record.userId !in t.users then Outcome(t, None)
        else Outcome(t, Some(AuthResponse(ResponseFor(t.users[record.userId]), SessionResponse(token))))
  }

  /**
   * Sign-up refuses a registered email with 400 and changes nothing. Otherwise,
   * when the generated id and token are new, it adds exactly one user, holding
   * the hashed password and the given name, email and image, and exactly one
   * session for that user expiring seven days from now, and answers with that
   * user and that token.
   */
  lemma SignUpEffect(t: Tables, req: SignUpRequest, hash: string -> string, uuid: string, token: string, now: int)
    ensures var s := SignUpStep(t, req, hash, uuid, token, now);
            (s.result == Err(Rejected(UserExists)) <==> EmailRegistered(t.users, req.email))
            && (s.result == Err(Rejected(UserExists)) ==> s.tables == t)
    ensures var s := SignUpStep(t, req, hash, uuid, token, now);
            var id := NewUserId(uuid);
            !EmailRegistered(t.users, req.email) && id !in t.users && token !in t.sessions ==>
              && s.result.Ok?
              && s.tables.users == t.users[id := User(id, req.email, req.name, hash(req.password), req.image, now, now)]
              && |s.tables.users| == |t.users| + 1
              && s.tables.sessions == t.sessions[token := SessionRecord(token, id, now + SessionLifetime, now)]
              && |s.tables.sessions| == |t.sessions| + 1
              && s.result.value == AuthResponse(UserResponse(id, req.email, req.name, req.image), SessionResponse(token))
  {
  }

  /** Every handler keeps the tables consistent: keys, unique emails, and the user of every session. */
  lemma SignUpKeepsTablesConsistent(t: Tables, req: SignUpRequest, hash: string -> string, uuid: string,
                                    token: string, now: int)
    requires Consistent(t)
    ensures Consistent(SignUpStep(t, req, hash, uuid, token, now).tables)
  {
    var s := SignUpStep(t, req, hash, uuid, token, now);
    if !EmailRegistered(t.users, req.email) && NewUserId(uuid) !in t.users {
      var id := NewUserId(uuid);
      assert forall other :: other in t.users ==> t.users[other].email != req.email;
      assert s.tables.users == t.users[id := s.tables.users[id]];
    }
  }

  lemma SignInKeepsTablesConsistent(t: Tables, req: SignInRequest, verify: (string, string) -> bool,
                                    token: string, now: int)
    requires Consistent(t)
    ensures Consistent(SignInStep(t, req, verify, token, now).tables)
  {
  }

  lemma SessionLookupKeepsTablesConsistent(t: Tables, authorization: Option<string>, now: int)
    requires Consistent(t)
    ensures Consistent(SessionLookupStep(t, authorization, now).tables)
  {
  }

  /** After a successful sign-up, a second sign-up with the same email is refused and issues no token. */
  lemma SecondSignUpRejected(t: Tables, req: SignUpRequest, hash: string -> string, uuid: string, token: string, now: int,
                             req2: SignUpRequest, hash2: string -> string, uuid2: string, token2: string, now2: int)
    requires req2.email == req.email
    requires SignUpStep(t, req, hash, uuid, token, now).result.Ok?
    ensures var t1 := SignUpStep(t, req, hash, uuid, token, now).tables;
            SignUpStep(t1, req2, hash2, uuid2, token2, now2) == Outcome(t1, Err(Rejected(UserExists)))
  {
    var t1 := SignUpStep(t, req, hash, uuid, token, now).tables;
    var id := NewUserId(uuid);
    assert id in t1.users && t1.users[id].email == req2.email;
  }

  /**
   * Sign-in succeeds exactly when some user has the given email and the
   * password verifies against that user's hash (when the new token is new);
   * otherwise it answers 401.
   */
  lemma SignInSucceedsIffCredentialsMatch(t: Tables, req: SignInRequest, verify: (string, string) -> bool,
                                          token: string, now: int)
    requires Consistent(t)
    requires token !in t.sessions
    ensures var s := SignInStep(t, req, verify, token, now);
            s.result.Ok? <==>
              exists id :: id in t.users && t.users[id].email == req.email && verify(req.password, t.users[id].passwordHash)
    ensures var s := SignInStep(t, req, verify, token, now);
            s.result.Err? ==> s.result == Err(Rejected(InvalidCredentials))
  {
    var s := SignInStep(t, req, verify, token, now);
    if exists id :: id in t.users && t.users[id].email == req.email && verify(req.password, t.users[id].passwordHash) {
      var id :| id in t.users && t.users[id].email == req.email && verify(req.password, t.users[id].passwordHash);
      var chosen := AccountWithEmail(t.users, req.email);
      assert chosen.Some? && chosen.value == id;
    }
  }

  /**
   * Sign-in never touches the user table. A refused sign-in changes nothing;
   * a successful one adds one session for the signed-in user, keeps every
   * existing session (so a user may hold several), and answers with that
   * user and the new token.
   */
  lemma SignInEffect(t: Tables, req: SignInRequest, verify: (string, string) -> bool, token: string, now: int)
    requires Consistent(t)
    ensures var s := SignInStep(t, req, verify, token, now);
            && s.tables.users == t.users
            && (s.result.Err? ==> s.tables == t)
            && (s.result.Ok? ==>
                  var id := s.result.value.user.id;
                  && id in t.users
                  && t.users[id].email == req.email
                  && s.result.value.user == ResponseFor(t.users[id])
                  && s.result.value.session.token == token
                  && token !in t.sessions
                  && s.tables.sessions == t.sessions[token := NewSession(token, id, now)])
  {
  }

  /** Sign-up followed by sign-in with the same password signs in the new user, keeping the first session. */
  lemma SignUpThenSignIn(t: Tables, req: SignUpRequest, hash: string -> string, uuid: string, token: string, now: int,
                         verify: (string, string) -> bool, token2: string, now2: int)
    requires Consistent(t)
    requires SignUpStep(t, req, hash, uuid, token, now).result.Ok?
    requires verify(req.password, hash(req.password))
    requires token2 != token && token2 !in t.sessions
    ensures var s := SignUpStep(t, req, hash, uuid, token, now);
            var s2 := SignInStep(s.tables, SignInRequest(req.email, req.password), verify, token2, now2);
            && s2.result == Ok(AuthResponse(s.result.value.user, SessionResponse(token2)))
            && token in s2.tables.sessions
            && token2 in s2.tables.sessions
  {
    var s := SignUpStep(t, req, hash, uuid, token, now);
    var id := NewUserId(uuid);
    SignUpKeepsTablesConsistent(t, req, hash, uuid, token, now);
    assert id in s.tables.users && s.tables.users[id].email == req.email;
    var chosen := AccountWithEmail(s.tables.users, req.email);
    assert chosen == Some(id);
  }

  /**
   * Until it expires, the session issued by sign-up resolves to the new user
   * and the same token, and the lookup changes nothing.
   */
  lemma SignUpThenSessionLookup(t: Tables, req: SignUpRequest, hash: string -> string, uuid: string,
                                token: string, now: int, later: int)
    requires ' ' !in token
    requires SignUpStep(t, req, hash, uuid, token, now).result.Ok?
    requires later <= now + SessionLifetime
    ensures var s := SignUpStep(t, req, hash, uuid, token, now);
            SessionLookupStep(s.tables, Some(BearerPrefix + token), later) == Outcome(s.tables, Some(s.result.value))
  {
    BearerRoundTrip(token);
  }

  /** A header that is missing or does not start with `Bearer `, or names no session, resolves to nothing and changes nothing. */
  lemma SessionLookupWithoutSession(t: Tables, authorization: Option<string>, now: int)
    requires BearerToken(authorization).None? || BearerToken(authorization).value !in t.sessions
    ensures SessionLookupStep(t, authorization, now) == Outcome(t, None)
  {
  }

  /**
   * A session whose expiry is strictly before now is deleted by the lookup,
   * which resolves to nothing and leaves every other row alone; looking it up
   * again, at any time, finds nothing and changes nothing.
   */
  lemma ExpiredSessionDeletedOnLookup(t: Tables, authorization: Option<string>, now: int)
    requires BearerToken(authorization).Some?
    requires var token := BearerToken(authorization).value;
             token in t.sessions && t.sessions[token].expiresAt < now
    ensures var token := BearerToken(authorization).value;
            var after := Tables(t.users, t.sessions - {token});
            && SessionLookupStep(t, authorization, now) == Outcome(after, None)
            && |after.sessions| == |t.sessions| - 1
            && forall later :: SessionLookupStep(after, authorization, later) == Outcome(after, None)
  {
  }

  /**
   * A session that has not expired, including one that expires exactly now,
   * resolves to its owner and its token, and the lookup changes nothing; in
   * consistent tables the owner is always there.
   */
  lemma LiveSessionResolves(t: Tables, authorization: Option<string>, now: int)
    requires Consistent(t)
    requires BearerToken(authorization).Some?
    requires var token := BearerToken(authorization).value;
             token in t.sessions && now <= t.sessions[token].expiresAt
    ensures var token := BearerToken(authorization).value;
            var owner := t.sessions[token].userId;
            && owner in t.users
            && SessionLookupStep(t, authorization, now)
               == Outcome(t, Some(AuthResponse(ResponseFor(t.users[owner]), SessionResponse(token))))
  {
  }

  /**
   * A live session whose user row is gone resolves to nothing, and the
   * lookup changes nothing: the answer is None in this failure case too.
   */
  lemma OrphanedSessionGivesNone(t: Tables, authorization: Option<string>, now: int)
    requires BearerToken(authorization).Some?
    requires var token := BearerToken(authorization).value;
             token in t.sessions && now <= t.sessions[token].expiresAt && t.sessions[token].userId !in t.users
    ensures SessionLookupStep(t, authorization, now) == Outcome(t, None)
  {
  }

  /** The two tables, as a class whose handlers update them in place. */
  class SessionStore {
    var users: map<string, User>
    var sessions: map<string, SessionRecord>

    ghost function Snapshot(): Tables
      reads this
    {
      Tables(users, sessions)
    }

    ghost predicate Valid()
      reads this
    {
      UsersKeyedById(users) && EmailsUnique(users) && SessionsKeyedByToken(sessions)
    }

    constructor ()
      ensures Valid() && users == map[] && sessions == map[]
    {
      users := map[];
      sessions := map[];
    }

    method SignUp(req: SignUpRequest, hash: string -> string, uuid: string, token: string, now: int)
      returns (r: Result<AuthResponse, Failure>)
      requires Valid()
      modifies this
      ensures Valid()
      ensures Outcome(Snapshot(), r) == SignUpStep(old(Snapshot()), req, hash, uuid, token, now)
    {
      if EmailRegistered(users, req.email) {
        return Err(Rejected(UserExists));
      }
      var user := User(NewUserId(uuid), req.email, req.name, hash(req.password), req.image, now, now);
      if user.id in users {
        return Err(IntegrityError("user"));
      }
      assert forall other :: other in users ==> users[other].email != req.email;
      users := users[user.id := user];
      if token in sessions {
        return Err(IntegrityError("session"));
      }
      sessions := sessions[token := NewSession(token, user.id, now)];
      return Ok(AuthResponse(ResponseFor(user), SessionResponse(token)));
    }

    method SignIn(req: SignInRequest, verify: (string, string) -> bool, token: string, now: int)
      returns (r: Result<AuthResponse, Failure>)
      requires Valid()
      modifies this
      ensures Valid()
      ensures Outcome(Snapshot(), r) == SignInStep(old(Snapshot()), req, verify, token, now)
    {
      if !EmailRegistered(users, req.email) {
        return Err(Rejected(InvalidCredentials));
      }
      var id :| id in users && users[id].email == req.email;
      assert AccountWithEmail(users, req.email) == Some(id);
      var user := users[id];
      if !verify(req.password, user.passwordHash) {
        return Err(Rejected(InvalidCredentials));
      }
      if token in sessions {
        return Err(IntegrityError("session"));
      }
      sessions := sessions[token := NewSession(token, user.id, now)];
      return Ok(AuthResponse(ResponseFor(user), SessionResponse(token)));
    }

    method GetCurrentSession(authorization: Option<string>, now: int) returns (r: Option<AuthResponse>)
      requires Valid()
      modifies this
      ensures Valid()
      ensures Outcome(Snapshot(), r) == SessionLookupStep(old(Snapshot()), authorization, now)
    {
      if authorization.None? || authorization.value == [] || !StartsWith(authorization.value, BearerPrefix) {
        return None;
      }
      BearerFields(authorization.value);
      var token := Split(authorization.value, ' ')[1];
      if token !in sessions {
        return None;
      }
      var record := sessions[token];
      if record.expiresAt < now {
        sessions := sessions - {token};
        return None;
      }
      if record.userId !in users {
        return None;
      }
      var user := users[record.userId];
      return Some(AuthResponse(ResponseFor(user), SessionResponse(token)));
    }
  }
}
