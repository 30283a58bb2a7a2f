/** `AuthService`: the users table as a state machine over email verification. */
module Auth {
  import opened Wrappers
  import opened Seqs

  /** Instants are minutes on a single time line. */
  type Instant = int

  /** How long a verification token stays valid: 24 hours, in minutes. */
  const TokenLifetime: int := 24 * 60

  datatype Role = User | Barber | Admin

  /** `Role.name()`. */
  function RoleName(r: Role): string
  {
    match r
    case User => "USER"
    case Barber => "BARBER"
    case Admin => "ADMIN"
  }

  /** A pending email verification: the token sent by email and the instant after which it is refused.
      The token and expiry columns are always written together, so one optional pair stands for both. */
  datatype Verification = Verification(token: string, expiresAt: Instant)

  /** A row of the users table. `password` holds the already encoded password. */
  datatype UserRecord = UserRecord(
    id: nat,
    email: string,
    password: string,
    fullName: string,
    phone: Option<string>,
    role: Role,
    emailVerified: bool,
    verification: Option<Verification>)

  datatype AuthError = EmailTaken | InvalidCredentials | InvalidToken | TokenExpired | UserNotFound | AlreadyVerified

  /** The verification state machine's invariant: a user holds a pending token exactly while the email
      is not verified. */
  predicate WellFormed(u: UserRecord)
  {
    u.emailVerified <==> u.verification.None?
  }

  /** `findByEmail`: the index of the user with this email. */
  function FindByEmail(users: seq<UserRecord>, email: string): Option<nat>
  {
    FirstIndex(users, (u: UserRecord) => u.email, email)
  }

  /** `findByVerificationToken`: the index of the user whose pending token is `token`. */
  function FindByToken(users: seq<UserRecord>, token: string): (r: Option<nat>)
    ensures r.Some? ==> (r.value < |users| && users[r.value].verification.Some?
      && users[r.value].verification.value.token == token)
    ensures r.None? <==> forall k :: 0 <= k < |users| ==>
      users[k].verification.None? || users[k].verification.value.token != token
    decreases |users|
  {
    if users == [] then None
    else if users[0].verification.Some? && users[0].verification.value.token == token then Some(0)
    else match FindByToken(users[1..], token)
      case None => None
      case Some(k) => Some(k + 1)
  }

  /** A newly registered client: role USER, not verified, with a token valid for 24 hours. */
  function NewClient(id: nat, email: string, encodedPassword: string, fullName: string, phone: Option<string>,
                     token: string, now: Instant): UserRecord
  {
    UserRecord(id, email, encodedPassword, fullName, phone, User, false, Some(Verification(token, now + TokenLifetime)))
  }

  /** A barber account created by an admin: role BARBER, already verified, no token. */
  function NewBarberAccount(id: nat, email: string, encodedPassword: string, fullName: string, phone: Option<string>): UserRecord
  {
    UserRecord(id, email, encodedPassword, fullName, phone, Barber, true, None)
  }

  /** The effect of a successful `verifyEmail` on the user. */
  function MarkVerified(u: UserRecord): UserRecord
  {
    u.(emailVerified := true, verification := None)
  }

  /** The effect of `resendVerificationEmail` on an unverified user. */
  function Reissue(u: UserRecord, token: string, now: Instant): UserRecord
  {
    u.(verification := Some(Verification(token, now + TokenLifetime)))
  }

  /** Both kinds of new account start in a well-formed verification state. */
  lemma NewAccountsAreWellFormed(id: nat, email: string, pw: string, name: string, phone: Option<string>, token: string, now: Instant)
    ensures WellFormed(NewClient(id, email, pw, name, phone, token, now)) && !NewClient(id, email, pw, name, phone, token, now).emailVerified
    ensures WellFormed(NewBarberAccount(id, email, pw, name, phone)) && NewBarberAccount(id, email, pw, name, phone).emailVerified
  {
  }

  /** Verifying ends the machine in its verified state and touches nothing outside verification; doing
      it again changes nothing. */
  lemma MarkVerifiedProperties(u: UserRecord)
    ensures WellFormed(MarkVerified(u)) && MarkVerified(u).emailVerified
    ensures MarkVerified(MarkVerified(u)) == MarkVerified(u)
    ensures MarkVerified(u).(emailVerified := u.emailVerified, verification := u.verification) == u
  {
  }

  /** Reissuing keeps an unverified user well-formed, replaces the token and moves the expiry to 24 hours
      after `now`, whatever the old token was. */
  lemma ReissueProperties(u: UserRecord, token: string, now: Instant)
    requires WellFormed(u) && !u.emailVerified
    ensures WellFormed(Reissue(u, token, now))
    ensures Reissue(u, token, now).verification == Some(Verification(token, now + TokenLifetime))
    ensures Reissue(Reissue(u, token, now), token, now) == Reissue(u, token, now)
    ensures Reissue(u, token, now).(verification := u.verification) == u
  {
  }

  /** No two users hold the same pending token (tokens are random UUIDs). */
  predicate TokensDistinct(users: seq<UserRecord>)
  {
    forall a, b :: (0 <= a < b < |users| && users[a].verification.Some? && users[b].verification.Some?
      ==> users[a].verification.value.token != users[b].verification.value.token)
  }

  /** Replacing one user by a record that keeps its token, or holds a token nobody holds, or none,
      keeps the pending tokens distinct. */
  lemma FreshTokenKeepsTokensDistinct(users: seq<UserRecord>, i: nat, u: UserRecord)
    requires TokensDistinct(users) && i < |users|
    requires u.verification.Some? ==>
      u.verification == users[i].verification || FindByToken(users, u.verification.value.token).None?
    ensures TokensDistinct(users[i := u])
  {
    var after := users[i := u];
    forall a, b | 0 <= a < b < |after| && after[a].verification.Some? && after[b].verification.Some?
      ensures after[a].verification.value.token != after[b].verification.value.token
    {
      if a == i && u.verification != users[i].verification {
        assert users[b].verification.Some?;
      } else if b == i && u.verification != users[i].verification {
        assert users[a].verification.Some?;
      }
    }
  }

  /** Appending a user whose token nobody holds keeps the pending tokens distinct. */
  lemma FreshUserKeepsTokensDistinct(users: seq<UserRecord>, u: UserRecord)
    requires TokensDistinct(users)
    requires u.verification.Some? ==> FindByToken(users, u.verification.value.token).None?
    ensures TokensDistinct(users + [u])
  {
    var after := users + [u];
    forall a, b | 0 <= a < b < |after| && after[a].verification.Some? && after[b].verification.Some?
      ensures after[a].verification.value.token != after[b].verification.value.token
    {
      assert after[a] == users[a];
      if b < |users| {
        assert after[b] == users[b];
      }
    }
  }

  /** A token can be used once: after verification no user holds it, so a second `verifyEmail` with it
      finds nobody. */
  lemma VerifiedTokenIsConsumed(users: seq<UserRecord>, token: string)
    requires FindByToken(users, token).Some?
    requires TokensDistinct(users)
    ensures var i := FindByToken(users, token).value;
      FindByToken(users[i := MarkVerified(users[i])], token).None?
  {
    var i := FindByToken(users, token).value;
    var after := users[i := MarkVerified(users[i])];
    forall k | 0 <= k < |after| ensures after[k].verification.None? || after[k].verification.value.token != token {
      if k != i && users[k].verification.Some? {
        if k < i {
          assert users[k].verification.value.token != users[i].verification.value.token;
        } else {
          assert users[i].verification.value.token != users[k].verification.value.token;
        }
      }
    }
  }

  class AuthService {
    /** The users table. */
    var users: seq<UserRecord>
    /** The next fresh user id (stands for the generated UUID). */
    var nextId: nat

    /** Ids are fresh and distinct, emails are unique (the column's constraint), every user is well
        formed for the verification machine, and no two users hold the same pending token. */
    ghost predicate Valid()
      reads this
    {
      && (forall k :: 0 <= k < |users| ==> users[k].id < nextId && WellFormed(users[k]))
      && (forall a, b :: 0 <= a < b < |users| ==> users[a].id != users[b].id && users[a].email != users[b].email)
      && TokensDistinct(users)
    }

    constructor ()
      ensures Valid() && users == []
    {
      users := [];
      nextId := 0;
    }

    /** `register`. The encoded password, the fresh token and the clock are parameters. */
    method Register(email: string, encodedPassword: string, fullName: string, phone: Option<string>,
                    token: string, now: Instant) returns (r: Result<UserRecord, AuthError>)
      requires Valid()
      requires FindByToken(users, token).None?
      modifies this
      ensures Valid()
      ensures FindByEmail(old(users), email).Some? ==> r == Err(EmailTaken) && users == old(users) && nextId == old(nextId)
      ensures FindByEmail(old(users), email).None? ==>
        && r == Ok(NewClient(old(nextId), email, encodedPassword, fullName, phone, token, now))
        && users == old(users) + [r.value] && nextId == old(nextId) + 1
    {
      if FindByEmail(users, email).Some? {
        return Err(EmailTaken);
      }
      var u := NewClient(nextId, email, encodedPassword, fullName, phone, token, now);
      FreshUserKeepsTokensDistinct(users, u);
      users := users + [u];
      nextId := nextId + 1;
      r := Ok(u);
    }

    /** The `login` guard: an unknown email and a wrong password give the same error. `matches` stands
        for the password encoder's check of a raw password against an encoded one. */
    method Login(email: string, password: string, matches: (string, string) -> bool) returns (r: Result<UserRecord, AuthError>)
      ensures r.Err? ==> r.error == InvalidCredentials
      ensures r.Err? <==> FindByEmail(users, email).None? || !matches(password, users[FindByEmail(users, email).value].password)
      ensures r.Ok? ==> r.value in users && r.value.email == email && matches(password, r.value.password)
    {
      var found := FindByEmail(users, email);
      if found.None? {
        return Err(InvalidCredentials);
      }
      var u := users[found.value];
      if !matches(password, u.password) {
        return Err(InvalidCredentials);
      }
      r := Ok(u);
    }

    /** `verifyEmail`: the token must belong to a user and must not have expired before `now`. */
    method VerifyEmail(token: string, now: Instant) returns (r: Outcome<AuthError>)
      requires Valid()
      modifies this
      ensures Valid() && nextId == old(nextId)
      ensures match FindByToken(old(users), token)
        case None => r == Fail(InvalidToken) && users == old(users)
        case Some(i) =>
          if old(users)[i].verification.value.expiresAt < now then r == Fail(TokenExpired) && users == old(users)
          else r == Pass && users == old(users)[i := MarkVerified(old(users)[i])] && FindByToken(users, token).None?
    {
      var found := FindByToken(users, token);
      if found.None? {
        return Fail(InvalidToken);
      }
      var i := found.value;
      if users[i].verification.value.expiresAt < now {
        return Fail(TokenExpired);
      }
      VerifiedTokenIsConsumed(users, token);
      FreshTokenKeepsTokensDistinct(users, i, MarkVerified(users[i]));
      users := users[i := MarkVerified(users[i])];
      r := Pass;
    }

    /** `resendVerificationEmail`: a fresh token with a fresh 24-hour expiry, for unverified users only. */
    method ResendVerificationEmail(email: string, token: string, now: Instant) returns (r: Outcome<AuthError>)
      requires Valid()
      requires FindByToken(users, token).None?
      modifies this
      ensures Valid() && nextId == old(nextId)
      ensures match FindByEmail(old(users), email)
        case None => r == Fail(UserNotFound) && users == old(users)
        case Some(i) =>
          if old(users)[i].emailVerified then r == Fail(AlreadyVerified) && users == old(users)
          else r == Pass && users == old(users)[i := Reissue(old(users)[i], token, now)]
    {
      var found := FindByEmail(users, email);
      if found.None? {
        return Fail(UserNotFound);
      }
      var i := found.value;
      if users[i].emailVerified {
        return Fail(AlreadyVerified);
      }
      FreshTokenKeepsTokensDistinct(users, i, Reissue(users[i], token, now));
      users := users[i := Reissue(users[i], token, now)];
      r := Pass;
    }

    /** `resetPassword`: replaces the stored (encoded) password and nothing else. */
    method ResetPassword(email: string, encodedPassword: string) returns (r: Outcome<AuthError>)
      requires Valid()
      modifies this
      ensures Valid() && nextId == old(nextId)
      ensures match FindByEmail(old(users), email)
        case None => r == Fail(UserNotFound) && users == old(users)
        case Some(i) => r == Pass && users == old(users)[i := old(users)[i].(password := encodedPassword)]
    {
      var found := FindByEmail(users, email);
      if found.None? {
        return Fail(UserNotFound);
      }
      var i := found.value;
      FreshTokenKeepsTokensDistinct(users, i, users[i].(password := encodedPassword));
      users := users[i := users[i].(password := encodedPassword)];
      r := Pass;
    }

    /** `createBarber`: an admin creates a verified BARBER account. */
    method CreateBarber(email: string, encodedPassword: string, fullName: string, phone: Option<string>)
      returns (r: Result<UserRecord, AuthError>)
      requires Valid()
      modifies this
      ensures Valid()
      ensures FindByEmail(old(users), email).Some? ==> r == Err(EmailTaken) && users == old(users) && nextId == old(nextId)
      ensures FindByEmail(old(users), email).None? ==>
        && r == Ok(NewBarberAccount(old(nextId), email, encodedPassword, fullName, phone))
        && users == old(users) + [r.value] && nextId == old(nextId) + 1
    {
      if FindByEmail(users, email).Some? {
        return Err(EmailTaken);
      }
      var u := NewBarberAccount(nextId, email, encodedPassword, fullName, phone);
      FreshUserKeepsTokensDistinct(users, u);
      users := users + [u];
      nextId := nextId + 1;
      r := Ok(u);
    }
  }
}
