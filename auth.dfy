/**
 * Accounts and account recovery (backend/controllers/auth.js).
 *
 * Three disjoint collections hold client (`User`), provider and admin
 * accounts, each keyed here by e-mail. bcrypt, SHA-256 and JWT signing are
 * opaque functions carried by `Crypto`; the clock (`Date.now()` in
 * milliseconds), bcrypt's random salt and the random reset token are
 * parameters of the operations that use them.
 */
module Auth {
  import opened Wrappers

  datatype Role = Client | ProviderRole | AdminRole

  /** The role name that goes into the token and the response. */
  function RoleName(role: Role): (name: string)
    ensures name in {"client", "provider", "admin"}
    ensures role == Client <==> name == "client"
    ensures role == AdminRole <==> name == "admin"
  {
    match role
    case Client => "client"
    case ProviderRole => "provider"
    case AdminRole => "admin"
  }

  /** A stored account. `password` is a bcrypt digest, never the plain text. */
  datatype Account = Account(
    id: string,
    email: string,
    fullName: Option<string>,
    phoneNumber: Option<string>,
    password: string,
    role: string,
    isVerified: Option<bool>,
    resetPasswordToken: Option<string>,
    resetPasswordExpire: Option<int>)

  /** bcrypt's salt: its cost factor and its random part. */
  datatype Salt = Salt(rounds: nat, nonce: nat)

  /** The claims `jwt.sign` puts in a token; `iat` and `exp` are in seconds. */
  datatype Claims = Claims(id: string, email: string, role: string, iat: int, exp: int)

  datatype Crypto = Crypto(
    bcryptHash: (string, Salt) -> string,
    bcryptCompare: (string, string) -> bool,
    sha256Hex: string -> string,
    jwtSign: Claims -> string)

  /** bcrypt accepts the password a digest was made from. */
  ghost predicate BcryptSound(c: Crypto) {
    forall p, salt :: c.bcryptCompare(p, c.bcryptHash(p, salt))
  }

  /** The reset token is 32 random bytes written as 64 lower-case hex digits. */
  predicate IsHexToken(t: string) {
    |t| == 64 && forall i :: 0 <= i < |t| ==> ('0' <= t[i] <= '9' || 'a' <= t[i] <= 'f')
  }

  const ResetWindowMs: int := 15 * 60 * 1000

  datatype UserSummary = UserSummary(id: string, email: string, fullName: string, role: string, phoneNumber: string)
  datatype LoginUser = LoginUser(id: string, email: string, role: string)

  /** The JSON body of a reply. */
  datatype Body =
    | Failure(message: string)                      // { success: false, message }
    | Notice(message: string)                       // { success: true, message }
    | Session(token: string, user: UserSummary)     // createAuthResponse
    | LoginSession(token: string, loginUser: LoginUser)

  datatype Reply = Reply(status: int, body: Body)

  const InvalidCredentials: Reply := Reply(401, Failure("Invalid credentials"))
  const InvalidAdminCredentials: Reply := Reply(401, Failure("Invalid admin credentials"))
  const EmailInUse: Reply := Reply(409, Failure("Email already in use"))

  /**
   * `generateAuthToken`: a token signed over the account's id, e-mail and role,
   * issued now (whole seconds) and expiring one hour later.
   */
  function GenerateAuthToken(user: Account, role: Role, c: Crypto, now: int): (token: string)
    ensures exists claims: Claims ::
      && token == c.jwtSign(claims)
      && claims.id == user.id && claims.email == user.email && claims.role == RoleName(role)
      && claims.iat == now / 1000 && claims.exp == claims.iat + 3600
  {
    c.jwtSign(Claims(user.id, user.email, RoleName(role), now / 1000, now / 1000 + 3600))
  }

  /** `x || ''` on an optional string. */
  function OrEmpty(x: Option<string>): (r: string)
    ensures x.None? ==> r == ""
    ensures x.Some? ==> r == x.value
  {
    if x.Some? then x.value else ""
  }

  /** `createAuthResponse`: the session body; a missing name or phone becomes ''. */
  function CreateAuthResponse(user: Account, role: Role, c: Crypto, now: int): (b: Body)
    ensures b.Session? && b.token == GenerateAuthToken(user, role, c, now)
    ensures b.user.id == user.id && b.user.email == user.email && b.user.role == RoleName(role)
    ensures b.user.fullName == (if user.fullName.Some? then user.fullName.value else "")
    ensures b.user.phoneNumber == (if user.phoneNumber.Some? then user.phoneNumber.value else "")
  {
    Session(GenerateAuthToken(user, role, c, now),
            UserSummary(user.id, user.email, OrEmpty(user.fullName), RoleName(role), OrEmpty(user.phoneNumber)))
  }

  /** Every record sits under its own e-mail, and the two reset fields are set together. */
  ghost predicate WellFormed(m: map<string, Account>) {
    forall e :: e in m ==>
      m[e].email == e && (m[e].resetPasswordToken.Some? <==> m[e].resetPasswordExpire.Some?)
  }

  /** Login probes the collections in this order. */
  function Priority(role: Role): nat {
    match role
    case Client => 0
    case ProviderRole => 1
    case AdminRole => 2
  }

  class AccountStore {
    var users: map<string, Account>
    var providers: map<string, Account>
    var admins: map<string, Account>

    ghost predicate Valid()
      reads this
    {
      WellFormed(users) && WellFormed(providers) && WellFormed(admins)
    }

    constructor ()
      ensures Valid() && users == map[] && providers == map[] && admins == map[]
    {
      users, providers, admins := map[], map[], map[];
    }

    /** The collection that holds the accounts of a role. */
    function Collection(role: Role): map<string, Account>
      reads this
    {
      match role
      case Client => users
      case ProviderRole => providers
      case AdminRole => admins
    }

    /**
     * The account login resolves `email` to, with the role of the collection
     * it came from: the first collection, in priority order, that holds it.
     */
    function Locate(email: string): (r: Option<(Account, Role)>)
      reads this
      ensures r.None? <==> forall role :: email !in Collection(role)
      ensures r.Some? ==>
        && email in Collection(r.value.1) && r.value.0 == Collection(r.value.1)[email]
        && forall role :: Priority(role) < Priority(r.value.1) ==> email !in Collection(role)
    {
      if email in users then
        assert email in Collection(Client);
        Some((users[email], Client))
      else if email in providers then
        assert email in Collection(ProviderRole);
        Some((providers[email], ProviderRole))
      else if email in admins then
        assert email in Collection(AdminRole);
        Some((admins[email], AdminRole))
      else None
    }

    /**
     * `login`: one uniform 401 for an unknown e-mail and for a wrong password;
     * on success the role names the collection the account was found in.
     */
    method Login(email: string, password: string, c: Crypto, now: int) returns (reply: Reply)
      ensures reply.status == 200 || reply == InvalidCredentials
      ensures reply.status == 200 <==>
        Locate(email).Some? && c.bcryptCompare(password, Locate(email).value.0.password)
      ensures reply.status == 200 ==>
        var (account, role) := Locate(email).value;
        && reply.body == LoginSession(GenerateAuthToken(account, role, c, now),
                                      LoginUser(account.id, account.email, RoleName(role)))
    {
      var found: Option<(Account, Role)> := None;
      if email in users {
        found := Some((users[email], Client));
      } else if email in providers {
        found := Some((providers[email], ProviderRole));
      } else if email in admins {
        found := Some((admins[email], AdminRole));
      }
      if found.None? {
        return InvalidCredentials;
      }
      var (user, role) := found.value;
      if !c.bcryptCompare(password, user.password) {
        return InvalidCredentials;
      }
      var token := GenerateAuthToken(user, role, c, now);
      reply := Reply(200, LoginSession(token, LoginUser(user.id, user.email, RoleName(role))));
    }

    /** `clientSignup`: unique e-mail within the client collection only. */
    method ClientSignup(fullName: Option<string>, email: string, phoneNumber: Option<string>,
                        password: string, c: Crypto, nonce: nat, newId: string, now: int)
      returns (reply: Reply)
      requires Valid()
      modifies this
      ensures Valid()
      ensures providers == old(providers) && admins == old(admins)
      ensures email in old(users) ==> reply == EmailInUse && users == old(users)
      ensures email !in old(users) ==>
        var created := Account(newId, email, fullName, phoneNumber,
                               c.bcryptHash(password, Salt(12, nonce)), "client", None, None, None);
        && users == old(users)[email := created]
        && reply == Reply(201, CreateAuthResponse(created, Client, c, now))
    {
      if email in users {
        return EmailInUse;
      }
      var hashedPassword := c.bcryptHash(password, Salt(12, nonce));
      var user := Account(newId, email, fullName, phoneNumber, hashedPassword, "client", None, None, None);
      users := users[email := user];
      reply := Reply(201, CreateAuthResponse(user, Client, c, now));
    }

    /** `adminSignup`: unique e-mail within the admin collection only; admins start verified. */
    method AdminSignup(fullName: Option<string>, email: string, phoneNumber: Option<string>,
                       password: string, c: Crypto, nonce: nat, newId: string, now: int)
      returns (reply: Reply)
      requires Valid()
      modifies this
      ensures Valid()
      ensures users == old(users) && providers == old(providers)
      ensures email in old(admins) ==> reply == EmailInUse && admins == old(admins)
      ensures email !in old(admins) ==>
        var created := Account(newId, email, fullName, phoneNumber,
                               c.bcryptHash(password, Salt(12, nonce)), "admin", Some(true), None, None);
        && admins == old(admins)[email := created]
        && reply == Reply(201, CreateAuthResponse(created, AdminRole, c, now))
    {
      if email in admins {
        return EmailInUse;
      }
      var hashedPassword := c.bcryptHash(password, Salt(12, nonce));
      var admin := Account(newId, email, fullName, phoneNumber, hashedPassword, "admin", Some(true), None, None);
      admins := admins[email := admin];
      reply := Reply(201, CreateAuthResponse(admin, AdminRole, c, now));
    }

    /** `adminLogin`: consults the admin collection and nothing else. */
    method AdminLogin(email: string, password: string, c: Crypto, now: int) returns (reply: Reply)
      ensures reply.status == 200 || reply == InvalidAdminCredentials
      ensures reply.status == 200 <==> email in admins && c.bcryptCompare(password, admins[email].password)
      ensures reply.status == 200 ==> reply.body == CreateAuthResponse(admins[email], AdminRole, c, now)
    {
      if email !in admins {
        return InvalidAdminCredentials;
      }
      var admin := admins[email];
      if !c.bcryptCompare(password, admin.password) {
        return InvalidAdminCredentials;
      }
      reply := Reply(200, CreateAuthResponse(admin, AdminRole, c, now));
    }

    /**
     * `forgotPassword`: an unknown e-mail is reported with a distinguishing 404.
     * A known client gets the SHA-256 of the raw token and an expiry fifteen
     * minutes ahead; the record is saved before the mail is sent, so a mail
     * failure (500) leaves the token in place.
     */
    method ForgotPassword(email: string, rawToken: string, now: int, c: Crypto, mailDelivered: bool)
      returns (reply: Reply)
      requires Valid()
      requires IsHexToken(rawToken)
      modifies this
      ensures Valid()
      ensures providers == old(providers) && admins == old(admins)
      ensures email !in old(users) ==>
        reply == Reply(404, Failure("No account found with that email.")) && users == old(users)
      ensures email in old(users) ==>
        && users == old(users)[email := old(users)[email].(
             resetPasswordToken := Some(c.sha256Hex(rawToken)),
             resetPasswordExpire := Some(now + ResetWindowMs))]
        && reply == (if mailDelivered then Reply(200, Notice("Password reset link sent to your email."))
                     else Reply(500, Failure("Email could not be sent. Try again later.")))
    {
      if email !in users {
        return Reply(404, Failure("No account found with that email."));
      }
      var hashedToken := c.sha256Hex(rawToken);
      var user := users[email];
      user := user.(resetPasswordToken := Some(hashedToken), resetPasswordExpire := Some(now + 15 * 60 * 1000));
      users := users[email := user];
      if mailDelivered {
        reply := Reply(200, Notice("Password reset link sent to your email."));
      } else {
        reply := Reply(500, Failure("Email could not be sent. Try again later."));
      }
    }

    /** Some client holds `hashed` as its reset token. */
    ghost predicate TokenHeld(hashed: string)
      reads this
    {
      exists e :: e in users && users[e].resetPasswordToken == Some(hashed)
    }

    /**
     * `resetPassword`: the account is found by the token's hash alone (the
     * expiry is never consulted). A match gets the new password's digest and
     * loses both reset fields; no match is a 400 that changes nothing.
     */
    method ResetPassword(token: string, password: string, c: Crypto, nonce: nat) returns (reply: Reply)
      requires Valid()
      modifies this
      ensures Valid()
      ensures providers == old(providers) && admins == old(admins)
      ensures !old(TokenHeld(c.sha256Hex(token))) ==>
        reply == Reply(400, Failure("Invalid or expired token.")) && users == old(users)
      ensures old(TokenHeld(c.sha256Hex(token))) ==>
        && reply == Reply(200, Notice("Password reset successful. You can now log in."))
        && exists e :: e in old(users) && old(users)[e].resetPasswordToken == Some(c.sha256Hex(token))
             && users == old(users)[e := old(users)[e].(
                  password := c.bcryptHash(password, Salt(10, nonce)),
                  resetPasswordToken := None,
                  resetPasswordExpire := None)]
    {
      var hashedToken := c.sha256Hex(token);
      if !exists e :: e in users && users[e].resetPasswordToken == Some(hashedToken) {
        return Reply(400, Failure("Invalid or expired token."));
      }
      var e :| e in users && users[e].resetPasswordToken == Some(hashedToken);
      var user := users[e];
      user := user.(password := c.bcryptHash(password, Salt(10, nonce)));
      user := user.(resetPasswordToken := None, resetPasswordExpire := None);
      users := users[e := user];
      reply := Reply(200, Notice("Password reset successful. You can now log in."));
    }
  }

  /** The client collection shadows the others: its account is the one login resolves. */
  lemma ClientShadowsOthers(store: AccountStore, email: string)
    requires email in store.users
    ensures store.Locate(email) == Some((store.users[email], Client))
  {
    assert Priority(Client) == 0;
  }

  /**
   * The recovery round trip: a reset requested for a client and then carried
   * out with the mailed token lets that client log in with the new password,
   * and the same token is refused the second time.
   */
  method RecoveryRoundTrip(store: AccountStore, email: string, rawToken: string, now: int,
                           newPassword: string, c: Crypto, nonce: nat)
    returns (login: Reply, second: Reply)
    requires store.Valid() && email in store.users && IsHexToken(rawToken)
    requires BcryptSound(c)
    requires !store.TokenHeld(c.sha256Hex(rawToken))
    modifies store
    ensures store.Valid()
    ensures login.status == 200 && login.body.LoginSession? && login.body.loginUser.role == "client"
    ensures second.status == 400
  {
    var requested := store.ForgotPassword(email, rawToken, now, c, true);
    assert store.users[email].resetPasswordToken == Some(c.sha256Hex(rawToken));
    assert forall e :: e in store.users && e != email ==> store.users[e].resetPasswordToken != Some(c.sha256Hex(rawToken));
    var reset := store.ResetPassword(rawToken, newPassword, c, nonce);
    assert store.users[email].password == c.bcryptHash(newPassword, Salt(10, nonce));
    login := store.Login(email, newPassword, c, now);
    ClientShadowsOthers(store, email);
    second := store.ResetPassword(rawToken, newPassword, c, nonce);
  }
}
