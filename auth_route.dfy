/** The server's user registry and its routes `/register`, `/login`,
    `/logout` and `/status`. Password hashing and comparison and the signing
    and checking of session tokens happen in code this model does not see;
    they are given to the registry as functions. */
module AuthRoute {
  import opened Json
  import SettingsRoute

  type UserId = SettingsRoute.UserId

  /** A stored user; the password is kept only as its hash. */
  datatype User = User(username: string, email: string, passwordHash: string)

  /** What a session token says about its holder. */
  datatype Claims = Claims(id: UserId, username: string, email: string)

  const AllFieldsRequired := "All fields are required"
  const UserExists := "User already exists with that email or username"
  const InvalidCredentials := "Invalid credentials"
  const LoggedOutMessage := "Logged out successfully"

  datatype RegisterReply = Registered(userId: UserId) | RegisterRejected(message: string) | RegisterFailed
  {
    function Status(): nat
    {
      match this
      case Registered(_) => 201
      case RegisterRejected(_) => 400
      case RegisterFailed => 500
    }
  }

  /** A successful login answers with the user and sets the signed token as
      a cookie. */
  datatype LoginReply = LoginOk(user: Claims, token: string) | LoginRejected(message: string) | LoginFailed
  {
    function Status(): nat
    {
      match this
      case LoginOk(_, _) => 200
      case LoginRejected(_) => 400
      case LoginFailed => 500
    }
  }

  datatype StatusReply = LoggedInAs(user: Claims) | NotLoggedIn

  datatype LogoutReply = LogoutReply(status: nat, message: string, clearsCookie: bool)

  /** Whether some stored user already has this username or this email. */
  predicate Taken(users: map<UserId, User>, username: string, email: string)
  {
    exists id :: id in users && (users[id].username == username || users[id].email == email)
  }

  /** `/logout`: always succeeds, clearing the token cookie. */
  function Logout(): (r: LogoutReply)
    ensures r.status == 200 && r.clearsCookie && r.message == LoggedOutMessage
  {
    LogoutReply(200, LoggedOutMessage, true)
  }

  class Registry {
    var users: map<UserId, User>
    /** where new ids are drawn from */
    var nextId: UserId
    /** the settings collection shared with the settings routes */
    const settingsDb: SettingsRoute.SettingsCollection
    /** the password hashing the user model applies on save */
    const hash: string -> string
    /** `user.comparePassword`: whether a candidate password matches a hash */
    const passwordMatches: (string, string) -> bool
    /** `jwt.sign` on the claims */
    const sign: Claims -> string
    /** `jwt.verify`: the claims of a valid token, None when it is invalid */
    const verify: string -> Option<Claims>

    /** Ids are below `nextId`, and no two users share a username or an
        email (registration refuses both). */
    ghost predicate Valid()
      reads this
    {
      && (forall id :: id in users ==> id < nextId)
      && (forall a, b :: a in users && b in users && a != b ==>
            users[a].username != users[b].username && users[a].email != users[b].email)
    }

    constructor (db: SettingsRoute.SettingsCollection, hash: string -> string,
                 passwordMatches: (string, string) -> bool,
                 sign: Claims -> string, verify: string -> Option<Claims>)
      ensures Valid() && users == map[] && nextId == 0 && settingsDb == db
      ensures this.hash == hash && this.passwordMatches == passwordMatches
      ensures this.sign == sign && this.verify == verify
    {
      users := map[];
      nextId := 0;
      settingsDb := db;
      this.hash := hash;
      this.passwordMatches := passwordMatches;
      this.sign := sign;
      this.verify := verify;
    }

    /** `/register`: all three fields are required and neither the username
        nor the email may be taken; then exactly one user and one default
        settings document are added under a new id, which the reply carries.
        The duplicate lookup is itself a database call, so a database failure
        answers 500 even for a taken name. A rejected or failed registration
        inserts nothing. (An empty string stands for a missing field.) */
    method Register(username: string, email: string, password: string, now: int, dbFails: bool)
      returns (r: RegisterReply)
      requires Valid()
      modifies this, settingsDb
      ensures Valid()
      ensures username == "" || email == "" || password == "" ==> r == RegisterRejected(AllFieldsRequired)
      ensures username != "" && email != "" && password != "" && dbFails ==> r == RegisterFailed
      ensures username != "" && email != "" && password != "" && !dbFails ==>
        r == (if Taken(old(users), username, email) then RegisterRejected(UserExists) else Registered(old(nextId)))
      ensures !r.Registered? ==>
        users == old(users) && nextId == old(nextId) && settingsDb.records == old(settingsDb.records)
      ensures r.Registered? ==>
        r.userId !in old(users) &&
        users == old(users)[r.userId := User(username, email, hash(password))] &&
        settingsDb.records == old(settingsDb.records)[r.userId := SettingsRoute.DefaultRecord(now)]
    {
      if username == "" || email == "" || password == "" {
        return RegisterRejected(AllFieldsRequired);
      }
      if dbFails {
        return RegisterFailed;
      }
      if Taken(users, username, email) {
        return RegisterRejected(UserExists);
      }
      var id := nextId;
      users := users[id := User(username, email, hash(password))];
      nextId := nextId + 1;
      settingsDb.records := settingsDb.records[id := SettingsRoute.DefaultRecord(now)];
      r := Registered(id);
    }

    /** `/login`: both fields are required; an unknown username and a wrong
        password get the same answer; on success the reply carries the
        user's id, username and email and the token signed over them.
        Nothing is changed. */
    method Login(username: string, password: string, dbFails: bool) returns (r: LoginReply)
      requires Valid()
      ensures r == LoginRejected(AllFieldsRequired) <==> username == "" || password == ""
      ensures username != "" && password != "" && dbFails ==> r == LoginFailed
      ensures username != "" && password != "" && !dbFails ==>
        forall id :: id in users && users[id].username == username && passwordMatches(users[id].passwordHash, password) ==>
          r == LoginOk(Claims(id, username, users[id].email), sign(Claims(id, username, users[id].email)))
      ensures username != "" && password != "" && !dbFails ==>
        (r == LoginRejected(InvalidCredentials) <==>
           forall id :: id in users && users[id].username == username ==>
             !passwordMatches(users[id].passwordHash, password))
      ensures r.LoginOk? ==>
        r.user.id in users && users[r.user.id].username == username &&
        passwordMatches(users[r.user.id].passwordHash, password) &&
        r.user == Claims(r.user.id, username, users[r.user.id].email) && r.token == sign(r.user)
    {
      if username == "" || password == "" {
        return LoginRejected(AllFieldsRequired);
      }
      if dbFails {
        return LoginFailed;
      }
      if !exists id :: id in users && users[id].username == username {
        return LoginRejected(InvalidCredentials);
      }
      var id :| id in users && users[id].username == username;
      var user := users[id];
      if !passwordMatches(user.passwordHash, password) {
        return LoginRejected(InvalidCredentials);
      }
      var claims := Claims(id, user.username, user.email);
      r := LoginOk(claims, sign(claims));
    }

    /** `/status`: never fails; logged in exactly when a token was sent, it
        verifies, its user still exists and the lookup did not fail, and
        then the reply carries that user's fields. Nothing is changed. */
    method Status(token: Option<string>, dbFails: bool) returns (r: StatusReply)
      ensures r.LoggedInAs? <==>
        token.Some? && verify(token.value).Some? && verify(token.value).value.id in users && !dbFails
      ensures r.LoggedInAs? ==>
        var id := verify(token.value).value.id;
        r.user == Claims(id, users[id].username, users[id].email)
    {
      if token.None? {
        return NotLoggedIn;
      }
      var verified := verify(token.value);
      if verified.None? {
        return NotLoggedIn;
      }
      if dbFails || verified.value.id !in users {
        return NotLoggedIn;
      }
      var user := users[verified.value.id];
      r := LoggedInAs(Claims(verified.value.id, user.username, user.email));
    }

    /** A login followed by a status check with the token it handed out
        reports the same user, when tokens verify to what was signed; with
        the right password that user is the one registered under the name. */
    method LoginThenStatus(username: string, password: string) returns (login: LoginReply, status: StatusReply)
      requires Valid()
      requires forall c :: verify(sign(c)) == Some(c)
      ensures login.LoginOk? ==> status == LoggedInAs(login.user)
      ensures login.LoginOk? || status == NotLoggedIn
      ensures username != "" && password != "" ==>
        forall id :: id in users && users[id].username == username && passwordMatches(users[id].passwordHash, password) ==>
          status == LoggedInAs(Claims(id, username, users[id].email))
    {
      login := Login(username, password, false);
      if login.LoginOk? {
        status := Status(Some(login.token), false);
      } else {
        status := NotLoggedIn;
      }
    }
  }
}
