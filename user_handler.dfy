/** The decisions of go/user_handler.go: session verification, the session
    a login writes, the user response, the icon reply and registration.
    Database rows, directory listings, the bcrypt comparison, the session
    store and the clock are inputs. */
module UserHandler {
  import opened Outcomes
  import Strconv

  newtype int64 = x: int | -0x8000_0000_0000_0000 <= x < 0x8000_0000_0000_0000

  const MaxInt64: int := 0x7FFF_FFFF_FFFF_FFFF

  const SessionIDKey := "SESSIONID"
  const SessionExpiresKey := "EXPIRES"
  const UserIDKey := "USERID"
  const UsernameKey := "USERNAME"

  /** A session lasts one hour, in Unix seconds. */
  const SessionLifetime := 3600

  const StatusOK := 200
  const StatusCreated := 201
  const StatusBadRequest := 400
  const StatusUnauthorized := 401
  const StatusForbidden := 403
  const StatusNotFound := 404
  const StatusInternalServerError := 500

  /** `echo.NewHTTPError(code, message)`. */
  datatype HTTPError = HTTPError(code: int, message: string)

  /** What a handler sends: a status with a body, or an HTTP error. */
  datatype Reply<T> = Respond(code: int, body: T) | Fail(err: HTTPError)

  /** A value in `sess.Values`, which holds Go `interface{}` values: an
      `int64`, a string, or anything else. */
  datatype SessionValue = Int64Value(i: int64) | StringValue(s: string) | OtherValue

  type SessionValues = map<string, SessionValue>

  predicate HasInt64(m: SessionValues, key: string) {
    key in m && m[key].Int64Value?
  }

  // ---------------------------------------------------------------------
  // verifyUserSession

  /** `verifyUserSession`, with `sess` the result of `session.Get` (None when
      it failed) and `now` the Unix time. The checks run in a fixed order:
      fetch (401), EXPIRES present (403), USERID an int64 (401), then the
      unchecked assertion `sessionExpires.(int64)`, which panics on any other
      value, and expiry (401 only when `now` is past EXPIRES). */
  function VerifyUserSession(sess: Option<SessionValues>, now: int64): (r: Run<Option<HTTPError>>)
    ensures sess.None? ==> r == Done(Some(HTTPError(StatusUnauthorized, "failed to get session")))
    ensures sess.Some? && SessionExpiresKey !in sess.value ==>
      r == Done(Some(HTTPError(StatusForbidden, "failed to get EXPIRES value from session")))
    ensures sess.Some? && SessionExpiresKey in sess.value && !HasInt64(sess.value, UserIDKey) ==>
      r == Done(Some(HTTPError(StatusUnauthorized, "failed to get USERID value from session")))
    ensures r.Panic? <==>
      sess.Some? && SessionExpiresKey in sess.value && HasInt64(sess.value, UserIDKey)
      && !sess.value[SessionExpiresKey].Int64Value?
    ensures r == Done(None) <==>
      sess.Some? && HasInt64(sess.value, SessionExpiresKey) && HasInt64(sess.value, UserIDKey)
      && now <= sess.value[SessionExpiresKey].i
    ensures
      (sess.Some? && HasInt64(sess.value, SessionExpiresKey) && HasInt64(sess.value, UserIDKey)
       && now > sess.value[SessionExpiresKey].i) ==>
      r == Done(Some(HTTPError(StatusUnauthorized, "session has expired")))
  {
    match sess
    case None => Done(Some(HTTPError(StatusUnauthorized, "failed to get session")))
    case Some(m) =>
      if SessionExpiresKey !in m then
        Done(Some(HTTPError(StatusForbidden, "failed to get EXPIRES value from session")))
      else if !HasInt64(m, UserIDKey) then
        Done(Some(HTTPError(StatusUnauthorized, "failed to get USERID value from session")))
      else
        match m[SessionExpiresKey]
        case Int64Value(expires) =>
          if now > expires then Done(Some(HTTPError(StatusUnauthorized, "session has expired")))
          else Done(None)
        case _ => Panic
  }

  // ---------------------------------------------------------------------
  // loginHandler

  datatype UserModel = UserModel(id: int64, name: string, displayName: string, description: string, hashedPassword: string)

  /** The outcome of a query for one row: the row, `sql.ErrNoRows`, or
      another error with its text. */
  datatype Lookup<T> = Found(row: T) | NoRows | QueryError(msg: string)

  /** The outcome of `bcrypt.CompareHashAndPassword`. */
  datatype PasswordCheck = Matches | Mismatched | CompareError(msg: string)

  /** Everything `loginHandler` learns from the outside, in the order it
      asks: the JSON body decoded, the transaction began, the user row, the
      commit, the password comparison, `session.Get`, `sess.Save`, the clock
      and the new uuid. */
  datatype LoginEnv = LoginEnv(
    bodyDecoded: bool, beginErr: Option<string>, user: Lookup<UserModel>, commitErr: Option<string>,
    password: PasswordCheck, sessionOk: bool, saveErr: Option<string>, now: int64, sessionID: string)

  const InvalidCredentials := HTTPError(StatusUnauthorized, "invalid username or password")

  /** The login gets as far as writing the session. */
  predicate LoginReachesSession(env: LoginEnv) {
    && env.bodyDecoded && env.beginErr.None? && env.user.Found? && env.commitErr.None?
    && env.password.Matches? && env.sessionOk
  }

  /** The four writes a successful login makes to the session values; the
      session expires `SessionLifetime` seconds after `now`. */
  function LoginWrites(m: SessionValues, user: UserModel, sessionID: string, now: int64): (w: SessionValues)
    requires now as int + SessionLifetime <= MaxInt64
    ensures w.Keys == m.Keys + {SessionIDKey, UserIDKey, UsernameKey, SessionExpiresKey}
    ensures w[SessionIDKey] == StringValue(sessionID) && w[UserIDKey] == Int64Value(user.id)
    ensures w[UsernameKey] == StringValue(user.name)
    ensures w[SessionExpiresKey] == Int64Value((now as int + SessionLifetime) as int64)
    ensures forall k :: k in m && k !in {SessionIDKey, UserIDKey, UsernameKey, SessionExpiresKey} ==> w[k] == m[k]
  {
    m[SessionIDKey := StringValue(sessionID)]
     [UserIDKey := Int64Value(user.id)]
     [UsernameKey := StringValue(user.name)]
     [SessionExpiresKey := Int64Value((now as int + SessionLifetime) as int64)]
  }

  /** A session a login wrote at time `t` passes `verifyUserSession` at
      exactly the times up to `t + 3600`, whatever the session held before. */
  lemma LoginSessionVerifies(m: SessionValues, user: UserModel, sessionID: string, t: int64, now: int64)
    requires t as int + SessionLifetime <= MaxInt64
    ensures VerifyUserSession(Some(LoginWrites(m, user, sessionID, t)), now) == Done(None)
      <==> now as int <= t as int + SessionLifetime
  {
  }

  /** The session store entry `session.Get` returns for the request. */
  class Session {
    var values: SessionValues

    constructor (values: SessionValues)
      ensures this.values == values
    {
      this.values := values;
    }

    /** `loginHandler`: the steps in order with their errors; an unknown
        user and a wrong password give the same 401. Only a login that gets
        past `session.Get` writes the session, and it does so even when the
        save that follows fails. */
    method Login(env: LoginEnv) returns (r: Reply<()>)
      requires env.now as int + SessionLifetime <= MaxInt64
      modifies this
      ensures values == if LoginReachesSession(env)
        then LoginWrites(old(values), env.user.row, env.sessionID, env.now) else old(values)
      ensures r.Respond? <==> LoginReachesSession(env) && env.saveErr.None?
      ensures r.Respond? ==> r.code == StatusOK
      ensures !env.bodyDecoded ==>
        r == Fail(HTTPError(StatusBadRequest, "failed to decode the request body as json"))
      ensures env.bodyDecoded && env.beginErr.Some? ==>
        r == Fail(HTTPError(StatusInternalServerError, "failed to begin transaction: " + env.beginErr.value))
      ensures env.bodyDecoded && env.beginErr.None? && env.user.NoRows? ==> r == Fail(InvalidCredentials)
      ensures env.bodyDecoded && env.beginErr.None? && env.user.QueryError? ==>
        r == Fail(HTTPError(StatusInternalServerError, "failed to get user: " + env.user.msg))
      ensures env.bodyDecoded && env.beginErr.None? && env.user.Found? && env.commitErr.Some? ==>
        r == Fail(HTTPError(StatusInternalServerError, "failed to commit: " + env.commitErr.value))
      ensures env.bodyDecoded && env.beginErr.None? && env.user.Found? && env.commitErr.None? ==>
        && (env.password.Mismatched? ==> r == Fail(InvalidCredentials))
        && (env.password.CompareError? ==> r == Fail(HTTPError(StatusInternalServerError,
              "failed to compare hash and password: " + env.password.msg)))
        && (env.password.Matches? && !env.sessionOk ==>
              r == Fail(HTTPError(StatusUnauthorized, "failed to get session")))
      ensures LoginReachesSession(env) && env.saveErr.Some? ==>
        r == Fail(HTTPError(StatusInternalServerError, "failed to save session: " + env.saveErr.value))
    {
      if !env.bodyDecoded {
        return Fail(HTTPError(StatusBadRequest, "failed to decode the request body as json"));
      }
      if env.beginErr.Some? {
        return Fail(HTTPError(StatusInternalServerError, "failed to begin transaction: " + env.beginErr.value));
      }
      match env.user {
        case NoRows =>
          return Fail(InvalidCredentials);
        case QueryError(msg) =>
          return Fail(HTTPError(StatusInternalServerError, "failed to get user: " + msg));
        case Found(user) =>
          if env.commitErr.Some? {
            return Fail(HTTPError(StatusInternalServerError, "failed to commit: " + env.commitErr.value));
          }
          match env.password {
            case Mismatched =>
              return Fail(InvalidCredentials);
            case CompareError(msg) =>
              return Fail(HTTPError(StatusInternalServerError, "failed to compare hash and password: " + msg));
            case Matches =>
          }
          if !env.sessionOk {
            return Fail(HTTPError(StatusUnauthorized, "failed to get session"));
          }
          values := LoginWrites(values, user, env.sessionID, env.now);
          if env.saveErr.Some? {
            return Fail(HTTPError(StatusInternalServerError, "failed to save session: " + env.saveErr.value));
          }
          return Respond(StatusOK, ());
      }
    }
  }

  // ---------------------------------------------------------------------
  // fillUserResponse

  datatype ThemeModel = ThemeModel(id: int64, userID: int64, darkMode: bool)

  datatype Theme = Theme(id: int64, darkMode: bool)

  datatype User = User(id: int64, name: string, displayName: string, description: string, theme: Theme, iconHash: string)

  /** The outcome of `os.ReadDir` on a user's icon directory: it does not
      exist, another error, or the entry names sorted by name, as
      `os.ReadDir` returns them. */
  datatype DirListing = DirMissing | DirError(msg: string) | Entries(names: seq<string>)

  /** The text of `sql.ErrNoRows`. */
  const ErrNoRowsText := "sql: no rows in result set"

  const PngSuffix := ".png"

  predicate HasSuffix(s: string, suffix: string) {
    |suffix| <= |s| && s[|s| - |suffix|..] == suffix
  }

  /** `strings.TrimSuffix`: one trailing `suffix` removed, if present. */
  function TrimSuffix(s: string, suffix: string): (r: string)
    ensures HasSuffix(s, suffix) ==> r + suffix == s
    ensures !HasSuffix(s, suffix) ==> r == s
  {
    if HasSuffix(s, suffix) then
      assert s == s[..|s| - |suffix|] + s[|s| - |suffix|..];
      s[..|s| - |suffix|]
    else s
  }

  /** The icon directory holds no icon: it is missing or empty. */
  predicate NoIcon(dir: DirListing) {
    dir.DirMissing? || (dir.Entries? && dir.names == [])
  }

  /** `fillUserResponse`: a failed theme query or a directory error other
      than "does not exist" is returned as the error; otherwise the model's
      fields and the theme are copied, and the icon hash is `fallbackHash`
      when there is no icon, else the first entry's name less one ".png". */
  function FillUserResponse(userModel: UserModel, theme: Lookup<ThemeModel>, dir: DirListing, fallbackHash: string)
    : (r: Result<User, string>)
    ensures r.Ok? <==> theme.Found? && !dir.DirError?
    ensures theme.NoRows? ==> r == Err(ErrNoRowsText)
    ensures theme.QueryError? ==> r == Err(theme.msg)
    ensures theme.Found? && dir.DirError? ==> r == Err(dir.msg)
    ensures r.Ok? ==> var u := r.value;
      && u.id == userModel.id && u.name == userModel.name
      && u.displayName == userModel.displayName && u.description == userModel.description
      && u.theme == Theme(theme.row.id, theme.row.darkMode)
    ensures r.Ok? && NoIcon(dir) ==> r.value.iconHash == fallbackHash
    ensures r.Ok? && !NoIcon(dir) ==> var name := dir.names[0];
      (HasSuffix(name, PngSuffix) ==> r.value.iconHash + PngSuffix == name)
      && (!HasSuffix(name, PngSuffix) ==> r.value.iconHash == name)
  {
    match theme
    case NoRows => Err(ErrNoRowsText)
    case QueryError(msg) => Err(msg)
    case Found(t) =>
      match dir
      case DirError(msg) => Err(msg)
      case DirMissing => Ok(UserOf(userModel, t, fallbackHash))
      case Entries(names) =>
        if |names| == 0 then Ok(UserOf(userModel, t, fallbackHash))
        else Ok(UserOf(userModel, t, TrimSuffix(names[0], PngSuffix)))
  }

  function UserOf(m: UserModel, t: ThemeModel, iconHash: string): User {
    User(m.id, m.name, m.displayName, m.description, Theme(t.id, t.darkMode), iconHash)
  }

  // ---------------------------------------------------------------------
  // getIconHandler

  const FallbackImage := "../img/NoImage.jpg"

  const IconRoot := "public/icons/users/"

  /** A user's icon directory: the icon root followed by the user id in
      decimal. */
  function IconDir(id: int64): (d: string)
    ensures |d| > |IconRoot| && d[..|IconRoot|] == IconRoot
    ensures id >= 0 ==> Strconv.AllDigits(d[|IconRoot|..]) && Strconv.DigitsValue(d[|IconRoot|..]) == id as int
    ensures var digits := if id < 0 then d[|IconRoot| + 1..] else d[|IconRoot|..];
      digits != [] && (digits[0] == '0' ==> digits == "0")
    ensures id < 0 ==>
      d[|IconRoot|] == '-' && Strconv.AllDigits(d[|IconRoot| + 1..])
      && Strconv.DigitsValue(d[|IconRoot| + 1..]) == -(id as int)
  {
    var d := IconRoot + Strconv.FormatInt(id as int);
    assert d[|IconRoot|..] == Strconv.FormatInt(id as int);
    d
  }

  /** The user has an icon and `If-None-Match` names it. */
  predicate Revalidated(env: IconEnv)
    requires env.dir.Entries? && env.dir.names != []
  {
    env.ifNoneMatch != "" && env.ifNoneMatch == TrimSuffix(env.dir.names[0], PngSuffix)
  }

  /** Everything `getIconHandler` learns from the outside: the transaction
      began, the user id looked up by name, the icon directory listing and
      the `If-None-Match` request header ("" when absent). */
  datatype IconEnv = IconEnv(beginErr: Option<string>, user: Lookup<int64>, dir: DirListing, ifNoneMatch: string)

  /** 304 Not Modified, or the file sent back. */
  datatype IconReply = NotModified | SendFile(path: string) | IconFail(err: HTTPError)

  /** `getIconHandler`: without an icon the fallback image is sent; with
      one, a non-empty `If-None-Match` equal to the first entry's name less
      ".png" gives 304, and otherwise that file is sent. */
  function GetIcon(env: IconEnv): (r: IconReply)
    ensures r == NotModified <==>
      env.beginErr.None? && env.user.Found? && env.dir.Entries? && env.dir.names != [] && Revalidated(env)
    ensures r == SendFile(FallbackImage) <==> env.beginErr.None? && env.user.Found? && NoIcon(env.dir)
    ensures r.SendFile? && r != SendFile(FallbackImage) <==>
      env.beginErr.None? && env.user.Found? && env.dir.Entries? && env.dir.names != [] && !Revalidated(env)
    ensures env.beginErr.None? && env.user.Found? && env.dir.Entries? && env.dir.names != [] && !Revalidated(env) ==>
      r == SendFile(IconDir(env.user.row) + "/" + env.dir.names[0])
    ensures env.beginErr.Some? ==>
      r == IconFail(HTTPError(StatusInternalServerError, "failed to begin transaction: " + env.beginErr.value))
    ensures env.beginErr.None? && env.user.NoRows? ==>
      r == IconFail(HTTPError(StatusNotFound, "not found user that has the given username"))
    ensures env.beginErr.None? && env.user.QueryError? ==>
      r == IconFail(HTTPError(StatusInternalServerError, "failed to get user: " + env.user.msg))
    ensures env.beginErr.None? && env.user.Found? && env.dir.DirError? ==>
      r == IconFail(HTTPError(StatusInternalServerError, "failed to get user icon: " + env.dir.msg))
  {
    if env.beginErr.Some? then
      IconFail(HTTPError(StatusInternalServerError, "failed to begin transaction: " + env.beginErr.value))
    else
      match env.user
      case NoRows => IconFail(HTTPError(StatusNotFound, "not found user that has the given username"))
      case QueryError(msg) => IconFail(HTTPError(StatusInternalServerError, "failed to get user: " + msg))
      case Found(id) =>
        match env.dir
        case DirError(msg) => IconFail(HTTPError(StatusInternalServerError, "failed to get user icon: " + msg))
        case DirMissing => SendFile(FallbackImage)
        case Entries(names) =>
          if |names| == 0 then SendFile(FallbackImage)
          else if Revalidated(env) then NotModified
          else
            var path := IconDir(id) + "/" + names[0];
            assert path[0] == 'p' && FallbackImage[0] == '.';
            SendFile(path)
  }

  /** The icon hash `fillUserResponse` reports revalidates against
      `getIconHandler` over the same listing exactly when there is an icon
      and the hash is not empty: the fallback hash never earns a 304, so the
      fallback image is sent in full every time. */
  lemma IconHashRevalidates(
    userModel: UserModel, theme: ThemeModel, dir: DirListing, fallbackHash: string, id: int64)
    requires !dir.DirError?
    ensures var hash := FillUserResponse(userModel, Found(theme), dir, fallbackHash).value.iconHash;
      GetIcon(IconEnv(None, Found(id), dir, hash)) == NotModified <==> !NoIcon(dir) && hash != ""
  {
  }

  // ---------------------------------------------------------------------
  // registerHandler

  datatype PostUserRequest = PostUserRequest(
    name: string, displayName: string, description: string, password: string, darkMode: bool)

  /** The outside work `registerHandler` starts, in order. */
  datatype RegisterStep = HashPassword | BeginTx | InsertUser | InsertTheme | AddDnsRecord | FillUser | CommitTx

  const ReservedName := "pipe"

  /** Everything `registerHandler` learns from the outside, in the order it
      asks: the decoded body, the bcrypt hash, the transaction, the user
      insert with its new id, the theme insert, the `pdnsutil` run (its
      output and error on failure), the new user's theme row and icon
      listing, and the commit. */
  datatype RegisterEnv = RegisterEnv(
    body: Option<PostUserRequest>, hashed: Result<string, string>, beginErr: Option<string>,
    insertUserErr: Option<string>, lastInsertID: Result<int64, string>, insertThemeErr: Option<string>,
    dnsFailure: Option<(string, string)>, theme: Lookup<ThemeModel>, dir: DirListing, fallbackHash: string,
    commitErr: Option<string>)

  /** What `registerHandler` replies, with the outside work it started. */
  datatype RegisterRun = RegisterRun(reply: Reply<User>, work: seq<RegisterStep>)

  function Internal<T>(message: string): Reply<T> {
    Fail(HTTPError(StatusInternalServerError, message))
  }

  // How far a registration gets: each predicate adds one step that succeeded.
  predicate NameAllowed(env: RegisterEnv) {
    env.body.Some? && env.body.value.name != ReservedName
  }

  predicate Hashed(env: RegisterEnv) {
    NameAllowed(env) && env.hashed.Ok?
  }

  predicate UserInserted(env: RegisterEnv) {
    Hashed(env) && env.beginErr.None? && env.insertUserErr.None? && env.lastInsertID.Ok?
  }

  predicate DnsRecordAdded(env: RegisterEnv) {
    UserInserted(env) && env.insertThemeErr.None? && env.dnsFailure.None?
  }

  /** The user row a registration inserted, with its new id. */
  function RegisteredModel(env: RegisterEnv): UserModel
    requires UserInserted(env)
  {
    var req := env.body.value;
    UserModel(env.lastInsertID.value, req.name, req.displayName, req.description, env.hashed.value)
  }

  function RegisteredUser(env: RegisterEnv): Result<User, string>
    requires UserInserted(env)
  {
    FillUserResponse(RegisteredModel(env), env.theme, env.dir, env.fallbackHash)
  }

  /** `registerHandler`: the reserved name "pipe" is refused with 400
      before any hashing or database work; a successful registration
      replies 201 with the user filled in for the new id. */
  function Register(env: RegisterEnv): (r: RegisterRun)
    ensures env.body.Some? && env.body.value.name == ReservedName ==>
      r == RegisterRun(Fail(HTTPError(StatusBadRequest, "the username 'pipe' is reserved")), [])
    ensures r.work != [] ==> env.body.Some? && env.body.value.name != ReservedName && r.work[0] == HashPassword
    ensures env.body.None? ==>
      r == RegisterRun(Fail(HTTPError(StatusBadRequest, "failed to decode the request body as json")), [])
    ensures NameAllowed(env) ==> r.work != [] && r.work[0] == HashPassword
    ensures NameAllowed(env) && env.hashed.Err? ==>
      r.reply == Internal("failed to generate hashed password: " + env.hashed.error)
    ensures Hashed(env) && env.beginErr.Some? ==>
      r.reply == Internal("failed to begin transaction: " + env.beginErr.value)
    ensures Hashed(env) && env.beginErr.None? && env.insertUserErr.Some? ==>
      r.reply == Internal("failed to insert user: " + env.insertUserErr.value)
    ensures Hashed(env) && env.beginErr.None? && env.insertUserErr.None? && env.lastInsertID.Err? ==>
      r.reply == Internal("failed to get last inserted user id: " + env.lastInsertID.error)
    ensures UserInserted(env) && env.insertThemeErr.Some? ==>
      r.reply == Internal("failed to insert user theme: " + env.insertThemeErr.value)
    ensures UserInserted(env) && env.insertThemeErr.None? && env.dnsFailure.Some? ==>
      r.reply == Internal(env.dnsFailure.value.0 + ": " + env.dnsFailure.value.1)
    ensures DnsRecordAdded(env) && RegisteredUser(env).Err? ==>
      r.reply == Internal("failed to fill user: " + RegisteredUser(env).error)
    ensures DnsRecordAdded(env) && RegisteredUser(env).Ok? && env.commitErr.Some? ==>
      r.reply == Internal("failed to commit: " + env.commitErr.value)
    ensures r.reply.Respond? <==> DnsRecordAdded(env) && RegisteredUser(env).Ok? && env.commitErr.None?
    ensures r.reply.Respond? ==>
      && r.reply == Respond(StatusCreated, RegisteredUser(env).value)
      && r.reply.body.id == env.lastInsertID.value && r.reply.body.name == env.body.value.name
      && r.work == [HashPassword, BeginTx, InsertUser, InsertTheme, AddDnsRecord, FillUser, CommitTx]
  {
    match env.body
    case None => RegisterRun(Fail(HTTPError(StatusBadRequest, "failed to decode the request body as json")), [])
    case Some(req) =>
      if req.name == ReservedName then
        RegisterRun(Fail(HTTPError(StatusBadRequest, "the username 'pipe' is reserved")), [])
      else
        match env.hashed
        case Err(e) => RegisterRun(Internal("failed to generate hashed password: " + e), [HashPassword])
        case Ok(hashedPassword) =>
          var started := [HashPassword, BeginTx];
          if env.beginErr.Some? then
            RegisterRun(Internal("failed to begin transaction: " + env.beginErr.value), started)
          else if env.insertUserErr.Some? then
            RegisterRun(Internal("failed to insert user: " + env.insertUserErr.value), started + [InsertUser])
          else
            match env.lastInsertID
            case Err(e) => RegisterRun(Internal("failed to get last inserted user id: " + e), started + [InsertUser])
            case Ok(userID) =>
              var inserted := started + [InsertUser, InsertTheme];
              if env.insertThemeErr.Some? then
                RegisterRun(Internal("failed to insert user theme: " + env.insertThemeErr.value), inserted)
              else if env.dnsFailure.Some? then
                var (out, err) := env.dnsFailure.value;
                RegisterRun(Internal(out + ": " + err), inserted + [AddDnsRecord])
              else
                var userModel := UserModel(userID, req.name, req.displayName, req.description, hashedPassword);
                var filled := inserted + [AddDnsRecord, FillUser];
                match FillUserResponse(userModel, env.theme, env.dir, env.fallbackHash)
                case Err(e) => RegisterRun(Internal("failed to fill user: " + e), filled)
                case Ok(user) =>
                  if env.commitErr.Some? then
                    RegisterRun(Internal("failed to commit: " + env.commitErr.value), filled + [CommitTx])
                  else RegisterRun(Respond(StatusCreated, user), filled + [CommitTx])
  }
}
