/**
 Password registration, login and Yandex login, internal/application/auth/service.go. Each
 operation is a function of the committed tables and the answers of its environment, and a method
 of AuthService that runs the same steps on a database.
 */
module AuthService {
  import opened Wrappers
  import opened Text
  import opened TransactionManager
  import opened AccountStore

  datatype CreateError = AlreadyExists | Sql(error: SqlError)

  datatype AuthError =
    | LoginRequired | EmailRequired | PasswordRequired | FirstNameRequired | LastNameRequired
    | IdentifierRequired | CodeRequired | StateRequired | StateRejected | ExchangeFailed | ProfileIncomplete
    | UserAlreadyExists | InvalidCredentials | QueryFailed | UserNotFound | HashFailed | TokenFailed
    | NotCommitted(tx: TxResult<CreateError>)

  datatype AuthResult = AuthResult(userId: Id, provider: Provider, createdAt: int)

  // ---- Password registration ----

  datatype RegisterInput = RegisterInput(
    login: string, email: string, password: string, firstName: string, lastName: string)

  datatype RegisterEnv = RegisterEnv(
    byLogin: View, byEmail: View, hash: Option<string>, id: Id, now: int, tx: TxEnv,
    account: Statement, credential: Statement, outboxId: Id, outbox: Statement, tokenOk: bool)

  function Blank(s: string): bool { Trim(s) == "" }

  function ValidateRegister(input: RegisterInput): Option<AuthError> {
    if Blank(input.login) then Some(LoginRequired)
    else if Blank(input.email) then Some(EmailRequired)
    else if Blank(input.password) then Some(PasswordRequired)
    else if Blank(input.firstName) then Some(FirstNameRequired)
    else if Blank(input.lastName) then Some(LastNameRequired)
    else None
  }

  function EnsureUnique(login: string, email: string, byLogin: View, byEmail: View): Option<AuthError> {
    match Answer(byLogin.ok, ByLogin(byLogin.db, login))
    case Found(_) => Some(UserAlreadyExists)
    case ReadError => Some(QueryFailed)
    case NotFound =>
      match Answer(byEmail.ok, ByEmail(byEmail.db, email))
      case Found(_) => Some(UserAlreadyExists)
      case ReadError => Some(QueryFailed)
      case NotFound => None
  }

  function NewAccount(input: RegisterInput, env: RegisterEnv): Account {
    Account(env.id, Normalize(input.login), Normalize(input.email), Trim(input.firstName), Trim(input.lastName),
            Password, env.now)
  }

  function MapCreateError(e: SqlError): CreateError {
    if e.UniqueViolation? then AlreadyExists else Sql(e)
  }

  // How a callback ends after a statement that was its last.
  function Last(r: Insert): Callback<Db, CreateError> {
    match r
    case Inserted(db) => Finish(db)
    case Refused(e) => Fail(Sql(e))
    case Exploded => Panic
  }

  function RegisterTx(db: Db, account: Account, hash: string, env: RegisterEnv): Callback<Db, CreateError> {
    match InsertAccount(db, account, env.account)
    case Exploded => Panic
    case Refused(e) => Fail(MapCreateError(e))
    case Inserted(db1) =>
      match InsertCredential(db1, Credential(account.id, hash), env.credential)
      case Inserted(db2) => Last(InsertOutbox(db2, UserCreated(env.outboxId, account), env.outbox))
      case r => Last(r)
  }

  function Issued(account: Account, provider: Provider, tokenOk: bool): Result<AuthResult, AuthError> {
    if tokenOk then Success(AuthResult(account.id, provider, account.createdAt)) else Failure(TokenFailed)
  }

  // What the call answers before it reaches the transaction, if it does not.
  function RegisterChecks(input: RegisterInput, env: RegisterEnv): Option<AuthError> {
    var invalid := ValidateRegister(input);
    var duplicate := EnsureUnique(Normalize(input.login), Normalize(input.email), env.byLogin, env.byEmail);
    if invalid.Some? then invalid
    else if duplicate.Some? then duplicate
    else if env.hash.None? then Some(HashFailed)
    else None
  }

  function RegisterRun(db: Db, input: RegisterInput, env: RegisterEnv): (Db, Result<AuthResult, AuthError>) {
    var refused := RegisterChecks(input, env);
    if refused.Some? then (db, Failure(refused.value))
    else
      var account := NewAccount(input, env);
      var (db', tx) := Executed(env.tx, db, RegisterTx(db, account, env.hash.value, env));
      (db', if tx.Done? then Issued(account, account.provider, env.tokenOk) else Failure(NotCommitted(tx)))
  }

  // ---- Password login ----

  datatype LoginEnv = LoginEnv(account: View, credential: View, tokenOk: bool)

  // findUserByIdentifier: an identifier with an '@' is an email, any other a login.
  function FindUser(db: Db, identifier: string): Option<Account> {
    var trimmed := Trim(identifier);
    if '@' in trimmed then ByEmail(db, Normalize(trimmed)) else ByLogin(db, Normalize(trimmed))
  }

  function Login(identifier: string, password: string, valid: (string, string) -> bool, env: LoginEnv)
    : Result<AuthResult, AuthError>
  {
    if Blank(identifier) then Failure(IdentifierRequired)
    else if Blank(password) then Failure(PasswordRequired)
    else match Answer(env.account.ok, FindUser(env.account.db, identifier))
      case ReadError => Failure(QueryFailed)
      case NotFound => Failure(InvalidCredentials)
      case Found(account) =>
        match Answer(env.credential.ok, CredentialOf(env.credential.db, account.id))
        case ReadError => Failure(QueryFailed)
        case NotFound => Failure(InvalidCredentials)
        case Found(credential) =>
          if valid(password, credential.hash) then Issued(account, account.provider, env.tokenOk)
          else Failure(InvalidCredentials)
  }

  // ---- Yandex login ----

  datatype Profile = Profile(subject: string, login: string, email: string, firstName: string, lastName: string)

  // `profile` is what the exchange of the code returns, if it succeeds.
  datatype YandexEnv = YandexEnv(
    stateOk: bool, profile: Option<Profile>, bySubject: View, byId: View, byEmail: View, id: Id, now: int,
    tx: TxEnv, account: Statement, outboxId: Id, outbox: Statement, identityId: Id, identity: Statement,
    tokenOk: bool)

  function BuildExternalLogin(login: string, subject: string): string {
    if Normalize(login) != "" then Normalize(login) else "yandex-" + Normalize(subject)
  }

  // The account a Yandex profile is linked to: the one with its email, or a new one.
  function YandexAccount(p: Profile, known: Option<Account>, env: YandexEnv): Account {
    if known.Some? then known.value
    else Account(env.id, BuildExternalLogin(p.login, p.subject), Normalize(p.email), Trim(p.firstName),
                 Trim(p.lastName), Yandex, env.now)
  }

  function YandexIdentity(p: Profile, account: Account, env: YandexEnv): Identity {
    Identity(env.identityId, account.id, Yandex, Trim(p.subject))
  }

  // The service takes an account created at this very instant for its own new one.
  function YandexTx(db: Db, account: Account, identity: Identity, env: YandexEnv): Callback<Db, CreateError> {
    if account.createdAt != env.now then Last(InsertIdentity(db, identity, env.identity))
    else match InsertAccount(db, account, env.account)
      case Exploded => Panic
      case Refused(e) => Fail(MapCreateError(e))
      case Inserted(db1) =>
        match InsertOutbox(db1, UserCreated(env.outboxId, account), env.outbox)
        case Inserted(db2) => Last(InsertIdentity(db2, identity, env.identity))
        case r => Last(r)
  }

  function YandexRegister(db: Db, p: Profile, env: YandexEnv): (Db, Result<AuthResult, AuthError>) {
    match Answer(env.byEmail.ok, ByEmail(env.byEmail.db, Normalize(p.email)))
    case ReadError => (db, Failure(QueryFailed))
    case known =>
      var account := YandexAccount(p, if known.Found? then Some(known.row) else None, env);
      var (db', tx) := Executed(env.tx, db, YandexTx(db, account, YandexIdentity(p, account, env), env));
      (db', if tx.Done? then Issued(account, Yandex, env.tokenOk) else Failure(NotCommitted(tx)))
  }

  function YandexExisting(identity: Identity, env: YandexEnv): Result<AuthResult, AuthError> {
    match Answer(env.byId.ok, ById(env.byId.db, identity.userId))
    case ReadError => Failure(QueryFailed)
    case NotFound => Failure(UserNotFound)
    case Found(account) => Issued(account, Yandex, env.tokenOk)
  }

  function YandexChecks(code: string, state: string, env: YandexEnv): Option<AuthError> {
    if Blank(code) then Some(CodeRequired)
    else if Blank(state) then Some(StateRequired)
    else if !env.stateOk then Some(StateRejected)
    else if env.profile.None? then Some(ExchangeFailed)
    else if Blank(env.profile.value.subject) || Blank(env.profile.value.email) then Some(ProfileIncomplete)
    else None
  }

  function YandexRun(db: Db, code: string, state: string, env: YandexEnv): (Db, Result<AuthResult, AuthError>) {
    var refused := YandexChecks(code, state, env);
    if refused.Some? then (db, Failure(refused.value))
    else
      var p := env.profile.value;
      match Answer(env.bySubject.ok, IdentityOf(env.bySubject.db, Yandex, p.subject))
      case ReadError => (db, Failure(QueryFailed))
      case Found(identity) => (db, YandexExisting(identity, env))
      case NotFound => YandexRegister(db, p, env)
  }

  // ---- The service ----

  class AuthService {
    const database: Database<Db>

    constructor (database: Database<Db>)
      ensures this.database == database
    {
      this.database := database;
    }

    // The callback of Register's transaction, statement by statement.
    method CreateWithPassword(session: Session, account: Account, hash: string, env: RegisterEnv)
      returns (c: Callback<Db, CreateError>)
      modifies session
      ensures c == RegisterTx(old(session.db), account, hash, env)
    {
      var r := session.CreateAccount(account, env.account);
      if r.Refused? {
        return Fail(MapCreateError(r.error));
      }
      if r.Exploded? {
        return Panic;
      }
      r := session.CreateCredential(Credential(account.id, hash), env.credential);
      if !r.Inserted? {
        return Last(r);
      }
      r := session.CreateOutbox(UserCreated(env.outboxId, account), env.outbox);
      return Last(r);
    }

    method Register(input: RegisterInput, env: RegisterEnv) returns (r: Result<AuthResult, AuthError>)
      modifies database
      ensures (database.committed, r) == RegisterRun(old(database.committed), input, env)
      ensures database.connections == old(database.connections) && database.active == old(database.active)
    {
      var invalid := ValidateRegister(input);
      if invalid.Some? {
        return Failure(invalid.value);
      }
      var login, email := Normalize(input.login), Normalize(input.email);
      var duplicate := EnsureUnique(login, email, env.byLogin, env.byEmail);
      if duplicate.Some? {
        return Failure(duplicate.value);
      }
      if env.hash.None? {
        return Failure(HashFailed);
      }
      var account := NewAccount(input, env);
      var tx: TxResult<CreateError>;
      var opening: Option<TxResult<CreateError>> := database.Begin(env.tx);
      if opening.Some? {
        tx := opening.value;
      } else {
        var session := new Session(database.committed);
        var c := CreateWithPassword(session, account, env.hash.value, env);
        tx := database.End(env.tx, c);
      }
      if !tx.Done? {
        return Failure(NotCommitted(tx));
      }
      return Issued(account, account.provider, env.tokenOk);
    }

    // The callback of registerYandexUser's transaction.
    method Link(session: Session, account: Account, identity: Identity, env: YandexEnv)
      returns (c: Callback<Db, CreateError>)
      modifies session
      ensures c == YandexTx(old(session.db), account, identity, env)
    {
      var r;
      if account.createdAt == env.now {
        r := session.CreateAccount(account, env.account);
        if r.Refused? {
          return Fail(MapCreateError(r.error));
        }
        if r.Exploded? {
          return Panic;
        }
        r := session.CreateOutbox(UserCreated(env.outboxId, account), env.outbox);
        if !r.Inserted? {
          return Last(r);
        }
      }
      r := session.CreateIdentity(identity, env.identity);
      return Last(r);
    }

    method RegisterYandexUser(p: Profile, env: YandexEnv) returns (r: Result<AuthResult, AuthError>)
      modifies database
      ensures (database.committed, r) == YandexRegister(old(database.committed), p, env)
      ensures database.connections == old(database.connections) && database.active == old(database.active)
    {
      var known := Answer(env.byEmail.ok, ByEmail(env.byEmail.db, Normalize(p.email)));
      if known.ReadError? {
        return Failure(QueryFailed);
      }
      var account := YandexAccount(p, if known.Found? then Some(known.row) else None, env);
      var identity := YandexIdentity(p, account, env);
      var tx: TxResult<CreateError>;
      var opening: Option<TxResult<CreateError>> := database.Begin(env.tx);
      if opening.Some? {
        tx := opening.value;
      } else {
        var session := new Session(database.committed);
        var c := Link(session, account, identity, env);
        tx := database.End(env.tx, c);
      }
      if !tx.Done? {
        return Failure(NotCommitted(tx));
      }
      return Issued(account, Yandex, env.tokenOk);
    }

    method CompleteYandexLogin(code: string, state: string, env: YandexEnv) returns (r: Result<AuthResult, AuthError>)
      modifies database
      ensures (database.committed, r) == YandexRun(old(database.committed), code, state, env)
      ensures database.connections == old(database.connections) && database.active == old(database.active)
    {
      var refused := YandexChecks(code, state, env);
      if refused.Some? {
        return Failure(refused.value);
      }
      var p := env.profile.value;
      var identity := Answer(env.bySubject.ok, IdentityOf(env.bySubject.db, Yandex, p.subject));
      if identity.Found? {
        return YandexExisting(identity.row, env);
      }
      if identity.ReadError? {
        return Failure(QueryFailed);
      }
      r := RegisterYandexUser(p, env);
    }
  }
}
