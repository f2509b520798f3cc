/** Service.Accept of internal/application/vkusers/service.go. */
module VkUsers {
  import opened Wrappers
  import opened Text
  import opened TransactionManager
  import opened AccountStore

  datatype VkEvent = VkEvent(vkUserId: string, login: string, email: string, firstName: string, lastName: string)

  datatype VkError = QueryFailed | LoginTaken(login: string) | FallbackTaken(login: string) | Sql(error: SqlError)

  datatype AcceptError = NilEvent | IdRequired | NotCommitted(tx: TxResult<VkError>)

  datatype AcceptEnv = AcceptEnv(
    bySubject: View, byEmail: View, byLogin: View, byFallback: View, id: Id, now: int, tx: TxEnv,
    account: Statement, identityId: Id, identity: Statement, outboxId: Id, outbox: Statement)

  function DefaultIfBlank(value: string, fallback: string): string {
    if Trim(value) == "" then fallback else Trim(value)
  }

  function EmailOrPlaceholder(email: string, vkId: string): string {
    if email != "" then email else "vk-" + Normalize(vkId) + "@vk.local"
  }

  function FallbackLogin(vkId: string): string { "vk_" + Normalize(vkId) }

  function BaseLogin(vkId: string, login: string): string {
    if Normalize(login) == "" then FallbackLogin(vkId) else Normalize(login)
  }

  function ResolveLogin(vkId: string, login: string, byLogin: View, byFallback: View): Result<string, VkError> {
    var base, fallback := BaseLogin(vkId, login), FallbackLogin(vkId);
    match Answer(byLogin.ok, ByLogin(byLogin.db, base))
    case NotFound => Success(base)
    case ReadError => Failure(QueryFailed)
    case Found(_) =>
      if fallback == base then Failure(LoginTaken(base))
      else match Answer(byFallback.ok, ByLogin(byFallback.db, fallback))
        case NotFound => Success(fallback)
        case ReadError => Failure(QueryFailed)
        case Found(_) => Failure(FallbackTaken(fallback))
  }

  function NewAccount(vkId: string, login: string, e: VkEvent, env: AcceptEnv): Account {
    Account(env.id, login, EmailOrPlaceholder(Normalize(e.email), vkId), DefaultIfBlank(e.firstName, "VK"),
            DefaultIfBlank(e.lastName, "User"), Vk, env.now)
  }

  // An account to link, and the tables after creating it if it is new.
  datatype Resolved = Resolved(account: Account, created: bool, db: Db) | Unresolved(error: VkError) | Aborted

  function CreateAccount(db: Db, account: Account, s: Statement): Resolved {
    match InsertAccount(db, account, s)
    case Inserted(db1) => Resolved(account, true, db1)
    case Refused(e) => Unresolved(Sql(e))
    case Exploded => Aborted
  }

  function ResolveAccount(db: Db, vkId: string, e: VkEvent, env: AcceptEnv): Resolved {
    var email := Normalize(e.email);
    var known := if email == "" then NotFound else Answer(env.byEmail.ok, ByEmail(env.byEmail.db, email));
    match known
    case Found(account) => Resolved(account, false, db)
    case ReadError => Unresolved(QueryFailed)
    case NotFound =>
      var login := ResolveLogin(vkId, e.login, env.byLogin, env.byFallback);
      if login.Failure? then Unresolved(login.error)
      else CreateAccount(db, NewAccount(vkId, login.value, e, env), env.account)
  }

  function Last(r: Insert): Callback<Db, VkError> {
    match r
    case Inserted(db) => Finish(db)
    case Refused(e) => Fail(Sql(e))
    case Exploded => Panic
  }

  function LinkTx(resolved: Resolved, vkId: string, env: AcceptEnv): Callback<Db, VkError> {
    match resolved
    case Unresolved(e) => Fail(e)
    case Aborted => Panic
    case Resolved(account, created, db1) =>
      match InsertIdentity(db1, Identity(env.identityId, account.id, Vk, vkId), env.identity)
      case Inserted(db2) =>
        if created then Last(InsertOutbox(db2, UserCreated(env.outboxId, account), env.outbox)) else Finish(db2)
      case r => Last(r)
  }

  function AcceptTx(db: Db, vkId: string, e: VkEvent, env: AcceptEnv): Callback<Db, VkError> {
    match Answer(env.bySubject.ok, IdentityOf(env.bySubject.db, Vk, vkId))
    case Found(_) => Finish(db)
    case ReadError => Fail(QueryFailed)
    case NotFound => LinkTx(ResolveAccount(db, vkId, e, env), vkId, env)
  }

  // The tables afterwards and the returned error.
  function AcceptRun(db: Db, event: Option<VkEvent>, env: AcceptEnv): (Db, Option<AcceptError>) {
    if event.None? then (db, Some(NilEvent))
    else
      var vkId := Trim(event.value.vkUserId);
      if vkId == "" then (db, Some(IdRequired))
      else
        var (db', tx) := Executed(env.tx, db, AcceptTx(db, vkId, event.value, env));
        (db', if tx.Done? then None else Some(NotCommitted(tx)))
  }

  class VkUsersService {
    const database: Database<Db>

    constructor (database: Database<Db>)
      ensures this.database == database
    {
      this.database := database;
    }

    method Resolve(session: Session, vkId: string, e: VkEvent, env: AcceptEnv) returns (r: Resolved)
      modifies session
      ensures r == ResolveAccount(old(session.db), vkId, e, env)
      ensures r.Resolved? ==> session.db == r.db
    {
      var email := Normalize(e.email);
      if email != "" {
        var known := Answer(env.byEmail.ok, ByEmail(env.byEmail.db, email));
        if known.Found? {
          return Resolved(known.row, false, session.db);
        }
        if known.ReadError? {
          return Unresolved(QueryFailed);
        }
      }
      var login := ResolveLogin(vkId, e.login, env.byLogin, env.byFallback);
      if login.Failure? {
        return Unresolved(login.error);
      }
      var account := NewAccount(vkId, login.value, e, env);
      var created := session.CreateAccount(account, env.account);
      match created {
        case Inserted(_) => r := Resolved(account, true, session.db);
        case Refused(error) => r := Unresolved(Sql(error));
        case Exploded => r := Aborted;
      }
    }

    // The callback of Accept's transaction.
    method Link(session: Session, vkId: string, e: VkEvent, env: AcceptEnv) returns (c: Callback<Db, VkError>)
      modifies session
      ensures c == AcceptTx(old(session.db), vkId, e, env)
    {
      var linked := Answer(env.bySubject.ok, IdentityOf(env.bySubject.db, Vk, vkId));
      if linked.Found? {
        return Finish(session.db);
      }
      if linked.ReadError? {
        return Fail(QueryFailed);
      }
      var resolved := Resolve(session, vkId, e, env);
      if resolved.Unresolved? {
        return Fail(resolved.error);
      }
      if resolved.Aborted? {
        return Panic;
      }
      var account := resolved.account;
      var r := session.CreateIdentity(Identity(env.identityId, account.id, Vk, vkId), env.identity);
      if r.Inserted? && resolved.created {
        r := session.CreateOutbox(UserCreated(env.outboxId, account), env.outbox);
      }
      return Last(r);
    }

    method Accept(event: Option<VkEvent>, env: AcceptEnv) returns (err: Option<AcceptError>)
      modifies database
      ensures (database.committed, err) == AcceptRun(old(database.committed), event, env)
      ensures database.connections == old(database.connections) && database.active == old(database.active)
    {
      if event.None? {
        return Some(NilEvent);
      }
      var vkId := Trim(event.value.vkUserId);
      if vkId == "" {
        return Some(IdRequired);
      }
      var tx: TxResult<VkError>;
      var opening: Option<TxResult<VkError>> := database.Begin(env.tx);
      if opening.Some? {
        tx := opening.value;
      } else {
        var session := new Session(database.committed);
        var c := Link(session, vkId, event.value, env);
        tx := database.End(env.tx, c);
      }
      return if tx.Done? then None else Some(NotCommitted(tx));
    }
  }
}
