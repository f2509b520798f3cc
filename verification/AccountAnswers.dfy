/**
 What each door answers and stores, fault by fault and field by field: which password is taken,
 which error a call ends with, and the texts of the rows it adds.
 */
module AccountAnswers {
  import opened Wrappers
  import opened Text
  import opened TransactionManager
  import opened AccountStore
  import opened AccountDoors
  import opened AccountInvariants
  import opened AccountPersistence
  import A = AuthService
  import V = VkUsers

  // ---- Password login ----

  // The identifier names the account: by its email if it has an @, by its login otherwise.
  predicate Names(db: Db, identifier: string, a: Account) {
    a in db.accounts && Normalize(identifier) == if '@' in identifier then a.email else a.login
  }

  lemma FindsNamed(db: Db, identifier: string)
    ensures var found := A.FindUser(db, identifier);
            && (found.Some? ==> Names(db, identifier, found.value))
            && (found.None? ==> forall a <- db.accounts :: !Names(db, identifier, a))
  {
    NormalizeTrimmed(identifier);
    hide Normalize, Trim;
  }

  // Nobody is logged in without an account the identifier names and a password that is valid for
  // that account's credential.
  lemma LoginNeedsPassword(identifier: string, password: string, valid: (string, string) -> bool, env: A.LoginEnv)
    requires A.Login(identifier, password, valid, env).Success?
    ensures var r := A.Login(identifier, password, valid, env);
            exists a, c ::
              && Names(env.account.db, identifier, a) && c in env.credential.db.credentials && c.userId == a.id
              && valid(password, c.hash) && r.value == A.AuthResult(a.id, a.provider, a.createdAt)
  {
    FindsNamed(env.account.db, identifier);
    hide A.FindUser, Names, Trim;
    var a := A.FindUser(env.account.db, identifier).value;
    var c := CredentialOf(env.credential.db, a.id).value;
    assert Names(env.account.db, identifier, a) && c in env.credential.db.credentials && c.userId == a.id && valid(password, c.hash);
  }

  // The answer in every case, the first trouble deciding.
  lemma LoginAnswers(identifier: string, password: string, valid: (string, string) -> bool, env: A.LoginEnv)
    requires AccountsUnique(env.account.db) && CredentialsOk(env.credential.db)
    ensures var r := A.Login(identifier, password, valid, env);
            && (Trim(identifier) == "" ==> r == Failure(A.IdentifierRequired))
            && (Trim(identifier) != "" && Trim(password) == "" ==> r == Failure(A.PasswordRequired))
            && (Trim(identifier) != "" && Trim(password) != "" ==>
                && (!env.account.ok ==> r == Failure(A.QueryFailed))
                && (env.account.ok && (forall a <- env.account.db.accounts :: !Names(env.account.db, identifier, a)) ==>
                    r == Failure(A.InvalidCredentials))
                && (forall a <- env.account.db.accounts :: env.account.ok && Names(env.account.db, identifier, a) ==>
                    && (!env.credential.ok ==> r == Failure(A.QueryFailed))
                    && (env.credential.ok && (forall c <- env.credential.db.credentials :: c.userId != a.id) ==>
                        r == Failure(A.InvalidCredentials))
                    && (forall c <- env.credential.db.credentials :: env.credential.ok && c.userId == a.id ==>
                        r == if !valid(password, c.hash) then Failure(A.InvalidCredentials)
                             else if !env.tokenOk then Failure(A.TokenFailed)
                             else Success(A.AuthResult(a.id, a.provider, a.createdAt)))))
  {
    FindsNamed(env.account.db, identifier);
    var r := A.Login(identifier, password, valid, env);
    if Trim(identifier) != "" && Trim(password) != "" {
      forall a | a in env.account.db.accounts && Names(env.account.db, identifier, a)
        ensures A.FindUser(env.account.db, identifier) == Some(a)
      {
        FindsIff(env.account.db, a, identifier);
      }
      forall c | c in env.credential.db.credentials ensures CredentialOf(env.credential.db, c.userId) == Some(c) {
        CredentialIsFound(env.credential.db, c);
      }
      hide A.FindUser, Names, Trim, Normalize, AccountsUnique, CredentialsOk, First;
    }
  }

  // In every later state a registered user, typing the email (with an @) or the login (without
  // one) in any case and with any blanks around it, is let in with a valid password and with no
  // other.
  lemma RegisteredLogin(
    db: Db, input: A.RegisterInput, env: A.RegisterEnv, before: seq<Op>, after: seq<Op>,
    l: string, typed: string, r: string, password: string, valid: (string, string) -> bool)
    requires Consistent(db) && env.hash.Some? && A.RegisterRun(db, input, env).1.Success?
    requires Blanks(l) && Blanks(r) && Trim(password) != ""
    requires ('@' in input.email && SameLetters(typed, Trim(input.email))) || ('@' !in input.login && SameLetters(typed, Trim(input.login)))
    ensures var start := A.RegisterRun(db, input, env).0;
            var views := A.LoginEnv(View(true, RunOps(start, before)), View(true, RunOps(start, after)), true);
            A.Login(l + typed + r, password, valid, views) ==
            if valid(password, env.hash.value) then Success(A.AuthResult(env.id, Password, env.now))
            else Failure(A.InvalidCredentials)
  {
    RegisterLeaves(db, input, env);
    RegisteredIsNamed(input, env, l, typed, r);
    hide RunOps, A.RegisterRun, A.ValidateRegister, Consistent, A.Login, Normalize, Trim, AccountsUnique, CredentialsOk, SameLetters, Blanks;
    var start := A.RegisterRun(db, input, env).0;
    var a, c := A.NewAccount(input, env), Credential(env.id, env.hash.value);
    RowsPersist(start, before, after, a, c);
    ConsistentParts(RunOps(start, before));
    ConsistentParts(RunOps(start, after));
    var views := A.LoginEnv(View(true, RunOps(start, before)), View(true, RunOps(start, after)), true);
    LoginAnswers(l + typed + r, password, valid, views);
    assert Names(views.account.db, l + typed + r, a);
  }

  lemma RegisteredIsNamed(input: A.RegisterInput, env: A.RegisterEnv, l: string, typed: string, r: string)
    requires Blanks(l) && Blanks(r) && A.ValidateRegister(input).None?
    requires ('@' in input.email && SameLetters(typed, Trim(input.email))) || ('@' !in input.login && SameLetters(typed, Trim(input.login)))
    ensures var a, identifier := A.NewAccount(input, env), l + typed + r;
            Trim(identifier) != "" && Normalize(identifier) == if '@' in identifier then a.email else a.login
  {
    var identifier := l + typed + r;
    var s := if '@' in input.email && SameLetters(typed, Trim(input.email)) then input.email else input.login;
    assert Trim(s) != "";
    SpellingsNormalizeAlike(l, typed, r, s);
    NormalizeTrimmed(identifier);
    NormalizeTrimmed(s);
    hide Normalize, Trim;
  }

  // ---- Registration ----

  predicate LoginTaken(db: Db, login: string) { exists a <- db.accounts :: a.login == login }

  predicate EmailTaken(db: Db, email: string) { exists a <- db.accounts :: a.email == email }

  lemma TakenIff(db: Db, login: string, email: string)
    ensures LoginTaken(db, login) <==> ByLogin(db, login).Some?
    ensures EmailTaken(db, email) <==> ByEmail(db, email).Some?
  {
  }

  // Everything a call needs before it opens a transaction, and the error of the first thing missing.
  lemma RegisterChecksIff(db: Db, input: A.RegisterInput, env: A.RegisterEnv)
    ensures var checks := A.RegisterChecks(input, env);
            checks.Some? ==> A.RegisterRun(db, input, env) == (db, Failure(checks.value))
    ensures var login, email, checks := Normalize(input.login), Normalize(input.email), A.RegisterChecks(input, env);
            if Trim(input.login) == "" then checks == Some(A.LoginRequired)
            else if Trim(input.email) == "" then checks == Some(A.EmailRequired)
            else if Trim(input.password) == "" then checks == Some(A.PasswordRequired)
            else if Trim(input.firstName) == "" then checks == Some(A.FirstNameRequired)
            else if Trim(input.lastName) == "" then checks == Some(A.LastNameRequired)
            else if !env.byLogin.ok then checks == Some(A.QueryFailed)
            else if LoginTaken(env.byLogin.db, login) then checks == Some(A.UserAlreadyExists)
            else if !env.byEmail.ok then checks == Some(A.QueryFailed)
            else if EmailTaken(env.byEmail.db, email) then checks == Some(A.UserAlreadyExists)
            else if env.hash.None? then checks == Some(A.HashFailed)
            else checks.None?
  {
    TakenIff(env.byLogin.db, Normalize(input.login), "");
    TakenIff(env.byEmail.db, "", Normalize(input.email));
    hide Normalize, Trim, ByLogin, ByEmail, LoginTaken, EmailTaken, A.RegisterTx, Executed;
  }

  // The first of a transaction's statements that does not run.
  function FirstStop(statements: seq<Statement>): Statement {
    if statements == [] then Runs else if statements[0] != Runs then statements[0] else FirstStop(statements[1..])
  }

  lemma ThreeStops(a: Statement, b: Statement, c: Statement)
    ensures FirstStop([a, b, c]) == if a != Runs then a else if b != Runs then b else c
  {
    assert [a, b, c][1..] == [b, c] && [b, c][1..] == [c] && [c][1..] == [];
    assert FirstStop([c]) == c;
    assert FirstStop([b, c]) == if b != Runs then b else c;
  }

  // How the transaction of a registration ends when login and email are free: by its first
  // statement that fails or panics, or with all three rows.
  lemma RegisterTxAnswers(db: Db, a: Account, hash: string, env: A.RegisterEnv)
    requires Constraints(db) && FreshIds(db, a.id, env.outboxId) && ByLogin(db, a.login).None? && ByEmail(db, a.email).None?
    ensures A.RegisterTx(db, a, hash, env) ==
            match FirstStop([env.account, env.credential, env.outbox])
            case Errors => Fail(A.Sql(StatementError))
            case Panics => Panic
            case Runs =>
              Finish(Db(db.accounts + [a], db.credentials + [Credential(a.id, hash)], db.identities + [],
                        db.outbox + [UserCreated(env.outboxId, a)]))
  {
    ThreeStops(env.account, env.credential, env.outbox);
    NewIdHasNoCredential(db, a.id);
    var c, o := Credential(a.id, hash), UserCreated(env.outboxId, a);
    FreshInserts(db, a, Runs, o);
    var db1 := db.(accounts := db.accounts + [a]);
    var db2 := db1.(credentials := db1.credentials + [c]);
    var db3 := db2.(outbox := db2.outbox + [o]);
    assert CredentialOf(db1, a.id) == CredentialOf(db, a.id);
    SameOutbox(db, db2, o, Runs);
    hide First, ByLogin, ByEmail, ById, CredentialOf, FirstStop, Constraints, FreshIds;
    assert InsertAccount(db, a, Runs) == Inserted(db1);
    assert InsertCredential(db1, c, Runs) == Inserted(db2);
    assert InsertOutbox(db2, o, Runs) == Inserted(db3);
    assert db3 == Db(db.accounts + [a], db.credentials + [c], db.identities + [], db.outbox + [o]) by {
      assert db.identities + [] == db.identities;
    }
  }

  // The answer of a registration that passed its checks, with free keys: each fault of the
  // transaction has its own, nothing is stored unless all three rows are, and a failure of the
  // token issuer comes too late to undo them.
  lemma RegisterAnswers(db: Db, input: A.RegisterInput, env: A.RegisterEnv)
    requires Constraints(db) && A.RegisterChecks(input, env).None? && FreshIds(db, env.id, env.outboxId)
    requires ByLogin(db, Normalize(input.login)).None? && ByEmail(db, Normalize(input.email)).None?
    ensures var (later, r) := A.RegisterRun(db, input, env);
            var stop := FirstStop([env.account, env.credential, env.outbox]);
            var begun := env.tx.hasPool && env.tx.acquireOk && env.tx.beginOk;
            && (!begun ==>
                  && later == db
                  && r == Failure(A.NotCommitted(if !env.tx.hasPool then NoPool
                                                 else if !env.tx.acquireOk then AcquireFailed else BeginFailed)))
            && (begun && stop == Errors ==>
                  later == db && r == Failure(A.NotCommitted(Failed(A.Sql(StatementError), !env.tx.rollbackOk))))
            && (begun && stop == Panics ==> later == db && r == Failure(A.NotCommitted(Panicked)))
            && (begun && stop == Runs ==>
                  && (later != db <==> env.tx.commit != CommitError(false))
                  && r == if env.tx.commit != CommitOk then Failure(A.NotCommitted(CommitFailed))
                          else if !env.tokenOk then Failure(A.TokenFailed)
                          else Success(A.AuthResult(env.id, Password, env.now)))
  {
    var a := A.NewAccount(input, env);
    RegisterTxAnswers(db, a, env.hash.value, env);
    OutcomeIff(env.tx, db, A.RegisterTx(db, a, env.hash.value, env));
    hide A.RegisterTx, A.RegisterChecks, Normalize, Trim, ByLogin, ByEmail, Constraints, FreshIds, FirstStop, Opening;
    assert |db.accounts + [a]| > |db.accounts|;
  }

  // ---- Yandex login ----

  lemma YandexChecksIff(db: Db, code: string, state: string, env: A.YandexEnv)
    ensures var checks := A.YandexChecks(code, state, env);
            checks.Some? ==> A.YandexRun(db, code, state, env) == (db, Failure(checks.value))
    ensures var checks := A.YandexChecks(code, state, env);
            if Trim(code) == "" then checks == Some(A.CodeRequired)
            else if Trim(state) == "" then checks == Some(A.StateRequired)
            else if !env.stateOk then checks == Some(A.StateRejected)
            else if env.profile.None? then checks == Some(A.ExchangeFailed)
            else if Trim(env.profile.value.subject) == "" || Trim(env.profile.value.email) == "" then checks == Some(A.ProfileIncomplete)
            else checks.None?
  {
    hide Trim, IdentityOf, A.YandexRegister;
  }

  // The subject as it comes is linked in the tables the lookup sees.
  predicate Linked(db: Db, provider: Provider, subject: string) {
    exists i <- db.identities :: i.provider == provider && i.subject == subject
  }

  // A call that does not reach registration changes nothing and answers for the linked account.
  lemma YandexKnownAnswers(db: Db, code: string, state: string, env: A.YandexEnv)
    requires env.profile.Some? && A.YandexChecks(code, state, env).None?
    requires IdentitiesOk(env.bySubject.db) && AccountsUnique(env.byId.db)
    requires !env.bySubject.ok || Linked(env.bySubject.db, Yandex, env.profile.value.subject)
    ensures var (later, r) := A.YandexRun(db, code, state, env);
            && later == db
            && (!env.bySubject.ok ==> r == Failure(A.QueryFailed))
            && (forall i <- env.bySubject.db.identities ::
                  env.bySubject.ok && i.provider == Yandex && i.subject == env.profile.value.subject ==>
                    && (!env.byId.ok ==> r == Failure(A.QueryFailed))
                    && (env.byId.ok && (forall a <- env.byId.db.accounts :: a.id != i.userId) ==> r == Failure(A.UserNotFound))
                    && (forall a <- env.byId.db.accounts :: env.byId.ok && a.id == i.userId ==>
                          r == if env.tokenOk then Success(A.AuthResult(a.id, Yandex, a.createdAt)) else Failure(A.TokenFailed)))
  {
    hide A.YandexChecks, Trim, Normalize, A.YandexRegister;
    forall i | i in env.bySubject.db.identities && i.provider == Yandex && i.subject == env.profile.value.subject
      ensures IdentityOf(env.bySubject.db, Yandex, env.profile.value.subject) == Some(i)
    {
      IdentityIsFound(env.bySubject.db, i);
    }
    forall a | a in env.byId.db.accounts ensures ById(env.byId.db, a.id) == Some(a) {
      AccountIsFound(env.byId.db, a);
    }
    hide IdentitiesOk, AccountsUnique;
  }

  // What a Yandex login that adds rows has stored: a link of the trimmed subject, to the account
  // with the profile's email if there is one, else to a new account with these texts.
  lemma YandexStores(db: Db, code: string, state: string, env: A.YandexEnv)
    requires Extends(db, env.byEmail.db) && A.YandexRun(db, code, state, env).0 != db
    ensures env.profile.Some?
    ensures var later, p := A.YandexRun(db, code, state, env).0, env.profile.value;
            var login := if Trim(p.login) != "" then Lower(Trim(p.login)) else "yandex-" + Lower(Trim(p.subject));
            var a := Account(env.id, login, Lower(Trim(p.email)), Trim(p.firstName), Trim(p.lastName), Yandex, env.now);
            if EmailTaken(env.byEmail.db, Lower(Trim(p.email))) then
              exists known <- env.byEmail.db.accounts ::
                && known.email == Lower(Trim(p.email)) && known.createdAt != env.now
                && Adds(later, db, [], [], [Identity(env.identityId, known.id, Yandex, Trim(p.subject))], [])
            else
              Adds(later, db, [a], [], [Identity(env.identityId, env.id, Yandex, Trim(p.subject))],
                   [OutboxRow(env.outboxId, "users.created", env.id, Yandex)])
  {
    YandexEffect(db, code, state, env);
    hide A.YandexRun;
    var p := env.profile.value;
    YandexTargetTexts(db, p, env);
    var a := YandexTarget(p, env);
    hide Trim, Lower, Normalize, A.BuildExternalLogin, A.YandexChecks, ById, ByLogin, IdentityOf, YandexTarget;
    if EmailTaken(env.byEmail.db, Lower(Trim(p.email))) {
      if a.createdAt == env.now {
        RowStays(env.byEmail.db.accounts, db.accounts, a);
        assert false;
      }
      assert a in env.byEmail.db.accounts && a.email == Lower(Trim(p.email));
    }
  }

  lemma YandexTargetTexts(db: Db, p: A.Profile, env: A.YandexEnv)
    ensures var a, login := YandexTarget(p, env), if Trim(p.login) != "" then Lower(Trim(p.login)) else "yandex-" + Lower(Trim(p.subject));
            if EmailTaken(env.byEmail.db, Lower(Trim(p.email))) then a in env.byEmail.db.accounts && a.email == Lower(Trim(p.email))
            else a == Account(env.id, login, Lower(Trim(p.email)), Trim(p.firstName), Trim(p.lastName), Yandex, env.now)
  {
    TakenIff(env.byEmail.db, "", Lower(Trim(p.email)));
    LowerBlank(p.login);
    hide Trim, Lower, EmailTaken;
  }

  lemma LowerBlank(s: string)
    ensures Normalize(s) == Lower(Trim(s)) && (Lower(Trim(s)) == "" <==> Trim(s) == "")
  {
    hide Trim;
  }

  // The transaction of a new link, with free keys: by its first statement that fails or panics.
  lemma YandexTxAnswers(db: Db, a: Account, i: Identity, env: A.YandexEnv)
    requires Constraints(db) && FreshIds(db, env.id, env.outboxId) && FreshIdentityId(db, i.id)
    requires i.userId == a.id && IdentityOf(db, i.provider, i.subject).None?
    requires if a.createdAt == env.now then a.id == env.id && ByLogin(db, a.login).None? && ByEmail(db, a.email).None? else a in db.accounts
    ensures var isNew := a.createdAt == env.now;
            A.YandexTx(db, a, i, env) ==
            match FirstStop(if isNew then [env.account, env.outbox, env.identity] else [env.identity])
            case Errors => Fail(A.Sql(StatementError))
            case Panics => Panic
            case Runs =>
              Finish(Db(db.accounts + (if isNew then [a] else []), db.credentials, db.identities + [i],
                        db.outbox + (if isNew then [UserCreated(env.outboxId, a)] else [])))
  {
    var o := UserCreated(env.outboxId, a);
    if a.createdAt == env.now {
      ThreeStops(env.account, env.outbox, env.identity);
      FreshInserts(db, a, Runs, o);
      NewAccountLinks(db, a, i, o, Runs);
      hide First, ByLogin, ByEmail, ById, IdentityOf, FirstStop, Constraints, FreshIds, FreshIdentityId;
    } else {
      AccountIsFound(db, a);
      FreshLink(db, i, Runs);
      hide First, ByLogin, ByEmail, ById, IdentityOf, Constraints, FreshIds, FreshIdentityId;
      assert [env.identity][1..] == [];
      assert db.accounts + [] == db.accounts && db.outbox + [] == db.outbox;
    }
  }

  // The answer for a profile that is not linked: the email lookup, then the transaction, then the
  // tokens, each with its own fault, and always for the account that is linked.
  lemma YandexNewAnswers(db: Db, code: string, state: string, env: A.YandexEnv)
    requires env.profile.Some? && A.YandexChecks(code, state, env).None?
    requires env.bySubject.ok && !Linked(env.bySubject.db, Yandex, env.profile.value.subject)
    ensures var (later, r) := A.YandexRun(db, code, state, env);
            var p := env.profile.value;
            var a := YandexTarget(p, env);
            var c := A.YandexTx(db, a, Identity(env.identityId, a.id, Yandex, Trim(p.subject)), env);
            var tx := Executed(env.tx, db, c);
            && (!env.byEmail.ok ==> later == db && r == Failure(A.QueryFailed))
            && (env.byEmail.ok ==>
                && later == tx.0
                && r == if tx.1 != Done then Failure(A.NotCommitted(tx.1))
                        else if !env.tokenOk then Failure(A.TokenFailed)
                        else Success(A.AuthResult(a.id, Yandex, a.createdAt)))
  {
    LinkedIff(env.bySubject.db, Yandex, env.profile.value.subject);
    hide A.YandexTx, A.YandexChecks, Trim, Normalize, ByEmail, IdentityOf, Linked, Executed;
  }

  // ---- VK events ----

  // What an accepted event has stored when it adds rows: a link of the trimmed id, to the account
  // with the event's email if it has one that is known, else to a new account. That one gets the
  // event's login, or a login made of the id if the event has none or its login is taken, the
  // event's email or a placeholder, and "VK" and "User" for missing names.
  lemma AcceptStores(db: Db, event: Option<V.VkEvent>, env: V.AcceptEnv)
    requires V.AcceptRun(db, event, env).0 != db
    ensures event.Some?
    ensures var later, e, vkId := V.AcceptRun(db, event, env).0, event.value, Trim(event.value.vkUserId);
            var email, made := Lower(Trim(e.email)), "vk_" + Lower(vkId);
            var wanted := if Trim(e.login) != "" then Lower(Trim(e.login)) else made;
            var a := Account(
              env.id,
              if LoginTaken(env.byLogin.db, wanted) then made else wanted,
              if email != "" then email else "vk-" + Lower(vkId) + "@vk.local",
              if Trim(e.firstName) != "" then Trim(e.firstName) else "VK",
              if Trim(e.lastName) != "" then Trim(e.lastName) else "User",
              Vk, env.now);
            if email != "" && EmailTaken(env.byEmail.db, email) then
              exists known <- env.byEmail.db.accounts ::
                known.email == email && Adds(later, db, [], [], [Identity(env.identityId, known.id, Vk, vkId)], [])
            else
              && Adds(later, db, [a], [], [Identity(env.identityId, env.id, Vk, vkId)],
                      [OutboxRow(env.outboxId, "users.created", env.id, Vk)])
              && (LoginTaken(env.byLogin.db, wanted) ==> wanted != made && !LoginTaken(env.byFallback.db, made))
  {
    AcceptEffect(db, event, env);
    hide V.AcceptRun;
    var e, vkId := event.value, Trim(event.value.vkUserId);
    assert Trim(vkId) == vkId;
    var (a, created) := VkTarget(vkId, e, env);
    VkTargetTexts(vkId, e, env);
    hide Trim, Lower, Normalize, V.ResolveLogin, V.NewAccount, ById, ByLogin, IdentityOf, VkTarget, LoginTaken, EmailTaken;
  }

  lemma VkTargetTexts(vkId: string, e: V.VkEvent, env: V.AcceptEnv)
    requires Trim(vkId) == vkId
    ensures var (a, created) := VkTarget(vkId, e, env);
            var email, made := Lower(Trim(e.email)), "vk_" + Lower(vkId);
            var wanted := if Trim(e.login) != "" then Lower(Trim(e.login)) else made;
            var login := V.ResolveLogin(vkId, e.login, env.byLogin, env.byFallback);
            if email != "" && EmailTaken(env.byEmail.db, email) then !created && a in env.byEmail.db.accounts && a.email == email
            else
              && created
              && (login.Success? ==>
                  && a == Account(
                       env.id, if LoginTaken(env.byLogin.db, wanted) then made else wanted,
                       if email != "" then email else "vk-" + Lower(vkId) + "@vk.local",
                       if Trim(e.firstName) != "" then Trim(e.firstName) else "VK",
                       if Trim(e.lastName) != "" then Trim(e.lastName) else "User", Vk, env.now)
                  && (LoginTaken(env.byLogin.db, wanted) ==> wanted != made && !LoginTaken(env.byFallback.db, made)))
  {
    LowerBlank(e.email);
    LowerBlank(e.login);
    LowerBlank(vkId);
    TakenIff(env.byLogin.db, V.BaseLogin(vkId, e.login), "");
    TakenIff(env.byFallback.db, V.FallbackLogin(vkId), "");
    TakenIff(env.byEmail.db, "", Normalize(e.email));
    hide Trim, Lower, Normalize, LoginTaken, EmailTaken, ByLogin, First;
  }

  // Without a missing event or id the answer is the transaction's.
  lemma AcceptAnswers(db: Db, event: Option<V.VkEvent>, env: V.AcceptEnv)
    ensures var (later, err) := V.AcceptRun(db, event, env);
            && (event.None? ==> later == db && err == Some(V.NilEvent))
            && (event.Some? && Trim(event.value.vkUserId) == "" ==> later == db && err == Some(V.IdRequired))
            && (event.Some? && Trim(event.value.vkUserId) != "" ==>
                  var tx := Executed(env.tx, db, V.AcceptTx(db, Trim(event.value.vkUserId), event.value, env));
                  later == tx.0 && err == if tx.1 == Done then None else Some(V.NotCommitted(tx.1)))
  {
    hide Trim, V.AcceptTx, Executed;
  }

  // The login of a new account, or why there is none.
  lemma LoginAnswer(vkId: string, e: V.VkEvent, env: V.AcceptEnv)
    requires Trim(vkId) == vkId
    ensures var made := "vk_" + Lower(vkId);
            var wanted := if Trim(e.login) != "" then Lower(Trim(e.login)) else made;
            V.ResolveLogin(vkId, e.login, env.byLogin, env.byFallback) ==
            if !env.byLogin.ok then Failure(V.QueryFailed)
            else if !LoginTaken(env.byLogin.db, wanted) then Success(wanted)
            else if wanted == made then Failure(V.LoginTaken(made))
            else if !env.byFallback.ok then Failure(V.QueryFailed)
            else if LoginTaken(env.byFallback.db, made) then Failure(V.FallbackTaken(made))
            else Success(made)
  {
    LowerBlank(e.login);
    LowerBlank(vkId);
    TakenIff(env.byLogin.db, V.BaseLogin(vkId, e.login), "");
    TakenIff(env.byFallback.db, V.FallbackLogin(vkId), "");
    hide Trim, Lower, Normalize, LoginTaken, ByLogin, First;
  }

  lemma KnownLinkAnswers(db: Db, vkId: string, a: Account, env: V.AcceptEnv)
    requires Constraints(db) && FreshIdentityId(db, env.identityId) && a in db.accounts && IdentityOf(db, Vk, vkId).None?
    ensures V.LinkTx(V.Resolved(a, false, db), vkId, env) ==
            match env.identity
            case Errors => Fail(V.Sql(StatementError))
            case Panics => Panic
            case Runs => Finish(db.(identities := db.identities + [Identity(env.identityId, a.id, Vk, vkId)]))
  {
    AccountIsFound(db, a);
    FreshLink(db, Identity(env.identityId, a.id, Vk, vkId), Runs);
    hide First, ById, ByLogin, ByEmail, IdentityOf, Constraints, FreshIdentityId;
  }

  lemma NewLinkAnswers(db: Db, vkId: string, a: Account, env: V.AcceptEnv)
    requires FreshIds(db, env.id, env.outboxId) && FreshIdentityId(db, env.identityId)
    requires a.id == env.id && IdentityOf(db, Vk, vkId).None?
    ensures V.LinkTx(V.CreateAccount(db, a, env.account), vkId, env) ==
            if LoginTaken(db, a.login) || EmailTaken(db, a.email) then
              match env.account
              case Errors => Fail(V.Sql(StatementError))
              case Panics => Panic
              case Runs => Fail(V.Sql(UniqueViolation))
            else
              match FirstStop([env.account, env.identity, env.outbox])
              case Errors => Fail(V.Sql(StatementError))
              case Panics => Panic
              case Runs =>
                Finish(Db(db.accounts + [a], db.credentials, db.identities + [Identity(env.identityId, a.id, Vk, vkId)],
                          db.outbox + [UserCreated(env.outboxId, a)]))
  {
    var i, o := Identity(env.identityId, a.id, Vk, vkId), UserCreated(env.outboxId, a);
    ThreeStops(env.account, env.identity, env.outbox);
    TakenIff(db, a.login, a.email);
    FreshInserts(db, a, Runs, o);
    if ByLogin(db, a.login).None? && ByEmail(db, a.email).None? { NewAccountLinks(db, a, i, o, Runs); }
    hide First, ById, ByLogin, ByEmail, IdentityOf, FreshIds, FreshIdentityId, FirstStop, LoginTaken, EmailTaken;
  }

  // How the callback ends in every case: by its queries in their order, by the logins in use, then
  // by its first statement that fails or panics.
  lemma AcceptTxAnswers(db: Db, vkId: string, e: V.VkEvent, env: V.AcceptEnv)
    requires Constraints(db) && FreshIds(db, env.id, env.outboxId) && FreshIdentityId(db, env.identityId)
    requires Trim(vkId) == vkId && Extends(db, env.byEmail.db) && IdentityOf(db, Vk, vkId).None?
    requires !Linked(env.bySubject.db, Vk, vkId)
    ensures var c := V.AcceptTx(db, vkId, e, env);
            var email, made := Lower(Trim(e.email)), "vk_" + Lower(vkId);
            var wanted := if Trim(e.login) != "" then Lower(Trim(e.login)) else made;
            var (a, created) := VkTarget(vkId, e, env);
            if !env.bySubject.ok || (email != "" && !env.byEmail.ok) then c == Fail(V.QueryFailed)
            else if email != "" && EmailTaken(env.byEmail.db, email) then
              c == match env.identity
                   case Errors => Fail(V.Sql(StatementError))
                   case Panics => Panic
                   case Runs => Finish(db.(identities := db.identities + [Identity(env.identityId, a.id, Vk, vkId)]))
            else if !env.byLogin.ok || (LoginTaken(env.byLogin.db, wanted) && wanted != made && !env.byFallback.ok) then
              c == Fail(V.QueryFailed)
            else if LoginTaken(env.byLogin.db, wanted) && wanted == made then c == Fail(V.LoginTaken(made))
            else if LoginTaken(env.byLogin.db, wanted) && LoginTaken(env.byFallback.db, made) then c == Fail(V.FallbackTaken(made))
            else if LoginTaken(db, a.login) || EmailTaken(db, a.email) then
              c == match env.account
                   case Errors => Fail(V.Sql(StatementError))
                   case Panics => Panic
                   case Runs => Fail(V.Sql(UniqueViolation))
            else
              c == match FirstStop([env.account, env.identity, env.outbox])
                   case Errors => Fail(V.Sql(StatementError))
                   case Panics => Panic
                   case Runs =>
                     Finish(Db(db.accounts + [a], db.credentials, db.identities + [Identity(env.identityId, a.id, Vk, vkId)],
                               db.outbox + [UserCreated(env.outboxId, a)]))
  {
    var (a, created) := VkTarget(vkId, e, env);
    ResolvedAs(db, vkId, e, env);
    LinkedIff(env.bySubject.db, Vk, vkId);
    LowerBlank(e.email);
    LoginAnswer(vkId, e, env);
    hide Trim, Lower, Normalize, ByLogin, ByEmail, ById, IdentityOf, LoginTaken, EmailTaken, Linked, Constraints, FreshIds,
      FreshIdentityId, V.ResolveLogin, V.ResolveAccount, VkTarget, V.LinkTx, V.CreateAccount, V.NewAccount, FirstStop, Extends;
    if created {
      NewLinkAnswers(db, vkId, a, env);
    } else {
      KnownLinkAnswers(db, vkId, a, env);
    }
  }

  // Which account the lookups lead to, the statements apart.
  lemma ResolvedAs(db: Db, vkId: string, e: V.VkEvent, env: V.AcceptEnv)
    requires Trim(vkId) == vkId && Extends(db, env.byEmail.db)
    ensures var email, login := Lower(Trim(e.email)), V.ResolveLogin(vkId, e.login, env.byLogin, env.byFallback);
            var (a, created) := VkTarget(vkId, e, env);
            && (created <==> !(email != "" && EmailTaken(env.byEmail.db, email)))
            && (!created ==> a in db.accounts)
            && (created ==> a.id == env.id)
            && V.ResolveAccount(db, vkId, e, env) ==
               if email != "" && !env.byEmail.ok then V.Unresolved(V.QueryFailed)
               else if !created then V.Resolved(a, false, db)
               else if login.Failure? then V.Unresolved(login.error)
               else V.CreateAccount(db, a, env.account)
  {
    LowerBlank(e.email);
    TakenIff(env.byEmail.db, "", Normalize(e.email));
    var (a, created) := VkTarget(vkId, e, env);
    hide Trim, Lower, Normalize, EmailTaken, First, V.ResolveLogin, V.CreateAccount;
    if !created { RowStays(env.byEmail.db.accounts, db.accounts, a); }
  }

  lemma LinkedIff(db: Db, provider: Provider, subject: string)
    ensures Linked(db, provider, subject) <==> IdentityOf(db, provider, subject).Some?
  {
  }
}
