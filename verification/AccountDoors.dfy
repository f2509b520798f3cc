/**
 What one call of each door does to the tables, whatever fails: it adds exactly the rows of one
 account, or of one more identity, or nothing. And when it succeeds.
 */
module AccountDoors {
  import opened Wrappers
  import opened Text
  import opened TransactionManager
  import opened AccountStore
  import A = AuthService
  import V = VkUsers

  // `later` is `db` with these rows at the end of its tables.
  predicate Adds(later: Db, db: Db, accounts: seq<Account>, credentials: seq<Credential>,
                 identities: seq<Identity>, outbox: seq<OutboxRow>)
  {
    later == Db(db.accounts + accounts, db.credentials + credentials, db.identities + identities, db.outbox + outbox)
  }

  // Three ways a call can change the tables.
  predicate AddsPasswordUser(later: Db, db: Db, a: Account, hash: string, outboxId: Id) {
    && Adds(later, db, [a], [Credential(a.id, hash)], [], [UserCreated(outboxId, a)])
    && Absent(db, a)
    && CredentialOf(db, a.id).None?
  }

  predicate AddsLinkedUser(later: Db, db: Db, a: Account, i: Identity, outboxId: Id) {
    && i.userId == a.id
    && Adds(later, db, [a], [], [i], [UserCreated(outboxId, a)])
    && Absent(db, a)
    && IdentityOf(db, i.provider, i.subject).None?
  }

  predicate AddsLink(later: Db, db: Db, i: Identity) {
    && Adds(later, db, [], [], [i], [])
    && ById(db, i.userId).Some?
    && IdentityOf(db, i.provider, i.subject).None?
  }

  lemma RegisterTxEffect(db: Db, a: Account, hash: string, env: A.RegisterEnv)
    ensures var c := A.RegisterTx(db, a, hash, env);
            c.Finish? ==> AddsPasswordUser(c.state, db, a, hash, env.outboxId)
  {
    hide First;
  }

  // A registration adds all of its user or nothing, and succeeds only for all.
  lemma RegisterEffect(db: Db, input: A.RegisterInput, env: A.RegisterEnv)
    ensures var (later, r) := A.RegisterRun(db, input, env);
            var a := Account(env.id, Normalize(input.login), Normalize(input.email), Trim(input.firstName),
                             Trim(input.lastName), Password, env.now);
            && (later == db || (env.hash.Some? && AddsPasswordUser(later, db, a, env.hash.value, env.outboxId)))
            && (r.Success? ==> later != db && r.value == A.AuthResult(env.id, Password, env.now))
  {
    hide A.RegisterTx, A.ValidateRegister, A.EnsureUnique, Normalize, Trim, Absent, CredentialOf;
    var (later, r) := A.RegisterRun(db, input, env);
    if A.RegisterChecks(input, env).None? {
      var a := A.NewAccount(input, env);
      RegisterTxEffect(db, a, env.hash.value, env);
      assert AddsPasswordUser(later, db, a, env.hash.value, env.outboxId) ==> |later.accounts| == |db.accounts| + 1;
    }
  }

  // The account a Yandex profile is linked to.
  function YandexTarget(p: A.Profile, env: A.YandexEnv): Account {
    A.YandexAccount(p, ByEmail(env.byEmail.db, Normalize(p.email)), env)
  }

  lemma YandexTxEffect(db: Db, a: Account, i: Identity, env: A.YandexEnv)
    requires i.userId == a.id
    ensures var c := A.YandexTx(db, a, i, env);
            c.Finish? ==> if a.createdAt == env.now then AddsLinkedUser(c.state, db, a, i, env.outboxId) else AddsLink(c.state, db, i)
  {
    hide First;
  }

  lemma YandexEffect(db: Db, code: string, state: string, env: A.YandexEnv)
    ensures var (later, r) := A.YandexRun(db, code, state, env);
            later == db ||
            (&& A.YandexChecks(code, state, env).None?
             && var p := env.profile.value;
                var a := YandexTarget(p, env);
                var i := A.YandexIdentity(p, a, env);
                && (env.bySubject.ok ==> IdentityOf(env.bySubject.db, Yandex, p.subject).None?)
                && if a.createdAt == env.now then AddsLinkedUser(later, db, a, i, env.outboxId) else AddsLink(later, db, i))
  {
    hide A.YandexTx, A.YandexAccount, Normalize, Trim, AddsLinkedUser, AddsLink, IdentityOf, ByEmail, ById;
    if A.YandexChecks(code, state, env).None? {
      var p := env.profile.value;
      var a := YandexTarget(p, env);
      YandexTxEffect(db, a, A.YandexIdentity(p, a, env), env);
    }
  }

  // The account a VK event is linked to, and whether it is a new one.
  function VkTarget(vkId: string, e: V.VkEvent, env: V.AcceptEnv): (t: (Account, bool)) {
    var known := ByEmail(env.byEmail.db, Normalize(e.email));
    var login := V.ResolveLogin(vkId, e.login, env.byLogin, env.byFallback);
    if Normalize(e.email) != "" && known.Some? then (known.value, false)
    else (V.NewAccount(vkId, if login.Success? then login.value else "", e, env), true)
  }

  lemma AcceptTxEffect(db: Db, vkId: string, e: V.VkEvent, env: V.AcceptEnv)
    requires IdentityOf(env.bySubject.db, Vk, vkId).None?
    ensures var c := V.AcceptTx(db, vkId, e, env);
            var (a, created) := VkTarget(vkId, e, env);
            var i := Identity(env.identityId, a.id, Vk, vkId);
            c.Finish? ==>
              && (created ==> V.ResolveLogin(vkId, e.login, env.byLogin, env.byFallback).Success?)
              && if created then AddsLinkedUser(c.state, db, a, i, env.outboxId) else AddsLink(c.state, db, i)
  {
    hide First, V.ResolveLogin, V.NewAccount, Normalize;
  }

  lemma AcceptEffect(db: Db, event: Option<V.VkEvent>, env: V.AcceptEnv)
    ensures var (later, err) := V.AcceptRun(db, event, env);
            later == db ||
            (&& event.Some? && Trim(event.value.vkUserId) != ""
             && var vkId := Trim(event.value.vkUserId);
                var (a, created) := VkTarget(vkId, event.value, env);
                var i := Identity(env.identityId, a.id, Vk, vkId);
                && IdentityOf(env.bySubject.db, Vk, vkId).None?
                && (created ==> V.ResolveLogin(vkId, event.value.login, env.byLogin, env.byFallback).Success?)
                && if created then AddsLinkedUser(later, db, a, i, env.outboxId) else AddsLink(later, db, i))
  {
    hide VkTarget, V.ResolveLogin, V.ResolveAccount, V.LinkTx, Normalize, Trim, AddsLinkedUser, AddsLink, IdentityOf;
    if event.Some? {
      var vkId := Trim(event.value.vkUserId);
      if IdentityOf(env.bySubject.db, Vk, vkId).None? {
        AcceptTxEffect(db, vkId, event.value, env);
      }
    }
  }

  // ---- Success, when nothing but the data can make a call fail ----

  const GOOD_TX: TxEnv := TxEnv(true, true, true, true, CommitOk)

  // A read of the current state or of any earlier one.
  predicate Answers(db: Db, view: View) { view.ok && Extends(db, view.db) }

  predicate FreshIds(db: Db, account: Id, outbox: Id) {
    ById(db, account).None? && forall k :: 0 <= k < |db.outbox| ==> db.outbox[k].id != outbox
  }

  lemma AbsentEarlier(db: Db, earlier: Db, login: string, email: string)
    requires Extends(db, earlier)
    ensures ByLogin(db, login).None? ==> ByLogin(earlier, login).None?
    ensures ByEmail(db, email).None? ==> ByEmail(earlier, email).None?
  {
    if ByLogin(earlier, login).Some? {
      RowStays(earlier.accounts, db.accounts, ByLogin(earlier, login).value);
    }
    if ByEmail(earlier, email).Some? {
      RowStays(earlier.accounts, db.accounts, ByEmail(earlier, email).value);
    }
  }

  predicate RegisterHealthy(db: Db, env: A.RegisterEnv) {
    && Answers(db, env.byLogin) && Answers(db, env.byEmail)
    && env.hash.Some? && env.tx == GOOD_TX && env.tokenOk
    && env.account.Runs? && env.credential.Runs? && env.outbox.Runs?
    && FreshIds(db, env.id, env.outboxId)
  }

  predicate SaysDuplicate(e: A.AuthError) {
    e == A.UserAlreadyExists || e == A.NotCommitted(Failed(A.AlreadyExists, false))
  }

  lemma NewIdHasNoCredential(db: Db, id: Id)
    requires CredentialsOk(db) && ById(db, id).None?
    ensures CredentialOf(db, id).None?
  {
    if CredentialOf(db, id).Some? {
      var k :| 0 <= k < |db.credentials| && db.credentials[k] == CredentialOf(db, id).value;
      IsAccountIff(db, id);
    }
  }

  // Inserting an account takes its row and refuses it only for a key in use; a new outbox id is free.
  lemma FreshInserts(db: Db, a: Account, s: Statement, o: OutboxRow)
    requires s.Runs? && FreshIds(db, a.id, o.id)
    ensures var r := InsertAccount(db, a, s);
            && (r.Inserted? <==> ByLogin(db, a.login).None? && ByEmail(db, a.email).None?)
            && (r.Inserted? ==> ById(r.db, a.id).Some? && r.db == db.(accounts := db.accounts + [a]))
            && (!r.Inserted? ==> r == Refused(UniqueViolation))
    ensures InsertOutbox(db, o, s).Inserted?
  {
    var r := InsertAccount(db, a, s);
    if r.Inserted? {
      assert a in r.db.accounts;
    }
  }

  lemma RegisterTxSucceedsIff(db: Db, a: Account, hash: string, env: A.RegisterEnv)
    requires Constraints(db) && FreshIds(db, a.id, env.outboxId)
    requires env.account.Runs? && env.credential.Runs? && env.outbox.Runs?
    ensures var c := A.RegisterTx(db, a, hash, env);
            if ByLogin(db, a.login).None? && ByEmail(db, a.email).None? then c.Finish? else c == Fail(A.AlreadyExists)
  {
    NewIdHasNoCredential(db, a.id);
    FreshInserts(db, a, env.account, UserCreated(env.outboxId, a));
    hide First, ByLogin, ByEmail, ById, Constraints;
    if ByLogin(db, a.login).None? && ByEmail(db, a.email).None? {
      var db1 := db.(accounts := db.accounts + [a]);
      assert CredentialOf(db1, a.id) == CredentialOf(db, a.id);
      var db2 := db1.(credentials := db1.credentials + [Credential(a.id, hash)]);
      assert InsertCredential(db1, Credential(a.id, hash), env.credential) == Inserted(db2);
      assert InsertOutbox(db2, UserCreated(env.outboxId, a), env.outbox).Inserted? by {
        assert InsertOutbox(db, UserCreated(env.outboxId, a), env.outbox).Inserted?;
        SameOutbox(db, db2, UserCreated(env.outboxId, a), env.outbox);
      }
    }
  }

  lemma SameOutbox(db: Db, other: Db, o: OutboxRow, s: Statement)
    requires db.outbox == other.outbox && InsertOutbox(db, o, s).Inserted?
    ensures InsertOutbox(other, o, s).Inserted?
  {
  }

  // However stale the uniqueness reads are, a registration is refused exactly for a blank field or
  // a login or email in use, and the latter is always reported as a duplicate.
  lemma RegisterSucceedsIff(db: Db, input: A.RegisterInput, env: A.RegisterEnv)
    requires Constraints(db) && RegisterHealthy(db, env)
    ensures var (later, r) := A.RegisterRun(db, input, env);
            var valid := A.ValidateRegister(input).None?;
            && (r.Success? <==> valid && ByLogin(db, Normalize(input.login)).None? && ByEmail(db, Normalize(input.email)).None?)
            && (valid && r.Failure? ==> SaysDuplicate(r.error))
  {
    hide ByLogin, ByEmail, A.RegisterTx, Normalize, Trim, A.ValidateRegister, Constraints, FreshIds, Extends;
    var login, email := Normalize(input.login), Normalize(input.email);
    AbsentEarlier(db, env.byLogin.db, login, email);
    AbsentEarlier(db, env.byEmail.db, login, email);
    RegisterTxSucceedsIff(db, A.NewAccount(input, env), env.hash.value, env);
  }

  predicate FreshIdentityId(db: Db, id: Id) {
    forall k :: 0 <= k < |db.identities| ==> db.identities[k].id != id
  }

  lemma FreshLink(db: Db, i: Identity, s: Statement)
    requires s.Runs? && FreshIdentityId(db, i.id) && ById(db, i.userId).Some?
    ensures InsertIdentity(db, i, s) ==
            if IdentityOf(db, i.provider, i.subject).None? then Inserted(db.(identities := db.identities + [i]))
            else Refused(UniqueViolation)
  {
    hide ById, IdentityOf;
  }

  // A transaction of an account, its outbox row and a link, in either order of the last two.
  lemma NewAccountLinks(db: Db, a: Account, i: Identity, o: OutboxRow, s: Statement)
    requires s.Runs? && FreshIds(db, a.id, o.id) && FreshIdentityId(db, i.id) && i.userId == a.id
    requires IdentityOf(db, i.provider, i.subject).None? && ByLogin(db, a.login).None? && ByEmail(db, a.email).None?
    ensures var db1 := db.(accounts := db.accounts + [a]);
            && InsertOutbox(db1, o, s) == Inserted(db1.(outbox := db.outbox + [o]))
            && InsertIdentity(db1, i, s) == Inserted(db1.(identities := db.identities + [i]))
            && InsertIdentity(db1.(outbox := db.outbox + [o]), i, s).Inserted?
            && InsertOutbox(db1.(identities := db.identities + [i]), o, s).Inserted?
  {
    FreshInserts(db, a, s, o);
    var db1 := db.(accounts := db.accounts + [a]);
    var db2, db3 := db1.(outbox := db.outbox + [o]), db1.(identities := db.identities + [i]);
    SameOutbox(db, db1, o, s);
    SameOutbox(db, db3, o, s);
    assert IdentityOf(db1, i.provider, i.subject) == IdentityOf(db, i.provider, i.subject) == IdentityOf(db2, i.provider, i.subject);
    assert ById(db2, a.id) == ById(db1, a.id);
    hide First, ById, IdentityOf, ByLogin, ByEmail;
    FreshLink(db1, i, s);
    FreshLink(db2, i, s);
  }

  predicate YandexHealthy(db: Db, env: A.YandexEnv) {
    && env.bySubject.ok && env.byEmail == View(true, db) && env.tx == GOOD_TX && env.tokenOk
    && env.account.Runs? && env.outbox.Runs? && env.identity.Runs?
    && FreshIds(db, env.id, env.outboxId) && FreshIdentityId(db, env.identityId)
  }

  lemma YandexTxSucceedsIff(db: Db, a: Account, i: Identity, env: A.YandexEnv)
    requires Constraints(db) && YandexHealthy(db, env) && i.id == env.identityId && i.userId == a.id
    requires IdentityOf(db, i.provider, i.subject).None?
    requires a in db.accounts || (a.id == env.id && a.createdAt == env.now && ByEmail(db, a.email).None?)
    ensures A.YandexTx(db, a, i, env).Finish? <==>
            if a in db.accounts then a.createdAt != env.now else ByLogin(db, a.login).None?
  {
    if a in db.accounts {
      AccountIsFound(db, a);
      hide First, ById, IdentityOf, ByLogin, ByEmail, Constraints;
      FreshLink(db, i, env.identity);
    } else {
      var o := UserCreated(env.outboxId, a);
      FreshInserts(db, a, env.account, o);
      hide First, ById, IdentityOf, ByLogin, ByEmail, Constraints;
      if ByLogin(db, a.login).None? {
        NewAccountLinks(db, a, i, o, Runs);
      }
    }
  }

  // A profile that is not linked yet is refused exactly when its email belongs to an account the
  // service takes for its own new one, or, with an unknown email, when its login is in use.
  lemma YandexLinksIff(db: Db, code: string, state: string, env: A.YandexEnv)
    requires Constraints(db) && YandexHealthy(db, env)
    requires env.profile.Some? && A.YandexChecks(code, state, env).None?
    requires IdentityOf(env.bySubject.db, Yandex, env.profile.value.subject).None?
    requires IdentityOf(db, Yandex, Trim(env.profile.value.subject)).None?
    ensures var p := env.profile.value;
            var known := ByEmail(db, Normalize(p.email));
            A.YandexRun(db, code, state, env).1.Success? <==>
            if known.Some? then known.value.createdAt != env.now
            else ByLogin(db, A.BuildExternalLogin(p.login, p.subject)).None?
  {
    hide A.YandexChecks, A.YandexTx, A.BuildExternalLogin, First, Normalize, Trim, Constraints, FreshIds, FreshIdentityId,
      IdentityOf, ByLogin, ByEmail, ById;
    var p := env.profile.value;
    var a := YandexTarget(p, env);
    YandexTargetKnown(db, p, env);
    YandexTxSucceedsIff(db, a, A.YandexIdentity(p, a, env), env);
  }

  lemma YandexTargetKnown(db: Db, p: A.Profile, env: A.YandexEnv)
    requires YandexHealthy(db, env)
    ensures var a, known := YandexTarget(p, env), ByEmail(db, Normalize(p.email));
            if known.Some? then a == known.value && a in db.accounts
            else a !in db.accounts && a.id == env.id && a.createdAt == env.now && a.email == Normalize(p.email)
                 && a.login == A.BuildExternalLogin(p.login, p.subject)
  {
    hide Normalize, Trim;
  }

  predicate AcceptHealthy(db: Db, env: V.AcceptEnv) {
    && env.bySubject == env.byEmail == env.byLogin == env.byFallback == View(true, db)
    && env.tx == GOOD_TX && env.account.Runs? && env.identity.Runs? && env.outbox.Runs?
    && FreshIds(db, env.id, env.outboxId) && FreshIdentityId(db, env.identityId)
  }

  // Which events an Accept that meets no failure takes.
  predicate Acceptable(db: Db, vkId: string, e: V.VkEvent) {
    var base, fallback := V.BaseLogin(vkId, e.login), V.FallbackLogin(vkId);
    || IdentityOf(db, Vk, vkId).Some?
    || (Normalize(e.email) != "" && ByEmail(db, Normalize(e.email)).Some?)
    || (&& (ByLogin(db, base).None? || ByLogin(db, fallback).None?)
        && ByEmail(db, V.EmailOrPlaceholder(Normalize(e.email), vkId)).None?)
  }

  lemma LinkTxSucceeds(db: Db, vkId: string, a: Account, env: V.AcceptEnv)
    requires Constraints(db) && AcceptHealthy(db, env) && IdentityOf(db, Vk, vkId).None?
    ensures a in db.accounts ==> V.LinkTx(V.Resolved(a, false, db), vkId, env).Finish?
    ensures a.id == env.id ==>
              (V.LinkTx(V.CreateAccount(db, a, env.account), vkId, env).Finish? <==>
               ByLogin(db, a.login).None? && ByEmail(db, a.email).None?)
  {
    var i, o := Identity(env.identityId, a.id, Vk, vkId), UserCreated(env.outboxId, a);
    if a in db.accounts {
      AccountIsFound(db, a);
      FreshLink(db, i, env.identity);
    }
    if a.id == env.id {
      FreshInserts(db, a, env.account, o);
      hide First, ById, IdentityOf, ByLogin, ByEmail, Constraints;
      if ByLogin(db, a.login).None? && ByEmail(db, a.email).None? {
        NewAccountLinks(db, a, i, o, Runs);
      }
    }
  }

  lemma AcceptTxSucceedsIff(db: Db, vkId: string, e: V.VkEvent, env: V.AcceptEnv)
    requires Constraints(db) && AcceptHealthy(db, env)
    ensures V.AcceptTx(db, vkId, e, env).Finish? <==> Acceptable(db, vkId, e)
  {
    hide V.LinkTx, V.CreateAccount, First, ById, IdentityOf, ByLogin, Constraints, Normalize, FreshIds;
    if IdentityOf(db, Vk, vkId).None? {
      LinkTxSucceeds(db, vkId, VkTarget(vkId, e, env).0, env);
    }
    assert forall error :: V.LinkTx(V.Unresolved(error), vkId, env) == Fail(error) by { UnresolvedFails(vkId, env); }
  }

  lemma UnresolvedFails(vkId: string, env: V.AcceptEnv)
    ensures forall error :: V.LinkTx(V.Unresolved(error), vkId, env) == Fail(error)
  {
  }

  lemma AcceptSucceedsIff(db: Db, event: Option<V.VkEvent>, env: V.AcceptEnv)
    requires Constraints(db) && AcceptHealthy(db, env)
    ensures V.AcceptRun(db, event, env).1.None? <==>
            && event.Some? && Trim(event.value.vkUserId) != ""
            && Acceptable(db, Trim(event.value.vkUserId), event.value)
  {
    hide V.AcceptTx, Acceptable, Trim, Constraints, FreshIds;
    if event.Some? {
      AcceptTxSucceedsIff(db, Trim(event.value.vkUserId), event.value, env);
    }
  }
}
