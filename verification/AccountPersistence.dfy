/**
 What a run keeps of the texts it stores and of the calls that succeeded in it: normal forms,
 password and Yandex logins that go on working, and VK events that may be delivered again.
 */
module AccountPersistence {
  import opened Wrappers
  import opened Text
  import opened AccountStore
  import opened AccountDoors
  import opened AccountInvariants
  import A = AuthService
  import V = VkUsers

  // Queries are answered from the committed state or an earlier one.
  predicate Legal(db: Db, op: Op) {
    match op
    case Register(_, env) => Extends(db, env.byLogin.db) && Extends(db, env.byEmail.db)
    case CompleteYandex(_, _, env) =>
      Extends(db, env.bySubject.db) && Extends(db, env.byId.db) && Extends(db, env.byEmail.db)
    case Accept(_, env) =>
      && Extends(db, env.bySubject.db) && Extends(db, env.byEmail.db)
      && Extends(db, env.byLogin.db) && Extends(db, env.byFallback.db)
  }

  predicate LegalRun(db: Db, ops: seq<Op>)
    decreases |ops|
  {
    ops == [] || (Legal(db, ops[0]) && LegalRun(StepOp(db, ops[0]), ops[1..]))
  }

  // ---- Stored texts are in normal form ----

  predicate TidyAccount(a: Account) {
    Normalized(a.login) && a.login != "" && Normalized(a.email) && a.email != ""
  }

  ghost predicate Tidy(db: Db) {
    && (forall k :: 0 <= k < |db.accounts| ==> TidyAccount(db.accounts[k]))
    && (forall k :: 0 <= k < |db.identities| ==> Trimmed(db.identities[k].subject))
  }

  lemma ExternalLoginIsTidy(login: string, subject: string)
    requires Trim(subject) != ""
    ensures var r := A.BuildExternalLogin(login, subject); Normalized(r) && r != ""
  {
    NormalizeTrimmed(subject);
    assert Normalized("yandex-") by { assert Lower("yandex-") == "yandex-"; }
    NormalizedFrame("yandex-", Normalize(subject), "");
    assert "yandex-" + Normalize(subject) + "" == "yandex-" + Normalize(subject);
  }

  lemma VkFramesAreTidy()
    ensures Normalized("vk_") && Normalized("vk-") && Normalized("")
    ensures Normalized("@vk.local")
  {
    assert Lower("vk_") == "vk_" && Lower("vk-") == "vk-" && Lower("@vk.local") == "@vk.local";
  }

  lemma VkTextsAreTidy(vkId: string, login: string, email: string)
    requires Trim(vkId) != ""
    ensures var r := V.BaseLogin(vkId, login); Normalized(r) && r != ""
    ensures var r := V.FallbackLogin(vkId); Normalized(r) && r != ""
    ensures var r := V.EmailOrPlaceholder(Normalize(email), vkId); Normalized(r) && r != ""
  {
    NormalizeTrimmed(vkId);
    VkFramesAreTidy();
    hide Normalize, Normalized;
    NormalizedFrame("vk_", Normalize(vkId), "");
    assert "vk_" + Normalize(vkId) + "" == "vk_" + Normalize(vkId);
    NormalizedFrame("vk-", Normalize(vkId), "@vk.local");
  }

  lemma TidyGrows(later: Db, db: Db, a: Account, i: Identity)
    requires Tidy(db) && later.accounts == db.accounts + [a] && TidyAccount(a)
    requires later.identities == db.identities || (later.identities == db.identities + [i] && Trimmed(i.subject))
    ensures Tidy(later)
  {
    hide TidyAccount, Trimmed;
  }

  lemma RegisterKeepsTidy(db: Db, input: A.RegisterInput, env: A.RegisterEnv)
    requires Tidy(db)
    ensures Tidy(A.RegisterRun(db, input, env).0)
  {
    var later := A.RegisterRun(db, input, env).0;
    RegisterEffect(db, input, env);
    if later != db {
      NormalizeTrimmed(input.login);
      NormalizeTrimmed(input.email);
      var a := A.NewAccount(input, env);
      assert A.ValidateRegister(input).None?;
      hide Normalize, Trim, Normalized, A.RegisterRun, A.RegisterChecks, Absent;
      TidyGrows(later, db, a, Identity(0, 0, Yandex, ""));
    }
  }

  lemma YandexAccountIsTidy(db: Db, p: A.Profile, env: A.YandexEnv)
    requires Extends(db, env.byEmail.db) && Trim(p.subject) != "" && Trim(p.email) != ""
    requires Absent(db, YandexTarget(p, env))
    ensures TidyAccount(YandexTarget(p, env))
  {
    var a := YandexTarget(p, env);
    ExternalLoginIsTidy(p.login, p.subject);
    NormalizeTrimmed(p.email);
    hide Normalize, Normalized, Trim, A.BuildExternalLogin, First;
    if ByEmail(env.byEmail.db, Normalize(p.email)).Some? {
      RowStays(env.byEmail.db.accounts, db.accounts, a);
      assert false;
    }
  }

  lemma YandexKeepsTidy(db: Db, code: string, state: string, env: A.YandexEnv)
    requires Tidy(db) && Legal(db, CompleteYandex(code, state, env))
    ensures Tidy(A.YandexRun(db, code, state, env).0)
  {
    hide A.YandexRun, Normalize, Trim, Trimmed, TidyAccount, YandexTarget, Absent, IdentityOf, ById, Extends;
    YandexEffect(db, code, state, env);
    var later := A.YandexRun(db, code, state, env).0;
    if later != db {
      var p := env.profile.value;
      var a := YandexTarget(p, env);
      if a.createdAt == env.now {
        YandexAccountIsTidy(db, p, env);
        TidyGrows(later, db, a, A.YandexIdentity(p, a, env));
      }
    }
  }

  lemma VkAccountIsTidy(vkId: string, e: V.VkEvent, env: V.AcceptEnv)
    requires Trim(vkId) != "" && V.ResolveLogin(vkId, e.login, env.byLogin, env.byFallback).Success?
    ensures var (a, created) := VkTarget(vkId, e, env);
            created ==> TidyAccount(a)
  {
    hide Normalize, Normalized, Trim, V.BaseLogin, V.FallbackLogin, V.EmailOrPlaceholder, First;
    VkTextsAreTidy(vkId, e.login, e.email);
  }

  lemma AcceptKeepsTidy(db: Db, event: Option<V.VkEvent>, env: V.AcceptEnv)
    requires Tidy(db)
    ensures Tidy(V.AcceptRun(db, event, env).0)
  {
    hide V.AcceptRun, Normalize, TidyAccount, VkTarget, V.ResolveLogin, Absent, IdentityOf, ById;
    AcceptEffect(db, event, env);
    var later := V.AcceptRun(db, event, env).0;
    if later != db {
      var vkId := Trim(event.value.vkUserId);
      var (a, created) := VkTarget(vkId, event.value, env);
      assert Trim(vkId) == vkId && Trimmed(vkId);
      hide Trim, Trimmed;
      if created {
        VkAccountIsTidy(vkId, event.value, env);
        TidyGrows(later, db, a, Identity(env.identityId, a.id, Vk, vkId));
      }
    }
  }

  lemma {:induction false} RunKeepsTidy(db: Db, ops: seq<Op>)
    requires Tidy(db) && LegalRun(db, ops)
    ensures Tidy(RunOps(db, ops))
    decreases |ops|
  {
    if ops != [] {
      var next := StepOp(db, ops[0]);
      match ops[0] {
        case Register(input, env) => RegisterKeepsTidy(db, input, env);
        case CompleteYandex(code, state, env) => YandexKeepsTidy(db, code, state, env);
        case Accept(event, env) => AcceptKeepsTidy(db, event, env);
      }
      hide StepOp, Tidy;
      RunKeepsTidy(next, ops[1..]);
    }
  }

  // In every reachable state logins and emails are fixed points of normalising, subjects trimmed.
  lemma StoredTextsAreNormalized(ops: seq<Op>)
    requires LegalRun(EMPTY, ops)
    ensures var db := RunOps(EMPTY, ops);
            && (forall k :: 0 <= k < |db.accounts| ==>
                  Normalize(db.accounts[k].login) == db.accounts[k].login && Normalize(db.accounts[k].email) == db.accounts[k].email)
            && (forall k :: 0 <= k < |db.identities| ==> Trim(db.identities[k].subject) == db.identities[k].subject)
  {
    RunKeepsTidy(EMPTY, ops);
    hide RunOps;
    var db := RunOps(EMPTY, ops);
    forall k | 0 <= k < |db.accounts|
      ensures Normalize(db.accounts[k].login) == db.accounts[k].login && Normalize(db.accounts[k].email) == db.accounts[k].email
    {
      NormalizedIffFixed(db.accounts[k].login);
      NormalizedIffFixed(db.accounts[k].email);
    }
  }

  // ---- A registered user can log in, in every later state ----

  // Which account an identifier names.
  lemma FindsIff(db: Db, a: Account, identifier: string)
    requires AccountsUnique(db) && a in db.accounts
    ensures A.FindUser(db, identifier) == Some(a) <==>
            Normalize(identifier) == if '@' in identifier then a.email else a.login
  {
    AccountIsFound(db, a);
    NormalizeTrimmed(identifier);
    hide Normalize, Trim, AccountsUnique;
  }

  predicate LogsInAs(r: Result<A.AuthResult, A.AuthError>, id: Id) { r.Success? && r.value.userId == id }

  lemma LoginIff(a: Account, c: Credential, identifier: string, password: string, valid: (string, string) -> bool, env: A.LoginEnv)
    requires env.account.ok && env.credential.ok && env.tokenOk && !A.Blank(identifier) && !A.Blank(password)
    requires AccountsUnique(env.account.db) && a in env.account.db.accounts
    requires CredentialsOk(env.credential.db) && c in env.credential.db.credentials && c.userId == a.id
    requires valid(password, c.hash)
    ensures LogsInAs(A.Login(identifier, password, valid, env), a.id) <==>
            Normalize(identifier) == if '@' in identifier then a.email else a.login
  {
    FindsIff(env.account.db, a, identifier);
    CredentialIsFound(env.credential.db, c);
    AccountIsFound(env.account.db, a);
    hide Normalize, Trim, AccountsUnique, CredentialsOk;
    var found := A.FindUser(env.account.db, identifier);
    if found.Some? && found.value.id == a.id {
      AccountIsFound(env.account.db, found.value) by { FoundIsRow(env.account.db, identifier); }
    }
  }

  lemma FoundIsRow(db: Db, identifier: string)
    requires A.FindUser(db, identifier).Some?
    ensures A.FindUser(db, identifier).value in db.accounts
  {
    hide Normalize, Trim;
  }

  lemma RegisterLeaves(db: Db, input: A.RegisterInput, env: A.RegisterEnv)
    requires Consistent(db) && A.RegisterRun(db, input, env).1.Success?
    ensures env.hash.Some? && A.ValidateRegister(input).None?
    ensures var later := A.RegisterRun(db, input, env).0;
            && Consistent(later)
            && A.NewAccount(input, env) in later.accounts
            && Credential(env.id, env.hash.value) in later.credentials
  {
    StepKeepsConsistent(db, Register(input, env));
    RegisterEffect(db, input, env);
    hide A.RegisterTx, A.ValidateRegister, A.EnsureUnique, Consistent, Normalize, Trim, Absent, CredentialOf;
  }

  // Two states later in the run still hold a row each.
  lemma RowsPersist(start: Db, before: seq<Op>, after: seq<Op>, a: Account, c: Credential)
    requires Consistent(start) && a in start.accounts && c in start.credentials
    ensures var db := RunOps(start, before); Consistent(db) && a in db.accounts
    ensures var db := RunOps(start, after); Consistent(db) && c in db.credentials
  {
    hide RunOps, Consistent;
    RunKeepsConsistent(start, before);
    RunKeepsConsistent(start, after);
    RowStays(start.accounts, RunOps(start, before).accounts, a);
    RowStays(start.credentials, RunOps(start, after).credentials, c);
  }

  // After a successful registration, in every later state and whatever case and blanks the user
  // types, the email logs the user in exactly if it has an '@' or is also the login, and the login
  // exactly if it has no '@' or is also the email.
  lemma LoginPersistsIff(
    db: Db, input: A.RegisterInput, env: A.RegisterEnv, before: seq<Op>, after: seq<Op>,
    identifier: string, valid: (string, string) -> bool)
    requires Consistent(db) && env.hash.Some? && A.RegisterRun(db, input, env).1.Success?
    requires valid(input.password, env.hash.value)
    ensures var start := A.RegisterRun(db, input, env).0;
            var views := A.LoginEnv(View(true, RunOps(start, before)), View(true, RunOps(start, after)), true);
            var r := A.Login(identifier, input.password, valid, views);
            var login, email := Normalize(input.login), Normalize(input.email);
            && (Normalize(identifier) == email ==> (LogsInAs(r, env.id) <==> '@' in input.email || login == email))
            && (Normalize(identifier) == login ==> (LogsInAs(r, env.id) <==> '@' !in input.login || login == email))
  {
    RegisterLeaves(db, input, env);
    hide RunOps, A.RegisterRun, Consistent, A.Login, Normalize, Trim, Constraints, AccountsUnique, CredentialsOk;
    var start := A.RegisterRun(db, input, env).0;
    var a, c := A.NewAccount(input, env), Credential(env.id, env.hash.value);
    RowsPersist(start, before, after, a, c);
    ConsistentParts(RunOps(start, before));
    ConsistentParts(RunOps(start, after));
    NormalizeTrimmed(identifier);
    NormalizeTrimmed(input.email);
    NormalizeTrimmed(input.login);
    if Normalize(identifier) == Normalize(input.email) || Normalize(identifier) == Normalize(input.login) {
      var views := A.LoginEnv(View(true, RunOps(start, before)), View(true, RunOps(start, after)), true);
      LoginIff(a, c, identifier, input.password, valid, views);
    }
  }

  lemma ConsistentParts(db: Db)
    requires Consistent(db)
    ensures AccountsUnique(db) && CredentialsOk(db) && IdentitiesOk(db)
  {
  }

  // ---- VK events may be delivered again ----

  lemma AcceptLinks(db: Db, event: Option<V.VkEvent>, env: V.AcceptEnv)
    requires Legal(db, Accept(event, env)) && V.AcceptRun(db, event, env).1.None?
    ensures event.Some? && IdentityOf(V.AcceptRun(db, event, env).0, Vk, Trim(event.value.vkUserId)).Some?
  {
    var vkId := Trim(event.value.vkUserId);
    var later := V.AcceptRun(db, event, env).0;
    if IdentityOf(env.bySubject.db, Vk, vkId).Some? {
      IdentityStaysFound(env.bySubject.db, db, Vk, vkId);
    } else {
      AcceptTxEffect(db, vkId, event.value, env);
      hide VkTarget, V.ResolveLogin, V.AcceptTx, Trim, IdentityOf, Absent, ById;
      assert later.identities[|db.identities|].provider == Vk && later.identities[|db.identities|].subject == vkId;
      assert later.identities[|db.identities|] in later.identities;
    }
  }

  // An event for an id that is linked changes nothing, whatever its queries see and however the
  // call ends: a lookup too early to see the link meets the key on (provider, subject).
  lemma LinkedEventIsNoop(db: Db, event: Option<V.VkEvent>, env: V.AcceptEnv)
    requires event.Some? && IdentityOf(db, Vk, Trim(event.value.vkUserId)).Some?
    ensures V.AcceptRun(db, event, env).0 == db
  {
    AcceptEffect(db, event, env);
    hide V.AcceptRun, VkTarget, V.ResolveLogin, Trim, Absent, ById, IdentityOf, Adds;
  }

  // Once an event was accepted, a further one with its id, arriving anywhere later and with any
  // answers, even of lookups from before the first was accepted, leaves every later state as it
  // would have been, and the id stays linked to the same account.
  lemma RedeliveryStutters(
    db: Db, event: Option<V.VkEvent>, env: V.AcceptEnv, before: seq<Op>, again: Option<V.VkEvent>, env': V.AcceptEnv, after: seq<Op>)
    requires Consistent(db) && Legal(db, Accept(event, env)) && V.AcceptRun(db, event, env).1.None?
    requires again.Some? && event.Some? && Trim(again.value.vkUserId) == Trim(event.value.vkUserId)
    ensures var start := V.AcceptRun(db, event, env).0;
            var vkId := Trim(event.value.vkUserId);
            && RunOps(start, before + [Accept(again, env')] + after) == RunOps(start, before + after)
            && IdentityOf(start, Vk, vkId).Some?
            && IdentityOf(RunOps(start, before), Vk, vkId) == IdentityOf(start, Vk, vkId)
  {
    var start := V.AcceptRun(db, event, env).0;
    var vkId := Trim(event.value.vkUserId);
    AcceptLinks(db, event, env);
    assert start == StepOp(db, Accept(event, env));
    StepKeepsConsistent(db, Accept(event, env));
    RunKeepsConsistent(start, before);
    ConsistentParts(RunOps(start, before));
    hide V.AcceptRun, Trim, Consistent, Extends, IdentityOf;
    IdentityStaysFound(start, RunOps(start, before), Vk, vkId);
    Noop(RunOps(start, before), again, env');
    RunSplits(start, before + [Accept(again, env')], after);
    RunSplits(start, before, [Accept(again, env')]);
    RunSplits(start, before, after);
  }

  lemma Noop(db: Db, event: Option<V.VkEvent>, env: V.AcceptEnv)
    requires event.Some? && IdentityOf(db, Vk, Trim(event.value.vkUserId)).Some?
    ensures RunOps(db, [Accept(event, env)]) == db
  {
    LinkedEventIsNoop(db, event, env);
    assert [Accept(event, env)][1..] == [];
  }

  // ---- A Yandex user can log in again ----

  lemma YandexRegisterLinks(db: Db, p: A.Profile, env: A.YandexEnv)
    requires A.YandexRegister(db, p, env).1.Success?
    ensures var (later, r) := A.YandexRegister(db, p, env);
            exists i :: i in later.identities && i == Identity(env.identityId, r.value.userId, Yandex, Trim(p.subject))
  {
    var a := YandexTarget(p, env);
    var i := A.YandexIdentity(p, a, env);
    YandexTxEffect(db, a, i, env);
    hide A.YandexTx, A.YandexAccount, Normalize, Trim, Absent, ById, ByEmail, IdentityOf;
    var later := A.YandexRegister(db, p, env).0;
    assert later.identities[|db.identities|] == i;
    assert i in later.identities;
  }

  lemma SubjectIsTrimmed(db: Db, subject: string)
    requires Tidy(db) && IdentityOf(db, Yandex, subject).Some?
    ensures Trim(subject) == subject
  {
    var k :| 0 <= k < |db.identities| && db.identities[k] == IdentityOf(db, Yandex, subject).value;
  }

  // What a successful Yandex login leaves: the trimmed subject linked to the answered account.
  lemma YandexLinks(db: Db, code: string, state: string, env: A.YandexEnv)
    requires Consistent(db) && Tidy(db) && Legal(db, CompleteYandex(code, state, env))
    requires env.profile.Some? && A.YandexRun(db, code, state, env).1.Success?
    ensures var (later, r) := A.YandexRun(db, code, state, env);
            var link := IdentityOf(later, Yandex, Trim(env.profile.value.subject));
            && Consistent(later)
            && link.Some? && link.value.userId == r.value.userId
  {
    hide Trim, Normalize, Consistent, Tidy, A.YandexChecks, ByEmail, A.YandexRegister, IdentityOf, IdentitiesOk, Extends, First;
    var p := env.profile.value;
    var (later, r) := A.YandexRun(db, code, state, env);
    YandexKeepsConsistent(db, code, state, env);
    if IdentityOf(env.bySubject.db, Yandex, p.subject).Some? {
      IdentityStaysFound(env.bySubject.db, db, Yandex, p.subject);
      SubjectIsTrimmed(db, p.subject);
    } else {
      YandexRegisterLinks(db, p, env);
      var i :| i in later.identities && i == Identity(env.identityId, r.value.userId, Yandex, Trim(p.subject));
      IdentityIsFound(later, i);
    }
  }

  lemma YandexKeepsConsistent(db: Db, code: string, state: string, env: A.YandexEnv)
    requires Consistent(db)
    ensures var later := A.YandexRun(db, code, state, env).0; Consistent(later) && IdentitiesOk(later)
  {
    StepKeepsConsistent(db, CompleteYandex(code, state, env));
    hide A.YandexRun;
  }

  // A profile whose trimmed subject is linked is never linked again, by any route.
  lemma LinkedProfileIsRefused(db: Db, p: A.Profile, env: A.YandexEnv)
    requires IdentityOf(db, Yandex, Trim(p.subject)).Some?
    ensures A.YandexRegister(db, p, env).0 == db && A.YandexRegister(db, p, env).1.Failure?
  {
    var a := YandexTarget(p, env);
    var i := A.YandexIdentity(p, a, env);
    YandexTxEffect(db, a, i, env);
    hide A.YandexTx, A.YandexAccount, Normalize, Trim, Absent, ById, ByEmail, IdentityOf;
  }

  // After a successful Yandex login, a later one with the same subject and nothing failing answers
  // the same account exactly if the subject comes without blanks around it, because the lookup
  // takes it as it comes and the stored one is trimmed. It never changes the tables.
  lemma YandexLoginPersistsIff(
    db: Db, code: string, state: string, env: A.YandexEnv, code': string, state': string, env': A.YandexEnv,
    seen: seq<Op>, known: seq<Op>, before: seq<Op>)
    requires Consistent(db) && Tidy(db) && Legal(db, CompleteYandex(code, state, env))
    requires env.profile.Some? && A.YandexRun(db, code, state, env).1.Success?
    requires env'.profile.Some? && A.YandexChecks(code', state', env').None? && env'.tokenOk
    requires env'.profile.value.subject == env.profile.value.subject
    requires var start := A.YandexRun(db, code, state, env).0;
             && LegalRun(start, seen)
             && env'.bySubject == View(true, RunOps(start, seen))
             && env'.byId == View(true, RunOps(start, known))
    ensures var (start, r) := A.YandexRun(db, code, state, env);
            var now := RunOps(start, before);
            var (later, r') := A.YandexRun(now, code', state', env');
            && later == now
            && (r'.Success? <==> Trimmed(env.profile.value.subject))
            && (r'.Success? ==> r'.value.userId == r.value.userId)
  {
    hide RunOps, Consistent, Tidy, LegalRun, Legal, A.YandexChecks, AccountsUnique, CredentialsOk, IdentitiesOk, Extends,
      IdentityOf, Normalize, StepOp;
    var (start, r) := A.YandexRun(db, code, state, env);
    var p, p' := env.profile.value, env'.profile.value;
    YandexLinks(db, code, state, env);
    YandexKeepsTidy(db, code, state, env);
    RunKeepsConsistent(start, seen);
    RunKeepsConsistent(start, known);
    RunKeepsConsistent(start, before);
    RunKeepsTidy(start, seen);
    ConsistentParts(RunOps(start, seen));
    ConsistentParts(RunOps(start, known));
    IdentityStaysFound(start, RunOps(start, seen), Yandex, Trim(p.subject));
    IdentityStaysFound(start, RunOps(start, before), Yandex, Trim(p.subject));
    if Trimmed(p.subject) {
      LinkedAccountExists(start, RunOps(start, known), Trim(p.subject));
    } else {
      if IdentityOf(RunOps(start, seen), Yandex, p.subject).Some? {
        SubjectIsTrimmed(RunOps(start, seen), p.subject);
      }
      LinkedProfileIsRefused(RunOps(start, before), p', env');
    }
  }

  lemma LinkedAccountExists(db: Db, later: Db, subject: string)
    requires Extends(later, db) && IdentitiesOk(later) && IdentityOf(db, Yandex, subject).Some?
    ensures ById(later, IdentityOf(db, Yandex, subject).value.userId).Some?
  {
    var i := IdentityOf(db, Yandex, subject).value;
    RowStays(db.identities, later.identities, i);
    var k :| 0 <= k < |later.identities| && later.identities[k] == i;
    IsAccountIff(later, i.userId);
  }
}
