/** Concrete calls on which a login or a link fails that its user would expect to succeed. */
module AccountWitnesses {
  import opened Wrappers
  import opened Text
  import opened TransactionManager
  import opened AccountStore
  import opened AccountDoors
  import opened AccountInvariants
  import opened AccountPersistence
  import A = AuthService

  const NOW: int := 1_000

  // Nothing goes wrong: reads of `db`, statements that run, a commit.
  function PasswordCall(db: Db, hash: string, id: Id): A.RegisterEnv {
    A.RegisterEnv(View(true, db), View(true, db), Some(hash), id, NOW, GOOD_TX, Runs, Runs, 100 + id, Runs, true)
  }

  function YandexCall(db: Db, p: A.Profile, id: Id): A.YandexEnv {
    A.YandexEnv(true, Some(p), View(true, db), View(true, db), View(true, db), id, NOW, GOOD_TX, Runs, 100 + id, Runs, id, Runs, true)
  }

  function Input(login: string, email: string): A.RegisterInput { A.RegisterInput(login, email, "secret12", "F", "L") }

  // The tables after one registration from empty ones.
  function Registered(login: string, email: string): Db {
    A.RegisterRun(EMPTY, Input(login, email), PasswordCall(EMPTY, "hash", 1)).0
  }

  lemma FirstRegistration(login: string, email: string)
    requires TidyText(login) && TidyText(email)
    ensures A.RegisterRun(EMPTY, Input(login, email), PasswordCall(EMPTY, "hash", 1)).1.Success?
    ensures Consistent(Registered(login, email))
    ensures Registered(login, email) ==
            Db([Account(1, login, email, "F", "L", Password, NOW)], [Credential(1, "hash")], [],
               [OutboxRow(101, USER_CREATED_TOPIC, 1, Password)])
  {
    hide Trim, Normalize, Normalized, A.ValidateRegister, A.RegisterRun;
    var input, env := Input(login, email), PasswordCall(EMPTY, "hash", 1);
    NormalizedIffFixed(login);
    NormalizedIffFixed(email);
    InputIsValid(login, email);
    RegisterSucceedsIff(EMPTY, input, env);
    RegisterEffect(EMPTY, input, env);
    assert Consistent(EMPTY);
    StepKeepsConsistent(EMPTY, Register(input, env));
  }

  lemma InputIsValid(login: string, email: string)
    requires TidyText(login) && TidyText(email)
    ensures A.ValidateRegister(Input(login, email)).None? && Trim("F") == "F" && Trim("L") == "L"
  {
    assert Trim(login) == login && Trim(email) == email;
    assert Trimmed("F") && Trimmed("L") && Trimmed("secret12");
    hide Trim;
  }

  predicate TidyText(s: string) { Normalized(s) && s != "" }

  lemma PlainTexts()
    ensures TidyText("ann@home") && TidyText("ann@example.org")
    ensures TidyText("ann") && TidyText("ann.example.org")
  {
    assert Lower("ann@home") == "ann@home";
    assert Lower("ann@example.org") == "ann@example.org";
    assert Lower("ann") == "ann";
    assert Lower("ann.example.org") == "ann.example.org";
  }

  function LoginAfter(db: Db, identifier: string, valid: (string, string) -> bool): Result<A.AuthResult, A.AuthError> {
    A.Login(identifier, "secret12", valid, A.LoginEnv(View(true, db), View(true, db), true))
  }

  // Login against one account and its credential.
  lemma LoginAgainstOne(a: Account, c: Credential, o: OutboxRow, identifier: string, valid: (string, string) -> bool)
    requires TidyText(identifier) && c.userId == a.id && valid("secret12", c.hash)
    ensures LoginAfter(Db([a], [c], [], [o]), identifier, valid) ==
            if identifier == (if '@' in identifier then a.email else a.login)
            then Success(A.AuthResult(a.id, a.provider, a.createdAt)) else Failure(A.InvalidCredentials)
  {
    NormalizedIffFixed(identifier);
    assert Trim(identifier) == identifier && Trim("secret12") == "secret12";
    hide Normalize, Trim, Normalized;
    assert [a][1..] == [] && [c][1..] == [];
  }

  // Ann's login has an @: it registers, and then is looked up as an email, which nobody has.
  lemma LoginWithAtFails(valid: (string, string) -> bool)
    requires valid("secret12", "hash")
    ensures var db := Registered("ann@home", "ann@example.org");
            && LoginAfter(db, "ann@example.org", valid) == Success(A.AuthResult(1, Password, NOW))
            && LoginAfter(db, "ann@home", valid) == Failure(A.InvalidCredentials)
  {
    hide Registered, TidyText, LoginAfter, A.RegisterRun, Consistent, Input, PasswordCall;
    PlainTexts();
    FirstRegistration("ann@home", "ann@example.org");
    var db := Registered("ann@home", "ann@example.org");
    assert "ann@home"[3] == '@' && "ann@example.org"[3] == '@';
    LoginAgainstOne(db.accounts[0], db.credentials[0], db.outbox[0], "ann@home", valid);
    LoginAgainstOne(db.accounts[0], db.credentials[0], db.outbox[0], "ann@example.org", valid);
  }

  // An email without an @ is looked up as a login.
  lemma EmailWithoutAtFails(valid: (string, string) -> bool)
    requires valid("secret12", "hash")
    ensures var db := Registered("ann", "ann.example.org");
            && LoginAfter(db, "ann", valid) == Success(A.AuthResult(1, Password, NOW))
            && LoginAfter(db, "ann.example.org", valid) == Failure(A.InvalidCredentials)
  {
    hide Registered, TidyText, LoginAfter, A.RegisterRun, Consistent, Input, PasswordCall;
    PlainTexts();
    FirstRegistration("ann", "ann.example.org");
    var db := Registered("ann", "ann.example.org");
    LoginAgainstOne(db.accounts[0], db.credentials[0], db.outbox[0], "ann", valid);
    LoginAgainstOne(db.accounts[0], db.credentials[0], db.outbox[0], "ann.example.org", valid);
    assert "ann" != "ann.example.org" by { assert |"ann"| == 3; }
  }

  function AnnOnYandex(subject: string): A.Profile { A.Profile(subject, "", "ann@example.org", "Ann", "L") }

  function YandexAnswer(db: Db, p: A.Profile, id: Id): (Db, Result<A.AuthResult, A.AuthError>) {
    A.YandexRun(db, "code", "state", YandexCall(db, p, id))
  }

  lemma YandexChecksPass(db: Db, subject: string, id: Id)
    requires Trim(subject) != ""
    ensures A.YandexChecks("code", "state", YandexCall(db, AnnOnYandex(subject), id)).None?
  {
    assert Trimmed("code") && Trimmed("state") && Trimmed("ann@example.org");
    hide Trim;
  }

  // Ann registers with a password; at the same clock reading her Yandex profile arrives. The
  // service takes her account for one it has just made up, and the call ends as a duplicate.
  lemma SameInstantIsRefused()
    ensures var db := Registered("ann", "ann@example.org");
            YandexAnswer(db, AnnOnYandex("7"), 2) == (db, Failure(A.NotCommitted(Failed(A.AlreadyExists, false))))
  {
    hide Registered, TidyText, YandexAnswer, A.RegisterRun, Consistent, Input, PasswordCall, AnnOnYandex;
    PlainTexts();
    FirstRegistration("ann", "ann@example.org");
    var db := Registered("ann", "ann@example.org");
    assert Trim("7") != "" by { assert Trimmed("7"); }
    SameInstant(db, db.accounts[0], "7", 2);
  }

  lemma SameInstant(db: Db, a: Account, subject: string, id: Id)
    requires db.accounts == [a] && db.identities == [] && a.createdAt == NOW && a.email == "ann@example.org"
    requires Trim(subject) != ""
    ensures YandexAnswer(db, AnnOnYandex(subject), id) == (db, Failure(A.NotCommitted(Failed(A.AlreadyExists, false))))
  {
    var p := AnnOnYandex(subject);
    var env := YandexCall(db, p, id);
    YandexChecksPass(db, subject, id);
    PlainTexts();
    NormalizedIffFixed(p.email);
    hide Normalize, Trim, Normalized, A.YandexChecks;
    assert IdentityOf(db, Yandex, subject).None? && ByEmail(db, p.email) == Some(a) && ById(db, a.id) == Some(a);
  }

  // A subject with a blank before it: the first login makes the user, the second is refused.
  lemma BlankSubjectIsRefused()
    ensures var (db, first) := YandexAnswer(EMPTY, AnnOnYandex(" 7"), 1);
            var (later, second) := YandexAnswer(db, AnnOnYandex(" 7"), 2);
            first.Success? && later == db && second.Failure?
  {
    assert Trim(" 7") != "" && !Trimmed(" 7") by { assert TrimLeft(" 7") == "7" == TrimRight("7"); }
    hide YandexAnswer, AnnOnYandex, Trim, Trimmed;
    BlankSubject(" 7");
  }

  lemma FirstLink(subject: string)
    requires Trim(subject) != ""
    ensures YandexAnswer(EMPTY, AnnOnYandex(subject), 1).1.Success?
  {
    var env := YandexCall(EMPTY, AnnOnYandex(subject), 1);
    YandexChecksPass(EMPTY, subject, 1);
    hide Normalize, Trim, Normalized, A.YandexChecks, A.YandexRun, A.BuildExternalLogin;
    YandexLinksIff(EMPTY, "code", "state", env);
  }

  lemma BlankSubject(subject: string)
    requires Trim(subject) != "" && !Trimmed(subject)
    ensures var (db, first) := YandexAnswer(EMPTY, AnnOnYandex(subject), 1);
            var (later, second) := YandexAnswer(db, AnnOnYandex(subject), 2);
            first.Success? && later == db && second.Failure?
  {
    hide *;
    FirstLink(subject);
    StartsLegal(subject);
    var db := YandexAnswer(EMPTY, AnnOnYandex(subject), 1).0;
    SecondIsRefused(db, subject);
  }

  lemma StartsLegal(subject: string)
    ensures Consistent(EMPTY) && Tidy(EMPTY)
    ensures Legal(EMPTY, CompleteYandex("code", "state", YandexCall(EMPTY, AnnOnYandex(subject), 1)))
  {
  }

  lemma SecondIsRefused(db: Db, subject: string)
    requires Trim(subject) != "" && !Trimmed(subject)
    requires Consistent(EMPTY) && Tidy(EMPTY)
    requires Legal(EMPTY, CompleteYandex("code", "state", YandexCall(EMPTY, AnnOnYandex(subject), 1)))
    requires var r := YandexAnswer(EMPTY, AnnOnYandex(subject), 1); r.0 == db && r.1.Success?
    ensures YandexAnswer(db, AnnOnYandex(subject), 2).0 == db && YandexAnswer(db, AnnOnYandex(subject), 2).1.Failure?
  {
    hide Normalize, Trim, Trimmed, Normalized, A.YandexChecks, A.YandexRun, Consistent, Tidy, Legal, First, AnnOnYandex;
    var p := AnnOnYandex(subject);
    YandexChecksPass(db, subject, 2);
    assert p.subject == subject by { SubjectOf(subject); }
    YandexLoginPersistsIff(EMPTY, "code", "state", YandexCall(EMPTY, p, 1), "code", "state", YandexCall(db, p, 2), [], [], []);
  }

  lemma SubjectOf(subject: string)
    ensures AnnOnYandex(subject).subject == subject
  {
  }
}
