/**
 The four tables the account services share, with the keys and constraints of
 migrations/postgres/20260430090000_add_auth_tables.sql. A table lists its committed rows in
 commit order, so an earlier state is a prefix of a later one.
 */
module AccountStore {
  import opened Wrappers

  type Id = int

  datatype Provider = Password | Yandex | Vk

  datatype Account = Account(
    id: Id, login: string, email: string, firstName: string, lastName: string, provider: Provider, createdAt: int)
  datatype Credential = Credential(userId: Id, hash: string)
  datatype Identity = Identity(id: Id, userId: Id, provider: Provider, subject: string)
  datatype OutboxRow = OutboxRow(id: Id, topic: string, key: Id, provider: Provider)

  datatype Db = Db(
    accounts: seq<Account>, credentials: seq<Credential>, identities: seq<Identity>, outbox: seq<OutboxRow>)

  const EMPTY: Db := Db([], [], [], [])
  const USER_CREATED_TOPIC: string := "users.created"

  function UserCreated(id: Id, account: Account): OutboxRow {
    OutboxRow(id, USER_CREATED_TOPIC, account.id, account.provider)
  }

  function First<T(!new)>(rows: seq<T>, p: T -> bool): (r: Option<T>)
    ensures r.Some? ==> r.value in rows && p(r.value)
    ensures r.None? ==> forall x <- rows :: !p(x)
  {
    if rows == [] then None else if p(rows[0]) then Some(rows[0]) else First(rows[1..], p)
  }

  // ---- Reads ----

  function ById(db: Db, id: Id): Option<Account> { First(db.accounts, (a: Account) => a.id == id) }

  function ByLogin(db: Db, login: string): Option<Account> { First(db.accounts, (a: Account) => a.login == login) }

  function ByEmail(db: Db, email: string): Option<Account> { First(db.accounts, (a: Account) => a.email == email) }

  function CredentialOf(db: Db, userId: Id): Option<Credential> {
    First(db.credentials, (c: Credential) => c.userId == userId)
  }

  function IdentityOf(db: Db, provider: Provider, subject: string): Option<Identity> {
    First(db.identities, (i: Identity) => i.provider == provider && i.subject == subject)
  }

  // A SELECT against some committed state: a row, ErrNotFound, or another error.
  datatype Read<+T> = Found(row: T) | NotFound | ReadError

  // Whether a query is answered, and the committed state it sees. Inside a transaction too each
  // query may see a later state than the one before, and an earlier one than the inserts meet.
  datatype View = View(ok: bool, db: Db)

  function Answer<T>(ok: bool, row: Option<T>): Read<T> {
    if !ok then ReadError else if row.Some? then Found(row.value) else NotFound
  }

  // ---- Inserts ----

  // How a statement ends apart from its constraints.
  datatype Statement = Runs | Errors | Panics

  datatype SqlError = UniqueViolation | ForeignKeyViolation | StatementError

  datatype Insert = Inserted(db: Db) | Refused(error: SqlError) | Exploded

  function InsertAccount(db: Db, a: Account, s: Statement): Insert {
    if s.Panics? then Exploded
    else if s.Errors? then Refused(StatementError)
    else if ById(db, a.id).Some? || ByLogin(db, a.login).Some? || ByEmail(db, a.email).Some? then Refused(UniqueViolation)
    else Inserted(db.(accounts := db.accounts + [a]))
  }

  function InsertCredential(db: Db, c: Credential, s: Statement): Insert {
    if s.Panics? then Exploded
    else if s.Errors? then Refused(StatementError)
    else if CredentialOf(db, c.userId).Some? then Refused(UniqueViolation)
    else if ById(db, c.userId).None? then Refused(ForeignKeyViolation)
    else Inserted(db.(credentials := db.credentials + [c]))
  }

  function InsertIdentity(db: Db, i: Identity, s: Statement): Insert {
    if s.Panics? then Exploded
    else if s.Errors? then Refused(StatementError)
    else if IdentityOf(db, i.provider, i.subject).Some? || First(db.identities, (x: Identity) => x.id == i.id).Some?
    then Refused(UniqueViolation)
    else if ById(db, i.userId).None? then Refused(ForeignKeyViolation)
    else Inserted(db.(identities := db.identities + [i]))
  }

  function InsertOutbox(db: Db, o: OutboxRow, s: Statement): Insert {
    if s.Panics? then Exploded
    else if s.Errors? then Refused(StatementError)
    else if First(db.outbox, (x: OutboxRow) => x.id == o.id).Some? then Refused(UniqueViolation)
    else Inserted(db.(outbox := db.outbox + [o]))
  }

  /** What one transaction sees and writes. */
  class Session {
    var db: Db

    constructor (db: Db)
      ensures this.db == db
    {
      this.db := db;
    }

    method Apply(r: Insert)
      modifies this
      ensures db == if r.Inserted? then r.db else old(db)
    {
      if r.Inserted? { db := r.db; }
    }

    method CreateAccount(a: Account, s: Statement) returns (r: Insert)
      modifies this
      ensures r == InsertAccount(old(db), a, s) && db == if r.Inserted? then r.db else old(db)
    {
      r := InsertAccount(db, a, s);
      Apply(r);
    }

    method CreateCredential(c: Credential, s: Statement) returns (r: Insert)
      modifies this
      ensures r == InsertCredential(old(db), c, s) && db == if r.Inserted? then r.db else old(db)
    {
      r := InsertCredential(db, c, s);
      Apply(r);
    }

    method CreateIdentity(i: Identity, s: Statement) returns (r: Insert)
      modifies this
      ensures r == InsertIdentity(old(db), i, s) && db == if r.Inserted? then r.db else old(db)
    {
      r := InsertIdentity(db, i, s);
      Apply(r);
    }

    method CreateOutbox(o: OutboxRow, s: Statement) returns (r: Insert)
      modifies this
      ensures r == InsertOutbox(old(db), o, s) && db == if r.Inserted? then r.db else old(db)
    {
      r := InsertOutbox(db, o, s);
      Apply(r);
    }
  }

  // ---- States and their invariant ----

  // `later` has every row of `earlier`, in place.
  predicate Extends(later: Db, earlier: Db) {
    && earlier.accounts <= later.accounts
    && earlier.credentials <= later.credentials
    && earlier.identities <= later.identities
    && earlier.outbox <= later.outbox
  }

  ghost predicate AccountsUnique(db: Db) {
    forall i, j :: 0 <= i < j < |db.accounts| ==>
      && db.accounts[i].id != db.accounts[j].id
      && db.accounts[i].login != db.accounts[j].login
      && db.accounts[i].email != db.accounts[j].email
  }

  ghost predicate IsAccount(db: Db, id: Id) {
    exists i :: 0 <= i < |db.accounts| && db.accounts[i].id == id
  }

  ghost predicate HasCredential(db: Db, id: Id) {
    exists k :: 0 <= k < |db.credentials| && db.credentials[k].userId == id
  }

  ghost predicate HasIdentity(db: Db, id: Id) {
    exists k :: 0 <= k < |db.identities| && db.identities[k].userId == id
  }

  ghost predicate CredentialsOk(db: Db) {
    && (forall i, j :: 0 <= i < j < |db.credentials| ==> db.credentials[i].userId != db.credentials[j].userId)
    && (forall k :: 0 <= k < |db.credentials| ==> IsAccount(db, db.credentials[k].userId))
  }

  ghost predicate IdentitiesOk(db: Db) {
    && (forall i, j :: 0 <= i < j < |db.identities| ==>
          db.identities[i].provider != db.identities[j].provider || db.identities[i].subject != db.identities[j].subject)
    && (forall k :: 0 <= k < |db.identities| ==> IsAccount(db, db.identities[k].userId))
  }

  ghost predicate AccountsReachable(db: Db) {
    forall i :: 0 <= i < |db.accounts| ==> HasCredential(db, db.accounts[i].id) || HasIdentity(db, db.accounts[i].id)
  }

  // Row k of the outbox announces account k.
  ghost predicate Announced(db: Db) {
    && |db.outbox| == |db.accounts|
    && forall k :: 0 <= k < |db.outbox| ==>
         && db.outbox[k].topic == "users.created"
         && db.outbox[k].key == db.accounts[k].id
         && db.outbox[k].provider == db.accounts[k].provider
  }

  ghost predicate Constraints(db: Db) {
    AccountsUnique(db) && CredentialsOk(db) && IdentitiesOk(db)
  }

  lemma IsAccountIff(db: Db, id: Id)
    ensures IsAccount(db, id) <==> ById(db, id).Some?
  {
    if ById(db, id).Some? {
      var i :| 0 <= i < |db.accounts| && db.accounts[i] == ById(db, id).value;
    }
    if IsAccount(db, id) {
      var i :| 0 <= i < |db.accounts| && db.accounts[i].id == id;
      assert db.accounts[i] in db.accounts;
    }
  }

  lemma IsAccountGrows(db: Db, later: Db, id: Id)
    requires db.accounts <= later.accounts && IsAccount(db, id)
    ensures IsAccount(later, id)
  {
    var i :| 0 <= i < |db.accounts| && db.accounts[i].id == id;
    assert later.accounts[i] == db.accounts[i];
  }

  // No account has a key of `a`.
  predicate Absent(db: Db, a: Account) {
    ById(db, a.id).None? && ByLogin(db, a.login).None? && ByEmail(db, a.email).None?
  }

  // The references of `db` hold in a state with more accounts.
  lemma ReferencesGrow(db: Db, later: Db)
    requires Constraints(db) && db.accounts <= later.accounts
    ensures forall k :: 0 <= k < |db.credentials| ==> IsAccount(later, db.credentials[k].userId)
    ensures forall k :: 0 <= k < |db.identities| ==> IsAccount(later, db.identities[k].userId)
  {
    forall k | 0 <= k < |db.credentials| ensures IsAccount(later, db.credentials[k].userId) {
      IsAccountGrows(db, later, db.credentials[k].userId);
    }
    forall k | 0 <= k < |db.identities| ensures IsAccount(later, db.identities[k].userId) {
      IsAccountGrows(db, later, db.identities[k].userId);
    }
  }

  lemma AccountKeeps(db: Db, a: Account)
    requires Constraints(db) && Absent(db, a)
    ensures var t := db.(accounts := db.accounts + [a]);
            Constraints(t) && IsAccount(t, a.id) && !IsAccount(db, a.id)
  {
    var t := db.(accounts := db.accounts + [a]);
    IsAccountIff(db, a.id);
    ReferencesGrow(db, t);
    assert t.accounts[|db.accounts|] == a;
    assert forall i :: 0 <= i < |db.accounts| ==> db.accounts[i] in db.accounts;
  }

  lemma CredentialKeeps(db: Db, c: Credential)
    requires Constraints(db) && CredentialOf(db, c.userId).None? && IsAccount(db, c.userId)
    ensures var t := db.(credentials := db.credentials + [c]);
            Constraints(t) && HasCredential(t, c.userId)
  {
    var t := db.(credentials := db.credentials + [c]);
    ReferencesGrow(db, t);
    assert t.credentials[|db.credentials|] == c;
    assert forall i :: 0 <= i < |db.credentials| ==> db.credentials[i] in db.credentials;
    assert IsAccount(t, c.userId) by { IsAccountGrows(db, t, c.userId); }
  }

  lemma IdentityKeeps(db: Db, i: Identity)
    requires Constraints(db) && IdentityOf(db, i.provider, i.subject).None? && IsAccount(db, i.userId)
    ensures var t := db.(identities := db.identities + [i]);
            Constraints(t) && HasIdentity(t, i.userId)
  {
    var t := db.(identities := db.identities + [i]);
    ReferencesGrow(db, t);
    assert t.identities[|db.identities|] == i;
    assert forall k :: 0 <= k < |db.identities| ==> db.identities[k] in db.identities;
    assert IsAccount(t, i.userId) by { IsAccountGrows(db, t, i.userId); }
  }

  lemma OutboxKeeps(db: Db, later: Db)
    requires Constraints(db) && later == db.(outbox := later.outbox)
    ensures Constraints(later)
  {
    ReferencesGrow(db, later);
  }

  // Uniqueness makes each read return the row it is asked for, and later states the same row.
  lemma AccountIsFound(db: Db, a: Account)
    requires AccountsUnique(db) && a in db.accounts
    ensures ById(db, a.id) == ByLogin(db, a.login) == ByEmail(db, a.email) == Some(a)
  {
    var i :| 0 <= i < |db.accounts| && db.accounts[i] == a;
    var b, c, d := ById(db, a.id).value, ByLogin(db, a.login).value, ByEmail(db, a.email).value;
    var j :| 0 <= j < |db.accounts| && db.accounts[j] == b;
    var k :| 0 <= k < |db.accounts| && db.accounts[k] == c;
    var l :| 0 <= l < |db.accounts| && db.accounts[l] == d;
  }

  lemma CredentialIsFound(db: Db, c: Credential)
    requires CredentialsOk(db) && c in db.credentials
    ensures CredentialOf(db, c.userId) == Some(c)
  {
    var i :| 0 <= i < |db.credentials| && db.credentials[i] == c;
    var j :| 0 <= j < |db.credentials| && db.credentials[j] == CredentialOf(db, c.userId).value;
  }

  lemma IdentityIsFound(db: Db, x: Identity)
    requires IdentitiesOk(db) && x in db.identities
    ensures IdentityOf(db, x.provider, x.subject) == Some(x)
  {
    var i :| 0 <= i < |db.identities| && db.identities[i] == x;
    var j :| 0 <= j < |db.identities| && db.identities[j] == IdentityOf(db, x.provider, x.subject).value;
  }

  lemma IdentityStaysFound(db: Db, later: Db, provider: Provider, subject: string)
    requires Extends(later, db) && IdentityOf(db, provider, subject).Some?
    ensures IdentityOf(later, provider, subject).Some?
    ensures IdentitiesOk(later) ==> IdentityOf(later, provider, subject) == IdentityOf(db, provider, subject)
  {
    var x := IdentityOf(db, provider, subject).value;
    RowStays(db.identities, later.identities, x);
    if IdentitiesOk(later) {
      IdentityIsFound(later, x);
    }
  }

  lemma RowStays<T>(rows: seq<T>, later: seq<T>, x: T)
    requires rows <= later && x in rows
    ensures x in later
  {
    var i :| 0 <= i < |rows| && rows[i] == x;
    assert later[i] == x;
  }
}
