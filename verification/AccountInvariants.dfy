/**
 Runs of the three doors that create accounts, in any mix, with any failures: what every reachable
 state of the tables keeps, and what later states keep of a call that succeeded.
 */
module AccountInvariants {
  import opened Wrappers
  import opened AccountStore
  import opened AccountDoors
  import A = AuthService
  import V = VkUsers

  datatype Op =
    | Register(input: A.RegisterInput, password: A.RegisterEnv)
    | CompleteYandex(code: string, state: string, yandex: A.YandexEnv)
    | Accept(event: Option<V.VkEvent>, vk: V.AcceptEnv)

  function StepOp(db: Db, op: Op): Db {
    match op
    case Register(input, env) => A.RegisterRun(db, input, env).0
    case CompleteYandex(code, state, env) => A.YandexRun(db, code, state, env).0
    case Accept(event, env) => V.AcceptRun(db, event, env).0
  }

  function RunOps(db: Db, ops: seq<Op>): Db
    decreases |ops|
  {
    if ops == [] then db else RunOps(StepOp(db, ops[0]), ops[1..])
  }

  lemma {:induction false} RunSplits(db: Db, a: seq<Op>, b: seq<Op>)
    ensures RunOps(db, a + b) == RunOps(RunOps(db, a), b)
    decreases |a|
  {
    hide StepOp;
    if a == [] {
      assert a + b == b;
    } else {
      assert (a + b)[1..] == a[1..] + b;
      RunSplits(StepOp(db, a[0]), a[1..], b);
    }
  }

  // One call changes the tables in one of three ways, or not at all.
  ghost predicate Change(later: Db, db: Db) {
    || later == db
    || (exists a, hash, o :: AddsPasswordUser(later, db, a, hash, o))
    || (exists a, i, o :: AddsLinkedUser(later, db, a, i, o))
    || (exists i :: AddsLink(later, db, i))
  }

  lemma StepChanges(db: Db, op: Op)
    ensures Change(StepOp(db, op), db)
  {
    match op
    case Register(input, env) => RegisterEffect(db, input, env);
    case CompleteYandex(code, state, env) => YandexEffect(db, code, state, env);
    case Accept(event, env) => AcceptEffect(db, event, env);
  }

  // ---- The three doors keep the tables consistent ----

  ghost predicate Consistent(db: Db) {
    Constraints(db) && AccountsReachable(db) && Announced(db)
  }

  lemma AnnouncedGrows(db: Db, later: Db, a: Account, o: Id)
    requires Announced(db) && later.accounts == db.accounts + [a] && later.outbox == db.outbox + [UserCreated(o, a)]
    ensures Announced(later)
  {
  }

  // Accounts that had a way in keep it.
  lemma ReachableGrows(db: Db, later: Db, i: nat)
    requires AccountsReachable(db) && i < |db.accounts|
    requires db.credentials <= later.credentials && db.identities <= later.identities
    ensures HasCredential(later, db.accounts[i].id) || HasIdentity(later, db.accounts[i].id)
  {
    var id := db.accounts[i].id;
    if HasCredential(db, id) {
      var k :| 0 <= k < |db.credentials| && db.credentials[k].userId == id;
      assert later.credentials[k].userId == id;
    } else {
      var k :| 0 <= k < |db.identities| && db.identities[k].userId == id;
      assert later.identities[k].userId == id;
    }
  }

  lemma PasswordUserKeeps(later: Db, db: Db, a: Account, hash: string, o: Id)
    requires Consistent(db) && AddsPasswordUser(later, db, a, hash, o)
    ensures Consistent(later)
  {
    var c := Credential(a.id, hash);
    var t := db.(accounts := db.accounts + [a]);
    var u := t.(credentials := t.credentials + [c]);
    AccountKeeps(db, a);
    CredentialKeeps(t, c);
    assert later == u.(outbox := later.outbox);
    OutboxKeeps(u, later);
    AnnouncedGrows(db, later, a, o);
    assert HasCredential(later, a.id) by { assert later.credentials[|db.credentials|] == c; }
    hide Constraints, Announced, AccountsReachable;
    assert AccountsReachable(later) by {
      Reachable(db, later, a);
    }
  }

  lemma Reachable(db: Db, later: Db, a: Account)
    requires AccountsReachable(db) && later.accounts == db.accounts + [a]
    requires db.credentials <= later.credentials && db.identities <= later.identities
    requires HasCredential(later, a.id) || HasIdentity(later, a.id)
    ensures AccountsReachable(later)
  {
    forall i | 0 <= i < |later.accounts|
      ensures HasCredential(later, later.accounts[i].id) || HasIdentity(later, later.accounts[i].id)
    {
      if i < |db.accounts| {
        ReachableGrows(db, later, i);
      }
    }
  }

  lemma LinkedUserKeeps(later: Db, db: Db, a: Account, i: Identity, o: Id)
    requires Consistent(db) && AddsLinkedUser(later, db, a, i, o)
    ensures Consistent(later)
  {
    var t := db.(accounts := db.accounts + [a]);
    var u := t.(identities := t.identities + [i]);
    AccountKeeps(db, a);
    assert IdentityOf(t, i.provider, i.subject) == IdentityOf(db, i.provider, i.subject);
    IdentityKeeps(t, i);
    assert later == u.(outbox := later.outbox);
    OutboxKeeps(u, later);
    AnnouncedGrows(db, later, a, o);
    assert HasIdentity(later, a.id) by { assert later.identities[|db.identities|] == i; }
    hide Constraints, Announced, AccountsReachable;
    Reachable(db, later, a);
  }

  lemma LinkKeeps(later: Db, db: Db, i: Identity)
    requires Consistent(db) && AddsLink(later, db, i)
    ensures Consistent(later)
  {
    IsAccountIff(db, i.userId);
    assert later == db.(identities := db.identities + [i]);
    IdentityKeeps(db, i);
    forall k | 0 <= k < |later.accounts|
      ensures HasCredential(later, later.accounts[k].id) || HasIdentity(later, later.accounts[k].id)
    {
      ReachableGrows(db, later, k);
    }
  }

  lemma StepKeepsConsistent(db: Db, op: Op)
    requires Consistent(db)
    ensures Consistent(StepOp(db, op)) && Extends(StepOp(db, op), db)
  {
    StepChanges(db, op);
    var later := StepOp(db, op);
    hide StepOp, Consistent, AddsPasswordUser, AddsLinkedUser, AddsLink;
    if a, hash, o :| AddsPasswordUser(later, db, a, hash, o) {
      PasswordUserKeeps(later, db, a, hash, o);
    } else if a, i, o :| AddsLinkedUser(later, db, a, i, o) {
      LinkedUserKeeps(later, db, a, i, o);
    } else if i :| AddsLink(later, db, i) {
      LinkKeeps(later, db, i);
    }
    assert Extends(later, db) by { ChangeGrows(later, db); }
  }

  // Rows are only ever added.
  lemma ChangeGrows(later: Db, db: Db)
    requires Change(later, db)
    ensures Extends(later, db)
  {
    hide Absent, ById, CredentialOf, IdentityOf;
  }

  lemma {:induction false} RunKeepsConsistent(db: Db, ops: seq<Op>)
    requires Consistent(db)
    ensures Consistent(RunOps(db, ops)) && Extends(RunOps(db, ops), db)
    decreases |ops|
  {
    hide StepOp, Consistent;
    if ops != [] {
      StepKeepsConsistent(db, ops[0]);
      RunKeepsConsistent(StepOp(db, ops[0]), ops[1..]);
    }
  }

  // Over every run of registrations, Yandex logins and VK events, whatever fails: keys stay unique,
  // references hold, every account has a way in, and the outbox announces each account once.
  lemma {:induction false} ThreeDoorInvariant(ops: seq<Op>)
    ensures Consistent(RunOps(EMPTY, ops))
  {
    RunKeepsConsistent(EMPTY, ops);
  }
}
