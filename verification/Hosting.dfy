/** Placement of hosting accounts on servers: the least-loaded choice, its capacity bound, and what
    stays balanced over serial runs. */
module Hosting {
  import opened Wrappers

  type EntitlementId = nat
  type OrderId = nat

  datatype Provider = CPANEL | DIRECTADMIN | CLOUDFLARE | MOCK
  datatype AccountStatus = PROVISIONING | ACTIVE | SUSPENDED | TERMINATED | FAILED

  datatype Server = Server(hostname: nat, provider: Provider, maxAccounts: int, activeAccounts: int, isActive: bool)

  /** server is an index into the server table. */
  datatype Account = Account(server: nat, entitlement: EntitlementId, order: OrderId, domain: nat, username: nat, status: AccountStatus)

  datatype Db = Db(servers: seq<Server>, accounts: seq<Account>)

  /** A hosting entitlement of an order, with the domain and user name derived for it. */
  datatype Request = Request(entitlement: EntitlementId, domain: nat, username: nat)

  /** Host name of the simulated server that is created when development has none with room. */
  const SEED_HOSTNAME: nat := 0
  const SEED := Server(SEED_HOSTNAME, MOCK, 500, 0, true)

  // ----- choosing a server

  predicate Eligible(s: Server, production: bool) {
    s.isActive && s.activeAccounts < s.maxAccounts && (production ==> !s.provider.MOCK?)
  }

  /** findFirst of the eligible servers ordered by activeAccounts. */
  function PickServer(servers: seq<Server>, production: bool): (r: Option<nat>)
    ensures r.None? ==> forall j :: 0 <= j < |servers| ==> !Eligible(servers[j], production)
    ensures r.Some? ==> r.value < |servers| && Eligible(servers[r.value], production)
    ensures r.Some? ==>
      (forall j :: 0 <= j < |servers| && Eligible(servers[j], production) ==> servers[r.value].activeAccounts <= servers[j].activeAccounts)
  {
    if servers == [] then None
    else
      var n := |servers| - 1;
      var r := PickServer(servers[..n], production);
      if Eligible(servers[n], production) && (r.None? || servers[n].activeAccounts < servers[r.value].activeAccounts)
      then Some(n) else r
  }

  // ----- the statements

  predicate HasEntitlement(accounts: seq<Account>, e: EntitlementId) {
    exists i :: 0 <= i < |accounts| && accounts[i].entitlement == e
  }

  /** The three unique keys of the account table. */
  predicate Collides(accounts: seq<Account>, q: Request) {
    exists i :: 0 <= i < |accounts| &&
      (accounts[i].entitlement == q.entitlement || accounts[i].domain == q.domain || accounts[i].username == q.username)
  }

  /** Insert an account in state PROVISIONING; None on a unique violation. */
  function CreateAccount(db: Db, server: nat, o: OrderId, q: Request): Option<Db> {
    if Collides(db.accounts, q) then None
    else Some(db.(accounts := db.accounts + [Account(server, q.entitlement, o, q.domain, q.username, PROVISIONING)]))
  }

  /** The activation transaction on a simulated server. */
  function Activate(db: Db, i: nat): Db
    requires i < |db.accounts| && db.accounts[i].server < |db.servers|
  {
    var s := db.accounts[i].server;
    Db(db.servers[s := db.servers[s].(activeAccounts := db.servers[s].activeAccounts + 1)],
       db.accounts[i := db.accounts[i].(status := ACTIVE)])
  }

  // ----- calls

  /** Which of the two writes for one entitlement fail for reasons of their own. */
  datatype Io = Io(createFails: bool, activateFails: bool)

  datatype Step = Next(db: Db, placed: Option<nat>, provisioned: nat) | Thrown(db: Db)

  function Place(db: Db, k: nat, o: OrderId, q: Request, io: Io): Step
    requires k < |db.servers|
  {
    match CreateAccount(db, k, o, q)
    case None => Next(db, None, 0)
    case Some(t) =>
      if io.createFails then Next(db, None, 0)
      else if !db.servers[k].provider.MOCK? || io.activateFails then Next(t, Some(k), 0)
      else Next(Activate(t, |db.accounts|), Some(k), 1)
  }

  /** One iteration of the loop; placed is the server an account was created on. */
  function ProvisionOne(db: Db, production: bool, o: OrderId, q: Request, io: Io): Step {
    if HasEntitlement(db.accounts, q.entitlement) then Next(db, None, 0)
    else
      var pick := PickServer(db.servers, production);
      if pick.None? && production then Next(db, None, 0)
      else if pick.None? && (exists j :: 0 <= j < |db.servers| && db.servers[j].hostname == SEED_HOSTNAME) then Thrown(db)
      else
        var seeded := if pick.None? then db.(servers := db.servers + [SEED]) else db;
        Place(seeded, if pick.None? then |db.servers| else pick.value, o, q, io)
  }

  /** What a call has done so far; placed collects the servers it placed an account on. */
  datatype Progress = Progress(db: Db, placed: set<nat>, count: nat, thrown: bool)

  function After(p: Progress, step: Step): Progress {
    match step
    case Thrown(t) => Progress(t, p.placed, p.count, true)
    case Next(t, k, c) => Progress(t, p.placed + (if k.Some? then {k.value} else {}), p.count + c, false)
  }

  /** A call over its entitlements, up to the one at which it throws. */
  ghost function Provision(db: Db, production: bool, o: OrderId, qs: seq<Request>, io: nat -> Io): Progress {
    if qs == [] then Progress(db, {}, 0, false)
    else
      var n := |qs| - 1;
      var p := Provision(db, production, o, qs[..n], io);
      if p.thrown then p else After(p, ProvisionOne(p.db, production, o, qs[n], io(n)))
  }

  function Suspend(a: Account): Account {
    if a.status.ACTIVE? then a.(status := SUSPENDED) else a
  }

  function SuspendOrder(db: Db, o: OrderId): Db {
    db.(accounts := seq(|db.accounts|, i requires 0 <= i < |db.accounts| =>
      if db.accounts[i].order == o then Suspend(db.accounts[i]) else db.accounts[i]))
  }

  ghost function ActiveOf(accounts: seq<Account>, o: OrderId): nat {
    if accounts == [] then 0
    else
      var a := accounts[|accounts| - 1];
      ActiveOf(accounts[..|accounts| - 1], o) + if a.order == o && a.status.ACTIVE? then 1 else 0
  }

  function SuspendEntitlement(db: Db, e: EntitlementId): Db {
    db.(accounts := seq(|db.accounts|, i requires 0 <= i < |db.accounts| =>
      if db.accounts[i].entitlement == e then Suspend(db.accounts[i]) else db.accounts[i]))
  }

  // ----- invariants

  ghost predicate TakesPlace(a: Account) {
    a.status.ACTIVE? || a.status.SUSPENDED?
  }

  /** Accounts of a server that take a place: the active and the suspended ones. */
  ghost function Places(accounts: seq<Account>, server: nat): nat {
    if accounts == [] then 0
    else
      var a := accounts[|accounts| - 1];
      Places(accounts[..|accounts| - 1], server) + if a.server == server && TakesPlace(a) then 1 else 0
  }

  /** Never overfilled; for simulated servers the counter is the number of places taken. */
  ghost predicate ServerInv(db: Db, k: nat)
    requires k < |db.servers|
  {
    && db.servers[k].activeAccounts <= db.servers[k].maxAccounts
    && (db.servers[k].provider.MOCK? ==> db.servers[k].activeAccounts == Places(db.accounts, k))
  }

  ghost predicate Inv(db: Db) {
    && (forall i :: 0 <= i < |db.accounts| ==> db.accounts[i].server < |db.servers|)
    && (forall i, j :: 0 <= i < j < |db.accounts| ==> db.accounts[i].entitlement != db.accounts[j].entitlement)
    && (forall k :: 0 <= k < |db.servers| ==> ServerInv(db, k))
  }

  /** Every server that received a placement carries at most one account more than any server that still has room. */
  ghost predicate Even(db: Db, production: bool, placed: set<nat>) {
    forall k, j :: k in placed && 0 <= j < |db.servers| && k < |db.servers| && Eligible(db.servers[j], production) ==>
      db.servers[k].activeAccounts <= db.servers[j].activeAccounts + 1
  }

  lemma PlacesAppend(accounts: seq<Account>, a: Account, server: nat)
    ensures Places(accounts + [a], server) == Places(accounts, server) + if a.server == server && TakesPlace(a) then 1 else 0
  {
    assert (accounts + [a])[..|accounts|] == accounts;
  }

  lemma {:induction false} PlacesUpdate(accounts: seq<Account>, i: nat, st: AccountStatus, server: nat)
    requires i < |accounts|
    ensures var b := accounts[i].(status := st);
      Places(accounts[i := b], server) == Places(accounts, server)
        - (if accounts[i].server == server && TakesPlace(accounts[i]) then 1 else 0)
        + (if b.server == server && TakesPlace(b) then 1 else 0)
  {
    var n := |accounts| - 1;
    var t := accounts[i := accounts[i].(status := st)];
    if i == n {
      assert t[..n] == accounts[..n];
    } else {
      PlacesUpdate(accounts[..n], i, st, server);
      assert t[..n] == accounts[..n][i := accounts[i].(status := st)];
    }
  }

  lemma {:induction false} PlacesNone(accounts: seq<Account>, server: nat)
    requires forall i :: 0 <= i < |accounts| ==> accounts[i].server != server
    ensures Places(accounts, server) == 0
  {
    if accounts != [] { PlacesNone(accounts[..|accounts| - 1], server); }
  }

  lemma {:induction false} PlacesSame(x: seq<Account>, y: seq<Account>, server: nat)
    requires |x| == |y| && forall i :: 0 <= i < |x| ==> x[i].server == y[i].server && (TakesPlace(x[i]) <==> TakesPlace(y[i]))
    ensures Places(x, server) == Places(y, server)
  {
    if x != [] { PlacesSame(x[..|x| - 1], y[..|y| - 1], server); }
  }

  lemma SeedKeepsInv(db: Db)
    requires Inv(db)
    ensures Inv(db.(servers := db.servers + [SEED]))
  {
    var t := db.(servers := db.servers + [SEED]);
    PlacesNone(db.accounts, |db.servers|);
    forall k | 0 <= k < |t.servers| ensures ServerInv(t, k) {
      if k < |db.servers| { assert ServerInv(db, k); }
    }
  }

  lemma PlaceKeepsInv(db: Db, k: nat, o: OrderId, q: Request, io: Io)
    requires Inv(db) && k < |db.servers| && db.servers[k].activeAccounts < db.servers[k].maxAccounts
    ensures Inv(Place(db, k, o, q, io).db) && |Place(db, k, o, q, io).db.servers| == |db.servers|
  {
    var t := Place(db, k, o, q, io).db;
    if t != db {
      var a := Account(k, q.entitlement, o, q.domain, q.username, PROVISIONING);
      var accounts := db.accounts + [a];
      forall j | 0 <= j < |t.servers| ensures ServerInv(t, j) {
        assert ServerInv(db, j);
        PlacesAppend(db.accounts, a, j);
        PlacesUpdate(accounts, |db.accounts|, ACTIVE, j);
      }
    }
  }

  lemma ProvisionOneKeepsInv(db: Db, production: bool, o: OrderId, q: Request, io: Io)
    requires Inv(db)
    ensures Inv(ProvisionOne(db, production, o, q, io).db)
  {
    var pick := PickServer(db.servers, production);
    SeedKeepsInv(db);
    if pick.Some? { PlaceKeepsInv(db, pick.value, o, q, io); }
    else { PlaceKeepsInv(db.(servers := db.servers + [SEED]), |db.servers|, o, q, io); }
  }

  /** The least-loaded choice keeps the pool even, as long as no server is added to it. */
  lemma ProvisionOneKeepsEven(db: Db, production: bool, o: OrderId, q: Request, io: Io, placed: set<nat>)
    requires Even(db, production, placed)
    requires var r := ProvisionOne(db, production, o, q, io); r.Next? && |r.db.servers| == |db.servers|
    ensures var r := ProvisionOne(db, production, o, q, io);
      Even(r.db, production, placed + if r.placed.Some? then {r.placed.value} else {})
  {
  }

  lemma {:induction false} ProvisionKeeps(db: Db, production: bool, o: OrderId, qs: seq<Request>, io: nat -> Io,
          placed: set<nat>)
    requires Inv(db) && Even(db, production, placed)
    ensures var p := Provision(db, production, o, qs, io);
      && Inv(p.db) && |p.db.servers| >= |db.servers|
      && (|p.db.servers| == |db.servers| ==> Even(p.db, production, placed + p.placed))
  {
    if qs != [] {
      var n := |qs| - 1;
      ProvisionKeeps(db, production, o, qs[..n], io, placed);
      var p := Provision(db, production, o, qs[..n], io);
      if !p.thrown {
        ProvisionOneKeepsInv(p.db, production, o, qs[n], io(n));
        var r := ProvisionOne(p.db, production, o, qs[n], io(n));
        if r.Next? && |r.db.servers| == |db.servers| {
          ProvisionOneKeepsEven(p.db, production, o, qs[n], io(n), placed + p.placed);
          var k := if r.placed.Some? then {r.placed.value} else {};
          assert placed + p.placed + k == placed + (p.placed + k);
        }
      }
    }
  }

  lemma OneNeverRevisits(db: Db, production: bool, o: OrderId, q: Request, io: Io)
    ensures db.accounts <= ProvisionOne(db, production, o, q, io).db.accounts
    ensures HasEntitlement(db.accounts, q.entitlement) ==> ProvisionOne(db, production, o, q, io) == Next(db, None, 0)
  {
  }

  /** A call adds accounts and never revisits one: a redelivery finds the entitlement covered and skips it,
      also when an activation that failed left the account PROVISIONING. */
  lemma {:induction false} ProvisionNeverRevisits(db: Db, production: bool, o: OrderId, qs: seq<Request>, io: nat -> Io)
    ensures var p := Provision(db, production, o, qs, io);
      && db.accounts <= p.db.accounts
      && ((forall i :: 0 <= i < |qs| ==> HasEntitlement(db.accounts, qs[i].entitlement)) ==> p == Progress(db, {}, 0, false))
  {
    if qs != [] {
      var n := |qs| - 1;
      ProvisionNeverRevisits(db, production, o, qs[..n], io);
      var p := Provision(db, production, o, qs[..n], io);
      OneNeverRevisits(p.db, production, o, qs[n], io(n));
      var step := ProvisionOne(p.db, production, o, qs[n], io(n));
      assert Provision(db, production, o, qs, io) == if p.thrown then p else After(p, step);
      assert After(p, step).db == step.db;
      if forall i :: 0 <= i < |qs| ==> HasEntitlement(db.accounts, qs[i].entitlement) {
        assert HasEntitlement(db.accounts, qs[n].entitlement);
        assert forall i :: 0 <= i < n ==> qs[..n][i] == qs[i];
      }
    }
  }

  /** The status an account is left with by the call that created it. */
  predicate LeftBy(db: Db, a: Account, io: Io)
    requires a.server < |db.servers|
  {
    a.status == if db.servers[a.server].provider.MOCK? && !io.activateFails then ACTIVE else PROVISIONING
  }

  predicate SameProviders(x: seq<Server>, y: seq<Server>) {
    |x| <= |y| && forall k :: 0 <= k < |x| ==> y[k].provider == x[k].provider
  }

  lemma OneCreates(db: Db, production: bool, o: OrderId, q: Request, io: Io, t: Db)
    requires t == ProvisionOne(db, production, o, q, io).db && Inv(db)
    ensures SameProviders(db.servers, t.servers) && |t.accounts| <= |db.accounts| + 1
    ensures |t.accounts| > |db.accounts| ==>
      var a := t.accounts[|db.accounts|]; a.entitlement == q.entitlement && a.order == o && a.server < |t.servers| && LeftBy(t, a, io)
  {
  }

  /** Account i of a table was created by a call for one of its entitlements, and has the status that leaves. */
  ghost predicate CreatedFor(t: Db, o: OrderId, qs: seq<Request>, io: nat -> Io, i: nat)
    requires i < |t.accounts| && t.accounts[i].server < |t.servers|
  {
    && t.accounts[i].order == o
    && exists n :: 0 <= n < |qs| && qs[n].entitlement == t.accounts[i].entitlement && LeftBy(t, t.accounts[i], io(n))
  }

  /** Every account a call creates is ACTIVE iff its server is simulated and the activation for its entitlement did
      not fail; otherwise it stays PROVISIONING. */
  lemma {:induction false} CreatedStatus(db: Db, production: bool, o: OrderId, qs: seq<Request>, io: nat -> Io)
    requires Inv(db)
    ensures var t := Provision(db, production, o, qs, io).db;
      && Inv(t) && |db.accounts| <= |t.accounts| && SameProviders(db.servers, t.servers)
      && forall i :: |db.accounts| <= i < |t.accounts| ==> CreatedFor(t, o, qs, io, i)
  {
    if qs != [] {
      var n := |qs| - 1;
      var p, t := Provision(db, production, o, qs[..n], io), Provision(db, production, o, qs, io).db;
      CreatedStatus(db, production, o, qs[..n], io);
      if !p.thrown {
        ProvisionOneKeepsInv(p.db, production, o, qs[n], io(n));
        OneNeverRevisits(p.db, production, o, qs[n], io(n));
        OneCreates(p.db, production, o, qs[n], io(n), t);
      }
      forall i | |db.accounts| <= i < |t.accounts| ensures CreatedFor(t, o, qs, io, i) {
        if i < |p.db.accounts| {
          assert CreatedFor(p.db, o, qs[..n], io, i);
          var m :| 0 <= m < n && qs[..n][m].entitlement == p.db.accounts[i].entitlement && LeftBy(p.db, p.db.accounts[i], io(m));
          assert t.accounts[i] == p.db.accounts[i] && qs[m] == qs[..n][m];
          assert LeftBy(t, t.accounts[i], io(m));
        }
      }
    }
  }

  /** A server that may take an account: active, with room, and in production not a simulated one. */
  ghost predicate HasRoom(s: Server, production: bool) {
    s.isActive && s.activeAccounts < s.maxAccounts && (production ==> s.provider != MOCK)
  }

  /** The entitlement has no account, some server has room, the keys are free and the insert works. */
  ghost predicate NothingInTheWay(db: Db, production: bool, q: Request, createFails: bool) {
    && !createFails && (exists s :: s in db.servers && HasRoom(s, production))
    && (forall a :: a in db.accounts ==> a.entitlement != q.entitlement && a.domain != q.domain && a.username != q.username)
  }

  /** Exactly one account is new: the order's, with the request's keys, on a server that had room and no more accounts
      than any other with room; on a simulated one it is activated, unless that fails, and takes a place. */
  ghost predicate PlacedFor(db: Db, t: Db, production: bool, o: OrderId, q: Request, activateFails: bool) {
    && |t.accounts| == |db.accounts| + 1 && t.accounts[..|db.accounts|] == db.accounts
    && var a := t.accounts[|db.accounts|]; var k := a.server;
       && a.entitlement == q.entitlement && a.order == o && a.domain == q.domain && a.username == q.username
       && k < |db.servers| && HasRoom(db.servers[k], production)
       && (forall s :: s in db.servers && HasRoom(s, production) ==> db.servers[k].activeAccounts <= s.activeAccounts)
       && a.status == (if db.servers[k].provider == MOCK && !activateFails then ACTIVE else PROVISIONING)
       && t.servers == if a.status == ACTIVE
            then db.servers[k := db.servers[k].(activeAccounts := db.servers[k].activeAccounts + 1)] else db.servers
  }

  lemma OnePlaces(db: Db, production: bool, o: OrderId, q: Request, io: Io, t: Step)
    requires NothingInTheWay(db, production, q, io.createFails) && t == ProvisionOne(db, production, o, q, io)
    ensures t.Next? && PlacedFor(db, t.db, production, o, q, io.activateFails)
    ensures t.provisioned == if t.db.accounts[|db.accounts|].status == ACTIVE then 1 else 0
  {
    var s :| s in db.servers && HasRoom(s, production);
    var j :| 0 <= j < |db.servers| && db.servers[j] == s;
    assert Eligible(db.servers[j], production);
    assert !HasEntitlement(db.accounts, q.entitlement) && !Collides(db.accounts, q);
  }

  /** In development with no room anywhere a simulated server of 500 places is added, unless its host name is taken, and
      the account goes there. */
  lemma OneSeeds(db: Db, o: OrderId, q: Request, activateFails: bool, t: Step)
    requires (forall s :: s in db.servers ==> !HasRoom(s, false) && s.hostname != 0)
    requires (forall a :: a in db.accounts ==> a.entitlement != q.entitlement && a.domain != q.domain && a.username != q.username)
    requires t == ProvisionOne(db, false, o, q, Io(false, activateFails))
    ensures var n := if activateFails then 0 else 1;
      t == Next(Db(db.servers + [Server(0, MOCK, 500, n, true)],
                   db.accounts + [Account(|db.servers|, q.entitlement, o, q.domain, q.username,
                                          if activateFails then PROVISIONING else ACTIVE)]),
                Some(|db.servers|), n)
  {
    var pick := PickServer(db.servers, false);
    forall j | 0 <= j < |db.servers| ensures !Eligible(db.servers[j], false) {
      assert !HasRoom(db.servers[j], false);
    }
    forall j | 0 <= j < |db.servers| ensures db.servers[j].hostname != SEED_HOSTNAME {
      assert db.servers[j] in db.servers;
    }
    var servers := db.servers + [SEED];
    var accounts := db.accounts + [Account(|db.servers|, q.entitlement, o, q.domain, q.username, PROVISIONING)];
    assert !HasEntitlement(db.accounts, q.entitlement) && !Collides(db.accounts, q);
    assert servers[|db.servers| := SEED.(activeAccounts := 1)] == db.servers + [Server(0, MOCK, 500, 1, true)];
    assert accounts[|db.accounts| := accounts[|db.accounts|].(status := ACTIVE)] ==
      db.accounts + [Account(|db.servers|, q.entitlement, o, q.domain, q.username, ACTIVE)];
  }

  /** An iteration that leaves its entitlement without an account and does not throw. */
  lemma OneLeaves(db: Db, production: bool, o: OrderId, q: Request, io: Io, t: Step)
    requires t == ProvisionOne(db, production, o, q, io)
    ensures t.Thrown? <==>
      && !production && (forall a :: a in db.accounts ==> a.entitlement != q.entitlement)
      && (forall s :: s in db.servers ==> !HasRoom(s, production)) && (exists s :: s in db.servers && s.hostname == 0)
    ensures t.Next? && (forall a :: a in t.db.accounts ==> a.entitlement != q.entitlement) ==>
      || (production && forall s :: s in db.servers ==> !HasRoom(s, production))
      || io.createFails || (exists a :: a in db.accounts && (a.domain == q.domain || a.username == q.username))
  {
    var pick := PickServer(db.servers, production);
    if pick.None? {
      forall s | s in db.servers ensures !HasRoom(s, production) {
        var j :| 0 <= j < |db.servers| && db.servers[j] == s;
        assert !Eligible(db.servers[j], production);
      }
      if s :| s in db.servers && s.hostname == 0 {
        var j :| 0 <= j < |db.servers| && db.servers[j] == s;
        assert db.servers[j].hostname == SEED_HOSTNAME;
      }
    } else {
      assert HasRoom(db.servers[pick.value], production) && db.servers[pick.value] in db.servers;
    }
    if t.Next? && |t.db.accounts| > |db.accounts| {
      assert t.db.accounts[|db.accounts|] in t.db.accounts;
    }
  }

  ghost function Active(accounts: seq<Account>): nat {
    if accounts == [] then 0 else Active(accounts[..|accounts| - 1]) + if accounts[|accounts| - 1].status.ACTIVE? then 1 else 0
  }

  lemma ActiveSnoc(accounts: seq<Account>, a: Account)
    ensures Active(accounts + [a]) == Active(accounts) + if a.status.ACTIVE? then 1 else 0
  {
    assert (accounts + [a])[..|accounts|] == accounts;
  }

  lemma OneCounts(db: Db, production: bool, o: OrderId, q: Request, io: Io, t: Step)
    requires t == ProvisionOne(db, production, o, q, io)
    ensures Active(t.db.accounts) == Active(db.accounts) + if t.Next? then t.provisioned else 0
  {
    if |t.db.accounts| > |db.accounts| {
      var a := t.db.accounts[|db.accounts|];
      assert t.db.accounts == db.accounts + [a];
      ActiveSnoc(db.accounts, a);
    } else {
      assert t.db.accounts == db.accounts;
    }
  }

  /** The number a call returns is that of the accounts it made active. */
  lemma {:induction false} CountIsActive(db: Db, production: bool, o: OrderId, qs: seq<Request>, io: nat -> Io)
    ensures var p := Provision(db, production, o, qs, io); p.count == Active(p.db.accounts) - Active(db.accounts)
  {
    if qs != [] {
      var n := |qs| - 1;
      CountIsActive(db, production, o, qs[..n], io);
      var p := Provision(db, production, o, qs[..n], io);
      if !p.thrown {
        OneCounts(p.db, production, o, qs[n], io(n), ProvisionOne(p.db, production, o, qs[n], io(n)));
      }
    }
  }

  ghost function ServersFrom(accounts: seq<Account>, n: nat): set<nat> {
    set i | n <= i < |accounts| :: accounts[i].server
  }

  lemma ServersFromSnoc(accounts: seq<Account>, a: Account, n: nat)
    requires n <= |accounts|
    ensures ServersFrom(accounts + [a], n) == ServersFrom(accounts, n) + {a.server}
  {
    var t := accounts + [a];
    assert t[|accounts|] == a;
    assert forall i :: 0 <= i < |accounts| ==> t[i] == accounts[i];
  }

  /** The servers it reports as placed on are those of the accounts it added. */
  lemma {:induction false} PlacedAre(db: Db, production: bool, o: OrderId, qs: seq<Request>, io: nat -> Io)
    ensures var p := Provision(db, production, o, qs, io);
      |db.accounts| <= |p.db.accounts| && p.placed == ServersFrom(p.db.accounts, |db.accounts|)
  {
    if qs != [] {
      var n := |qs| - 1;
      PlacedAre(db, production, o, qs[..n], io);
      var p := Provision(db, production, o, qs[..n], io);
      var step := ProvisionOne(p.db, production, o, qs[n], io(n));
      if !p.thrown && |step.db.accounts| > |p.db.accounts| {
        var a := step.db.accounts[|p.db.accounts|];
        assert step.db.accounts == p.db.accounts + [a];
        ServersFromSnoc(p.db.accounts, a, |db.accounts|);
      }
    }
  }

  /** A call that does not throw visits every entitlement: afterwards it has an account, unless at its turn no server
      had room in production, or its account could not be created. */
  lemma {:induction false} EveryEntitlementIsVisited(db: Db, production: bool, o: OrderId, qs: seq<Request>, io: nat -> Io, i: nat)
    requires i < |qs| && !Provision(db, production, o, qs, io).thrown
    ensures !Provision(db, production, o, qs[..i], io).thrown
    ensures var p, t := Provision(db, production, o, qs[..i], io).db, Provision(db, production, o, qs, io).db;
      || (exists a :: a in t.accounts && a.entitlement == qs[i].entitlement)
      || (production && forall s :: s in p.servers ==> !HasRoom(s, production))
      || io(i).createFails || (exists a :: a in p.accounts && (a.domain == qs[i].domain || a.username == qs[i].username))
  {
    var n := |qs| - 1;
    var p := Provision(db, production, o, qs[..n], io);
    if i == n {
      OneLeaves(p.db, production, o, qs[n], io(n), ProvisionOne(p.db, production, o, qs[n], io(n)));
    } else {
      assert qs[..n][..i] == qs[..i];
      EveryEntitlementIsVisited(db, production, o, qs[..n], io, i);
      OneNeverRevisits(p.db, production, o, qs[n], io(n));
      var t := Provision(db, production, o, qs, io).db;
      assert p.db.accounts <= t.accounts;
      if a :| a in p.db.accounts && a.entitlement == qs[i].entitlement {
        var k :| 0 <= k < |p.db.accounts| && p.db.accounts[k] == a;
        assert t.accounts[k] == a;
      }
    }
  }

  // ----- serial runs

  datatype Action =
    | ProvisionCall(o: OrderId, qs: seq<Request>, io: nat -> Io)
    | SuspendOrderCall(o: OrderId)
    | SuspendEntitlementCall(e: EntitlementId)

  /** placed (history variable): every server that received a placement. */
  datatype State = State(db: Db, placed: set<nat>)

  ghost function Apply(production: bool, s: State, a: Action): State {
    match a
    case ProvisionCall(o, qs, io) =>
      var p := Provision(s.db, production, o, qs, io);
      State(p.db, s.placed + p.placed)
    case SuspendOrderCall(o) => s.(db := SuspendOrder(s.db, o))
    case SuspendEntitlementCall(e) => s.(db := SuspendEntitlement(s.db, e))
  }

  ghost function Exec(production: bool, s: State, run: seq<Action>): State
    decreases |run|
  {
    if run == [] then s else Exec(production, Apply(production, s, run[0]), run[1..])
  }

  lemma SuspensionKeepsInv(db: Db, t: Db)
    requires Inv(db) && t.servers == db.servers && |t.accounts| == |db.accounts|
    requires forall i :: 0 <= i < |db.accounts| ==> t.accounts[i] == db.accounts[i] || t.accounts[i] == Suspend(db.accounts[i])
    ensures Inv(t)
  {
    forall k | 0 <= k < |t.servers| ensures ServerInv(t, k) {
      assert ServerInv(db, k);
      PlacesSame(db.accounts, t.accounts, k);
    }
  }

  lemma StepKeeps(production: bool, s: State, a: Action)
    requires Inv(s.db) && Even(s.db, production, s.placed)
    ensures var t := Apply(production, s, a);
      && Inv(t.db) && |t.db.servers| >= |s.db.servers|
      && (|t.db.servers| == |s.db.servers| ==> Even(t.db, production, t.placed))
  {
    match a {
      case ProvisionCall(o, qs, io) => ProvisionKeeps(s.db, production, o, qs, io, s.placed);
      case SuspendOrderCall(o) => SuspensionKeepsInv(s.db, SuspendOrder(s.db, o));
      case SuspendEntitlementCall(e) => SuspensionKeepsInv(s.db, SuspendEntitlement(s.db, e));
    }
  }

  lemma {:induction false} PoolGrows(production: bool, s: State, run: seq<Action>)
    requires Inv(s.db)
    ensures Inv(Exec(production, s, run).db) && |Exec(production, s, run).db.servers| >= |s.db.servers|
    decreases |run|
  {
    if run != [] {
      var none := State(s.db, {});
      StepKeeps(production, none, run[0]);
      assert Apply(production, none, run[0]).db == Apply(production, s, run[0]).db;
      PoolGrows(production, Apply(production, s, run[0]), run[1..]);
    }
  }

  /** The allocator's guarantee over every serial run: no server is overfilled, the counter of a simulated
      server is the number of its active and suspended accounts, and over a fixed pool every server that
      received a placement has at most one account more than any server with room. */
  lemma {:induction false} AllocatorGuarantee(production: bool, s: State, run: seq<Action>)
    requires Inv(s.db) && Even(s.db, production, s.placed)
    ensures var t := Exec(production, s, run);
      && (forall k :: 0 <= k < |t.db.servers| ==> ServerInv(t.db, k))
      && (forall i, j :: 0 <= i < j < |t.db.accounts| ==> t.db.accounts[i].entitlement != t.db.accounts[j].entitlement)
      && (|t.db.servers| == |s.db.servers| ==> Even(t.db, production, t.placed))
    decreases |run|
  {
    PoolGrows(production, s, run);
    if run != [] {
      var m := Apply(production, s, run[0]);
      StepKeeps(production, s, run[0]);
      PoolGrows(production, m, run[1..]);
      if |m.db.servers| == |s.db.servers| {
        AllocatorGuarantee(production, m, run[1..]);
      }
    }
  }

  /** An account that was left PROVISIONING stays as it is in every later run of the worker. */
  lemma {:induction false} StuckForever(production: bool, s: State, run: seq<Action>, i: nat)
    requires i < |s.db.accounts| && s.db.accounts[i].status.PROVISIONING?
    ensures var t := Exec(production, s, run); i < |t.db.accounts| && t.db.accounts[i] == s.db.accounts[i]
    decreases |run|
  {
    if run != [] {
      if run[0].ProvisionCall? { ProvisionNeverRevisits(s.db, production, run[0].o, run[0].qs, run[0].io); }
      StuckForever(production, Apply(production, s, run[0]), run[1..], i);
    }
  }

  /** Suspension takes the active accounts it is for, all of them, and leaves the others as they are. */
  lemma SuspensionIs(db: Db, o: OrderId, e: EntitlementId)
    ensures var t := SuspendOrder(db, o);
      && t.servers == db.servers && |t.accounts| == |db.accounts|
      && (forall i :: 0 <= i < |db.accounts| ==>
           var a := db.accounts[i];
           t.accounts[i] == if a.order == o && a.status == ACTIVE then a.(status := SUSPENDED) else a)
    ensures var t := SuspendEntitlement(db, e);
      && t.servers == db.servers && |t.accounts| == |db.accounts|
      && (forall i :: 0 <= i < |db.accounts| ==>
           var a := db.accounts[i];
           t.accounts[i] == if a.entitlement == e && a.status == ACTIVE then a.(status := SUSPENDED) else a)
  {
  }

  /** Accounts are only added, and none moves to another server. */
  ghost predicate Appended(x: Db, y: Db) {
    |x.accounts| <= |y.accounts| && forall i :: 0 <= i < |x.accounts| ==> y.accounts[i].server == x.accounts[i].server
  }

  lemma StepAppends(production: bool, s: State, a: Action, t: State)
    requires t == Apply(production, s, a)
    ensures Appended(s.db, t.db) && t.placed == s.placed + ServersFrom(t.db.accounts, |s.db.accounts|)
  {
    match a {
      case ProvisionCall(o, qs, io) =>
        ProvisionNeverRevisits(s.db, production, o, qs, io);
        PlacedAre(s.db, production, o, qs, io);
      case SuspendOrderCall(o) =>
        SuspensionIs(s.db, o, 0);
        assert ServersFrom(t.db.accounts, |s.db.accounts|) == {};
      case SuspendEntitlementCall(e) =>
        SuspensionIs(s.db, 0, e);
        assert ServersFrom(t.db.accounts, |s.db.accounts|) == {};
    }
  }

  lemma ServersFromSplits(x: Db, y: Db, z: Db)
    requires Appended(x, y) && Appended(y, z)
    ensures Appended(x, z)
    ensures ServersFrom(z.accounts, |x.accounts|) == ServersFrom(y.accounts, |x.accounts|) + ServersFrom(z.accounts, |y.accounts|)
  {
    forall i | |x.accounts| <= i < |y.accounts| ensures y.accounts[i].server in ServersFrom(z.accounts, |x.accounts|) {
      assert z.accounts[i].server == y.accounts[i].server;
    }
  }

  /** The servers a run placed on are those of the accounts it added. */
  lemma {:induction false} PlacedInRun(production: bool, s: State, run: seq<Action>)
    ensures var t := Exec(production, s, run);
      Appended(s.db, t.db) && t.placed == s.placed + ServersFrom(t.db.accounts, |s.db.accounts|)
    decreases |run|
  {
    if run != [] {
      var m := Apply(production, s, run[0]);
      StepAppends(production, s, run[0], m);
      PlacedInRun(production, m, run[1..]);
      ServersFromSplits(s.db, m.db, Exec(production, s, run).db);
    }
  }

  const ONE_SERVER := Db([Server(9, MOCK, 10, 0, true)], [])
  const ONE_REQUEST := Request(1, 1, 1)

  lemma FirstStep(fails: bool)
    ensures var t := ProvisionOne(ONE_SERVER, false, 1, ONE_REQUEST, Io(false, fails)).db;
      |t.accounts| == 1 && t.accounts[0].entitlement == 1 && t.accounts[0].status == if fails then PROVISIONING else ACTIVE
  {
    assert ONE_SERVER.servers[..0] == [] && PickServer([], false) == None;
    assert PickServer(ONE_SERVER.servers, false) == Some(0);
    assert ONE_SERVER.accounts + [Account(0, 1, 1, 1, 1, PROVISIONING)] == [Account(0, 1, 1, 1, 1, PROVISIONING)];
  }

  lemma OneRequest(fails: bool)
    ensures var t := Provision(ONE_SERVER, false, 1, [ONE_REQUEST], n => Io(false, fails)).db;
      |t.accounts| == 1 && t.accounts[0].entitlement == 1 && t.accounts[0].status == if fails then PROVISIONING else ACTIVE
  {
    var io := n => Io(false, fails);
    assert [ONE_REQUEST][..0] == [];
    FirstStep(fails);
    assert Provision(ONE_SERVER, false, 1, [ONE_REQUEST], io) ==
      After(Provision(ONE_SERVER, false, 1, [], io), ProvisionOne(ONE_SERVER, false, 1, ONE_REQUEST, Io(false, fails)));
  }

  /** One simulated server, one entitlement: the activation fails once, the redelivery succeeds in everything it
      does, and the account is still PROVISIONING; without the failure it would have been ACTIVE at once. */
  lemma ActivationFailsOnce()
    ensures var s := State(ONE_SERVER, {}); var fails := ProvisionCall(1, [ONE_REQUEST], n => Io(false, true));
      var works := ProvisionCall(1, [ONE_REQUEST], n => Io(false, false));
      && |Exec(false, s, [fails, works]).db.accounts| == 1 && Exec(false, s, [fails, works]).db.accounts[0].status.PROVISIONING?
      && |Exec(false, s, [works]).db.accounts| == 1 && Exec(false, s, [works]).db.accounts[0].status.ACTIVE?
  {
    var s := State(ONE_SERVER, {});
    var fails, works := ProvisionCall(1, [ONE_REQUEST], n => Io(false, true)), ProvisionCall(1, [ONE_REQUEST], n => Io(false, false));
    OneRequest(true);
    OneRequest(false);
    var t := Apply(false, s, fails);
    assert [fails, works][1..] == [works] && [works][1..] == [];
    assert Exec(false, t, [works]) == Exec(false, Apply(false, t, works), []);
    StuckForever(false, t, [works], 0);
    ProvisionNeverRevisits(t.db, false, 1, [ONE_REQUEST], works.io);
    assert t.db.accounts[0].entitlement == ONE_REQUEST.entitlement;
    assert HasEntitlement(t.db.accounts, ONE_REQUEST.entitlement);
  }

  /** The first n active accounts of an order suspended, in table order. */
  ghost function SuspendUpTo(accounts: seq<Account>, o: OrderId, n: nat): (r: seq<Account>)
    ensures |r| == |accounts|
  {
    if accounts == [] then []
    else
      var k := |accounts| - 1;
      var a := accounts[k];
      SuspendUpTo(accounts[..k], o, n) + [if a.order == o && ActiveOf(accounts[..k], o) < n then Suspend(a) else a]
  }

  /** Without a transaction that throws these are all of them. */
  lemma {:induction false} SuspendUpToAll(accounts: seq<Account>, o: OrderId, n: nat)
    requires n >= ActiveOf(accounts, o)
    ensures SuspendUpTo(accounts, o, n) == seq(|accounts|, i requires 0 <= i < |accounts| =>
      if accounts[i].order == o then Suspend(accounts[i]) else accounts[i])
  {
    if accounts != [] { SuspendUpToAll(accounts[..|accounts| - 1], o, n); }
  }

  /** n of the order's active accounts are suspended, or all of them if there are no more; nothing else is touched. */
  ghost predicate Suspended(x: seq<Account>, t: seq<Account>, o: OrderId, n: nat) {
    && |t| == |x|
    && ActiveOf(t, o) == (if n < ActiveOf(x, o) then ActiveOf(x, o) - n else 0)
    && (forall i :: 0 <= i < |x| ==>
         || (t[i] == x[i] && (n < ActiveOf(x, o) || x[i].order != o || x[i].status != ACTIVE))
         || (t[i] == x[i].(status := SUSPENDED) && x[i].order == o && x[i].status == ACTIVE))
  }

  lemma {:induction false} SuspendsUpTo(accounts: seq<Account>, o: OrderId, n: nat)
    ensures Suspended(accounts, SuspendUpTo(accounts, o, n), o, n)
  {
    if accounts != [] {
      var k := |accounts| - 1;
      SuspendsUpTo(accounts[..k], o, n);
      var t := SuspendUpTo(accounts, o, n);
      assert t[..k] == SuspendUpTo(accounts[..k], o, n);
    }
  }

  // ----- the processor

  lemma OneMoreEntitlement(db: Db, production: bool, o: OrderId, qs: seq<Request>, io: nat -> Io, i: nat, p: Progress)
    requires i < |qs| && p == Provision(db, production, o, qs[..i], io) && !p.thrown
    ensures Provision(db, production, o, qs[..i + 1], io) == After(p, ProvisionOne(p.db, production, o, qs[i], io(i)))
  {
    assert qs[..i + 1][..i] == qs[..i];
  }

  lemma {:induction false} StaysThrown(db: Db, production: bool, o: OrderId, qs: seq<Request>, io: nat -> Io, n: nat)
    requires n <= |qs| && Provision(db, production, o, qs[..n], io).thrown
    ensures Provision(db, production, o, qs, io) == Provision(db, production, o, qs[..n], io)
  {
    if n < |qs| {
      assert qs[..|qs| - 1][..n] == qs[..n];
      StaysThrown(db, production, o, qs[..|qs| - 1], io, n);
    } else {
      assert qs[..n] == qs;
    }
  }

  class HostingTables {
    var servers: seq<Server>
    var accounts: seq<Account>

    ghost function State(): Db
      reads this
    {
      Db(servers, accounts)
    }

    /** The statements of one iteration; placed is history, provisioned is what the counter gains. */
    method ProvisionEntitlement(production: bool, orderId: OrderId, q: Request, io: Io)
      returns (thrown: bool, provisioned: nat, ghost placed: set<nat>)
      modifies this
      ensures match ProvisionOne(old(State()), production, orderId, q, io)
        case Thrown(t) => thrown && State() == t
        case Next(t, k, c) => !thrown && State() == t && provisioned == c && placed == if k.Some? then {k.value} else {}
      ensures (exists a :: a in old(accounts) && a.entitlement == q.entitlement) ==>
        !thrown && State() == old(State()) && provisioned == 0
      ensures NothingInTheWay(old(State()), production, q, io.createFails) ==>
        && !thrown && PlacedFor(old(State()), State(), production, orderId, q, io.activateFails)
        && provisioned == if accounts[|old(accounts)|].status == ACTIVE then 1 else 0
    {
      if NothingInTheWay(State(), production, q, io.createFails) {
        OnePlaces(State(), production, orderId, q, io, ProvisionOne(State(), production, orderId, q, io));
      }
      thrown, provisioned, placed := false, 0, {};
      if HasEntitlement(accounts, q.entitlement) { return; }
      var pick := PickServer(servers, production);
      if pick.None? {
        if production { return; }
        if exists j :: 0 <= j < |servers| && servers[j].hostname == SEED_HOSTNAME {
          thrown := true;
          return;
        }
        servers := servers + [SEED];
      }
      var server := if pick.None? then |servers| - 1 else pick.value;
      if Collides(accounts, q) || io.createFails { return; }
      accounts := accounts + [Account(server, q.entitlement, orderId, q.domain, q.username, PROVISIONING)];
      placed := {server};
      if !servers[server].provider.MOCK? || io.activateFails { return; }
      var account := |accounts| - 1;
      accounts := accounts[account := accounts[account].(status := ACTIVE)];
      servers := servers[server := servers[server].(activeAccounts := servers[server].activeAccounts + 1)];
      provisioned := 1;
    }

    /** qs are the order's hosting entitlements; thrown when seeding a simulated server fails. */
    method ProcessHostingProvisioningForOrder(production: bool, orderId: OrderId, qs: seq<Request>, io: nat -> Io)
      returns (thrown: bool, provisionedCount: nat, ghost placed: set<nat>)
      modifies this
      ensures Progress(State(), placed, provisionedCount, thrown) == Provision(old(State()), production, orderId, qs, io)
      ensures provisionedCount == Active(accounts) - Active(old(accounts))
    {
      CountIsActive(State(), production, orderId, qs, io);
      thrown, provisionedCount, placed := false, 0, {};
      ghost var p := Progress(State(), {}, 0, false);
      for i := 0 to |qs|
        invariant p == Progress(State(), placed, provisionedCount, thrown) && !thrown
        invariant p == Provision(old(State()), production, orderId, qs[..i], io)
      {
        OneMoreEntitlement(old(State()), production, orderId, qs, io, i, p);
        p := After(p, ProvisionOne(p.db, production, orderId, qs[i], io(i)));
        var provisioned;
        ghost var more;
        thrown, provisioned, more := ProvisionEntitlement(production, orderId, qs[i], io(i));
        if thrown {
          StaysThrown(old(State()), production, orderId, qs, io, i + 1);
          return;
        }
        provisionedCount, placed := provisionedCount + provisioned, placed + more;
      }
      assert qs[..|qs|] == qs;
    }

    method SuspendEach(orderId: OrderId, stop: nat) returns (thrown: bool, suspendedCount: nat)
      modifies this`accounts
      ensures accounts == SuspendUpTo(old(accounts), orderId, stop)
      ensures thrown <==> stop < ActiveOf(old(accounts), orderId)
      ensures !thrown ==> suspendedCount == ActiveOf(old(accounts), orderId)
    {
      thrown, suspendedCount := false, 0;
      var n := |accounts|;
      ghost var was := accounts;
      for i := 0 to n
        invariant |accounts| == n && forall k :: i <= k < n ==> accounts[k] == was[k]
        invariant accounts[..i] == SuspendUpTo(was[..i], orderId, stop)
        invariant thrown <==> stop < ActiveOf(was[..i], orderId)
        invariant !thrown ==> suspendedCount == ActiveOf(was[..i], orderId)
      {
        assert was[..i + 1][..i] == was[..i];
        var before := accounts[..i];
        if !thrown && accounts[i].order == orderId && accounts[i].status.ACTIVE? {
          if suspendedCount == stop {
            thrown := true;
          } else {
            accounts := accounts[i := accounts[i].(status := SUSPENDED)];
            suspendedCount := suspendedCount + 1;
          }
        }
        assert accounts[..i + 1] == before + [accounts[i]];
      }
      assert was[..n] == was && accounts[..n] == accounts;
    }

    /** Suspends the active accounts of an order one transaction at a time; stop is the number that commit before
        one throws, if one does. */
    method SuspendHostingAccountsForOrder(orderId: OrderId, stop: nat) returns (thrown: bool, suspendedCount: nat)
      modifies this`accounts
      ensures accounts == SuspendUpTo(old(accounts), orderId, stop) && Suspended(old(accounts), accounts, orderId, stop)
      ensures thrown <==> stop < ActiveOf(old(accounts), orderId)
      ensures !thrown ==> State() == SuspendOrder(old(State()), orderId) && suspendedCount == ActiveOf(old(accounts), orderId)
    {
      ghost var was := accounts;
      thrown, suspendedCount := SuspendEach(orderId, stop);
      SuspendsUpTo(was, orderId, stop);
      if !thrown { SuspendUpToAll(was, orderId, stop); }
    }

    /** Suspends the account of an entitlement if it is active. */
    method SuspendHostingForRevokedEntitlement(entitlement: EntitlementId) returns (done: bool)
      requires forall i, j :: 0 <= i < j < |accounts| ==> accounts[i].entitlement != accounts[j].entitlement
      modifies this`accounts
      ensures State() == SuspendEntitlement(old(State()), entitlement)
      ensures |accounts| == |old(accounts)| && forall i :: 0 <= i < |accounts| ==>
        var was := old(accounts)[i];
        accounts[i] == if was.entitlement == entitlement && was.status == ACTIVE then was.(status := SUSPENDED) else was
      ensures done <==> exists x :: x in old(accounts) && x.entitlement == entitlement && x.status.ACTIVE?
    {
      for i := 0 to |accounts|
        invariant accounts == old(accounts)
        invariant forall j :: 0 <= j < i ==> !(accounts[j].entitlement == entitlement && accounts[j].status.ACTIVE?)
      {
        if accounts[i].entitlement == entitlement && accounts[i].status.ACTIVE? {
          assert old(accounts)[i].status.ACTIVE?;
          accounts := accounts[i := accounts[i].(status := SUSPENDED)];
          return true;
        }
      }
      return false;
    }
  }
}
