/** The ORDER_PAID handler as the statements it sends: what each reads, keeps and writes, and what it
    achieves for its order once and for all. */
module OrderPaid {
  import opened Wrappers
  import A = Affiliate
  import H = Hosting
  import L = Ledger

  type OrderId = nat

  /** What is fixed during a run: orders, affiliates, the hosting entitlements of each order, and the flags. */
  datatype World = World(
    book: A.Book,
    orders: map<OrderId, L.Order>,
    requests: map<OrderId, seq<H.Request>>,
    affiliate: bool,
    hosting: bool,
    finance: bool,
    production: bool
  )

  /** missed (history variable): the hosting requests, each with its order, that a handler came to and left without an
      account, because no server was free or because the account could not be created. */
  datatype Tables = Tables(aff: A.Db, host: H.Db, led: L.Db, missed: seq<(OrderId, H.Request)>)

  /** Awaited statements of the handler. Issue and Email are idempotent and touch none of these tables. */
  datatype Op =
    | Issue | Email
    | AffRead | AffTx
    | HostCheck(q: H.Request) | HostPick(q: H.Request) | HostCreate(q: H.Request) | HostActivate
    | Invoice | LedRead | LedTx

  function HostOps(qs: seq<H.Request>): seq<Op> {
    if qs == [] then []
    else
      var q := qs[|qs| - 1];
      HostOps(qs[..|qs| - 1]) + [HostCheck(q), HostPick(q), HostCreate(q), HostActivate]
  }

  function AffOps(w: World): seq<Op> {
    if w.affiliate then [AffRead, AffTx] else []
  }

  function LedOps(w: World): seq<Op> {
    if w.finance then [Invoice, LedRead, LedTx] else []
  }

  function Program(w: World, o: OrderId): seq<Op> {
    [Issue, Email] + AffOps(w) + (if w.hosting && o in w.requests then HostOps(w.requests[o]) else []) + LedOps(w)
  }

  /** Where the loop stands with the current entitlement. */
  datatype Placing = Skip | Wanted | Chosen(server: nat) | Created(account: nat)

  /** What the handler remembers: the referral it is about to create, the placement, the tax and the guard it read. */
  datatype Local = Local(referral: Option<A.Referral>, placing: Placing, tax: int, recorded: bool)

  const FRESH := Local(None, Skip, 0, false)

  /** A statement that is caught when it fails, and the random transaction id. */
  datatype Io = Io(fails: bool, txn: nat)

  datatype Effect = Ok(tables: Tables, local: Local) | Raises

  function RunAff(w: World, t: Tables, l: Local, o: OrderId, op: Op, now: nat): Effect
    requires op.AffRead? || op.AffTx?
  {
    if op.AffRead? then
      var r := A.Resolve(w.book, o);
      Ok(t, l.(referral := if r.None? || A.Find(t.aff.referrals, o).Some? then None
                           else Some(A.Referral(r.value.0, o, r.value.1, A.PENDING, now + A.HOLD_MS))))
    else if l.referral.None? then Ok(t, l)
    else
      var r := l.referral.value;
      match A.CreateTx(t.aff, r.affiliate, r.order, r.commission, r.matureAt)
      case None => Raises
      case Some(aff) => Ok(t.(aff := aff), l)
  }

  function Pick(w: World, db: H.Db): Option<(H.Db, Placing)> {
    var pick := H.PickServer(db.servers, w.production);
    if pick.Some? then Some((db, Chosen(pick.value)))
    else if w.production then Some((db, Skip))
    else if exists j :: 0 <= j < |db.servers| && db.servers[j].hostname == H.SEED_HOSTNAME then None
    else Some((db.(servers := db.servers + [H.SEED]), Chosen(|db.servers|)))
  }

  /** Skipping the entitlement at this point is put on record. */
  function Misses(t: Tables, p: Placing, o: OrderId, q: H.Request): Tables {
    if p.Skip? then t.(missed := t.missed + [(o, q)]) else t
  }

  predicate ValidPlacing(db: H.Db, p: Placing) {
    && (p.Chosen? ==> p.server < |db.servers|)
    && (p.Created? ==> p.account < |db.accounts| && db.accounts[p.account].server < |db.servers|)
  }

  function RunHost(w: World, t: Tables, l: Local, o: OrderId, op: Op, io: Io): Effect
    requires op.HostCheck? || op.HostPick? || op.HostCreate? || op.HostActivate?
    requires ValidPlacing(t.host, l.placing)
  {
    match op
    case HostCheck(q) => Ok(t, l.(placing := if H.HasEntitlement(t.host.accounts, q.entitlement) then Skip else Wanted))
    case HostPick(q) =>
      if !l.placing.Wanted? then Ok(t, l)
      else
        (match Pick(w, t.host)
         case None => Raises
         case Some(p) => Ok(Misses(t, p.1, o, q).(host := p.0), l.(placing := p.1)))
    case HostCreate(q) =>
      if !l.placing.Chosen? then Ok(t, l)
      else if io.fails then Ok(Misses(t, Skip, o, q), l.(placing := Skip))
      else
        (match H.CreateAccount(t.host, l.placing.server, o, q)
         case None => Ok(Misses(t, Skip, o, q), l.(placing := Skip))
         case Some(db) => Ok(t.(host := db), l.(placing := Created(|t.host.accounts|))))
    case HostActivate =>
      if !l.placing.Created? || io.fails || !t.host.servers[t.host.accounts[l.placing.account].server].provider.MOCK? then Ok(t, l)
      else Ok(t.(host := H.Activate(t.host, l.placing.account)), l)
  }

  function RunLed(w: World, t: Tables, l: Local, o: OrderId, op: Op, io: Io): Effect
    requires op.Invoice? || op.LedRead? || op.LedTx?
  {
    if o !in w.orders then Ok(t, l)
    else
      match op
      case Invoice =>
        var led := L.EnsureInvoice(t.led, o);
        Ok(t.(led := led), l.(tax := L.TaxOf(led, o)))
      case LedRead => Ok(t, l.(recorded := L.Recorded(t.led.entries, o, L.Payment)))
      case LedTx =>
        if l.recorded then Ok(t, l)
        else
          match L.Build(L.Payment, io.txn, o, w.orders[o], l.tax)
          case None => Raises
          case Some(es) => Ok(t.(led := t.led.(entries := t.led.entries + es)), l)
  }

  function Run(w: World, t: Tables, l: Local, o: OrderId, op: Op, now: nat, io: Io): Effect
    requires ValidPlacing(t.host, l.placing)
  {
    match op
    case Issue => Ok(t, l)
    case Email => Ok(t, l)
    case AffRead => RunAff(w, t, l, o, op, now)
    case AffTx => RunAff(w, t, l, o, op, now)
    case Invoice => RunLed(w, t, l, o, op, io)
    case LedRead => RunLed(w, t, l, o, op, io)
    case LedTx => RunLed(w, t, l, o, op, io)
    case _ => RunHost(w, t, l, o, op, io)
  }

  // ----- the shape of the program

  lemma {:induction false} HostOpsAreHostOps(qs: seq<H.Request>, k: nat)
    requires k < |HostOps(qs)|
    ensures var op := HostOps(qs)[k]; op.HostCheck? || op.HostPick? || op.HostCreate? || op.HostActivate?
    ensures HostOps(qs)[k].HostPick? ==> 0 < k && HostOps(qs)[k - 1] == HostCheck(HostOps(qs)[k].q)
    ensures HostOps(qs)[k].HostCreate? ==> 0 < k && HostOps(qs)[k - 1] == HostPick(HostOps(qs)[k].q)
  {
    var n := |HostOps(qs[..|qs| - 1])|;
    if k < n { HostOpsAreHostOps(qs[..|qs| - 1], k); }
  }

  lemma {:induction false} HostOpsHas(qs: seq<H.Request>, i: nat) returns (k: nat)
    requires i < |qs|
    ensures k < |HostOps(qs)| && HostOps(qs)[k] == HostCreate(qs[i])
  {
    if i == |qs| - 1 {
      k := |HostOps(qs[..i])| + 2;
    } else {
      k := HostOpsHas(qs[..|qs| - 1], i);
    }
  }

  /** Each transaction directly follows the read that guards it, a read leads to its transaction, and an account is
      created right after the check and the choice of a server for the same entitlement. */
  lemma ReadsComeFirst(w: World, o: OrderId, k: nat)
    requires k < |Program(w, o)|
    ensures Program(w, o)[k].AffTx? <==> 0 < k && Program(w, o)[k - 1].AffRead?
    ensures Program(w, o)[k].LedTx? <==> 0 < k && Program(w, o)[k - 1].LedRead?
    ensures Program(w, o)[k].HostPick? ==> 0 < k && Program(w, o)[k - 1] == HostCheck(Program(w, o)[k].q)
    ensures Program(w, o)[k].HostCreate? ==> 0 < k && Program(w, o)[k - 1] == HostPick(Program(w, o)[k].q)
  {
    var host := if w.hosting && o in w.requests then HostOps(w.requests[o]) else [];
    var front := [Issue, Email] + AffOps(w);
    var p := Program(w, o);
    assert p == front + host + LedOps(w);
    forall j | |front| <= j < |front| + |host| ensures p[j] == host[j - |front|] {}
    if |front| <= k < |front| + |host| { HostOpsAreHostOps(w.requests[o], k - |front|); }
    if |front| <= k - 1 < |front| + |host| { HostOpsAreHostOps(w.requests[o], k - 1 - |front|); }
  }

  lemma ProgramHas(w: World, o: OrderId) returns (aff: nat, led: nat)
    ensures w.affiliate ==> aff < |Program(w, o)| && Program(w, o)[aff] == AffTx
    ensures w.finance ==> led < |Program(w, o)| && Program(w, o)[led] == LedTx
  {
    aff, led := 3, |Program(w, o)| - 1;
  }

  lemma ProgramVisits(w: World, o: OrderId, i: nat) returns (k: nat)
    requires w.hosting && o in w.requests && i < |w.requests[o]|
    ensures k < |Program(w, o)| && Program(w, o)[k] == HostCreate(w.requests[o][i])
  {
    var n := HostOpsHas(w.requests[o], i);
    var front := [Issue, Email] + AffOps(w);
    k := |front| + n;
    assert Program(w, o) == front + HostOps(w.requests[o]) + LedOps(w);
  }

  // ----- what a statement achieves

  ghost predicate HasReferral(rs: seq<A.Referral>, o: OrderId) {
    exists i :: 0 <= i < |rs| && rs[i].order == o
  }

  /** The entitlement of the request has an account, or a handler of the order came to it and had to leave it. */
  ghost predicate Visited(t: Tables, o: OrderId, q: H.Request) {
    H.HasEntitlement(t.host.accounts, q.entitlement) || (o, q) in t.missed
  }

  /** True after the statement has completed, from then on. */
  ghost predicate Achieved(w: World, t: Tables, o: OrderId, op: Op) {
    match op
    case AffTx => A.Resolve(w.book, o).Some? ==> HasReferral(t.aff.referrals, o)
    case LedTx => o in w.orders ==> L.Recorded(t.led.entries, o, L.Payment)
    case HostCreate(q) => Visited(t, o, q)
    case _ => true
  }

  /** Referrals, accounts and ledger rows stay; their statuses and balances may move. */
  ghost predicate Grows(t: Tables, t': Tables) {
    && |t.aff.referrals| <= |t'.aff.referrals|
    && (forall i :: 0 <= i < |t.aff.referrals| ==> t'.aff.referrals[i].order == t.aff.referrals[i].order)
    && t.led.entries <= t'.led.entries
    && |t.host.accounts| <= |t'.host.accounts|
    && (forall i :: 0 <= i < |t.host.accounts| ==> t'.host.accounts[i].entitlement == t.host.accounts[i].entitlement)
    && t.missed <= t'.missed
  }

  lemma VisitedStays(t: Tables, t': Tables, o: OrderId, q: H.Request)
    requires Visited(t, o, q) && Grows(t, t')
    ensures Visited(t', o, q)
  {
    if (o, q) in t.missed {
      var i :| 0 <= i < |t.missed| && t.missed[i] == (o, q);
      assert t'.missed[i] == t.missed[i];
    } else {
      var i :| 0 <= i < |t.host.accounts| && t.host.accounts[i].entitlement == q.entitlement;
      assert t'.host.accounts[i].entitlement == q.entitlement;
    }
  }

  lemma AchievedStays(w: World, t: Tables, t': Tables, o: OrderId, op: Op)
    requires Achieved(w, t, o, op) && Grows(t, t')
    ensures Achieved(w, t', o, op)
  {
    if op.AffTx? && HasReferral(t.aff.referrals, o) {
      var i :| 0 <= i < |t.aff.referrals| && t.aff.referrals[i].order == o;
      assert t'.aff.referrals[i].order == o;
    }
    if op.LedTx? && L.Recorded(t.led.entries, o, L.Payment) {
      var i :| 0 <= i < |t.led.entries| && t.led.entries[i].order == o && t.led.entries[i].account == L.Guard(L.Payment);
      assert t'.led.entries[i] == t.led.entries[i];
    }
    if op.HostCreate? { VisitedStays(t, t', o, op.q); }
  }

  /** What a handler knows between statements: having read that a transaction is not needed, it is not; the referral
      it is about to create is the one the order calls for; and it leaves an entitlement only when that has an account
      or is on record as missed. */
  ghost predicate Knows(w: World, t: Tables, l: Local, o: OrderId, last: Op) {
    && (last.AffRead? ==>
         if l.referral.None? then Achieved(w, t, o, AffTx)
         else A.Resolve(w.book, o) == Some((l.referral.value.affiliate, l.referral.value.commission)) && l.referral.value.order == o)
    && (last.LedRead? ==> l.recorded ==> Achieved(w, t, o, LedTx))
    && (last.HostCheck? ==> l.placing.Wanted? || Visited(t, o, last.q))
    && (last.HostPick? ==> l.placing.Chosen? || Visited(t, o, last.q))
  }

  /** Accounts and servers are never removed. */
  ghost predicate HostGrows(x: H.Db, y: H.Db) {
    |x.servers| <= |y.servers| && |x.accounts| <= |y.accounts|
  }

  // ----- what holds of the tables

  /** The referral is for an account that earns from its order, which is active and not the buyer's, and carries that
      account's share of the order's total. */
  ghost predicate Right(b: A.Book, r: A.Referral) {
    && A.Earns(b, r.order, r.affiliate)
    && b.profiles[r.affiliate].userId != b.orders[r.order].userId && b.profiles[r.affiliate].status == A.AFF_ACTIVE
    && r.commission == A.CommissionMinor(b.orders[r.order].totalAmount, b.profiles[r.affiliate].commissionRateBp)
  }

  /** At most one referral per order, and the one the order calls for. */
  ghost predicate AffInv(w: World, db: A.Db) {
    && A.WellFormed(db)
    && (forall i :: 0 <= i < |db.referrals| ==> Right(w.book, db.referrals[i]))
  }

  ghost predicate HostInv(db: H.Db) {
    && (forall i :: 0 <= i < |db.accounts| ==> db.accounts[i].server < |db.servers|)
    && (forall i, j :: 0 <= i < j < |db.accounts| ==> db.accounts[i].entitlement != db.accounts[j].entitlement)
  }

  ghost predicate LedInv(db: L.Db) {
    L.Balance(db.entries) == 0 && forall o :: o in db.invoices ==> db.invoices[o] >= 0
  }

  ghost predicate TablesInv(w: World, t: Tables) {
    AffInv(w, t.aff) && HostInv(t.host) && LedInv(t.led)
  }

  ghost predicate LocalInv(t: Tables, l: Local) {
    ValidPlacing(t.host, l.placing) && l.tax >= 0
  }

  lemma AffStep(w: World, t: Tables, l: Local, o: OrderId, op: Op, now: nat)
    requires AffInv(w, t.aff) && (op.AffRead? || op.AffTx?)
    requires op.AffTx? ==> Knows(w, t, l, o, AffRead)
    requires RunAff(w, t, l, o, op, now).Ok?
    ensures var r := RunAff(w, t, l, o, op, now);
      && AffInv(w, r.tables.aff) && (A.Consistent(t.aff) ==> A.Consistent(r.tables.aff))
      && Grows(t, r.tables) && r.tables.host == t.host && r.tables.led == t.led
      && r.local.placing == l.placing && r.local.tax == l.tax && r.local.recorded == l.recorded
      && Achieved(w, r.tables, o, op) && Knows(w, r.tables, r.local, o, op)
  {
    var r := RunAff(w, t, l, o, op, now);
    if op.AffRead? {
      var f := A.Find(t.aff.referrals, o);
      if f.Some? { assert t.aff.referrals[f.value].order == o; }
    } else if l.referral.Some? {
      var x := l.referral.value;
      A.ResolveIff(w.book, o, x.affiliate, x.commission);
      if A.Consistent(t.aff) { A.CreateConserves(t.aff, x.affiliate, x.order, x.commission, x.matureAt); }
      var rs := r.tables.aff.referrals;
      assert rs[|rs| - 1].order == o;
    }
  }

  lemma HostStep(w: World, t: Tables, l: Local, o: OrderId, op: Op, io: Io)
    requires op.HostCheck? || op.HostPick? || op.HostCreate? || op.HostActivate?
    requires HostInv(t.host) && LocalInv(t, l)
    requires op.HostPick? ==> Knows(w, t, l, o, HostCheck(op.q))
    requires op.HostCreate? ==> Knows(w, t, l, o, HostPick(op.q))
    requires RunHost(w, t, l, o, op, io).Ok?
    ensures var r := RunHost(w, t, l, o, op, io);
      && HostInv(r.tables.host) && r.tables.aff == t.aff && r.tables.led == t.led && LocalInv(r.tables, r.local)
      && HostGrows(t.host, r.tables.host) && Grows(t, r.tables)
      && Achieved(w, r.tables, o, op) && Knows(w, r.tables, r.local, o, op)
  {
    var r := RunHost(w, t, l, o, op, io);
    if op.HostPick? && l.placing.Wanted? && r.local.placing.Skip? {
      assert r.tables.missed[|t.missed|] == (o, op.q);
    }
    if op.HostCreate? && l.placing.Chosen? {
      if r.local.placing.Skip? {
        assert r.tables.missed[|t.missed|] == (o, op.q);
      } else {
        assert r.tables.host.accounts[|t.host.accounts|].entitlement == op.q.entitlement;
      }
    }
  }

  /** What the hosting statements do for an entitlement when nothing stands in the way: the choice is a real server when
      in production, active, with room, and none such has fewer accounts; the account is the order's, for the
      entitlement, its domain and its user name, on the chosen server; the activation takes a place there. */
  lemma HostingMeans(w: World, t: Tables, l: Local, o: OrderId, q: H.Request, io: Io)
    requires ValidPlacing(t.host, l.placing)
    ensures l.placing.Wanted? && (exists s :: s in t.host.servers && H.Eligible(s, w.production)) ==>
      var r := RunHost(w, t, l, o, HostPick(q), io);
      && r.Ok? && r.tables == t && r.local.placing.Chosen? && r.local.placing.server < |t.host.servers|
      && var k := t.host.servers[r.local.placing.server];
         && k.isActive && k.activeAccounts < k.maxAccounts && (w.production ==> k.provider != H.MOCK)
         && forall s :: s in t.host.servers && s.isActive && s.activeAccounts < s.maxAccounts && (w.production ==> s.provider != H.MOCK) ==>
              k.activeAccounts <= s.activeAccounts
    ensures l.placing.Wanted? && (forall s :: s in t.host.servers ==> !H.HasRoom(s, w.production)) ==>
      var r := RunHost(w, t, l, o, HostPick(q), io);
      if w.production then r == Ok(t.(missed := t.missed + [(o, q)]), l.(placing := Skip))
      else if exists s :: s in t.host.servers && s.hostname == 0 then r == Raises
      else r == Ok(t.(host := t.host.(servers := t.host.servers + [H.Server(0, H.MOCK, 500, 0, true)])),
                   l.(placing := Chosen(|t.host.servers|)))
    ensures l.placing.Chosen? && !io.fails && (forall a :: a in t.host.accounts ==>
        a.entitlement != q.entitlement && a.domain != q.domain && a.username != q.username) ==>
      RunHost(w, t, l, o, HostCreate(q), io) ==
        Ok(t.(host := t.host.(accounts := t.host.accounts +
                [H.Account(l.placing.server, q.entitlement, o, q.domain, q.username, H.PROVISIONING)])),
           l.(placing := Created(|t.host.accounts|)))
    ensures l.placing.Created? && !io.fails && t.host.servers[t.host.accounts[l.placing.account].server].provider.MOCK? ==>
      var i := l.placing.account; var k := t.host.accounts[i].server;
      RunHost(w, t, l, o, HostActivate, io) ==
        Ok(t.(host := H.Db(t.host.servers[k := t.host.servers[k].(activeAccounts := t.host.servers[k].activeAccounts + 1)],
                           t.host.accounts[i := t.host.accounts[i].(status := H.ACTIVE)])), l)
  {
    var pick := H.PickServer(t.host.servers, w.production);
    if s :| s in t.host.servers && H.Eligible(s, w.production) {
      var j :| 0 <= j < |t.host.servers| && t.host.servers[j] == s;
      assert pick.Some?;
    } else {
      forall j | 0 <= j < |t.host.servers| ensures !H.Eligible(t.host.servers[j], w.production) {
        assert !H.HasRoom(t.host.servers[j], w.production);
      }
      if s :| s in t.host.servers && s.hostname == 0 {
        var j :| 0 <= j < |t.host.servers| && t.host.servers[j] == s;
        assert t.host.servers[j].hostname == H.SEED_HOSTNAME;
      }
    }
  }

  lemma LedStep(w: World, t: Tables, l: Local, o: OrderId, op: Op, io: Io)
    requires op.Invoice? || op.LedRead? || op.LedTx?
    requires LedInv(t.led) && l.tax >= 0
    requires op.LedTx? ==> Knows(w, t, l, o, LedRead)
    requires RunLed(w, t, l, o, op, io).Ok?
    ensures var r := RunLed(w, t, l, o, op, io);
      && LedInv(r.tables.led) && r.tables.aff == t.aff && r.tables.host == t.host
      && r.tables.missed == t.missed && Grows(t, r.tables)
      && (r.tables.led.entries == t.led.entries
          || (op.LedTx? && o in w.orders && L.Build(L.Payment, io.txn, o, w.orders[o], l.tax).Some?
              && r.tables.led.entries == t.led.entries + L.Entries(L.Payment, io.txn, o, w.orders[o], l.tax)))
      && r.local.tax >= 0 && r.local.placing == l.placing && r.local.referral == l.referral
      && Achieved(w, r.tables, o, op) && Knows(w, r.tables, r.local, o, op)
  {
    if op.LedTx? && o in w.orders && !l.recorded {
      var es := L.Entries(L.Payment, io.txn, o, w.orders[o], l.tax);
      L.SumsOfConcat(t.led.entries, es, o, L.SALES_REVENUE);
      L.EntriesGuard(L.Payment, io.txn, o, w.orders[o], l.tax, L.Payment, o);
      L.RecordedConcat(t.led.entries, es, o, L.Payment);
    }
  }
}
