/** What the rest of the system does to the tables of the ORDER_PAID handler while workers run it: maturation,
    refunds, new affiliates, administration of hosting, invoices. Each is one transaction. */
module Outside {
  import opened Wrappers
  import opened OrderPaid
  import A = Affiliate
  import H = Hosting
  import L = Ledger

  /** Mature and Claw are the transactions of the other affiliate functions, Refer the API's own creation of a
      referral; SetAccount is any change of status (suspension, termination, activation by the API);
      Administer any change of the servers that removes none; Refund the posting of a refund; Sell the API's own
      posting of a payment, which has no guard. */
  datatype Change =
    | Mature(i: nat)
    | Claw(i: nat, read: A.ReferralStatus)
    | Refer(o: OrderId, matureAt: nat)
    | Join(a: A.AccountId)
    | SetAccount(i: nat, status: H.AccountStatus)
    | OpenAccount(server: nat, o: OrderId, q: H.Request)
    | Administer(servers: seq<H.Server>)
    | Bill(o: OrderId, tax: int)
    | Refund(o: OrderId, txn: nat, tax: int)
    | Sell(o: OrderId, txn: nat, tax: int, fee: int)

  /** A payment posting and the gateway's fee. */
  function Settlement(order: L.Order, o: OrderId, txn: nat, tax: int, fee: int): seq<L.Entry> {
    L.Entries(L.Payment, txn, o, order, tax) + L.FeeEntries(txn, o, fee)
  }

  ghost predicate CanChange(w: World, t: Tables, c: Change) {
    match c
    case Mature(i) => i < |t.aff.referrals| && t.aff.referrals[i].affiliate in t.aff.accounts
    case Claw(i, read) =>
      i < |t.aff.referrals| && t.aff.referrals[i].affiliate in t.aff.accounts && A.IsValidReferralTransition(read, A.REJECTED)
    case Refer(o, matureAt) =>
      var r := A.Resolve(w.book, o);
      r.Some? && A.CreateTx(t.aff, r.value.0, o, r.value.1, matureAt).Some?
    case Join(a) => a !in t.aff.accounts
    case SetAccount(i, _) => i < |t.host.accounts|
    case OpenAccount(server, o, q) => server < |t.host.servers| && H.CreateAccount(t.host, server, o, q).Some?
    case Administer(servers) => |t.host.servers| <= |servers|
    case Bill(o, tax) => o !in t.led.invoices && tax >= 0
    case Refund(o, txn, tax) => o in w.orders && L.Build(L.Refund, txn, o, w.orders[o], tax).Some?
    case Sell(o, txn, tax, fee) => o in w.orders && tax >= 0 && L.IsZeroSum(Settlement(w.orders[o], o, txn, tax, fee))
  }

  ghost function RunChange(w: World, t: Tables, c: Change): Tables
    requires CanChange(w, t, c)
  {
    match c
    case Mature(i) => t.(aff := A.MatureTx(t.aff, i).0)
    case Claw(i, read) => t.(aff := A.ClawbackTx(t.aff, i, read))
    case Refer(o, matureAt) =>
      var r := A.Resolve(w.book, o).value;
      t.(aff := A.CreateTx(t.aff, r.0, o, r.1, matureAt).value)
    case Join(a) => t.(aff := t.aff.(accounts := t.aff.accounts[a := A.Balances(0, 0, 0)]))
    case SetAccount(i, status) => t.(host := t.host.(accounts := t.host.accounts[i := t.host.accounts[i].(status := status)]))
    case OpenAccount(server, o, q) => t.(host := H.CreateAccount(t.host, server, o, q).value)
    case Administer(servers) => t.(host := t.host.(servers := servers))
    case Bill(o, tax) => t.(led := t.led.(invoices := t.led.invoices[o := tax]))
    case Refund(o, txn, tax) => t.(led := t.led.(entries := t.led.entries + L.Entries(L.Refund, txn, o, w.orders[o], tax)))
    case Sell(o, txn, tax, fee) => t.(led := t.led.(entries := t.led.entries + Settlement(w.orders[o], o, txn, tax, fee)))
  }

  /** The transactions the tables allow: maturation of any referral, a clawback on a status it may be rejected from, an
      invoice for an order that has none, and a refund or a sale whose rows balance. */
  lemma ChangesArePossible(w: World, t: Tables, i: nat, o: OrderId, txn: nat, tax: int)
    requires A.WellFormed(t.aff)
    ensures i < |t.aff.referrals| ==> CanChange(w, t, Mature(i))
    ensures i < |t.aff.referrals| ==> CanChange(w, t, Claw(i, A.PENDING)) && CanChange(w, t, Claw(i, A.APPROVED))
    ensures CanChange(w, t, Bill(o, tax)) <==> o !in t.led.invoices && tax >= 0
    ensures o in w.orders && L.AmountsBalance(w.orders[o], tax) ==> CanChange(w, t, Refund(o, txn, tax))
    ensures o in w.orders && L.AmountsBalance(w.orders[o], tax) && tax >= 0 ==> CanChange(w, t, Sell(o, txn, tax, 0))
  {
    if o in w.orders {
      L.BuildsIff(L.Refund, txn, o, w.orders[o], tax);
      L.BuildsIff(L.Payment, txn, o, w.orders[o], tax);
      L.FeeBalances(txn, o, w.orders[o], tax, 0);
    }
  }

  /** A clawback whose referral still has the status it read, or carries no money. */
  ghost predicate Current(t: Tables, c: Change) {
    c.Claw? && c.i < |t.aff.referrals| ==> t.aff.referrals[c.i].status == c.read || t.aff.referrals[c.i].commission == 0
  }

  ghost predicate AddsNoSale(t: Tables, t': Tables) {
    && t.led.entries <= t'.led.entries
    && forall i :: |t.led.entries| <= i < |t'.led.entries| ==> !t'.led.entries[i].account.SALES_REVENUE?
  }

  lemma AffChange(w: World, t: Tables, c: Change)
    requires TablesInv(w, t) && CanChange(w, t, c)
    ensures AffInv(w, RunChange(w, t, c).aff) && Grows(t, RunChange(w, t, c))
  {
    if c.Refer? {
      var r := A.Resolve(w.book, c.o).value;
      A.ResolveIff(w.book, c.o, r.0, r.1);
    }
  }

  lemma RefundRows(txn: nat, o: OrderId, order: L.Order, tax: int)
    ensures forall e :: e in L.Entries(L.Refund, txn, o, order, tax) ==> !e.account.SALES_REVENUE?
  {
  }

  /** No transaction of the rest of the system breaks a law of the tables or takes back what a handler has achieved,
      and only the API's own posting adds a sale. */
  lemma ChangeKeeps(w: World, t: Tables, c: Change)
    requires TablesInv(w, t) && CanChange(w, t, c)
    ensures var t' := RunChange(w, t, c);
      TablesInv(w, t') && Grows(t, t') && HostGrows(t.host, t'.host) && (!c.Sell? ==> AddsNoSale(t, t'))
  {
    AffChange(w, t, c);
    if c.Refund? {
      var es := L.Entries(L.Refund, c.txn, c.o, w.orders[c.o], c.tax);
      L.SumsOfConcat(t.led.entries, es, c.o, L.SALES_REVENUE);
      RefundRows(c.txn, c.o, w.orders[c.o], c.tax);
    } else if c.Sell? {
      L.SumsOfConcat(t.led.entries, Settlement(w.orders[c.o], c.o, c.txn, c.tax, c.fee), c.o, L.SALES_REVENUE);
    }
  }

  lemma {:induction false} NobodysReferrals(rs: seq<A.Referral>, a: A.AccountId, st: A.ReferralStatus)
    requires forall i :: 0 <= i < |rs| ==> rs[i].affiliate != a
    ensures A.Sum(rs, a, st) == 0
  {
    if rs != [] { NobodysReferrals(rs[..|rs| - 1], a, st); }
  }

  lemma JoinConserves(db: A.Db, a: A.AccountId)
    requires A.Consistent(db) && a !in db.accounts
    ensures A.Consistent(db.(accounts := db.accounts[a := A.Balances(0, 0, 0)]))
  {
    var t := db.(accounts := db.accounts[a := A.Balances(0, 0, 0)]);
    NobodysReferrals(db.referrals, a, A.PENDING);
    NobodysReferrals(db.referrals, a, A.APPROVED);
    forall x | x in t.accounts ensures A.Balanced(t, x) {
      if x != a { assert A.Balanced(db, x); }
    }
  }

  /** Of all of them only a clawback on a status that has moved on breaks the balances. */
  lemma ChangeConservesIff(w: World, t: Tables, c: Change)
    requires A.Consistent(t.aff) && CanChange(w, t, c)
    ensures A.Consistent(RunChange(w, t, c).aff) <==> Current(t, c)
  {
    match c {
      case Mature(i) => A.MatureConserves(t.aff, i);
      case Claw(i, read) => A.ClawbackConservesIff(t.aff, i, read);
      case Refer(o, matureAt) =>
        var r := A.Resolve(w.book, o).value;
        A.CreateConserves(t.aff, r.0, o, r.1, matureAt);
      case Join(a) => JoinConserves(t.aff, a);
      case _ =>
    }
  }
}
