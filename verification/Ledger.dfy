/** Double-entry postings of orders: what the builders accept, the guards that make each posting
    happen once, and the balance of the whole ledger. */
module Ledger {
  import opened Wrappers

  type OrderId = nat

  datatype AccountCode = ACCOUNTS_RECEIVABLE | SALES_REVENUE | TAX_LIABILITY | REFUND_EXPENSE | GATEWAY_FEE_EXPENSE

  datatype Side = DEBIT | CREDIT

  /** A ledger row with reference type Order. */
  datatype Entry = Entry(transactionId: nat, account: AccountCode, side: Side, amount: int, order: OrderId)

  datatype Order = Order(subtotalAmount: int, totalAmount: int)

  /** invoices holds the tax of each order's invoice; the unique key on the order id makes it a map. */
  datatype Db = Db(invoices: map<OrderId, int>, entries: seq<Entry>)

  // ----- the builders

  function Signed(e: Entry): int {
    if e.side.DEBIT? then e.amount else -e.amount
  }

  /** Debits less credits. */
  function Balance(es: seq<Entry>): int {
    if es == [] then 0 else Balance(es[..|es| - 1]) + Signed(es[|es| - 1])
  }

  predicate IsZeroSum(es: seq<Entry>) {
    (forall i :: 0 <= i < |es| ==> es[i].amount >= 0) && Balance(es) == 0
  }

  function PaymentEntries(txn: nat, o: OrderId, subtotal: int, tax: int, total: int): seq<Entry> {
    [Entry(txn, ACCOUNTS_RECEIVABLE, DEBIT, total, o), Entry(txn, SALES_REVENUE, CREDIT, subtotal, o)]
    + if tax > 0 then [Entry(txn, TAX_LIABILITY, CREDIT, tax, o)] else []
  }

  function RefundEntries(txn: nat, o: OrderId, subtotal: int, tax: int, total: int): seq<Entry> {
    [Entry(txn, REFUND_EXPENSE, DEBIT, subtotal, o)]
    + (if tax > 0 then [Entry(txn, TAX_LIABILITY, DEBIT, tax, o)] else [])
    + [Entry(txn, ACCOUNTS_RECEIVABLE, CREDIT, total, o)]
  }

  /** The sub-entry of a payment for the gateway's fee, which the worker's own postings never have. */
  function FeeEntries(txn: nat, o: OrderId, fee: int): seq<Entry> {
    if fee > 0
    then [Entry(txn, GATEWAY_FEE_EXPENSE, DEBIT, fee, o), Entry(txn, ACCOUNTS_RECEIVABLE, CREDIT, fee, o)]
    else []
  }

  datatype Kind = Payment | Refund

  function Entries(k: Kind, txn: nat, o: OrderId, order: Order, tax: int): seq<Entry> {
    if k.Payment? then PaymentEntries(txn, o, order.subtotalAmount, tax, order.totalAmount + tax)
    else RefundEntries(txn, o, order.subtotalAmount, tax, order.totalAmount + tax)
  }

  /** None when the builder throws because the rows would not balance. */
  function Build(k: Kind, txn: nat, o: OrderId, order: Order, tax: int): Option<seq<Entry>> {
    if IsZeroSum(Entries(k, txn, o, order, tax)) then Some(Entries(k, txn, o, order, tax)) else None
  }

  /** The account whose row for an order guards the posting. */
  function Guard(k: Kind): AccountCode {
    if k.Payment? then SALES_REVENUE else REFUND_EXPENSE
  }

  // ----- sums over the ledger

  /** Debits less credits of one order in one account. */
  ghost function Net(es: seq<Entry>, o: OrderId, c: AccountCode): int {
    if es == [] then 0
    else Net(es[..|es| - 1], o, c) + if es[|es| - 1].order == o && es[|es| - 1].account == c then Signed(es[|es| - 1]) else 0
  }

  /** The rows of one order. */
  ghost function Rows(es: seq<Entry>, o: OrderId): seq<Entry> {
    if es == [] then []
    else Rows(es[..|es| - 1], o) + if es[|es| - 1].order == o then [es[|es| - 1]] else []
  }

  lemma {:induction false} BalanceOfConcat(x: seq<Entry>, y: seq<Entry>)
    ensures Balance(x + y) == Balance(x) + Balance(y)
  {
    if y == [] {
      assert x + y == x;
    } else {
      BalanceOfConcat(x, y[..|y| - 1]);
      assert (x + y)[..|x + y| - 1] == x + y[..|y| - 1];
    }
  }

  lemma {:induction false} NetOfConcat(x: seq<Entry>, y: seq<Entry>, o: OrderId, c: AccountCode)
    ensures Net(x + y, o, c) == Net(x, o, c) + Net(y, o, c)
  {
    if y == [] {
      assert x + y == x;
    } else {
      NetOfConcat(x, y[..|y| - 1], o, c);
      assert (x + y)[..|x + y| - 1] == x + y[..|y| - 1];
    }
  }

  lemma {:induction false} RowsOfConcat(x: seq<Entry>, y: seq<Entry>, o: OrderId)
    ensures Rows(x + y, o) == Rows(x, o) + Rows(y, o)
  {
    if y == [] {
      assert x + y == x;
    } else {
      RowsOfConcat(x, y[..|y| - 1], o);
      assert (x + y)[..|x + y| - 1] == x + y[..|y| - 1];
    }
  }

  lemma SumsOfConcat(x: seq<Entry>, y: seq<Entry>, o: OrderId, c: AccountCode)
    ensures Balance(x + y) == Balance(x) + Balance(y)
    ensures Net(x + y, o, c) == Net(x, o, c) + Net(y, o, c)
    ensures Rows(x + y, o) == Rows(x, o) + Rows(y, o)
  {
    BalanceOfConcat(x, y);
    NetOfConcat(x, y, o, c);
    RowsOfConcat(x, y, o);
  }

  lemma SumsOfOne(e: Entry, o: OrderId, c: AccountCode)
    ensures Balance([e]) == Signed(e)
    ensures Net([e], o, c) == if e.order == o && e.account == c then Signed(e) else 0
    ensures Rows([e], o) == if e.order == o then [e] else []
  {
  }

  lemma SumsOfTwo(d: Entry, e: Entry, o: OrderId, c: AccountCode)
    ensures Balance([d, e]) == Signed(d) + Signed(e)
    ensures Net([d, e], o, c) == Net([d], o, c) + Net([e], o, c)
    ensures Rows([d, e], o) == Rows([d], o) + Rows([e], o)
  {
    SumsOfConcat([d], [e], o, c);
    SumsOfOne(d, o, c);
    SumsOfOne(e, o, c);
    assert [d] + [e] == [d, e];
  }

  lemma SumsOfThree(d: Entry, e: Entry, f: Entry, o: OrderId, c: AccountCode)
    ensures Balance([d, e, f]) == Signed(d) + Signed(e) + Signed(f)
    ensures Net([d, e, f], o, c) == Net([d], o, c) + Net([e], o, c) + Net([f], o, c)
    ensures Rows([d, e, f], o) == Rows([d], o) + Rows([e], o) + Rows([f], o)
  {
    SumsOfTwo(d, e, o, c);
    SumsOfConcat([d, e], [f], o, c);
    SumsOfOne(f, o, c);
    assert [d, e] + [f] == [d, e, f];
  }

  ghost function PositivePart(tax: int): nat {
    if tax > 0 then tax else 0
  }

  ghost function Gross(order: Order, tax: int): int {
    order.subtotalAmount + PositivePart(tax)
  }

  /** A posting's own balance. */
  lemma PostingBalance(k: Kind, txn: nat, o: OrderId, order: Order, tax: int)
    ensures Balance(Entries(k, txn, o, order, tax)) ==
      (if k.Payment? then 1 else -1) * (order.totalAmount + tax - Gross(order, tax))
  {
    var es := Entries(k, txn, o, order, tax);
    if |es| == 3 {
      SumsOfThree(es[0], es[1], es[2], o, SALES_REVENUE);
      assert es == [es[0], es[1], es[2]];
    } else {
      SumsOfTwo(es[0], es[1], o, SALES_REVENUE);
      assert es == [es[0], es[1]];
    }
  }

  lemma {:induction false} AllOfOneOrder(es: seq<Entry>, o: OrderId, x: OrderId)
    requires forall i :: 0 <= i < |es| ==> es[i].order == o
    ensures Rows(es, x) == if x == o then es else []
  {
    if es != [] { AllOfOneOrder(es[..|es| - 1], o, x); }
  }

  /** The rows of a posting are all its order's. */
  lemma PostingRows(k: Kind, txn: nat, o: OrderId, order: Order, tax: int, x: OrderId)
    ensures Rows(Entries(k, txn, o, order, tax), x) == if x == o then Entries(k, txn, o, order, tax) else []
  {
    AllOfOneOrder(Entries(k, txn, o, order, tax), o, x);
  }

  /** What a posting adds to receivables. */
  lemma PostingReceivables(k: Kind, txn: nat, o: OrderId, order: Order, tax: int, x: OrderId)
    ensures Net(Entries(k, txn, o, order, tax), x, ACCOUNTS_RECEIVABLE) ==
      if x != o then 0 else (if k.Payment? then 1 else -1) * (order.totalAmount + tax)
  {
    var es := Entries(k, txn, o, order, tax);
    SumsOfOne(es[0], x, ACCOUNTS_RECEIVABLE);
    SumsOfOne(es[1], x, ACCOUNTS_RECEIVABLE);
    if |es| == 3 {
      SumsOfOne(es[2], x, ACCOUNTS_RECEIVABLE);
      SumsOfThree(es[0], es[1], es[2], x, ACCOUNTS_RECEIVABLE);
      assert es == [es[0], es[1], es[2]];
    } else {
      SumsOfTwo(es[0], es[1], x, ACCOUNTS_RECEIVABLE);
      assert es == [es[0], es[1]];
    }
  }

  /** What a posting adds to the tax owed. */
  lemma PostingTax(k: Kind, txn: nat, o: OrderId, order: Order, tax: int, x: OrderId)
    ensures Net(Entries(k, txn, o, order, tax), x, TAX_LIABILITY) ==
      if x != o || tax <= 0 then 0 else if k.Payment? then -tax else tax
  {
    var es := Entries(k, txn, o, order, tax);
    SumsOfOne(es[0], x, TAX_LIABILITY);
    SumsOfOne(es[1], x, TAX_LIABILITY);
    if |es| == 3 {
      SumsOfOne(es[2], x, TAX_LIABILITY);
      SumsOfThree(es[0], es[1], es[2], x, TAX_LIABILITY);
      assert es == [es[0], es[1], es[2]];
    } else {
      SumsOfTwo(es[0], es[1], x, TAX_LIABILITY);
      assert es == [es[0], es[1]];
    }
  }

  /** When the builders accept: with a tax of zero or more, exactly the orders whose total is their subtotal. No row
      is built for a discount. */
  lemma BuildsIff(k: Kind, txn: nat, o: OrderId, order: Order, tax: int)
    ensures Build(k, txn, o, order, tax).Some? <==>
      order.subtotalAmount >= 0 && order.totalAmount + tax >= 0 && order.totalAmount + tax == Gross(order, tax)
    ensures tax >= 0 ==>
      (Build(k, txn, o, order, tax).Some? <==> order.subtotalAmount >= 0 && order.totalAmount == order.subtotalAmount)
  {
    PostingBalance(k, txn, o, order, tax);
    var es := Entries(k, txn, o, order, tax);
    assert es[if k.Payment? then 1 else 0].amount == order.subtotalAmount;
    assert es[if k.Payment? then 0 else |es| - 1].amount == order.totalAmount + tax;
  }

  /** The fee's rows balance by themselves: a payment with them is accepted iff it is without them. */
  lemma FeeBalances(txn: nat, o: OrderId, order: Order, tax: int, fee: int)
    ensures var es := Entries(Payment, txn, o, order, tax);
      IsZeroSum(es + FeeEntries(txn, o, fee)) <==> IsZeroSum(es)
    ensures Balance(FeeEntries(txn, o, fee)) == 0
  {
    var es, more := Entries(Payment, txn, o, order, tax), FeeEntries(txn, o, fee);
    SumsOfConcat(es, more, o, SALES_REVENUE);
    if fee > 0 {
      SumsOfTwo(more[0], more[1], o, SALES_REVENUE);
      assert more == [more[0], more[1]];
    }
    if IsZeroSum(es + more) {
      forall i | 0 <= i < |es| ensures es[i].amount >= 0 { assert (es + more)[i] == es[i]; }
    }
  }

  const DISCOUNTED := Order(100, 90)
  const UNDISCOUNTED := Order(100, 100)

  /** At explicit orders: the one with a discount is refused, whatever its kind of posting; the one without is posted. */
  lemma DiscountIsRefused(k: Kind, txn: nat, o: OrderId)
    ensures Build(k, txn, o, DISCOUNTED, 0).None?
    ensures Build(k, txn, o, UNDISCOUNTED, 0) == Some(Entries(k, txn, o, UNDISCOUNTED, 0))
  {
    BuildsIff(k, txn, o, DISCOUNTED, 0);
    BuildsIff(k, txn, o, UNDISCOUNTED, 0);
  }

  // ----- calls

  /** findFirst on the guarding account. */
  predicate Recorded(es: seq<Entry>, o: OrderId, k: Kind) {
    exists i :: 0 <= i < |es| && es[i].order == o && es[i].account == Guard(k)
  }

  datatype Outcome = Done | Threw

  /** Create the invoice of an order that has none; its tax is zero. */
  function EnsureInvoice(db: Db, o: OrderId): Db {
    if o in db.invoices then db else db.(invoices := db.invoices[o := 0])
  }

  function TaxOf(db: Db, o: OrderId): int {
    if o in db.invoices then db.invoices[o] else 0
  }

  /** The ledger part of both functions: guard, build, insert all rows in one transaction. */
  function Post(db: Db, k: Kind, o: OrderId, order: Order, txn: nat): (Db, Outcome) {
    if Recorded(db.entries, o, k) then (db, Done)
    else
      match Build(k, txn, o, order, TaxOf(db, o))
      case None => (db, Threw)
      case Some(es) => (db.(entries := db.entries + es), Done)
  }

  function ProcessPayment(db: Db, orders: map<OrderId, Order>, o: OrderId, txn: nat): (Db, Outcome) {
    if o !in orders then (db, Done) else Post(EnsureInvoice(db, o), Payment, o, orders[o], txn)
  }

  function ProcessRefund(db: Db, orders: map<OrderId, Order>, o: OrderId, txn: nat): (Db, Outcome) {
    if o !in orders then (db, Done) else Post(db, Refund, o, orders[o], txn)
  }

  /** The amounts of an order and its tax balance: with a tax of zero or more, the total is the subtotal. */
  ghost predicate AmountsBalance(order: Order, tax: int) {
    && order.subtotalAmount >= 0 && order.totalAmount + tax >= 0
    && order.totalAmount + tax == order.subtotalAmount + if tax > 0 then tax else 0
  }

  ghost predicate HasRow(es: seq<Entry>, o: OrderId, c: AccountCode) {
    exists i :: 0 <= i < |es| && es[i].order == o && es[i].account == c
  }

  /** What a payment call does to the tables: unless a revenue row of the order stands, it adds a debit of the
      receivables, a credit of the revenue and, when there is tax, one of the tax owed, or throws and adds nothing. */
  lemma PaymentPosts(db: Db, orders: map<OrderId, Order>, o: OrderId, txn: nat, order: Order, tax: int)
    requires o in orders && order == orders[o] && tax == if o in db.invoices then db.invoices[o] else 0
    ensures var (t, outcome) := ProcessPayment(db, orders, o, txn);
      && t.invoices == db.invoices[o := tax]
      && (outcome.Threw? <==> !HasRow(db.entries, o, SALES_REVENUE) && !AmountsBalance(order, tax))
      && (t.entries == db.entries + if outcome.Threw? || HasRow(db.entries, o, SALES_REVENUE) then [] else
            [Entry(txn, ACCOUNTS_RECEIVABLE, DEBIT, order.totalAmount + tax, o),
             Entry(txn, SALES_REVENUE, CREDIT, order.subtotalAmount, o)]
            + if tax > 0 then [Entry(txn, TAX_LIABILITY, CREDIT, tax, o)] else [])
  {
    BuildsIff(Payment, txn, o, order, tax);
    assert Recorded(db.entries, o, Payment) <==> HasRow(db.entries, o, SALES_REVENUE);
    if o in db.invoices { assert db.invoices[o := tax] == db.invoices; }
  }

  /** Likewise a refund call: the expense, the tax taken back, and a credit of the receivables. */
  lemma RefundPosts(db: Db, orders: map<OrderId, Order>, o: OrderId, txn: nat, order: Order, tax: int)
    requires o in orders && order == orders[o] && tax == if o in db.invoices then db.invoices[o] else 0
    ensures var (t, outcome) := ProcessRefund(db, orders, o, txn);
      && t.invoices == db.invoices
      && (outcome.Threw? <==> !HasRow(db.entries, o, REFUND_EXPENSE) && !AmountsBalance(order, tax))
      && (t.entries == db.entries + if outcome.Threw? || HasRow(db.entries, o, REFUND_EXPENSE) then [] else
            [Entry(txn, REFUND_EXPENSE, DEBIT, order.subtotalAmount, o)]
            + (if tax > 0 then [Entry(txn, TAX_LIABILITY, DEBIT, tax, o)] else [])
            + [Entry(txn, ACCOUNTS_RECEIVABLE, CREDIT, order.totalAmount + tax, o)])
  {
    BuildsIff(Refund, txn, o, order, tax);
    assert Recorded(db.entries, o, Refund) <==> HasRow(db.entries, o, REFUND_EXPENSE);
  }

  // ----- serial runs

  /** A posting that was made. */
  datatype Posting = Posting(kind: Kind, txn: nat, order: OrderId, tax: int)

  /** Serial calls, an invoice whose tax is recalculated, and a payment call cut after its invoice. */
  datatype Action =
    | Pay(o: OrderId, txn: nat)
    | PayCut(o: OrderId)
    | PayBack(o: OrderId, txn: nat)
    | SetTax(o: OrderId, tax: int)

  /** log (history variable): the postings made so far, oldest first. */
  datatype State = State(db: Db, log: seq<Posting>)

  ghost function Logged(s: State, t: Db, k: Kind, o: OrderId, txn: nat): State {
    State(t, if t.entries == s.db.entries then s.log else s.log + [Posting(k, txn, o, TaxOf(t, o))])
  }

  ghost function Apply(orders: map<OrderId, Order>, s: State, a: Action): State {
    match a
    case Pay(o, txn) => Logged(s, ProcessPayment(s.db, orders, o, txn).0, Payment, o, txn)
    case PayCut(o) => if o in orders then State(EnsureInvoice(s.db, o), s.log) else s
    case PayBack(o, txn) => Logged(s, ProcessRefund(s.db, orders, o, txn).0, Refund, o, txn)
    case SetTax(o, tax) => s.(db := s.db.(invoices := s.db.invoices[o := tax]))
  }

  ghost function Exec(orders: map<OrderId, Order>, s: State, run: seq<Action>): State
    decreases |run|
  {
    if run == [] then s else Exec(orders, Apply(orders, s, run[0]), run[1..])
  }

  /** The rows a log stands for. */
  ghost function AllEntries(orders: map<OrderId, Order>, log: seq<Posting>): seq<Entry>
    requires forall i :: 0 <= i < |log| ==> log[i].order in orders
  {
    if log == [] then []
    else
      var p := log[|log| - 1];
      AllEntries(orders, log[..|log| - 1]) + Entries(p.kind, p.txn, p.order, orders[p.order], p.tax)
  }

  ghost predicate InLog(log: seq<Posting>, k: Kind, o: OrderId) {
    exists i :: 0 <= i < |log| && log[i].kind == k && log[i].order == o
  }

  /** The ledger is the concatenation of whole postings, each balanced and each made once per order and kind. */
  ghost predicate Inv(orders: map<OrderId, Order>, s: State) {
    && (forall i :: 0 <= i < |s.log| ==> s.log[i].order in orders)
    && s.db.entries == AllEntries(orders, s.log)
    && (forall i, j :: 0 <= i < j < |s.log| ==> s.log[i].kind != s.log[j].kind || s.log[i].order != s.log[j].order)
    && (forall i :: 0 <= i < |s.log| ==>
         var p := s.log[i]; Build(p.kind, p.txn, p.order, orders[p.order], p.tax).Some?)
  }

  lemma EntriesGuard(k: Kind, txn: nat, o: OrderId, order: Order, tax: int, k': Kind, x: OrderId)
    ensures Recorded(Entries(k, txn, o, order, tax), x, k') <==> k == k' && x == o
  {
    var es := Entries(k, txn, o, order, tax);
    if k == k' && x == o {
      var i := if k.Payment? then 1 else 0;
      assert es[i].account == Guard(k) && es[i].order == o;
    }
  }

  lemma InLogSnoc(log: seq<Posting>, p: Posting, k: Kind, o: OrderId)
    ensures InLog(log + [p], k, o) <==> InLog(log, k, o) || (p.kind == k && p.order == o)
  {
    var t := log + [p];
    if InLog(log, k, o) {
      var i :| 0 <= i < |log| && log[i].kind == k && log[i].order == o;
      assert t[i] == log[i];
    }
    assert t[|log|] == p;
  }

  lemma RecordedConcat(x: seq<Entry>, y: seq<Entry>, o: OrderId, k: Kind)
    ensures Recorded(x + y, o, k) <==> Recorded(x, o, k) || Recorded(y, o, k)
  {
    if Recorded(x, o, k) {
      var i :| 0 <= i < |x| && x[i].order == o && x[i].account == Guard(k);
      assert (x + y)[i] == x[i];
    }
    if Recorded(y, o, k) {
      var i :| 0 <= i < |y| && y[i].order == o && y[i].account == Guard(k);
      assert (x + y)[|x| + i] == y[i];
    }
  }

  /** One row of the guarding account is in the ledger iff the whole posting is. */
  lemma {:induction false} GuardIsSound(orders: map<OrderId, Order>, log: seq<Posting>, k: Kind, o: OrderId)
    requires forall i :: 0 <= i < |log| ==> log[i].order in orders
    ensures Recorded(AllEntries(orders, log), o, k) <==> InLog(log, k, o)
  {
    if log != [] {
      var n := |log| - 1;
      var p := log[n];
      GuardIsSound(orders, log[..n], k, o);
      var before, es := AllEntries(orders, log[..n]), Entries(p.kind, p.txn, p.order, orders[p.order], p.tax);
      EntriesGuard(p.kind, p.txn, p.order, orders[p.order], p.tax, k, o);
      RecordedConcat(before, es, o, k);
      InLogSnoc(log[..n], p, k, o);
      assert log == log[..n] + [p];
    }
  }

  lemma LogGrows(orders: map<OrderId, Order>, s: State, t: Db, p: Posting)
    requires Inv(orders, s) && p.order in orders && !InLog(s.log, p.kind, p.order)
    requires Build(p.kind, p.txn, p.order, orders[p.order], p.tax).Some?
    requires t.entries == s.db.entries + Entries(p.kind, p.txn, p.order, orders[p.order], p.tax)
    ensures Inv(orders, State(t, s.log + [p])) && InLog(s.log + [p], p.kind, p.order)
  {
    assert (s.log + [p])[..|s.log|] == s.log;
    InLogSnoc(s.log, p, p.kind, p.order);
  }

  lemma PostKeepsInv(orders: map<OrderId, Order>, s: State, k: Kind, o: OrderId, txn: nat)
    requires Inv(orders, s) && o in orders
    ensures var (t, outcome) := Post(s.db, k, o, orders[o], txn);
      && Inv(orders, Logged(s, t, k, o, txn))
      && (outcome.Done? ==> InLog(Logged(s, t, k, o, txn).log, k, o))
      && (outcome.Threw? <==>
           !InLog(s.log, k, o) && !AmountsBalance(orders[o], if o in s.db.invoices then s.db.invoices[o] else 0))
  {
    BuildsIff(k, txn, o, orders[o], TaxOf(s.db, o));
    GuardIsSound(orders, s.log, k, o);
    var (t, outcome) := Post(s.db, k, o, orders[o], txn);
    if t.entries != s.db.entries {
      LogGrows(orders, s, t, Posting(k, txn, o, TaxOf(s.db, o)));
    }
  }

  lemma StepKeepsInv(orders: map<OrderId, Order>, s: State, a: Action, t: State)
    requires Inv(orders, s) && t == Apply(orders, s, a)
    ensures Inv(orders, t)
  {
    match a {
      case Pay(o, txn) => if o in orders { PostKeepsInv(orders, s.(db := EnsureInvoice(s.db, o)), Payment, o, txn); }
      case PayBack(o, txn) => if o in orders { PostKeepsInv(orders, s, Refund, o, txn); }
      case _ =>
    }
  }

  lemma {:induction false} RunKeepsInv(orders: map<OrderId, Order>, s: State, run: seq<Action>)
    requires Inv(orders, s)
    ensures Inv(orders, Exec(orders, s, run))
    decreases |run|
  {
    if run != [] {
      StepKeepsInv(orders, s, run[0], Apply(orders, s, run[0]));
      RunKeepsInv(orders, Apply(orders, s, run[0]), run[1..]);
    }
  }

  /** A payment call that is cut after its invoice leaves the invoice the whole call would, and no row. */
  lemma CutLeavesTheInvoice(orders: map<OrderId, Order>, s: State, o: OrderId, txn: nat)
    ensures Apply(orders, s, PayCut(o)) == s.(db := ProcessPayment(s.db, orders, o, txn).0.(entries := s.db.entries))
  {
  }

  /** What one more action of a run adds to the log. */
  lemma StepPosts(orders: map<OrderId, Order>, s: State, a: Action, o: OrderId, t: State)
    requires Inv(orders, s) && t == Apply(orders, s, a)
    requires o in orders && orders[o].subtotalAmount >= 0 && orders[o].totalAmount == orders[o].subtotalAmount
    requires (o in s.db.invoices ==> s.db.invoices[o] >= 0) && (a.SetTax? && a.o == o ==> a.tax >= 0)
    ensures InLog(t.log, Payment, o) <==> InLog(s.log, Payment, o) || (a.Pay? && a.o == o)
    ensures InLog(t.log, Refund, o) <==> InLog(s.log, Refund, o) || (a.PayBack? && a.o == o)
    ensures o in t.db.invoices ==> t.db.invoices[o] >= 0
  {
    if (a.Pay? || a.PayBack?) && a.o in orders {
      var k := if a.Pay? then Payment else Refund;
      var tax := TaxOf(s.db, a.o);
      GuardIsSound(orders, s.log, k, a.o);
      assert Recorded(s.db.entries, a.o, k) <==> HasRow(s.db.entries, a.o, Guard(k));
      PaymentPosts(s.db, orders, a.o, a.txn, orders[a.o], tax);
      RefundPosts(s.db, orders, a.o, a.txn, orders[a.o], tax);
      if t.db.entries != s.db.entries {
        InLogSnoc(s.log, Posting(k, a.txn, a.o, tax), Payment, o);
        InLogSnoc(s.log, Posting(k, a.txn, a.o, tax), Refund, o);
      }
    }
  }

  /** Actions of a run that pay, or pay back, an order. */
  ghost predicate Pays(run: seq<Action>, o: OrderId) {
    exists i :: 0 <= i < |run| && run[i].Pay? && run[i].o == o
  }

  ghost predicate PaysBack(run: seq<Action>, o: OrderId) {
    exists i :: 0 <= i < |run| && run[i].PayBack? && run[i].o == o
  }

  ghost predicate NoNegativeTax(run: seq<Action>, o: OrderId) {
    forall i :: 0 <= i < |run| && run[i].SetTax? && run[i].o == o ==> run[i].tax >= 0
  }

  lemma FirstAction(run: seq<Action>, o: OrderId)
    requires run != []
    ensures Pays(run, o) <==> (run[0].Pay? && run[0].o == o) || Pays(run[1..], o)
    ensures PaysBack(run, o) <==> (run[0].PayBack? && run[0].o == o) || PaysBack(run[1..], o)
    ensures NoNegativeTax(run, o) <==> (run[0].SetTax? && run[0].o == o ==> run[0].tax >= 0) && NoNegativeTax(run[1..], o)
  {
    assert forall i :: 0 < i < |run| ==> run[1..][i - 1] == run[i];
  }

  lemma {:induction false} RunPosts(orders: map<OrderId, Order>, s: State, run: seq<Action>, o: OrderId)
    requires Inv(orders, s) && NoNegativeTax(run, o) && (o in s.db.invoices ==> s.db.invoices[o] >= 0)
    requires o in orders && orders[o].subtotalAmount >= 0 && orders[o].totalAmount == orders[o].subtotalAmount
    ensures var t := Exec(orders, s, run);
      && (InLog(t.log, Payment, o) <==> InLog(s.log, Payment, o) || Pays(run, o))
      && (InLog(t.log, Refund, o) <==> InLog(s.log, Refund, o) || PaysBack(run, o))
    decreases |run|
  {
    if run != [] {
      FirstAction(run, o);
      var t := Apply(orders, s, run[0]);
      StepPosts(orders, s, run[0], o, t);
      StepKeepsInv(orders, s, run[0], t);
      RunPosts(orders, t, run[1..], o);
    }
  }

  const EMPTY := State(Db(map[], []), [])

  lemma AllEntriesSnoc(orders: map<OrderId, Order>, log: seq<Posting>, p: Posting)
    requires p.order in orders && forall i :: 0 <= i < |log| ==> log[i].order in orders
    ensures forall i :: 0 <= i < |log + [p]| ==> (log + [p])[i].order in orders
    ensures AllEntries(orders, log + [p]) == AllEntries(orders, log) + Entries(p.kind, p.txn, p.order, orders[p.order], p.tax)
  {
    assert (log + [p])[..|log|] == log;
  }

  lemma RowsOfOneMore(orders: map<OrderId, Order>, x: seq<Entry>, q: seq<Posting>, p: Posting, o: OrderId)
    requires p.order in orders && forall i :: 0 <= i < |q| ==> q[i].order in orders
    requires Rows(x, o) == AllEntries(orders, q)
    ensures var more := if p.order == o then q + [p] else q;
      && (forall i :: 0 <= i < |more| ==> more[i].order in orders)
      && Rows(x + Entries(p.kind, p.txn, p.order, orders[p.order], p.tax), o) == AllEntries(orders, more)
  {
    var es := Entries(p.kind, p.txn, p.order, orders[p.order], p.tax);
    SumsOfConcat(x, es, o, SALES_REVENUE);
    PostingRows(p.kind, p.txn, p.order, orders[p.order], p.tax, o);
    AllEntriesSnoc(orders, q, p);
  }

  /** The postings of one order, oldest first. */
  ghost function PostingsOf(log: seq<Posting>, o: OrderId): (r: seq<Posting>)
    ensures forall p :: p in r ==> p in log && p.order == o
  {
    if log == [] then []
    else PostingsOf(log[..|log| - 1], o) + if log[|log| - 1].order == o then [log[|log| - 1]] else []
  }

  lemma LastPosting(orders: map<OrderId, Order>, log: seq<Posting>, o: OrderId,
        x: seq<Entry>, q: seq<Posting>, x0: seq<Entry>, q0: seq<Posting>)
    requires log != [] && forall i :: 0 <= i < |log| ==> log[i].order in orders
    requires x == AllEntries(orders, log) && q == PostingsOf(log, o)
    requires x0 == AllEntries(orders, log[..|log| - 1]) && q0 == PostingsOf(log[..|log| - 1], o)
    ensures var p := log[|log| - 1];
      x == x0 + Entries(p.kind, p.txn, p.order, orders[p.order], p.tax) && q == if p.order == o then q0 + [p] else q0
  {
  }

  /** The rows of one order are the concatenation of its postings, each whole. */
  lemma {:induction false} RowsAreWholePostings(orders: map<OrderId, Order>, log: seq<Posting>, o: OrderId,
          x: seq<Entry>, q: seq<Posting>)
    requires forall i :: 0 <= i < |log| ==> log[i].order in orders
    requires x == AllEntries(orders, log) && q == PostingsOf(log, o)
    ensures Rows(x, o) == AllEntries(orders, q)
  {
    if log != [] {
      var before, p := log[..|log| - 1], log[|log| - 1];
      var x0, q0 := AllEntries(orders, before), PostingsOf(before, o);
      RowsAreWholePostings(orders, before, o, x0, q0);
      LastPosting(orders, log, o, x, q, x0, q0);
      RowsOfOneMore(orders, x0, q0, p, o);
    }
  }

  /** At most one posting of each kind. */
  lemma {:induction false} AtMostOneOfEachKind(log: seq<Posting>, o: OrderId)
    requires forall i, j :: 0 <= i < j < |log| ==> log[i].kind != log[j].kind || log[i].order != log[j].order
    ensures var r := PostingsOf(log, o); |r| <= 2 && (|r| == 2 ==> r[0].kind != r[1].kind)
  {
    if log != [] {
      var n := |log| - 1;
      var p := log[n];
      AtMostOneOfEachKind(log[..n], o);
      var q := PostingsOf(log[..n], o);
      if p.order == o {
        forall i | 0 <= i < |q| ensures q[i].kind != p.kind {
          assert q[i] in log[..n];
        }
      }
    }
  }

  lemma {:induction false} PostingsOfHas(log: seq<Posting>, i: nat)
    requires i < |log|
    ensures log[i] in PostingsOf(log, log[i].order)
  {
    if i < |log| - 1 { PostingsOfHas(log[..|log| - 1], i); }
  }

  lemma BothKinds(log: seq<Posting>, o: OrderId)
    requires InLog(log, Payment, o) && InLog(log, Refund, o)
    ensures |PostingsOf(log, o)| >= 2
  {
    var i :| 0 <= i < |log| && log[i].kind == Payment && log[i].order == o;
    var j :| 0 <= j < |log| && log[j].kind == Refund && log[j].order == o;
    PostingsOfHas(log, i);
    PostingsOfHas(log, j);
    assert log[i] != log[j];
  }

  /** One posting for each kind the log has. */
  lemma PostingsCounted(log: seq<Posting>, o: OrderId)
    requires forall i, j :: 0 <= i < j < |log| ==> log[i].kind != log[j].kind || log[i].order != log[j].order
    ensures |PostingsOf(log, o)| == (if InLog(log, Payment, o) then 1 else 0) + if InLog(log, Refund, o) then 1 else 0
  {
    AtMostOneOfEachKind(log, o);
    var r := PostingsOf(log, o);
    if InLog(log, Payment, o) && InLog(log, Refund, o) {
      BothKinds(log, o);
    } else if exists i :: 0 <= i < |log| && log[i].order == o {
      var i :| 0 <= i < |log| && log[i].order == o;
      PostingsOfHas(log, i);
    }
    forall i | 0 <= i < |r| ensures InLog(log, r[i].kind, o) { assert r[i] in r && r[i] in log; }
  }

  /** Serial runs from an empty ledger: the rows of each order are at most one payment posting and at
      most one refund posting, each whole. */
  lemma PostedAtMostOnce(orders: map<OrderId, Order>, run: seq<Action>, o: OrderId)
    ensures var s := Exec(orders, EMPTY, run); var mine := PostingsOf(s.log, o);
      && (forall i :: 0 <= i < |s.log| ==> s.log[i].order in orders)
      && Rows(s.db.entries, o) == AllEntries(orders, mine)
      && |mine| <= 2 && (|mine| == 2 ==> mine[0].kind != mine[1].kind)
  {
    RunKeepsInv(orders, EMPTY, run);
    var s := Exec(orders, EMPTY, run);
    RowsAreWholePostings(orders, s.log, o, s.db.entries, PostingsOf(s.log, o));
    AtMostOneOfEachKind(s.log, o);
  }

  /** What a posting adds to the accounts that guard postings. */
  lemma PostingGuards(k: Kind, txn: nat, o: OrderId, order: Order, tax: int, x: OrderId)
    ensures var es := Entries(k, txn, o, order, tax);
      && Net(es, x, SALES_REVENUE) == (if x == o && k.Payment? then -order.subtotalAmount else 0)
      && Net(es, x, REFUND_EXPENSE) == (if x == o && k.Refund? then order.subtotalAmount else 0)
  {
    var es := Entries(k, txn, o, order, tax);
    forall c | c == SALES_REVENUE || c == REFUND_EXPENSE
      ensures Net(es, x, c) == Net([es[0]], x, c) + Net([es[1]], x, c) + if |es| == 3 then Net([es[2]], x, c) else 0
    {
      if |es| == 3 {
        SumsOfThree(es[0], es[1], es[2], x, c);
        assert es == [es[0], es[1], es[2]];
      } else {
        SumsOfTwo(es[0], es[1], x, c);
        assert es == [es[0], es[1]];
      }
    }
    forall i, c | 0 <= i < |es| ensures Net([es[i]], x, c) == if es[i].order == x && es[i].account == c then Signed(es[i]) else 0 {
      SumsOfOne(es[i], x, c);
    }
  }

  lemma {:induction false} GuardsOfLog(orders: map<OrderId, Order>, log: seq<Posting>, o: OrderId, x: seq<Entry>)
    requires o in orders && forall i :: 0 <= i < |log| ==> log[i].order in orders
    requires forall i, j :: 0 <= i < j < |log| ==> log[i].kind != log[j].kind || log[i].order != log[j].order
    requires x == AllEntries(orders, log)
    ensures Net(x, o, SALES_REVENUE) == if InLog(log, Payment, o) then -orders[o].subtotalAmount else 0
    ensures Net(x, o, REFUND_EXPENSE) == if InLog(log, Refund, o) then orders[o].subtotalAmount else 0
  {
    if log != [] {
      var n := |log| - 1;
      var p := log[n];
      var x0, es := AllEntries(orders, log[..n]), Entries(p.kind, p.txn, p.order, orders[p.order], p.tax);
      GuardsOfLog(orders, log[..n], o, x0);
      PostingGuards(p.kind, p.txn, p.order, orders[p.order], p.tax, o);
      NetOfConcat(x0, es, o, SALES_REVENUE);
      NetOfConcat(x0, es, o, REFUND_EXPENSE);
      InLogSnoc(log[..n], p, Payment, o);
      InLogSnoc(log[..n], p, Refund, o);
      assert log == log[..n] + [p];
    }
  }

  /** Exactly once: however often an order whose amounts balance is paid and paid back, in any serial run its revenue
      in the books is its subtotal once it has been paid, and its refund likewise; before that they are nothing. */
  lemma PaidIsPostedOnce(orders: map<OrderId, Order>, run: seq<Action>, o: OrderId)
    requires o in orders && orders[o].subtotalAmount >= 0 && orders[o].totalAmount == orders[o].subtotalAmount
    requires NoNegativeTax(run, o)
    ensures var s := Exec(orders, EMPTY, run);
      && Net(s.db.entries, o, SALES_REVENUE) == (if Pays(run, o) then -orders[o].subtotalAmount else 0)
      && Net(s.db.entries, o, REFUND_EXPENSE) == (if PaysBack(run, o) then orders[o].subtotalAmount else 0)
      && (InLog(s.log, Payment, o) <==> Pays(run, o)) && (InLog(s.log, Refund, o) <==> PaysBack(run, o))
      && |PostingsOf(s.log, o)| == (if Pays(run, o) then 1 else 0) + if PaysBack(run, o) then 1 else 0
  {
    var s := Exec(orders, EMPTY, run);
    RunPosts(orders, EMPTY, run, o);
    RunKeepsInv(orders, EMPTY, run);
    GuardsOfLog(orders, s.log, o, s.db.entries);
    AtMostOneOfEachKind(s.log, o);
    PostingsCounted(s.log, o);
  }

  lemma {:induction false} BalancedPostings(orders: map<OrderId, Order>, log: seq<Posting>)
    requires forall i :: 0 <= i < |log| ==> log[i].order in orders
    requires forall i :: 0 <= i < |log| ==>
      var p := log[i]; Build(p.kind, p.txn, p.order, orders[p.order], p.tax).Some?
    ensures Balance(AllEntries(orders, log)) == 0
  {
    if log != [] {
      var p := log[|log| - 1];
      BalancedPostings(orders, log[..|log| - 1]);
      SumsOfConcat(AllEntries(orders, log[..|log| - 1]), Entries(p.kind, p.txn, p.order, orders[p.order], p.tax), 0, SALES_REVENUE);
    }
  }

  /** The whole ledger stays zero-sum over every serial run, whatever the orders and taxes are. */
  lemma LedgerStaysZeroSum(orders: map<OrderId, Order>, run: seq<Action>)
    ensures Balance(Exec(orders, EMPTY, run).db.entries) == 0
  {
    RunKeepsInv(orders, EMPTY, run);
    BalancedPostings(orders, Exec(orders, EMPTY, run).log);
  }

  lemma ReceivablesOfLog(orders: map<OrderId, Order>, log: seq<Posting>, o: OrderId)
    requires forall p :: p in log ==> p.order == o
    requires o in orders && |log| == 2 && log[0].kind != log[1].kind
    ensures Net(AllEntries(orders, log), o, ACCOUNTS_RECEIVABLE) ==
      if log[0].kind.Payment? then log[0].tax - log[1].tax else log[1].tax - log[0].tax
  {
    var p, q := log[0], log[1];
    assert p in log && q in log;
    assert log[..1] == [p] && [p][..0] == [];
    var x := Entries(p.kind, p.txn, o, orders[o], p.tax);
    var y := Entries(q.kind, q.txn, o, orders[o], q.tax);
    assert AllEntries(orders, [p]) == [] + x == x;
    assert AllEntries(orders, log) == x + y;
    SumsOfConcat(x, y, o, ACCOUNTS_RECEIVABLE);
    PostingReceivables(p.kind, p.txn, o, orders[o], p.tax, o);
    PostingReceivables(q.kind, q.txn, o, orders[o], q.tax, o);
  }

  lemma TaxOfLog(orders: map<OrderId, Order>, log: seq<Posting>, o: OrderId)
    requires forall p :: p in log ==> p.order == o
    requires o in orders && |log| == 2 && log[0].kind != log[1].kind
    ensures Net(AllEntries(orders, log), o, TAX_LIABILITY) ==
      (if log[0].kind.Payment? then 1 else -1) * (PositivePart(log[1].tax) - PositivePart(log[0].tax))
  {
    var p, q := log[0], log[1];
    assert p in log && q in log;
    assert log[..1] == [p] && [p][..0] == [];
    var x := Entries(p.kind, p.txn, o, orders[o], p.tax);
    var y := Entries(q.kind, q.txn, o, orders[o], q.tax);
    assert AllEntries(orders, [p]) == [] + x == x;
    assert AllEntries(orders, log) == x + y;
    SumsOfConcat(x, y, o, TAX_LIABILITY);
    PostingTax(p.kind, p.txn, o, orders[o], p.tax, o);
    PostingTax(q.kind, q.txn, o, orders[o], q.tax, o);
  }

  lemma NetOfLast(r: seq<Entry>, e: Entry, o: OrderId, c: AccountCode)
    ensures Net(r + [e], o, c) == Net(r, o, c) + if e.order == o && e.account == c then Signed(e) else 0
  {
    NetOfConcat(r, [e], o, c);
    SumsOfOne(e, o, c);
  }

  lemma {:induction false} NetOfRows(es: seq<Entry>, o: OrderId, c: AccountCode)
    ensures Net(es, o, c) == Net(Rows(es, o), o, c)
  {
    if es != [] {
      var n := |es| - 1;
      NetOfRows(es[..n], o, c);
      if es[n].order == o {
        NetOfLast(Rows(es[..n], o), es[n], o, c);
      } else {
        assert Rows(es, o) == Rows(es[..n], o);
      }
    }
  }

  /** Receivables of a paid and refunded order net to zero iff its invoice tax was the same at both postings. */
  lemma RefundClearsReceivablesIff(orders: map<OrderId, Order>, run: seq<Action>, o: OrderId)
    requires var s := Exec(orders, EMPTY, run); InLog(s.log, Payment, o) && InLog(s.log, Refund, o)
    ensures var s := Exec(orders, EMPTY, run); var mine := PostingsOf(s.log, o);
      |mine| == 2 && (Net(s.db.entries, o, ACCOUNTS_RECEIVABLE) == 0 <==> mine[0].tax == mine[1].tax)
  {
    PostedAtMostOnce(orders, run, o);
    var s := Exec(orders, EMPTY, run);
    BothKinds(s.log, o);
    NetOfRows(s.db.entries, o, ACCOUNTS_RECEIVABLE);
    ReceivablesOfLog(orders, PostingsOf(s.log, o), o);
  }

  /** The tax owed for a paid and refunded order nets to zero iff the two postings carried the same tax row. */
  lemma RefundReturnsTaxIff(orders: map<OrderId, Order>, run: seq<Action>, o: OrderId)
    requires var s := Exec(orders, EMPTY, run); InLog(s.log, Payment, o) && InLog(s.log, Refund, o)
    ensures var s := Exec(orders, EMPTY, run); var mine := PostingsOf(s.log, o);
      |mine| == 2 && (Net(s.db.entries, o, TAX_LIABILITY) == 0 <==> PositivePart(mine[0].tax) == PositivePart(mine[1].tax))
  {
    PostedAtMostOnce(orders, run, o);
    var s := Exec(orders, EMPTY, run);
    BothKinds(s.log, o);
    NetOfRows(s.db.entries, o, TAX_LIABILITY);
    TaxOfLog(orders, PostingsOf(s.log, o), o);
  }

  // ----- the processor

  class LedgerTables {
    var invoices: map<OrderId, int>
    var entries: seq<Entry>

    ghost function State(): Db
      reads this
    {
      Db(invoices, entries)
    }

    /** The transaction that creates the rows one by one; it leaves all of them or none. */
    method CreateAll(es: seq<Entry>, commits: bool)
      modifies this`entries
      ensures entries == if commits then old(entries) + es else old(entries)
    {
      var before := entries;
      for i := 0 to |es|
        invariant entries == before + es[..i]
      {
        entries := entries + [es[i]];
      }
      if !commits { entries := before; }
    }

    method PostOnce(k: Kind, orderId: OrderId, order: Order, tax: int, transactionId: nat,
            commits: bool) returns (outcome: Outcome)
      requires tax == TaxOf(State(), orderId)
      modifies this`entries
      ensures var (t, o) := Post(old(State()), k, orderId, order, transactionId);
        if commits || Recorded(old(entries), orderId, k) then State() == t && outcome == o
        else State() == old(State()) && outcome == Threw
    {
      if Recorded(entries, orderId, k) { return Done; }
      var es := Entries(k, transactionId, orderId, order, tax);
      if !IsZeroSum(es) { return Threw; }
      CreateAll(es, commits);
      outcome := if commits then Done else Threw;
    }

    /** commits says whether the ledger transaction does; the invoice is created before it either way. */
    method ProcessFinancialLedgerForOrder(orders: map<OrderId, Order>, orderId: OrderId, transactionId: nat,
            commits: bool) returns (outcome: Outcome)
      modifies this
      ensures orderId !in orders ==> outcome == Done && invoices == old(invoices) && entries == old(entries)
      ensures orderId in orders ==>
        && orderId in invoices && invoices == old(invoices)[orderId := if orderId in old(invoices) then old(invoices)[orderId] else 0]
        && var order, tax := orders[orderId], invoices[orderId];
           && (outcome == Threw <==>
                !HasRow(old(entries), orderId, SALES_REVENUE) && !(commits && AmountsBalance(order, tax)))
           && (entries == old(entries) + if outcome == Threw || HasRow(old(entries), orderId, SALES_REVENUE) then [] else
                 [Entry(transactionId, ACCOUNTS_RECEIVABLE, DEBIT, order.totalAmount + tax, orderId),
                  Entry(transactionId, SALES_REVENUE, CREDIT, order.subtotalAmount, orderId)]
                 + if tax > 0 then [Entry(transactionId, TAX_LIABILITY, CREDIT, tax, orderId)] else [])
      ensures commits ==> (State(), outcome) == ProcessPayment(old(State()), orders, orderId, transactionId)
    {
      if orderId !in orders { return Done; }
      PaymentPosts(State(), orders, orderId, transactionId, orders[orderId], TaxOf(State(), orderId));
      if orderId !in invoices {
        invoices := invoices[orderId := 0];
      }
      outcome := PostOnce(Payment, orderId, orders[orderId], invoices[orderId], transactionId, commits);
    }

    method ProcessFinancialLedgerForOrderRefund(orders: map<OrderId, Order>, orderId: OrderId, transactionId: nat,
            commits: bool) returns (outcome: Outcome)
      modifies this
      ensures invoices == old(invoices)
      ensures orderId !in orders ==> outcome == Done && entries == old(entries)
      ensures orderId in orders ==>
        var order := orders[orderId]; var tax := if orderId in invoices then invoices[orderId] else 0;
        && (outcome == Threw <==>
             !HasRow(old(entries), orderId, REFUND_EXPENSE) && !(commits && AmountsBalance(order, tax)))
        && (entries == old(entries) + if outcome == Threw || HasRow(old(entries), orderId, REFUND_EXPENSE) then [] else
              [Entry(transactionId, REFUND_EXPENSE, DEBIT, order.subtotalAmount, orderId)]
              + (if tax > 0 then [Entry(transactionId, TAX_LIABILITY, DEBIT, tax, orderId)] else [])
              + [Entry(transactionId, ACCOUNTS_RECEIVABLE, CREDIT, order.totalAmount + tax, orderId)])
      ensures commits ==> (State(), outcome) == ProcessRefund(old(State()), orders, orderId, transactionId)
    {
      if orderId !in orders { return Done; }
      RefundPosts(State(), orders, orderId, transactionId, orders[orderId], TaxOf(State(), orderId));
      var tax := if orderId in invoices then invoices[orderId] else 0;
      outcome := PostOnce(Refund, orderId, orders[orderId], tax, transactionId, commits);
    }
  }
}
