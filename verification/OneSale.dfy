/** The sale is posted once: exactly when the ledger's guard, a read outside the transaction and without a unique
    key behind it, is enough; conditions on overlap and on leases that imply it; and the orders whose event can
    never be PROCESSED. */
module OneSale {
  import opened Wrappers
  import opened OrderPaid
  import opened Outside
  import opened OneEffect
  import K = Leases
  import L = Ledger
  import P = OutboxProtocol

  /** Sales rows of an order; every payment posting has exactly one. */
  ghost function Sales(es: seq<L.Entry>, o: OrderId): nat {
    if es == [] then 0
    else Sales(es[..|es| - 1], o) + if es[|es| - 1].order == o && es[|es| - 1].account.SALES_REVENUE? then 1 else 0
  }

  lemma {:induction false} SalesConcat(x: seq<L.Entry>, y: seq<L.Entry>, o: OrderId)
    ensures Sales(x + y, o) == Sales(x, o) + Sales(y, o)
  {
    if y == [] {
      assert x + y == x;
    } else {
      SalesConcat(x, y[..|y| - 1], o);
      assert (x + y)[..|x + y| - 1] == x + y[..|y| - 1];
    }
  }

  lemma {:induction false} SalesIsGuard(es: seq<L.Entry>, o: OrderId)
    ensures L.Recorded(es, o, L.Payment) <==> Sales(es, o) > 0
  {
    if es != [] {
      var n := |es| - 1;
      SalesIsGuard(es[..n], o);
      assert es == es[..n] + [es[n]];
      L.RecordedConcat(es[..n], [es[n]], o, L.Payment);
      if es[n].order == o && es[n].account.SALES_REVENUE? { assert [es[n]][0] == es[n]; }
    }
  }

  lemma {:induction false} NoSales(es: seq<L.Entry>, o: OrderId)
    requires forall i :: 0 <= i < |es| ==> !(es[i].account.SALES_REVENUE? && es[i].order == o)
    ensures Sales(es, o) == 0 && L.Net(es, o, L.SALES_REVENUE) == 0
  {
    if es != [] { NoSales(es[..|es| - 1], o); }
  }

  lemma SalesOfOne(e: L.Entry, o: OrderId)
    ensures Sales([e], o) == if e.order == o && e.account.SALES_REVENUE? then 1 else 0
  {
    assert [e][..0] == [];
  }

  /** The first two rows of a payment posting: the receivable and the sale. */
  lemma SalesOfFront(d: L.Entry, e: L.Entry, o: OrderId)
    requires !d.account.SALES_REVENUE? && e.account.SALES_REVENUE? && e.side.CREDIT?
    ensures Sales([d, e], o) == (if e.order == o then 1 else 0)
    ensures L.Net([d, e], o, L.SALES_REVENUE) == (if e.order == o then -e.amount else 0)
  {
    SalesOfOne(d, o);
    SalesOfOne(e, o);
    SalesConcat([d], [e], o);
    assert [d] + [e] == [d, e];
    L.SumsOfTwo(d, e, o, L.SALES_REVENUE);
    L.SumsOfOne(d, o, L.SALES_REVENUE);
    L.SumsOfOne(e, o, L.SALES_REVENUE);
  }

  /** A payment posting credits sales once, by the subtotal. */
  lemma SalesOfPosting(txn: nat, o: OrderId, order: L.Order, tax: int, x: OrderId)
    ensures var es := L.Entries(L.Payment, txn, o, order, tax);
      && Sales(es, x) == (if x == o then 1 else 0)
      && L.Net(es, x, L.SALES_REVENUE) == (if x == o then -order.subtotalAmount else 0)
  {
    var es := L.Entries(L.Payment, txn, o, order, tax);
    var front, back := [es[0], es[1]], es[2..];
    assert es == front + back;
    SalesOfFront(es[0], es[1], x);
    NoSales(back, x);
    SalesConcat(front, back, x);
    L.SumsOfConcat(front, back, x, L.SALES_REVENUE);
  }

  lemma SalesOfSettlement(order: L.Order, o: OrderId, txn: nat, tax: int, fee: int, x: OrderId)
    ensures Sales(Settlement(order, o, txn, tax, fee), x) == (if x == o then 1 else 0)
  {
    SalesOfPosting(txn, o, order, tax, x);
    NoSales(L.FeeEntries(txn, o, fee), x);
    SalesConcat(L.Entries(L.Payment, txn, o, order, tax), L.FeeEntries(txn, o, fee), x);
  }

  // ----- what one action does to the sales

  /** The action is the posting transaction of order o by a handler that saw no sale. */
  ghost predicate HandlerPosts(u: Setup, s: State, a: Action, o: OrderId)
    requires Enabled(u, s, a)
  {
    a.Do? && BodyOrder(u, s, a.w) == o && o in u.world.orders && !s.locals[a.w].recorded
    && Program(u.world, o)[BodyDone(u, s, a.w)].LedTx?
  }

  /** The action is the API's own posting of order o. */
  ghost predicate Sells(a: Action, o: OrderId) {
    a.Elsewhere? && a.change.Sell? && a.change.o == o
  }

  /** Either of the two. */
  ghost predicate Posts(u: Setup, s: State, a: Action, o: OrderId)
    requires Enabled(u, s, a)
  {
    HandlerPosts(u, s, a, o) || Sells(a, o)
  }

  /** The transaction id, the tax and the fee of a posting. */
  ghost function DetailsOf(u: Setup, s: State, a: Action, o: OrderId): (d: (nat, int, int))
    requires Enabled(u, s, a) && Posts(u, s, a, o)
  {
    if a.Do? then (a.io.txn, s.locals[a.w].tax, 0) else (a.change.txn, a.change.tax, a.change.fee)
  }

  /** The rows a posting of order o adds. */
  ghost function RowsOf(u: Setup, s: State, a: Action, o: OrderId): seq<L.Entry>
    requires Enabled(u, s, a) && Posts(u, s, a, o)
  {
    var d := DetailsOf(u, s, a, o);
    Settlement(u.world.orders[o], o, d.0, d.1, d.2)
  }

  lemma EntriesOfRun(w: World, t: Tables, l: Local, o: OrderId, op: Op, now: nat, io: Io, r: Effect)
    requires ValidPlacing(t.host, l.placing) && r == Run(w, t, l, o, op, now, io) && r.Ok?
    ensures r.tables.led.entries ==
      if op.LedTx? && o in w.orders && !l.recorded then t.led.entries + L.Entries(L.Payment, io.txn, o, w.orders[o], l.tax)
      else t.led.entries
    ensures op.LedRead? && o in w.orders ==> r.local.recorded == L.Recorded(t.led.entries, o, L.Payment)
  {
  }

  lemma RowsOfSell(w: World, t: Tables, c: Change, o: OrderId, more: seq<L.Entry>)
    requires CanChange(w, t, c) && c.Sell? && more == Settlement(w.orders[c.o], c.o, c.txn, c.tax, c.fee)
    ensures RunChange(w, t, c).led.entries == t.led.entries + more
    ensures Sales(more, o) == if c.o == o then 1 else 0
  {
    SalesOfSettlement(w.orders[c.o], c.o, c.txn, c.tax, c.fee, o);
  }

  lemma RowsWithoutSale(x: seq<L.Entry>, y: seq<L.Entry>, o: OrderId, more: seq<L.Entry>)
    requires x <= y && more == y[|x|..]
    requires forall i :: |x| <= i < |y| ==> !y[i].account.SALES_REVENUE?
    ensures y == x + more && Sales(more, o) == 0
  {
    NoSales(more, o);
  }

  lemma RowsElsewhere(w: World, t: Tables, c: Change, o: OrderId) returns (more: seq<L.Entry>)
    requires CanChange(w, t, c) && TablesInv(w, t)
    ensures RunChange(w, t, c).led.entries == t.led.entries + more
    ensures if c.Sell? && c.o == o then more == Settlement(w.orders[o], o, c.txn, c.tax, c.fee) else Sales(more, o) == 0
  {
    if c.Sell? {
      more := Settlement(w.orders[c.o], c.o, c.txn, c.tax, c.fee);
      RowsOfSell(w, t, c, o, more);
    } else {
      ChangeKeeps(w, t, c);
      more := RunChange(w, t, c).led.entries[|t.led.entries|..];
      RowsWithoutSale(t.led.entries, RunChange(w, t, c).led.entries, o, more);
    }
  }

  /** The rows an action adds hold no sale of o, or they are one payment posting of o. */
  lemma RowsAdded(u: Setup, s: State, a: Action, o: OrderId) returns (more: seq<L.Entry>)
    requires Enabled(u, s, a) && (a.Elsewhere? ==> TablesInv(u.world, s.tables))
    ensures Apply(u, s, a).tables.led.entries == s.tables.led.entries + more
    ensures if Posts(u, s, a, o) then more == RowsOf(u, s, a, o) else Sales(more, o) == 0
  {
    more := [];
    assert s.tables.led.entries + [] == s.tables.led.entries;
    match a {
      case Outbox(_) =>
      case Do(w, io) =>
        var x, done := BodyOrder(u, s, w), BodyDone(u, s, w);
        var op := Program(u.world, x)[done];
        EntriesOfRun(u.world, s.tables, s.locals[w], x, op, s.ob.now, io, EffectOf(u, s, w, io));
        if op.LedTx? && x in u.world.orders && !s.locals[w].recorded {
          more := L.Entries(L.Payment, io.txn, x, u.world.orders[x], s.locals[w].tax);
          assert more + L.FeeEntries(io.txn, x, 0) == more;
          SalesOfPosting(io.txn, x, u.world.orders[x], s.locals[w].tax, o);
        }
      case Elsewhere(c) => more := RowsElsewhere(u.world, s.tables, c, o);
    }
  }

  /** Sales never fall, and rise exactly by postings. */
  lemma StepSales(u: Setup, s: State, a: Action, o: OrderId)
    requires Enabled(u, s, a) && (a.Elsewhere? ==> TablesInv(u.world, s.tables))
    ensures Sales(Apply(u, s, a).tables.led.entries, o) == Sales(s.tables.led.entries, o) + if Posts(u, s, a, o) then 1 else 0
  {
    var more := RowsAdded(u, s, a, o);
    SalesConcat(s.tables.led.entries, more, o);
    if Posts(u, s, a, o) {
      var d := DetailsOf(u, s, a, o);
      SalesOfSettlement(u.world.orders[o], o, d.0, d.1, d.2, o);
    }
  }

  // ----- exactly when the sale is posted once

  /** Every posting of o in the run commits while the ledger has no sale of o. */
  ghost predicate FreshPosts(u: Setup, s: State, run: seq<Action>, o: OrderId)
    requires CanRun(u, s, run)
    decreases |run|
  {
    run == [] ||
    ((Posts(u, s, run[0], o) ==> Sales(s.tables.led.entries, o) == 0) && FreshPosts(u, Apply(u, s, run[0]), run[1..], o))
  }

  lemma {:induction false} SalesNeverFall(u: Setup, s: State, run: seq<Action>, o: OrderId)
    requires ValidSetup(u) && Inv(u, s) && CanRun(u, s, run)
    ensures Sales(Exec(u, s, run).tables.led.entries, o) >= Sales(s.tables.led.entries, o)
    decreases |run|
  {
    if run != [] {
      StepSales(u, s, run[0], o);
      StepKeepsInv(u, s, run[0]);
      SalesNeverFall(u, Apply(u, s, run[0]), run[1..], o);
    }
  }

  /** Over any run, an order is sold at most once iff each of its postings commits while there is no sale of it. */
  lemma {:induction false} SoldAtMostOnceIff(u: Setup, s: State, run: seq<Action>, o: OrderId)
    requires ValidSetup(u) && Inv(u, s) && CanRun(u, s, run) && Sales(s.tables.led.entries, o) <= 1
    ensures Sales(Exec(u, s, run).tables.led.entries, o) <= 1 <==> FreshPosts(u, s, run, o)
    decreases |run|
  {
    if run != [] {
      var t := Apply(u, s, run[0]);
      StepSales(u, s, run[0], o);
      StepKeepsInv(u, s, run[0]);
      if Sales(t.tables.led.entries, o) <= 1 { SoldAtMostOnceIff(u, t, run[1..], o); } else { SalesNeverFall(u, t, run[1..], o); }
    }
  }

  /** Position i of the ledger starts a whole payment posting of o, receivable and tax rows included. */
  ghost predicate PostedAt(w: World, es: seq<L.Entry>, o: OrderId, i: nat, txn: nat, tax: int)
    requires o in w.orders
  {
    var p := L.Entries(L.Payment, txn, o, w.orders[o], tax);
    i + |p| <= |es| && es[i..i + |p|] == p
  }

  /** Where there is a sale there is the whole posting it belongs to. */
  ghost predicate WholeSale(w: World, es: seq<L.Entry>, o: OrderId) {
    o in w.orders && Sales(es, o) > 0 ==> exists i: nat, txn: nat, tax: int :: PostedAt(w, es, o, i, txn, tax)
  }

  lemma PostingIsWhole(w: World, x: seq<L.Entry>, more: seq<L.Entry>, o: OrderId, txn: nat, tax: int, fee: int)
    requires o in w.orders && more == Settlement(w.orders[o], o, txn, tax, fee)
    ensures WholeSale(w, x + more, o)
  {
    var p := L.Entries(L.Payment, txn, o, w.orders[o], tax);
    assert (x + more)[|x|..|x| + |p|] == p;
    assert PostedAt(w, x + more, o, |x|, txn, tax);
  }

  lemma WholeSaleStays(w: World, x: seq<L.Entry>, more: seq<L.Entry>, o: OrderId)
    requires WholeSale(w, x, o) && Sales(more, o) == 0
    ensures WholeSale(w, x + more, o)
  {
    SalesConcat(x, more, o);
    if o in w.orders && Sales(x, o) > 0 {
      var i: nat, txn: nat, tax: int :| PostedAt(w, x, o, i, txn, tax);
      var p := L.Entries(L.Payment, txn, o, w.orders[o], tax);
      assert (x + more)[i..i + |p|] == x[i..i + |p|];
      assert PostedAt(w, x + more, o, i, txn, tax);
    }
  }

  lemma StepKeepsWholeSale(u: Setup, s: State, a: Action, o: OrderId)
    requires Enabled(u, s, a) && (a.Elsewhere? ==> TablesInv(u.world, s.tables)) && WholeSale(u.world, s.tables.led.entries, o)
    ensures WholeSale(u.world, Apply(u, s, a).tables.led.entries, o)
  {
    var more := RowsAdded(u, s, a, o);
    if Posts(u, s, a, o) {
      var d := DetailsOf(u, s, a, o);
      PostingIsWhole(u.world, s.tables.led.entries, more, o, d.0, d.1, d.2);
    } else {
      WholeSaleStays(u.world, s.tables.led.entries, more, o);
    }
  }

  lemma {:induction false} RunKeepsWholeSale(u: Setup, s: State, run: seq<Action>, o: OrderId)
    requires ValidSetup(u) && Inv(u, s) && CanRun(u, s, run) && WholeSale(u.world, s.tables.led.entries, o)
    ensures WholeSale(u.world, Exec(u, s, run).tables.led.entries, o)
    decreases |run|
  {
    if run != [] {
      StepKeepsWholeSale(u, s, run[0], o);
      StepKeepsInv(u, s, run[0]);
      RunKeepsWholeSale(u, Apply(u, s, run[0]), run[1..], o);
    }
  }

  lemma SalesAround(es: seq<L.Entry>, o: OrderId, i: nat, p: seq<L.Entry>)
    requires i + |p| <= |es| && es[i..i + |p|] == p
    ensures Sales(es, o) == Sales(es[..i], o) + Sales(p, o) + Sales(es[i + |p|..], o)
  {
    assert es == es[..i] + p + es[i + |p|..];
    SalesConcat(es[..i], p, o);
    SalesConcat(es[..i] + p, es[i + |p|..], o);
  }

  /** The sales before and after a whole posting. */
  ghost function SalesOutside(w: World, es: seq<L.Entry>, o: OrderId, i: nat, txn: nat, tax: int): nat
    requires o in w.orders && PostedAt(w, es, o, i, txn, tax)
  {
    Sales(es[..i], o) + Sales(es[i + |L.Entries(L.Payment, txn, o, w.orders[o], tax)|..], o)
  }

  /** Around one whole posting of o the ledger holds no other row of a sale of o. */
  ghost predicate SoldOnce(w: World, es: seq<L.Entry>, o: OrderId)
    requires o in w.orders
  {
    exists i: nat, txn: nat, tax: int :: PostedAt(w, es, o, i, txn, tax) && SalesOutside(w, es, o, i, txn, tax) == 0
  }

  lemma SalesAroundPosting(w: World, es: seq<L.Entry>, o: OrderId, i: nat, txn: nat, tax: int)
    requires o in w.orders && PostedAt(w, es, o, i, txn, tax)
    ensures Sales(es, o) == SalesOutside(w, es, o, i, txn, tax) + 1
  {
    SalesAround(es, o, i, L.Entries(L.Payment, txn, o, w.orders[o], tax));
    SalesOfPosting(txn, o, w.orders[o], tax, o);
  }

  lemma OneSaleIsWhole(w: World, es: seq<L.Entry>, o: OrderId)
    requires o in w.orders && WholeSale(w, es, o)
    ensures SoldOnce(w, es, o) <==> Sales(es, o) == 1
  {
    forall i: nat, txn: nat, tax: int | PostedAt(w, es, o, i, txn, tax)
      ensures Sales(es, o) == SalesOutside(w, es, o, i, txn, tax) + 1
    {
      SalesAroundPosting(w, es, o, i, txn, tax);
    }
  }

  /** The order has no sale yet, or one whole one. */
  ghost predicate SoldAtMostOnce(w: World, es: seq<L.Entry>, o: OrderId) {
    Sales(es, o) <= 1 && WholeSale(w, es, o)
  }

  /** A PROCESSED ORDER_PAID event has exactly one whole payment posting in the ledger iff every posting of its
      order, the handler's and the API's, committed while there was none. */
  lemma ExactlyOneSaleIff(u: Setup, workers: set<WorkerId>, t: Tables, run: seq<Action>, id: EventId)
    requires ValidSetup(u) && Start(u.world, t) && CanRun(u, Init(workers, t), run)
    requires id in u.ob.events && u.ob.events[id].eventType.ORDER_PAID? && u.world.finance && OrderOf(u, id) in u.world.orders
    requires SoldAtMostOnce(u.world, t.led.entries, OrderOf(u, id))
    requires var s := Exec(u, Init(workers, t), run); id in s.ob.rows && s.ob.rows[id].status.PROCESSED?
    ensures SoldOnce(u.world, Exec(u, Init(workers, t), run).tables.led.entries, OrderOf(u, id))
      <==> FreshPosts(u, Init(workers, t), run, OrderOf(u, id))
  {
    var s0, o := Init(workers, t), OrderOf(u, id);
    var es := Exec(u, s0, run).tables.led.entries;
    InitInv(u, workers, t);
    SoldAtMostOnceIff(u, s0, run, o);
    RunKeepsWholeSale(u, s0, run, o);
    OneEffect.OneEffect(u, workers, t, run, id);
    SalesIsGuard(es, o);
    OneSaleIsWhole(u.world, es, o);
  }

  /** The API's posting reads no guard: two of them in a row leave two sales more. */
  lemma SellingTwice(u: Setup, s: State, c: Change)
    requires TablesInv(u.world, s.tables) && Enabled(u, s, Elsewhere(c)) && c.Sell?
    ensures CanRun(u, s, [Elsewhere(c), Elsewhere(c)])
    ensures Sales(Exec(u, s, [Elsewhere(c), Elsewhere(c)]).tables.led.entries, c.o) == Sales(s.tables.led.entries, c.o) + 2
  {
    var a := Elsewhere(c);
    var t := Apply(u, s, a);
    StepSales(u, s, a, c.o);
    ChangeKeeps(u.world, s.tables, c);
    StepSales(u, t, a, c.o);
    Then(u, s, [], s, a, t);
    Then(u, s, [] + [a], t, a, Apply(u, t, a));
    assert [] + [a] + [a] == [a, a];
  }

  // ----- overlap

  /** Worker w has read the guard of the order's posting and not run its transaction yet. */
  ghost predicate InWindow(u: Setup, s: State, w: WorkerId, o: OrderId) {
    InBody(u, s, w) && BodyOrder(u, s, w) == o &&
    var done := BodyDone(u, s, w);
    0 < done < |Program(u.world, o)| && Program(u.world, o)[done - 1].LedRead?
  }

  /** No two workers are there at once. */
  ghost predicate Disjoint(u: Setup, s: State, o: OrderId) {
    forall v, w :: InWindow(u, s, v, o) && InWindow(u, s, w, o) ==> v == w
  }

  /** Whoever is about to post because it saw no sale is right. */
  ghost predicate WindowInv(u: Setup, s: State, o: OrderId) {
    forall w :: InWindow(u, s, w, o) && w in s.locals && !s.locals[w].recorded && o in u.world.orders ==>
      Sales(s.tables.led.entries, o) == 0
  }

  lemma PostsInWindow(u: Setup, s: State, a: Action, o: OrderId)
    requires Enabled(u, s, a) && HandlerPosts(u, s, a, o)
    ensures InWindow(u, s, a.w, o)
  {
    ReadsComeFirst(u.world, o, BodyDone(u, s, a.w));
  }

  /** The worker that has just read the guard knows whether there is a sale. */
  lemma ReaderKnows(u: Setup, s: State, w: WorkerId, io: Io, o: OrderId, t: State)
    requires Enabled(u, s, Do(w, io)) && t == Apply(u, s, Do(w, io))
    requires InWindow(u, t, w, o) && !t.locals[w].recorded && o in u.world.orders
    ensures Sales(t.tables.led.entries, o) == 0
  {
    var x, done := BodyOrder(u, s, w), BodyDone(u, s, w);
    assert BodyDone(u, t, w) == done + 1 && x == o;
    ReadsComeFirst(u.world, o, done + 1);
    EntriesOfRun(u.world, s.tables, s.locals[w], o, Program(u.world, o)[done], s.ob.now, io, EffectOf(u, s, w, io));
    SalesIsGuard(s.tables.led.entries, o);
  }

  lemma DoKeepsWindow(u: Setup, s: State, w: WorkerId, io: Io, o: OrderId)
    requires Enabled(u, s, Do(w, io)) && WindowInv(u, s, o) && Disjoint(u, s, o)
    ensures WindowInv(u, Apply(u, s, Do(w, io)), o)
  {
    var a := Do(w, io);
    var t := Apply(u, s, a);
    StepSales(u, s, a, o);
    if Posts(u, s, a, o) { PostsInWindow(u, s, a, o); }
    forall v | InWindow(u, t, v, o) && v in t.locals && !t.locals[v].recorded && o in u.world.orders
      ensures Sales(t.tables.led.entries, o) == 0
    {
      if v == w {
        ReaderKnows(u, s, w, io, o, t);
      } else {
        assert InWindow(u, s, v, o) && s.locals[v] == t.locals[v];
      }
    }
  }

  lemma OtherKeepsWindow(u: Setup, s: State, a: Action, o: OrderId)
    requires Enabled(u, s, a) && !a.Do? && !Sells(a, o) && TablesInv(u.world, s.tables) && WindowInv(u, s, o)
    ensures WindowInv(u, Apply(u, s, a), o)
  {
    var t := Apply(u, s, a);
    StepSales(u, s, a, o);
    forall v | InWindow(u, t, v, o) && v in t.locals && !t.locals[v].recorded && o in u.world.orders
      ensures Sales(t.tables.led.entries, o) == 0
    {
      if a.Outbox? {
        assert v in s.ob.workers;
        OutboxMoves(u, s, a.a, v);
      }
      assert InWindow(u, s, v, o);
    }
  }

  /** The run has no posting of the order by the API. */
  ghost predicate NoneSells(run: seq<Action>, o: OrderId) {
    forall k :: 0 <= k < |run| ==> !Sells(run[k], o)
  }

  /** When guard and transaction of an order's posting never interleave with another worker's, and nobody posts
      without the guard, every posting commits while there is no sale: the condition of ExactlyOneSaleIff. */
  lemma {:induction false} DisjointSuffices(u: Setup, s: State, run: seq<Action>, o: OrderId)
    requires ValidSetup(u) && Inv(u, s) && CanRun(u, s, run) && WindowInv(u, s, o)
    requires NoneSells(run, o) && Throughout(u, s, run, (x: State) => Disjoint(u, x, o))
    ensures FreshPosts(u, s, run, o)
    decreases |run|
  {
    if run != [] {
      assert !Sells(run[0], o) && NoneSells(run[1..], o);
      if HandlerPosts(u, s, run[0], o) { PostsInWindow(u, s, run[0], o); }
      if run[0].Do? { DoKeepsWindow(u, s, run[0].w, run[0].io, o); } else { OtherKeepsWindow(u, s, run[0], o); }
      StepKeepsInv(u, s, run[0]);
      DisjointSuffices(u, Apply(u, s, run[0]), run[1..], o);
    }
  }

  ghost predicate InBodyOf(u: Setup, s: State, w: WorkerId, o: OrderId) {
    InBody(u, s, w) && BodyOrder(u, s, w) == o
  }

  ghost predicate BodiesDisjoint(u: Setup, s: State, o: OrderId) {
    forall v, w :: InBodyOf(u, s, v, o) && InBodyOf(u, s, w, o) ==> v == w
  }

  /** A run in which handler bodies of the order never overlap meets it. */
  lemma NoOverlapSuffices(u: Setup, workers: set<WorkerId>, t: Tables, run: seq<Action>, o: OrderId)
    requires ValidSetup(u) && Start(u.world, t) && CanRun(u, Init(workers, t), run)
    requires NoneSells(run, o) && Throughout(u, Init(workers, t), run, (x: State) => BodiesDisjoint(u, x, o))
    ensures FreshPosts(u, Init(workers, t), run, o)
  {
    InitInv(u, workers, t);
    forall x | BodiesDisjoint(u, x, o) ensures Disjoint(u, x, o) {
      forall v, w | InWindow(u, x, v, o) && InWindow(u, x, w, o) ensures v == w {
        assert InBodyOf(u, x, v, o) && InBodyOf(u, x, w, o);
      }
    }
    ThroughoutImplies(u, Init(workers, t), run, (x: State) => BodiesDisjoint(u, x, o), (x: State) => Disjoint(u, x, o));
    DisjointSuffices(u, Init(workers, t), run, o);
  }

  // ----- leases

  ghost predicate AllInTime(u: Setup, s: State) {
    forall w :: w in s.ob.workers ==> K.InTime(u.ob, s.ob, w)
  }

  ghost predicate OneEventEach(u: Setup, o: OrderId) {
    forall i, j :: i in u.ob.events && j in u.ob.events && IsPaid(u, i) && IsPaid(u, j) && OrderOf(u, i) == o && OrderOf(u, j) == o ==>
      i == j
  }

  lemma InTimeBodiesAreDisjoint(u: Setup, s: State, o: OrderId)
    requires Inv(u, s) && K.AllOwn(s.ob) && AllInTime(u, s) && OneEventEach(u, o)
    ensures BodiesDisjoint(u, s, o)
  {
    forall v, w | InBodyOf(u, s, v, o) && InBodyOf(u, s, w, o) ensures v == w {
      K.NeverTwoAtOneEvent(u.ob, s.ob, v, w);
    }
  }

  lemma StepKeepsOwn(u: Setup, s: State, a: Action)
    requires Inv(u, s) && Enabled(u, s, a) && K.AllOwn(s.ob)
    ensures K.AllOwn(Apply(u, s, a).ob)
  {
    if a.Outbox? { K.StepKeepsOwn(u.ob, s.ob, a.a); }
    if a.Do? { K.StepKeepsOwn(u.ob, s.ob, P.Step(a.w)); }
  }

  lemma {:induction false} InTimeRunIsDisjoint(u: Setup, s: State, run: seq<Action>, o: OrderId)
    requires ValidSetup(u) && Inv(u, s) && CanRun(u, s, run) && K.AllOwn(s.ob) && OneEventEach(u, o)
    requires Throughout(u, s, run, (x: State) => AllInTime(u, x))
    ensures Throughout(u, s, run, (x: State) => BodiesDisjoint(u, x, o))
    decreases |run|
  {
    InTimeBodiesAreDisjoint(u, s, o);
    if run != [] {
      StepKeepsInv(u, s, run[0]);
      StepKeepsOwn(u, s, run[0]);
      InTimeRunIsDisjoint(u, Apply(u, s, run[0]), run[1..], o);
    }
  }

  /** What an operator can see to: if every worker is done with its batch within the lease, an order has one
      ORDER_PAID event, and nobody posts it by hand, then once that event is PROCESSED the order is sold exactly
      once. */
  lemma SoldOnceWithinLeases(u: Setup, workers: set<WorkerId>, t: Tables, run: seq<Action>, id: EventId)
    requires ValidSetup(u) && Start(u.world, t) && CanRun(u, Init(workers, t), run)
    requires id in u.ob.events && u.ob.events[id].eventType.ORDER_PAID? && u.world.finance && OrderOf(u, id) in u.world.orders
    requires OneEventEach(u, OrderOf(u, id)) && Throughout(u, Init(workers, t), run, (x: State) => AllInTime(u, x))
    requires SoldAtMostOnce(u.world, t.led.entries, OrderOf(u, id)) && NoneSells(run, OrderOf(u, id))
    requires var s := Exec(u, Init(workers, t), run); id in s.ob.rows && s.ob.rows[id].status.PROCESSED?
    ensures SoldOnce(u.world, Exec(u, Init(workers, t), run).tables.led.entries, OrderOf(u, id))
  {
    InitInv(u, workers, t);
    InTimeRunIsDisjoint(u, Init(workers, t), run, OrderOf(u, id));
    NoOverlapSuffices(u, workers, t, run, OrderOf(u, id));
    ExactlyOneSaleIff(u, workers, t, run, id);
  }

  // ----- orders that cannot be posted

  lemma PostedOnlyIfBuilt(u: Setup, s: State, a: Action, o: OrderId)
    requires Enabled(u, s, a) && Posts(u, s, a, o) && (a.Do? ==> s.locals[a.w].tax >= 0)
    ensures u.world.orders[o].totalAmount == u.world.orders[o].subtotalAmount
  {
    var d := DetailsOf(u, s, a, o);
    L.FeeBalances(d.0, o, u.world.orders[o], d.1, d.2);
    L.BuildsIff(L.Payment, d.0, o, u.world.orders[o], d.1);
  }

  lemma {:induction false} DiscountedHasNoSale(u: Setup, s: State, run: seq<Action>, o: OrderId)
    requires ValidSetup(u) && Inv(u, s) && CanRun(u, s, run) && Sales(s.tables.led.entries, o) == 0
    requires o in u.world.orders && u.world.orders[o].totalAmount != u.world.orders[o].subtotalAmount
    ensures Sales(Exec(u, s, run).tables.led.entries, o) == 0
    decreases |run|
  {
    if run != [] {
      StepSales(u, s, run[0], o);
      if Posts(u, s, run[0], o) {
        if run[0].Do? { assert OneEffect.WorkerInv(u, s, run[0].w); }
        PostedOnlyIfBuilt(u, s, run[0], o);
      }
      StepKeepsInv(u, s, run[0]);
      DiscountedHasNoSale(u, Apply(u, s, run[0]), run[1..], o);
    }
  }

  /** With the finance module on, the ORDER_PAID event of an order whose total is not its subtotal is never
      PROCESSED: its handler throws on every delivery, after it has done everything else. */
  lemma DiscountedIsNeverProcessed(u: Setup, workers: set<WorkerId>, t: Tables, run: seq<Action>, id: EventId)
    requires ValidSetup(u) && Start(u.world, t) && CanRun(u, Init(workers, t), run)
    requires id in u.ob.events && u.ob.events[id].eventType.ORDER_PAID? && u.world.finance && OrderOf(u, id) in u.world.orders
    requires var order := u.world.orders[OrderOf(u, id)]; order.totalAmount != order.subtotalAmount
    requires Sales(t.led.entries, OrderOf(u, id)) == 0
    ensures var s := Exec(u, Init(workers, t), run); id in s.ob.rows ==> !s.ob.rows[id].status.PROCESSED?
  {
    var s := Exec(u, Init(workers, t), run);
    InitInv(u, workers, t);
    DiscountedHasNoSale(u, Init(workers, t), run, OrderOf(u, id));
    if id in s.ob.rows && s.ob.rows[id].status.PROCESSED? {
      OneEffect.OneEffect(u, workers, t, run, id);
      SalesIsGuard(s.tables.led.entries, OrderOf(u, id));
    }
  }
}
