/** A run in which two bodies of one order overlap: a slow worker loses its lease between the guard and the
    transaction of the ledger posting, a second worker takes the event over, and both post. */
module Overlap {
  import opened Wrappers
  import opened OrderPaid
  import opened Outside
  import opened OneEffect
  import opened OneSale
  import P = OutboxProtocol
  import R = OutboxRow
  import A = Affiliate
  import H = Hosting
  import L = Ledger

  /** One event of one order, the finance module on, the others off. */
  const WORLD := World(A.Book(map[], map[], map[]), map[1 := L.Order(100, 100)], map[], false, false, true, false)
  const EVENT := P.Event(P.ORDER_PAID, P.Order, 1, None)
  const SETUP := Setup(P.Setup(R.Config(5, 1000, 1), map[0 := EVENT], map[0 := 5]), WORLD)
  const EMPTY := Tables(A.Db(map[], []), H.Db([], []), L.Db(map[], []), [])

  function ObAt(now: nat, row: R.Row, hist: seq<R.Entry>, x: P.Worker, y: P.Worker): P.State {
    P.State(now, map[0 := row], map[0 := x, 1 := y], map[0 := hist], {}, [])
  }

  /** The states of the run differ in the clock, the row, its history, the two workers, the ledger and the locals. */
  function At(now: nat, row: R.Row, hist: seq<R.Entry>, x: P.Worker, y: P.Worker, led: L.Db, a: Local, b: Local): State {
    State(ObAt(now, row, hist, x, y), EMPTY.(led := led), map[0 := a, 1 := b])
  }

  function Busy(done: nat, mark: nat): P.Worker {
    P.Running([P.Snapshot(0, 0)], P.Working(done), map[0 := mark])
  }

  const HELD0 := R.Row(R.PROCESSING, Some(0), Some(0), 0, None)
  const HELD1 := R.Row(R.PROCESSING, Some(1), Some(1001), 0, None)
  const HIST0 := [R.Claimed(0, 0)]
  const HIST1 := [R.Claimed(0, 0), R.Claimed(1, 1001)]
  const BILLED := L.Db(map[1 := 0], [])
  const F := OrderPaid.FRESH

  function Rows(txn: nat): seq<L.Entry> {
    L.Entries(L.Payment, txn, 1, L.Order(100, 100), 0)
  }

  lemma TheProgram()
    ensures Program(WORLD, 1) == [Issue, Email, Invoice, LedRead, LedTx] && ValidSetup(SETUP)
  {
    assert AffOps(WORLD) == [] && LedOps(WORLD) == [Invoice, LedRead, LedTx];
  }

  ghost function Begin(): State {
    Init({0, 1}, EMPTY)
  }

  /** The run leads from the empty table to this state, by handlers alone. */
  ghost predicate Leads(run: seq<Action>, t: State) {
    Reaches(SETUP, Begin(), run, t) && NoneSells(run, 1)
  }

  lemma Onwards(run: seq<Action>, m: State, a: Action, t: State)
    requires Leads(run, m) && Enabled(SETUP, m, a) && Apply(SETUP, m, a) == t && !a.Elsewhere?
    ensures Leads(run + [a], t)
  {
    Then(SETUP, Begin(), run, m, a, t);
  }

  lemma ClaimEnabled(s: P.State, ids: set<EventId>, w: nat)
    requires ids == {0} && s.rows.Keys == {0} && w in s.workers && s.workers[w].Idle? && R.Claimable(s.rows[0], s.now, 1000)
    ensures P.Enabled(SETUP.ob, s, P.Claim(w, ids))
  {
    assert |ids| == 1;
  }

  lemma ClaimRowsAndHistory(s: P.State, ids: set<EventId>, w: nat, h: seq<R.Entry>, t: P.State)
    requires ids == {0} && s.rows.Keys == {0} && s.hist == map[0 := h]
    requires P.Enabled(SETUP.ob, s, P.Claim(w, ids)) && t == P.Apply(SETUP.ob, s, P.Claim(w, ids))
    ensures t.rows == map[0 := R.ClaimRow(s.rows[0], w, s.now)] && t.hist == map[0 := h + [R.Claimed(w, s.now)]]
    ensures t.now == s.now && t.completed == s.completed && t.reported == s.reported
  {
    assert 0 in ids;
  }

  lemma ClaimMarks(s: P.State, ids: set<EventId>, w: nat, h: seq<R.Entry>, t: P.State)
    requires ids == {0} && s.rows.Keys == {0} && s.hist == map[0 := h]
    requires P.Enabled(SETUP.ob, s, P.Claim(w, ids)) && t == P.Apply(SETUP.ob, s, P.Claim(w, ids))
    ensures t.workers == s.workers[w := P.Holding({0}, map[0 := |h| + 1])]
  {
    assert 0 in ids;
    assert t.workers[w].marks == map[0 := |h| + 1];
  }

  lemma OnesWorkers(workers: map<WorkerId, P.Worker>, x: P.Worker, y: P.Worker, w: nat, x': P.Worker, y': P.Worker)
    requires workers == map[0 := x, 1 := y] && w <= 1 && if w == 0 then y' == y else x' == x
    ensures workers[w := if w == 0 then x' else y'] == map[0 := x', 1 := y']
  {
  }

  lemma ClaimOb(now: nat, row: R.Row, hist: seq<R.Entry>, x: P.Worker, y: P.Worker, w: nat, ids: set<EventId>,
          x': P.Worker, y': P.Worker)
    requires w <= 1 && (if w == 0 then x.Idle? && y' == y else y.Idle? && x' == x) && R.Claimable(row, now, 1000) && ids == {0}
    requires (if w == 0 then x' else y') == P.Holding({0}, map[0 := |hist| + 1])
    ensures var s := ObAt(now, row, hist, x, y);
      && P.Enabled(SETUP.ob, s, P.Claim(w, ids)) && s.rows.Keys == s.hist.Keys
      && P.Apply(SETUP.ob, s, P.Claim(w, ids)) == ObAt(now, R.ClaimRow(row, w, now), hist + [R.Claimed(w, now)], x', y')
  {
    var s := ObAt(now, row, hist, x, y);
    ClaimEnabled(s, ids, w);
    var t := P.Apply(SETUP.ob, s, P.Claim(w, ids));
    ClaimRowsAndHistory(s, ids, w, hist, t);
    ClaimMarks(s, ids, w, hist, t);
    OnesWorkers(s.workers, x, y, w, x', y');
  }

  lemma ClaimStep(now: nat, row: R.Row, hist: seq<R.Entry>, x: P.Worker, y: P.Worker, w: nat, led: L.Db)
    requires w <= 1 && (if w == 0 then x.Idle? else y.Idle?) && R.Claimable(row, now, 1000)
    ensures var s := At(now, row, hist, x, y, led, F, F); var z := P.Holding({0}, map[0 := |hist| + 1]);
      && Enabled(SETUP, s, Outbox(P.Claim(w, {0})))
      && Apply(SETUP, s, Outbox(P.Claim(w, {0}))) ==
         At(now, R.ClaimRow(row, w, now), hist + [R.Claimed(w, now)], if w == 0 then z else x, if w == 1 then z else y, led, F, F)
  {
    var z := P.Holding({0}, map[0 := |hist| + 1]);
    ClaimOb(now, row, hist, x, y, w, {0}, if w == 0 then z else x, if w == 1 then z else y);
  }

  lemma ReadStep(now: nat, row: R.Row, hist: seq<R.Entry>, x: P.Worker, y: P.Worker, w: nat, mark: nat, led: L.Db)
    requires w <= 1 && (if w == 0 then x else y) == P.Holding({0}, map[0 := mark]) && row.retryCount == 0
    ensures var s := At(now, row, hist, x, y, led, F, F);
      && Enabled(SETUP, s, Outbox(P.Read(w, [0])))
      && Apply(SETUP, s, Outbox(P.Read(w, [0]))) ==
         At(now, row, hist, if w == 0 then Busy(0, mark) else x, if w == 1 then Busy(0, mark) else y, led, F, F)
  {
    var s := At(now, row, hist, x, y, led, F, F);
    assert P.Queue(s.ob.rows, [0]) == [P.Snapshot(0, 0)];
    assert Apply(SETUP, s, Outbox(P.Read(w, [0]))).ob.workers ==
           map[0 := if w == 0 then Busy(0, mark) else x, 1 := if w == 1 then Busy(0, mark) else y];
  }

  /** The ledger after statement number done. */
  function LedgerAfter(led: L.Db, done: nat, txn: nat): L.Db {
    if done == 2 then L.EnsureInvoice(led, 1) else if done == 4 then led.(entries := led.entries + Rows(txn)) else led
  }

  lemma RunStep(now: nat, done: nat, led: L.Db, txn: nat)
    requires done < 5 && (done == 3 ==> !L.Recorded(led.entries, 1, L.Payment)) && (done == 2 ==> L.TaxOf(led, 1) == 0)
    ensures done < |Program(WORLD, 1)|
    ensures Run(WORLD, EMPTY.(led := led), F, 1, Program(WORLD, 1)[done], now, Io(false, txn)) ==
      Ok(EMPTY.(led := LedgerAfter(led, done, txn)), F)
  {
    TheProgram();
    L.BuildsIff(L.Payment, txn, 1, L.Order(100, 100), 0);
  }

  lemma StepOb(now: nat, row: R.Row, hist: seq<R.Entry>, x: P.Worker, y: P.Worker, w: nat, done: nat, mark: nat,
          x': P.Worker, y': P.Worker)
    requires w <= 1 && done < 5 && (if w == 0 then x == Busy(done, mark) && y' == y else y == Busy(done, mark) && x' == x)
    requires (if w == 0 then x' else y') == Busy(done + 1, mark)
    ensures var s := ObAt(now, row, hist, x, y);
      && P.Enabled(SETUP.ob, s, P.Step(w)) && s.rows.Keys == s.hist.Keys
      && P.Apply(SETUP.ob, s, P.Step(w)) == ObAt(now, row, hist, x', y')
  {
    var s := ObAt(now, row, hist, x, y);
    assert s.workers[w := Busy(done + 1, mark)] == map[0 := x', 1 := y'];
  }

  /** Statement number done of worker w's body. */
  lemma DoStep(now: nat, row: R.Row, hist: seq<R.Entry>, x: P.Worker, y: P.Worker, w: nat, done: nat, mark: nat,
          led: L.Db, txn: nat)
    requires w <= 1 && (if w == 0 then x == Busy(done, mark) else y == Busy(done, mark)) && done < 5
    requires (done == 3 ==> !L.Recorded(led.entries, 1, L.Payment)) && (done == 2 ==> L.TaxOf(led, 1) == 0)
    ensures var s := At(now, row, hist, x, y, led, F, F);
      && Enabled(SETUP, s, Do(w, Io(false, txn)))
      && Apply(SETUP, s, Do(w, Io(false, txn))) ==
         At(now, row, hist, if w == 0 then Busy(done + 1, mark) else x,
             if w == 1 then Busy(done + 1, mark) else y, LedgerAfter(led, done, txn), F, F)
  {
    RunStep(now, done, led, txn);
    StepOb(now, row, hist, x, y, w, done, mark, if w == 0 then Busy(done + 1, mark) else x,
           if w == 1 then Busy(done + 1, mark) else y);
    var s := At(now, row, hist, x, y, led, F, F);
    assert InBody(SETUP, s, w) && BodyOrder(SETUP, s, w) == 1 && BodyDone(SETUP, s, w) == done;
    assert EffectOf(SETUP, s, w, Io(false, txn)) == Ok(EMPTY.(led := LedgerAfter(led, done, txn)), F);
    assert s.locals[w := F] == s.locals;
  }

  lemma Inserted() returns (run: seq<Action>)
    ensures Leads(run, At(0, R.FRESH, [], P.Idle, P.Idle, L.Db(map[], []), F, F))
  {
    var s := Begin();
    assert s.ob.workers == map[0 := P.Idle, 1 := P.Idle] && s.locals == map[0 := F, 1 := F];
    var t := At(0, R.FRESH, [], P.Idle, P.Idle, L.Db(map[], []), F, F);
    assert Apply(SETUP, s, Outbox(P.Insert(0))) == t;
    Onwards([], s, Outbox(P.Insert(0)), t);
    run := [] + [Outbox(P.Insert(0))];
  }

  lemma Ticked(run: seq<Action>, row: R.Row, hist: seq<R.Entry>, x: P.Worker, y: P.Worker, led: L.Db,
          ms: nat) returns (more: seq<Action>)
    requires Leads(run, At(0, row, hist, x, y, led, F, F))
    ensures Leads(more, At(ms, row, hist, x, y, led, F, F))
  {
    Onwards(run, At(0, row, hist, x, y, led, F, F), Outbox(P.Tick(ms)), At(ms, row, hist, x, y, led, F, F));
    more := run + [Outbox(P.Tick(ms))];
  }

  lemma TakenAndRead(run: seq<Action>, now: nat, row: R.Row, hist: seq<R.Entry>, x: P.Worker, y: P.Worker, w: nat,
          mark: nat, led: L.Db)
    returns (more: seq<Action>)
    requires Leads(run, At(now, row, hist, x, y, led, F, F))
    requires w <= 1 && (if w == 0 then x else y) == P.Holding({0}, map[0 := mark]) && row.retryCount == 0
    ensures Leads(more, At(now, row, hist, if w == 0 then Busy(0, mark) else x, if w == 1 then Busy(0, mark) else y, led, F, F))
  {
    ReadStep(now, row, hist, x, y, w, mark, led);
    var s := At(now, row, hist, x, y, led, F, F);
    Onwards(run, s, Outbox(P.Read(w, [0])), Apply(SETUP, s, Outbox(P.Read(w, [0]))));
    more := run + [Outbox(P.Read(w, [0]))];
  }

  /** Worker w claims the event and reads it. */
  lemma Taken(run: seq<Action>, now: nat, row: R.Row, hist: seq<R.Entry>, x: P.Worker, y: P.Worker, w: nat,
          led: L.Db) returns (more: seq<Action>)
    requires Leads(run, At(now, row, hist, x, y, led, F, F))
    requires w <= 1 && (if w == 0 then x.Idle? else y.Idle?) && R.Claimable(row, now, 1000) && row.retryCount == 0
    ensures var z := Busy(0, |hist| + 1);
      Leads(more, At(now, R.ClaimRow(row, w, now), hist + [R.Claimed(w, now)], if w == 0 then z else x,
                     if w == 1 then z else y, led, F, F))
  {
    var z := P.Holding({0}, map[0 := |hist| + 1]);
    var x', y' := if w == 0 then z else x, if w == 1 then z else y;
    ClaimStep(now, row, hist, x, y, w, led);
    var m := At(now, R.ClaimRow(row, w, now), hist + [R.Claimed(w, now)], x', y', led, F, F);
    Onwards(run, At(now, row, hist, x, y, led, F, F), Outbox(P.Claim(w, {0})), m);
    more := TakenAndRead(run + [Outbox(P.Claim(w, {0}))], now, R.ClaimRow(row, w, now), hist + [R.Claimed(w, now)],
                         x', y', w, |hist| + 1, led);
  }

  lemma Done(run: seq<Action>, now: nat, row: R.Row, hist: seq<R.Entry>, x: P.Worker, y: P.Worker, w: nat, done: nat,
          mark: nat, led: L.Db, txn: nat)
    returns (more: seq<Action>)
    requires Leads(run, At(now, row, hist, x, y, led, F, F))
    requires w <= 1 && (if w == 0 then x == Busy(done, mark) else y == Busy(done, mark)) && done < 5
    requires (done == 3 ==> !L.Recorded(led.entries, 1, L.Payment)) && (done == 2 ==> L.TaxOf(led, 1) == 0)
    ensures Leads(more,
      At(now, row, hist, if w == 0 then Busy(done + 1, mark) else x,
             if w == 1 then Busy(done + 1, mark) else y, LedgerAfter(led, done, txn), F, F))
  {
    DoStep(now, row, hist, x, y, w, done, mark, led, txn);
    var s := At(now, row, hist, x, y, led, F, F);
    Onwards(run, s, Do(w, Io(false, txn)), Apply(SETUP, s, Do(w, Io(false, txn))));
    more := run + [Do(w, Io(false, txn))];
  }

  /** Four statements, up to and including the read of the guard. */
  lemma FourStatements(run: seq<Action>, now: nat, row: R.Row, hist: seq<R.Entry>, x: P.Worker, y: P.Worker, w: nat,
          mark: nat, led: L.Db)
    returns (more: seq<Action>)
    requires w <= 1 && (if w == 0 then x else y) == Busy(0, mark)
    requires Leads(run, At(now, row, hist, x, y, led, F, F))
    requires led.entries == [] && L.TaxOf(led, 1) == 0
    ensures Leads(more,
      At(now, row, hist, if w == 0 then Busy(4, mark) else x, if w == 1 then Busy(4, mark) else y, L.EnsureInvoice(led, 1), F, F))
  {
    more := run;
    var l := led;
    for done := 0 to 4
      invariant l == if done > 2 then L.EnsureInvoice(led, 1) else led
      invariant Leads(more, At(now, row, hist, if w == 0 then Busy(done, mark) else x,
                                if w == 1 then Busy(done, mark) else y, l, F, F))
    {
      more := Done(more, now, row, hist, if w == 0 then Busy(done, mark) else x,
                   if w == 1 then Busy(done, mark) else y, w, done, mark, l, 0);
      l := LedgerAfter(l, done, 0);
    }
  }

  lemma FirstReadsTheGuard() returns (run: seq<Action>)
    ensures Leads(run, At(0, HELD0, HIST0, Busy(4, 1), P.Idle, BILLED, F, F))
  {
    var led := L.Db(map[], []);
    run := Inserted();
    run := Taken(run, 0, R.FRESH, [], P.Idle, P.Idle, 0, led);
    assert [] + [R.Claimed(0, 0)] == HIST0;
    run := FourStatements(run, 0, HELD0, HIST0, Busy(0, 1), P.Idle, 0, 1, led);
  }

  /** The lease of the first worker runs out while it is between guard and transaction; the second takes over
      and reads the guard as well. */
  lemma BothReadTheGuard() returns (run: seq<Action>)
    ensures Leads(run, At(1001, HELD1, HIST1, Busy(4, 1), Busy(4, 2), BILLED, F, F))
  {
    run := FirstReadsTheGuard();
    run := Ticked(run, HELD0, HIST0, Busy(4, 1), P.Idle, BILLED, 1001);
    run := Taken(run, 1001, HELD0, HIST0, Busy(4, 1), P.Idle, 1, BILLED);
    assert HIST0 + [R.Claimed(1, 1001)] == HIST1;
    run := FourStatements(run, 1001, HELD1, HIST1, Busy(4, 1), Busy(0, 2), 1, 2, BILLED);
  }

  lemma NothingYet()
    ensures Start(SETUP.world, EMPTY) && Inv(SETUP, Begin()) && Sales(Begin().tables.led.entries, 1) == 0
  {
    assert Start(SETUP.world, EMPTY);
    InitInv(SETUP, {0, 1}, EMPTY);
  }

  lemma TwoPostings()
    ensures Sales([] + Rows(7) + Rows(8), 1) == 2
  {
    SalesConcat([], Rows(7), 1);
    SalesConcat([] + Rows(7), Rows(8), 1);
    SalesOfPosting(7, 1, L.Order(100, 100), 0, 1);
    SalesOfPosting(8, 1, L.Order(100, 100), 0, 1);
  }

  lemma TwiceMeansOverlap(run: seq<Action>)
    requires CanRun(SETUP, Begin(), run) && NoneSells(run, 1)
    requires Sales(Exec(SETUP, Begin(), run).tables.led.entries, 1) == 2
    ensures Start(SETUP.world, EMPTY)
    ensures !FreshPosts(SETUP, Begin(), run, 1) && !Throughout(SETUP, Begin(), run, (x: State) => BodiesDisjoint(SETUP, x, 1))
  {
    TheProgram();
    NothingYet();
    SoldAtMostOnceIff(SETUP, Begin(), run, 1);
    if Throughout(SETUP, Begin(), run, (x: State) => BodiesDisjoint(SETUP, x, 1)) {
      NoOverlapSuffices(SETUP, {0, 1}, EMPTY, run, 1);
    }
  }

  /** The condition of ExactlyOneSaleIff can fail: this run of the protocol posts the order's sale twice. */
  lemma OverlapPostsTwice() returns (run: seq<Action>)
    ensures ValidSetup(SETUP) && Start(SETUP.world, EMPTY) && CanRun(SETUP, Begin(), run)
    ensures Sales(Exec(SETUP, Begin(), run).tables.led.entries, 1) == 2
    ensures !FreshPosts(SETUP, Begin(), run, 1) && !Throughout(SETUP, Begin(), run, (x: State) => BodiesDisjoint(SETUP, x, 1))
  {
    TheProgram();
    run := BothReadTheGuard();
    run := Done(run, 1001, HELD1, HIST1, Busy(4, 1), Busy(4, 2), 0, 4, 1, BILLED, 7);
    var once := BILLED.(entries := [] + Rows(7));
    run := Done(run, 1001, HELD1, HIST1, Busy(5, 1), Busy(4, 2), 1, 4, 2, once, 8);
    TwoPostings();
    TwiceMeansOverlap(run);
  }
}
