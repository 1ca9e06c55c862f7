/** At-least-once delivery plus idempotent handlers gives one effect: the outbox protocol and the statements
    of the ORDER_PAID handler in one machine, any number of workers, any interleaving, failure or crash. */
module OneEffect {
  import opened Wrappers
  import opened OrderPaid
  import opened Outside
  import P = OutboxProtocol
  import R = OutboxRow
  import A = Affiliate
  import H = Hosting
  import L = Ledger

  type EventId = P.EventId
  type WorkerId = R.WorkerId

  datatype Setup = Setup(ob: P.Setup, world: World)

  predicate IsPaid(u: Setup, id: EventId) {
    id in u.ob.events && u.ob.events[id].eventType.ORDER_PAID? && P.Routable(u.ob.events[id])
  }

  function OrderOf(u: Setup, id: EventId): OrderId
    requires id in u.ob.events
  {
    u.ob.events[id].aggregateId
  }

  /** The handler body of an ORDER_PAID event has one step per statement. */
  ghost predicate ValidSetup(u: Setup) {
    && P.ValidSetup(u.ob)
    && (forall id :: id in u.ob.events && IsPaid(u, id) ==> id in u.ob.steps && u.ob.steps[id] == |Program(u.world, OrderOf(u, id))|)
  }

  // ----- the machine

  datatype State = State(ob: P.State, tables: Tables, locals: map<WorkerId, Local>)

  /** Do: one statement of an ORDER_PAID body completes. Outbox: everything else of the protocol, so that a body
      may throw or its worker crash between any two statements. Elsewhere: the rest of the system at work. */
  datatype Action = Outbox(a: P.Action) | Do(w: WorkerId, io: Io) | Elsewhere(change: Change)

  /** Worker w is in the body of an ORDER_PAID event. */
  predicate InBody(u: Setup, s: State, w: WorkerId) {
    P.AtHead(s.ob, w) && IsPaid(u, P.Head(s.ob, w).id) && s.ob.workers[w].phase.Working?
  }

  function BodyOrder(u: Setup, s: State, w: WorkerId): OrderId
    requires InBody(u, s, w)
  {
    OrderOf(u, P.Head(s.ob, w).id)
  }

  function BodyDone(u: Setup, s: State, w: WorkerId): nat
    requires InBody(u, s, w)
  {
    s.ob.workers[w].phase.done
  }

  function EffectOf(u: Setup, s: State, w: WorkerId, io: Io): Effect
    requires InBody(u, s, w) && w in s.locals && ValidPlacing(s.tables.host, s.locals[w].placing)
    requires BodyDone(u, s, w) < |Program(u.world, BodyOrder(u, s, w))|
  {
    var o := BodyOrder(u, s, w);
    Run(u.world, s.tables, s.locals[w], o, Program(u.world, o)[BodyDone(u, s, w)], s.ob.now, io)
  }

  predicate CanDo(u: Setup, s: State, w: WorkerId, io: Io) {
    && InBody(u, s, w) && P.Enabled(u.ob, s.ob, P.Step(w)) && w in s.locals && ValidPlacing(s.tables.host, s.locals[w].placing)
    && BodyDone(u, s, w) < |Program(u.world, BodyOrder(u, s, w))|
    && EffectOf(u, s, w, io).Ok?
  }

  ghost predicate Enabled(u: Setup, s: State, a: Action) {
    match a
    case Outbox(b) => P.Enabled(u.ob, s.ob, b) && s.ob.rows.Keys == s.ob.hist.Keys && (b.Step? ==> !InBody(u, s, b.w))
    case Do(w, io) => CanDo(u, s, w, io) && s.ob.rows.Keys == s.ob.hist.Keys
    case Elsewhere(c) => CanChange(u.world, s.tables, c)
  }

  ghost function Apply(u: Setup, s: State, a: Action): State
    requires Enabled(u, s, a)
  {
    match a
    case Outbox(b) => s.(ob := P.Apply(u.ob, s.ob, b))
    case Do(w, io) =>
      var r := EffectOf(u, s, w, io);
      State(P.Apply(u.ob, s.ob, P.Step(w)), r.tables, s.locals[w := r.local])
    case Elsewhere(c) => s.(tables := RunChange(u.world, s.tables, c))
  }

  ghost predicate CanRun(u: Setup, s: State, run: seq<Action>)
    decreases |run|
  {
    run == [] || (Enabled(u, s, run[0]) && CanRun(u, Apply(u, s, run[0]), run[1..]))
  }

  ghost function Exec(u: Setup, s: State, run: seq<Action>): State
    requires CanRun(u, s, run)
    decreases |run|
  {
    if run == [] then s else Exec(u, Apply(u, s, run[0]), run[1..])
  }

  lemma OneMore(u: Setup, s: State, run: seq<Action>, a: Action)
    requires CanRun(u, s, run) && Enabled(u, Exec(u, s, run), a)
    ensures CanRun(u, s, run + [a]) && Exec(u, s, run + [a]) == Apply(u, Exec(u, s, run), a)
    decreases |run|
  {
    if run == [] {
      assert run + [a] == [a] && [a][1..] == [];
      assert CanRun(u, Apply(u, s, a), []);
    } else {
      OneMore(u, Apply(u, s, run[0]), run[1..], a);
      assert (run + [a])[1..] == run[1..] + [a];
    }
  }

  /** A run whose every state satisfies p. */
  ghost predicate Throughout(u: Setup, s: State, run: seq<Action>, p: State -> bool)
    requires CanRun(u, s, run)
    decreases |run|
  {
    p(s) && (run != [] ==> Throughout(u, Apply(u, s, run[0]), run[1..], p))
  }

  lemma {:induction false} ThroughoutImplies(u: Setup, s: State, run: seq<Action>, p: State -> bool, q: State -> bool)
    requires CanRun(u, s, run) && Throughout(u, s, run, p) && forall x :: p(x) ==> q(x)
    ensures Throughout(u, s, run, q)
    decreases |run|
  {
    if run != [] { ThroughoutImplies(u, Apply(u, s, run[0]), run[1..], p, q); }
  }

  /** The run leads from s to t. */
  ghost predicate Reaches(u: Setup, s: State, run: seq<Action>, t: State) {
    CanRun(u, s, run) && Exec(u, s, run) == t
  }

  lemma Then(u: Setup, s: State, run: seq<Action>, m: State, a: Action, t: State)
    requires Reaches(u, s, run, m) && Enabled(u, m, a) && Apply(u, m, a) == t
    ensures Reaches(u, s, run + [a], t)
  {
    OneMore(u, s, run, a);
  }

  ghost function Init(workers: set<WorkerId>, t: Tables): State {
    State(P.Init(workers), t, map w | w in workers :: OrderPaid.FRESH)
  }

  // ----- the invariant

  /** The first n statements of the order's handler have done their work. */
  ghost predicate Did(w: World, t: Tables, o: OrderId, n: nat) {
    n <= |Program(w, o)| && forall k :: 0 <= k < n ==> Achieved(w, t, o, Program(w, o)[k])
  }

  ghost predicate BodyInv(w: World, t: Tables, l: Local, o: OrderId, done: nat) {
    Did(w, t, o, done) && (done > 0 ==> Knows(w, t, l, o, Program(w, o)[done - 1]))
  }

  ghost predicate WorkerInv(u: Setup, s: State, w: WorkerId) {
    && w in s.locals && LocalInv(s.tables, s.locals[w])
    && (InBody(u, s, w) ==> BodyInv(u.world, s.tables, s.locals[w], BodyOrder(u, s, w), BodyDone(u, s, w)))
  }

  ghost predicate CompletedInv(u: Setup, s: State, id: EventId) {
    IsPaid(u, id) ==> Did(u.world, s.tables, OrderOf(u, id), |Program(u.world, OrderOf(u, id))|)
  }

  ghost predicate Inv(u: Setup, s: State) {
    && P.Inv(u.ob, s.ob)
    && TablesInv(u.world, s.tables)
    && (forall w :: w in s.ob.workers ==> WorkerInv(u, s, w))
    && (forall id :: id in s.ob.completed ==> CompletedInv(u, s, id))
  }

  lemma DidStays(w: World, t: Tables, t': Tables, o: OrderId, n: nat)
    requires Did(w, t, o, n) && Grows(t, t')
    ensures Did(w, t', o, n)
  {
    forall k | 0 <= k < n ensures Achieved(w, t', o, Program(w, o)[k]) {
      AchievedStays(w, t, t', o, Program(w, o)[k]);
    }
  }

  lemma BodyStays(w: World, t: Tables, t': Tables, l: Local, o: OrderId, done: nat)
    requires BodyInv(w, t, l, o, done) && Grows(t, t')
    ensures BodyInv(w, t', l, o, done)
  {
    DidStays(w, t, t', o, done);
    if done > 0 {
      var last := Program(w, o)[done - 1];
      if last.AffRead? && l.referral.None? { AchievedStays(w, t, t', o, AffTx); }
      if last.LedRead? && l.recorded { AchievedStays(w, t, t', o, LedTx); }
      if (last.HostCheck? || last.HostPick?) && Visited(t, o, last.q) { VisitedStays(t, t', o, last.q); }
    }
  }

  /** One statement keeps the tables, achieves its own work and undoes nobody's. */
  lemma RunKeeps(w: World, t: Tables, l: Local, o: OrderId, op: Op, now: nat, io: Io, r: Effect)
    requires TablesInv(w, t) && LocalInv(t, l) && r == Run(w, t, l, o, op, now, io) && r.Ok?
    requires op.AffTx? ==> Knows(w, t, l, o, AffRead)
    requires op.LedTx? ==> Knows(w, t, l, o, LedRead)
    requires op.HostPick? ==> Knows(w, t, l, o, HostCheck(op.q))
    requires op.HostCreate? ==> Knows(w, t, l, o, HostPick(op.q))
    ensures TablesInv(w, r.tables) && LocalInv(r.tables, r.local)
    ensures Grows(t, r.tables) && HostGrows(t.host, r.tables.host)
    ensures Achieved(w, r.tables, o, op) && Knows(w, r.tables, r.local, o, op)
    ensures A.Consistent(t.aff) ==> A.Consistent(r.tables.aff)
  {
    if op.AffRead? || op.AffTx? { AffStep(w, t, l, o, op, now); }
    else if op.Invoice? || op.LedRead? || op.LedTx? { LedStep(w, t, l, o, op, io); }
    else if !op.Issue? && !op.Email? { HostStep(w, t, l, o, op, io); }
  }

  lemma BodyAdvances(w: World, t: Tables, l: Local, o: OrderId, done: nat, now: nat, io: Io, r: Effect)
    requires TablesInv(w, t) && LocalInv(t, l) && BodyInv(w, t, l, o, done) && done < |Program(w, o)|
    requires r == Run(w, t, l, o, Program(w, o)[done], now, io) && r.Ok?
    ensures TablesInv(w, r.tables) && LocalInv(r.tables, r.local)
    ensures Grows(t, r.tables) && HostGrows(t.host, r.tables.host)
    ensures BodyInv(w, r.tables, r.local, o, done + 1)
    ensures A.Consistent(t.aff) ==> A.Consistent(r.tables.aff)
  {
    ReadsComeFirst(w, o, done);
    RunKeeps(w, t, l, o, Program(w, o)[done], now, io, r);
    DidStays(w, t, r.tables, o, done);
  }

  /** Another worker, and the completed events, when the tables have grown. */
  lemma OthersKeep(u: Setup, s: State, t: State, v: WorkerId)
    requires WorkerInv(u, s, v) && v in t.locals && t.locals[v] == s.locals[v]
    requires v in s.ob.workers && v in t.ob.workers && t.ob.workers[v] == s.ob.workers[v]
    requires Grows(s.tables, t.tables) && HostGrows(s.tables.host, t.tables.host) && HostInv(t.tables.host)
    ensures WorkerInv(u, t, v)
  {
    if InBody(u, t, v) { BodyStays(u.world, s.tables, t.tables, s.locals[v], BodyOrder(u, s, v), BodyDone(u, s, v)); }
  }

  lemma CompletedKeep(u: Setup, s: State, t: State, id: EventId)
    requires CompletedInv(u, s, id) && Grows(s.tables, t.tables)
    ensures CompletedInv(u, t, id)
  {
    if IsPaid(u, id) { DidStays(u.world, s.tables, t.tables, OrderOf(u, id), |Program(u.world, OrderOf(u, id))|); }
  }

  lemma DoAdvances(u: Setup, s: State, w: WorkerId, io: Io, t: State)
    requires TablesInv(u.world, s.tables) && WorkerInv(u, s, w) && Enabled(u, s, Do(w, io)) && t == Apply(u, s, Do(w, io))
    ensures TablesInv(u.world, t.tables) && WorkerInv(u, t, w)
    ensures Grows(s.tables, t.tables) && HostGrows(s.tables.host, t.tables.host)
    ensures A.Consistent(s.tables.aff) ==> A.Consistent(t.tables.aff)
  {
    var o, done := BodyOrder(u, s, w), BodyDone(u, s, w);
    BodyAdvances(u.world, s.tables, s.locals[w], o, done, s.ob.now, io, EffectOf(u, s, w, io));
    assert InBody(u, t, w) && BodyOrder(u, t, w) == o && BodyDone(u, t, w) == done + 1;
  }

  lemma DoKeepsInv(u: Setup, s: State, w: WorkerId, io: Io)
    requires ValidSetup(u) && Inv(u, s) && Enabled(u, s, Do(w, io))
    ensures Inv(u, Apply(u, s, Do(w, io)))
  {
    var t := Apply(u, s, Do(w, io));
    assert WorkerInv(u, s, w);
    DoAdvances(u, s, w, io, t);
    P.StepKeepsInv(u.ob, s.ob, P.Step(w));
    forall v | v in t.ob.workers ensures WorkerInv(u, t, v) {
      if v != w {
        assert WorkerInv(u, s, v);
        OthersKeep(u, s, t, v);
      }
    }
    forall id | id in t.ob.completed ensures CompletedInv(u, t, id) {
      CompletedKeep(u, s, t, id);
    }
  }

  lemma ElsewhereKeepsInv(u: Setup, s: State, c: Change)
    requires Inv(u, s) && Enabled(u, s, Elsewhere(c))
    ensures Inv(u, Apply(u, s, Elsewhere(c)))
  {
    var t := Apply(u, s, Elsewhere(c));
    ChangeKeeps(u.world, s.tables, c);
    forall v | v in t.ob.workers ensures WorkerInv(u, t, v) {
      assert WorkerInv(u, s, v);
      OthersKeep(u, s, t, v);
    }
    forall id | id in t.ob.completed ensures CompletedInv(u, t, id) {
      CompletedKeep(u, s, t, id);
    }
  }

  /** A protocol action leaves a worker where it is, out of any body, or before the first statement of one. */
  lemma OutboxMoves(u: Setup, s: State, b: P.Action, v: WorkerId)
    requires Enabled(u, s, Outbox(b)) && v in s.ob.workers
    ensures var t := Apply(u, s, Outbox(b));
      v in t.ob.workers && (t.ob.workers[v] == s.ob.workers[v] || (InBody(u, t, v) ==> BodyDone(u, t, v) == 0))
  {
  }

  lemma OutboxKeepsWorker(u: Setup, s: State, b: P.Action, v: WorkerId)
    requires Enabled(u, s, Outbox(b)) && v in s.ob.workers && WorkerInv(u, s, v)
    ensures WorkerInv(u, Apply(u, s, Outbox(b)), v)
  {
    OutboxMoves(u, s, b, v);
  }

  /** Only a body that ran to its end completes an event. */
  lemma OutboxCompletes(u: Setup, s: State, b: P.Action, id: EventId)
    requires ValidSetup(u) && Enabled(u, s, Outbox(b)) && id in Apply(u, s, Outbox(b)).ob.completed && id !in s.ob.completed
    requires forall w :: w in s.ob.workers ==> WorkerInv(u, s, w)
    ensures CompletedInv(u, s, id)
  {
    assert b.Return? && id == P.Head(s.ob, b.w).id;
    assert WorkerInv(u, s, b.w);
    if IsPaid(u, id) { assert InBody(u, s, b.w); }
  }

  lemma OutboxKeepsInv(u: Setup, s: State, b: P.Action)
    requires ValidSetup(u) && Inv(u, s) && Enabled(u, s, Outbox(b))
    ensures Inv(u, Apply(u, s, Outbox(b)))
  {
    var t := Apply(u, s, Outbox(b));
    forall v | v in t.ob.workers ensures WorkerInv(u, t, v) {
      assert v in s.ob.workers;
      OutboxKeepsWorker(u, s, b, v);
    }
    forall id | id in t.ob.completed ensures CompletedInv(u, t, id) {
      if id !in s.ob.completed { OutboxCompletes(u, s, b, id); }
    }
    P.StepKeepsInv(u.ob, s.ob, b);
  }

  lemma StepKeepsInv(u: Setup, s: State, a: Action)
    requires ValidSetup(u) && Inv(u, s) && Enabled(u, s, a)
    ensures Inv(u, Apply(u, s, a))
  {
    match a {
      case Outbox(b) => OutboxKeepsInv(u, s, b);
      case Do(w, io) => DoKeepsInv(u, s, w, io);
      case Elsewhere(c) => ElsewhereKeepsInv(u, s, c);
    }
  }

  lemma {:induction false} RunKeepsInv(u: Setup, s: State, run: seq<Action>)
    requires ValidSetup(u) && Inv(u, s) && CanRun(u, s, run)
    ensures Inv(u, Exec(u, s, run))
    decreases |run|
  {
    if run != [] {
      StepKeepsInv(u, s, run[0]);
      RunKeepsInv(u, Apply(u, s, run[0]), run[1..]);
    }
  }

  /** Any lawful tables, with the referrals and postings of whatever was handled before. */
  ghost predicate Start(w: World, t: Tables) {
    TablesInv(w, t) && A.Consistent(t.aff) && t.missed == []
  }

  lemma InitInv(u: Setup, workers: set<WorkerId>, t: Tables)
    requires Start(u.world, t)
    ensures Inv(u, Init(workers, t))
  {
    P.InitInv(u.ob, workers);
  }

  // ----- balances

  /** No clawback of the run commits on a status it did not read. */
  ghost predicate CurrentRun(u: Setup, s: State, run: seq<Action>)
    requires CanRun(u, s, run)
    decreases |run|
  {
    run == [] || ((run[0].Elsewhere? ==> Current(s.tables, run[0].change)) && CurrentRun(u, Apply(u, s, run[0]), run[1..]))
  }

  lemma StepBalancesIff(u: Setup, s: State, a: Action)
    requires Inv(u, s) && Enabled(u, s, a) && A.Consistent(s.tables.aff)
    ensures A.Consistent(Apply(u, s, a).tables.aff) <==> (a.Elsewhere? ==> Current(s.tables, a.change))
  {
    match a {
      case Outbox(_) =>
      case Do(w, io) =>
        assert WorkerInv(u, s, w);
        DoAdvances(u, s, w, io, Apply(u, s, a));
      case Elsewhere(c) => ChangeConservesIff(u.world, s.tables, c);
    }
  }

  /** Balances are right in every state of a run iff no clawback in it is stale; however often the handler runs,
      overlaps and crashes, it never credits an order twice. */
  lemma {:induction false} BalancedThroughoutIff(u: Setup, s: State, run: seq<Action>)
    requires ValidSetup(u) && Inv(u, s) && CanRun(u, s, run) && A.Consistent(s.tables.aff)
    ensures Throughout(u, s, run, (x: State) => A.Consistent(x.tables.aff)) <==> CurrentRun(u, s, run)
    ensures CurrentRun(u, s, run) ==> A.Consistent(Exec(u, s, run).tables.aff)
    decreases |run|
  {
    if run != [] {
      var t := Apply(u, s, run[0]);
      StepBalancesIff(u, s, run[0]);
      StepKeepsInv(u, s, run[0]);
      if A.Consistent(t.tables.aff) { BalancedThroughoutIff(u, t, run[1..]); }
    }
  }

  // ----- one effect

  /** With the module on, exactly one referral when some account earns from the order, none otherwise; always for an
      active account that is not the buyer's, with its share of the order's total. */
  ghost predicate OneReferral(w: World, db: A.Db, o: OrderId) {
    && (forall i, j :: 0 <= i < j < |db.referrals| ==> !(db.referrals[i].order == o && db.referrals[j].order == o))
    && (forall i :: 0 <= i < |db.referrals| && db.referrals[i].order == o ==> Right(w.book, db.referrals[i]))
    && (w.affiliate ==> (HasReferral(db.referrals, o) <==> exists a :: A.Earns(w.book, o, a)))
  }

  lemma AllWorkIsDone(w: World, t: Tables, o: OrderId)
    requires TablesInv(w, t) && Did(w, t, o, |Program(w, o)|)
    ensures OneReferral(w, t.aff, o)
    ensures w.finance && o in w.orders ==> L.Recorded(t.led.entries, o, L.Payment)
    ensures w.hosting && o in w.requests ==> forall i :: 0 <= i < |w.requests[o]| ==> Visited(t, o, w.requests[o][i])
  {
    var aff, led := ProgramHas(w, o);
    if w.affiliate { assert Achieved(w, t, o, Program(w, o)[aff]); }
    if w.finance { assert Achieved(w, t, o, Program(w, o)[led]); }
    A.ResolveIff(w.book, o, 0, 0);
    if HasReferral(t.aff.referrals, o) {
      var i :| 0 <= i < |t.aff.referrals| && t.aff.referrals[i].order == o;
      assert Right(w.book, t.aff.referrals[i]);
    }
    if w.hosting && o in w.requests {
      forall i | 0 <= i < |w.requests[o]| ensures Visited(t, o, w.requests[o][i]) {
        var k := ProgramVisits(w, o, i);
        assert Achieved(w, t, o, Program(w, o)[k]);
      }
    }
  }

  // ----- entitlements left without an account

  /** The statement makes a body of order o leave request q without an account: in production no real server is active
      and has room; or the creation fails, by itself or because the entitlement, the domain or the user name is taken. */
  ghost predicate Leaves(s: H.Db, production: bool, op: Op, io: Io, q: H.Request) {
    match op
    case HostPick(x) =>
      && x == q && production
      && forall j :: 0 <= j < |s.servers| ==>
           !(s.servers[j].isActive && s.servers[j].activeAccounts < s.servers[j].maxAccounts && s.servers[j].provider != H.MOCK)
    case HostCreate(x) =>
      && x == q
      && (io.fails || exists a :: a in s.accounts && (a.entitlement == q.entitlement || a.domain == q.domain || a.username == q.username))
    case _ => false
  }

  ghost predicate TurnsAway(u: Setup, s: State, a: Action, o: OrderId, q: H.Request)
    requires Enabled(u, s, a)
  {
    && a.Do? && BodyOrder(u, s, a.w) == o
    && Leaves(s.tables.host, u.world.production, Program(u.world, o)[BodyDone(u, s, a.w)], a.io, q)
  }

  /** Somewhere in the run a body of order o had to leave request q. */
  ghost predicate TurnedAway(u: Setup, s: State, run: seq<Action>, o: OrderId, q: H.Request)
    requires CanRun(u, s, run)
    decreases |run|
  {
    run != [] && (TurnsAway(u, s, run[0], o, q) || TurnedAway(u, Apply(u, s, run[0]), run[1..], o, q))
  }

  lemma OpMisses(w: World, t: Tables, l: Local, o: OrderId, op: Op, now: nat, io: Io, r: Effect, x: OrderId, q: H.Request)
    requires ValidPlacing(t.host, l.placing) && r == Run(w, t, l, o, op, now, io) && r.Ok?
    requires (x, q) in r.tables.missed && (x, q) !in t.missed
    ensures x == o && Leaves(t.host, w.production, op, io, q)
  {
    if op.HostPick? && l.placing.Wanted? {
      assert H.PickServer(t.host.servers, w.production).None?;
      assert forall j :: 0 <= j < |t.host.servers| ==> !H.Eligible(t.host.servers[j], w.production);
    }
  }

  lemma StepMisses(u: Setup, s: State, a: Action, t: State, o: OrderId, q: H.Request)
    requires Enabled(u, s, a) && t == Apply(u, s, a) && (o, q) in t.tables.missed && (o, q) !in s.tables.missed
    ensures TurnsAway(u, s, a, o, q)
  {
    match a {
      case Do(w, io) =>
        var x := BodyOrder(u, s, w);
        OpMisses(u.world, s.tables, s.locals[w], x, Program(u.world, x)[BodyDone(u, s, w)], s.ob.now, io,
                 EffectOf(u, s, w, io), o, q);
      case _ =>
    }
  }

  lemma {:induction false} MissedWasTurnedAway(u: Setup, s: State, run: seq<Action>, o: OrderId, q: H.Request)
    requires CanRun(u, s, run) && (o, q) in Exec(u, s, run).tables.missed && (o, q) !in s.tables.missed
    ensures TurnedAway(u, s, run, o, q)
    decreases |run|
  {
    if run != [] {
      var t := Apply(u, s, run[0]);
      if (o, q) in t.tables.missed { StepMisses(u, s, run[0], t, o, q); } else { MissedWasTurnedAway(u, t, run[1..], o, q); }
    }
  }

  ghost predicate OneAccountEach(db: H.Db) {
    forall i, j :: 0 <= i < j < |db.accounts| ==> db.accounts[i].entitlement != db.accounts[j].entitlement
  }

  /** What a PROCESSED ORDER_PAID event has left behind, in every run, overlapping bodies included: the work of
      every statement is done. If some account earns from the order, it has exactly one referral, for that account and
      with exactly its share, and without a stale clawback every balance is the sum of its referrals. Each hosting
      request of the order has exactly one account, unless a body of the order came to it and found no server or could
      not create it. The sale is in the ledger, which is zero-sum. */
  lemma OneEffect(u: Setup, workers: set<WorkerId>, t: Tables, run: seq<Action>, id: EventId)
    requires ValidSetup(u) && Start(u.world, t) && CanRun(u, Init(workers, t), run)
    requires var s := Exec(u, Init(workers, t), run);
      id in s.ob.rows && s.ob.rows[id].status.PROCESSED? && id in u.ob.events && u.ob.events[id].eventType.ORDER_PAID?
    ensures var s := Exec(u, Init(workers, t), run); var o := OrderOf(u, id);
      && OneReferral(u.world, s.tables.aff, o)
      && (CurrentRun(u, Init(workers, t), run) ==> A.Consistent(s.tables.aff))
      && OneAccountEach(s.tables.host)
      && (u.world.hosting && o in u.world.requests ==>
           forall i :: 0 <= i < |u.world.requests[o]| ==>
             || (exists a :: a in s.tables.host.accounts && a.entitlement == u.world.requests[o][i].entitlement)
             || TurnedAway(u, Init(workers, t), run, o, u.world.requests[o][i]))
      && (u.world.finance && o in u.world.orders ==> L.Recorded(s.tables.led.entries, o, L.Payment))
      && L.Balance(s.tables.led.entries) == 0
  {
    InitInv(u, workers, t);
    RunKeepsInv(u, Init(workers, t), run);
    BalancedThroughoutIff(u, Init(workers, t), run);
    var s, o := Exec(u, Init(workers, t), run), OrderOf(u, id);
    assert P.RowInv(u.ob, s.ob, id);
    assert CompletedInv(u, s, id) && IsPaid(u, id);
    AllWorkIsDone(u.world, s.tables, o);
    if u.world.hosting && o in u.world.requests {
      forall i | 0 <= i < |u.world.requests[o]| && !H.HasEntitlement(s.tables.host.accounts, u.world.requests[o][i].entitlement)
        ensures TurnedAway(u, Init(workers, t), run, o, u.world.requests[o][i])
      {
        assert Visited(s.tables, o, u.world.requests[o][i]);
        MissedWasTurnedAway(u, Init(workers, t), run, o, u.world.requests[o][i]);
      }
    }
  }

  /** So when no request of the order was turned away, each has exactly one account. */
  lemma EveryRequestHasItsAccount(u: Setup, workers: set<WorkerId>, t: Tables, run: seq<Action>, id: EventId, i: nat)
    returns (k: nat)
    requires ValidSetup(u) && Start(u.world, t) && CanRun(u, Init(workers, t), run)
    requires var s := Exec(u, Init(workers, t), run);
      id in s.ob.rows && s.ob.rows[id].status.PROCESSED? && id in u.ob.events && u.ob.events[id].eventType.ORDER_PAID?
    requires var o := OrderOf(u, id);
      && u.world.hosting && o in u.world.requests && i < |u.world.requests[o]|
      && !TurnedAway(u, Init(workers, t), run, o, u.world.requests[o][i])
    ensures var accounts := Exec(u, Init(workers, t), run).tables.host.accounts;
      k < |accounts| && forall j :: 0 <= j < |accounts| ==>
        (accounts[j].entitlement == u.world.requests[OrderOf(u, id)][i].entitlement <==> j == k)
  {
    OneEffect(u, workers, t, run, id);
    var accounts := Exec(u, Init(workers, t), run).tables.host.accounts;
    var e := u.world.requests[OrderOf(u, id)][i].entitlement;
    var a :| a in accounts && a.entitlement == e;
    k :| 0 <= k < |accounts| && accounts[k] == a;
  }

  /** In every run, at any time, nobody is credited for an order of their own, or while not active. */
  lemma NobodyEarnsFromThemselves(u: Setup, workers: set<WorkerId>, t: Tables, run: seq<Action>, i: nat)
    requires ValidSetup(u) && Start(u.world, t) && CanRun(u, Init(workers, t), run)
    requires i < |Exec(u, Init(workers, t), run).tables.aff.referrals|
    ensures var r := Exec(u, Init(workers, t), run).tables.aff.referrals[i]; var b := u.world.book;
      && r.order in b.orders && r.affiliate in b.profiles
      && b.profiles[r.affiliate].userId != b.orders[r.order].userId && b.profiles[r.affiliate].status == A.AFF_ACTIVE
  {
    InitInv(u, workers, t);
    RunKeepsInv(u, Init(workers, t), run);
    assert Right(u.world.book, Exec(u, Init(workers, t), run).tables.aff.referrals[i]);
  }
}
