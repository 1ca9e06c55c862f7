/** A run of one order with two hosting requests: a server has room for both, nothing fails, the event becomes
    PROCESSED, and each request has exactly one active account. */
module Fulfilment {
  import opened Wrappers
  import opened OrderPaid
  import opened OneEffect
  import A = Affiliate
  import H = Hosting
  import L = Ledger
  import P = OutboxProtocol
  import R = OutboxRow

  const Q1 := H.Request(11, 21, 31)
  const Q2 := H.Request(12, 22, 32)
  const WORLD := World(A.Book(map[], map[], map[]), map[], map[1 := [Q1, Q2]], false, true, false, false)
  const SETUP := Setup(P.Setup(R.Config(5, 1000, 1), map[0 := P.Event(P.ORDER_PAID, P.Order, 1, None)], map[0 := 10]), WORLD)
  const F := OrderPaid.FRESH

  /** The one simulated server has two places, of which so many are taken. */
  function Servers(taken: int): seq<H.Server> {
    [H.Server(9, H.MOCK, 2, taken, true)]
  }

  function One(st: H.AccountStatus): H.Account {
    H.Account(0, 11, 1, 21, 31, st)
  }

  function Two(st: H.AccountStatus): H.Account {
    H.Account(0, 12, 1, 22, 32, st)
  }

  const EMPTY := Tables(A.Db(map[], []), H.Db(Servers(0), []), L.Db(map[], []), [])

  const STATEMENTS: seq<Op> := [
    Issue, Email,
    HostCheck(Q1), HostPick(Q1), HostCreate(Q1), HostActivate,
    HostCheck(Q2), HostPick(Q2), HostCreate(Q2), HostActivate]

  lemma TheProgram()
    ensures Program(WORLD, 1) == STATEMENTS && ValidSetup(SETUP)
  {
    assert [Q1, Q2][..1] == [Q1] && [Q1][..0] == [];
    assert HostOps([Q1]) == [HostCheck(Q1), HostPick(Q1), HostCreate(Q1), HostActivate];
    assert HostOps([Q1, Q2]) == HostOps([Q1]) + [HostCheck(Q2), HostPick(Q2), HostCreate(Q2), HostActivate];
  }

  /** The hosting tables and the local after so many statements of the body. */
  function HostAt(done: nat): H.Db {
    if done <= 4 then H.Db(Servers(0), [])
    else if done == 5 then H.Db(Servers(0), [One(H.PROVISIONING)])
    else if done <= 8 then H.Db(Servers(1), [One(H.ACTIVE)])
    else if done == 9 then H.Db(Servers(1), [One(H.ACTIVE), Two(H.PROVISIONING)])
    else H.Db(Servers(2), [One(H.ACTIVE), Two(H.ACTIVE)])
  }

  function PlacingAt(done: nat): Placing {
    if done <= 2 then Skip
    else if done == 3 || done == 7 then Wanted
    else if done == 4 || done == 8 then Chosen(0)
    else if done <= 6 then Created(0)
    else Created(1)
  }

  function TablesAt(done: nat): Tables {
    EMPTY.(host := HostAt(done))
  }

  function LocalAt(done: nat): Local {
    F.(placing := PlacingAt(done))
  }

  lemma ServerIsPicked(taken: int)
    requires taken <= 1
    ensures H.PickServer(Servers(taken), false) == Some(0)
  {
    assert Servers(taken)[..0] == [];
    assert H.Eligible(Servers(taken)[0], false);
  }

  ghost predicate Steps(done: nat)
    requires done < 10
  {
    && ValidPlacing(HostAt(done), PlacingAt(done))
    && Run(WORLD, TablesAt(done), LocalAt(done), 1, STATEMENTS[done], 0, Io(false, 0)) == Ok(TablesAt(done + 1), LocalAt(done + 1))
  }

  lemma ChoosingSteps(done: nat)
    requires done <= 3 || done == 6 || done == 7
    ensures Steps(done)
  {
    ServerIsPicked(0);
    ServerIsPicked(1);
  }

  lemma FirstAccountSteps(done: nat)
    requires done == 4 || done == 5
    ensures Steps(done)
  {
    assert Servers(0)[0 := Servers(1)[0]] == Servers(1);
    assert [One(H.PROVISIONING)][0 := One(H.ACTIVE)] == [One(H.ACTIVE)];
  }

  lemma SecondAccountSteps(done: nat)
    requires done == 8 || done == 9
    ensures Steps(done)
  {
    assert [One(H.ACTIVE)] + [Two(H.PROVISIONING)] == [One(H.ACTIVE), Two(H.PROVISIONING)];
    assert Servers(1)[0 := Servers(2)[0]] == Servers(2);
    assert [One(H.ACTIVE), Two(H.PROVISIONING)][1 := Two(H.ACTIVE)] == [One(H.ACTIVE), Two(H.ACTIVE)];
  }

  /** One statement of the body, when it neither fails nor is interrupted. */
  lemma StatementAt(done: nat)
    requires done < 10
    ensures Steps(done)
  {
    if done == 4 || done == 5 { FirstAccountSteps(done); }
    else if done >= 8 { SecondAccountSteps(done); }
    else { ChoosingSteps(done); }
  }

  // ----- the run

  function Ob(row: R.Row, hist: seq<R.Entry>, worker: P.Worker, completed: set<EventId>, reported: seq<EventId>): P.State {
    P.State(0, map[0 := row], map[0 := worker], map[0 := hist], completed, reported)
  }

  const HELD := R.Row(R.PROCESSING, Some(0), Some(0), 0, None)
  const CLAIMED := [R.Claimed(0, 0)]

  function Busy(phase: P.Phase): P.Worker {
    P.Running([P.Snapshot(0, 0)], phase, map[0 := 1])
  }

  function At(done: nat): State {
    State(Ob(HELD, CLAIMED, Busy(P.Working(done)), {}, []), TablesAt(done), map[0 := LocalAt(done)])
  }

  function Finished(): State {
    State(Ob(R.Row(R.PROCESSED, None, None, 0, None), CLAIMED + [R.Finished(0, 0)], P.Idle, {0}, [0]), TablesAt(10), map[0 := LocalAt(10)])
  }

  ghost function Begin(): State {
    Init({0}, EMPTY)
  }

  ghost predicate Leads(run: seq<Action>, t: State) {
    Reaches(SETUP, Begin(), run, t)
  }

  lemma InsertOne() returns (run: seq<Action>)
    ensures Leads(run, State(Ob(R.FRESH, [], P.Idle, {}, []), EMPTY, map[0 := F]))
  {
    var s, t := Begin(), State(Ob(R.FRESH, [], P.Idle, {}, []), EMPTY, map[0 := F]);
    assert s.ob.workers == map[0 := P.Idle] && s.locals == map[0 := F];
    assert s.ob.rows[0 := R.FRESH] == t.ob.rows && s.ob.hist[0 := []] == t.ob.hist;
    Then(SETUP, s, [], s, Outbox(P.Insert(0)), t);
    run := [] + [Outbox(P.Insert(0))];
  }

  lemma ClaimOne(ids: set<EventId>, s: P.State, t: P.State)
    requires ids == {0} && s == Ob(R.FRESH, [], P.Idle, {}, []) && t == Ob(HELD, CLAIMED, P.Holding(ids, map[0 := 1]), {}, [])
    ensures P.Enabled(SETUP.ob, s, P.Claim(0, ids)) && P.Apply(SETUP.ob, s, P.Claim(0, ids)) == t
  {
    assert |ids| == 1 && 0 in ids;
    var r := P.Apply(SETUP.ob, s, P.Claim(0, ids));
    assert [] + [R.Claimed(0, 0)] == CLAIMED;
    assert r.rows == t.rows && r.hist == t.hist;
    assert r.workers[0].marks == map[0 := 1];
    assert r.workers == t.workers;
  }

  lemma ReadOne(s: P.State, t: P.State)
    requires s == Ob(HELD, CLAIMED, P.Holding({0}, map[0 := 1]), {}, []) && t == Ob(HELD, CLAIMED, Busy(P.Working(0)), {}, [])
    ensures P.Enabled(SETUP.ob, s, P.Read(0, [0])) && P.Apply(SETUP.ob, s, P.Read(0, [0])) == t
  {
    assert P.Queue(s.rows, [0]) == [P.Snapshot(0, 0)];
    assert P.Apply(SETUP.ob, s, P.Read(0, [0])).workers == t.workers;
  }

  lemma TakeOne() returns (run: seq<Action>)
    ensures Leads(run, At(0))
  {
    run := InsertOne();
    var s := State(Ob(R.FRESH, [], P.Idle, {}, []), EMPTY, map[0 := F]);
    var m := s.(ob := Ob(HELD, CLAIMED, P.Holding({0}, map[0 := 1]), {}, []));
    ClaimOne({0}, s.ob, m.ob);
    Then(SETUP, Begin(), run, s, Outbox(P.Claim(0, {0})), m);
    run := run + [Outbox(P.Claim(0, {0}))];
    ReadOne(m.ob, At(0).ob);
    Then(SETUP, Begin(), run, m, Outbox(P.Read(0, [0])), At(0));
    run := run + [Outbox(P.Read(0, [0]))];
  }

  lemma StepOne(done: nat, s: P.State)
    requires done < 10 && s == At(done).ob
    ensures P.Enabled(SETUP.ob, s, P.Step(0)) && P.Apply(SETUP.ob, s, P.Step(0)) == At(done + 1).ob
  {
    assert P.Apply(SETUP.ob, s, P.Step(0)).workers == At(done + 1).ob.workers;
  }

  lemma EffectAt(done: nat, s: State)
    requires done < 10 && s == At(done) && Steps(done)
    ensures InBody(SETUP, s, 0) && CanDo(SETUP, s, 0, Io(false, 0))
    ensures EffectOf(SETUP, s, 0, Io(false, 0)) == Ok(TablesAt(done + 1), LocalAt(done + 1))
  {
    TheProgram();
    StepOne(done, s.ob);
    assert BodyOrder(SETUP, s, 0) == 1 && BodyDone(SETUP, s, 0) == done;
  }

  lemma DoesAt(done: nat)
    requires done < 10
    ensures Enabled(SETUP, At(done), Do(0, Io(false, 0))) && Apply(SETUP, At(done), Do(0, Io(false, 0))) == At(done + 1)
  {
    StatementAt(done);
    EffectAt(done, At(done));
    StepOne(done, At(done).ob);
    assert At(done).locals[0 := LocalAt(done + 1)] == At(done + 1).locals;
  }

  /** The body runs through. */
  lemma BodyRuns() returns (run: seq<Action>)
    ensures Leads(run, At(10))
  {
    run := TakeOne();
    for done := 0 to 10
      invariant Leads(run, At(done))
    {
      DoesAt(done);
      Then(SETUP, Begin(), run, At(done), Do(0, Io(false, 0)), At(done + 1));
      run := run + [Do(0, Io(false, 0))];
    }
  }

  lemma ReturnOne(s: P.State, t: P.State)
    requires s == At(10).ob && t == Ob(HELD, CLAIMED, Busy(P.Returned), {0}, [])
    ensures P.Enabled(SETUP.ob, s, P.Return(0)) && P.Apply(SETUP.ob, s, P.Return(0)) == t
  {
    assert {} + {0} == {0};
    assert P.Apply(SETUP.ob, s, P.Return(0)).workers == t.workers;
  }

  lemma FinishOne(s: P.State, t: P.State)
    requires s == Ob(HELD, CLAIMED, Busy(P.Returned), {0}, []) && t == Finished().ob
    ensures P.Enabled(SETUP.ob, s, P.Finalize(0, P.Replied)) && P.Apply(SETUP.ob, s, P.Finalize(0, P.Replied)) == t
  {
    var r := P.Apply(SETUP.ob, s, P.Finalize(0, P.Replied));
    assert r.rows == t.rows && r.hist == t.hist;
    assert r.workers == t.workers && [] + [0] == [0];
  }

  lemma Finishes() returns (run: seq<Action>)
    ensures Leads(run, Finished())
  {
    run := BodyRuns();
    var m := At(10).(ob := Ob(HELD, CLAIMED, Busy(P.Returned), {0}, []));
    ReturnOne(At(10).ob, m.ob);
    Then(SETUP, Begin(), run, At(10), Outbox(P.Return(0)), m);
    run := run + [Outbox(P.Return(0))];
    FinishOne(m.ob, Finished().ob);
    Then(SETUP, Begin(), run, m, Outbox(P.Finalize(0, P.Replied)), Finished());
    run := run + [Outbox(P.Finalize(0, P.Replied))];
  }

  /** Nothing fails, so the event is PROCESSED and the order's two requests have one account each, both active; no
      request was turned away. */
  lemma BothAreFulfilled() returns (run: seq<Action>)
    ensures ValidSetup(SETUP) && Start(WORLD, EMPTY) && CanRun(SETUP, Init({0}, EMPTY), run)
    ensures var s := Exec(SETUP, Init({0}, EMPTY), run);
      && s.ob.rows == map[0 := R.Row(R.PROCESSED, None, None, 0, None)] && s.ob.reported == [0]
      && s.tables.host.accounts == [H.Account(0, 11, 1, 21, 31, H.ACTIVE), H.Account(0, 12, 1, 22, 32, H.ACTIVE)]
      && s.tables.host.servers == [H.Server(9, H.MOCK, 2, 2, true)] && s.tables.missed == []
  {
    TheProgram();
    run := Finishes();
  }
}
