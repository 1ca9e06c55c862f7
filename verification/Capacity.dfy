/** The room of a hosting server under overlapping ORDER_PAID bodies: the choice of a server and the transaction
    that takes a place on it are separate statements. When servers stay within their limits, and a run in which
    two bodies take the last place of one. */
module Capacity {
  import opened Wrappers
  import opened OrderPaid
  import opened Outside
  import opened OneEffect
  import A = Affiliate
  import H = Hosting
  import L = Ledger
  import P = OutboxProtocol
  import R = OutboxRow

  ghost predicate Fits(servers: seq<H.Server>) {
    forall k :: 0 <= k < |servers| ==> servers[k].activeAccounts <= servers[k].maxAccounts
  }

  ghost function ServerOf(u: Setup, s: State, w: WorkerId): nat
    requires w in s.locals && ValidPlacing(s.tables.host, s.locals[w].placing) && s.locals[w].placing.Created?
  {
    s.tables.host.accounts[s.locals[w].placing.account].server
  }

  /** The action is an activation that takes a place. */
  ghost predicate TakesPlace(u: Setup, s: State, a: Action)
    requires Enabled(u, s, a)
  {
    a.Do? && Program(u.world, BodyOrder(u, s, a.w))[BodyDone(u, s, a.w)].HostActivate?
    && s.locals[a.w].placing.Created? && !a.io.fails
    && s.tables.host.servers[ServerOf(u, s, a.w)].provider.MOCK?
  }

  /** An activation finds room on its server when it commits, and administration leaves no server overfilled. */
  ghost predicate HasRoom(u: Setup, s: State, a: Action)
    requires Enabled(u, s, a)
  {
    && (TakesPlace(u, s, a) ==>
         var x := s.tables.host.servers[ServerOf(u, s, a.w)]; x.activeAccounts < x.maxAccounts)
    && (a.Elsewhere? && a.change.Administer? ==> Fits(a.change.servers))
  }

  lemma OneMoreFitsIff(servers: seq<H.Server>, k: nat)
    requires k < |servers| && Fits(servers)
    ensures Fits(servers[k := servers[k].(activeAccounts := servers[k].activeAccounts + 1)]) <==>
      servers[k].activeAccounts < servers[k].maxAccounts
  {
    var t := servers[k := servers[k].(activeAccounts := servers[k].activeAccounts + 1)];
    assert t[k].maxAccounts == servers[k].maxAccounts;
  }

  lemma RunFitsIff(w: World, t: Tables, l: Local, o: OrderId, op: Op, now: nat, io: Io, r: Effect)
    requires ValidPlacing(t.host, l.placing) && r == Run(w, t, l, o, op, now, io) && r.Ok? && Fits(t.host.servers)
    ensures Fits(r.tables.host.servers) <==>
      (op.HostActivate? && l.placing.Created? && !io.fails ==>
         var x := t.host.servers[t.host.accounts[l.placing.account].server];
         x.provider.MOCK? ==> x.activeAccounts < x.maxAccounts)
  {
    if op.HostActivate? && l.placing.Created? {
      OneMoreFitsIff(t.host.servers, t.host.accounts[l.placing.account].server);
    }
  }

  lemma StepFitsIff(u: Setup, s: State, a: Action)
    requires Enabled(u, s, a) && Fits(s.tables.host.servers)
    ensures Fits(Apply(u, s, a).tables.host.servers) <==> HasRoom(u, s, a)
  {
    if a.Do? {
      var o := BodyOrder(u, s, a.w);
      RunFitsIff(u.world, s.tables, s.locals[a.w], o, Program(u.world, o)[BodyDone(u, s, a.w)], s.ob.now, a.io, EffectOf(u, s, a.w, a.io));
    }
  }

  ghost predicate RoomyRun(u: Setup, s: State, run: seq<Action>)
    requires CanRun(u, s, run)
    decreases |run|
  {
    run == [] || (HasRoom(u, s, run[0]) && RoomyRun(u, Apply(u, s, run[0]), run[1..]))
  }

  /** Servers stay within their limits throughout a run of overlapping bodies iff every activation still finds room
      when it commits; that there was room when the server was chosen is not enough. */
  lemma {:induction false} FitsThroughoutIff(u: Setup, s: State, run: seq<Action>)
    requires CanRun(u, s, run) && Fits(s.tables.host.servers)
    ensures Throughout(u, s, run, (x: State) => Fits(x.tables.host.servers)) <==> RoomyRun(u, s, run)
    decreases |run|
  {
    if run != [] {
      var t := Apply(u, s, run[0]);
      StepFitsIff(u, s, run[0]);
      if Fits(t.tables.host.servers) { FitsThroughoutIff(u, t, run[1..]); }
    }
  }

  // ----- two orders, one place

  const Q1 := H.Request(11, 21, 31)
  const Q2 := H.Request(12, 22, 32)
  const WORLD := World(A.Book(map[], map[], map[]), map[], map[1 := [Q1], 2 := [Q2]], false, true, false, false)
  const SETUP := Setup(P.Setup(R.Config(5, 1000, 1),
                               map[0 := P.Event(P.ORDER_PAID, P.Order, 1, None), 1 := P.Event(P.ORDER_PAID, P.Order, 2, None)],
                               map[0 := 6, 1 := 6]), WORLD)

  /** The one simulated server has one place, of which so many are taken. */
  function Servers(taken: int): seq<H.Server> {
    [H.Server(9, H.MOCK, 1, taken, true)]
  }

  const EMPTY := Tables(A.Db(map[], []), H.Db(Servers(0), []), L.Db(map[], []), [])

  function Account(w: nat, st: H.AccountStatus): H.Account {
    if w == 0 then H.Account(0, 11, 1, 21, 31, st) else H.Account(0, 12, 2, 22, 32, st)
  }

  function ProgramOf(w: nat): seq<Op> {
    var q := if w == 0 then Q1 else Q2;
    [Issue, Email, HostCheck(q), HostPick(q), HostCreate(q), HostActivate]
  }

  lemma ThePrograms()
    ensures Program(WORLD, 1) == ProgramOf(0) && Program(WORLD, 2) == ProgramOf(1) && ValidSetup(SETUP)
  {
    assert HostOps([Q1][..0]) == [] && HostOps([Q2][..0]) == [];
    assert HostOps([Q1]) == [HostCheck(Q1), HostPick(Q1), HostCreate(Q1), HostActivate];
    assert HostOps([Q2]) == [HostCheck(Q2), HostPick(Q2), HostCreate(Q2), HostActivate];
  }

  function Busy(w: nat, done: nat): P.Worker {
    P.Running([P.Snapshot(w, 0)], P.Working(done), map[w := 1])
  }

  function Ob(r0: R.Row, h0: seq<R.Entry>, r1: R.Row, h1: seq<R.Entry>, x: P.Worker, y: P.Worker): P.State {
    P.State(0, map[0 := r0, 1 := r1], map[0 := x, 1 := y], map[0 := h0, 1 := h1], {}, [])
  }

  function Held(w: nat): R.Row {
    R.Row(R.PROCESSING, Some(w), Some(0), 0, None)
  }

  /** Worker 0 has event 0, worker 1 event 1; they differ in how far their bodies are. */
  function At(x: nat, y: nat, host: H.Db, a: Local, b: Local): State {
    State(Ob(Held(0), [R.Claimed(0, 0)], Held(1), [R.Claimed(1, 0)], Busy(0, x), Busy(1, y)),
          EMPTY.(host := host), map[0 := a, 1 := b])
  }

  ghost function Begin(): State {
    Init({0, 1}, EMPTY)
  }

  const F := OrderPaid.FRESH
  const BOTH_CHOSE := F.(placing := Chosen(0))

  lemma InsertBoth() returns (run: seq<Action>)
    ensures Reaches(SETUP, Begin(), run, State(Ob(R.FRESH, [], R.FRESH, [], P.Idle, P.Idle), EMPTY, map[0 := F, 1 := F]))
  {
    var s := Begin();
    assert s.ob.workers == map[0 := P.Idle, 1 := P.Idle] && s.locals == map[0 := F, 1 := F];
    var s1 := s.(ob := s.ob.(rows := map[0 := R.FRESH], hist := map[0 := []]));
    assert Apply(SETUP, s, Outbox(P.Insert(0))) == s1;
    Then(SETUP, s, [], s, Outbox(P.Insert(0)), s1);
    var s2 := State(Ob(R.FRESH, [], R.FRESH, [], P.Idle, P.Idle), EMPTY, map[0 := F, 1 := F]);
    assert s1.ob.rows[1 := R.FRESH] == s2.ob.rows && s1.ob.hist[1 := []] == s2.ob.hist;
    run := [] + [Outbox(P.Insert(0))];
    Then(SETUP, s, run, s1, Outbox(P.Insert(1)), s2);
    run := run + [Outbox(P.Insert(1))];
  }

  /** Worker w claims event w, which nobody has touched. */
  lemma ClaimOwn(s: P.State, w: nat, ids: set<EventId>)
    requires w <= 1 && ids == {w} && s.rows.Keys == s.hist.Keys == {0, 1} && s.workers.Keys == {0, 1}
    requires s.rows[w] == R.FRESH && s.hist[w] == [] && s.workers[w].Idle? && s.now == 0
    ensures P.Enabled(SETUP.ob, s, P.Claim(w, ids))
    ensures P.Apply(SETUP.ob, s, P.Claim(w, ids)) ==
      s.(rows := s.rows[w := Held(w)], hist := s.hist[w := [R.Claimed(w, 0)]],
         workers := s.workers[w := P.Holding(ids, map[w := 1])])
  {
    assert |ids| == 1 && w in ids;
    assert [] + [R.Claimed(w, 0)] == [R.Claimed(w, 0)];
    var t := P.Apply(SETUP.ob, s, P.Claim(w, ids));
    assert t.rows == s.rows[w := Held(w)];
    assert t.hist == s.hist[w := [R.Claimed(w, 0)]];
    assert t.workers[w].marks == map[w := 1];
  }

  lemma ReadOwn(s: P.State, w: nat, ids: set<EventId>)
    requires w <= 1 && ids == {w} && s.rows.Keys == s.hist.Keys == {0, 1} && s.workers.Keys == {0, 1}
    requires s.rows[w] == Held(w) && s.workers[w] == P.Holding(ids, map[w := 1])
    ensures P.Enabled(SETUP.ob, s, P.Read(w, [w]))
    ensures P.Apply(SETUP.ob, s, P.Read(w, [w])) == s.(workers := s.workers[w := Busy(w, 0)])
  {
    assert P.Queue(s.rows, [w]) == [P.Snapshot(w, 0)];
  }

  lemma ClaimThen(run: seq<Action>, s: State, w: nat, t: State) returns (more: seq<Action>)
    requires w <= 1 && Reaches(SETUP, Begin(), run, s)
    requires s.ob.rows.Keys == s.ob.hist.Keys == {0, 1} && s.ob.workers.Keys == {0, 1}
    requires s.ob.rows[w] == R.FRESH && s.ob.hist[w] == [] && s.ob.workers[w].Idle? && s.ob.now == 0
    requires t == s.(ob := s.ob.(rows := s.ob.rows[w := Held(w)], hist := s.ob.hist[w := [R.Claimed(w, 0)]],
                                 workers := s.ob.workers[w := P.Holding({w}, map[w := 1])]))
    ensures Reaches(SETUP, Begin(), more, t)
  {
    ClaimOwn(s.ob, w, {w});
    Then(SETUP, Begin(), run, s, Outbox(P.Claim(w, {w})), t);
    more := run + [Outbox(P.Claim(w, {w}))];
  }

  lemma ReadThen(run: seq<Action>, s: State, w: nat, t: State) returns (more: seq<Action>)
    requires w <= 1 && Reaches(SETUP, Begin(), run, s)
    requires s.ob.rows.Keys == s.ob.hist.Keys == {0, 1} && s.ob.workers.Keys == {0, 1}
    requires s.ob.rows[w] == Held(w) && s.ob.workers[w] == P.Holding({w}, map[w := 1])
    requires t == s.(ob := s.ob.(workers := s.ob.workers[w := Busy(w, 0)]))
    ensures Reaches(SETUP, Begin(), more, t)
  {
    ReadOwn(s.ob, w, {w});
    Then(SETUP, Begin(), run, s, Outbox(P.Read(w, [w])), t);
    more := run + [Outbox(P.Read(w, [w]))];
  }

  lemma TakeOwn(run: seq<Action>, s: State, w: nat) returns (more: seq<Action>)
    requires w <= 1 && Reaches(SETUP, Begin(), run, s)
    requires s.ob.rows.Keys == s.ob.hist.Keys == {0, 1} && s.ob.workers.Keys == {0, 1}
    requires s.ob.rows[w] == R.FRESH && s.ob.hist[w] == [] && s.ob.workers[w].Idle? && s.ob.now == 0
    ensures Reaches(SETUP, Begin(), more,
      s.(ob := s.ob.(rows := s.ob.rows[w := Held(w)], hist := s.ob.hist[w := [R.Claimed(w, 0)]],
                     workers := s.ob.workers[w := Busy(w, 0)])))
  {
    var claimed := s.ob.(rows := s.ob.rows[w := Held(w)], hist := s.ob.hist[w := [R.Claimed(w, 0)]],
                         workers := s.ob.workers[w := P.Holding({w}, map[w := 1])]);
    more := ClaimThen(run, s, w, s.(ob := claimed));
    assert claimed.workers[w := Busy(w, 0)] == s.ob.workers[w := Busy(w, 0)];
    more := ReadThen(more, s.(ob := claimed), w, s.(ob := claimed.(workers := claimed.workers[w := Busy(w, 0)])));
  }

  lemma TakenRows(o: P.State, w: nat)
    requires w <= 1
    requires o ==
      if w == 0 then Ob(R.FRESH, [], R.FRESH, [], P.Idle, P.Idle)
      else Ob(Held(0), [R.Claimed(0, 0)], R.FRESH, [], Busy(0, 0), P.Idle)
    ensures o.(rows := o.rows[w := Held(w)], hist := o.hist[w := [R.Claimed(w, 0)]], workers := o.workers[w := Busy(w, 0)]) ==
      if w == 0 then Ob(Held(0), [R.Claimed(0, 0)], R.FRESH, [], Busy(0, 0), P.Idle) else At(0, 0, EMPTY.host, F, F).ob
  {
    var t := if w == 0 then Ob(Held(0), [R.Claimed(0, 0)], R.FRESH, [], Busy(0, 0), P.Idle) else At(0, 0, EMPTY.host, F, F).ob;
    assert o.rows[w := Held(w)] == t.rows;
    assert o.hist[w := [R.Claimed(w, 0)]] == t.hist;
    assert o.workers[w := Busy(w, 0)] == t.workers;
  }

  lemma OneStarts() returns (run: seq<Action>)
    ensures Reaches(SETUP, Begin(), run,
      State(Ob(Held(0), [R.Claimed(0, 0)], R.FRESH, [], Busy(0, 0), P.Idle), EMPTY, map[0 := F, 1 := F]))
  {
    run := InsertBoth();
    TakenRows(Ob(R.FRESH, [], R.FRESH, [], P.Idle, P.Idle), 0);
    run := TakeOwn(run, State(Ob(R.FRESH, [], R.FRESH, [], P.Idle, P.Idle), EMPTY, map[0 := F, 1 := F]), 0);
  }

  /** Each worker has claimed and read its own event. */
  lemma BothStart() returns (run: seq<Action>)
    ensures Reaches(SETUP, Begin(), run, At(0, 0, EMPTY.host, F, F))
  {
    run := OneStarts();
    var o := Ob(Held(0), [R.Claimed(0, 0)], R.FRESH, [], Busy(0, 0), P.Idle);
    TakenRows(o, 1);
    run := TakeOwn(run, State(o, EMPTY, map[0 := F, 1 := F]), 1);
  }

  lemma StepOwn(s: P.State, w: nat, done: nat)
    requires w <= 1 && done < 6 && s.rows.Keys == s.hist.Keys && s.workers.Keys == {0, 1} && s.workers[w] == Busy(w, done)
    ensures P.Enabled(SETUP.ob, s, P.Step(w))
    ensures P.Apply(SETUP.ob, s, P.Step(w)) == s.(workers := s.workers[w := Busy(w, done + 1)])
  {
  }

  /** One statement of w's body, given what it does to the hosting tables and the local. */
  lemma DoOwn(s: State, w: nat, done: nat, host': H.Db, l: Local)
    requires w <= 1 && done < 6 && s.ob.rows.Keys == s.ob.hist.Keys
    requires s.ob.workers.Keys == {0, 1} && s.ob.workers[w] == Busy(w, done)
    requires w in s.locals && ValidPlacing(s.tables.host, s.locals[w].placing)
    requires Run(WORLD, s.tables, s.locals[w], w + 1, ProgramOf(w)[done], s.ob.now, Io(false, 0)) ==
      Ok(s.tables.(host := host'), l)
    ensures Enabled(SETUP, s, Do(w, Io(false, 0)))
    ensures Apply(SETUP, s, Do(w, Io(false, 0))) ==
      State(s.ob.(workers := s.ob.workers[w := Busy(w, done + 1)]), s.tables.(host := host'), s.locals[w := l])
  {
    ThePrograms();
    StepOwn(s.ob, w, done);
    assert InBody(SETUP, s, w) && BodyOrder(SETUP, s, w) == w + 1 && BodyDone(SETUP, s, w) == done;
    assert EffectOf(SETUP, s, w, Io(false, 0)) == Ok(s.tables.(host := host'), l);
  }

  lemma Moved0(x: nat, y: nat, host: H.Db, a: Local, b: Local, host': H.Db, l: Local, s: State)
    requires s == At(x, y, host, a, b)
    ensures State(s.ob.(workers := s.ob.workers[0 := Busy(0, x + 1)]), s.tables.(host := host'), s.locals[0 := l]) ==
      At(x + 1, y, host', l, b)
  {
    assert s.ob.workers[0 := Busy(0, x + 1)] == map[0 := Busy(0, x + 1), 1 := Busy(1, y)];
    assert s.locals[0 := l] == map[0 := l, 1 := b];
  }

  lemma Moved1(x: nat, y: nat, host: H.Db, a: Local, b: Local, host': H.Db, l: Local, s: State)
    requires s == At(x, y, host, a, b)
    ensures State(s.ob.(workers := s.ob.workers[1 := Busy(1, y + 1)]), s.tables.(host := host'), s.locals[1 := l]) ==
      At(x, y + 1, host', a, l)
  {
    assert s.ob.workers[1 := Busy(1, y + 1)] == map[0 := Busy(0, x), 1 := Busy(1, y + 1)];
    assert s.locals[1 := l] == map[0 := a, 1 := l];
  }

  lemma Does0(x: nat, y: nat, host: H.Db, a: Local, b: Local, host': H.Db, l: Local)
    requires x < 6 && ValidPlacing(host, a.placing)
    requires Run(WORLD, EMPTY.(host := host), a, 1, ProgramOf(0)[x], 0, Io(false, 0)) == Ok(EMPTY.(host := host'), l)
    ensures Enabled(SETUP, At(x, y, host, a, b), Do(0, Io(false, 0)))
    ensures Apply(SETUP, At(x, y, host, a, b), Do(0, Io(false, 0))) == At(x + 1, y, host', l, b)
  {
    DoOwn(At(x, y, host, a, b), 0, x, host', l);
    Moved0(x, y, host, a, b, host', l, At(x, y, host, a, b));
  }

  lemma Does1(x: nat, y: nat, host: H.Db, a: Local, b: Local, host': H.Db, l: Local)
    requires y < 6 && ValidPlacing(host, b.placing)
    requires Run(WORLD, EMPTY.(host := host), b, 2, ProgramOf(1)[y], 0, Io(false, 0)) == Ok(EMPTY.(host := host'), l)
    ensures Enabled(SETUP, At(x, y, host, a, b), Do(1, Io(false, 0)))
    ensures Apply(SETUP, At(x, y, host, a, b), Do(1, Io(false, 0))) == At(x, y + 1, host', a, l)
  {
    DoOwn(At(x, y, host, a, b), 1, y, host', l);
    Moved1(x, y, host, a, b, host', l, At(x, y, host, a, b));
  }

  lemma Done0(run: seq<Action>, x: nat, y: nat, host: H.Db, a: Local, b: Local, host': H.Db, l: Local) returns (more: seq<Action>)
    requires Reaches(SETUP, Begin(), run, At(x, y, host, a, b)) && x < 6 && ValidPlacing(host, a.placing)
    requires Run(WORLD, EMPTY.(host := host), a, 1, ProgramOf(0)[x], 0, Io(false, 0)) == Ok(EMPTY.(host := host'), l)
    ensures Reaches(SETUP, Begin(), more, At(x + 1, y, host', l, b))
  {
    Does0(x, y, host, a, b, host', l);
    Then(SETUP, Begin(), run, At(x, y, host, a, b), Do(0, Io(false, 0)), At(x + 1, y, host', l, b));
    more := run + [Do(0, Io(false, 0))];
  }

  lemma Done1(run: seq<Action>, x: nat, y: nat, host: H.Db, a: Local, b: Local, host': H.Db, l: Local) returns (more: seq<Action>)
    requires Reaches(SETUP, Begin(), run, At(x, y, host, a, b)) && y < 6 && ValidPlacing(host, b.placing)
    requires Run(WORLD, EMPTY.(host := host), b, 2, ProgramOf(1)[y], 0, Io(false, 0)) == Ok(EMPTY.(host := host'), l)
    ensures Reaches(SETUP, Begin(), more, At(x, y + 1, host', a, l))
  {
    Does1(x, y, host, a, b, host', l);
    Then(SETUP, Begin(), run, At(x, y, host, a, b), Do(1, Io(false, 0)), At(x, y + 1, host', a, l));
    more := run + [Do(1, Io(false, 0))];
  }

  /** The first four statements choose the server, which still has its place. */
  lemma ChooseStep(w: nat, k: nat, l: Local)
    requires w <= 1 && k < 4 && l == (if k < 3 then F else F.(placing := Wanted))
    ensures Run(WORLD, EMPTY, l, w + 1, ProgramOf(w)[k], 0, Io(false, 0)) ==
      Ok(EMPTY, if k < 2 then F else if k == 2 then F.(placing := Wanted) else BOTH_CHOSE)
  {
    if k == 3 {
      assert Servers(0)[..0] == [];
      assert H.PickServer(Servers(0)[..0], false) == None;
      assert H.Eligible(Servers(0)[0], false);
      assert H.PickServer(Servers(0), false) == Some(0);
    }
  }

  function Chooses(k: nat): Local {
    if k < 3 then F else if k == 3 then F.(placing := Wanted) else BOTH_CHOSE
  }

  lemma OneChoosesNext(run: seq<Action>, k: nat) returns (more: seq<Action>)
    requires k < 4 && Reaches(SETUP, Begin(), run, At(k, 0, EMPTY.host, Chooses(k), F))
    ensures Reaches(SETUP, Begin(), more, At(k + 1, 0, EMPTY.host, Chooses(k + 1), F))
  {
    ChooseStep(0, k, Chooses(k));
    more := Done0(run, k, 0, EMPTY.host, Chooses(k), F, EMPTY.host, Chooses(k + 1));
  }

  lemma OtherChoosesNext(run: seq<Action>, k: nat) returns (more: seq<Action>)
    requires k < 4 && Reaches(SETUP, Begin(), run, At(4, k, EMPTY.host, BOTH_CHOSE, Chooses(k)))
    ensures Reaches(SETUP, Begin(), more, At(4, k + 1, EMPTY.host, BOTH_CHOSE, Chooses(k + 1)))
  {
    ChooseStep(1, k, Chooses(k));
    more := Done1(run, 4, k, EMPTY.host, BOTH_CHOSE, Chooses(k), EMPTY.host, Chooses(k + 1));
  }

  lemma OneChooses() returns (run: seq<Action>)
    ensures Reaches(SETUP, Begin(), run, At(4, 0, EMPTY.host, BOTH_CHOSE, F))
  {
    run := BothStart();
    for k := 0 to 4
      invariant Reaches(SETUP, Begin(), run, At(k, 0, EMPTY.host, Chooses(k), F))
    {
      run := OneChoosesNext(run, k);
    }
  }

  /** Both bodies choose the server while it has its place. */
  lemma BothChoose() returns (run: seq<Action>)
    ensures Reaches(SETUP, Begin(), run, At(4, 4, EMPTY.host, BOTH_CHOSE, BOTH_CHOSE))
  {
    run := OneChooses();
    for k := 0 to 4
      invariant Reaches(SETUP, Begin(), run, At(4, k, EMPTY.host, BOTH_CHOSE, Chooses(k)))
    {
      run := OtherChoosesNext(run, k);
    }
  }

  function Opened(w: nat): seq<H.Account> {
    if w == 0 then [Account(0, H.PROVISIONING)] else [Account(0, H.PROVISIONING), Account(1, H.PROVISIONING)]
  }

  function Created(i: nat): Local {
    F.(placing := Placing.Created(i))
  }

  lemma ActivateSteps()
    ensures Run(WORLD, EMPTY.(host := H.Db(Servers(0), Opened(1))), Created(0), 1, HostActivate, 0, Io(false, 0)) ==
      Ok(EMPTY.(host := H.Db(Servers(1), [Account(0, H.ACTIVE), Account(1, H.PROVISIONING)])), Created(0))
    ensures
      Run(WORLD, EMPTY.(host := H.Db(Servers(1), [Account(0, H.ACTIVE), Account(1, H.PROVISIONING)])), Created(1), 2,
          HostActivate, 0, Io(false, 0)) ==
      Ok(EMPTY.(host := H.Db(Servers(2), [Account(0, H.ACTIVE), Account(1, H.ACTIVE)])), Created(1))
  {
    assert Servers(0)[0 := Servers(1)[0]] == Servers(1) && Servers(1)[0 := Servers(2)[0]] == Servers(2);
    assert Opened(1)[0 := Account(0, H.ACTIVE)] == [Account(0, H.ACTIVE), Account(1, H.PROVISIONING)];
    assert [Account(0, H.ACTIVE), Account(1, H.PROVISIONING)][1 := Account(1, H.ACTIVE)] ==
           [Account(0, H.ACTIVE), Account(1, H.ACTIVE)];
  }

  lemma CreateSteps()
    ensures Run(WORLD, EMPTY, BOTH_CHOSE, 1, HostCreate(Q1), 0, Io(false, 0)) ==
      Ok(EMPTY.(host := H.Db(Servers(0), Opened(0))), Created(0))
    ensures Run(WORLD, EMPTY.(host := H.Db(Servers(0), Opened(0))), BOTH_CHOSE, 2, HostCreate(Q2), 0, Io(false, 0)) ==
      Ok(EMPTY.(host := H.Db(Servers(0), Opened(1))), Created(1))
  {
    assert [] + Opened(0) == Opened(0) && Opened(0) + [Account(1, H.PROVISIONING)] == Opened(1);
  }

  /** Both accounts are created, and both activated, each in a transaction of its own. */
  lemma BothActivate() returns (run: seq<Action>)
    ensures Reaches(SETUP, Begin(), run,
      At(6, 6, H.Db(Servers(2), [Account(0, H.ACTIVE), Account(1, H.ACTIVE)]), Created(0), Created(1)))
  {
    run := BothChoose();
    var h1, h2 := H.Db(Servers(0), Opened(0)), H.Db(Servers(0), Opened(1));
    var h3 := H.Db(Servers(1), [Account(0, H.ACTIVE), Account(1, H.PROVISIONING)]);
    var h4 := H.Db(Servers(2), [Account(0, H.ACTIVE), Account(1, H.ACTIVE)]);
    CreateSteps();
    run := Done0(run, 4, 4, EMPTY.host, BOTH_CHOSE, BOTH_CHOSE, h1, Created(0));
    run := Done1(run, 5, 4, h1, Created(0), BOTH_CHOSE, h2, Created(1));
    ActivateSteps();
    run := Done0(run, 5, 5, h2, Created(0), Created(1), h3, Created(0));
    run := Done1(run, 6, 5, h3, Created(0), Created(1), h4, Created(1));
  }

  lemma {:induction false} FitsAtTheEnd(u: Setup, s: State, run: seq<Action>)
    requires CanRun(u, s, run) && Throughout(u, s, run, (x: State) => Fits(x.tables.host.servers))
    ensures Fits(Exec(u, s, run).tables.host.servers)
    decreases |run|
  {
    if run != [] { FitsAtTheEnd(u, Apply(u, s, run[0]), run[1..]); }
  }

  /** A run of two orders whose bodies overlap and that overfills the only server: the second activation finds no
      room when it commits. */
  lemma OverlapOverfills() returns (run: seq<Action>)
    ensures ValidSetup(SETUP) && Start(SETUP.world, EMPTY) && Fits(EMPTY.host.servers) && CanRun(SETUP, Begin(), run)
    ensures Exec(SETUP, Begin(), run).tables.host.servers == Servers(2) && !Fits(Servers(2))
    ensures !RoomyRun(SETUP, Begin(), run)
  {
    ThePrograms();
    run := BothActivate();
    assert Servers(2)[0].activeAccounts == 2 && Servers(2)[0].maxAccounts == 1;
    assert Fits(Servers(0));
    FitsThroughoutIff(SETUP, Begin(), run);
    if RoomyRun(SETUP, Begin(), run) { FitsAtTheEnd(SETUP, Begin(), run); }
  }
}
