/** processOutboxEvents run by any number of workers against one table, as a state machine:
    every database statement, every completed handler step, every failure and every crash
    is one action, and any interleaving of the workers' actions is a run. */
module OutboxProtocol {
  import opened Wrappers
  import opened OutboxRow

  type EventId = nat

  datatype EventType =
    | ORDER_PAID | ORDER_REFUNDED | ENTITLEMENT_REVOKED
    | HOSTING_ACCOUNT_PROVISIONED | HOSTING_ACCOUNT_SUSPENDED | HOSTING_ACCOUNT_UNSUSPENDED
    | HOSTING_ACCOUNT_TERMINATED | HOSTING_ACCOUNT_FAILED | INVOICE_GENERATED | LEDGER_POSTED
    | TICKET_CREATED | TICKET_REPLIED | TICKET_STATUS_CHANGED | SERVICE_INQUIRY_CREATED
    | Unsupported(name: string)

  datatype AggregateType = Order | ServiceInquiry | OtherAggregate(name: string)

  /** payloadRef is the id the payload repeats (orderId or inquiryId), None when it is absent or empty. */
  datatype Event = Event(eventType: EventType, aggregateType: AggregateType, aggregateId: nat, payloadRef: Option<nat>)

  /** False for the events on which the dispatch chain throws before it reaches a handler. */
  predicate Routable(e: Event) {
    match e.eventType
    case ORDER_PAID => e.aggregateType.Order? && (e.payloadRef.Some? ==> e.payloadRef.value == e.aggregateId)
    case SERVICE_INQUIRY_CREATED => e.aggregateType.ServiceInquiry? && (e.payloadRef.Some? ==> e.payloadRef.value == e.aggregateId)
    case Unsupported(_) => false
    case _ => true
  }

  /** What the dispatch chain turns down: types it does not know, and an order or an inquiry whose aggregate is of
      another kind or whose payload names another id. */
  lemma RoutableIff(e: Event)
    ensures !Routable(e) <==>
      || e.eventType.Unsupported?
      || (e.eventType == ORDER_PAID && (e.aggregateType != Order || (e.payloadRef != None && e.payloadRef != Some(e.aggregateId))))
      || (e.eventType == SERVICE_INQUIRY_CREATED &&
           (e.aggregateType != ServiceInquiry || (e.payloadRef != None && e.payloadRef != Some(e.aggregateId))))
  {
  }

  /** steps[id] is the number of awaited steps in the handler body of event id, whatever it is. */
  datatype Setup = Setup(cfg: Config, events: map<EventId, Event>, steps: map<EventId, nat>)

  ghost predicate ValidSetup(u: Setup) {
    u.cfg.maxRetries >= 1 && u.steps.Keys == u.events.Keys
  }

  // ----- state

  datatype Snapshot = Snapshot(id: EventId, retryCount: nat)

  /** Where a worker stands in the try block of the event at the head of its queue. */
  datatype Phase = Working(done: nat) | Returned | Threw

  /** marks (history variable): for each id of the batch, the length of that row's history just after the claim. */
  datatype Worker =
    | Idle
    | Holding(ids: set<EventId>, marks: map<EventId, nat>)
    | Running(queue: seq<Snapshot>, phase: Phase, marks: map<EventId, nat>)

  /** hist, completed and reported are history variables: per row the statements that took effect,
      the events some handler run completed, and the ids pushed onto results as PROCESSED. */
  datatype State = State(
    now: nat,
    rows: map<EventId, Row>,
    workers: map<WorkerId, Worker>,
    hist: map<EventId, seq<Entry>>,
    completed: set<EventId>,
    reported: seq<EventId>
  )

  /** Reply of a settle statement; a lost reply leaves open whether the statement was committed. */
  datatype Io = Replied | Lost(committed: bool)

  datatype Action =
    | Insert(id: EventId)
    | Tick(ms: nat)
    | Claim(w: WorkerId, ids: set<EventId>)
    | Read(w: WorkerId, order: seq<EventId>)
    | Step(w: WorkerId)
    | Return(w: WorkerId)
    | Throw(w: WorkerId)
    | Finalize(w: WorkerId, io: Io)
    | Fail(w: WorkerId, io: Io)
    | Crash(w: WorkerId)

  ghost function Init(workers: set<WorkerId>): State {
    State(0, map[], map w | w in workers :: Idle, map[], {}, [])
  }

  predicate Distinct(ids: seq<EventId>) {
    forall i, j :: 0 <= i < j < |ids| ==> ids[i] != ids[j]
  }

  predicate AtHead(s: State, w: WorkerId) {
    w in s.workers && s.workers[w].Running? && s.workers[w].queue != []
  }

  function Head(s: State, w: WorkerId): Snapshot
    requires AtHead(s, w)
  {
    s.workers[w].queue[0]
  }

  predicate Enabled(u: Setup, s: State, a: Action) {
    match a
    case Insert(id) => id in u.events && id !in s.rows
    case Tick(_) => true
    case Claim(w, ids) =>
      && w in s.workers && s.workers[w].Idle?
      && ids <= s.rows.Keys && |ids| <= u.cfg.batchSize
      && forall id :: id in ids ==> Claimable(s.rows[id], s.now, u.cfg.leaseMs)
    case Read(w, order) =>
      && w in s.workers && s.workers[w].Holding?
      && s.workers[w].ids <= s.rows.Keys
      && Distinct(order)
      && (forall id :: id in order ==> id in s.workers[w].ids) && (forall id :: id in s.workers[w].ids ==> id in order)
    case Step(w) =>
      && AtHead(s, w) && Head(s, w).id in u.events && Head(s, w).id in u.steps
      && Routable(u.events[Head(s, w).id])
      && s.workers[w].phase.Working? && s.workers[w].phase.done < u.steps[Head(s, w).id]
    case Return(w) =>
      && AtHead(s, w) && Head(s, w).id in u.events && Head(s, w).id in u.steps
      && Routable(u.events[Head(s, w).id])
      && s.workers[w].phase == Working(u.steps[Head(s, w).id])
    case Throw(w) => AtHead(s, w) && s.workers[w].phase.Working?
    case Finalize(w, _) => AtHead(s, w) && s.workers[w].phase.Returned? && Head(s, w).id in s.rows && Head(s, w).id in s.hist
    case Fail(w, _) => AtHead(s, w) && s.workers[w].phase.Threw? && Head(s, w).id in s.rows && Head(s, w).id in s.hist
    case Crash(w) => w in s.workers
  }

  /** The events findMany returns, in the order it returns them. */
  function Queue(rows: map<EventId, Row>, order: seq<EventId>): seq<Snapshot>
    requires forall id :: id in order ==> id in rows
  {
    seq(|order|, i requires 0 <= i < |order| => Snapshot(order[i], rows[order[i]].retryCount))
  }

  function Advance(queue: seq<Snapshot>, marks: map<EventId, nat>): Worker
    requires queue != []
  {
    if |queue| == 1 then Idle else Running(queue[1..], Working(0), marks)
  }

  ghost function SetWorker(s: State, w: WorkerId, x: Worker): State {
    s.(workers := s.workers[w := x])
  }

  ghost function Write(s: State, id: EventId, r: Row, e: Entry): State
    requires id in s.hist
  {
    s.(rows := s.rows[id := r], hist := s.hist[id := s.hist[id] + [e]])
  }

  ghost function Apply(u: Setup, s: State, a: Action): State
    requires Enabled(u, s, a) && s.rows.Keys == s.hist.Keys
  {
    match a
    case Insert(id) => s.(rows := s.rows[id := FRESH], hist := s.hist[id := []])
    case Tick(ms) => s.(now := s.now + ms)
    case Claim(w, ids) =>
      s.(rows := map id | id in s.rows :: if id in ids then ClaimRow(s.rows[id], w, s.now) else s.rows[id],
         hist := map id | id in s.hist :: if id in ids then s.hist[id] + [Claimed(w, s.now)] else s.hist[id],
         workers := s.workers[w := if ids == {} then Idle else Holding(ids, map id | id in ids :: |s.hist[id]| + 1)])
    case Read(w, order) =>
      var queue := Queue(s.rows, order);
      SetWorker(s, w, if queue == [] then Idle else Running(queue, Working(0), s.workers[w].marks))
    case Step(w) =>
      SetWorker(s, w, s.workers[w].(phase := Working(s.workers[w].phase.done + 1)))
    case Return(w) =>
      SetWorker(s, w, s.workers[w].(phase := Returned)).(completed := s.completed + {Head(s, w).id})
    case Throw(w) =>
      SetWorker(s, w, s.workers[w].(phase := Threw))
    case Finalize(w, io) =>
      var id := Head(s, w).id;
      var matched := Holds(s.rows[id], w);
      var t := if matched && (io.Replied? || io.committed) then Write(s, id, FinishRow(s.rows[id]), Finished(w, s.now)) else s;
      if io.Lost? then SetWorker(t, w, s.workers[w].(phase := Threw))
      else SetWorker(t, w, Advance(s.workers[w].queue, s.workers[w].marks))
           .(reported := if matched then s.reported + [id] else s.reported)
    case Fail(w, io) =>
      var id := Head(s, w).id;
      var t := if Holds(s.rows[id], w) && (io.Replied? || io.committed)
        then Write(s, id, FailRow(s.rows[id], Head(s, w).retryCount, s.now, u.cfg.maxRetries), Failed(w, s.now)) else s;
      SetWorker(t, w, if io.Lost? then Idle else Advance(s.workers[w].queue, s.workers[w].marks))
    case Crash(w) => SetWorker(s, w, Idle)
  }

  // ----- the invariant

  ghost predicate RowInv(u: Setup, s: State, id: EventId)
    requires id in s.rows && id in s.hist
  {
    && id in u.events
    && Legal(s.hist[id], u.cfg)
    && NotAfter(s.hist[id], s.now)
    && s.rows[id] == Replay(s.hist[id], u.cfg.maxRetries)
    && (s.rows[id].status.PROCESSED? ==> id in s.completed)
  }

  /** A claim of this batch is in the row's history, and it is the last entry while w still holds the row. */
  ghost predicate MarkInv(s: State, w: WorkerId, id: EventId, mark: nat) {
    && id in s.rows && id in s.hist
    && 1 <= mark <= |s.hist[id]|
    && s.hist[id][mark - 1].Claimed? && s.hist[id][mark - 1].w == w
    && (Holds(s.rows[id], w) ==> |s.hist[id]| == mark)
  }

  ghost predicate SnapshotInv(s: State, w: WorkerId, x: Snapshot, marks: map<EventId, nat>) {
    && x.id in marks && x.id in s.rows
    && (Holds(s.rows[x.id], w) ==> x.retryCount == s.rows[x.id].retryCount)
  }

  ghost predicate WorkerInv(u: Setup, s: State, w: WorkerId)
    requires w in s.workers
  {
    match s.workers[w]
    case Idle => true
    case Holding(ids, marks) =>
      ids == marks.Keys && forall id :: id in marks ==> MarkInv(s, w, id, marks[id])
    case Running(queue, phase, marks) =>
      && (forall id :: id in marks ==> MarkInv(s, w, id, marks[id]))
      && queue != []
      && (forall i :: 0 <= i < |queue| ==> SnapshotInv(s, w, queue[i], marks))
      && (phase.Returned? ==> queue[0].id in s.completed)
      && (phase.Working? && phase.done > 0 ==>
           queue[0].id in u.events && queue[0].id in u.steps && Routable(u.events[queue[0].id]) && phase.done <= u.steps[queue[0].id])
  }

  ghost predicate RowsInv(u: Setup, s: State) {
    s.rows.Keys == s.hist.Keys && forall id :: id in s.rows ==> RowInv(u, s, id)
  }

  ghost predicate WorkersInv(u: Setup, s: State) {
    forall w :: w in s.workers ==> WorkerInv(u, s, w)
  }

  ghost predicate ReportsInv(u: Setup, s: State) {
    && (forall id :: id in s.completed ==> id in u.events && Routable(u.events[id]))
    && Distinct(s.reported)
    && (forall i :: 0 <= i < |s.reported| ==> s.reported[i] in s.rows && s.rows[s.reported[i]].status.PROCESSED?)
  }

  ghost predicate Inv(u: Setup, s: State) {
    RowsInv(u, s) && WorkersInv(u, s) && ReportsInv(u, s)
  }

  lemma InitInv(u: Setup, workers: set<WorkerId>)
    ensures Inv(u, Init(workers))
  {
  }

  /** What the other workers may do to a row without disturbing w: nothing at all while w holds it. */
  ghost predicate Undisturbed(s: State, t: State, w: WorkerId, id: EventId) {
    id in s.rows && id in s.hist ==>
      && id in t.rows && id in t.hist
      && s.hist[id] <= t.hist[id]
      && (Holds(t.rows[id], w) ==> t.rows[id] == s.rows[id] && t.hist[id] == s.hist[id])
  }

  lemma BystanderInv(u: Setup, s: State, t: State, w: WorkerId)
    requires w in s.workers && w in t.workers && t.workers[w] == s.workers[w]
    requires WorkerInv(u, s, w) && s.completed <= t.completed
    requires forall id :: Undisturbed(s, t, w, id)
    ensures WorkerInv(u, t, w)
  {
    var x := s.workers[w];
    if !x.Idle? {
      forall id | id in x.marks ensures MarkInv(t, w, id, x.marks[id]) {
        assert MarkInv(s, w, id, x.marks[id]);
        assert Undisturbed(s, t, w, id);
      }
    }
    if x.Running? {
      forall i | 0 <= i < |x.queue| ensures SnapshotInv(t, w, x.queue[i], x.marks) {
        assert SnapshotInv(s, w, x.queue[i], x.marks);
        assert MarkInv(s, w, x.queue[i].id, x.marks[x.queue[i].id]);
        assert Undisturbed(s, t, w, x.queue[i].id);
      }
    }
  }

  /** The actor's own state after it moved on within its batch. */
  lemma ActorInv(u: Setup, s: State, t: State, w: WorkerId, y: Worker)
    requires w in s.workers && WorkerInv(u, s, w) && s.workers[w].Running?
    requires y.Idle? || (y.Running? && y.marks == s.workers[w].marks && y.queue != [])
    requires y.Running? ==> y.queue == s.workers[w].queue || (y.queue == s.workers[w].queue[1..] && y.phase == Working(0))
    requires y.Running? && y.phase.Returned? ==> y.queue[0].id in t.completed
    requires y.Running? && y.phase.Working? && y.phase.done > 0 ==>
      y.queue[0].id in u.events && y.queue[0].id in u.steps && Routable(u.events[y.queue[0].id]) && y.phase.done <= u.steps[y.queue[0].id]
    requires w in t.workers && t.workers[w] == y
    requires forall id :: Undisturbed(s, t, w, id)
    ensures WorkerInv(u, t, w)
  {
    var x := s.workers[w];
    if y.Running? {
      forall id | id in y.marks ensures MarkInv(t, w, id, y.marks[id]) {
        assert MarkInv(s, w, id, x.marks[id]);
        assert Undisturbed(s, t, w, id);
      }
      forall i | 0 <= i < |y.queue| ensures SnapshotInv(t, w, y.queue[i], y.marks) {
        assert y.queue[i] in x.queue;
        var k :| 0 <= k < |x.queue| && x.queue[k] == y.queue[i];
        assert SnapshotInv(s, w, x.queue[k], x.marks);
        assert MarkInv(s, w, x.queue[k].id, x.marks[x.queue[k].id]);
        assert Undisturbed(s, t, w, x.queue[k].id);
      }
    }
  }

  /** What a settle statement writes. */
  ghost function Settled(u: Setup, s: State, a: Action): (Row, Entry)
    requires (a.Finalize? || a.Fail?) && Enabled(u, s, a)
  {
    var id := Head(s, a.w).id;
    if a.Finalize? then (FinishRow(s.rows[id]), Finished(a.w, s.now))
    else (FailRow(s.rows[id], Head(s, a.w).retryCount, s.now, u.cfg.maxRetries), Failed(a.w, s.now))
  }

  lemma SettleRowInv(u: Setup, s: State, a: Action)
    requires RowsInv(u, s) && (a.Finalize? || a.Fail?) && Enabled(u, s, a) && WorkerInv(u, s, a.w)
    requires Holds(s.rows[Head(s, a.w).id], a.w)
    ensures var id := Head(s, a.w).id; var (r, e) := Settled(u, s, a); var h := s.hist[id] + [e];
      && Legal(h, u.cfg) && NotAfter(h, s.now) && r == Replay(h, u.cfg.maxRetries)
      && (r.status.PROCESSED? ==> id in s.completed)
  {
    var id := Head(s, a.w).id;
    var (r, e) := Settled(u, s, a);
    assert SnapshotInv(s, a.w, s.workers[a.w].queue[0], s.workers[a.w].marks);
    assert RowInv(u, s, id);
    Extend(s.hist[id], e);
  }

  lemma RowCarriesOver(u: Setup, s: State, t: State, id: EventId)
    requires id in s.rows && id in s.hist && RowInv(u, s, id)
    requires id in t.rows && id in t.hist && t.rows[id] == s.rows[id] && t.hist[id] == s.hist[id]
    requires s.now <= t.now && s.completed <= t.completed
    ensures RowInv(u, t, id)
  {
  }

  lemma SettleWrites(u: Setup, s: State, a: Action, t: State)
    requires s.rows.Keys == s.hist.Keys && (a.Finalize? || a.Fail?) && Enabled(u, s, a) && t == Apply(u, s, a)
    ensures var id := Head(s, a.w).id; var (r, e) := Settled(u, s, a);
      && t.now == s.now && t.completed == s.completed
      && ((t.rows == s.rows && t.hist == s.hist)
          || (Holds(s.rows[id], a.w) && t.rows == s.rows[id := r] && t.hist == s.hist[id := s.hist[id] + [e]]))
  {
  }

  lemma SettleKeepsRows(u: Setup, s: State, a: Action)
    requires RowsInv(u, s) && (a.Finalize? || a.Fail?) && Enabled(u, s, a) && WorkerInv(u, s, a.w)
    ensures RowsInv(u, Apply(u, s, a))
  {
    var t := Apply(u, s, a);
    var id := Head(s, a.w).id;
    SettleWrites(u, s, a, t);
    if Holds(s.rows[id], a.w) { SettleRowInv(u, s, a); }
    forall x | x in t.rows ensures RowInv(u, t, x) {
      if x != id || t.hist == s.hist { RowCarriesOver(u, s, t, x); }
    }
  }

  lemma SettleUndisturbs(u: Setup, s: State, a: Action, v: WorkerId, x: EventId)
    requires s.rows.Keys == s.hist.Keys && (a.Finalize? || a.Fail?) && Enabled(u, s, a)
    ensures Undisturbed(s, Apply(u, s, a), v, x)
  {
  }

  lemma SettleKeepsWorkers(u: Setup, s: State, a: Action)
    requires s.rows.Keys == s.hist.Keys && WorkersInv(u, s)
    requires (a.Finalize? || a.Fail?) && Enabled(u, s, a)
    ensures WorkersInv(u, Apply(u, s, a))
  {
    var t := Apply(u, s, a);
    assert WorkerInv(u, s, a.w);
    forall v | v in t.workers ensures WorkerInv(u, t, v) {
      assert WorkerInv(u, s, v);
      forall x ensures Undisturbed(s, t, v, x) {
        SettleUndisturbs(u, s, a, v, x);
      }
      if v == a.w { ActorInv(u, s, t, v, t.workers[v]); } else { BystanderInv(u, s, t, v); }
    }
  }

  lemma SettleKeepsReports(u: Setup, s: State, a: Action)
    requires s.rows.Keys == s.hist.Keys && ReportsInv(u, s)
    requires (a.Finalize? || a.Fail?) && Enabled(u, s, a)
    ensures ReportsInv(u, Apply(u, s, a))
  {
  }

  lemma ClaimKeepsWorkers(u: Setup, s: State, a: Action)
    requires s.rows.Keys == s.hist.Keys && WorkersInv(u, s)
    requires a.Claim? && Enabled(u, s, a)
    ensures WorkersInv(u, Apply(u, s, a))
  {
    var t := Apply(u, s, a);
    forall v | v in t.workers ensures WorkerInv(u, t, v) {
      assert WorkerInv(u, s, v);
      if v != a.w { BystanderInv(u, s, t, v); }
    }
  }

  lemma ClaimKeepsInv(u: Setup, s: State, a: Action)
    requires ValidSetup(u) && Inv(u, s) && a.Claim? && Enabled(u, s, a)
    ensures Inv(u, Apply(u, s, a))
  {
    var t := Apply(u, s, a);
    forall id | id in t.rows ensures RowInv(u, t, id) {
      assert RowInv(u, s, id);
      Extend(s.hist[id], Claimed(a.w, s.now));
    }
    ClaimKeepsWorkers(u, s, a);
  }

  lemma ReadKeepsWorkers(u: Setup, s: State, a: Action)
    requires s.rows.Keys == s.hist.Keys && WorkersInv(u, s)
    requires a.Read? && Enabled(u, s, a)
    ensures WorkersInv(u, Apply(u, s, a))
  {
    var t := Apply(u, s, a);
    forall v | v in t.workers ensures WorkerInv(u, t, v) {
      assert WorkerInv(u, s, v);
      if v != a.w {
        BystanderInv(u, s, t, v);
      } else if a.order != [] {
        forall i | 0 <= i < |a.order| ensures SnapshotInv(t, v, t.workers[v].queue[i], t.workers[v].marks) {
          assert a.order[i] in s.workers[v].ids;
        }
        forall id | id in t.workers[v].marks ensures MarkInv(t, v, id, t.workers[v].marks[id]) {
          assert MarkInv(s, v, id, s.workers[v].marks[id]);
        }
      }
    }
  }

  lemma LocalKeepsWorkers(u: Setup, s: State, a: Action)
    requires s.rows.Keys == s.hist.Keys && WorkersInv(u, s)
    requires (a.Step? || a.Return? || a.Throw? || a.Crash?) && Enabled(u, s, a)
    ensures WorkersInv(u, Apply(u, s, a))
  {
    var t := Apply(u, s, a);
    forall v | v in t.workers ensures WorkerInv(u, t, v) {
      assert WorkerInv(u, s, v);
      if v != a.w { BystanderInv(u, s, t, v); }
      else if !a.Crash? { ActorInv(u, s, t, v, t.workers[v]); }
    }
  }

  lemma TableKeepsWorkers(u: Setup, s: State, a: Action)
    requires s.rows.Keys == s.hist.Keys && WorkersInv(u, s)
    requires (a.Insert? || a.Tick?) && Enabled(u, s, a)
    ensures WorkersInv(u, Apply(u, s, a))
  {
    var t := Apply(u, s, a);
    forall v | v in t.workers ensures WorkerInv(u, t, v) {
      assert WorkerInv(u, s, v);
      BystanderInv(u, s, t, v);
    }
  }

  /** Rows and reports under the actions that take no statement's effect. */
  lemma QuietKeepsRows(u: Setup, s: State, a: Action)
    requires RowsInv(u, s) && ReportsInv(u, s) && Enabled(u, s, a)
    requires !a.Claim? && !a.Finalize? && !a.Fail?
    ensures RowsInv(u, Apply(u, s, a)) && ReportsInv(u, Apply(u, s, a))
  {
    var t := Apply(u, s, a);
    forall id | id in t.rows ensures RowInv(u, t, id) {
      if id in s.rows { RowCarriesOver(u, s, t, id); }
    }
  }

  lemma StepKeepsInv(u: Setup, s: State, a: Action)
    requires ValidSetup(u) && Inv(u, s) && Enabled(u, s, a)
    ensures Inv(u, Apply(u, s, a))
  {
    if a.Finalize? || a.Fail? { assert WorkerInv(u, s, a.w); }
    match a {
      case Claim(_, _) => ClaimKeepsInv(u, s, a);
      case Finalize(_, _) => SettleKeepsRows(u, s, a); SettleKeepsWorkers(u, s, a); SettleKeepsReports(u, s, a);
      case Fail(_, _) => SettleKeepsRows(u, s, a); SettleKeepsWorkers(u, s, a); SettleKeepsReports(u, s, a);
      case Insert(_) => QuietKeepsRows(u, s, a); TableKeepsWorkers(u, s, a);
      case Tick(_) => QuietKeepsRows(u, s, a); TableKeepsWorkers(u, s, a);
      case Read(_, _) => QuietKeepsRows(u, s, a); ReadKeepsWorkers(u, s, a);
      case _ => QuietKeepsRows(u, s, a); LocalKeepsWorkers(u, s, a);
    }
  }

  // ----- runs

  ghost predicate CanRun(u: Setup, s: State, run: seq<Action>)
    decreases |run|
  {
    run == [] ||
    (s.rows.Keys == s.hist.Keys && Enabled(u, s, run[0]) && CanRun(u, Apply(u, s, run[0]), run[1..]))
  }

  ghost function Exec(u: Setup, s: State, run: seq<Action>): State
    requires CanRun(u, s, run)
    decreases |run|
  {
    if run == [] then s else Exec(u, Apply(u, s, run[0]), run[1..])
  }

  lemma {:induction false} RunKeepsInv(u: Setup, s: State, run: seq<Action>)
    requires ValidSetup(u) && Inv(u, s) && CanRun(u, s, run)
    ensures Inv(u, Exec(u, s, run))
    decreases |run|
  {
    if run != [] {
      StepKeepsInv(u, s, run[0]);
      RunKeepsInv(u, Apply(u, s, run[0]), run[1..]);
    }
  }

  ghost predicate ReachedBy(u: Setup, workers: set<WorkerId>, run: seq<Action>, s: State) {
    CanRun(u, Init(workers), run) && s == Exec(u, Init(workers), run)
  }

  /** The states some run reaches from the empty table. */
  ghost predicate Reachable(u: Setup, s: State) {
    exists workers, run :: ReachedBy(u, workers, run, s)
  }

  lemma ReachableInv(u: Setup, s: State)
    requires ValidSetup(u) && Reachable(u, s)
    ensures Inv(u, s)
  {
    var workers, run :| ReachedBy(u, workers, run, s);
    InitInv(u, workers);
    RunKeepsInv(u, Init(workers), run);
  }

  lemma {:induction false} RunsCompose(u: Setup, s: State, run: seq<Action>, more: seq<Action>)
    requires CanRun(u, s, run) && CanRun(u, Exec(u, s, run), more)
    ensures CanRun(u, s, run + more) && Exec(u, s, run + more) == Exec(u, Exec(u, s, run), more)
    decreases |run|
  {
    if run == [] {
      assert run + more == more;
    } else {
      RunsCompose(u, Apply(u, s, run[0]), run[1..], more);
      assert (run + more)[1..] == run[1..] + more;
    }
  }

  lemma OneMore(u: Setup, s: State, run: seq<Action>, a: Action)
    requires CanRun(u, s, run)
    requires var t := Exec(u, s, run); t.rows.Keys == t.hist.Keys && Enabled(u, t, a)
    ensures CanRun(u, s, run + [a]) && Exec(u, s, run + [a]) == Apply(u, Exec(u, s, run), a)
  {
    assert [a][1..] == [];
    RunsCompose(u, s, run, [a]);
  }

  // ----- what the protocol guarantees

  /** Fencing: a settle takes effect iff nothing at all happened to the row since the worker's own claim
      of this batch, and then the retry count the worker read is the row's. */
  lemma Fencing(u: Setup, s: State, w: WorkerId)
    requires ValidSetup(u) && Reachable(u, s) && AtHead(s, w)
    ensures var x := Head(s, w); var marks := s.workers[w].marks;
      && x.id in s.rows && x.id in s.hist && x.id in marks && 1 <= marks[x.id] <= |s.hist[x.id]|
      && s.hist[x.id][marks[x.id] - 1].Claimed? && s.hist[x.id][marks[x.id] - 1].w == w
      && (Holds(s.rows[x.id], w) <==> |s.hist[x.id]| == marks[x.id])
      && (Holds(s.rows[x.id], w) ==> x.retryCount == s.rows[x.id].retryCount)
  {
    ReachableInv(u, s);
    assert WorkerInv(u, s, w);
    var x := Head(s, w);
    assert SnapshotInv(s, w, x, s.workers[w].marks);
    assert MarkInv(s, w, x.id, s.workers[w].marks[x.id]);
    assert RowInv(u, s, x.id);
    HeldByLastClaim(s.hist[x.id], u.cfg.maxRetries);
  }

  lemma HeadIsKnown(u: Setup, s: State, w: WorkerId)
    requires ValidSetup(u) && Reachable(u, s) && AtHead(s, w)
    ensures var id := Head(s, w).id; id in s.rows && id in s.hist && id in u.events && id in u.steps
  {
    Fencing(u, s, w);
    ReachableInv(u, s);
    assert RowInv(u, s, Head(s, w).id);
  }

  lemma BatchIsKnown(u: Setup, s: State, w: WorkerId)
    requires ValidSetup(u) && Reachable(u, s) && w in s.workers && s.workers[w].Holding?
    ensures s.workers[w].ids <= s.rows.Keys
  {
    ReachableInv(u, s);
    assert WorkerInv(u, s, w);
    forall id | id in s.workers[w].ids ensures id in s.rows {
      assert MarkInv(s, w, id, s.workers[w].marks[id]);
    }
  }

  /** No retry increment is lost or doubled: a failing settle adds one when it takes effect and nothing when it does not. */
  lemma RetriesAreCounted(u: Setup, s: State, w: WorkerId, io: Io)
    requires ValidSetup(u) && Reachable(u, s) && Enabled(u, s, Fail(w, io)) && s.rows.Keys == s.hist.Keys
    ensures var id := Head(s, w).id; var t := Apply(u, s, Fail(w, io));
      if Holds(s.rows[id], w) && io != Lost(false)
      then t.rows[id].retryCount == s.rows[id].retryCount + 1
           && t.rows[id].status == (if s.rows[id].retryCount + 1 >= u.cfg.maxRetries then FAILED else PENDING)
      else t.rows == s.rows
  {
    Fencing(u, s, w);
  }

  /** Every row of a reachable table is the replay of a legal history, so the theorems about
      histories (retry bound, lease spacing, back-off, final states) hold of every row of every run. */
  lemma RowsFollowTheirHistories(u: Setup, s: State, id: EventId)
    requires ValidSetup(u) && Reachable(u, s) && id in s.rows
    ensures id in s.hist && Legal(s.hist[id], u.cfg) && s.rows[id] == Replay(s.hist[id], u.cfg.maxRetries)
    ensures var r := s.rows[id];
      && (if r.status.FAILED? then r.retryCount == u.cfg.maxRetries else r.retryCount < u.cfg.maxRetries)
      && (r.status.PROCESSING? <==> r.lockOwner.Some?) && (r.status.PROCESSING? <==> r.lockedAt.Some?)
  {
    ReachableInv(u, s);
    assert RowInv(u, s, id);
    RetryInvariant(s.hist[id], u.cfg);
  }

  /** PROCESSED means done: some handler run of the event completed, and events the dispatch chain
      rejects are never PROCESSED. */
  lemma ProcessedMeansDone(u: Setup, s: State, id: EventId)
    requires ValidSetup(u) && Reachable(u, s) && id in s.rows && s.rows[id].status.PROCESSED?
    ensures id in s.completed && id in u.events
    ensures var e := u.events[id];
      && !e.eventType.Unsupported?
      && (e.eventType == ORDER_PAID ==> e.aggregateType == Order && e.payloadRef in {None, Some(e.aggregateId)})
      && (e.eventType == SERVICE_INQUIRY_CREATED ==>
           e.aggregateType == ServiceInquiry && e.payloadRef in {None, Some(e.aggregateId)})
  {
    ReachableInv(u, s);
    assert RowInv(u, s, id);
    RoutableIff(u.events[id]);
  }

  /** Over all runs of all workers an event id is reported PROCESSED at most once, and only if it is. */
  lemma ReportedAtMostOnce(u: Setup, s: State)
    requires ValidSetup(u) && Reachable(u, s)
    ensures Distinct(s.reported)
    ensures forall i :: 0 <= i < |s.reported| ==> s.reported[i] in s.rows && s.rows[s.reported[i]].status.PROCESSED?
  {
    ReachableInv(u, s);
  }
}
