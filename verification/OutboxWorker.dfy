/** processOutboxEvents as the loop it is, over tables other workers keep changing: the method
    is proved to perform a run of the protocol and to report exactly the settles that took effect. */
module OutboxWorker {
  import opened Wrappers
  import opened OutboxRow
  import opened OutboxProtocol

  datatype Report = Report(id: EventId, status: Status)

  /** What the environment decides for one event: how far the handler gets, whether it throws,
      and how the settle statements are answered. */
  datatype Turn = Turn(progress: nat, throws: bool, finalize: Io, fail: Io)

  predicate ActsFor(a: Action, w: WorkerId) {
    !a.Insert? && !a.Tick? && a.w == w
  }

  /** The entry one action adds to the results of worker w: a settle of w that matched and was answered. */
  ghost function ReportOf(u: Setup, s: State, a: Action, w: WorkerId): seq<Report>
    requires Enabled(u, s, a) && s.rows.Keys == s.hist.Keys
  {
    if (a.Finalize? || a.Fail?) && a.w == w && a.io.Replied? && Holds(s.rows[Head(s, w).id], w)
    then [Report(Head(s, w).id, Apply(u, s, a).rows[Head(s, w).id].status)]
    else []
  }

  ghost function ReportsOf(u: Setup, s: State, run: seq<Action>, w: WorkerId): seq<Report>
    requires CanRun(u, s, run)
    decreases |run|
  {
    if run == [] then []
    else ReportOf(u, s, run[0], w) + ReportsOf(u, Apply(u, s, run[0]), run[1..], w)
  }

  lemma {:induction false} OneMoreReport(u: Setup, s: State, run: seq<Action>, a: Action, w: WorkerId)
    requires CanRun(u, s, run)
    requires var t := Exec(u, s, run); t.rows.Keys == t.hist.Keys && Enabled(u, t, a)
    ensures CanRun(u, s, run + [a])
    ensures ReportsOf(u, s, run + [a], w) == ReportsOf(u, s, run, w) + ReportOf(u, Exec(u, s, run), a, w)
    decreases |run|
  {
    OneMore(u, s, run, a);
    if run == [] {
      assert [a][1..] == [];
    } else {
      OneMoreReport(u, Apply(u, s, run[0]), run[1..], a, w);
      assert (run + [a])[1..] == run[1..] + [a];
    }
  }

  lemma MovesAreEnabled(u: Setup, s: State, w: WorkerId)
    requires AtHead(s, w) && s.workers[w].phase.Working? && Head(s, w).id in u.events && Head(s, w).id in u.steps
    ensures Enabled(u, s, Throw(w))
    ensures Routable(u.events[Head(s, w).id]) ==>
      (Enabled(u, s, Step(w)) <==> s.workers[w].phase.done < u.steps[Head(s, w).id])
      && (Enabled(u, s, Return(w)) <==> s.workers[w].phase.done == u.steps[Head(s, w).id])
  {
  }

  // ----- what is written to the histories while a worker is busy

  /** y continues x, with statements of other workers than w only. */
  ghost predicate Foreign(x: seq<Entry>, y: seq<Entry>, w: WorkerId) {
    x <= y && forall k :: |x| <= k < |y| ==> y[k].w != w
  }

  ghost predicate OthersWrote(h: map<EventId, seq<Entry>>, g: map<EventId, seq<Entry>>, w: WorkerId) {
    forall id :: id in h ==> id in g && Foreign(h[id], g[id], w)
  }

  /** Worker w itself wrote at most to row own. */
  ghost predicate WroteAt(h: map<EventId, seq<Entry>>, g: map<EventId, seq<Entry>>, w: WorkerId, own: EventId) {
    forall id :: id in h ==> id in g && h[id] <= g[id] && (id != own ==> Foreign(h[id], g[id], w))
  }

  /** Nothing was written but to row own. */
  ghost predicate SettleWrote(h: map<EventId, seq<Entry>>, g: map<EventId, seq<Entry>>, own: EventId) {
    && own in h && own in g && h[own] <= g[own]
    && forall id :: id in h && id != own ==> id in g && g[id] == h[id]
  }

  lemma OthersWroteThen(h: map<EventId, seq<Entry>>, g: map<EventId, seq<Entry>>, f: map<EventId, seq<Entry>>, w: WorkerId)
    requires OthersWrote(h, g, w) && OthersWrote(g, f, w)
    ensures OthersWrote(h, f, w)
  {
    forall id | id in h ensures id in f && Foreign(h[id], f[id], w) {
      assert Foreign(h[id], g[id], w) && Foreign(g[id], f[id], w);
    }
  }

  lemma SettledBetween(h: map<EventId, seq<Entry>>, g: map<EventId, seq<Entry>>, f: map<EventId, seq<Entry>>,
          e: map<EventId, seq<Entry>>, w: WorkerId, own: EventId)
    requires OthersWrote(h, g, w) && SettleWrote(g, f, own) && OthersWrote(f, e, w)
    ensures WroteAt(h, e, w, own)
  {
    forall id | id in h ensures id in e && h[id] <= e[id] && (id != own ==> Foreign(h[id], e[id], w)) {
      assert Foreign(h[id], g[id], w) && id in g && id in f && Foreign(f[id], e[id], w);
    }
  }

  lemma TryThenFail(h: map<EventId, seq<Entry>>, g: map<EventId, seq<Entry>>, f: map<EventId, seq<Entry>>, w: WorkerId,
          own: EventId)
    requires WroteAt(h, g, w, own) && SettleWrote(g, f, own)
    ensures WroteAt(h, f, w, own) && (SettleWrote(h, g, own) ==> SettleWrote(h, f, own))
  {
    forall id | id in h ensures id in f && h[id] <= f[id] && (id != own ==> Foreign(h[id], f[id], w)) {
      assert h[id] <= g[id];
    }
  }

  /** After the first m statements on the row, none was w's. */
  ghost predicate NoneOf(x: seq<Entry>, m: nat, w: WorkerId) {
    m <= |x| && forall k :: m <= k < |x| ==> x[k].w != w
  }

  /** The statement that followed the first m on the row was w's. */
  ghost predicate NextIs(x: seq<Entry>, m: nat, w: WorkerId) {
    m < |x| && x[m].w == w
  }

  lemma ActionWrites(u: Setup, s: State, a: Action, w: WorkerId)
    requires Enabled(u, s, a) && s.rows.Keys == s.hist.Keys && !ActsFor(a, w)
    ensures OthersWrote(s.hist, Apply(u, s, a).hist, w)
  {
  }

  /** The handler of the event runs to its end. */
  ghost predicate RunsThrough(u: Setup, id: EventId, turn: Turn) {
    id in u.events && id in u.steps && Routable(u.events[id]) && !turn.throws && turn.progress >= u.steps[id]
  }

  /** The status an iteration reports when w still holds the row: PROCESSED if the handler ran through and that was
      answered; if it did not, or the settle was lost before it was committed, PENDING while a retry is left and
      FAILED otherwise. */
  ghost predicate CallsFor(u: Setup, x: Snapshot, turn: Turn, st: Status) {
    if RunsThrough(u, x.id, turn) && turn.finalize.Replied? then st == PROCESSED
    else
      && (RunsThrough(u, x.id, turn) ==> !turn.finalize.committed)
      && st == if x.retryCount + 1 >= u.cfg.maxRetries then FAILED else PENDING
  }

  /** The exception of an iteration leaves the loop: its failing settle was not answered. */
  ghost predicate Escapes(u: Setup, id: EventId, turn: Turn) {
    !(RunsThrough(u, id, turn) && turn.finalize.Replied?) && turn.fail.Lost?
  }

  lemma NoneOfStays(x: seq<Entry>, y: seq<Entry>, m: nat, w: WorkerId)
    requires NoneOf(x, m, w) && Foreign(x, y, w)
    ensures NoneOf(y, m, w)
  {
    forall k | m <= k < |y| ensures y[k].w != w {
      if k < |x| { assert y[k] == x[k]; }
    }
  }

  /** What follows the claim on a row, after the settle of w on x and whatever others wrote to make y. */
  lemma NextAfterSettle(x: seq<Entry>, wrote: seq<Entry>, y: seq<Entry>, m: nat, w: WorkerId)
    requires NoneOf(x, m, w) && Foreign(x + wrote, y, w)
    requires wrote != [] ==> |x| == m && |wrote| == 1 && wrote[0].w == w
    ensures NextIs(y, m, w) <==> wrote != []
    ensures wrote == [] ==> NoneOf(y, m, w)
    ensures |x| != m || wrote != [] ==> m < |y|
  {
    if wrote == [] {
      assert x + wrote == x;
      NoneOfStays(x, y, m, w);
    } else {
      assert y[m] == (x + wrote)[m];
    }
  }

  // ----- a whole batch

  lemma Appended(a: seq<Report>, b: seq<Report>, c: seq<Report>, d: seq<Report>)
    requires d == b + c
    ensures a + b + c == a + d
  {
  }

  lemma NextOf(events: seq<Snapshot>, i: nat)
    requires i < |events|
    ensures events[i..] != [] && events[i..][0] == events[i] && events[i..][1..] == events[i + 1..]
  {
  }

  ghost predicate DistinctEvents(events: seq<Snapshot>) {
    forall i, j :: 0 <= i < j < |events| ==> events[i].id != events[j].id
  }

  ghost predicate HasEvent(events: seq<Snapshot>, id: EventId) {
    exists i :: 0 <= i < |events| && events[i].id == id
  }

  /** The events with these ids, each once. */
  ghost predicate Lists(events: seq<Snapshot>, ids: set<EventId>) {
    && DistinctEvents(events) && |events| == |ids|
    && (forall i :: 0 <= i < |events| ==> events[i].id in ids) && (forall id :: id in ids ==> HasEvent(events, id))
  }

  /** The events from position i on, which w has not settled since it claimed them. */
  ghost predicate Ahead(h: map<EventId, seq<Entry>>, marks: map<EventId, nat>, events: seq<Snapshot>, i: nat, w: WorkerId) {
    forall j :: i <= j < |events| ==>
      events[j].id in h && events[j].id in marks && NoneOf(h[events[j].id], marks[events[j].id], w)
  }

  /** w settled event x while it still held it, and its turn calls for this report. */
  ghost predicate Tells(u: Setup, h: map<EventId, seq<Entry>>, marks: map<EventId, nat>, x: Snapshot, turn: Turn,
          w: WorkerId, r: Report) {
    && r.id == x.id && x.id in h && x.id in marks && NextIs(h[x.id], marks[x.id], w)
    && CallsFor(u, x, turn, r.status)
  }

  /** The iteration on event x, claimed after m statements on its row, whose history is now h, reports what its turn
      calls for if w settled it while it held it, and else nothing. */
  ghost predicate EventTells(u: Setup, h: seq<Entry>, m: nat, x: Snapshot, turn: Turn, w: WorkerId, reports: seq<Report>) {
    && m < |h| && |reports| <= 1
    && forall r :: r in reports <==> r.id == x.id && NextIs(h, m, w) && CallsFor(u, x, turn, r.status)
  }

  lemma OneReportTells(u: Setup, h: seq<Entry>, m: nat, x: Snapshot, turn: Turn, w: WorkerId, st: Status, reports: seq<Report>)
    requires m < |h| && CallsFor(u, x, turn, st)
    requires reports == if NextIs(h, m, w) then [Report(x.id, st)] else []
    ensures EventTells(u, h, m, x, turn, w, reports)
  {
    forall r ensures r in reports <==> r.id == x.id && NextIs(h, m, w) && CallsFor(u, x, turn, r.status) {
      if r.id == x.id && CallsFor(u, x, turn, r.status) { assert r == Report(x.id, st); }
    }
  }

  lemma NoReportTells(u: Setup, h: seq<Entry>, m: nat, x: Snapshot, turn: Turn, w: WorkerId)
    requires m < |h| && RunsThrough(u, x.id, turn) && turn.finalize == Lost(true)
    ensures EventTells(u, h, m, x, turn, w, [])
  {
  }

  ghost predicate DistinctReports(reports: seq<Report>) {
    forall i, j :: 0 <= i < j < |reports| ==> reports[i].id != reports[j].id
  }

  /** The reports of the first i events are the ones their turns call for. */
  ghost predicate Told(u: Setup, h: map<EventId, seq<Entry>>, marks: map<EventId, nat>, events: seq<Snapshot>,
          turn: nat -> Turn, i: nat, w: WorkerId, reports: seq<Report>)
    requires i <= |events|
  {
    && (forall j :: 0 <= j < i ==>
         events[j].id in h && events[j].id in marks && marks[events[j].id] < |h[events[j].id]|)
    && (forall r :: r in reports <==> exists j :: 0 <= j < i && Tells(u, h, marks, events[j], turn(j), w, r))
    && DistinctReports(reports)
  }

  lemma AheadStays(h: map<EventId, seq<Entry>>, g: map<EventId, seq<Entry>>, marks: map<EventId, nat>,
          events: seq<Snapshot>, i: nat, w: WorkerId)
    requires i < |events| && DistinctEvents(events) && Ahead(h, marks, events, i, w) && WroteAt(h, g, w, events[i].id)
    ensures Ahead(g, marks, events, i + 1, w)
  {
    forall j | i + 1 <= j < |events|
      ensures events[j].id in g && events[j].id in marks && NoneOf(g[events[j].id], marks[events[j].id], w)
    {
      var id := events[j].id;
      assert id != events[i].id && NoneOf(h[id], marks[id], w) && Foreign(h[id], g[id], w);
      NoneOfStays(h[id], g[id], marks[id], w);
    }
  }

  lemma TellsStays(u: Setup, h: map<EventId, seq<Entry>>, g: map<EventId, seq<Entry>>, marks: map<EventId, nat>, x: Snapshot,
          turn: Turn, w: WorkerId, r: Report)
    requires x.id in h && x.id in marks && marks[x.id] < |h[x.id]| && x.id in g && h[x.id] <= g[x.id]
    ensures Tells(u, h, marks, x, turn, w, r) <==> Tells(u, g, marks, x, turn, w, r)
  {
    assert g[x.id][marks[x.id]] == h[x.id][marks[x.id]];
  }

  /** One more event, with its own reports. */
  lemma ToldMore(u: Setup, h: map<EventId, seq<Entry>>, g: map<EventId, seq<Entry>>, marks: map<EventId, nat>,
          events: seq<Snapshot>, turn: nat -> Turn, i: nat, w: WorkerId, sofar: seq<Report>, more: seq<Report>)
    requires i < |events| && DistinctEvents(events) && WroteAt(h, g, w, events[i].id)
    requires Told(u, h, marks, events, turn, i, w, sofar)
    requires events[i].id in g && events[i].id in marks
    requires EventTells(u, g[events[i].id], marks[events[i].id], events[i], turn(i), w, more)
    ensures Told(u, g, marks, events, turn, i + 1, w, sofar + more)
  {
    forall j | 0 <= j < i
      ensures events[j].id in g && events[j].id in marks && marks[events[j].id] < |g[events[j].id]|
      ensures forall r :: Tells(u, h, marks, events[j], turn(j), w, r) <==> Tells(u, g, marks, events[j], turn(j), w, r)
    {
      assert events[j].id != events[i].id && h[events[j].id] <= g[events[j].id];
      forall r ensures Tells(u, h, marks, events[j], turn(j), w, r) <==> Tells(u, g, marks, events[j], turn(j), w, r) {
        TellsStays(u, h, g, marks, events[j], turn(j), w, r);
      }
    }
    forall r ensures r in sofar + more <==> exists j :: 0 <= j < i + 1 && Tells(u, g, marks, events[j], turn(j), w, r) {
      if r in sofar {
        var j :| 0 <= j < i && Tells(u, h, marks, events[j], turn(j), w, r);
        assert Tells(u, g, marks, events[j], turn(j), w, r);
      }
      if r in more { assert Tells(u, g, marks, events[i], turn(i), w, r); }
    }
    forall a, b | 0 <= a < b < |sofar + more| ensures (sofar + more)[a].id != (sofar + more)[b].id {
      if b >= |sofar| {
        assert a < |sofar| && sofar[a] in sofar && more[0] in more;
        var j :| 0 <= j < i && Tells(u, h, marks, events[j], turn(j), w, sofar[a]);
        assert Tells(u, g, marks, events[i], turn(i), w, more[0]);
      }
    }
  }

  /** With nobody else at work: the first i events were settled by w, and nothing has happened to the others. */
  ghost predicate AllHeld(h: map<EventId, seq<Entry>>, marks: map<EventId, nat>, events: seq<Snapshot>, i: nat, w: WorkerId) {
    && (forall j :: 0 <= j < |events| ==> events[j].id in h && events[j].id in marks)
    && (forall j :: 0 <= j < i && j < |events| ==> NextIs(h[events[j].id], marks[events[j].id], w))
    && (forall j :: i <= j < |events| ==> |h[events[j].id]| == marks[events[j].id])
  }

  lemma AllHeldMore(h: map<EventId, seq<Entry>>, g: map<EventId, seq<Entry>>, marks: map<EventId, nat>,
          events: seq<Snapshot>, i: nat, w: WorkerId)
    requires i < |events| && DistinctEvents(events)
    ensures AllHeld(h, marks, events, i, w) && SettleWrote(h, g, events[i].id) ==>
      NextIs(g[events[i].id], marks[events[i].id], w) ==> AllHeld(g, marks, events, i + 1, w)
  {
    if AllHeld(h, marks, events, i, w) && SettleWrote(h, g, events[i].id) {
      forall j | 0 <= j < |events| && j != i ensures events[j].id in g && g[events[j].id] == h[events[j].id] {
        assert events[j].id != events[i].id;
      }
    }
  }

  ghost predicate Grew(h: map<EventId, seq<Entry>>, g: map<EventId, seq<Entry>>) {
    forall id :: id in h ==> id in g && h[id] <= g[id]
  }

  lemma OthersGrew(h: map<EventId, seq<Entry>>, g: map<EventId, seq<Entry>>, w: WorkerId)
    requires OthersWrote(h, g, w)
    ensures Grew(h, g)
  {
    assert forall id :: id in h ==> Foreign(h[id], g[id], w);
  }

  /** The claim that starts a call in s has put its entry on the rows of marks and on no other. */
  ghost predicate ClaimWrote(s: State, h: map<EventId, seq<Entry>>, marks: map<EventId, nat>, w: WorkerId) {
    && s.rows.Keys == s.hist.Keys == h.Keys && marks.Keys <= h.Keys
    && (forall id :: id in marks ==> h[id] == s.hist[id] + [Claimed(w, s.now)] && marks[id] == |s.hist[id]| + 1)
    && (forall id :: id in h && id !in marks ==> h[id] == s.hist[id])
  }

  /** The events of a batch after they were read: none settled yet, and for those still untouched the retry count that
      was read is the one at the claim. */
  ghost predicate Taken(s: State, t: State, marks: map<EventId, nat>, events: seq<Snapshot>, w: WorkerId) {
    && Ahead(t.hist, marks, events, 0, w)
    && forall i :: 0 <= i < |events| ==>
         var id := events[i].id;
         && id in s.hist && id in s.rows && marks[id] == |s.hist[id]| + 1
         && (|t.hist[id]| == marks[id] ==> events[i].retryCount == s.rows[id].retryCount)
  }

  lemma ClaimKeepsCount(u: Setup, s: State, t: State, id: EventId, e: Entry)
    requires ValidSetup(u) && Reachable(u, s) && Reachable(u, t) && id in s.rows && id in t.rows && e.Claimed?
    requires id in s.hist && id in t.hist && t.hist[id] == s.hist[id] + [e]
    ensures t.rows[id].retryCount == s.rows[id].retryCount
  {
    ReachableInv(u, s);
    ReachableInv(u, t);
    assert RowInv(u, s, id) && RowInv(u, t, id);
    Extend(s.hist[id], e);
  }

  lemma BatchIsTaken(u: Setup, s: State, h: map<EventId, seq<Entry>>, t: State, marks: map<EventId, nat>, events: seq<Snapshot>,
          w: WorkerId)
    requires ValidSetup(u) && Reachable(u, s) && Reachable(u, t)
    requires ClaimWrote(s, h, marks, w) && OthersWrote(h, t.hist, w) && Lists(events, marks.Keys)
    requires forall i :: 0 <= i < |events| ==>
      events[i].id in t.rows && events[i].retryCount == t.rows[events[i].id].retryCount
    ensures Taken(s, t, marks, events, w)
  {
    forall i | 0 <= i < |events|
      ensures var id := events[i].id;
        && id in marks && id in s.rows && id in t.hist && NoneOf(t.hist[id], marks[id], w)
        && (|t.hist[id]| == marks[id] ==> events[i].retryCount == s.rows[id].retryCount)
    {
      var id := events[i].id;
      assert id in marks.Keys;
      assert Foreign(h[id], t.hist[id], w);
      NoneOfStays(h[id], t.hist[id], marks[id], w);
      if |t.hist[id]| == marks[id] {
        assert t.hist[id] == h[id];
        ClaimKeepsCount(u, s, t, id, Claimed(w, s.now));
      }
    }
  }

  function Ids(events: seq<Snapshot>): seq<EventId> {
    seq(|events|, i requires 0 <= i < |events| => events[i].id)
  }

  lemma IdsAre(events: seq<Snapshot>, ids: set<EventId>)
    requires Lists(events, ids)
    ensures Distinct(Ids(events)) && forall id :: id in Ids(events) <==> id in ids
  {
    forall id | id in ids ensures id in Ids(events) {
      var i :| 0 <= i < |events| && events[i].id == id;
      assert Ids(events)[i] == id;
    }
  }

  /** In the terms of a call that starts in s and leaves histories g: it claimed the event, the next statement on the
      row was its own settle, so that it still held the row then, and the turn calls for this report. */
  ghost predicate Reported(u: Setup, s: State, g: map<EventId, seq<Entry>>, id: EventId, turn: Turn, w: WorkerId, r: Report) {
    && r.id == id && id in s.rows && id in s.hist && id in g && NextIs(g[id], |s.hist[id]| + 1, w)
    && CallsFor(u, Snapshot(id, s.rows[id].retryCount), turn, r.status)
  }

  lemma TellsIsReported(u: Setup, s: State, t: State, g: map<EventId, seq<Entry>>, marks: map<EventId, nat>,
          events: seq<Snapshot>, i: nat, turn: Turn, w: WorkerId, r: Report)
    requires Taken(s, t, marks, events, w) && Grew(t.hist, g) && i < |events|
    ensures Tells(u, g, marks, events[i], turn, w, r) <==> Reported(u, s, g, events[i].id, turn, w, r)
  {
    var id := events[i].id;
    assert NoneOf(t.hist[id], marks[id], w) && t.hist[id] <= g[id];
    assert |t.hist[id]| > marks[id] ==> g[id][marks[id]] == t.hist[id][marks[id]];
  }

  /** The claimable events among the oldest n of the unlocked ones, n being short of all only if the batch is full. */
  ghost predicate IsBatch(u: Setup, s: State, unlocked: seq<EventId>, n: nat, order: seq<EventId>) {
    && Distinct(order) && n <= |unlocked| && |order| <= u.cfg.batchSize && (n < |unlocked| ==> |order| == u.cfg.batchSize)
    && forall id :: id in order <==> id in unlocked[..n] && id in s.rows && Claimable(s.rows[id], s.now, u.cfg.leaseMs)
  }

  lemma ClaimWrites(u: Setup, s: State, w: WorkerId, ids: set<EventId>, t: State, marks: map<EventId, nat>)
    requires s.rows.Keys == s.hist.Keys && Enabled(u, s, Claim(w, ids)) && t == Apply(u, s, Claim(w, ids))
    requires marks == map id | id in ids :: |s.hist[id]| + 1
    ensures ClaimWrote(s, t.hist, marks, w) && marks.Keys == ids
    ensures t.workers[w] == if ids == {} then Idle else Holding(ids, marks)
  {
  }

  /** The rows a claim picks. */
  ghost predicate Picked(u: Setup, s: State, unlocked: seq<EventId>, n: nat, ids: set<EventId>) {
    && n <= |unlocked| && |ids| <= u.cfg.batchSize && (n < |unlocked| ==> |ids| == u.cfg.batchSize)
    && forall id :: id in ids <==> id in unlocked[..n] && id in s.rows && Claimable(s.rows[id], s.now, u.cfg.leaseMs)
  }

  lemma PickedIsBatch(u: Setup, s: State, unlocked: seq<EventId>, n: nat, ids: set<EventId>, events: seq<Snapshot>)
    requires Picked(u, s, unlocked, n, ids) && Lists(events, ids)
    ensures IsBatch(u, s, unlocked, n, Ids(events))
  {
    IdsAre(events, ids);
  }

  lemma ClaimGrew(s: State, h: map<EventId, seq<Entry>>, g: map<EventId, seq<Entry>>, marks: map<EventId, nat>, w: WorkerId)
    requires ClaimWrote(s, h, marks, w) && Grew(h, g)
    ensures Grew(s.hist, g)
  {
    forall id | id in s.hist ensures id in g && s.hist[id] <= g[id] { assert s.hist[id] <= h[id] && h[id] <= g[id]; }
  }

  /** Every event of the batch was settled by w while it held the row. */
  ghost predicate AllSettled(s: State, g: map<EventId, seq<Entry>>, order: seq<EventId>, w: WorkerId) {
    forall i :: 0 <= i < |order| ==>
      order[i] in s.hist && order[i] in g && NextIs(g[order[i]], |s.hist[order[i]]| + 1, w)
  }

  lemma HeldIsSettled(s: State, t: State, g: map<EventId, seq<Entry>>, marks: map<EventId, nat>,
          events: seq<Snapshot>, w: WorkerId)
    requires Taken(s, t, marks, events, w) && AllHeld(g, marks, events, |events|, w)
    ensures AllSettled(s, g, Ids(events), w)
  {
  }

  ghost predicate SomeEscapes(u: Setup, order: seq<EventId>, turn: nat -> Turn) {
    exists i :: 0 <= i < |order| && Escapes(u, order[i], turn(i))
  }

  lemma BatchIsReported(u: Setup, s: State, t: State, g: map<EventId, seq<Entry>>, marks: map<EventId, nat>,
          events: seq<Snapshot>, order: seq<EventId>, turn: nat -> Turn, w: WorkerId, results: seq<Report>)
    requires Taken(s, t, marks, events, w) && Grew(t.hist, g) && order == Ids(events)
    requires Told(u, g, marks, events, turn, |events|, w, results)
    ensures forall r :: r in results <==> exists i :: 0 <= i < |order| && Reported(u, s, g, order[i], turn(i), w, r)
  {
    forall i, r | 0 <= i < |events|
      ensures Tells(u, g, marks, events[i], turn(i), w, r) <==> Reported(u, s, g, order[i], turn(i), w, r)
    {
      TellsIsReported(u, s, t, g, marks, events, i, turn(i), w, r);
    }
    forall r ensures r in results <==> exists i :: 0 <= i < |order| && Reported(u, s, g, order[i], turn(i), w, r) {
      if r in results {
        var i :| 0 <= i < |events| && Tells(u, g, marks, events[i], turn(i), w, r);
        assert Reported(u, s, g, order[i], turn(i), w, r);
      }
      if i :| 0 <= i < |order| && Reported(u, s, g, order[i], turn(i), w, r) {
        assert Tells(u, g, marks, events[i], turn(i), w, r);
      }
    }
  }

  lemma WroteAtGrew(h: map<EventId, seq<Entry>>, g: map<EventId, seq<Entry>>, f: map<EventId, seq<Entry>>, w: WorkerId,
          own: EventId)
    requires Grew(h, g) && WroteAt(g, f, w, own)
    ensures Grew(h, f)
  {
    forall id | id in h ensures id in f && h[id] <= f[id] { assert h[id] <= g[id] && g[id] <= f[id]; }
  }

  /** Another worker's action moves neither w nor its reports. */
  lemma OthersLeave(u: Setup, s: State, a: Action, w: WorkerId)
    requires Enabled(u, s, a) && s.rows.Keys == s.hist.Keys && !ActsFor(a, w) && w in s.workers
    ensures ReportOf(u, s, a, w) == [] && w in Apply(u, s, a).workers && Apply(u, s, a).workers[w] == s.workers[w]
  {
  }

  class OutboxTables {
    const u: Setup
    const ws: set<WorkerId>
    var now: nat
    var rows: map<EventId, Row>
    var workers: map<WorkerId, Worker>
    // history variables: no statement reads them
    var hist: map<EventId, seq<Entry>>
    var completed: set<EventId>
    var reported: seq<EventId>
    ghost var run: seq<Action>

    ghost function State(): State
      reads this
    {
      OutboxProtocol.State(now, rows, workers, hist, completed, reported)
    }

    /** The tables are in a state that the recorded run of the protocol reaches. */
    ghost predicate Valid()
      reads this
    {
      rows.Keys == hist.Keys && ReachedBy(u, ws, run, State())
    }

    /** What worker w has reported since the tables were created. */
    ghost function Reports(w: WorkerId): seq<Report>
      reads this
    {
      if CanRun(u, Init(ws), run) then ReportsOf(u, Init(ws), run, w) else []
    }

    /** Every method below that performs action a promises this of the state it leaves. */
    twostate predicate Performed(a: Action)
      reads this
      requires old(Valid()) && Enabled(u, old(State()), a)
    {
      && Valid() && State() == Apply(u, old(State()), a)
      && (forall w :: Reports(w) == old(Reports(w)) + ReportOf(u, old(State()), a, w))
    }

    constructor (u: Setup, ws: set<WorkerId>)
      ensures this.u == u && this.ws == ws && Valid() && State() == Init(ws)
    {
      this.u, this.ws := u, ws;
      now, rows, workers := 0, map[], map w | w in ws :: Idle;
      hist, completed, reported, run := map[], {}, [], [];
    }

    ghost method Record(s: State, a: Action)
      requires ReachedBy(u, ws, run, s) && s.rows.Keys == s.hist.Keys && Enabled(u, s, a)
      requires State() == Apply(u, s, a)
      modifies this`run
      ensures Valid() && run == old(run) + [a]
      ensures forall w :: Reports(w) == ReportsOf(u, Init(ws), old(run), w) + ReportOf(u, s, a, w)
    {
      OneMore(u, Init(ws), run, a);
      forall w ensures ReportsOf(u, Init(ws), run + [a], w) == ReportsOf(u, Init(ws), run, w) + ReportOf(u, s, a, w) {
        OneMoreReport(u, Init(ws), run, a, w);
      }
      run := run + [a];
    }

    /** SELECT ... ORDER BY created_at LIMIT batchSize FOR UPDATE SKIP LOCKED. unlocked is the rows no concurrent
        claim has locked, oldest first: the claimable ones among the first n of them are picked, where n (history) is
        short of all only if the batch is full. */
    method PickClaimable(unlocked: seq<EventId>) returns (ids: set<EventId>, ghost n: nat)
      ensures n <= |unlocked| && |ids| <= u.cfg.batchSize && (n < |unlocked| ==> |ids| == u.cfg.batchSize)
      ensures forall id :: id in ids <==> id in unlocked[..n] && id in rows && Claimable(rows[id], now, u.cfg.leaseMs)
    {
      ids := {};
      var i := 0;
      while i < |unlocked| && |ids| < u.cfg.batchSize
        invariant 0 <= i <= |unlocked| && |ids| <= u.cfg.batchSize
        invariant forall id :: id in ids <==> id in unlocked[..i] && id in rows && Claimable(rows[id], now, u.cfg.leaseMs)
      {
        var id := unlocked[i];
        assert unlocked[..i + 1] == unlocked[..i] + [id];
        if id in rows && Claimable(rows[id], now, u.cfg.leaseMs) {
          ids := ids + {id};
        }
        i := i + 1;
      }
      n := i;
    }

    /** UPDATE ... SET status, lock_owner, locked_at of the picked rows. */
    method ClaimRows(w: WorkerId, ids: set<EventId>)
      requires Valid() && Enabled(u, State(), Claim(w, ids))
      modifies this
      ensures Performed(Claim(w, ids))
    {
      ghost var s := State();
      workers := workers[w := if ids == {} then Idle else Holding(ids, map id | id in ids :: |hist[id]| + 1)];
      var before := rows;
      rows := map id | id in before :: if id in ids then ClaimRow(before[id], w, now) else before[id];
      hist := map id | id in hist :: if id in ids then hist[id] + [Claimed(w, now)] else hist[id];
      Record(s, Claim(w, ids));
    }

    /** findMany over the claimed ids; the order of the result is the database's choice. */
    method ReadClaimed(w: WorkerId) returns (events: seq<Snapshot>, order: seq<EventId>)
      requires Valid() && w in workers && workers[w].Holding? && workers[w].ids <= rows.Keys
      modifies this
      ensures Enabled(u, old(State()), Read(w, order)) && Performed(Read(w, order))
      ensures workers[w] == if events == [] then Idle else Running(events, Working(0), old(workers[w]).marks)
      ensures hist == old(hist) && rows == old(rows) && Lists(events, old(workers[w]).ids)
      ensures forall i :: 0 <= i < |events| ==> events[i].id in rows && events[i].retryCount == rows[events[i].id].retryCount
    {
      var ids := workers[w].ids;
      events, order := [], [];
      var rest := ids;
      while rest != {}
        invariant rest <= ids && |events| == |order| && |order| + |rest| == |ids|
        invariant Distinct(order) && forall id :: id in order <==> id in ids - rest
        invariant forall i :: 0 <= i < |order| ==> order[i] in rows && events[i] == Snapshot(order[i], rows[order[i]].retryCount)
        decreases |rest|
      {
        var id :| id in rest;
        assert id !in order;
        events, order := events + [Snapshot(id, rows[id].retryCount)], order + [id];
        rest := rest - {id};
      }
      ghost var s := State();
      assert events == Queue(rows, order);
      forall id | id in ids ensures HasEvent(events, id) {
        assert id in order;
        var i :| 0 <= i < |order| && order[i] == id;
        assert events[i].id == id;
      }
      workers := workers[w := if events == [] then Idle else Running(events, Working(0), workers[w].marks)];
      Record(s, Read(w, order));
    }

    /** updateMany(PROCESSED) behind its where clause. */
    method FinalizeProcessed(w: WorkerId, io: Io) returns (count: nat)
      requires Valid() && Enabled(u, State(), Finalize(w, io))
      modifies this
      ensures Performed(Finalize(w, io))
      ensures count == if Holds(old(rows)[Head(old(State()), w).id], w) then 1 else 0
    {
      ghost var s := State();
      var id := workers[w].queue[0].id;
      count := if Holds(rows[id], w) then 1 else 0;
      if count > 0 && (io.Replied? || io.committed) {
        rows := rows[id := FinishRow(rows[id])];
        hist := hist[id := hist[id] + [Finished(w, now)]];
      }
      if io.Lost? {
        workers := workers[w := workers[w].(phase := Threw)];
      } else {
        workers := workers[w := Advance(workers[w].queue, workers[w].marks)];
        reported := if count > 0 then reported + [id] else reported;
      }
      Record(s, Finalize(w, io));
    }

    /** The updateMany of the catch block, with the retry count computed from the event as it was read. */
    method FinalizeFailed(w: WorkerId, io: Io) returns (count: nat, nextStatus: Status)
      requires Valid() && Enabled(u, State(), Fail(w, io))
      modifies this
      ensures Performed(Fail(w, io))
      ensures var id := Head(old(State()), w).id;
        && count == (if Holds(old(rows)[id], w) then 1 else 0)
        && (count > 0 && io.Replied? ==> rows[id].status == nextStatus)
        && nextStatus == (if Head(old(State()), w).retryCount + 1 >= u.cfg.maxRetries then FAILED else PENDING)
    {
      ghost var s := State();
      var event := workers[w].queue[0];
      var newRetryCount := event.retryCount + 1;
      var isTerminal := newRetryCount >= u.cfg.maxRetries;
      nextStatus := if isTerminal then FAILED else PENDING;
      var nextAttemptAt := if isTerminal then None else Some(now + BackoffMs(newRetryCount));
      count := if Holds(rows[event.id], w) then 1 else 0;
      if count > 0 && (io.Replied? || io.committed) {
        rows := rows[event.id := Row(nextStatus, None, None, newRetryCount, nextAttemptAt)];
        hist := hist[event.id := hist[event.id] + [Failed(w, now)]];
      }
      workers := workers[w := if io.Lost? then Idle else Advance(workers[w].queue, workers[w].marks)];
      Record(s, Fail(w, io));
    }

    /** A step, return, throw or crash of a worker: nothing in the table changes. */
    method Local(w: WorkerId, a: Action)
      requires Valid() && Enabled(u, State(), a) && (a.Step? || a.Return? || a.Throw? || a.Crash?) && a.w == w
      modifies this
      ensures Performed(a)
    {
      ghost var s := State();
      match a {
        case Step(_) => workers := workers[w := workers[w].(phase := Working(workers[w].phase.done + 1))];
        case Return(_) =>
          completed := completed + {workers[w].queue[0].id};
          workers := workers[w := workers[w].(phase := Returned)];
        case Throw(_) => workers := workers[w := workers[w].(phase := Threw)];
        case Crash(_) => workers := workers[w := Idle];
      }
      Record(s, a);
    }

    /** One action of the environment: another worker's, a new event, or time passing. */
    method Perform(a: Action)
      requires Valid() && Enabled(u, State(), a)
      modifies this
      ensures Performed(a)
    {
      ghost var s := State();
      match a {
        case Insert(id) => rows, hist := rows[id := FRESH], hist[id := []]; Record(s, a);
        case Tick(ms) => now := now + ms; Record(s, a);
        case Claim(w, ids) => ClaimRows(w, ids);
        case Read(w, order) =>
          var queue := Queue(rows, order);
          workers := workers[w := if queue == [] then Idle else Running(queue, Working(0), workers[w].marks)];
          Record(s, a);
        case Finalize(w, io) => var _ := FinalizeProcessed(w, io);
        case Fail(w, io) => var _, _ := FinalizeFailed(w, io);
        case _ => Local(a.w, a);
      }
    }

    method Other(w: WorkerId, a: Action)
      requires Valid() && w in workers && Enabled(u, State(), a) && !ActsFor(a, w)
      modifies this
      ensures Valid() && w in workers && workers[w] == old(workers[w]) && Reports(w) == old(Reports(w))
      ensures OthersWrote(old(hist), hist, w)
    {
      OthersLeave(u, State(), a, w);
      ActionWrites(u, State(), a, w);
      Perform(a);
    }

    /** Whatever the rest of the world does between two statements of w; actions that are not
        possible at their turn, or would be w's own, do not happen. */
    method Others(w: WorkerId, actions: seq<Action>)
      requires Valid() && w in workers
      modifies this
      ensures Valid() && w in workers && workers[w] == old(workers[w]) && Reports(w) == old(Reports(w))
      ensures OthersWrote(old(hist), hist, w) && (actions == [] ==> State() == old(State()))
    {
      for i := 0 to |actions|
        invariant Valid() && w in workers && workers[w] == old(workers[w]) && Reports(w) == old(Reports(w))
        invariant OthersWrote(old(hist), hist, w) && (i == 0 ==> State() == old(State()))
      {
        if Enabled(u, OutboxProtocol.State(now, rows, workers, hist, completed, reported), actions[i]) && !ActsFor(actions[i], w) {
          ghost var before := hist;
          Other(w, actions[i]);
          OthersWroteThen(old(hist), before, hist, w);
        }
      }
    }

    /** One move of w once the others have had their turn, which cannot take the move away from it. */
    method MoveAfter(w: WorkerId, actions: seq<Action>, a: Action)
      requires (a.Step? || a.Return? || a.Throw?) && a.w == w && Valid() && Enabled(u, State(), a)
      modifies this
      ensures Valid() && w in workers && Reports(w) == old(Reports(w))
      ensures workers[w] == old(workers[w]).(phase :=
        if a.Step? then Working(old(workers[w]).phase.done + 1) else if a.Return? then Returned else Threw)
      ensures OthersWrote(old(hist), hist, w) && (actions == [] ==> hist == old(hist))
    {
      Others(w, actions);
      Move(w, a);
    }

    method Move(w: WorkerId, a: Action)
      requires (a.Step? || a.Return? || a.Throw?) && a.w == w && Valid() && Enabled(u, State(), a)
      modifies this
      ensures Valid() && w in workers && Reports(w) == old(Reports(w))
      ensures workers[w] == old(workers[w]).(phase :=
        if a.Step? then Working(old(workers[w]).phase.done + 1) else if a.Return? then Returned else Threw)
      ensures hist == old(hist)
    {
      Local(w, a);
    }

    /** Worker w, first seen as x, has done so many steps on its first event, id. */
    ghost predicate Did(w: WorkerId, x: Worker, id: EventId, done: nat)
      reads this
    {
      && w in workers && x.Running? && x.queue != [] && x.queue[0].id == id
      && workers[w] == x.(phase := Working(done)) && AtHead(State(), w)
    }

    /** One awaited step of the handler. */
    method StepOnce(w: WorkerId, ghost x: Worker, id: EventId, done: nat, actions: seq<Action>)
      requires Valid() && Did(w, x, id, done) && id in u.events && id in u.steps && Routable(u.events[id]) && done < u.steps[id]
      modifies this
      ensures Valid() && Did(w, x, id, done + 1) && Reports(w) == old(Reports(w))
      ensures OthersWrote(old(hist), hist, w) && (actions == [] ==> hist == old(hist))
    {
      MovesAreEnabled(u, State(), w);
      MoveAfter(w, actions, Step(w));
    }

    /** The awaited steps of the handler, as far as it gets. */
    method RunSteps(w: WorkerId, ghost x: Worker, id: EventId, progress: nat, others: nat -> seq<Action>)
      returns (done: nat)
      requires Valid() && Did(w, x, id, 0) && id in u.events && id in u.steps && Routable(u.events[id])
      modifies this
      ensures Valid() && Did(w, x, id, done) && Reports(w) == old(Reports(w))
      ensures done == if progress < u.steps[id] then progress else u.steps[id]
      ensures OthersWrote(old(hist), hist, w) && ((forall k :: others(k) == []) ==> hist == old(hist))
    {
      done := 0;
      while done < progress && done < u.steps[id]
        invariant Valid() && Did(w, x, id, done) && Reports(w) == old(Reports(w))
        invariant done <= u.steps[id] && done <= progress
        invariant OthersWrote(old(hist), hist, w) && ((forall k :: others(k) == []) ==> hist == old(hist))
      {
        ghost var before := hist;
        StepOnce(w, x, id, done, others(done));
        OthersWroteThen(old(hist), before, hist, w);
        done := done + 1;
      }
    }

    /** The try block up to its settle: the dispatch chain and the awaited handler steps, any of which may throw. */
    method RunHandler(w: WorkerId, turn: Turn, others: nat -> seq<Action>) returns (returned: bool)
      requires Valid() && ValidSetup(u)
      requires AtHead(State(), w) && workers[w].phase == Working(0)
      modifies this
      ensures Valid() && w in workers
      ensures workers[w] == old(workers[w]).(phase := if returned then Returned else Threw)
      ensures var id := old(workers[w]).queue[0].id;
        id in u.events && id in u.steps &&
        (returned <==> Routable(u.events[id]) && !turn.throws && turn.progress >= u.steps[id])
      ensures Reports(w) == old(Reports(w))
      ensures OthersWrote(old(hist), hist, w) && ((forall k :: others(k) == []) ==> hist == old(hist))
    {
      HeadIsKnown(u, State(), w) by { assert Reachable(u, State()); }
      var id := workers[w].queue[0].id;
      var done := 0;
      if Routable(u.events[id]) {
        done := RunSteps(w, workers[w], id, turn.progress, others);
      }
      returned := Routable(u.events[id]) && !turn.throws && done == u.steps[id];
      MovesAreEnabled(u, State(), w);
      ghost var before := hist;
      MoveAfter(w, others(done), if returned then Return(w) else Throw(w));
      OthersWroteThen(old(hist), before, hist, w);
    }

    /** The length of the row's history when w claimed the event at the head of its queue. */
    ghost function Mark(w: WorkerId, id: EventId): nat
      reads this
    {
      if w in workers && workers[w].Running? && id in workers[w].marks then workers[w].marks[id] else 0
    }

    /** The settle at the end of the try block; settled means the iteration is over. */
    method SettleProcessed(w: WorkerId, io: Io) returns (settled: bool, reports: seq<Report>)
      requires Valid() && ValidSetup(u) && AtHead(State(), w) && workers[w].phase.Returned?
      modifies this
      ensures Valid() && w in workers && settled == io.Replied?
      ensures workers[w] == if settled then Advance(old(workers[w]).queue, old(workers[w]).marks) else old(workers[w]).(phase := Threw)
      ensures Reports(w) == old(Reports(w)) + reports
      ensures var id := old(workers[w]).queue[0].id;
        && SettleWrote(old(hist), hist, id)
        && var held := |old(hist)[id]| == old(Mark(w, id));
           && reports == (if io.Replied? && held then [Report(id, PROCESSED)] else [])
           && hist[id] == old(hist)[id] + if held && (io.Replied? || io.committed) then [Finished(w, old(now))] else []
    {
      HeadIsKnown(u, State(), w) by { assert Reachable(u, State()); }
      Fencing(u, State(), w) by { assert Reachable(u, State()); }
      var id := workers[w].queue[0].id;
      var count := FinalizeProcessed(w, io);
      settled := io.Replied?;
      reports := if settled && count > 0 then [Report(id, PROCESSED)] else [];
    }

    /** The settle in the catch block; when it is not answered the exception leaves the loop. */
    method SettleFailed(w: WorkerId, io: Io) returns (aborted: bool, reports: seq<Report>)
      requires Valid() && ValidSetup(u) && AtHead(State(), w) && workers[w].phase.Threw?
      modifies this
      ensures Valid() && w in workers && aborted == io.Lost?
      ensures workers[w] == if aborted then Idle else Advance(old(workers[w]).queue, old(workers[w]).marks)
      ensures !aborted ==> Reports(w) == old(Reports(w)) + reports
      ensures var x := old(workers[w]).queue[0];
        && SettleWrote(old(hist), hist, x.id)
        && var held := |old(hist)[x.id]| == old(Mark(w, x.id));
           && reports == (if held then [Report(x.id, if x.retryCount + 1 >= u.cfg.maxRetries then FAILED else PENDING)] else [])
           && hist[x.id] == old(hist)[x.id] + if held && (io.Replied? || io.committed) then [Failed(w, old(now))] else []
    {
      HeadIsKnown(u, State(), w) by { assert Reachable(u, State()); }
      Fencing(u, State(), w) by { assert Reachable(u, State()); }
      var id := workers[w].queue[0].id;
      var count, nextStatus := FinalizeFailed(w, io);
      aborted := io.Lost?;
      reports := if count > 0 then [Report(id, nextStatus)] else [];
    }

    /** The try block; settled means the iteration is over. */
    method TryEvent(w: WorkerId, turn: Turn, others: nat -> seq<Action>, ghost id: EventId, ghost m: nat)
      returns (settled: bool, reports: seq<Report>)
      requires Valid() && ValidSetup(u)
      requires AtHead(State(), w) && workers[w].phase == Working(0)
      requires id == Head(State(), w).id && m == Mark(w, id) && id in hist && NoneOf(hist[id], m, w)
      modifies this
      ensures Valid() && w in workers
      ensures workers[w] == if settled then Advance(old(workers[w]).queue, old(workers[w]).marks) else old(workers[w]).(phase := Threw)
      ensures Reports(w) == if settled then old(Reports(w)) + reports else old(Reports(w))
      ensures WroteAt(old(hist), hist, w, id) && settled == (RunsThrough(u, id, turn) && turn.finalize.Replied?)
      ensures settled ==> m < |hist[id]| && reports == if NextIs(hist[id], m, w) then [Report(id, PROCESSED)] else []
      ensures !settled ==>
        && reports == []
        && (if RunsThrough(u, id, turn) && turn.finalize.committed then m < |hist[id]| else NoneOf(hist[id], m, w))
      ensures (forall k :: others(k) == []) ==>
        && SettleWrote(old(hist), hist, id)
        && (|old(hist)[id]| == m ==>
             if settled || (RunsThrough(u, id, turn) && turn.finalize.committed) then NextIs(hist[id], m, w)
             else |hist[id]| == m)
    {
      settled, reports := false, [];
      ghost var h0 := hist;
      var returned := RunHandler(w, turn, others);
      ghost var h1 := hist;
      Others(w, others(turn.progress + 1));
      OthersWroteThen(h0, h1, hist, w);
      assert Foreign(h0[id], hist[id], w);
      NoneOfStays(h0[id], hist[id], m, w);
      ghost var h2 := hist;
      if returned {
        settled, reports := SettleProcessed(w, turn.finalize);
        ghost var h3 := hist;
        Others(w, others(turn.progress + 2));
        SettledBetween(h0, h2, h3, hist, w, id);
        assert Foreign(h3[id], hist[id], w);
        NextAfterSettle(h2[id], h3[id][|h2[id]|..], hist[id], m, w);
      }
    }

    /** The catch block of an iteration whose try block ended without an answered settle. */
    method CatchEvent(w: WorkerId, turn: Turn, ghost x: Snapshot, ghost m: nat) returns (aborted: bool, reports: seq<Report>)
      requires Valid() && ValidSetup(u) && AtHead(State(), w) && workers[w].phase.Threw?
      requires x == Head(State(), w) && m == Mark(w, x.id) && x.id in hist
      requires !(RunsThrough(u, x.id, turn) && turn.finalize.Replied?)
      requires if RunsThrough(u, x.id, turn) && turn.finalize.committed then m < |hist[x.id]| else NoneOf(hist[x.id], m, w)
      modifies this
      ensures Valid() && w in workers
      ensures workers[w] == if aborted then Idle else Advance(old(workers[w]).queue, old(workers[w]).marks)
      ensures !aborted ==> Reports(w) == old(Reports(w)) + reports
      ensures SettleWrote(old(hist), hist, x.id) && aborted == Escapes(u, x.id, turn)
      ensures !aborted ==> EventTells(u, hist[x.id], m, x, turn, w, reports)
      ensures !aborted && (|old(hist)[x.id]| == m || NextIs(old(hist)[x.id], m, w)) ==> NextIs(hist[x.id], m, w)
    {
      aborted, reports := SettleFailed(w, turn.fail);
      if RunsThrough(u, x.id, turn) && turn.finalize.committed {
        NoReportTells(u, hist[x.id], m, x, turn, w);
      } else if !aborted {
        var st := if x.retryCount + 1 >= u.cfg.maxRetries then FAILED else PENDING;
        OneReportTells(u, hist[x.id], m, x, turn, w, st, reports);
      }
    }

    /** One iteration of the for loop; x and m (history) are its event and the length of the row's history when w
        claimed it. */
    method ProcessEvent(w: WorkerId, turn: Turn, others: nat -> seq<Action>, ghost x: Snapshot, ghost m: nat)
      returns (aborted: bool, reports: seq<Report>)
      requires Valid() && ValidSetup(u)
      requires AtHead(State(), w) && workers[w].phase == Working(0)
      requires x == Head(State(), w) && m == Mark(w, x.id) && x.id in hist && NoneOf(hist[x.id], m, w)
      modifies this
      ensures Valid() && w in workers
      ensures workers[w] == if aborted then Idle else Advance(old(workers[w]).queue, old(workers[w]).marks)
      ensures !aborted ==> Reports(w) == old(Reports(w)) + reports
      ensures WroteAt(old(hist), hist, w, x.id) && aborted == Escapes(u, x.id, turn)
      ensures !aborted ==> EventTells(u, hist[x.id], m, x, turn, w, reports)
      ensures (forall k :: others(k) == []) ==>
        && SettleWrote(old(hist), hist, x.id)
        && (|old(hist)[x.id]| == m && !aborted ==> NextIs(hist[x.id], m, w))
    {
      aborted := false;
      var settled;
      ghost var h0 := hist;
      settled, reports := TryEvent(w, turn, others, x.id, m);
      if settled {
        OneReportTells(u, hist[x.id], m, x, turn, w, PROCESSED, reports);
      } else {
        ghost var h1 := hist;
        aborted, reports := CatchEvent(w, turn, x, m);
        TryThenFail(h0, h1, hist, w, x.id);
      }
    }

    /** Worker w is about to process the events of queue, claimed at these marks. */
    ghost predicate Before(w: WorkerId, queue: seq<Snapshot>, marks: map<EventId, nat>)
      reads this
    {
      w in workers &&
      if queue == [] then workers[w].Idle?
      else workers[w] == Running(queue, Working(0), marks)
    }

    method ClaimBatch(w: WorkerId, unlocked: seq<EventId>)
      returns (ids: set<EventId>, ghost n: nat, ghost marks: map<EventId, nat>)
      requires Valid() && w in workers && workers[w].Idle?
      modifies this
      ensures Valid() && w in workers && Reports(w) == old(Reports(w))
      ensures Picked(u, old(State()), unlocked, n, ids)
      ensures marks.Keys == ids && ClaimWrote(old(State()), hist, marks, w)
      ensures workers[w] == if ids == {} then Idle else Holding(ids, marks)
    {
      ids, n := PickClaimable(unlocked);
      marks := map id | id in ids :: |hist[id]| + 1;
      ghost var s, told := State(), Reports(w);
      ClaimRows(w, ids);
      assert ReportOf(u, s, Claim(w, ids), w) == [] && told + [] == told;
      ClaimWrites(u, s, w, ids, State(), marks);
    }

    /** Reads the batch w has claimed. */
    method ReadBatch(w: WorkerId, ghost marks: map<EventId, nat>) returns (events: seq<Snapshot>)
      requires Valid() && ValidSetup(u) && w in workers && marks != map[] && workers[w] == Holding(marks.Keys, marks)
      modifies this
      ensures Valid() && Before(w, events, marks) && Reports(w) == old(Reports(w))
      ensures hist == old(hist) && Lists(events, marks.Keys)
      ensures forall i :: 0 <= i < |events| ==> events[i].id in rows && events[i].retryCount == rows[events[i].id].retryCount
    {
      BatchIsKnown(u, State(), w) by { assert Reachable(u, State()); }
      var order;
      events, order := ReadClaimed(w);
      assert |marks.Keys| > 0;
    }

    /** Lets the others act, then reads the batch; s (history) is the state before the claim. */
    method AwaitBatch(w: WorkerId, between: seq<Action>, ghost s: State, ghost marks: map<EventId, nat>)
      returns (events: seq<Snapshot>)
      requires Valid() && ValidSetup(u) && w in workers && marks != map[] && workers[w] == Holding(marks.Keys, marks)
      requires Reachable(u, s) && ClaimWrote(s, hist, marks, w)
      modifies this
      ensures Valid() && Before(w, events, marks) && Reports(w) == old(Reports(w)) && Grew(old(hist), hist)
      ensures Lists(events, marks.Keys) && Taken(s, State(), marks, events, w)
      ensures between == [] ==> AllHeld(hist, marks, events, 0, w)
    {
      ghost var h := hist;
      Others(w, between);
      OthersGrew(h, hist, w);
      events := ReadBatch(w, marks);
      BatchIsTaken(u, s, h, State(), marks, events, w) by { assert Reachable(u, State()); }
    }

    /** Claims a batch and reads its events; n and marks are history. The batch is the claimable events among the
        oldest n that no concurrent claim has locked, n being short of all of these only if the batch is full. */
    method TakeBatch(w: WorkerId, unlocked: seq<EventId>, between: seq<Action>)
      returns (events: seq<Snapshot>, ghost n: nat, ghost marks: map<EventId, nat>)
      requires Valid() && ValidSetup(u) && w in workers && workers[w].Idle?
      modifies this
      ensures Valid() && Before(w, events, marks) && Reports(w) == old(Reports(w)) && Grew(old(hist), hist)
      ensures DistinctEvents(events) && IsBatch(u, old(State()), unlocked, n, Ids(events))
      ensures Taken(old(State()), State(), marks, events, w)
      ensures between == [] ==> AllHeld(hist, marks, events, 0, w)
    {
      var ids;
      ghost var s := State();
      assert Reachable(u, s);
      ids, n, marks := ClaimBatch(w, unlocked);
      ghost var h := hist;
      events := [];
      if ids != {} {
        events := AwaitBatch(w, between, s, marks);
      }
      ClaimGrew(s, h, hist, marks, w);
      PickedIsBatch(u, s, unlocked, n, ids, events);
    }

    /** The body of the for loop. sofar is what the loop has collected, before (history) what was reported when it began. */
    method ProcessNext(w: WorkerId, events: seq<Snapshot>, i: nat, turn: nat -> Turn, others: nat -> seq<Action>,
          ghost marks: map<EventId, nat>, ghost before: seq<Report>, sofar: seq<Report>)
      returns (aborted: bool, reports: seq<Report>)
      requires Valid() && ValidSetup(u) && i < |events| && Before(w, events[i..], marks) && Reports(w) == before + sofar
      requires DistinctEvents(events) && Ahead(hist, marks, events, i, w)
      requires Told(u, hist, marks, events, turn, i, w, sofar)
      modifies this
      ensures Valid() && Before(w, if aborted then [] else events[i + 1..], marks)
      ensures WroteAt(old(hist), hist, w, events[i].id) && aborted == Escapes(u, events[i].id, turn(i))
      ensures !aborted ==> Reports(w) == before + reports && Told(u, hist, marks, events, turn, i + 1, w, reports)
      ensures (forall k :: others(k) == []) && !aborted && AllHeld(old(hist), marks, events, i, w) ==>
        AllHeld(hist, marks, events, i + 1, w)
    {
      NextOf(events, i);
      var more;
      ghost var h := hist;
      aborted, more := ProcessEvent(w, turn(i), others, events[i], marks[events[i].id]);
      reports := sofar + more;
      if !aborted {
        Appended(before, sofar, more, reports);
        ToldMore(u, h, hist, marks, events, turn, i, w, sofar, more);
        AllHeldMore(h, hist, marks, events, i, w);
      }
    }

    /** The for loop; it is left early when a settle in the catch block is not answered. */
    method ProcessEach(w: WorkerId, events: seq<Snapshot>, turn: nat -> Turn, others: (nat, nat) -> seq<Action>,
          ghost marks: map<EventId, nat>)
      returns (aborted: bool, reports: seq<Report>)
      requires Valid() && ValidSetup(u) && Before(w, events, marks)
      requires DistinctEvents(events) && Ahead(hist, marks, events, 0, w)
      modifies this
      ensures Valid() && Before(w, [], marks) && Grew(old(hist), hist)
      ensures aborted <==> SomeEscapes(u, Ids(events), turn)
      ensures !aborted ==> Reports(w) == old(Reports(w)) + reports && Told(u, hist, marks, events, turn, |events|, w, reports)
      ensures (forall i, k :: others(i, k) == []) && !aborted && AllHeld(old(hist), marks, events, 0, w) ==>
        AllHeld(hist, marks, events, |events|, w)
    {
      aborted, reports := false, [];
      ghost var before, h0 := Reports(w), hist;
      assert events[0..] == events && before + [] == before;
      for i := 0 to |events|
        invariant Valid() && Before(w, events[i..], marks) && !aborted
        invariant Reports(w) == before + reports && Grew(h0, hist)
        invariant Ahead(hist, marks, events, i, w) && Told(u, hist, marks, events, turn, i, w, reports)
        invariant forall j :: 0 <= j < i ==> !Escapes(u, events[j].id, turn(j))
        invariant (forall i, k :: others(i, k) == []) && AllHeld(h0, marks, events, 0, w) ==> AllHeld(hist, marks, events, i, w)
      {
        ghost var h := hist;
        aborted, reports := ProcessNext(w, events, i, turn, (k: nat) => others(i + 1, k), marks, before, reports);
        WroteAtGrew(h0, h, hist, w, events[i].id);
        assert Ids(events)[i] == events[i].id;
        if aborted { return; }
        AheadStays(h, hist, marks, events, i, w);
      }
    }

    /** One call, with other workers acting at every await; order and n (history) are its batch and how many of the
        unlocked rows it looked at. The call claims the claimable events among the oldest unlocked ones, performs a run
        of the protocol, and returns exactly what its turns call for on the rows it still held: on all of them when
        nobody else acts. It throws iff a failing settle is not answered. */
    method ProcessOutboxEvents(w: WorkerId, unlocked: seq<EventId>, turn: nat -> Turn, others: (nat, nat) -> seq<Action>)
      returns (results: Option<seq<Report>>, ghost order: seq<EventId>, ghost n: nat)
      requires Valid() && ValidSetup(u) && w in workers && workers[w].Idle?
      modifies this
      ensures Valid() && Reachable(u, State()) && w in workers && workers[w].Idle?
      ensures IsBatch(u, old(State()), unlocked, n, order)
      ensures results.None? <==> SomeEscapes(u, order, turn)
      ensures results.Some? ==>
        && Reports(w) == old(Reports(w)) + results.value && DistinctReports(results.value)
        && forall r :: r in results.value <==>
             exists i :: 0 <= i < |order| && Reported(u, old(State()), hist, order[i], turn(i), w, r)
      ensures results.Some? && (forall i, k :: others(i, k) == []) ==> AllSettled(old(State()), hist, order, w)
    {
      ghost var s := State();
      var events;
      ghost var marks;
      events, n, marks := TakeBatch(w, unlocked, others(0, 0));
      order := Ids(events);
      ghost var t := State();
      var aborted, reports := ProcessEach(w, events, turn, others, marks);
      results := if aborted then None else Some(reports);
      assert Reachable(u, State());
      if !aborted {
        BatchIsReported(u, s, t, hist, marks, events, order, turn, w, reports);
        if AllHeld(hist, marks, events, |events|, w) { HeldIsSettled(s, t, hist, marks, events, w); }
      }
    }
  }
}
