/** A worker that is in time keeps its lease: until it settles an event or a lease has passed since its claim,
    nothing at all happens to the row, so no second worker can be at the same event. */
module Leases {
  import opened OutboxRow
  import opened OutboxProtocol

  lemma {:induction false} TimesGrow(h: seq<Entry>, cfg: Config, i: nat, j: nat)
    requires Legal(h, cfg) && i <= j < |h|
    ensures h[i].at <= h[j].at
  {
    PrefixLegal(h, j + 1, cfg);
    if i < j {
      assert h[..j + 1][..j] == h[..j];
      PrefixLegal(h, j, cfg);
      TimesGrow(h[..j], cfg, i, j - 1);
    }
  }

  /** After a claim, unless its worker settles, the next thing to happen to the row is more than a lease later. */
  lemma NothingForALease(h: seq<Entry>, cfg: Config, i: nat)
    requires Legal(h, cfg) && i + 1 < |h| && h[i].Claimed?
    requires h[i + 1].Claimed? || h[i + 1].w != h[i].w
    ensures h[i + 1].Claimed? && h[i + 1].at > h[i].at + cfg.leaseMs
  {
    PrefixLegal(h, i + 2, cfg);
    var before := h[..i + 1];
    assert h[..i + 2][..i + 1] == before;
    HeldByLastClaim(before, cfg.maxRetries);
  }

  // ----- whose settles are in the history

  /** Since the entry at mark, worker w has not settled the row. */
  ghost predicate Unsettled(s: State, w: WorkerId, id: EventId, mark: nat) {
    id in s.hist && forall k :: mark <= k < |s.hist[id]| ==> s.hist[id][k].Claimed? || s.hist[id][k].w != w
  }

  /** A worker has settled none of the events it still has before it, and has each of them once. */
  ghost predicate OwnInv(s: State, w: WorkerId)
    requires w in s.workers
  {
    match s.workers[w]
    case Idle => true
    case Holding(_, marks) => forall id :: id in marks ==> Unsettled(s, w, id, marks[id])
    case Running(queue, phase, marks) =>
      && (forall i, j :: 0 <= i < j < |queue| ==> queue[i].id != queue[j].id)
      && (forall i :: 0 <= i < |queue| && (i > 0 || !phase.Threw?) ==>
           queue[i].id in marks && Unsettled(s, w, queue[i].id, marks[queue[i].id]))
  }

  /** Histories only grow, and by others' entries or claims. */
  lemma UnsettledStays(s: State, t: State, w: WorkerId, id: EventId, mark: nat)
    requires Unsettled(s, w, id, mark) && id in t.hist && s.hist[id] <= t.hist[id]
    requires forall k :: |s.hist[id]| <= k < |t.hist[id]| ==> t.hist[id][k].Claimed? || t.hist[id][k].w != w
    ensures Unsettled(t, w, id, mark)
  {
  }

  /** What action a adds to the history of an event. */
  lemma HistoryGrows(u: Setup, s: State, a: Action, id: EventId)
    requires s.rows.Keys == s.hist.Keys && Enabled(u, s, a) && id in s.hist
    ensures var t := Apply(u, s, a);
      && id in t.hist && s.hist[id] <= t.hist[id] && |t.hist[id]| <= |s.hist[id]| + 1
      && (|t.hist[id]| > |s.hist[id]| ==>
           var e := t.hist[id][|s.hist[id]|];
           e.Claimed? || ((a.Finalize? || a.Fail?) && e.w == a.w && id == Head(s, a.w).id))
  {
  }

  lemma UnsettledByOthers(u: Setup, s: State, a: Action, w: WorkerId, id: EventId, mark: nat)
    requires s.rows.Keys == s.hist.Keys && Enabled(u, s, a) && Unsettled(s, w, id, mark)
    requires (a.Finalize? || a.Fail?) && a.w == w ==> id != Head(s, w).id
    ensures Unsettled(Apply(u, s, a), w, id, mark)
  {
    HistoryGrows(u, s, a, id);
    UnsettledStays(s, Apply(u, s, a), w, id, mark);
  }

  lemma OthersStay(u: Setup, s: State, a: Action, v: WorkerId)
    requires s.rows.Keys == s.hist.Keys && Enabled(u, s, a) && v in s.workers && (a.Insert? || a.Tick? || a.w != v)
    ensures v in Apply(u, s, a).workers && Apply(u, s, a).workers[v] == s.workers[v]
  {
  }

  lemma BystanderOwn(u: Setup, s: State, a: Action, v: WorkerId, t: State)
    requires s.rows.Keys == s.hist.Keys && Enabled(u, s, a) && v in s.workers && OwnInv(s, v)
    requires (a.Insert? || a.Tick? || a.w != v) && t == Apply(u, s, a)
    ensures v in t.workers && OwnInv(t, v)
  {
    OthersStay(u, s, a, v);
    forall id, mark | Unsettled(s, v, id, mark) ensures Unsettled(t, v, id, mark) {
      UnsettledByOthers(u, s, a, v, id, mark);
    }
  }

  /** Where the actor may go within its batch: on with the same event, or on to the next one. */
  lemma ActorMoves(u: Setup, s: State, a: Action, t: State)
    requires s.rows.Keys == s.hist.Keys && Enabled(u, s, a) && !a.Insert? && !a.Tick? && !a.Claim? && !a.Read? && !a.Crash?
    requires t == Apply(u, s, a)
    ensures var x, y := s.workers[a.w], t.workers[a.w];
      && x.Running? && x.queue != [] && (y.Idle? || (y.Running? && y.marks == x.marks))
      && (y.Running? ==>
           || (y.queue == x.queue && (x.phase.Threw? ==> y.phase.Threw?) && (a.Finalize? || a.Fail? ==> y.phase.Threw?))
           || y.queue == x.queue[1..])
  {
  }

  lemma ActorOwn(u: Setup, s: State, a: Action, t: State)
    requires s.rows.Keys == s.hist.Keys && Enabled(u, s, a) && t == Apply(u, s, a)
    requires !a.Insert? && !a.Tick? && !a.Claim? && !a.Read? && !a.Crash? && OwnInv(s, a.w)
    ensures OwnInv(t, a.w)
  {
    ActorMoves(u, s, a, t);
    var x, y := s.workers[a.w], t.workers[a.w];
    if y.Running? {
      var shift := if y.queue == x.queue then 0 else 1;
      forall i | 0 <= i < |y.queue| && (i > 0 || !y.phase.Threw?)
        ensures y.queue[i].id in y.marks && Unsettled(t, a.w, y.queue[i].id, y.marks[y.queue[i].id])
      {
        assert y.queue[i] == x.queue[i + shift];
        UnsettledByOthers(u, s, a, a.w, y.queue[i].id, y.marks[y.queue[i].id]);
      }
    }
  }

  lemma TakerOwn(u: Setup, s: State, a: Action, t: State)
    requires s.rows.Keys == s.hist.Keys && Enabled(u, s, a) && t == Apply(u, s, a)
    requires (a.Claim? || a.Read? || a.Crash?) && WorkerInv(u, s, a.w) && OwnInv(s, a.w)
    ensures OwnInv(t, a.w)
  {
    if a.Read? {
      var marks := s.workers[a.w].marks;
      forall i | 0 <= i < |a.order| ensures a.order[i] in marks && Unsettled(t, a.w, a.order[i], marks[a.order[i]]) {
        assert a.order[i] in s.workers[a.w].ids;
      }
    }
  }

  ghost predicate AllOwn(s: State) {
    forall w :: w in s.workers ==> OwnInv(s, w)
  }

  lemma StepKeepsOwn(u: Setup, s: State, a: Action)
    requires Inv(u, s) && Enabled(u, s, a) && AllOwn(s)
    ensures AllOwn(Apply(u, s, a))
  {
    var t := Apply(u, s, a);
    forall v | v in t.workers ensures OwnInv(t, v) {
      assert v in s.workers;
      if a.Insert? || a.Tick? || a.w != v {
        BystanderOwn(u, s, a, v, t);
      } else {
        assert WorkerInv(u, s, v);
        if a.Claim? || a.Read? || a.Crash? { TakerOwn(u, s, a, t); } else { ActorOwn(u, s, a, t); }
      }
    }
  }

  // ----- workers that are in time

  /** No more than a lease has passed since the worker's claim of its batch. */
  ghost predicate InTime(u: Setup, s: State, w: WorkerId) {
    w in s.workers && !s.workers[w].Idle? ==>
      forall id :: id in s.workers[w].marks && id in s.hist && 1 <= s.workers[w].marks[id] <= |s.hist[id]| ==>
        s.now <= s.hist[id][s.workers[w].marks[id] - 1].at + u.cfg.leaseMs
  }

  /** A worker in time at an event it has not settled is the last to have touched its row, which it still holds. */
  lemma InTimeMeansHeld(u: Setup, s: State, w: WorkerId)
    requires Inv(u, s) && AllOwn(s) && AtHead(s, w) && !s.workers[w].phase.Threw? && InTime(u, s, w)
    ensures var id := Head(s, w).id; var marks := s.workers[w].marks;
      && id in marks && id in s.hist && id in s.rows
      && marks[id] == |s.hist[id]| >= 1 && s.hist[id][marks[id] - 1].Claimed? && s.hist[id][marks[id] - 1].w == w
      && Holds(s.rows[id], w)
  {
    assert WorkerInv(u, s, w) && OwnInv(s, w);
    var id, marks := Head(s, w).id, s.workers[w].marks;
    assert SnapshotInv(s, w, s.workers[w].queue[0], marks);
    assert MarkInv(s, w, id, marks[id]);
    assert RowInv(u, s, id);
    var h, m := s.hist[id], marks[id];
    if m < |h| {
      NothingForALease(h, u.cfg, m - 1);
      TimesGrow(h, u.cfg, m, |h| - 1);
      assert false;
    }
    HeldByLastClaim(h, u.cfg.maxRetries);
  }

  /** Two workers that are in time are never at the same event. */
  lemma NeverTwoAtOneEvent(u: Setup, s: State, v: WorkerId, w: WorkerId)
    requires Inv(u, s) && AllOwn(s) && AtHead(s, v) && AtHead(s, w) && Head(s, v).id == Head(s, w).id
    requires !s.workers[v].phase.Threw? && !s.workers[w].phase.Threw? && InTime(u, s, v) && InTime(u, s, w)
    ensures v == w
  {
    InTimeMeansHeld(u, s, v);
    InTimeMeansHeld(u, s, w);
  }
}
