/** Reconciliation of subscriptions whose period has passed, by any number of workers: each read and each
    transaction is one action, and everything else that writes subscriptions or entitlements may come in between. */
module Subscriptions {
  import opened Wrappers

  datatype SubscriptionStatus = INCOMPLETE | ACTIVE | PAST_DUE | CANCELED | UNPAID | TRIALING

  datatype Subscription = Subscription(
    status: SubscriptionStatus,
    currentPeriodEnd: nat,
    cancelAtPeriodEnd: bool,
    canceledAt: Option<nat>,
    endedAt: Option<nat>
  )

  datatype EntitlementStatus = ENT_ACTIVE | ENT_REVOKED | ENT_EXPIRED

  datatype Entitlement = Entitlement(subscription: Option<nat>, status: EntitlementStatus, revokedAt: Option<nat>)

  /** Ids are positions in the tables. */
  datatype Db = Db(subs: seq<Subscription>, ents: seq<Entitlement>)

  /** What the read keeps of a subscription. */
  datatype Snapshot = Snapshot(id: nat, cancelAtPeriodEnd: bool)

  predicate Expired(s: Subscription, now: nat) {
    s.status.ACTIVE? && s.currentPeriodEnd <= now
  }

  /** Expired subscriptions by end of period, at most limit of them, and no later one while an earlier one is left out. */
  ghost predicate IsBatch(subs: seq<Subscription>, now: nat, limit: nat, ids: seq<nat>) {
    && |ids| <= limit
    && (forall k :: 0 <= k < |ids| ==> ids[k] < |subs| && Expired(subs[ids[k]], now))
    && (forall j, k :: 0 <= j < k < |ids| ==> ids[j] != ids[k] && subs[ids[j]].currentPeriodEnd <= subs[ids[k]].currentPeriodEnd)
    && (forall i :: 0 <= i < |subs| && Expired(subs[i], now) && i !in ids ==>
         |ids| == limit && forall k :: 0 <= k < |ids| ==> subs[ids[k]].currentPeriodEnd <= subs[i].currentPeriodEnd)
  }

  function Snapshots(subs: seq<Subscription>, ids: seq<nat>): seq<Snapshot>
    requires forall k :: 0 <= k < |ids| ==> ids[k] < |subs|
  {
    seq(|ids|, k requires 0 <= k < |ids| => Snapshot(ids[k], subs[ids[k]].cancelAtPeriodEnd))
  }

  function Revoke(ents: seq<Entitlement>, sub: nat, now: nat): seq<Entitlement> {
    seq(|ents|, e requires 0 <= e < |ents| =>
      if ents[e].subscription == Some(sub) && ents[e].status.ENT_ACTIVE?
      then ents[e].(status := ENT_REVOKED, revokedAt := Some(now))
      else ents[e])
  }

  /** The transaction for one subscription and its updated.count. */
  function Transition(db: Db, x: Snapshot, now: nat): (Db, nat)
    requires x.id < |db.subs|
  {
    var s := db.subs[x.id];
    if !s.status.ACTIVE? then (db, 0)
    else if x.cancelAtPeriodEnd then
      (Db(db.subs[x.id := s.(status := CANCELED, canceledAt := Some(now), endedAt := Some(now))], Revoke(db.ents, x.id, now)), 1)
    else (db.(subs := db.subs[x.id := s.(status := PAST_DUE)]), 1)
  }

  /** When a cancellation commits, no entitlement of the subscription is active; nothing else has changed. */
  lemma CancellationRevokes(db: Db, x: Snapshot, now: nat)
    requires x.id < |db.subs|
    ensures var (t, count) := Transition(db, x, now);
      && (count == 1 <==> db.subs[x.id].status.ACTIVE?)
      && (count == 1 && x.cancelAtPeriodEnd ==>
           && t.subs[x.id] == db.subs[x.id].(status := CANCELED, canceledAt := Some(now), endedAt := Some(now))
           && (forall e :: 0 <= e < |t.ents| && t.ents[e].subscription == Some(x.id) ==> !t.ents[e].status.ENT_ACTIVE?)
           && (forall e :: 0 <= e < |db.ents| && e < |t.ents| && db.ents[e].subscription == Some(x.id) ==>
                t.ents[e] == if db.ents[e].status == ENT_ACTIVE
                  then db.ents[e].(status := ENT_REVOKED, revokedAt := Some(now)) else db.ents[e]))
      && (count == 1 && !x.cancelAtPeriodEnd ==>
           t.subs[x.id] == db.subs[x.id].(status := PAST_DUE) && t.ents == db.ents)
      && (count == 0 ==> t == db)
      && |t.subs| == |db.subs| && |t.ents| == |db.ents|
      && (forall i :: 0 <= i < |db.subs| && i != x.id ==> t.subs[i] == db.subs[i])
      && (forall e :: 0 <= e < |db.ents| && db.ents[e].subscription != Some(x.id) ==> t.ents[e] == db.ents[e])
  {
  }

  /** Where a fresh read of a subscription would lead. */
  function Wanted(s: Subscription, now: nat): SubscriptionStatus {
    if Expired(s, now) then (if s.cancelAtPeriodEnd then CANCELED else PAST_DUE) else s.status
  }

  /** The status a transaction leaves is the one a fresh read at commit would lead to iff the subscription is
      still expired then and its flag is still the one that was read: the guard checks the status alone. */
  lemma TransitionIsCurrentIff(db: Db, x: Snapshot, since: nat, now: nat)
    requires x.id < |db.subs| && db.subs[x.id].status.ACTIVE?
    ensures var s := db.subs[x.id];
      Transition(db, x, since).0.subs[x.id].status == Wanted(s, now) <==>
      s.currentPeriodEnd <= now && s.cancelAtPeriodEnd == x.cancelAtPeriodEnd
  {
  }

  // ----- the rest of the system

  /** Everything else that writes these tables: a checkout, the issue of an entitlement for a product, an
      administrator's cancellation, whose check of the status is a read of its own, and the end of an entitlement. */
  datatype Change =
    | Subscribe(periodEnd: nat)
    | Issue
    | Cancel(id: nat)
    | RevokeEntitlement(e: nat)
    | ExpireEntitlement(e: nat)

  predicate CanChange(db: Db, c: Change) {
    match c
    case Cancel(id) => id < |db.subs|
    case RevokeEntitlement(e) => e < |db.ents|
    case ExpireEntitlement(e) => e < |db.ents|
    case _ => true
  }

  function RunChange(db: Db, c: Change, now: nat): Db
    requires CanChange(db, c)
  {
    match c
    case Subscribe(end) =>
      Db(db.subs + [Subscription(ACTIVE, end, false, None, None)], db.ents + [Entitlement(Some(|db.subs|), ENT_ACTIVE, None)])
    case Issue => db.(ents := db.ents + [Entitlement(None, ENT_ACTIVE, None)])
    case Cancel(id) =>
      Db(db.subs[id := db.subs[id].(status := CANCELED, canceledAt := Some(now), endedAt := Some(now))], Revoke(db.ents, id, now))
    case RevokeEntitlement(e) =>
      if !db.ents[e].status.ENT_ACTIVE? then db
      else db.(ents := db.ents[e := db.ents[e].(status := ENT_REVOKED, revokedAt := Some(now))])
    case ExpireEntitlement(e) =>
      if !db.ents[e].status.ENT_ACTIVE? then db else db.(ents := db.ents[e := db.ents[e].(status := ENT_EXPIRED)])
  }

  /** An entitlement is ended only while it is active, and nothing else moves then. */
  lemma OnlyActiveEnds(db: Db, e: nat, now: nat)
    requires e < |db.ents|
    ensures var t := RunChange(db, RevokeEntitlement(e), now);
      t == if db.ents[e].status == ENT_ACTIVE
        then Db(db.subs, db.ents[e := db.ents[e].(status := ENT_REVOKED, revokedAt := Some(now))]) else db
    ensures var t := RunChange(db, ExpireEntitlement(e), now);
      t == if db.ents[e].status == ENT_ACTIVE then Db(db.subs, db.ents[e := db.ents[e].(status := ENT_EXPIRED)]) else db
  {
  }

  // ----- runs

  datatype Proc = Idle | Working(todo: seq<Snapshot>, since: nat, count: nat)

  /** reported is the sum of the transitionedCount values that calls have returned; left (history variable)
      counts the subscriptions that reconcilers took out of ACTIVE, late the ones counted by a callback whose
      commit then failed, lost the counts that died with their process. */
  datatype State = State(db: Db, now: nat, procs: seq<Proc>, reported: nat, left: nat, late: nat, lost: nat)

  datatype Action =
    | Tick(ms: nat)
    | Elsewhere(change: Change)
    | Read(p: nat, limit: nat, ids: seq<nat>)
    | Commit(p: nat, tx: Tx)
    | Report(p: nat)
    | Crash(p: nat)

  ghost predicate Enabled(s: State, a: Action) {
    match a
    case Tick(_) => true
    case Elsewhere(c) => CanChange(s.db, c)
    case Read(p, limit, ids) => p < |s.procs| && s.procs[p].Idle? && IsBatch(s.db.subs, s.now, limit, ids)
    case Commit(p, _) => p < |s.procs| && s.procs[p].Working? && s.procs[p].todo != [] && s.procs[p].todo[0].id < |s.db.subs|
    case Report(p) => p < |s.procs| && s.procs[p].Working? && s.procs[p].todo == []
    case Crash(p) => p < |s.procs|
  }

  ghost function CountOf(x: Proc): nat {
    if x.Working? then x.count else 0
  }

  /** Subscriptions that one step took out of ACTIVE. */
  ghost function LeftActive(x: seq<Subscription>, y: seq<Subscription>): nat
    requires |x| <= |y|
  {
    if x == [] then 0
    else
      var n := |x| - 1;
      LeftActive(x[..n], y[..n]) + if x[n].status.ACTIVE? && !y[n].status.ACTIVE? then 1 else 0
  }

  ghost function Apply(s: State, a: Action): State
    requires Enabled(s, a)
  {
    match a
    case Tick(ms) => s.(now := s.now + ms)
    case Elsewhere(c) => s.(db := RunChange(s.db, c, s.now))
    case Read(p, _, ids) => s.(procs := s.procs[p := Working(Snapshots(s.db.subs, ids), s.now, 0)])
    case Commit(p, tx) =>
      var x := s.procs[p];
      var (t, count) := Transition(s.db, x.todo[0], x.since);
      var after := if tx.Commits? then t else s.db;
      s.(db := after,
         procs := s.procs[p := Working(x.todo[1..], x.since, x.count + if tx.Aborts? then 0 else count)],
         left := s.left + LeftActive(s.db.subs, after.subs),
         late := s.late + if tx.AbortsLate? then count else 0)
    case Report(p) => s.(procs := s.procs[p := Idle], reported := s.reported + s.procs[p].count)
    case Crash(p) => s.(procs := s.procs[p := Idle], lost := s.lost + CountOf(s.procs[p]))
  }

  ghost predicate CanRun(s: State, run: seq<Action>)
    decreases |run|
  {
    run == [] || (Enabled(s, run[0]) && CanRun(Apply(s, run[0]), run[1..]))
  }

  ghost function Exec(s: State, run: seq<Action>): State
    requires CanRun(s, run)
    decreases |run|
  {
    if run == [] then s else Exec(Apply(s, run[0]), run[1..])
  }

  // ----- counting

  ghost function InFlight(procs: seq<Proc>): nat {
    if procs == [] then 0 else InFlight(procs[..|procs| - 1]) + CountOf(procs[|procs| - 1])
  }

  lemma {:induction false} InFlightUpdate(procs: seq<Proc>, p: nat, x: Proc)
    requires p < |procs|
    ensures InFlight(procs[p := x]) == InFlight(procs) - CountOf(procs[p]) + CountOf(x)
  {
    var n := |procs| - 1;
    if p == n {
      assert procs[p := x][..n] == procs[..n];
    } else {
      InFlightUpdate(procs[..n], p, x);
      assert procs[p := x][..n] == procs[..n][p := x];
    }
  }

  lemma {:induction false} LeftByNone(x: seq<Subscription>)
    ensures LeftActive(x, x) == 0
  {
    if x != [] { LeftByNone(x[..|x| - 1]); }
  }

  lemma {:induction false} LeftByOne(x: seq<Subscription>, i: nat, s: Subscription)
    requires i < |x|
    ensures LeftActive(x, x[i := s]) == if x[i].status.ACTIVE? && !s.status.ACTIVE? then 1 else 0
  {
    var n := |x| - 1;
    if i == n {
      assert x[i := s][..n] == x[..n];
      LeftByNone(x[..n]);
    } else {
      assert x[i := s][..n] == x[..n][i := s];
      LeftByOne(x[..n], i, s);
    }
  }

  lemma TransitionLeaves(db: Db, x: Snapshot, now: nat)
    requires x.id < |db.subs|
    ensures LeftActive(db.subs, Transition(db, x, now).0.subs) == Transition(db, x, now).1
  {
    LeftByNone(db.subs);
    if db.subs[x.id].status.ACTIVE? { LeftByOne(db.subs, x.id, Transition(db, x, now).0.subs[x.id]); }
  }

  ghost function Ledger(s: State): int {
    s.reported + InFlight(s.procs) + s.lost - s.left - s.late
  }

  lemma StepCounts(s: State, a: Action)
    requires Enabled(s, a)
    ensures Ledger(Apply(s, a)) == Ledger(s)
  {
    var t := Apply(s, a);
    if a.Read? || a.Commit? || a.Report? || a.Crash? { InFlightUpdate(s.procs, a.p, t.procs[a.p]); }
    if a.Commit? {
      TransitionLeaves(s.db, s.procs[a.p].todo[0], s.procs[a.p].since);
      LeftByNone(s.db.subs);
    }
  }

  /** Over any interleaving the returned counts are the subscriptions that reconcilers took out of ACTIVE,
      plus what was counted before a commit that failed, minus what was not returned. */
  lemma {:induction false} CountsAddUp(s: State, run: seq<Action>)
    requires CanRun(s, run)
    ensures Ledger(Exec(s, run)) == Ledger(s)
    decreases |run|
  {
    if run != [] {
      StepCounts(s, run[0]);
      CountsAddUp(Apply(s, run[0]), run[1..]);
    }
  }

  lemma {:induction false} AllIdle(n: nat)
    ensures InFlight(seq(n, _ => Idle)) == 0
  {
    if n > 0 {
      AllIdle(n - 1);
      assert seq(n, _ => Idle)[..n - 1] == seq(n - 1, _ => Idle);
    }
  }

  /** So from a fresh start, when every call has returned, the counts are exact iff no commit failed late. */
  lemma ReportedEqualsLeftIff(db: Db, now: nat, n: nat, run: seq<Action>)
    requires CanRun(State(db, now, seq(n, _ => Idle), 0, 0, 0, 0), run)
    requires var t := Exec(State(db, now, seq(n, _ => Idle), 0, 0, 0, 0), run); InFlight(t.procs) == 0 && t.lost == 0
    ensures var t := Exec(State(db, now, seq(n, _ => Idle), 0, 0, 0, 0), run); t.reported == t.left <==> t.late == 0
  {
    AllIdle(n);
    CountsAddUp(State(db, now, seq(n, _ => Idle), 0, 0, 0, 0), run);
  }

  const EXPIRED := Db([Subscription(ACTIVE, 5, false, None, None)], [])

  /** The condition is needed: one call, whose one commit fails late, reports a transition that was rolled back. */
  lemma LateAbortIsReported(s: State, run: seq<Action>)
    requires s == State(EXPIRED, 10, [Idle], 0, 0, 0, 0)
    requires run == [Read(0, 1, [0]), Commit(0, AbortsLate), Report(0)]
    ensures CanRun(s, run) && Exec(s, run) == State(EXPIRED, 10, [Idle], 1, 0, 1, 0)
  {
    var s1 := State(EXPIRED, 10, [Working([Snapshot(0, false)], 10, 0)], 0, 0, 0, 0);
    var s2 := State(EXPIRED, 10, [Working([], 10, 1)], 0, 0, 1, 0);
    var s3 := State(EXPIRED, 10, [Idle], 1, 0, 1, 0);
    assert Snapshots(EXPIRED.subs, [0]) == [Snapshot(0, false)];
    assert Apply(s, run[0]) == s1;
    LeftByNone(EXPIRED.subs);
    assert [Snapshot(0, false)][1..] == [];
    assert Apply(s1, run[1]) == s2;
    assert Apply(s2, run[2]) == s3;
    assert run[1..] == [run[1], run[2]] && run[1..][1..] == [run[2]] && [run[2]][1..] == [];
    assert CanRun(s3, []) && Exec(s3, []) == s3;
    assert CanRun(s2, [run[2]]) && Exec(s2, [run[2]]) == s3;
    assert CanRun(s1, run[1..]) && Exec(s1, run[1..]) == s3;
  }

  // ----- snapshots stay current

  /** Nothing rewrites the period or the flag of a subscription, and canceled is final. */
  ghost predicate KeepsTerms(x: seq<Subscription>, y: seq<Subscription>) {
    |x| <= |y| && forall i :: 0 <= i < |x| ==>
      && y[i].currentPeriodEnd == x[i].currentPeriodEnd && y[i].cancelAtPeriodEnd == x[i].cancelAtPeriodEnd
      && (x[i].status.CANCELED? ==> y[i].status.CANCELED?)
  }

  lemma StepKeepsTerms(s: State, a: Action)
    requires Enabled(s, a)
    ensures KeepsTerms(s.db.subs, Apply(s, a).db.subs) && s.now <= Apply(s, a).now
  {
  }

  ghost predicate SnapshotOf(s: State, since: nat, x: Snapshot) {
    && x.id < |s.db.subs| && s.db.subs[x.id].cancelAtPeriodEnd == x.cancelAtPeriodEnd
    && s.db.subs[x.id].currentPeriodEnd <= since <= s.now
  }

  /** What a worker holds of a subscription is still so. */
  ghost predicate SnapshotsHold(s: State) {
    forall p, k :: 0 <= p < |s.procs| && s.procs[p].Working? && 0 <= k < |s.procs[p].todo| ==>
      SnapshotOf(s, s.procs[p].since, s.procs[p].todo[k])
  }

  lemma StepKeepsSnapshots(s: State, a: Action, t: State)
    requires Enabled(s, a) && SnapshotsHold(s) && t == Apply(s, a)
    ensures SnapshotsHold(t)
  {
    StepKeepsTerms(s, a);
    forall p, k | 0 <= p < |t.procs| && t.procs[p].Working? && 0 <= k < |t.procs[p].todo|
      ensures SnapshotOf(t, t.procs[p].since, t.procs[p].todo[k])
    {
      if t.procs[p] == s.procs[p] {
        assert SnapshotOf(s, s.procs[p].since, s.procs[p].todo[k]);
      } else if a.Commit? {
        assert SnapshotOf(s, s.procs[p].since, s.procs[p].todo[k + 1]);
      }
    }
  }

  /** A commit that takes a subscription out of ACTIVE moves it where a fresh read would. */
  ghost predicate MovesCurrent(s: State, a: Action)
    requires Enabled(s, a)
  {
    a.Commit? ==>
      var id := s.procs[a.p].todo[0].id;
      Apply(s, a).db.subs[id].status != s.db.subs[id].status ==>
        Apply(s, a).db.subs[id].status == Wanted(s.db.subs[id], s.now)
  }

  ghost predicate AllMovesCurrent(s: State, run: seq<Action>)
    requires CanRun(s, run)
    decreases |run|
  {
    run == [] || (MovesCurrent(s, run[0]) && AllMovesCurrent(Apply(s, run[0]), run[1..]))
  }

  /** However old a worker's read is: in every interleaving with everything that writes these tables, each
      transition is the one a fresh read at its commit would have made. */
  lemma {:induction false} TransitionsAreCurrent(s: State, run: seq<Action>)
    requires CanRun(s, run) && SnapshotsHold(s)
    ensures AllMovesCurrent(s, run)
    decreases |run|
  {
    if run != [] {
      var a := run[0];
      if a.Commit? {
        var x := s.procs[a.p];
        assert SnapshotOf(s, x.since, x.todo[0]);
        if s.db.subs[x.todo[0].id].status.ACTIVE? { TransitionIsCurrentIff(s.db, x.todo[0], x.since, s.now); }
      }
      StepKeepsSnapshots(s, a, Apply(s, a));
      TransitionsAreCurrent(Apply(s, a), run[1..]);
    }
  }

  ghost predicate NoFlags(subs: seq<Subscription>) {
    forall i :: 0 <= i < |subs| ==> !subs[i].cancelAtPeriodEnd
  }

  /** No writer sets the flag, so where it is not set from outside, the reconciler only ever moves to PAST_DUE. */
  lemma {:induction false} FlagsStayClear(s: State, run: seq<Action>)
    requires CanRun(s, run) && NoFlags(s.db.subs)
    ensures NoFlags(Exec(s, run).db.subs)
    decreases |run|
  {
    if run != [] {
      var t := Apply(s, run[0]);
      StepKeepsTerms(s, run[0]);
      assert NoFlags(t.db.subs) by {
        forall i | 0 <= i < |t.db.subs| ensures !t.db.subs[i].cancelAtPeriodEnd {
          if i < |s.db.subs| { assert !s.db.subs[i].cancelAtPeriodEnd; }
        }
      }
      FlagsStayClear(t, run[1..]);
    }
  }

  // ----- canceled subscriptions have no active entitlement

  ghost predicate Revoked(db: Db) {
    forall e :: 0 <= e < |db.ents| && db.ents[e].subscription.Some? ==>
      && db.ents[e].subscription.value < |db.subs|
      && (db.ents[e].status.ENT_ACTIVE? ==> !db.subs[db.ents[e].subscription.value].status.CANCELED?)
  }

  lemma CancelKeepsRevoked(db: Db, id: nat, now: nat)
    requires id < |db.subs| && Revoked(db)
    ensures Revoked(RunChange(db, Cancel(id), now))
  {
    var t := RunChange(db, Cancel(id), now);
    assert forall e :: 0 <= e < |db.ents| ==> t.ents[e].subscription == db.ents[e].subscription;
  }

  lemma ChangeKeepsRevoked(db: Db, c: Change, now: nat)
    requires CanChange(db, c) && Revoked(db)
    ensures Revoked(RunChange(db, c, now))
  {
    if c.Cancel? { CancelKeepsRevoked(db, c.id, now); }
  }

  lemma TransitionKeepsRevoked(db: Db, x: Snapshot, now: nat)
    requires x.id < |db.subs| && Revoked(db)
    ensures Revoked(Transition(db, x, now).0)
  {
    var t := Transition(db, x, now).0;
    CancellationRevokes(db, x, now);
    assert forall e :: 0 <= e < |db.ents| ==> t.ents[e].subscription == db.ents[e].subscription;
  }

  /** In every interleaving of reconcilers with checkouts, cancellations by hand, grants and expiries, no canceled
      subscription has an active entitlement. */
  lemma {:induction false} RunKeepsRevoked(s: State, run: seq<Action>)
    requires CanRun(s, run) && Revoked(s.db)
    ensures Revoked(Exec(s, run).db)
    decreases |run|
  {
    if run != [] {
      var a := run[0];
      if a.Commit? {
        TransitionKeepsRevoked(s.db, s.procs[a.p].todo[0], s.procs[a.p].since);
      } else if a.Elsewhere? {
        ChangeKeepsRevoked(s.db, a.change, s.now);
      }
      RunKeepsRevoked(Apply(s, a), run[1..]);
    }
  }

  // ----- the reconciler

  ghost predicate Known(db: Db, xs: seq<Snapshot>) {
    forall k :: 0 <= k < |xs| ==> xs[k].id < |db.subs|
  }

  /** The transactions of one call in order: the tables they leave and what their callbacks counted. */
  ghost function Pass(db: Db, xs: seq<Snapshot>, now: nat, tx: nat -> Tx): (r: (Db, nat))
    requires Known(db, xs)
    ensures |r.0.subs| == |db.subs|
  {
    if xs == [] then (db, 0)
    else
      var n := |xs| - 1;
      var (before, counted) := Pass(db, xs[..n], now, tx);
      var (after, count) := Transition(before, xs[n], now);
      (if tx(n).Commits? then after else before, counted + if tx(n).Aborts? then 0 else count)
  }

  lemma OneMoreTransition(db: Db, xs: seq<Snapshot>, k: nat, now: nat, tx: nat -> Tx)
    requires Known(db, xs) && k < |xs|
    ensures var (before, counted) := Pass(db, xs[..k], now, tx);
      var (after, count) := Transition(before, xs[k], now);
      Pass(db, xs[..k + 1], now, tx) ==
      (if tx(k).Commits? then after else before, counted + if tx(k).Aborts? then 0 else count)
  {
    assert xs[..k + 1][..k] == xs[..k];
  }

  lemma NextPass(db: Db, xs: seq<Snapshot>, k: nat, now: nat, tx: nat -> Tx, before: Db, counted: nat, t: Db, more: nat)
    requires Known(db, xs) && k < |xs| && (before, counted) == Pass(db, xs[..k], now, tx)
    requires var (after, count) := Transition(before, xs[k], now);
      t == (if tx(k).Commits? then after else before) && more == if tx(k).Aborts? then 0 else count
    ensures (t, counted + more) == Pass(db, xs[..k + 1], now, tx) && |t.subs| == |db.subs|
  {
    OneMoreTransition(db, xs, k, now, tx);
  }

  /** Where an expired subscription goes. */
  ghost function Target(s: Subscription, tx: Tx): SubscriptionStatus {
    if !tx.Commits? then ACTIVE else if s.cancelAtPeriodEnd then CANCELED else PAST_DUE
  }

  /** How many callbacks of the first n transactions count. */
  ghost function Counted(n: nat, tx: nat -> Tx): nat {
    if n == 0 then 0 else Counted(n - 1, tx) + if tx(n - 1).Aborts? then 0 else 1
  }

  /** Exactly the subscriptions among the first n of ids whose transactions commit have moved, each by its own flag, and one is
      counted for each transaction that does not fail before its callback has counted. */
  ghost predicate Reached(db: Db, ids: seq<nat>, n: nat, tx: nat -> Tx, t: Db, counted: nat)
    requires n <= |ids| && forall k :: 0 <= k < |ids| ==> ids[k] < |db.subs|
  {
    && |t.subs| == |db.subs|
    && (forall i :: 0 <= i < |db.subs| && i !in ids[..n] ==> t.subs[i] == db.subs[i])
    && (forall k :: 0 <= k < n ==> t.subs[ids[k]].status == Target(db.subs[ids[k]], tx(k)))
    && counted == Counted(n, tx)
  }

  lemma ReachedSnoc(db: Db, ids: seq<nat>, n: nat, now: nat, tx: nat -> Tx, before: Db, counted: nat, after: Db, count: nat)
    requires n < |ids|
    requires forall j, k :: 0 <= j < k < |ids| ==> ids[j] != ids[k]
    requires forall k :: 0 <= k < |ids| ==> ids[k] < |db.subs| && Expired(db.subs[ids[k]], now)
    requires Reached(db, ids, n, tx, before, counted)
    requires (after, count) == Transition(before, Snapshot(ids[n], db.subs[ids[n]].cancelAtPeriodEnd), now)
    ensures Reached(db, ids, n + 1, tx, if tx(n).Commits? then after else before, counted + if tx(n).Aborts? then 0 else count)
  {
    assert ids[..n + 1] == ids[..n] + [ids[n]];
    assert ids[n] !in ids[..n];
  }

  /** What a call does with nobody else at work. */
  lemma {:induction false} PassReachesTargets(db: Db, ids: seq<nat>, n: nat, now: nat, tx: nat -> Tx, xs: seq<Snapshot>,
          t: Db, counted: nat)
    requires n <= |ids|
    requires forall j, k :: 0 <= j < k < |ids| ==> ids[j] != ids[k]
    requires forall k :: 0 <= k < |ids| ==> ids[k] < |db.subs| && Expired(db.subs[ids[k]], now)
    requires xs == Snapshots(db.subs, ids) && (t, counted) == Pass(db, xs[..n], now, tx)
    ensures Reached(db, ids, n, tx, t, counted)
  {
    if n == 0 {
      assert t == db && counted == 0;
    } else {
      var (before, c) := Pass(db, xs[..n - 1], now, tx);
      PassReachesTargets(db, ids, n - 1, now, tx, xs, before, c);
      OneMoreTransition(db, xs, n - 1, now, tx);
      var (after, count) := Transition(before, xs[n - 1], now);
      ReachedSnoc(db, ids, n - 1, now, tx, before, c, after, count);
    }
  }

  lemma BatchReachesTargets(db: Db, now: nat, limit: nat, ids: seq<nat>, tx: nat -> Tx, xs: seq<Snapshot>, t: Db, counted: nat)
    requires IsBatch(db.subs, now, limit, ids) && xs == Snapshots(db.subs, ids) && (t, counted) == Pass(db, xs, now, tx)
    ensures Reached(db, ids, |ids|, tx, t, counted)
  {
    assert xs[..|ids|] == xs;
    PassReachesTargets(db, ids, |ids|, now, tx, xs, t, counted);
  }

  class SubscriptionTables {
    var subs: seq<Subscription>
    var ents: seq<Entitlement>

    ghost function State(): Db
      reads this
    {
      Db(subs, ents)
    }

    /** The transaction for one subscription; counted is what the callback adds to the counter. */
    method Reconcile(x: Snapshot, now: nat, tx: Tx) returns (counted: nat)
      requires x.id < |subs|
      modifies this
      ensures var (t, count) := Transition(old(State()), x, now);
        State() == (if tx.Commits? then t else old(State())) && counted == if tx.Aborts? then 0 else count
    {
      counted := 0;
      if tx.Aborts? { return; }
      var subs0, ents0 := subs, ents;
      var updated := if subs[x.id].status.ACTIVE? then 1 else 0;
      if updated > 0 {
        var target := if x.cancelAtPeriodEnd then CANCELED else PAST_DUE;
        subs := subs[x.id := if target.CANCELED? then subs[x.id].(status := target, canceledAt := Some(now), endedAt := Some(now))
                             else subs[x.id].(status := target)];
        if target.CANCELED? {
          ents := Revoke(ents, x.id, now);
        }
        counted := 1;
      }
      if tx.AbortsLate? { subs, ents := subs0, ents0; }
    }

    /** A transaction that fails is logged and the loop goes on. */
    method ReconcileEach(now: nat, expired: seq<Snapshot>, tx: nat -> Tx) returns (transitionedCount: nat)
      requires Known(State(), expired)
      modifies this
      ensures (State(), transitionedCount) == Pass(old(State()), expired, now, tx)
    {
      transitionedCount := 0;
      ghost var db := State();
      for k := 0 to |expired|
        invariant |subs| == |db.subs|
        invariant (State(), transitionedCount) == Pass(db, expired[..k], now, tx)
      {
        ghost var before := State();
        var counted := Reconcile(expired[k], now, tx(k));
        NextPass(db, expired, k, now, tx, before, transitionedCount, State(), counted);
        transitionedCount := transitionedCount + counted;
      }
      assert expired[..|expired|] == expired;
    }

    /** ids is what the query answers. */
    method ReconcileExpiredSubscriptions(now: nat, limit: nat, ids: seq<nat>, tx: nat -> Tx) returns (transitionedCount: nat)
      requires IsBatch(subs, now, limit, ids)
      modifies this
      ensures (State(), transitionedCount) == Pass(old(State()), Snapshots(old(subs), ids), now, tx)
      ensures Reached(old(State()), ids, |ids|, tx, State(), transitionedCount)
    {
      ghost var db := State();
      var expired := Snapshots(subs, ids);
      transitionedCount := ReconcileEach(now, expired, tx);
      BatchReachesTargets(db, now, limit, ids, tx, expired, State(), transitionedCount);
    }
  }
}
