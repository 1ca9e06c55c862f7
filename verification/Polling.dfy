/** The polling loop of one worker process: a timer starts ticks, a tick awaits its tasks one after the
    other, and timers, task completions and the shutdown signal interleave freely. */
module Polling {
  datatype Task =
    | ProcessOutboxEvents | ExpireDueEntitlements | ReconcileExternalAllocations | ProvisionInternalLicenses
    | ReconcileMissingLicenseProvisionedEmailJobs | ReconcileInternalLicenses | PublishDueScheduledContent
    | DispatchPendingAutomationJobs | ReconcileHostingUsage | ReconcileIdleTickets | ReconcileMatureAffiliateReferrals
    | ReconcileExpiredSubscriptions

  datatype Features = Features(hosting: bool, affiliate: bool, membership: bool)

  function Tasks(f: Features): seq<Task> {
    [ProcessOutboxEvents, ExpireDueEntitlements, ReconcileExternalAllocations, ProvisionInternalLicenses,
     ReconcileMissingLicenseProvisionedEmailJobs, ReconcileInternalLicenses, PublishDueScheduledContent, DispatchPendingAutomationJobs]
    + (if f.hosting then [ReconcileHostingUsage] else [])
    + [ReconcileIdleTickets]
    + (if f.affiliate then [ReconcileMatureAffiliateReferrals] else [])
    + (if f.membership then [ReconcileExpiredSubscriptions] else [])
  }

  /** The place of a task in a tick. */
  function Rank(t: Task): nat {
    match t
    case ProcessOutboxEvents => 0
    case ExpireDueEntitlements => 1
    case ReconcileExternalAllocations => 2
    case ProvisionInternalLicenses => 3
    case ReconcileMissingLicenseProvisionedEmailJobs => 4
    case ReconcileInternalLicenses => 5
    case PublishDueScheduledContent => 6
    case DispatchPendingAutomationJobs => 7
    case ReconcileHostingUsage => 8
    case ReconcileIdleTickets => 9
    case ReconcileMatureAffiliateReferrals => 10
    case ReconcileExpiredSubscriptions => 11
  }

  /** A tick has every task, except the three that need a feature that is off. */
  lemma TasksIff(f: Features, t: Task)
    ensures t in Tasks(f) <==>
      && (t == ReconcileHostingUsage ==> f.hosting) && (t == ReconcileMatureAffiliateReferrals ==> f.affiliate)
      && (t == ReconcileExpiredSubscriptions ==> f.membership)
  {
    var s, h := Tasks(f), if f.hosting then 9 else 8;
    if Rank(t) < 8 { assert s[Rank(t)] == t; }
    if t.ReconcileHostingUsage? && f.hosting { assert s[8] == t; }
    if t.ReconcileIdleTickets? { assert s[h] == t; }
    if t.ReconcileMatureAffiliateReferrals? && f.affiliate { assert s[h + 1] == t; }
    if t.ReconcileExpiredSubscriptions? && f.membership { assert s[h + if f.affiliate then 2 else 1] == t; }
  }

  /** Each once, and in one order. */
  lemma TasksInOrder(f: Features)
    ensures forall i, j :: 0 <= i < j < |Tasks(f)| ==> Rank(Tasks(f)[i]) < Rank(Tasks(f)[j])
  {
    var s := Tasks(f);
    assert forall k :: 0 <= k < 8 ==> Rank(s[k]) == k;
  }

  /** A tick body that passed the guard: the features it will read, and how many of its tasks have ended. */
  datatype Tick = Tick(features: Features, done: nat)

  /** ticks: the bodies that have not reached their end; started (history variable): per body, oldest first,
      the tasks it has started. */
  datatype State = State(isPolling: bool, isShuttingDown: bool, ticks: seq<Tick>, started: seq<seq<Task>>)

  const START := State(false, false, [], [])

  /** Fire: the timer or the initial call; the features are those in force during the tick. */
  datatype Action = Fire(features: Features) | TaskEnds(i: nat, threw: bool) | Shutdown

  ghost predicate Enabled(s: State, a: Action) {
    a.TaskEnds? ==> a.i < |s.ticks| && s.started != []
  }

  /** The next task of the body just resumed, or its end. */
  ghost function Resume(s: State, i: nat, threw: bool): State
    requires i < |s.ticks| && s.started != []
  {
    var t := s.ticks[i];
    var tasks := Tasks(t.features);
    var last := |s.started| - 1;
    if threw || t.done + 1 >= |tasks| then s.(isPolling := false, ticks := s.ticks[..i] + s.ticks[i + 1..])
    else s.(ticks := s.ticks[i := t.(done := t.done + 1)], started := s.started[last := s.started[last] + [tasks[t.done + 1]]])
  }

  ghost function Apply(s: State, a: Action): State
    requires Enabled(s, a)
  {
    match a
    case Fire(f) =>
      if s.isPolling || s.isShuttingDown then s
      else s.(isPolling := true, ticks := s.ticks + [Tick(f, 0)], started := s.started + [[Tasks(f)[0]]])
    case TaskEnds(i, threw) => Resume(s, i, threw)
    case Shutdown => s.(isShuttingDown := true)
  }

  ghost predicate CanRun(s: State, run: seq<Action>)
    decreases |run|
  {
    run == [] || (Enabled(s, run[0]) && CanRun(Apply(s, run[0]), run[1..]))
  }

  ghost function Exec(s: State, run: seq<Action>): State
    requires CanRun(s, run)
    decreases |run|
  {
    if run == [] then s else Exec(Apply(s, run[0]), run[1..])
  }

  ghost predicate InOrder(tasks: seq<Task>) {
    exists f: Features :: tasks <= Tasks(f)
  }

  ghost predicate AtTask(started: seq<Task>, t: Tick) {
    t.done < |Tasks(t.features)| && started == Tasks(t.features)[..t.done + 1]
  }

  lemma Prefix(tasks: seq<Task>, n: nat)
    requires n < |tasks|
    ensures tasks[..n] + [tasks[n]] == tasks[..n + 1] && tasks[..n + 1] <= tasks
  {
  }

  lemma NextTask(started: seq<Task>, t: Tick)
    requires AtTask(started, t) && t.done + 1 < |Tasks(t.features)|
    ensures var more := started + [Tasks(t.features)[t.done + 1]];
      AtTask(more, t.(done := t.done + 1)) && InOrder(more)
  {
    Prefix(Tasks(t.features), t.done + 1);
  }

  lemma FirstTask(f: Features)
    ensures AtTask([Tasks(f)[0]], Tick(f, 0)) && InOrder([Tasks(f)[0]])
  {
    Prefix(Tasks(f), 0);
  }

  ghost predicate Inv(s: State) {
    && |s.ticks| == (if s.isPolling then 1 else 0)
    && (s.isPolling ==> s.started != [] && AtTask(s.started[|s.started| - 1], s.ticks[0]))
    && (forall k :: 0 <= k < |s.started| ==> InOrder(s.started[k]))
  }

  lemma FireKeepsInv(s: State, f: Features)
    requires Inv(s)
    ensures Inv(Apply(s, Fire(f)))
  {
    FirstTask(f);
  }

  lemma ResumeKeepsInv(s: State, threw: bool, t: Tick, tasks: seq<Task>, last: nat)
    requires Inv(s) && s.isPolling && t == s.ticks[0] && tasks == Tasks(t.features) && last == |s.started| - 1
    ensures Inv(Resume(s, 0, threw))
  {
    if t.done + 1 < |tasks| { NextTask(s.started[last], t); }
  }

  lemma StepKeepsInv(s: State, a: Action)
    requires Inv(s) && Enabled(s, a)
    ensures Inv(Apply(s, a))
  {
    if a.Fire? {
      FireKeepsInv(s, a.features);
    } else if a.TaskEnds? {
      ResumeKeepsInv(s, a.threw, s.ticks[0], Tasks(s.ticks[0].features), |s.started| - 1);
    }
  }

  /** A task that ends without throwing is followed by the next one; after the last the tick is over, with all of them
      started. */
  lemma EveryTaskRuns(s: State, i: nat)
    requires Inv(s) && Enabled(s, TaskEnds(i, false))
    ensures var t := Apply(s, TaskEnds(i, false));
      var tasks, last := Tasks(s.ticks[0].features), |s.started| - 1;
      && i == 0 && last >= 0 && |t.started| == |s.started|
      && (if s.started[last] == tasks then !t.isPolling && t.started == s.started
          else t.isPolling && |s.started[last]| < |tasks| && t.started[last] == s.started[last] + [tasks[|s.started[last]|]])
  {
    var tick, last := s.ticks[0], |s.started| - 1;
    assert AtTask(s.started[last], tick);
    if tick.done + 1 == |Tasks(tick.features)| {
      assert Tasks(tick.features)[..tick.done + 1] == Tasks(tick.features);
    }
  }

  /** Whatever the timer does, at most one tick of a worker is under way, so it processes one outbox batch at a
      time; every tick starts its tasks in the fixed order, each at most once. */
  lemma {:induction false} OneTickAtATime(s: State, run: seq<Action>)
    requires Inv(s) && CanRun(s, run)
    ensures var t := Exec(s, run);
      && |t.ticks| <= 1 && (t.isPolling <==> |t.ticks| == 1)
      && (forall k :: 0 <= k < |t.started| ==> InOrder(t.started[k]))
    decreases |run|
  {
    if run != [] {
      StepKeepsInv(s, run[0]);
      OneTickAtATime(Apply(s, run[0]), run[1..]);
    }
  }

  /** How many of the bodies started so far can still start a task. */
  ghost function Open(s: State): nat {
    if s.isPolling then 1 else 0
  }

  lemma {:induction false} EndedTicksStartNothing(s: State, run: seq<Action>, k: nat)
    requires Inv(s) && CanRun(s, run) && k + Open(s) < |s.started|
    ensures var t := Exec(s, run); k < |t.started| && t.started[k] == s.started[k]
    decreases |run|
  {
    if run != [] {
      StepKeepsInv(s, run[0]);
      EndedTicksStartNothing(Apply(s, run[0]), run[1..], k);
    }
  }

  /** A tick whose task threw starts no further task, whatever happens after. */
  lemma StopsAtFirstFailure(s: State, i: nat, run: seq<Action>)
    requires Inv(s) && Enabled(s, TaskEnds(i, true)) && CanRun(Apply(s, TaskEnds(i, true)), run)
    ensures var t := Exec(Apply(s, TaskEnds(i, true)), run); var last := |s.started| - 1;
      last < |t.started| && t.started[last] == s.started[last]
  {
    StepKeepsInv(s, TaskEnds(i, true));
    EndedTicksStartNothing(Apply(s, TaskEnds(i, true)), run, |s.started| - 1);
  }

  /** No tick starts after the shutdown signal; the one under way runs on. */
  lemma {:induction false} NoTickAfterShutdown(s: State, run: seq<Action>)
    requires s.isShuttingDown && CanRun(s, run)
    ensures |Exec(s, run).started| == |s.started| && Exec(s, run).isShuttingDown
    decreases |run|
  {
    if run != [] { NoTickAfterShutdown(Apply(s, run[0]), run[1..]); }
  }
}
