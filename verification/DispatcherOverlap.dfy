/** Two runs of overlapping dispatch: a completion that is overwritten, and a delivery left SENDING for good. */
module DispatcherOverlap {
  import opened Wrappers
  import opened Automation
  import opened Dispatcher
  import opened DispatcherRuns
  import opened DispatcherSteps
  import D = DispatcherRuns
  import S = DispatcherSteps

  const ORDERS: set<JobType> := {ORDER_PAID_EMAIL}

  /** What a worker holds of the one job after so many attempts. */
  function Held(attempts: nat): Claimed {
    Claimed(0, ORDER_PAID_EMAIL, Some(0), attempts, 3)
  }

  const NOTHING := Queue([], [])
  const WAITING := OneJob(JobStatus.PENDING, 0, None, None, DeliveryStatus.PENDING)
  const ENQUEUE := Api(D.EnqueueJob(ORDER_PAID_EMAIL, OtherKey(1), "a", 0))

  /** The job RUNNING for the n-th time, under a lease. */
  function Running(n: nat, lease: nat, d: DeliveryStatus): Queue {
    OneJob(JobStatus.RUNNING, n, None, Some(lease), d)
  }

  function Completed(n: nat, d: DeliveryStatus): Queue {
    OneJob(JobStatus.SUCCEEDED, n, None, None, d)
  }

  lemma Enqueues(s: S.State)
    requires s.queue == NOTHING
    ensures S.Enabled(s, ENQUEUE) && S.Apply(s, ENQUEUE) == s.(queue := WAITING)
  {
  }

  lemma Claims(s: S.State, a: S.Action, t: Queue)
    requires a.Claim? && a.p < |s.procs| && s.procs[a.p] == IDLE && a.allowed == ORDERS && a.ids == [0]
    requires (s.queue == WAITING && t == Running(1, a.until, DeliveryStatus.PENDING))
      || (s.queue == Running(1, 300000, DeliveryStatus.PENDING) && a.now > 300000 && t == Running(2, a.until, DeliveryStatus.PENDING))
    ensures S.Enabled(s, a)
    ensures S.Apply(s, a) == s.(queue := t, procs := s.procs[a.p := Proc([Held(t.jobs[0].attemptCount)], ToMark)])
  {
    assert Terminalize(s.queue, a.now) == s.queue;
    assert Dispatcher.Claim(s.queue, a.now, a.until, [0]) == t;
    assert Snapshot(t, [0]) == [Held(t.jobs[0].attemptCount)];
  }

  lemma Marks(s: S.State, p: nat, n: nat, q: Queue, t: Queue)
    requires p < |s.procs| && s.procs[p] == Proc([Held(n)], ToMark) && s.queue == q && |q.jobs| == 1 && |q.deliveries| == 1
    requires t == q.(deliveries := [q.deliveries[0].(status := DeliveryStatus.SENDING)])
    ensures S.Enabled(s, Mark(p)) && S.Apply(s, Mark(p)) == s.(queue := t, procs := s.procs[p := Proc([Held(n)], ToFetch)])
  {
    assert q.deliveries[0 := q.deliveries[0].(status := DeliveryStatus.SENDING)] == t.deliveries;
  }

  lemma Completes(s: S.State, n: nat, lease: nat)
    requires s.queue == Running(n, lease, DeliveryStatus.SENDING)
    ensures S.Enabled(s, Api(D.Complete(0)))
    ensures S.Apply(s, Api(D.Complete(0))) == s.(queue := Completed(n, DeliveryStatus.SENT))
  {
    assert CompleteJob(s.queue, 0).deliveries == Completed(n, DeliveryStatus.SENT).deliveries;
    assert CompleteJob(s.queue, 0).jobs == Completed(n, DeliveryStatus.SENT).jobs;
  }

  lemma Fetches(s: S.State, p: nat, n: nat, r: Answer)
    requires p < |s.procs| && s.procs[p] == Proc([Held(n)], ToFetch) && |s.queue.jobs| == 1
    ensures S.Enabled(s, Fetch(p, r))
    ensures S.Apply(s, Fetch(p, r)) ==
      s.(procs := s.procs[p := if r.Yes? then IDLE else Proc([Held(n)], ToSettle(r))], fetches := s.fetches + [0])
  {
    assert [Held(n)][1..] == [];
  }

  /** One worker over the queue. */
  ghost function One(q: Queue, x: Proc, fetches: seq<JobId>): S.State {
    S.State(q, [x], fetches, [])
  }

  lemma Settles(at: nat, q: Queue)
    requires q == OneJob(JobStatus.PENDING, 1, Some(at + 30000), None, DeliveryStatus.SENT)
    ensures var s := One(Completed(1, DeliveryStatus.SENT), Proc([Held(1)], ToSettle(Later)), [0]);
      S.Enabled(s, SettleJob(0, at)) && S.Apply(s, SettleJob(0, at)) == One(q, Proc([Held(1)], ToDeliver(DeliveryStatus.PENDING)), [0])
    ensures var s := One(q, Proc([Held(1)], ToDeliver(DeliveryStatus.PENDING)), [0]);
      S.Enabled(s, SettleDelivery(0)) && S.Apply(s, SettleDelivery(0)) ==
        One(OneJob(JobStatus.PENDING, 1, Some(at + 30000), None, DeliveryStatus.PENDING), IDLE, [0])
  {
    assert [Held(1)][1..] == [];
    assert SetJob(Completed(1, DeliveryStatus.SENT), 0, JobStatus.PENDING, Some(at + 30000)).jobs == q.jobs;
    assert SetDelivery(q, Some(0), DeliveryStatus.PENDING).deliveries == WAITING.deliveries;
  }

  ghost predicate Leads(s: S.State, run: seq<S.Action>, t: S.State) {
    S.CanRun(s, run) && S.Exec(s, run) == t
  }

  lemma First(s: S.State, a: S.Action, m: S.State, rest: seq<S.Action>, t: S.State) returns (run: seq<S.Action>)
    requires S.Enabled(s, a) && S.Apply(s, a) == m && Leads(m, rest, t)
    ensures run == [a] + rest && Leads(s, run, t)
  {
    S.Then(s, a, m, rest);
    run := [a] + rest;
  }

  lemma Last(s: S.State, a: S.Action, t: S.State) returns (run: seq<S.Action>)
    requires S.Enabled(s, a) && S.Apply(s, a) == t
    ensures Leads(s, run, t)
  {
    run := First(s, a, t, [], t);
  }

  /** After the call of a job completed meanwhile has failed. */
  lemma SettlesAnyway(at: nat, t: S.State) returns (run: seq<S.Action>)
    requires t == One(OneJob(JobStatus.PENDING, 1, Some(at + 30000), None, DeliveryStatus.PENDING), IDLE, [0])
    ensures Leads(One(Completed(1, DeliveryStatus.SENT), Proc([Held(1)], ToSettle(Later)), [0]), run, t)
  {
    var q := OneJob(JobStatus.PENDING, 1, Some(at + 30000), None, DeliveryStatus.SENT);
    Settles(at, q);
    var m := One(q, Proc([Held(1)], ToDeliver(DeliveryStatus.PENDING)), [0]);
    run := Last(m, SettleDelivery(0), t);
    run := First(One(Completed(1, DeliveryStatus.SENT), Proc([Held(1)], ToSettle(Later)), [0]), SettleJob(0, at), m, run, t);
  }

  lemma CompletedDuringTheCall(at: nat, t: S.State) returns (run: seq<S.Action>)
    requires t == One(OneJob(JobStatus.PENDING, 1, Some(at + 30000), None, DeliveryStatus.PENDING), IDLE, [0])
    ensures run != [] && run[0] == Api(D.Complete(0))
    ensures Leads(One(Running(1, 300000, DeliveryStatus.SENDING), Proc([Held(1)], ToFetch), []), run, t)
  {
    var s1 := One(Running(1, 300000, DeliveryStatus.SENDING), Proc([Held(1)], ToFetch), []);
    var s2 := One(Completed(1, DeliveryStatus.SENT), Proc([Held(1)], ToFetch), []);
    Completes(s1, 1, 300000);
    Fetches(s2, 0, 1, Later);
    run := SettlesAnyway(at, t);
    run := First(s2, Fetch(0, Later), One(s2.queue, Proc([Held(1)], ToSettle(Later)), [0]), run, t);
    run := First(s1, Api(D.Complete(0)), s2, run, t);
  }

  /** A completion can be lost: the callback arrives during the webhook call, the call then fails retryably, and the
      job, done and reported done, is PENDING again and due 30 seconds later. */
  lemma CompletionIsLost(s: S.State, at: nat) returns (run: seq<S.Action>)
    requires s == One(NOTHING, IDLE, [])
    ensures S.CanRun(s, run) && |run| > 3 && run[3] == Api(D.Complete(0))
    ensures S.Exec(s, run) == One(OneJob(JobStatus.PENDING, 1, Some(at + 30000), None, DeliveryStatus.PENDING), IDLE, [0])
    ensures Due(S.Exec(s, run).queue.jobs[0], at + 30000, ORDERS)
  {
    var t := One(OneJob(JobStatus.PENDING, 1, Some(at + 30000), None, DeliveryStatus.PENDING), IDLE, [0]);
    var claim := S.Claim(0, 0, 300000, ORDERS, [0]);
    var s1 := One(WAITING, IDLE, []);
    var s2 := One(Running(1, 300000, DeliveryStatus.PENDING), Proc([Held(1)], ToMark), []);
    var s3 := One(Running(1, 300000, DeliveryStatus.SENDING), Proc([Held(1)], ToFetch), []);
    Enqueues(s);
    Claims(s1, claim, s2.queue);
    Marks(s2, 0, 1, s2.queue, s3.queue);
    run := CompletedDuringTheCall(at, t);
    run := First(s2, Mark(0), s3, run, t);
    run := First(s1, claim, s2, run, t);
    run := First(s, ENQUEUE, s1, run, t);
  }

  ghost function Two(q: Queue, x: Proc, y: Proc, fetches: seq<JobId>): S.State {
    S.State(q, [x, y], fetches, [])
  }

  lemma OutOfStep(s: S.State)
    requires s == Two(Completed(2, DeliveryStatus.SENDING), IDLE, IDLE, [0, 0])
    ensures !Steady(s)
  {
    assert !Owed(s, 0);
    assert !InStep(s.queue, 0, []);
  }

  /** The second worker's call is accepted and the job completed; the first still has to mark its delivery. */
  lemma MarksTooLate(t: S.State) returns (run: seq<S.Action>)
    requires t == Two(Completed(2, DeliveryStatus.SENDING), IDLE, IDLE, [0, 0])
    ensures Leads(Two(Running(2, 600001, DeliveryStatus.SENDING), Proc([Held(1)], ToMark), IDLE, [0]), run, t)
  {
    var s1 := Two(Running(2, 600001, DeliveryStatus.SENDING), Proc([Held(1)], ToMark), IDLE, [0]);
    var s2 := Two(Completed(2, DeliveryStatus.SENT), Proc([Held(1)], ToMark), IDLE, [0]);
    var s3 := Two(Completed(2, DeliveryStatus.SENDING), Proc([Held(1)], ToFetch), IDLE, [0]);
    Completes(s1, 2, 600001);
    Marks(s2, 0, 1, s2.queue, s3.queue);
    Fetches(s3, 0, 1, Yes);
    run := Last(s3, Fetch(0, Yes), t);
    run := First(s2, Mark(0), s3, run, t);
    run := First(s1, Api(D.Complete(0)), s2, run, t);
  }

  lemma SecondSends(t: S.State) returns (run: seq<S.Action>)
    requires t == Two(Completed(2, DeliveryStatus.SENDING), IDLE, IDLE, [0, 0])
    ensures Leads(Two(Running(1, 300000, DeliveryStatus.PENDING), Proc([Held(1)], ToMark), IDLE, []), run, t)
  {
    var second := S.Claim(1, 300001, 600001, ORDERS, [0]);
    var s1 := Two(Running(1, 300000, DeliveryStatus.PENDING), Proc([Held(1)], ToMark), IDLE, []);
    var s2 := Two(Running(2, 600001, DeliveryStatus.PENDING), Proc([Held(1)], ToMark), Proc([Held(2)], ToMark), []);
    var s3 := Two(Running(2, 600001, DeliveryStatus.SENDING), Proc([Held(1)], ToMark), Proc([Held(2)], ToFetch), []);
    Claims(s1, second, s2.queue);
    Marks(s2, 1, 2, s2.queue, s3.queue);
    Fetches(s3, 1, 2, Yes);
    run := MarksTooLate(t);
    run := First(s3, Fetch(1, Yes), Two(s3.queue, Proc([Held(1)], ToMark), IDLE, [0]), run, t);
    run := First(s2, Mark(1), s3, run, t);
    run := First(s1, second, s2, run, t);
  }

  /** A late mark: the first worker outlives its lease before it marks, the second has the job sent and completed, and
      then the first marks the delivery SENDING. With both done the job is SUCCEEDED and its delivery is not SENT. */
  lemma LateMark(s: S.State) returns (run: seq<S.Action>)
    requires s == Two(NOTHING, IDLE, IDLE, [])
    ensures S.CanRun(s, run)
    ensures S.Exec(s, run) == Two(Completed(2, DeliveryStatus.SENDING), IDLE, IDLE, [0, 0])
    ensures !Steady(S.Exec(s, run))
  {
    var t := Two(Completed(2, DeliveryStatus.SENDING), IDLE, IDLE, [0, 0]);
    var first := S.Claim(0, 0, 300000, ORDERS, [0]);
    var s1 := Two(WAITING, IDLE, IDLE, []);
    var s2 := Two(Running(1, 300000, DeliveryStatus.PENDING), Proc([Held(1)], ToMark), IDLE, []);
    Enqueues(s);
    Claims(s1, first, s2.queue);
    run := SecondSends(t);
    run := First(s1, first, s2, run, t);
    run := First(s, ENQUEUE, s1, run, t);
    OutOfStep(t);
  }
}
