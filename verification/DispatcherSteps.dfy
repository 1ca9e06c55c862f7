/** The dispatcher by any number of workers: the claim, the mark on the delivery, the webhook call and the two settling
    updates are actions of their own, and callbacks, administrators and other claims may come between any two. */
module DispatcherSteps {
  import opened Wrappers
  import opened Automation
  import opened Dispatcher
  import opened DispatcherRuns
  import D = DispatcherRuns

  /** Where a worker is with the first job of its batch: ToDeliver holds the status its delivery is about to get. */
  datatype Stage = ToMark | ToFetch | ToSettle(answer: Answer) | ToDeliver(st: DeliveryStatus)

  /** A worker with nothing to do has no batch. */
  datatype Proc = Proc(todo: seq<Claimed>, stage: Stage)

  const IDLE := Proc([], ToMark)

  datatype State = State(queue: Queue, procs: seq<Proc>, fetches: seq<JobId>, retries: seq<JobId>)

  /** Api: an action of DispatcherRuns other than a call. Crash ends a call anywhere; so does a URL that does not parse. */
  datatype Action =
    | Api(a: D.Action)
    | Claim(p: nat, now: nat, until: nat, allowed: set<JobType>, ids: seq<JobId>)
    | Mark(p: nat)
    | Fetch(p: nat, answer: Answer)
    | SettleJob(p: nat, at: nat)
    | SettleDelivery(p: nat)
    | Crash(p: nat)

  ghost function Serial(s: State): D.State {
    D.State(s.queue, s.fetches, s.retries)
  }

  ghost predicate AtJob(s: State, p: nat) {
    p < |s.procs| && s.procs[p].todo != [] && s.procs[p].todo[0].id < |s.queue.jobs|
  }

  ghost function Head(s: State, p: nat): Claimed
    requires AtJob(s, p)
  {
    s.procs[p].todo[0]
  }

  ghost predicate Enabled(s: State, a: Action) {
    match a
    case Api(b) => !b.Call? && D.Enabled(Serial(s), b)
    case Claim(p, now, _, allowed, ids) =>
      p < |s.procs| && s.procs[p] == IDLE && Claimable(Terminalize(s.queue, now), now, allowed, |ids|, ids)
    case Mark(p) => AtJob(s, p) && s.procs[p].stage.ToMark?
    case Fetch(p, _) => AtJob(s, p) && s.procs[p].stage.ToFetch?
    case SettleJob(p, _) => AtJob(s, p) && s.procs[p].stage.ToSettle?
    case SettleDelivery(p) => AtJob(s, p) && s.procs[p].stage.ToDeliver?
    case Crash(p) => p < |s.procs|
  }

  ghost function At(s: State, p: nat, stage: Stage): State
    requires p < |s.procs|
  {
    s.(procs := s.procs[p := s.procs[p].(stage := stage)])
  }

  /** On to the next job of the batch. */
  ghost function Next(s: State, p: nat): State
    requires AtJob(s, p)
  {
    s.(procs := s.procs[p := Proc(s.procs[p].todo[1..], ToMark)])
  }

  predicate CanRetry(c: Claimed, r: Answer) {
    r.Later? && c.attemptCount < c.maxAttempts
  }

  ghost function Apply(s: State, a: Action): State
    requires Enabled(s, a)
  {
    match a
    case Api(b) => var t := D.Apply(Serial(s), b); s.(queue := t.queue, retries := t.retries)
    case Claim(p, now, until, allowed, ids) =>
      var claimed := Dispatcher.Claim(s.queue, now, until, ids);
      s.(queue := claimed, procs := s.procs[p := Proc(Snapshot(claimed, ids), ToMark)])
    case Mark(p) => At(s, p, ToFetch).(queue := SetDelivery(s.queue, Head(s, p).delivery, DeliveryStatus.SENDING))
    case Fetch(p, r) =>
      (if r.Yes? then Next(s, p) else At(s, p, ToSettle(r))).(fetches := s.fetches + [Head(s, p).id])
    case SettleJob(p, at) =>
      var c := Head(s, p);
      if CanRetry(c, s.procs[p].stage.answer) then
        At(s, p, ToDeliver(DeliveryStatus.PENDING)).(queue :=
          SetJob(s.queue, c.id, JobStatus.PENDING, Some(at + 1000 * BackoffSeconds(c.attemptCount))))
      else
        At(s, p, ToDeliver(DeliveryStatus.FAILED)).(queue :=
          SetJob(s.queue, c.id, JobStatus.FAILED, s.queue.jobs[c.id].scheduledAt))
    case SettleDelivery(p) => Next(s, p).(queue := SetDelivery(s.queue, Head(s, p).delivery, s.procs[p].stage.st))
    case Crash(p) => s.(procs := s.procs[p := IDLE])
  }

  ghost predicate CanRun(s: State, run: seq<Action>)
    decreases |run|
  {
    run == [] || (Enabled(s, run[0]) && CanRun(Apply(s, run[0]), run[1..]))
  }

  ghost function Exec(s: State, run: seq<Action>): State
    requires CanRun(s, run)
    decreases |run|
  {
    if run == [] then s else Exec(Apply(s, run[0]), run[1..])
  }

  lemma Then(s: State, a: Action, t: State, rest: seq<Action>)
    requires Enabled(s, a) && Apply(s, a) == t && CanRun(t, rest)
    ensures CanRun(s, [a] + rest) && Exec(s, [a] + rest) == Exec(t, rest)
  {
    assert ([a] + rest)[1..] == rest;
  }

  /** A condition on a state and the action about to be taken in it holds at every step. */
  ghost predicate Throughout(ok: (State, Action) -> bool, s: State, run: seq<Action>)
    requires CanRun(s, run)
    decreases |run|
  {
    run == [] || (ok(s, run[0]) && Throughout(ok, Apply(s, run[0]), run[1..]))
  }

  /** The steps of one job, taken in a row, are the serial dispatch of it. */
  lemma JobInARow(s: State, p: nat, r: Answer, at: nat)
    requires Enabled(s, Mark(p)) && !r.Yes?
    ensures var s1 := Apply(s, Mark(p)); var s2 := Apply(s1, Fetch(p, r)); var s3 := Apply(s2, SettleJob(p, at));
      Apply(s3, SettleDelivery(p)).queue == DispatchOne(Send, s.queue, Head(s, p), r, at).queue
  {
  }

  // ----- who still owes what

  /** The worker has claimed the job and not marked its delivery yet, or has settled the job and not its delivery. */
  ghost predicate Owes(x: Proc, i: JobId) {
    exists k :: 0 <= k < |x.todo| && x.todo[k].id == i && (k > 0 || x.stage.ToMark? || x.stage.ToDeliver?)
  }

  ghost predicate Owed(s: State, i: JobId) {
    exists p :: 0 <= p < |s.procs| && Owes(s.procs[p], i)
  }

  ghost predicate OwedElse(s: State, p: nat, i: JobId) {
    exists v :: 0 <= v < |s.procs| && v != p && Owes(s.procs[v], i)
  }

  ghost predicate ProcInv(q: Queue, x: Proc) {
    && DistinctIds(x.todo)
    && forall k :: 0 <= k < |x.todo| ==> x.todo[k].id < |q.jobs| && x.todo[k].delivery == q.jobs[x.todo[k].id].delivery
  }

  ghost predicate Inv(s: State) {
    Linked(s.queue) && Drafts(s.queue) && forall p :: 0 <= p < |s.procs| ==> ProcInv(s.queue, s.procs[p])
  }

  /** Every job to which no worker owes a statement is in step with its delivery. */
  ghost predicate Steady(s: State) {
    forall i :: 0 <= i < |s.queue.jobs| && !Owed(s, i) ==> InStep(s.queue, i, s.retries)
  }

  // ----- the invariant

  /** Jobs are only added, and keep their payload. */
  ghost predicate Keeps(q: Queue, t: Queue) {
    |q.jobs| <= |t.jobs| && forall i :: 0 <= i < |q.jobs| ==> t.jobs[i].delivery == q.jobs[i].delivery
  }

  lemma RowsKeep(q: Queue, t: Queue)
    requires SameRows(q, t) && Drafts(q)
    ensures Drafts(t) && Keeps(q, t)
  {
  }

  lemma NewJobKeeps(s: D.State, a: D.Action, t: D.State)
    requires D.Enabled(s, a) && (a.EnqueueJob? || a.RequestDraft?) && t == D.Apply(s, a) && Drafts(s.queue)
    ensures Drafts(t.queue) && Keeps(s.queue, t.queue)
  {
  }

  lemma ApiKeeps(s: D.State, a: D.Action, t: D.State)
    requires D.Enabled(s, a) && !a.Call? && t == D.Apply(s, a) && Linked(s.queue) && Drafts(s.queue)
    ensures Linked(t.queue) && Drafts(t.queue) && Keeps(s.queue, t.queue)
  {
    D.StepKeepsLinked(s, a, t);
    if a.EnqueueJob? || a.RequestDraft? {
      NewJobKeeps(s, a, t);
    } else {
      CompleteKeepsRows(s.queue, a.i);
      FailKeepsRows(s.queue, a.i, a.Fail? && a.retryable, if a.Fail? || a.Retry? then a.at else 0);
      RowsKeep(s.queue, t.queue);
    }
  }

  lemma DeliveryKeepsRows(q: Queue, d: Option<DeliveryId>, st: DeliveryStatus)
    ensures SameRows(q, SetDelivery(q, d, st))
  {
  }

  lemma JobKeepsRows(q: Queue, i: JobId, st: JobStatus, scheduledAt: Option<nat>)
    requires i < |q.jobs|
    ensures SameRows(q, SetJob(q, i, st, scheduledAt))
  {
  }

  lemma QueueKeeps(s: State, a: Action, t: State)
    requires Inv(s) && Enabled(s, a) && t == Apply(s, a)
    ensures Linked(t.queue) && Drafts(t.queue) && Keeps(s.queue, t.queue)
  {
    match a {
      case Api(b) => ApiKeeps(Serial(s), b, D.Apply(Serial(s), b));
      case Claim(_, now, until, _, ids) => ClaimKeepsRows(s.queue, now, until, ids);
      case Mark(p) => DeliveryKeepsRows(s.queue, Head(s, p).delivery, DeliveryStatus.SENDING);
      case SettleJob(p, at) =>
        var j := t.queue.jobs[Head(s, p).id];
        JobKeepsRows(s.queue, Head(s, p).id, j.status, j.scheduledAt);
      case SettleDelivery(p) => DeliveryKeepsRows(s.queue, Head(s, p).delivery, s.procs[p].stage.st);
      case _ =>
    }
    if !a.Api? { SameRowsLinked(s.queue, t.queue); }
  }

  lemma ProcStays(q: Queue, t: Queue, x: Proc, y: Proc)
    requires ProcInv(q, x) && Keeps(q, t) && (y.todo == x.todo || y.todo == [] || (x.todo != [] && y.todo == x.todo[1..]))
    ensures ProcInv(t, y)
  {
  }

  lemma ClaimerInv(q: Queue, until: nat, ids: seq<JobId>)
    requires forall i, j :: 0 <= i < j < |ids| ==> ids[i] != ids[j]
    requires forall k :: 0 <= k < |ids| ==> ids[k] < |q.jobs|
    ensures ProcInv(TakeJobs(q, until, ids), Proc(Snapshot(TakeJobs(q, until, ids), ids), ToMark))
  {
    ClaimedAreUntouched(q, until, ids);
  }

  lemma StepKeepsInv(s: State, a: Action, t: State)
    requires Inv(s) && Enabled(s, a) && t == Apply(s, a)
    ensures Inv(t)
  {
    QueueKeeps(s, a, t);
    if a.Claim? { ClaimerInv(Terminalize(s.queue, a.now), a.until, a.ids); }
    forall v | 0 <= v < |t.procs| ensures ProcInv(t.queue, t.procs[v]) {
      assert ProcInv(s.queue, s.procs[v]);
      if !a.Claim? || v != a.p { ProcStays(s.queue, t.queue, s.procs[v], t.procs[v]); }
    }
  }

  // ----- one action

  /** What one worker's move does to what is owed of a job. */
  lemma OwedAfter(s: State, t: State, p: nat, i: JobId)
    requires p < |s.procs| && |t.procs| == |s.procs| && forall v :: 0 <= v < |s.procs| && v != p ==> t.procs[v] == s.procs[v]
    ensures Owed(s, i) <==> Owes(s.procs[p], i) || OwedElse(s, p, i)
    ensures Owed(t, i) <==> Owes(t.procs[p], i) || OwedElse(s, p, i)
  {
    if OwedElse(s, p, i) {
      var v :| 0 <= v < |s.procs| && v != p && Owes(s.procs[v], i);
      assert Owes(t.procs[v], i);
    }
  }

  /** Moving on within the first job, or past it, changes nothing for the jobs behind it. */
  lemma OwesBehind(x: Proc, y: Proc, i: JobId)
    requires x.todo != [] && DistinctIds(x.todo) && i != x.todo[0].id
    requires y.todo == x.todo || (y.todo == x.todo[1..] && y.stage.ToMark?)
    ensures Owes(y, i) <==> Owes(x, i)
  {
    if Owes(x, i) {
      var k :| 0 <= k < |x.todo| && x.todo[k].id == i;
      if y.todo == x.todo[1..] { assert y.todo[k - 1].id == i; } else { assert y.todo[k].id == i; }
    }
    if Owes(y, i) {
      var k :| 0 <= k < |y.todo| && y.todo[k].id == i;
      if y.todo == x.todo[1..] { assert x.todo[k + 1].id == i; }
    }
  }

  lemma OwesHead(x: Proc)
    requires x.todo != [] && DistinctIds(x.todo)
    ensures Owes(x, x.todo[0].id) <==> x.stage.ToMark? || x.stage.ToDeliver?
    ensures !Owes(Proc(x.todo[1..], ToMark), x.todo[0].id)
  {
    if x.stage.ToMark? || x.stage.ToDeliver? { assert x.todo[0].id == x.todo[0].id; }
  }

  /** A status written to a delivery moves its own job only, into step iff it is the one that follows the job. */
  lemma DeliverInStep(q: Queue, c: Claimed, st: DeliveryStatus, i: JobId, retried: seq<JobId>)
    requires Linked(q) && c.id < |q.jobs| && c.delivery == q.jobs[c.id].delivery && i < |q.jobs|
    ensures i != c.id ==> (InStep(SetDelivery(q, c.delivery, st), i, retried) <==> InStep(q, i, retried))
    ensures i == c.id ==> (InStep(SetDelivery(q, c.delivery, st), i, retried) <==>
                           c.delivery.None? || Follows(q.jobs[i].status, st, i in retried))
  {
    var d := q.jobs[i].delivery;
    if d.Some? { assert q.deliveries[d.value].jobId == Some(i); }
    if c.delivery.Some? { assert q.deliveries[c.delivery.value].jobId == Some(c.id); }
  }

  /** The delivery that worker p is about to write follows its job, unless somebody else owes the job a statement too. */
  ghost predicate Delivers(s: State, p: nat, st: DeliveryStatus)
    requires AtJob(s, p)
  {
    var c := Head(s, p);
    OwedElse(s, p, c.id) || c.delivery.None? || Follows(s.queue.jobs[c.id].status, st, c.id in s.retries)
  }

  /** The action leaves everything in step that nobody owes anything: a delivery is marked while its job is RUNNING
      and settled while its job is where it was settled to, and no crash leaves a job half done. */
  ghost predicate Clean(s: State, a: Action)
    requires Enabled(s, a)
  {
    match a
    case Mark(p) => Delivers(s, p, DeliveryStatus.SENDING)
    case SettleDelivery(p) => Delivers(s, p, s.procs[p].stage.st)
    case Crash(p) =>
      forall i :: 0 <= i < |s.queue.jobs| && Owes(s.procs[p], i) && !OwedElse(s, p, i) ==> InStep(s.queue, i, s.retries)
    case _ => true
  }

  lemma DeliverSteadyIff(s: State, p: nat, st: DeliveryStatus, t: State)
    requires Inv(s) && Steady(s) && AtJob(s, p) && (s.procs[p].stage.ToMark? || s.procs[p].stage.ToDeliver?)
    requires t == (if s.procs[p].stage.ToMark? then At(s, p, ToFetch) else Next(s, p))
      .(queue := SetDelivery(s.queue, Head(s, p).delivery, st))
    ensures Steady(t) <==> Delivers(s, p, st)
  {
    var c := Head(s, p);
    assert ProcInv(s.queue, s.procs[p]);
    OwesHead(s.procs[p]);
    assert !Owes(t.procs[p], c.id) by { if s.procs[p].stage.ToMark? { OwesHead(t.procs[p]); } }
    forall i | 0 <= i < |s.queue.jobs| && i != c.id
      ensures (Owed(t, i) <==> Owed(s, i)) && (InStep(t.queue, i, t.retries) <==> InStep(s.queue, i, s.retries))
    {
      OwesBehind(s.procs[p], t.procs[p], i);
      OwedAfter(s, t, p, i);
      DeliverInStep(s.queue, c, st, i, s.retries);
    }
    OwedAfter(s, t, p, c.id);
    DeliverInStep(s.queue, c, st, c.id, s.retries);
  }

  /** The webhook call and the update of the job leave nothing unowed out of step. */
  lemma OwnMoveSteady(s: State, a: Action, t: State)
    requires Inv(s) && Steady(s) && Enabled(s, a) && (a.Fetch? || a.SettleJob?) && t == Apply(s, a)
    ensures Steady(t)
  {
    var c := Head(s, a.p);
    assert ProcInv(s.queue, s.procs[a.p]);
    OwesHead(s.procs[a.p]);
    forall i | 0 <= i < |t.queue.jobs| && !Owed(t, i) ensures InStep(t.queue, i, t.retries) {
      OwedAfter(s, t, a.p, i);
      if i != c.id { OwesBehind(s.procs[a.p], t.procs[a.p], i); }
      if a.SettleJob? { OwesHead(t.procs[a.p]); }
      assert InStep(s.queue, i, s.retries);
    }
  }

  lemma CrashSteadyIff(s: State, p: nat, t: State)
    requires Steady(s) && p < |s.procs| && t == Apply(s, Crash(p))
    ensures Steady(t) <==> Clean(s, Crash(p))
  {
    forall i | 0 <= i < |s.queue.jobs|
      ensures !Owed(t, i) <==> !OwedElse(s, p, i)
      ensures Owed(s, i) <==> Owes(s.procs[p], i) || OwedElse(s, p, i)
    {
      OwedAfter(s, t, p, i);
      assert !Owes(t.procs[p], i);
    }
  }

  lemma TerminalizeInStep(q: Queue, now: nat, i: JobId, retried: seq<JobId>)
    requires Linked(q) && i < |q.jobs| && InStep(q, i, retried)
    ensures InStep(Terminalize(q, now), i, retried)
  {
    if q.jobs[i].delivery.Some? { assert q.deliveries[q.jobs[i].delivery.value].jobId == Some(i); }
  }

  lemma ClaimSteady(s: State, a: Action, t: State)
    requires Inv(s) && Steady(s) && Enabled(s, a) && a.Claim? && t == Apply(s, a)
    ensures Steady(t)
  {
    var given := Terminalize(s.queue, a.now);
    forall i | 0 <= i < |t.queue.jobs| && !Owed(t, i) ensures InStep(t.queue, i, t.retries) {
      OwedAfter(s, t, a.p, i);
      assert !Owes(s.procs[a.p], i);
      assert InStep(s.queue, i, s.retries);
      TerminalizeInStep(s.queue, a.now, i, s.retries);
      var cs := t.procs[a.p].todo;
      assert forall k :: 0 <= k < |a.ids| ==> cs[k].id == a.ids[k];
      TakeLeaves(given, a.until, a.ids, cs, i, s.retries);
    }
  }

  lemma CallbackInStep(q: Queue, i: JobId, retryable: bool, at: nat, retried: seq<JobId>, k: JobId)
    requires Linked(q) && Drafts(q) && i < |q.jobs| && k < |q.jobs| && InStep(q, k, retried)
    ensures InStep(CompleteJob(q, i), k, retried) && InStep(FailJob(q, i, retryable, at), k, retried)
  {
    var j := q.jobs[i];
    if j.status == JobStatus.RUNNING {
      if !j.jobType.CMS_AI_DRAFT? {
        MoveOneInStep(q, i, ANY, DeliveryStatus.SENT, JobStatus.SUCCEEDED, j.scheduledAt, retried, CompleteJob(q, i), k);
      }
      if retryable && j.attemptCount < j.maxAttempts {
        MoveOneInStep(q, i, {DeliveryStatus.SENDING}, DeliveryStatus.PENDING, JobStatus.PENDING,
                      Some(at + 1000 * BackoffSeconds(j.attemptCount)), retried, FailJob(q, i, retryable, at), k);
      } else {
        MoveOneInStep(q, i, {DeliveryStatus.SENDING, DeliveryStatus.PENDING}, DeliveryStatus.FAILED, JobStatus.FAILED,
                      j.scheduledAt, retried, FailJob(q, i, retryable, at), k);
      }
    }
  }

  lemma DraftOrCancelInStep(q: Queue, i: JobId, retried: seq<JobId>, k: JobId)
    requires Drafts(q) && i < |q.jobs| && k < |q.jobs| && InStep(q, k, retried)
    ensures InStep(ApplyDraft(q, i), k, retried) && InStep(CancelJob(q, i), k, retried)
  {
    if k == i && q.jobs[i].jobType.CMS_AI_DRAFT? { assert q.jobs[i].delivery.None?; }
  }

  lemma NewJobInStep(s: D.State, a: D.Action, t: D.State, k: JobId)
    requires D.Enabled(s, a) && (a.EnqueueJob? || a.RequestDraft?) && t == D.Apply(s, a) && k < |t.queue.jobs|
    requires k < |s.queue.jobs| ==> InStep(s.queue, k, s.retries)
    ensures InStep(t.queue, k, t.retries)
  {
  }

  lemma ApiInStep(s: D.State, a: D.Action, t: D.State, k: JobId)
    requires D.Enabled(s, a) && !a.Call? && t == D.Apply(s, a) && Linked(s.queue) && Drafts(s.queue)
    requires k < |t.queue.jobs| && (k < |s.queue.jobs| ==> InStep(s.queue, k, s.retries))
    ensures InStep(t.queue, k, t.retries)
  {
    match a {
      case Complete(i) => CallbackInStep(s.queue, i, false, 0, s.retries, k);
      case Fail(i, retryable, at) => CallbackInStep(s.queue, i, retryable, at, s.retries, k);
      case CompleteDraft(i) => DraftOrCancelInStep(s.queue, i, s.retries, k);
      case Cancel(i) => DraftOrCancelInStep(s.queue, i, s.retries, k);
      case Retry(i, at) => RetryOthers(s.queue, i, at, s.retries, s.retries + [i], k);
      case _ => NewJobInStep(s, a, t, k);
    }
  }

  lemma ApiSteady(s: State, a: D.Action, t: State)
    requires Inv(s) && Steady(s) && Enabled(s, Api(a)) && t == Apply(s, Api(a))
    ensures Steady(t)
  {
    forall i | 0 <= i < |t.queue.jobs| && !Owed(t, i) ensures InStep(t.queue, i, t.retries) {
      assert !Owed(s, i);
      if i < |s.queue.jobs| { assert InStep(s.queue, i, s.retries); }
      ApiInStep(Serial(s), a, D.Apply(Serial(s), a), i);
    }
  }

  /** One action of anybody leaves every job that nobody owes a statement in step iff it is clean. */
  lemma StepSteadyIff(s: State, a: Action, t: State)
    requires Inv(s) && Steady(s) && Enabled(s, a) && t == Apply(s, a)
    ensures Steady(t) <==> Clean(s, a)
  {
    match a {
      case Api(b) => ApiSteady(s, b, t);
      case Claim(_, _, _, _, _) => ClaimSteady(s, a, t);
      case Mark(p) => DeliverSteadyIff(s, p, DeliveryStatus.SENDING, t);
      case SettleDelivery(p) => DeliverSteadyIff(s, p, s.procs[p].stage.st, t);
      case Crash(p) => CrashSteadyIff(s, p, t);
      case _ => OwnMoveSteady(s, a, t);
    }
  }

  ghost predicate SteadyThroughout(s: State, run: seq<Action>)
    requires CanRun(s, run)
    decreases |run|
  {
    Steady(s) && (run != [] ==> SteadyThroughout(Apply(s, run[0]), run[1..]))
  }

  ghost predicate CleanRun(s: State, run: seq<Action>)
    requires CanRun(s, run)
    decreases |run|
  {
    run == [] || (Clean(s, run[0]) && CleanRun(Apply(s, run[0]), run[1..]))
  }

  /** Over every run of overlapping workers, callbacks and administrators: at every moment all jobs to which no worker
      owes a statement are in step with their deliveries, iff every action is clean. */
  lemma {:induction false} SteadyThroughoutIff(s: State, run: seq<Action>)
    requires Inv(s) && Steady(s) && CanRun(s, run)
    ensures SteadyThroughout(s, run) <==> CleanRun(s, run)
    decreases |run|
  {
    if run != [] {
      var t := Apply(s, run[0]);
      StepKeepsInv(s, run[0], t);
      StepSteadyIff(s, run[0], t);
      if Steady(t) { SteadyThroughoutIff(t, run[1..]); }
    }
  }

  // ----- undisturbed workers

  /** Where a job has to be for the next statement that is owed to it: settled as the delivery is about to be, or RUNNING. */
  ghost predicate Expected(x: Proc, k: nat, st: JobStatus) {
    if k == 0 && x.stage.ToDeliver? then Matches(st, x.stage.st) else st.RUNNING?
  }

  ghost predicate DebtOf(q: Queue, x: Proc) {
    forall k :: 0 <= k < |x.todo| && (k > 0 || x.stage.ToMark? || x.stage.ToDeliver?) ==>
      x.todo[k].id < |q.jobs| && Expected(x, k, q.jobs[x.todo[k].id].status)
  }

  ghost predicate DebtInv(s: State) {
    forall p :: 0 <= p < |s.procs| ==> DebtOf(s.queue, s.procs[p])
  }

  /** The actions that may change the status of job i. */
  ghost predicate Moves(s: State, a: Action, i: JobId)
    requires Enabled(s, a) && i < |s.queue.jobs|
  {
    match a
    case Api(b) => !b.EnqueueJob? && !b.RequestDraft? && b.i == i
    case Claim(_, now, _, _, ids) => i in ids || Exhausted(s.queue.jobs[i], now)
    case SettleJob(p, _) => Head(s, p).id == i
    case _ => false
  }

  /** Nobody crashes, and nobody moves a job to which a worker owes a statement. */
  ghost predicate Quiet(s: State, a: Action)
    requires Enabled(s, a)
  {
    !a.Crash? && forall i :: 0 <= i < |s.queue.jobs| && Owed(s, i) ==> !Moves(s, a, i)
  }

  lemma StatusStays(s: State, a: Action, i: JobId, t: State)
    requires Enabled(s, a) && i < |s.queue.jobs| && !Moves(s, a, i) && t == Apply(s, a)
    ensures i < |t.queue.jobs| && t.queue.jobs[i].status == s.queue.jobs[i].status
  {
  }

  lemma BystanderDebt(s: State, a: Action, t: State, v: nat)
    requires Inv(s) && Enabled(s, a) && Quiet(s, a) && t == Apply(s, a) && v < |s.procs| && DebtOf(s.queue, s.procs[v])
    requires t.procs[v] == s.procs[v]
    ensures DebtOf(t.queue, t.procs[v])
  {
    var x := s.procs[v];
    forall k | 0 <= k < |x.todo| && (k > 0 || x.stage.ToMark? || x.stage.ToDeliver?)
      ensures x.todo[k].id < |t.queue.jobs| && t.queue.jobs[x.todo[k].id].status == s.queue.jobs[x.todo[k].id].status
    {
      assert Owes(x, x.todo[k].id);
      StatusStays(s, a, x.todo[k].id, t);
    }
  }

  lemma ClaimerDebt(s: State, a: Action, t: State)
    requires Enabled(s, a) && a.Claim? && t == Apply(s, a)
    ensures DebtOf(t.queue, t.procs[a.p])
  {
  }

  lemma MoverDebt(s: State, a: Action, t: State)
    requires Inv(s) && Enabled(s, a) && Quiet(s, a) && t == Apply(s, a)
    requires (a.Mark? || a.Fetch? || a.SettleJob? || a.SettleDelivery?) && DebtOf(s.queue, s.procs[a.p])
    ensures DebtOf(t.queue, t.procs[a.p])
  {
    var x, y := s.procs[a.p], t.procs[a.p];
    assert ProcInv(s.queue, x);
    forall k | 0 <= k < |y.todo| && (k > 0 || y.stage.ToMark? || y.stage.ToDeliver?)
      ensures y.todo[k].id < |t.queue.jobs| && Expected(y, k, t.queue.jobs[y.todo[k].id].status)
    {
      if k > 0 || y.stage.ToMark? {
        var m := if y.todo == x.todo then k else k + 1;
        assert y.todo[k] == x.todo[m] && Owes(x, x.todo[m].id);
        StatusStays(s, a, x.todo[m].id, t);
      }
    }
  }

  lemma StepKeepsDebt(s: State, a: Action, t: State)
    requires Inv(s) && DebtInv(s) && Enabled(s, a) && Quiet(s, a) && t == Apply(s, a)
    ensures DebtInv(t) && Clean(s, a)
  {
    forall v | 0 <= v < |t.procs| ensures DebtOf(t.queue, t.procs[v]) {
      assert DebtOf(s.queue, s.procs[v]);
      if a.Api? || v != a.p { BystanderDebt(s, a, t, v); }
      else if a.Claim? { ClaimerDebt(s, a, t); }
      else { MoverDebt(s, a, t); }
    }
    if a.Mark? || a.SettleDelivery? { assert DebtOf(s.queue, s.procs[a.p]); }
  }

  /** Workers that are not disturbed keep everything in step: no crash, and no callback, administrator or other claim
      for a job between its claim and its mark, or between its settlement and its delivery's. */
  lemma {:induction false} QuietRunsAreSteady(s: State, run: seq<Action>)
    requires Inv(s) && DebtInv(s) && Steady(s) && CanRun(s, run)
    requires Throughout((x: State, a: Action) => Enabled(x, a) && Quiet(x, a), s, run)
    ensures SteadyThroughout(s, run)
    decreases |run|
  {
    if run != [] {
      var t := Apply(s, run[0]);
      StepKeepsInv(s, run[0], t);
      StepKeepsDebt(s, run[0], t);
      StepSteadyIff(s, run[0], t);
      QuietRunsAreSteady(t, run[1..]);
    }
  }

  // ----- completions

  /** The action is a worker's update of job i after a failed call; it looks at the id alone. */
  ghost predicate Overwrites(s: State, a: Action, i: JobId) {
    a.SettleJob? && AtJob(s, a.p) && Head(s, a.p).id == i
  }

  ghost predicate Succeeded(s: State, i: JobId) {
    i < |s.queue.jobs| && s.queue.jobs[i].status.SUCCEEDED?
  }

  lemma StepKeepsSuccessIff(s: State, a: Action, i: JobId)
    requires Enabled(s, a) && Succeeded(s, i)
    ensures Succeeded(Apply(s, a), i) <==> !Overwrites(s, a, i)
  {
    if a.Claim? {
      forall k | 0 <= k < |a.ids| ensures a.ids[k] != i {
        assert Due(Terminalize(s.queue, a.now).jobs[a.ids[k]], a.now, a.allowed);
      }
    }
  }

  ghost predicate SucceededThroughout(s: State, run: seq<Action>, i: JobId)
    requires CanRun(s, run)
    decreases |run|
  {
    Succeeded(s, i) && (run != [] ==> SucceededThroughout(Apply(s, run[0]), run[1..], i))
  }

  /** A completed job stays completed over a run iff no worker whose call of it failed settles it afterwards. */
  lemma {:induction false} SuccessLastsIff(s: State, run: seq<Action>, i: JobId)
    requires CanRun(s, run) && Succeeded(s, i)
    ensures SucceededThroughout(s, run, i) <==> Throughout((x: State, a: Action) => !Overwrites(x, a, i), s, run)
    decreases |run|
  {
    if run != [] {
      StepKeepsSuccessIff(s, run[0], i);
      if Succeeded(Apply(s, run[0]), i) { SuccessLastsIff(Apply(s, run[0]), run[1..], i); }
    }
  }

  // ----- bounded calls

  /** The worker has claimed the job and not called its webhook yet. */
  ghost predicate Waits(x: Proc, i: JobId) {
    exists k :: 0 <= k < |x.todo| && x.todo[k].id == i && (k > 0 || x.stage.ToMark? || x.stage.ToFetch?)
  }

  ghost function Waiting(procs: seq<Proc>, i: JobId): nat {
    if procs == [] then 0
    else Waiting(procs[..|procs| - 1], i) + if Waits(procs[|procs| - 1], i) then 1 else 0
  }

  lemma {:induction false} WaitingUpdate(procs: seq<Proc>, p: nat, x: Proc, i: JobId)
    requires p < |procs|
    ensures Waiting(procs[p := x], i) ==
      Waiting(procs, i) - (if Waits(procs[p], i) then 1 else 0) + if Waits(x, i) then 1 else 0
  {
    var n := |procs| - 1;
    if p == n {
      assert procs[p := x][..n] == procs[..n];
    } else {
      WaitingUpdate(procs[..n], p, x, i);
      assert procs[p := x][..n] == procs[..n][p := x];
    }
  }

  lemma {:induction false} NobodyWaits(procs: seq<Proc>, i: JobId)
    requires forall p, k :: 0 <= p < |procs| && 0 <= k < |procs[p].todo| ==> procs[p].todo[k].id != i
    ensures Waiting(procs, i) == 0
  {
    if procs != [] {
      NobodyWaits(procs[..|procs| - 1], i);
      assert !Waits(procs[|procs| - 1], i);
    }
  }

  /** Every webhook call of a job, made or still to be made, is paid for by an attempt of the present life of the job or of
      one the administrator ended by a retry. */
  ghost predicate Paid(s: State, i: JobId) {
    if i < |s.queue.jobs| then
      var j := s.queue.jobs[i];
      && Count(s.fetches, i) + Waiting(s.procs, i) <= Count(s.retries, i) * j.maxAttempts + j.attemptCount
      && j.attemptCount <= j.maxAttempts
    else Count(s.fetches, i) == 0 && Count(s.retries, i) == 0
  }

  lemma WaitsBehind(x: Proc, y: Proc, i: JobId)
    requires x.todo != [] && DistinctIds(x.todo) && i != x.todo[0].id
    requires y.todo == x.todo || (y.todo == x.todo[1..] && y.stage.ToMark?)
    ensures Waits(y, i) <==> Waits(x, i)
  {
    if Waits(x, i) {
      var k :| 0 <= k < |x.todo| && x.todo[k].id == i;
      if y.todo == x.todo[1..] { assert y.todo[k - 1].id == i; } else { assert y.todo[k].id == i; }
    }
    if Waits(y, i) {
      var k :| 0 <= k < |y.todo| && y.todo[k].id == i;
      if y.todo == x.todo[1..] { assert x.todo[k + 1].id == i; }
    }
  }

  lemma WaitsHead(x: Proc)
    requires x.todo != [] && DistinctIds(x.todo)
    ensures Waits(x, x.todo[0].id) <==> x.stage.ToMark? || x.stage.ToFetch?
    ensures !Waits(Proc(x.todo[1..], ToMark), x.todo[0].id)
  {
    if x.stage.ToMark? || x.stage.ToFetch? { assert x.todo[0].id == x.todo[0].id; }
  }

  /** Only the webhook call itself uses up what a worker waits for. */
  lemma MoverWaits(s: State, a: Action, t: State, i: JobId)
    requires Inv(s) && Enabled(s, a) && t == Apply(s, a) && (a.Mark? || a.Fetch? || a.SettleJob? || a.SettleDelivery?)
    ensures Waiting(t.procs, i) + Count(t.fetches, i) == Waiting(s.procs, i) + Count(s.fetches, i)
  {
    var x, y := s.procs[a.p], t.procs[a.p];
    assert ProcInv(s.queue, x);
    WaitingUpdate(s.procs, a.p, y, i);
    WaitsHead(x);
    if y.todo == x.todo { WaitsHead(y); }
    if i != x.todo[0].id { WaitsBehind(x, y, i); }
    if a.Fetch? { assert (s.fetches + [x.todo[0].id])[..|s.fetches|] == s.fetches; }
  }

  lemma ClaimWaits(s: State, a: Action, t: State, i: JobId)
    requires Enabled(s, a) && a.Claim? && t == Apply(s, a) && i < |s.queue.jobs|
    ensures Waiting(t.procs, i) == Waiting(s.procs, i) + if i in a.ids then 1 else 0
    ensures t.queue.jobs[i].attemptCount == s.queue.jobs[i].attemptCount + if i in a.ids then 1 else 0
    ensures t.queue.jobs[i].maxAttempts == s.queue.jobs[i].maxAttempts
    ensures i in a.ids ==> s.queue.jobs[i].attemptCount < s.queue.jobs[i].maxAttempts
  {
    var y := t.procs[a.p];
    WaitingUpdate(s.procs, a.p, y, i);
    assert forall k :: 0 <= k < |a.ids| ==> y.todo[k].id == a.ids[k];
    if i in a.ids {
      var k :| 0 <= k < |a.ids| && a.ids[k] == i;
      assert y.todo[k].id == i;
      assert Due(Terminalize(s.queue, a.now).jobs[a.ids[k]], a.now, a.allowed);
    }
  }

  lemma MoverAttempts(s: State, a: Action, t: State, i: JobId)
    requires Enabled(s, a) && !a.Claim? && !a.Api? && t == Apply(s, a) && i < |s.queue.jobs|
    ensures |t.queue.jobs| == |s.queue.jobs| && t.queue.jobs[i].attemptCount == s.queue.jobs[i].attemptCount
    ensures t.queue.jobs[i].maxAttempts == s.queue.jobs[i].maxAttempts && t.retries == s.retries
  {
  }

  lemma RetryPaysOn(n: nat, m: nat, attempts: nat, calls: nat)
    requires calls <= n * m + attempts && attempts <= m
    ensures calls <= (n + 1) * m
  {
    assert (n + 1) * m == n * m + m;
  }

  lemma RetryStaysPaid(s: State, j: JobId, at: nat, t: State, i: JobId)
    requires Enabled(s, Api(D.Retry(j, at))) && t == Apply(s, Api(D.Retry(j, at))) && Paid(s, i) && i < |s.queue.jobs|
    ensures Paid(t, i)
  {
    assert (s.retries + [j])[..|s.retries|] == s.retries;
    if j == i && s.queue.jobs[i].status.FAILED? {
      var x := s.queue.jobs[i];
      RetryPaysOn(Count(s.retries, i), x.maxAttempts, x.attemptCount, Count(s.fetches, i) + Waiting(s.procs, i));
    }
  }

  lemma NobodyWaitsYet(s: State, i: JobId)
    requires Inv(s) && i >= |s.queue.jobs|
    ensures Waiting(s.procs, i) == 0
  {
    forall p, k | 0 <= p < |s.procs| && 0 <= k < |s.procs[p].todo| ensures s.procs[p].todo[k].id != i {
      assert ProcInv(s.queue, s.procs[p]);
    }
    NobodyWaits(s.procs, i);
  }

  lemma NewJobIsPaid(s: State, a: D.Action, t: State, i: JobId)
    requires Enabled(s, Api(a)) && (a.EnqueueJob? || a.RequestDraft?) && t == Apply(s, Api(a)) && Paid(s, i)
    requires i >= |s.queue.jobs| ==> Waiting(s.procs, i) == 0
    ensures Paid(t, i)
  {
  }

  lemma CallbackAttempts(s: D.State, a: D.Action, t: D.State)
    requires D.Enabled(s, a) && !a.Call? && !a.EnqueueJob? && !a.RequestDraft? && !a.Retry? && t == D.Apply(s, a)
    ensures SameAttempts(s.queue, t.queue) && t.fetches == s.fetches && t.retries == s.retries
  {
  }

  lemma ApiIsPaid(s: State, a: D.Action, t: State, i: JobId)
    requires Inv(s) && Enabled(s, Api(a)) && t == Apply(s, Api(a)) && Paid(s, i)
    ensures Paid(t, i)
  {
    if a.EnqueueJob? || a.RequestDraft? {
      if i >= |s.queue.jobs| { NobodyWaitsYet(s, i); }
      NewJobIsPaid(s, a, t, i);
    } else if a.Retry? {
      if i < |s.queue.jobs| {
        RetryStaysPaid(s, a.i, a.at, t, i);
      } else {
        assert (s.retries + [a.i])[..|s.retries|] == s.retries;
      }
    } else {
      CallbackAttempts(Serial(s), a, D.Apply(Serial(s), a));
    }
  }

  lemma OutOfRange(s: State, a: Action, t: State, i: JobId)
    requires Inv(s) && Enabled(s, a) && !a.Api? && t == Apply(s, a) && i >= |s.queue.jobs| && Paid(s, i)
    ensures Paid(t, i)
  {
    if a.Fetch? { assert (s.fetches + [Head(s, a.p).id])[..|s.fetches|] == s.fetches; }
  }

  lemma StepIsPaid(s: State, a: Action, t: State, i: JobId)
    requires Inv(s) && Enabled(s, a) && t == Apply(s, a) && Paid(s, i)
    ensures Paid(t, i)
  {
    if a.Api? {
      ApiIsPaid(s, a.a, t, i);
    } else if i >= |s.queue.jobs| {
      OutOfRange(s, a, t, i);
    } else if a.Claim? {
      ClaimWaits(s, a, t, i);
    } else {
      MoverAttempts(s, a, t, i);
      if a.Crash? { WaitingUpdate(s.procs, a.p, IDLE, i); } else { MoverWaits(s, a, t, i); }
    }
  }

  /** However workers, callbacks and crashes interleave, a job's webhook is called at most maxAttempts times, and as
      often again for each retry of the administrator. */
  lemma {:induction false} CallsAreBounded(s: State, run: seq<Action>, i: JobId)
    requires Inv(s) && CanRun(s, run) && Paid(s, i)
    ensures Paid(Exec(s, run), i)
    decreases |run|
  {
    if run != [] {
      var t := Apply(s, run[0]);
      StepKeepsInv(s, run[0], t);
      StepIsPaid(s, run[0], t, i);
      CallsAreBounded(t, run[1..], i);
    }
  }

  /** Where every run above may begin: nobody at work, and jobs and deliveries in step. */
  lemma StartIsSteady(s: State)
    requires Lockstep(s.queue, s.retries) && forall p :: 0 <= p < |s.procs| ==> s.procs[p] == IDLE
    ensures Inv(s) && Steady(s) && DebtInv(s)
  {
    forall i | 0 <= i < |s.queue.jobs| ensures InStep(s.queue, i, s.retries) {}
  }
}
