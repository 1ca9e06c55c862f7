/** Dispatch of automation jobs: a claim that first gives up exhausted jobs, one webhook call per claimed
    job, and the settlement of job and delivery together. */
module Dispatcher {
  import opened Wrappers
  import opened Automation
  import opened Routes

  // ----- the claim

  predicate Stale(j: Job, now: nat) {
    j.status == JobStatus.RUNNING && j.leaseUntil.Some? && j.leaseUntil.value < now
  }

  predicate Exhausted(j: Job, now: nat) {
    Stale(j, now) && j.attemptCount >= j.maxAttempts
  }

  predicate Due(j: Job, now: nat, allowed: set<JobType>) {
    && j.attemptCount < j.maxAttempts && j.jobType in allowed
    && ((j.status == JobStatus.PENDING && (j.scheduledAt.None? || j.scheduledAt.value <= now)) || Stale(j, now))
  }

  predicate OwnedByExhausted(q: Queue, d: Delivery, now: nat) {
    d.jobId.Some? && d.jobId.value < |q.jobs| && Exhausted(q.jobs[d.jobId.value], now)
  }

  /** Give up the stale jobs that have no attempt left, and their open deliveries. */
  function Terminalize(q: Queue, now: nat): Queue {
    Queue(
      seq(|q.jobs|, i requires 0 <= i < |q.jobs| =>
        if Exhausted(q.jobs[i], now) then q.jobs[i].(status := JobStatus.FAILED, leaseUntil := None) else q.jobs[i]),
      seq(|q.deliveries|, d requires 0 <= d < |q.deliveries| =>
        if OwnedByExhausted(q, q.deliveries[d], now) && q.deliveries[d].status in {DeliveryStatus.PENDING, DeliveryStatus.SENDING}
        then q.deliveries[d].(status := DeliveryStatus.FAILED) else q.deliveries[d]))
  }

  /** The rows a claim may take: SKIP LOCKED leaves the choice open, LIMIT bounds it. */
  predicate Claimable(q: Queue, now: nat, allowed: set<JobType>, limit: nat, ids: seq<JobId>) {
    && |ids| <= limit
    && (forall i, j :: 0 <= i < j < |ids| ==> ids[i] != ids[j])
    && (forall i :: 0 <= i < |ids| ==> ids[i] < |q.jobs| && Due(q.jobs[ids[i]], now, allowed))
  }

  /** Everything not taken is due later, locked by another claim, or no older than all that was taken, and then
      the batch is full. */
  predicate OldestFirst(q: Queue, now: nat, allowed: set<JobType>, limit: nat, locked: set<JobId>, ids: seq<JobId>) {
    && (forall k :: 0 <= k < |ids| ==> ids[k] < |q.jobs| && ids[k] !in locked)
    && (forall i :: 0 <= i < |q.jobs| && i !in locked && i !in ids && Due(q.jobs[i], now, allowed) ==>
         |ids| == limit && forall k :: 0 <= k < |ids| ==> q.jobs[ids[k]].createdAt <= q.jobs[i].createdAt)
  }

  function TakeJobs(q: Queue, until: nat, ids: seq<JobId>): Queue {
    q.(jobs := seq(|q.jobs|, i requires 0 <= i < |q.jobs| =>
      if i !in ids then q.jobs[i]
      else q.jobs[i].(status := JobStatus.RUNNING, attemptCount := q.jobs[i].attemptCount + 1, leaseUntil := Some(until))))
  }

  /** A job whose lease has run out is due again while it has an attempt left, and is given up with its open
      deliveries when it has none; nothing else is touched. */
  lemma StaleIsDueOrGivenUp(q: Queue, now: nat, allowed: set<JobType>, i: JobId)
    requires i < |q.jobs|
    ensures var j, t := q.jobs[i], Terminalize(q, now);
      var stale := j.status == JobStatus.RUNNING && j.leaseUntil.Some? && j.leaseUntil.value < now;
      var givenUp := stale && j.attemptCount >= j.maxAttempts;
      && |t.jobs| == |q.jobs| && |t.deliveries| == |q.deliveries|
      && t.jobs[i] == (if givenUp then j.(status := JobStatus.FAILED, leaseUntil := None) else j)
      && (forall d :: 0 <= d < |q.deliveries| && q.deliveries[d].jobId == Some(i) ==>
           var was := q.deliveries[d];
           t.deliveries[d] ==
             if givenUp && (was.status == DeliveryStatus.PENDING || was.status == DeliveryStatus.SENDING)
             then was.(status := DeliveryStatus.FAILED) else was)
      && (Due(t.jobs[i], now, allowed) <==>
           && j.jobType in allowed && j.attemptCount < j.maxAttempts
           && (stale || (j.status == JobStatus.PENDING && (j.scheduledAt.None? || j.scheduledAt.value <= now))))
      && (stale && j.jobType in allowed ==> (Due(t.jobs[i], now, allowed) <==> t.jobs[i].status != JobStatus.FAILED))
  {
  }

  /** A job that has just been enqueued is due at once, for the first of three attempts, and its delivery is open. */
  lemma EnqueuedIsDue(q: Queue, t: JobType, k: Key, e: Email, at: nat, now: nat, allowed: set<JobType>)
    requires t in allowed && Enqueue(q, t, k, e, at).Some?
    ensures var r := Enqueue(q, t, k, e, at).value;
      && |r.jobs| == |q.jobs| + 1 && r.jobs[..|q.jobs|] == q.jobs
      && |r.deliveries| == |q.deliveries| + 1 && r.deliveries[..|q.deliveries|] == q.deliveries
      && var j, d := r.jobs[|q.jobs|], r.deliveries[|q.deliveries|];
         && Due(j, now, allowed) && j.attemptCount == 0 && j.maxAttempts == 3 && j.createdAt == at
         && j.jobType == t && j.key == k && j.recipient == e && j.delivery == Some(|q.deliveries|)
         && d.status == DeliveryStatus.PENDING && d.key == k && d.recipient == e && d.jobId == Some(|q.jobs|)
  {
  }

  // ----- settlement

  /** What the dispatcher holds of a claimed job. */
  datatype Claimed = Claimed(id: JobId, jobType: JobType, delivery: Option<DeliveryId>, attemptCount: nat, maxAttempts: nat)

  function BackoffSeconds(attempt: nat): nat {
    if attempt == 1 then 30 else if attempt == 2 then 120 else 600
  }

  function SetDelivery(q: Queue, d: Option<DeliveryId>, st: DeliveryStatus): Queue {
    if d.Some? && d.value < |q.deliveries|
    then q.(deliveries := q.deliveries[d.value := q.deliveries[d.value].(status := st)])
    else q
  }

  function SetJob(q: Queue, id: JobId, st: JobStatus, scheduledAt: Option<nat>): Queue
    requires id < |q.jobs|
  {
    q.(jobs := q.jobs[id := q.jobs[id].(status := st, leaseUntil := None, scheduledAt := scheduledAt)])
  }

  const ANY := {DeliveryStatus.PENDING, DeliveryStatus.SENDING, DeliveryStatus.SENT, DeliveryStatus.FAILED}

  /** All deliveries of a job, found by their job column, that are in one of some statuses. */
  function MoveDeliveriesOf(q: Queue, id: JobId, from: set<DeliveryStatus>, to: DeliveryStatus): Queue {
    q.(deliveries := seq(|q.deliveries|, d requires 0 <= d < |q.deliveries| =>
      if q.deliveries[d].jobId == Some(id) && q.deliveries[d].status in from then q.deliveries[d].(status := to)
      else q.deliveries[d]))
  }

  /** What the dispatcher does with a job, by the route of its type. */
  datatype Plan = Send | Skip | FailRoute | Raise

  function PlanFor(env: Env, t: JobType): Plan {
    match Resolve(env, t)
    case RouteError => FailRoute
    case NoRoute => Skip
    case Url(u) => if u == "" then Skip else if env.parses(u) then Send else Raise
  }

  /** How a call to the webhook ends. */
  datatype Answer = Yes | Later | No

  function Classify(r: Response): Answer {
    if r.Accepted? then Yes else if Retryable(r) then Later else No
  }

  datatype Kind = Sent | Requeued | GaveUp | RouteFailed | Skipped

  datatype Step = Done(queue: Queue, kind: Kind) | Thrown(queue: Queue)

  /** Job and delivery after the webhook was called. */
  function Settle(q: Queue, c: Claimed, r: Answer, at: nat): Step
    requires c.id < |q.jobs|
  {
    if r.Yes? then Done(q, Sent)
    else if r.Later? && c.attemptCount < c.maxAttempts then
      var again := SetJob(q, c.id, JobStatus.PENDING, Some(at + 1000 * BackoffSeconds(c.attemptCount)));
      Done(SetDelivery(again, c.delivery, DeliveryStatus.PENDING), Requeued)
    else
      Done(SetDelivery(SetJob(q, c.id, JobStatus.FAILED, q.jobs[c.id].scheduledAt), c.delivery, DeliveryStatus.FAILED), GaveUp)
  }

  /** One claimed job; at is the time of a settlement. */
  function DispatchOne(plan: Plan, q: Queue, c: Claimed, r: Answer, at: nat): Step
    requires c.id < |q.jobs|
  {
    match plan
    case FailRoute =>
      var moved := MoveDeliveriesOf(q, c.id, ANY, DeliveryStatus.FAILED);
      Done(SetJob(moved, c.id, JobStatus.FAILED, q.jobs[c.id].scheduledAt), RouteFailed)
    case Skip => Done(q, Skipped)
    case Raise => Thrown(q)
    case Send => Settle(SetDelivery(q, c.delivery, DeliveryStatus.SENDING), c, r, at)
  }

  /** What a call has done so far; fetched (history): the jobs whose webhook was called. */
  datatype Tally = Tally(queue: Queue, sent: nat, requeued: nat, failed: nat, skipped: nat, thrown: bool, fetched: seq<JobId>)

  function After(t: Tally, id: JobId, step: Step): Tally {
    match step
    case Thrown(q) => t.(queue := q, thrown := true)
    case Done(q, k) =>
      var t := t.(queue := q, fetched := if k.Skipped? || k.RouteFailed? then t.fetched else t.fetched + [id]);
      match k
      case Sent => t.(sent := t.sent + 1)
      case Requeued => t.(requeued := t.requeued + 1)
      case Skipped => t.(skipped := t.skipped + 1)
      case _ => t.(failed := t.failed + 1)
  }

  /** The routes, and the answers and the clock a call meets by position in its batch. */
  datatype World = World(plan: JobType -> Plan, answers: nat -> Answer, at: nat -> nat)

  function WorldOf(env: Env, responses: nat -> Response, at: nat -> nat): World {
    World(t => PlanFor(env, t), (n: nat) => Classify(responses(n)), at)
  }

  ghost function DispatchAll(w: World, q: Queue, cs: seq<Claimed>): (t: Tally)
    requires forall k :: 0 <= k < |cs| ==> cs[k].id < |q.jobs|
    ensures |t.queue.jobs| == |q.jobs|
  {
    if cs == [] then Tally(q, 0, 0, 0, 0, false, [])
    else
      var n := |cs| - 1;
      var t := DispatchAll(w, q, cs[..n]);
      if t.thrown then t else After(t, cs[n].id, DispatchOne(w.plan(cs[n].jobType), t.queue, cs[n], w.answers(n), w.at(n)))
  }

  function Snapshot(q: Queue, ids: seq<JobId>): (cs: seq<Claimed>)
    requires forall k :: 0 <= k < |ids| ==> ids[k] < |q.jobs|
  {
    seq(|ids|, k requires 0 <= k < |ids| =>
      var j := q.jobs[ids[k]]; Claimed(ids[k], j.jobType, j.delivery, j.attemptCount, j.maxAttempts))
  }

  function Claim(q: Queue, now: nat, until: nat, ids: seq<JobId>): Queue {
    TakeJobs(Terminalize(q, now), until, ids)
  }

  /** A call whose route check passed. */
  ghost function Dispatch(w: World, q: Queue, now: nat, until: nat, allowed: set<JobType>, ids: seq<JobId>): Tally
    requires Claimable(Terminalize(q, now), now, allowed, |ids|, ids)
  {
    var claimed := Claim(q, now, until, ids);
    DispatchAll(w, claimed, Snapshot(claimed, ids))
  }

  lemma OneMoreJob(w: World, q: Queue, cs: seq<Claimed>, n: nat, t: Tally, step: Step)
    requires n < |cs| && forall k :: 0 <= k < |cs| ==> cs[k].id < |q.jobs|
    requires t == DispatchAll(w, q, cs[..n])
    requires step == DispatchOne(w.plan(cs[n].jobType), t.queue, cs[n], w.answers(n), w.at(n))
    ensures DispatchAll(w, q, cs[..n + 1]) == if t.thrown then t else After(t, cs[n].id, step)
  {
    assert cs[..n + 1][..n] == cs[..n];
  }

  lemma {:induction false} ThrownStays(w: World, q: Queue, cs: seq<Claimed>, n: nat)
    requires n <= |cs| && forall k :: 0 <= k < |cs| ==> cs[k].id < |q.jobs|
    requires DispatchAll(w, q, cs[..n]).thrown
    ensures DispatchAll(w, q, cs) == DispatchAll(w, q, cs[..n])
  {
    if n < |cs| {
      assert cs[..|cs| - 1][..n] == cs[..n];
      ThrownStays(w, q, cs[..|cs| - 1], n);
    } else {
      assert cs[..n] == cs;
    }
  }

  /** Statements of a call move nothing but statuses, leases and schedules. */
  ghost predicate SameRows(q: Queue, t: Queue) {
    && |t.jobs| == |q.jobs| && |t.deliveries| == |q.deliveries|
    && (forall i :: 0 <= i < |q.jobs| ==>
         && t.jobs[i].jobType == q.jobs[i].jobType && t.jobs[i].key == q.jobs[i].key
         && t.jobs[i].recipient == q.jobs[i].recipient && t.jobs[i].delivery == q.jobs[i].delivery
         && t.jobs[i].maxAttempts == q.jobs[i].maxAttempts && t.jobs[i].createdAt == q.jobs[i].createdAt)
    && (forall d :: 0 <= d < |q.deliveries| ==>
         && t.deliveries[d].key == q.deliveries[d].key && t.deliveries[d].recipient == q.deliveries[d].recipient
         && t.deliveries[d].jobId == q.deliveries[d].jobId)
  }

  lemma OneKeepsRows(plan: Plan, q: Queue, c: Claimed, r: Answer, at: nat)
    requires c.id < |q.jobs|
    ensures SameRows(q, DispatchOne(plan, q, c, r, at).queue)
    ensures forall i :: 0 <= i < |q.jobs| && i != c.id ==> DispatchOne(plan, q, c, r, at).queue.jobs[i] == q.jobs[i]
    ensures DispatchOne(plan, q, c, r, at).queue.jobs[c.id].attemptCount == q.jobs[c.id].attemptCount
  {
  }

  lemma ClaimedAreAllowed(q: Queue, now: nat, until: nat, allowed: set<JobType>, ids: seq<JobId>)
    requires Claimable(Terminalize(q, now), now, allowed, |ids|, ids)
    ensures forall k :: 0 <= k < |ids| ==> Snapshot(Claim(q, now, until, ids), ids)[k].jobType in allowed
  {
    forall k | 0 <= k < |ids| ensures Snapshot(Claim(q, now, until, ids), ids)[k].jobType in allowed {
      assert Due(Terminalize(q, now).jobs[ids[k]], now, allowed);
    }
  }

  // ----- no claimed job is stranded

  /** The URL of a job's type parses. */
  predicate Parses(env: Env, t: JobType) {
    Resolve(env, t).Url? && env.parses(Resolve(env, t).text)
  }

  /** After a passed route check an allowed type is sent, or raises because its URL does not parse. */
  lemma PlanOfAllowed(env: Env, t: JobType)
    requires Valid(env) && t in Allowed(env)
    ensures PlanFor(env, t) == if Parses(env, t) then Send else Raise
  {
  }

  ghost predicate SendsOrRaises(w: World, cs: seq<Claimed>) {
    forall k :: 0 <= k < |cs| ==> w.plan(cs[k].jobType).Send? || w.plan(cs[k].jobType).Raise?
  }

  ghost predicate SomeRaises(w: World, cs: seq<Claimed>) {
    exists k :: 0 <= k < |cs| && w.plan(cs[k].jobType).Raise?
  }

  lemma OneMoreRaises(w: World, cs: seq<Claimed>)
    requires cs != []
    ensures SomeRaises(w, cs) <==> SomeRaises(w, cs[..|cs| - 1]) || w.plan(cs[|cs| - 1].jobType).Raise?
  {
    var n := |cs| - 1;
    assert forall k :: 0 <= k < n ==> cs[..n][k] == cs[k];
    if SomeRaises(w, cs[..n]) {
      var k :| 0 <= k < n && w.plan(cs[..n][k].jobType).Raise?;
      assert w.plan(cs[k].jobType).Raise?;
    }
  }

  lemma AfterSettled(t: Tally, q: Queue, c: Claimed, plan: Plan, r: Answer, at: nat, u: Tally)
    requires c.id < |q.jobs| && plan.Send? && u == After(t, c.id, DispatchOne(plan, q, c, r, at))
    ensures u.skipped == t.skipped && u.thrown == t.thrown && |u.fetched| == |t.fetched| + 1
    ensures u.sent + u.requeued + u.failed == t.sent + t.requeued + t.failed + 1
  {
  }

  lemma {:induction false} EveryJobIsSettled(w: World, q: Queue, cs: seq<Claimed>, t: Tally)
    requires forall k :: 0 <= k < |cs| ==> cs[k].id < |q.jobs|
    requires SendsOrRaises(w, cs) && t == DispatchAll(w, q, cs)
    ensures t.skipped == 0 && (t.thrown <==> SomeRaises(w, cs))
    ensures !t.thrown ==> t.sent + t.requeued + t.failed == |cs| && |t.fetched| == |cs|
  {
    if cs != [] {
      var n := |cs| - 1;
      var s := DispatchAll(w, q, cs[..n]);
      EveryJobIsSettled(w, q, cs[..n], s);
      OneMoreRaises(w, cs);
      if !s.thrown && w.plan(cs[n].jobType).Send? {
        AfterSettled(s, s.queue, cs[n], Send, w.answers(n), w.at(n), t);
      }
    }
  }

  lemma AllowedPlans(env: Env, responses: nat -> Response, at: nat -> nat, q: Queue, now: nat, until: nat,
          ids: seq<JobId>, cs: seq<Claimed>)
    requires Valid(env) && Claimable(Terminalize(q, now), now, Allowed(env), |ids|, ids)
    requires cs == Snapshot(Claim(q, now, until, ids), ids)
    ensures forall k :: 0 <= k < |cs| ==>
      WorldOf(env, responses, at).plan(cs[k].jobType) == if Parses(env, q.jobs[ids[k]].jobType) then Send else Raise
  {
    forall k | 0 <= k < |cs|
      ensures WorldOf(env, responses, at).plan(cs[k].jobType) == if Parses(env, q.jobs[ids[k]].jobType) then Send else Raise
    {
      assert Due(Terminalize(q, now).jobs[ids[k]], now, Allowed(env));
      PlanOfAllowed(env, cs[k].jobType);
    }
  }

  /** After a passed route check no claimed job is skipped or failed for its route, and all of them are
      accepted, requeued or failed unless the call throws. It throws iff some claimed job's URL, though
      configured, does not parse; that job and those after it are left RUNNING. */
  lemma NoStrandedJob(env: Env, responses: nat -> Response, at: nat -> nat, q: Queue, now: nat, until: nat, ids: seq<JobId>)
    requires Valid(env) && Claimable(Terminalize(q, now), now, Allowed(env), |ids|, ids)
    ensures var t := Dispatch(WorldOf(env, responses, at), q, now, until, Allowed(env), ids);
      && t.skipped == 0
      && (t.thrown <==> exists k :: 0 <= k < |ids| && !Parses(env, q.jobs[ids[k]].jobType))
      && (!t.thrown ==> t.sent + t.requeued + t.failed == |ids| && |t.fetched| == |ids|)
  {
    var w := WorldOf(env, responses, at);
    var claimed := Claim(q, now, until, ids);
    var cs := Snapshot(claimed, ids);
    AllowedPlans(env, responses, at, q, now, until, ids, cs);
    EveryJobIsSettled(w, claimed, cs, DispatchAll(w, claimed, cs));
    if k :| 0 <= k < |ids| && !Parses(env, q.jobs[ids[k]].jobType) {
      assert w.plan(cs[k].jobType).Raise?;
    }
  }

  /** In production the origin policy has parsed every URL before, so a call never throws half-way. */
  lemma NoStrandedJobInProduction(env: Env, responses: nat -> Response, at: nat -> nat, q: Queue, now: nat,
          until: nat, ids: seq<JobId>)
    requires Valid(env) && env.production && TrustedMeansParses(env)
    requires Claimable(Terminalize(q, now), now, Allowed(env), |ids|, ids)
    ensures var t := Dispatch(WorldOf(env, responses, at), q, now, until, Allowed(env), ids);
      !t.thrown && t.sent + t.requeued + t.failed == |ids|
  {
    NoStrandedJob(env, responses, at, q, now, until, ids);
    forall k | 0 <= k < |ids| ensures Parses(env, q.jobs[ids[k]].jobType) {
      assert Due(Terminalize(q, now).jobs[ids[k]], now, Allowed(env));
      assert Routed(env, q.jobs[ids[k]].jobType);
      ResolvedIsUsable(env, q.jobs[ids[k]].jobType);
    }
  }

  const ONE_JOB := Queue([Job(ORDER_PAID_EMAIL, JobStatus.PENDING, OtherKey(1), "a", Some(0), 0, 3, None, None, 0)],
                         [Delivery(OtherKey(1), "a", DeliveryStatus.PENDING, Some(0))])

  /** Outside production, with one URL for everything that the parser refuses. */
  function BadEnv(): Env {
    Env(t => Some("n8n"), None, None, false, {}, s => false, s => s != "n8n")
  }

  /** At explicit variables: the route check passes, the call throws, and the job it claimed stays RUNNING. */
  lemma BadUrlStrands(responses: nat -> Response, at: nat -> nat, now: nat, until: nat)
    ensures Valid(BadEnv()) && Claimable(Terminalize(ONE_JOB, now), now, Allowed(BadEnv()), 1, [0])
    ensures var t := Dispatch(WorldOf(BadEnv(), responses, at), ONE_JOB, now, until, Allowed(BadEnv()), [0]);
      t.thrown && t.queue.jobs[0].status == JobStatus.RUNNING
  {
    var env := BadEnv();
    assert ORDER_PAID_EMAIL in SUPPORTED by { assert SUPPORTED[1] == ORDER_PAID_EMAIL; }
    assert Trim("n8n") == "n8n";
    assert Terminalize(ONE_JOB, now).jobs == ONE_JOB.jobs;
    var claimed := Claim(ONE_JOB, now, until, [0]);
    var cs := Snapshot(claimed, [0]);
    var w := WorldOf(env, responses, at);
    assert cs[..0] == [] && |cs| == 1;
    assert w.plan(ORDER_PAID_EMAIL).Raise?;
    assert DispatchAll(w, claimed, cs[..0]) == Tally(claimed, 0, 0, 0, 0, false, []);
  }

  // ----- when a job is due again

  ghost predicate DistinctIds(cs: seq<Claimed>) {
    forall i, j :: 0 <= i < j < |cs| ==> cs[i].id != cs[j].id
  }

  /** Jobs outside the batch are left alone. */
  lemma {:induction false} LoopLeaves(w: World, q: Queue, cs: seq<Claimed>, i: JobId)
    requires forall k :: 0 <= k < |cs| ==> cs[k].id < |q.jobs| && cs[k].id != i
    requires i < |q.jobs|
    ensures DispatchAll(w, q, cs).queue.jobs[i] == q.jobs[i]
  {
    if cs != [] {
      var n := |cs| - 1;
      LoopLeaves(w, q, cs[..n], i);
      var t := DispatchAll(w, q, cs[..n]);
      OneKeepsRows(w.plan(cs[n].jobType), t.queue, cs[n], w.answers(n), w.at(n));
    }
  }

  /** The loop gets as far as position k and calls its webhook. */
  ghost predicate Reached(w: World, cs: seq<Claimed>, k: nat) {
    k < |cs| && forall m :: 0 <= m <= k ==> w.plan(cs[m].jobType).Send?
  }

  /** A claimed job after its webhook call was answered. */
  ghost function Answered(j: Job, c: Claimed, r: Answer, at: nat): Job {
    if r.Yes? then j
    else if r.Later? && c.attemptCount < c.maxAttempts then
      j.(status := JobStatus.PENDING, leaseUntil := None, scheduledAt := Some(at + 1000 * BackoffSeconds(c.attemptCount)))
    else j.(status := JobStatus.FAILED, leaseUntil := None)
  }

  lemma SendAnswers(q: Queue, c: Claimed, r: Answer, at: nat)
    requires c.id < |q.jobs|
    ensures DispatchOne(Send, q, c, r, at).Done?
    ensures DispatchOne(Send, q, c, r, at).queue.jobs[c.id] == Answered(q.jobs[c.id], c, r, at)
  {
  }

  lemma ReachedIff(w: World, cs: seq<Claimed>, n: nat)
    requires n == |cs| - 1 && SendsOrRaises(w, cs)
    ensures Reached(w, cs, n) <==> !SomeRaises(w, cs[..n]) && w.plan(cs[n].jobType).Send?
  {
    if !SomeRaises(w, cs[..n]) {
      assert forall m :: 0 <= m < n ==> !w.plan(cs[..n][m].jobType).Raise? && cs[..n][m] == cs[m];
    } else {
      var m :| 0 <= m < n && w.plan(cs[..n][m].jobType).Raise?;
      assert w.plan(cs[m].jobType).Raise?;
    }
  }

  lemma LastIsAnswered(w: World, cs: seq<Claimed>, n: nat, t: Tally, step: Step, u: Tally, j: Job)
    requires n == |cs| - 1 && SendsOrRaises(w, cs) && (t.thrown <==> SomeRaises(w, cs[..n]))
    requires cs[n].id < |t.queue.jobs| && t.queue.jobs[cs[n].id] == j
    requires step == DispatchOne(w.plan(cs[n].jobType), t.queue, cs[n], w.answers(n), w.at(n))
    requires u == if t.thrown then t else After(t, cs[n].id, step)
    ensures cs[n].id < |u.queue.jobs|
    ensures u.queue.jobs[cs[n].id] == if Reached(w, cs, n) then Answered(j, cs[n], w.answers(n), w.at(n)) else j
  {
    ReachedIff(w, cs, n);
    if w.plan(cs[n].jobType).Send? { SendAnswers(t.queue, cs[n], w.answers(n), w.at(n)); }
  }

  lemma EarlierStays(t: Tally, c: Claimed, plan: Plan, r: Answer, at: nat, u: Tally, i: JobId)
    requires c.id < |t.queue.jobs| && i < |t.queue.jobs| && i != c.id
    requires u == if t.thrown then t else After(t, c.id, DispatchOne(plan, t.queue, c, r, at))
    ensures i < |u.queue.jobs| && u.queue.jobs[i] == t.queue.jobs[i]
  {
    OneKeepsRows(plan, t.queue, c, r, at);
  }

  lemma ReachedInPrefix(w: World, cs: seq<Claimed>, n: nat, k: nat)
    requires k < n <= |cs|
    ensures Reached(w, cs[..n], k) <==> Reached(w, cs, k)
  {
    assert forall m :: 0 <= m < n ==> cs[..n][m] == cs[m];
  }

  lemma LoopUnfolds(w: World, q: Queue, cs: seq<Claimed>, n: nat, t: Tally, step: Step, u: Tally)
    requires n == |cs| - 1 && forall k :: 0 <= k < |cs| ==> cs[k].id < |q.jobs|
    requires t == DispatchAll(w, q, cs[..n]) && u == DispatchAll(w, q, cs)
    requires step == DispatchOne(w.plan(cs[n].jobType), t.queue, cs[n], w.answers(n), w.at(n))
    ensures u == if t.thrown then t else After(t, cs[n].id, step)
  {
  }

  lemma LoopAnswersLast(w: World, q: Queue, cs: seq<Claimed>, n: nat, t: Tally, step: Step, u: Tally)
    requires DistinctIds(cs) && (forall m :: 0 <= m < |cs| ==> cs[m].id < |q.jobs|)
    requires SendsOrRaises(w, cs) && n == |cs| - 1 && t == DispatchAll(w, q, cs[..n])
    requires step == DispatchOne(w.plan(cs[n].jobType), t.queue, cs[n], w.answers(n), w.at(n))
    requires u == if t.thrown then t else After(t, cs[n].id, step)
    ensures cs[n].id < |u.queue.jobs|
    ensures u.queue.jobs[cs[n].id] ==
      if Reached(w, cs, n) then Answered(q.jobs[cs[n].id], cs[n], w.answers(n), w.at(n)) else q.jobs[cs[n].id]
  {
    LoopLeaves(w, q, cs[..n], cs[n].id);
    EveryJobIsSettled(w, q, cs[..n], t);
    LastIsAnswered(w, cs, n, t, step, u, q.jobs[cs[n].id]);
  }

  lemma {:induction false} LoopAnswers(w: World, q: Queue, cs: seq<Claimed>, k: nat, u: Tally)
    requires DistinctIds(cs) && (forall m :: 0 <= m < |cs| ==> cs[m].id < |q.jobs|)
    requires SendsOrRaises(w, cs) && k < |cs| && u == DispatchAll(w, q, cs)
    ensures u.queue.jobs[cs[k].id] ==
      if Reached(w, cs, k) then Answered(q.jobs[cs[k].id], cs[k], w.answers(k), w.at(k)) else q.jobs[cs[k].id]
  {
    var n := |cs| - 1;
    var t := DispatchAll(w, q, cs[..n]);
    var step := DispatchOne(w.plan(cs[n].jobType), t.queue, cs[n], w.answers(n), w.at(n));
    LoopUnfolds(w, q, cs, n, t, step, u);
    if k == n {
      LoopAnswersLast(w, q, cs, n, t, step, u);
    } else {
      LoopAnswers(w, q, cs[..n], k, t);
      ReachedInPrefix(w, cs, n, k);
      EarlierStays(t, cs[n], w.plan(cs[n].jobType), w.answers(n), w.at(n), u, cs[k].id);
    }
  }

  lemma ClaimedOnce(q: Queue, now: nat, until: nat, allowed: set<JobType>, ids: seq<JobId>, k: nat, j: Job)
    requires Claimable(Terminalize(q, now), now, allowed, |ids|, ids) && k < |ids| && j == q.jobs[ids[k]]
    ensures var c := Snapshot(Claim(q, now, until, ids), ids)[k];
      c.id == ids[k] && c.jobType == j.jobType && c.attemptCount == j.attemptCount + 1 <= c.maxAttempts == j.maxAttempts
    ensures Claim(q, now, until, ids).jobs[ids[k]] ==
      j.(status := JobStatus.RUNNING, attemptCount := j.attemptCount + 1, leaseUntil := Some(until))
  {
    assert Due(Terminalize(q, now).jobs[ids[k]], now, allowed);
  }

  lemma AnsweredIsDueIff(j: Job, until: nat, c: Claimed, r: Answer, at: nat, called: bool, later: nat,
          types: set<JobType>, claimed: Job)
    requires claimed == j.(status := JobStatus.RUNNING, attemptCount := j.attemptCount + 1, leaseUntil := Some(until))
    requires c.attemptCount == j.attemptCount + 1 <= c.maxAttempts == j.maxAttempts
    ensures var retryAt := at + (if j.attemptCount == 0 then 30000 else if j.attemptCount == 1 then 120000 else 600000);
      Due(if called then Answered(claimed, c, r, at) else claimed, later, types) <==>
      && j.jobType in types && j.attemptCount + 1 < j.maxAttempts
      && (if !called || r.Yes? then until < later else r.Later? && retryAt <= later)
  {
  }

  /** The claim followed by the whole loop: when a job of the batch can be claimed again. Its type has to be allowed
      and an attempt left; then, if its webhook was called and refused it, never unless the refusal is
      retryable, and after 30, 120 or 600 seconds if it is; otherwise, call accepted or cut short, once its lease
      has run out. */
  lemma DueAgainIff(w: World, q: Queue, now: nat, until: nat, allowed: set<JobType>, ids: seq<JobId>, k: nat,
          later: nat, types: set<JobType>, called: bool, j: Job)
    requires Claimable(Terminalize(q, now), now, allowed, |ids|, ids) && k < |ids| && j == q.jobs[ids[k]]
    requires SendsOrRaises(w, Snapshot(Claim(q, now, until, ids), ids))
    requires called <==> Reached(w, Snapshot(Claim(q, now, until, ids), ids), k)
    ensures var retryAt :=
        w.at(k) + (if j.attemptCount == 0 then 30000 else if j.attemptCount == 1 then 120000 else 600000);
      Due(Dispatch(w, q, now, until, allowed, ids).queue.jobs[ids[k]], later, types) <==>
      && j.jobType in types && j.attemptCount + 1 < j.maxAttempts
      && (if !called || w.answers(k).Yes? then until < later else w.answers(k).Later? && retryAt <= later)
  {
    var claimed := Claim(q, now, until, ids);
    var cs := Snapshot(claimed, ids);
    ClaimedOnce(q, now, until, allowed, ids, k, j);
    LoopAnswers(w, claimed, cs, k, DispatchAll(w, claimed, cs));
    AnsweredIsDueIff(j, until, cs[k], w.answers(k), w.at(k), called, later, types, claimed.jobs[ids[k]]);
  }

  // ----- what an answer does to job and delivery

  /** No other claimed job names the delivery. */
  ghost predicate NamedOnlyBy(cs: seq<Claimed>, d: DeliveryId, k: nat) {
    forall m :: 0 <= m < |cs| && cs[m].delivery == Some(d) ==> m == k
  }

  /** The status in which a webhook call leaves the delivery it was made for. */
  ghost function Delivered(c: Claimed, r: Answer): DeliveryStatus {
    if r.Yes? then DeliveryStatus.SENDING
    else if r.Later? && c.attemptCount < c.maxAttempts then DeliveryStatus.PENDING
    else DeliveryStatus.FAILED
  }

  lemma OneDelivers(t: Tally, c: Claimed, plan: Plan, r: Answer, at: nat, u: Tally, d: DeliveryId)
    requires c.id < |t.queue.jobs| && d < |t.queue.deliveries| && (plan.Send? || plan.Raise?)
    requires u == if t.thrown then t else After(t, c.id, DispatchOne(plan, t.queue, c, r, at))
    ensures |u.queue.deliveries| == |t.queue.deliveries|
    ensures u.queue.deliveries[d] ==
      if !t.thrown && plan.Send? && c.delivery == Some(d) then t.queue.deliveries[d].(status := Delivered(c, r))
      else t.queue.deliveries[d]
  {
  }

  lemma LastDelivers(w: World, cs: seq<Claimed>, n: nat, k: nat, d: DeliveryId, was: Delivery, t: Tally, u: Tally)
    requires k <= n == |cs| - 1 && SendsOrRaises(w, cs) && NamedOnlyBy(cs, d, k) && cs[k].delivery == Some(d)
    requires cs[n].id < |t.queue.jobs| && d < |t.queue.deliveries| && (t.thrown <==> SomeRaises(w, cs[..n]))
    requires u == if t.thrown then t else After(t, cs[n].id, DispatchOne(w.plan(cs[n].jobType), t.queue, cs[n], w.answers(n), w.at(n)))
    requires t.queue.deliveries[d] ==
      if k < n && Reached(w, cs, k) then was.(status := Delivered(cs[k], w.answers(k))) else was
    ensures d < |u.queue.deliveries|
    ensures u.queue.deliveries[d] == if Reached(w, cs, k) then was.(status := Delivered(cs[k], w.answers(k))) else was
  {
    OneDelivers(t, cs[n], w.plan(cs[n].jobType), w.answers(n), w.at(n), u, d);
    ReachedIff(w, cs, n);
  }

  lemma {:induction false} LoopDelivers(w: World, q: Queue, cs: seq<Claimed>, k: nat, d: DeliveryId, u: Tally)
    requires (forall m :: 0 <= m < |cs| ==> cs[m].id < |q.jobs|) && SendsOrRaises(w, cs) && NamedOnlyBy(cs, d, k)
    requires (k < |cs| ==> cs[k].delivery == Some(d)) && d < |q.deliveries| && u == DispatchAll(w, q, cs)
    ensures d < |u.queue.deliveries|
    ensures u.queue.deliveries[d] ==
      if Reached(w, cs, k) then q.deliveries[d].(status := Delivered(cs[k], w.answers(k))) else q.deliveries[d]
  {
    if cs != [] {
      var n := |cs| - 1;
      var t := DispatchAll(w, q, cs[..n]);
      LoopUnfolds(w, q, cs, n, t, DispatchOne(w.plan(cs[n].jobType), t.queue, cs[n], w.answers(n), w.at(n)), u);
      LoopDelivers(w, q, cs[..n], k, d, t);
      EveryJobIsSettled(w, q, cs[..n], t);
      if k < n { ReachedInPrefix(w, cs, n, k); }
      if k <= n {
        LastDelivers(w, cs, n, k, d, q.deliveries[d], t, u);
      } else {
        OneDelivers(t, cs[n], w.plan(cs[n].jobType), w.answers(n), w.at(n), u, d);
      }
    }
  }

  /** In the caller's terms, what the answer to its webhook call makes of a claimed job and its delivery. Accepted:
      the job stays RUNNING and its delivery SENDING. With an attempt left and a 429, a 5xx, a network error or a body
      with the marker: both are PENDING, the job for 30, 120 or 600 seconds later. Any other refusal: both have FAILED. */
  ghost predicate AsAnswered(q: Queue, t: Queue, i: JobId, r: Response, at: nat) {
    && i < |q.jobs| && i < |t.jobs|
    && var j := q.jobs[i];
       var again := j.attemptCount + 1 < j.maxAttempts
         && (r.NetworkError?
             || (r.HttpError? && (r.status == 429 || r.status >= 500 || Contains(r.body, "retryable=true"))));
       && t.jobs[i].attemptCount == j.attemptCount + 1
       && t.jobs[i].status ==
            (if r.Accepted? then JobStatus.RUNNING else if again then JobStatus.PENDING else JobStatus.FAILED)
       && var delay := if j.attemptCount == 0 then 30000 else if j.attemptCount == 1 then 120000 else 600000;
       && (again ==> t.jobs[i].scheduledAt == Some(at + delay))
       && (j.delivery.Some? ==>
            && j.delivery.value < |t.deliveries|
            && t.deliveries[j.delivery.value].status ==
               if r.Accepted? then DeliveryStatus.SENDING else if again then DeliveryStatus.PENDING
               else DeliveryStatus.FAILED)
  }

  lemma AnswersAreLiteral(q: Queue, t: Queue, until: nat, c: Claimed, r: Response, at: nat)
    requires c.id < |q.jobs| && c.id < |t.jobs|
    requires var j := q.jobs[c.id];
      && c.attemptCount == j.attemptCount + 1 <= c.maxAttempts == j.maxAttempts
      && t.jobs[c.id] == Answered(
           j.(status := JobStatus.RUNNING, attemptCount := j.attemptCount + 1, leaseUntil := Some(until)), c, Classify(r), at)
      && (j.delivery.Some? ==>
           j.delivery.value < |t.deliveries| && t.deliveries[j.delivery.value].status == Delivered(c, Classify(r)))
    ensures AsAnswered(q, t, c.id, r, at)
  {
    if !r.Accepted? { RetryableIff(r); }
  }

  lemma ClaimedDelivery(q: Queue, now: nat, until: nat, allowed: set<JobType>, ids: seq<JobId>, k: nat, d: DeliveryId)
    requires Linked(q) && Claimable(Terminalize(q, now), now, allowed, |ids|, ids) && k < |ids|
    requires q.jobs[ids[k]].delivery == Some(d)
    ensures NamedOnlyBy(Snapshot(Claim(q, now, until, ids), ids), d, k)
    ensures d < |q.deliveries| && Claim(q, now, until, ids).deliveries == Terminalize(q, now).deliveries
    ensures Snapshot(Claim(q, now, until, ids), ids)[k].delivery == Some(d)
  {
    var cs := Snapshot(Claim(q, now, until, ids), ids);
    forall m | 0 <= m < |cs| ensures cs[m].delivery == q.jobs[ids[m]].delivery {}
  }

  lemma ClaimedDelivers(w: World, q: Queue, now: nat, until: nat, allowed: set<JobType>, ids: seq<JobId>, k: nat,
          cs: seq<Claimed>, u: Tally, d: DeliveryId)
    requires Linked(q) && Claimable(Terminalize(q, now), now, allowed, |ids|, ids) && k < |ids|
    requires cs == Snapshot(Claim(q, now, until, ids), ids) && u == DispatchAll(w, Claim(q, now, until, ids), cs)
    requires SendsOrRaises(w, cs) && Reached(w, cs, k) && q.jobs[ids[k]].delivery == Some(d)
    ensures d < |u.queue.deliveries| && u.queue.deliveries[d].status == Delivered(cs[k], w.answers(k))
  {
    ClaimedDelivery(q, now, until, allowed, ids, k, d);
    LoopDelivers(w, Claim(q, now, until, ids), cs, k, d, u);
  }

  /** The whole call, from the environment and the webhook's answers: every job it gets to is settled as its
      answer says, and its delivery with it. */
  lemma AnswersDecide(env: Env, responses: nat -> Response, at: nat -> nat, q: Queue, now: nat, until: nat,
          ids: seq<JobId>, k: nat)
    requires Valid(env) && Linked(q) && Claimable(Terminalize(q, now), now, Allowed(env), |ids|, ids) && k < |ids|
    requires forall m :: 0 <= m <= k ==> Parses(env, q.jobs[ids[m]].jobType)
    ensures AsAnswered(q, Dispatch(WorldOf(env, responses, at), q, now, until, Allowed(env), ids).queue, ids[k],
                       responses(k), at(k))
  {
    var w := WorldOf(env, responses, at);
    var claimed := Claim(q, now, until, ids);
    var cs := Snapshot(claimed, ids);
    var u := DispatchAll(w, claimed, cs);
    AllowedPlans(env, responses, at, q, now, until, ids, cs);
    ClaimedOnce(q, now, until, Allowed(env), ids, k, q.jobs[ids[k]]);
    assert Reached(w, cs, k);
    LoopAnswers(w, claimed, cs, k, u);
    if q.jobs[ids[k]].delivery.Some? {
      ClaimedDelivers(w, q, now, until, Allowed(env), ids, k, cs, u, q.jobs[ids[k]].delivery.value);
    }
    AnswersAreLiteral(q, u.queue, until, cs[k], responses(k), at(k));
  }

  /** Every job the call gets to is settled as its answer says. */
  ghost predicate AllAnswered(env: Env, q: Queue, t: Queue, ids: seq<JobId>, responses: nat -> Response, at: nat -> nat) {
    forall k :: 0 <= k < |ids| && AllParse(env, q, ids, k) ==> AsAnswered(q, t, ids[k], responses(k), at(k))
  }

  /** The URLs of the batch parse up to position k. */
  ghost predicate AllParse(env: Env, q: Queue, ids: seq<JobId>, k: nat) {
    k < |ids| && forall m :: 0 <= m <= k ==> ids[m] < |q.jobs| && Parses(env, q.jobs[ids[m]].jobType)
  }

  lemma CallSettles(env: Env, responses: nat -> Response, at: nat -> nat, q: Queue, now: nat, until: nat,
          ids: seq<JobId>, t: Tally)
    requires Valid(env) && Claimable(Terminalize(q, now), now, Allowed(env), |ids|, ids)
    requires t == Dispatch(WorldOf(env, responses, at), q, now, until, Allowed(env), ids)
    ensures t.thrown <==> exists k :: 0 <= k < |ids| && !Parses(env, q.jobs[ids[k]].jobType)
    ensures !t.thrown ==> t.sent + t.requeued + t.failed == |ids|
    ensures Linked(q) ==> AllAnswered(env, q, t.queue, ids, responses, at)
  {
    NoStrandedJob(env, responses, at, q, now, until, ids);
    if Linked(q) {
      forall k | 0 <= k < |ids| && AllParse(env, q, ids, k)
        ensures AsAnswered(q, t.queue, ids[k], responses(k), at(k))
      {
        AnswersDecide(env, responses, at, q, now, until, ids, k);
      }
    }
  }

  /** A job outside the batch is not touched, unless it is given up for good. */
  lemma OutsideTheBatch(w: World, q: Queue, now: nat, until: nat, allowed: set<JobType>, ids: seq<JobId>, i: JobId,
          later: nat, types: set<JobType>)
    requires Claimable(Terminalize(q, now), now, allowed, |ids|, ids) && i < |q.jobs| && i !in ids
    ensures var t := Dispatch(w, q, now, until, allowed, ids).queue.jobs[i];
      if Exhausted(q.jobs[i], now) then t.status == JobStatus.FAILED && !Due(t, later, types) else t == q.jobs[i]
  {
    var claimed := Claim(q, now, until, ids);
    LoopLeaves(w, claimed, Snapshot(claimed, ids), i);
  }

  // ----- the dispatcher

  /** The second guard against types that must not be sent. */
  function Dispatchable(cs: seq<Claimed>, disabled: set<JobType>): seq<Claimed> {
    if cs == [] then []
    else
      var c := cs[|cs| - 1];
      Dispatchable(cs[..|cs| - 1], disabled) + if c.jobType !in disabled && c.jobType in SUPPORTED then [c] else []
  }

  lemma {:induction false} DispatchableIff(cs: seq<Claimed>, disabled: set<JobType>, c: Claimed)
    ensures c in Dispatchable(cs, disabled) <==> c in cs && c.jobType !in disabled && c.jobType in SUPPORTED
  {
    if cs != [] {
      DispatchableIff(cs[..|cs| - 1], disabled, c);
      assert cs == cs[..|cs| - 1] + [cs[|cs| - 1]];
    }
  }

  /** It never removes anything the claim returned. */
  lemma {:induction false} GuardIsRedundant(env: Env, cs: seq<Claimed>)
    requires forall k :: 0 <= k < |cs| ==> cs[k].jobType in Allowed(env)
    ensures Dispatchable(cs, env.disabled) == cs
  {
    if cs != [] {
      GuardIsRedundant(env, cs[..|cs| - 1]);
      assert cs == cs[..|cs| - 1] + [cs[|cs| - 1]];
    }
  }

  class AutomationTables {
    var jobs: seq<Job>
    var deliveries: seq<Delivery>

    ghost function State(): Queue
      reads this
    {
      Queue(jobs, deliveries)
    }

    /** The oldest due job that is neither locked nor taken. */
    static method Oldest(q: Queue, now: nat, allowed: set<JobType>, locked: set<JobId>, ids: seq<JobId>)
      returns (r: Option<JobId>)
      ensures r.None? ==> forall i :: 0 <= i < |q.jobs| && i !in locked && i !in ids ==> !Due(q.jobs[i], now, allowed)
      ensures r.Some? ==>
        && r.value < |q.jobs| && r.value !in locked && r.value !in ids && Due(q.jobs[r.value], now, allowed)
        && forall i :: 0 <= i < |q.jobs| && i !in locked && i !in ids && Due(q.jobs[i], now, allowed) ==>
             q.jobs[r.value].createdAt <= q.jobs[i].createdAt
    {
      r := None;
      for n := 0 to |q.jobs|
        invariant r.None? ==> forall i :: 0 <= i < n && i !in locked && i !in ids ==> !Due(q.jobs[i], now, allowed)
        invariant r.Some? ==>
          && r.value < n && r.value !in locked && r.value !in ids && Due(q.jobs[r.value], now, allowed)
          && forall i :: 0 <= i < n && i !in locked && i !in ids && Due(q.jobs[i], now, allowed) ==>
               q.jobs[r.value].createdAt <= q.jobs[i].createdAt
      {
        if n !in locked && n !in ids && Due(q.jobs[n], now, allowed) {
          if r.None? || q.jobs[n].createdAt < q.jobs[r.value].createdAt { r := Some(n); }
        }
      }
    }

    static method PickDue(q: Queue, now: nat, allowed: set<JobType>, limit: nat, locked: set<JobId>)
      returns (ids: seq<JobId>)
      ensures Claimable(q, now, allowed, limit, ids) && OldestFirst(q, now, allowed, limit, locked, ids)
    {
      ids := [];
      while |ids| < limit
        invariant Claimable(q, now, allowed, limit, ids)
        invariant forall k :: 0 <= k < |ids| ==> ids[k] !in locked
        invariant forall i :: 0 <= i < |q.jobs| && i !in locked && i !in ids && Due(q.jobs[i], now, allowed) ==>
          forall k :: 0 <= k < |ids| ==> q.jobs[ids[k]].createdAt <= q.jobs[i].createdAt
        decreases limit - |ids|
      {
        var next := Oldest(q, now, allowed, locked, ids);
        if next.None? { return; }
        ids := ids + [next.value];
      }
    }

    /** Both update statements of the claim and the read of the claimed rows, in one transaction; rows that another
        transaction has locked are skipped. */
    method ClaimDueAutomationJobs(now: nat, until: nat, allowed: set<JobType>, limit: nat, locked: set<JobId>)
      returns (ids: seq<JobId>, claimed: seq<Claimed>)
      modifies this
      ensures Claimable(Terminalize(old(State()), now), now, allowed, limit, ids)
      ensures OldestFirst(Terminalize(old(State()), now), now, allowed, limit, locked, ids)
      ensures State() == Claim(old(State()), now, until, ids) && claimed == Snapshot(State(), ids)
      ensures |ids| <= limit && forall i :: i in ids ==> i < |old(jobs)| && i !in locked
      ensures forall i :: 0 <= i < |old(jobs)| && i !in locked && i !in ids && Due(Terminalize(old(State()), now).jobs[i], now, allowed) ==>
        |ids| == limit && forall k :: k in ids ==> old(jobs)[k].createdAt <= old(jobs)[i].createdAt
      ensures |jobs| == |old(jobs)| && forall i :: 0 <= i < |jobs| ==>
        var j := old(jobs)[i];
        var stale := j.status == JobStatus.RUNNING && j.leaseUntil.Some? && j.leaseUntil.value < now;
        && (jobs[i] ==
             if i in ids then j.(status := JobStatus.RUNNING, attemptCount := j.attemptCount + 1, leaseUntil := Some(until))
             else if stale && j.attemptCount >= j.maxAttempts then j.(status := JobStatus.FAILED, leaseUntil := None)
             else j)
    {
      var q := Terminalize(Queue(jobs, deliveries), now);
      ids := PickDue(q, now, allowed, limit, locked);
      var taken := TakeJobs(q, until, ids);
      jobs, deliveries := taken.jobs, taken.deliveries;
      claimed := Snapshot(taken, ids);
    }

    method SettleDeliveryAfterDispatchFailure(delivery: Option<DeliveryId>, terminal: bool)
      modifies this`deliveries
      ensures State() == SetDelivery(old(State()), delivery, if terminal then DeliveryStatus.FAILED else DeliveryStatus.PENDING)
      ensures |deliveries| == |old(deliveries)| && forall d :: 0 <= d < |deliveries| ==>
        deliveries[d] ==
          if delivery == Some(d)
          then old(deliveries)[d].(status := if terminal then DeliveryStatus.FAILED else DeliveryStatus.PENDING)
          else old(deliveries)[d]
    {
      if delivery.None? { return; }
      if delivery.value < |deliveries| {
        var st := if terminal then DeliveryStatus.FAILED else DeliveryStatus.PENDING;
        deliveries := deliveries[delivery.value := deliveries[delivery.value].(status := st)];
      }
    }

    method FailClaimedJobForRouteConfiguration(id: JobId)
      requires id < |jobs|
      modifies this
      ensures var moved := MoveDeliveriesOf(old(State()), id, ANY, DeliveryStatus.FAILED);
        State() == SetJob(moved, id, JobStatus.FAILED, old(jobs)[id].scheduledAt)
      ensures jobs == old(jobs)[id := old(jobs)[id].(status := JobStatus.FAILED, leaseUntil := None)]
      ensures |deliveries| == |old(deliveries)| && forall d :: 0 <= d < |deliveries| ==>
        var was := old(deliveries)[d];
        deliveries[d] == if was.jobId == Some(id) then was.(status := DeliveryStatus.FAILED) else was
    {
      for d := 0 to |deliveries|
        invariant jobs == old(jobs) && |deliveries| == |old(deliveries)|
        invariant forall k :: 0 <= k < |deliveries| ==>
          var was := old(deliveries)[k];
          deliveries[k] == if k < d && was.jobId == Some(id) then was.(status := DeliveryStatus.FAILED) else was
      {
        if deliveries[d].jobId == Some(id) {
          deliveries := deliveries[d := deliveries[d].(status := DeliveryStatus.FAILED)];
        }
      }
      forall st: DeliveryStatus ensures st in ANY {
        assert st.PENDING? || st.SENDING? || st.SENT? || st.FAILED?;
      }
      assert deliveries == MoveDeliveriesOf(old(State()), id, ANY, DeliveryStatus.FAILED).deliveries;
      jobs := jobs[id := jobs[id].(status := JobStatus.FAILED, leaseUntil := None)];
    }

    /** Calls the webhook of one job; answer is what comes back. */
    method DispatchSingleAutomationJob(c: Claimed, parses: bool, answer: Answer) returns (thrown: bool, success: bool)
      modifies this`deliveries
      ensures thrown == !parses && (!thrown ==> success == answer.Yes?)
      ensures State() == if parses then SetDelivery(old(State()), c.delivery, DeliveryStatus.SENDING) else old(State())
      ensures |deliveries| == |old(deliveries)| && forall d :: 0 <= d < |deliveries| ==>
        var was := old(deliveries)[d];
        deliveries[d] == if parses && c.delivery == Some(d) then was.(status := DeliveryStatus.SENDING) else was
    {
      if !parses { return true, false; }
      if c.delivery.Some? && c.delivery.value < |deliveries| {
        deliveries := deliveries[c.delivery.value := deliveries[c.delivery.value].(status := DeliveryStatus.SENDING)];
      }
      return false, answer.Yes?;
    }

    /** The body of the loop; kind is history. */
    method DispatchClaimed(plan: Plan, c: Claimed, answer: Answer, at: nat) returns (thrown: bool, success: bool,
            ghost kind: Kind)
      requires c.id < |jobs|
      modifies this
      ensures var step := DispatchOne(plan, old(State()), c, answer, at);
        && State() == step.queue && thrown == step.Thrown?
        && (!thrown ==> kind == step.kind && success == step.kind.Sent?)
    {
      thrown, success, kind := false, false, Skipped;
      if plan.FailRoute? {
        FailClaimedJobForRouteConfiguration(c.id);
        kind := RouteFailed;
      } else if !plan.Skip? {
        thrown, success := DispatchSingleAutomationJob(c, plan.Send?, answer);
        if thrown { return; }
        kind := Sent;
        if !success {
          var canRetry := answer.Later? && c.attemptCount < c.maxAttempts;
          if canRetry {
            var scheduledAt := at + 1000 * BackoffSeconds(c.attemptCount);
            jobs := jobs[c.id := jobs[c.id].(status := JobStatus.PENDING, scheduledAt := Some(scheduledAt), leaseUntil := None)];
            SettleDeliveryAfterDispatchFailure(c.delivery, false);
            kind := Requeued;
          } else {
            jobs := jobs[c.id := jobs[c.id].(status := JobStatus.FAILED, leaseUntil := None)];
            SettleDeliveryAfterDispatchFailure(c.delivery, true);
            kind := GaveUp;
          }
        }
      }
    }

    /** ids and t are history: the rows claimed and what became of them. */
    method DispatchPendingAutomationJobs(env: Env, secretValid: bool, batchSize: nat, now: nat, until: nat,
            locked: set<JobId>, responses: nat -> Response, at: nat -> nat)
      returns (thrown: bool, claimedCount: nat, dispatchedCount: nat, ghost ids: seq<JobId>, ghost t: Tally)
      modifies this
      ensures !(secretValid && Valid(env)) ==> State() == old(State()) && !thrown && claimedCount == dispatchedCount == 0
      ensures secretValid && Valid(env) ==>
        && Claimable(Terminalize(old(State()), now), now, Allowed(env), batchSize, ids)
        && OldestFirst(Terminalize(old(State()), now), now, Allowed(env), batchSize, locked, ids)
        && t == Dispatch(WorldOf(env, responses, at), old(State()), now, until, Allowed(env), ids)
        && State() == t.queue && thrown == t.thrown
        && (!thrown ==> claimedCount == |ids| == t.sent + t.requeued + t.failed && dispatchedCount == t.sent)
      ensures secretValid && Valid(env) ==>
        && (thrown <==> exists k :: 0 <= k < |ids| && !Parses(env, old(jobs)[ids[k]].jobType))
        && (Linked(old(State())) ==> AllAnswered(env, old(State()), State(), ids, responses, at))
    {
      thrown, claimedCount, dispatchedCount, ids := false, 0, 0, [];
      t := Tally(State(), 0, 0, 0, 0, false, []);
      if !secretValid { return; }
      var routeCheck := ValidateAutomationRoutes(env);
      if !routeCheck.valid { return; }
      var allowed := Allowed(env);
      var taken, claimed := ClaimDueAutomationJobs(now, until, allowed, batchSize, locked);
      ids := taken;
      var dispatchable := Dispatchable(claimed, routeCheck.disabled);
      ClaimedAreAllowed(old(State()), now, until, allowed, ids);
      GuardIsRedundant(env, claimed);
      thrown, dispatchedCount, t := DispatchEach(WorldOf(env, responses, at), dispatchable);
      claimedCount := |claimed|;
      CallSettles(env, responses, at, old(State()), now, until, ids, t);
    }

    method DispatchEach(w: World, cs: seq<Claimed>) returns (thrown: bool, dispatchedCount: nat, ghost t: Tally)
      requires forall k :: 0 <= k < |cs| ==> cs[k].id < |jobs|
      modifies this
      ensures t == DispatchAll(w, old(State()), cs) && State() == t.queue && thrown == t.thrown && dispatchedCount == t.sent
    {
      thrown, dispatchedCount := false, 0;
      t := Tally(State(), 0, 0, 0, 0, false, []);
      for i := 0 to |cs|
        invariant |jobs| == |old(jobs)| && State() == t.queue && !t.thrown && dispatchedCount == t.sent
        invariant t == DispatchAll(w, old(State()), cs[..i])
      {
        var c := cs[i];
        ghost var step := DispatchOne(w.plan(c.jobType), t.queue, c, w.answers(i), w.at(i));
        OneMoreJob(w, old(State()), cs, i, t, step);
        var success;
        ghost var kind;
        thrown, success, kind := DispatchClaimed(w.plan(c.jobType), c, w.answers(i), w.at(i));
        t := After(t, c.id, step);
        if thrown {
          ThrownStays(w, old(State()), cs, i + 1);
          return;
        }
        if success {
          dispatchedCount := dispatchedCount + 1;
        }
      }
      assert cs[..|cs|] == cs;
    }
  }
}
