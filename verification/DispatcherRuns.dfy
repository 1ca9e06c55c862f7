/** Serial runs of the dispatcher, the callbacks of the API and the administrator's actions: job and delivery in
    step, one way to every delivery, bounded webhook calls. */
module DispatcherRuns {
  import opened Wrappers
  import opened Automation
  import opened Routes
  import opened Dispatcher

  // ----- lockstep

  ghost predicate Matches(j: JobStatus, d: DeliveryStatus) {
    match j
    case PENDING => d == DeliveryStatus.PENDING
    case RUNNING => d == DeliveryStatus.SENDING
    case SUCCEEDED => d == DeliveryStatus.SENT
    case FAILED => d == DeliveryStatus.FAILED
    case CANCELLED => d == DeliveryStatus.PENDING
  }

  /** The delivery is where the job is, or the job was retried and its FAILED delivery has still to follow. */
  ghost predicate Follows(j: JobStatus, d: DeliveryStatus, retried: bool) {
    Matches(j, d) || (retried && d.FAILED? && (j.PENDING? || j.CANCELLED?))
  }

  /** So it is for job i, if it has a delivery. */
  ghost predicate InStep(q: Queue, i: JobId, retried: seq<JobId>)
    requires i < |q.jobs|
  {
    var d := q.jobs[i].delivery;
    d.Some? ==> d.value < |q.deliveries| && Follows(q.jobs[i].status, q.deliveries[d.value].status, i in retried)
  }

  /** Content drafts have no delivery. */
  ghost predicate Drafts(q: Queue) {
    forall i :: 0 <= i < |q.jobs| && q.jobs[i].jobType.CMS_AI_DRAFT? ==> q.jobs[i].delivery.None?
  }

  /** Every job is in step with its delivery; without retries, retried is []. */
  ghost predicate Lockstep(q: Queue, retried: seq<JobId>) {
    && Linked(q)
    && Drafts(q)
    && forall i :: 0 <= i < |q.jobs| ==> InStep(q, i, retried)
  }

  lemma SameRowsLinked(q: Queue, t: Queue)
    requires SameRows(q, t)
    ensures Linked(q) ==> Linked(t)
    ensures Drafts(q) ==> Drafts(t)
  {
  }

  lemma {:induction false} LoopKeepsRows(w: World, q: Queue, cs: seq<Claimed>)
    requires forall k :: 0 <= k < |cs| ==> cs[k].id < |q.jobs|
    ensures SameRows(q, DispatchAll(w, q, cs).queue)
  {
    if cs != [] {
      var n := |cs| - 1;
      LoopKeepsRows(w, q, cs[..n]);
      var t := DispatchAll(w, q, cs[..n]);
      OneKeepsRows(w.plan(cs[n].jobType), t.queue, cs[n], w.answers(n), w.at(n));
    }
  }

  lemma ClaimKeepsRows(q: Queue, now: nat, until: nat, ids: seq<JobId>)
    ensures SameRows(q, Claim(q, now, until, ids))
  {
  }

  /** A call, thrown or not, creates, removes and renames nothing. */
  lemma CallKeepsRows(w: World, q: Queue, now: nat, until: nat, allowed: set<JobType>, ids: seq<JobId>)
    requires Claimable(Terminalize(q, now), now, allowed, |ids|, ids)
    ensures SameRows(q, Dispatch(w, q, now, until, allowed, ids).queue)
  {
    var claimed := Claim(q, now, until, ids);
    ClaimKeepsRows(q, now, until, ids);
    LoopKeepsRows(w, claimed, Snapshot(claimed, ids));
  }

  lemma TerminalizeKeepsLockstep(q: Queue, now: nat, retried: seq<JobId>)
    requires Lockstep(q, retried)
    ensures Lockstep(Terminalize(q, now), retried) && SameRows(q, Terminalize(q, now))
  {
    var t := Terminalize(q, now);
    SameRowsLinked(q, t);
    forall i | 0 <= i < |t.jobs| ensures InStep(t, i, retried) {
      assert InStep(q, i, retried);
    }
  }

  /** A job that is dispatched and settled is in step with its delivery afterwards. */
  lemma OneIsInStep(plan: Plan, q: Queue, c: Claimed, r: Answer, at: nat, retried: seq<JobId>)
    requires Linked(q) && c.id < |q.jobs| && c.delivery == q.jobs[c.id].delivery && q.jobs[c.id].status == JobStatus.RUNNING
    requires var s := DispatchOne(plan, q, c, r, at); s.Done? && !s.kind.Skipped?
    ensures InStep(DispatchOne(plan, q, c, r, at).queue, c.id, retried)
  {
  }

  /** Deliveries of other jobs are left alone. */
  lemma OnlyItsDeliveryMoves(plan: Plan, q: Queue, c: Claimed, r: Answer, at: nat, d: DeliveryId)
    requires c.id < |q.jobs| && d < |q.deliveries| && q.deliveries[d].jobId != Some(c.id) && c.delivery != Some(d)
    ensures DispatchOne(plan, q, c, r, at).queue.deliveries[d] == q.deliveries[d]
  {
  }

  /** No other job leaves its step. */
  lemma OthersStayInStep(plan: Plan, q: Queue, c: Claimed, r: Answer, at: nat, i: JobId, retried: seq<JobId>)
    requires Linked(q) && c.id < |q.jobs| && c.delivery == q.jobs[c.id].delivery
    requires i < |q.jobs| && i != c.id && InStep(q, i, retried)
    ensures InStep(DispatchOne(plan, q, c, r, at).queue, i, retried)
  {
    OneKeepsRows(plan, q, c, r, at);
    var d := q.jobs[i].delivery;
    if d.Some? {
      assert q.deliveries[d.value].jobId == Some(i);
      OnlyItsDeliveryMoves(plan, q, c, r, at, d.value);
    }
  }

  /** The claimed jobs from position n on have not been touched since the claim. */
  ghost predicate Untouched(q: Queue, cs: seq<Claimed>, n: nat) {
    forall k :: n <= k < |cs| ==>
      cs[k].id < |q.jobs| && cs[k].delivery == q.jobs[cs[k].id].delivery && q.jobs[cs[k].id].status == JobStatus.RUNNING
  }

  ghost predicate Remains(cs: seq<Claimed>, n: nat, i: JobId) {
    exists k :: n <= k < |cs| && cs[k].id == i
  }

  ghost predicate InStepUpTo(q: Queue, cs: seq<Claimed>, n: nat, retried: seq<JobId>) {
    forall i :: 0 <= i < |q.jobs| && !Remains(cs, n, i) ==> InStep(q, i, retried)
  }

  lemma StepInLoop(plan: Plan, q: Queue, cs: seq<Claimed>, n: nat, r: Answer, at: nat, retried: seq<JobId>)
    requires n < |cs| && DistinctIds(cs) && Linked(q) && Untouched(q, cs, n) && InStepUpTo(q, cs, n, retried)
    requires var s := DispatchOne(plan, q, cs[n], r, at); s.Done? && !s.kind.Skipped?
    ensures var t := DispatchOne(plan, q, cs[n], r, at).queue;
      Linked(t) && Untouched(t, cs, n + 1) && InStepUpTo(t, cs, n + 1, retried)
  {
    var t := DispatchOne(plan, q, cs[n], r, at).queue;
    OneKeepsRows(plan, q, cs[n], r, at);
    SameRowsLinked(q, t);
    OneIsInStep(plan, q, cs[n], r, at, retried);
    forall i | 0 <= i < |t.jobs| && !Remains(cs, n + 1, i) ensures InStep(t, i, retried) {
      if i != cs[n].id {
        assert !Remains(cs, n, i) && InStep(q, i, retried);
        OthersStayInStep(plan, q, cs[n], r, at, i, retried);
      }
    }
  }

  lemma AfterCompleted(t: Tally, id: JobId, step: Step, u: Tally)
    requires u == After(t, id, step) && !u.thrown && u.skipped == 0
    ensures !t.thrown && t.skipped == 0 && step.Done? && !step.kind.Skipped? && u.queue == step.queue
  {
  }

  lemma {:induction false} LoopInStep(w: World, q: Queue, cs: seq<Claimed>, n: nat, u: Tally, retried: seq<JobId>)
    requires n <= |cs| && DistinctIds(cs) && Linked(q) && Untouched(q, cs, 0) && InStepUpTo(q, cs, 0, retried)
    requires u == DispatchAll(w, q, cs[..n]) && !u.thrown && u.skipped == 0
    ensures Linked(u.queue) && Untouched(u.queue, cs, n) && InStepUpTo(u.queue, cs, n, retried)
  {
    if n > 0 {
      var c := cs[n - 1];
      var t := DispatchAll(w, q, cs[..n - 1]);
      var step := DispatchOne(w.plan(c.jobType), t.queue, c, w.answers(n - 1), w.at(n - 1));
      OneMoreJob(w, q, cs, n - 1, t, step);
      if !t.thrown {
        AfterCompleted(t, c.id, step, u);
        LoopInStep(w, q, cs, n - 1, t, retried);
        StepInLoop(w.plan(c.jobType), t.queue, cs, n - 1, w.answers(n - 1), w.at(n - 1), retried);
      }
    }
  }

  /** Jobs that are not claimed stay in step. */
  lemma TakeLeaves(q: Queue, until: nat, ids: seq<JobId>, cs: seq<Claimed>, i: JobId, retried: seq<JobId>)
    requires i < |q.jobs| && InStep(q, i, retried) && |cs| == |ids| && (forall k :: 0 <= k < |ids| ==> cs[k].id == ids[k])
    requires !Remains(cs, 0, i)
    ensures InStep(TakeJobs(q, until, ids), i, retried)
  {
    forall k | 0 <= k < |ids| ensures ids[k] != i {
      assert cs[k].id == ids[k];
    }
  }

  lemma ClaimedAreUntouched(q: Queue, until: nat, ids: seq<JobId>)
    requires forall i, j :: 0 <= i < j < |ids| ==> ids[i] != ids[j]
    requires forall k :: 0 <= k < |ids| ==> ids[k] < |q.jobs|
    ensures var claimed := TakeJobs(q, until, ids); var cs := Snapshot(claimed, ids);
      DistinctIds(cs) && Untouched(claimed, cs, 0) && SameRows(q, claimed)
  {
  }

  lemma ClaimLeavesOthersInStep(q: Queue, now: nat, until: nat, allowed: set<JobType>, ids: seq<JobId>,
          retried: seq<JobId>)
    requires Lockstep(q, retried) && Claimable(Terminalize(q, now), now, allowed, |ids|, ids)
    ensures var claimed := Claim(q, now, until, ids); var cs := Snapshot(claimed, ids);
      Linked(claimed) && DistinctIds(cs) && Untouched(claimed, cs, 0) && InStepUpTo(claimed, cs, 0, retried)
  {
    var given := Terminalize(q, now);
    TerminalizeKeepsLockstep(q, now, retried);
    var claimed := TakeJobs(given, until, ids);
    ClaimedAreUntouched(given, until, ids);
    SameRowsLinked(given, claimed);
    var cs := Snapshot(claimed, ids);
    forall i | 0 <= i < |claimed.jobs| && !Remains(cs, 0, i) ensures InStep(claimed, i, retried) {
      assert InStep(given, i, retried);
      TakeLeaves(given, until, ids, cs, i, retried);
    }
  }

  /** A call that neither throws nor skips leaves every job in step with its delivery; no failure leaves one SENDING. */
  lemma CallKeepsLockstep(w: World, q: Queue, now: nat, until: nat, allowed: set<JobType>, ids: seq<JobId>,
          retried: seq<JobId>)
    requires Lockstep(q, retried) && Claimable(Terminalize(q, now), now, allowed, |ids|, ids)
    requires var t := Dispatch(w, q, now, until, allowed, ids); !t.thrown && t.skipped == 0
    ensures Lockstep(Dispatch(w, q, now, until, allowed, ids).queue, retried)
  {
    ClaimLeavesOthersInStep(q, now, until, allowed, ids, retried);
    CallKeepsRows(w, q, now, until, allowed, ids);
    SameRowsLinked(q, Dispatch(w, q, now, until, allowed, ids).queue);
    var claimed := Claim(q, now, until, ids);
    var cs := Snapshot(claimed, ids);
    assert cs[..|cs|] == cs;
    LoopInStep(w, claimed, cs, |cs|, DispatchAll(w, claimed, cs), retried);
  }

  // ----- callbacks, each one transaction that checks the job is where it has to be

  function CompleteJob(q: Queue, i: JobId): Queue
    requires i < |q.jobs|
  {
    if q.jobs[i].jobType.CMS_AI_DRAFT? || q.jobs[i].status != JobStatus.RUNNING then q
    else SetJob(MoveDeliveriesOf(q, i, ANY, DeliveryStatus.SENT), i, JobStatus.SUCCEEDED, q.jobs[i].scheduledAt)
  }

  function FailJob(q: Queue, i: JobId, retryable: bool, at: nat): Queue
    requires i < |q.jobs|
  {
    var j := q.jobs[i];
    if j.status != JobStatus.RUNNING then q
    else if retryable && j.attemptCount < j.maxAttempts then
      var moved := MoveDeliveriesOf(q, i, {DeliveryStatus.SENDING}, DeliveryStatus.PENDING);
      SetJob(moved, i, JobStatus.PENDING, Some(at + 1000 * BackoffSeconds(j.attemptCount)))
    else
      var moved := MoveDeliveriesOf(q, i, {DeliveryStatus.SENDING, DeliveryStatus.PENDING}, DeliveryStatus.FAILED);
      SetJob(moved, i, JobStatus.FAILED, j.scheduledAt)
  }

  function CancelJob(q: Queue, i: JobId): Queue
    requires i < |q.jobs|
  {
    if q.jobs[i].status != JobStatus.PENDING then q else SetJob(q, i, JobStatus.CANCELLED, q.jobs[i].scheduledAt)
  }

  /** The result of an AI draft is applied; the content itself is not modelled. */
  function ApplyDraft(q: Queue, i: JobId): Queue
    requires i < |q.jobs|
  {
    if !q.jobs[i].jobType.CMS_AI_DRAFT? || q.jobs[i].status != JobStatus.RUNNING then q
    else SetJob(q, i, JobStatus.SUCCEEDED, q.jobs[i].scheduledAt)
  }

  /** The administrator's retry; deliveries are not touched. */
  function RetryJob(q: Queue, i: JobId, at: nat): Queue
    requires i < |q.jobs|
  {
    if q.jobs[i].status != JobStatus.FAILED then q
    else
      var j := q.jobs[i].(status := JobStatus.PENDING, attemptCount := 0, scheduledAt := Some(at), leaseUntil := None);
      q.(jobs := q.jobs[i := j])
  }

  /** The request for an AI draft: a job without delivery, unless its key is taken. */
  function EnqueueDraft(q: Queue, k: Key, at: nat): Queue {
    if HasJob(q.jobs, k) then q
    else q.(jobs := q.jobs + [Job(CMS_AI_DRAFT, JobStatus.PENDING, k, "", None, 0, DEFAULT_MAX_ATTEMPTS, None, None, at)])
  }

  /** What the callbacks do, each to a job that is where it has to be; any other job they leave alone with its
      deliveries. A completion makes a running job SUCCEEDED and its deliveries SENT; a failure makes it PENDING, for 30,
      120 or 600 seconds later, or FAILED, and takes its deliveries along; a cancellation takes a PENDING job. */
  lemma CallbacksAre(q: Queue, i: JobId, retryable: bool, at: nat, d: DeliveryId)
    requires i < |q.jobs| && d < |q.deliveries|
    ensures var j, x := q.jobs[i], q.deliveries[d]; var t := CompleteJob(q, i);
      var moves := j.status == JobStatus.RUNNING && j.jobType != CMS_AI_DRAFT;
      && t.jobs == (if moves then q.jobs[i := j.(status := JobStatus.SUCCEEDED, leaseUntil := None)] else q.jobs)
      && |t.deliveries| == |q.deliveries|
      && t.deliveries[d] == if moves && x.jobId == Some(i) then x.(status := DeliveryStatus.SENT) else x
    ensures var j, x := q.jobs[i], q.deliveries[d]; var t := FailJob(q, i, retryable, at);
      var again := retryable && j.attemptCount < j.maxAttempts;
      var delay := if j.attemptCount == 1 then 30000 else if j.attemptCount == 2 then 120000 else 600000;
      && t.jobs == (if j.status != JobStatus.RUNNING then q.jobs
                    else if again
                    then q.jobs[i := j.(status := JobStatus.PENDING, leaseUntil := None, scheduledAt := Some(at + delay))]
                    else q.jobs[i := j.(status := JobStatus.FAILED, leaseUntil := None)])
      && |t.deliveries| == |q.deliveries|
      && t.deliveries[d] ==
           if j.status != JobStatus.RUNNING || x.jobId != Some(i) then x
           else if again && x.status == DeliveryStatus.SENDING then x.(status := DeliveryStatus.PENDING)
           else if !again && (x.status == DeliveryStatus.SENDING || x.status == DeliveryStatus.PENDING)
           then x.(status := DeliveryStatus.FAILED) else x
    ensures var j := q.jobs[i];
      CancelJob(q, i) == q.(jobs :=
        if j.status == JobStatus.PENDING then q.jobs[i := j.(status := JobStatus.CANCELLED, leaseUntil := None)] else q.jobs)
    ensures var j := q.jobs[i];
      ApplyDraft(q, i) == q.(jobs :=
        if j.status == JobStatus.RUNNING && j.jobType == CMS_AI_DRAFT
        then q.jobs[i := j.(status := JobStatus.SUCCEEDED, leaseUntil := None)] else q.jobs)
    ensures var j := q.jobs[i];
      RetryJob(q, i, at) == q.(jobs :=
        if j.status == JobStatus.FAILED
        then q.jobs[i := j.(status := JobStatus.PENDING, attemptCount := 0, scheduledAt := Some(at), leaseUntil := None)]
        else q.jobs)
  {
    assert q.deliveries[d].status in ANY by {
      var st := q.deliveries[d].status;
      assert st.PENDING? || st.SENDING? || st.SENT? || st.FAILED?;
    }
  }

  /** A draft that is asked for is due at once, for the first of three attempts, and has no delivery; nothing is asked
      for twice under one key. */
  lemma DraftIsDue(q: Queue, k: Key, at: nat, now: nat, allowed: set<JobType>)
    requires CMS_AI_DRAFT in allowed
    ensures var t := EnqueueDraft(q, k, at);
      && t.deliveries == q.deliveries
      && (if exists j :: j in q.jobs && j.key == k then t.jobs == q.jobs
          else
            && |t.jobs| == |q.jobs| + 1 && t.jobs[..|q.jobs|] == q.jobs
            && var j := t.jobs[|q.jobs|];
               && Due(j, now, allowed) && j.attemptCount == 0 && j.maxAttempts == 3 && j.key == k && j.delivery == None
               && j.jobType == CMS_AI_DRAFT && j.createdAt == at)
  {
    if j :| j in q.jobs && j.key == k {
      var i :| 0 <= i < |q.jobs| && q.jobs[i] == j;
      assert q.jobs[i].key == k;
    }
  }

  lemma MoveOneInStep(q: Queue, i: JobId, from: set<DeliveryStatus>, to: DeliveryStatus, st: JobStatus,
          scheduledAt: Option<nat>, retried: seq<JobId>, t: Queue, k: JobId)
    requires Linked(q) && i < |q.jobs| && k < |q.jobs| && q.jobs[i].status == JobStatus.RUNNING && InStep(q, k, retried)
    requires Matches(st, to) && DeliveryStatus.SENDING in from
    requires t == SetJob(MoveDeliveriesOf(q, i, from, to), i, st, scheduledAt)
    ensures InStep(t, k, retried)
  {
    var d := q.jobs[k].delivery;
    if d.Some? {
      assert q.deliveries[d.value].jobId == Some(k);
      if k == i { assert q.deliveries[d.value].status == DeliveryStatus.SENDING; }
    }
  }

  lemma MoveInStep(q: Queue, i: JobId, from: set<DeliveryStatus>, to: DeliveryStatus, st: JobStatus,
          scheduledAt: Option<nat>, retried: seq<JobId>, t: Queue)
    requires Lockstep(q, retried) && i < |q.jobs| && q.jobs[i].status == JobStatus.RUNNING
    requires Matches(st, to) && DeliveryStatus.SENDING in from
    requires t == SetJob(MoveDeliveriesOf(q, i, from, to), i, st, scheduledAt)
    ensures Lockstep(t, retried)
  {
    SameRowsLinked(q, t);
    forall k | 0 <= k < |t.jobs| ensures InStep(t, k, retried) {
      assert InStep(q, k, retried);
      MoveOneInStep(q, i, from, to, st, scheduledAt, retried, t, k);
    }
  }

  lemma CompleteInStep(q: Queue, i: JobId, retried: seq<JobId>)
    requires Lockstep(q, retried) && i < |q.jobs|
    ensures Lockstep(CompleteJob(q, i), retried)
  {
    var j := q.jobs[i];
    if j.status == JobStatus.RUNNING && !j.jobType.CMS_AI_DRAFT? {
      MoveInStep(q, i, ANY, DeliveryStatus.SENT, JobStatus.SUCCEEDED, j.scheduledAt, retried, CompleteJob(q, i));
    }
  }

  lemma FailInStep(q: Queue, i: JobId, retryable: bool, at: nat, retried: seq<JobId>, t: Queue)
    requires Lockstep(q, retried) && i < |q.jobs| && t == FailJob(q, i, retryable, at)
    ensures Lockstep(t, retried)
  {
    var j := q.jobs[i];
    if j.status == JobStatus.RUNNING {
      if retryable && j.attemptCount < j.maxAttempts {
        MoveInStep(q, i, {DeliveryStatus.SENDING}, DeliveryStatus.PENDING, JobStatus.PENDING,
                   Some(at + 1000 * BackoffSeconds(j.attemptCount)), retried, t);
      } else {
        MoveInStep(q, i, {DeliveryStatus.SENDING, DeliveryStatus.PENDING}, DeliveryStatus.FAILED, JobStatus.FAILED,
                   j.scheduledAt, retried, t);
      }
    }
  }

  lemma CancelInStep(q: Queue, i: JobId, retried: seq<JobId>)
    requires Lockstep(q, retried) && i < |q.jobs|
    ensures Lockstep(CancelJob(q, i), retried)
  {
    var t := CancelJob(q, i);
    SameRowsLinked(q, t);
    forall k | 0 <= k < |t.jobs| ensures InStep(t, k, retried) {
      assert InStep(q, k, retried);
    }
  }

  lemma DraftInStep(q: Queue, i: JobId, retried: seq<JobId>)
    requires Lockstep(q, retried) && i < |q.jobs|
    ensures Lockstep(ApplyDraft(q, i), retried)
  {
    var t := ApplyDraft(q, i);
    SameRowsLinked(q, t);
    forall k | 0 <= k < |t.jobs| ensures InStep(t, k, retried) {
      assert InStep(q, k, retried);
      if k == i && q.jobs[i].jobType.CMS_AI_DRAFT? { assert q.jobs[i].delivery.None?; }
    }
  }

  /** The callbacks find the delivery through its job column, the dispatcher through the payload; since the
      two agree, a callback keeps job and delivery in step as well. */
  lemma CallbacksKeepLockstep(q: Queue, i: JobId, retryable: bool, at: nat, retried: seq<JobId>)
    requires Lockstep(q, retried) && i < |q.jobs|
    ensures Lockstep(CompleteJob(q, i), retried) && Lockstep(FailJob(q, i, retryable, at), retried)
    ensures Lockstep(CancelJob(q, i), retried) && Lockstep(ApplyDraft(q, i), retried)
  {
    CompleteInStep(q, i, retried);
    FailInStep(q, i, retryable, at, retried, FailJob(q, i, retryable, at));
    CancelInStep(q, i, retried);
    DraftInStep(q, i, retried);
  }

  lemma RetryOthers(q: Queue, i: JobId, at: nat, retried: seq<JobId>, late: seq<JobId>, k: JobId)
    requires i < |q.jobs| && k < |q.jobs| && InStep(q, k, retried)
    requires retried <= late && (k == i ==> i in late)
    ensures InStep(RetryJob(q, i, at), k, late)
  {
    if k in retried { assert k in late; }
  }

  /** The administrator's retry of a job whose delivery follows it leaves the delivery behind, FAILED, iff there is
      one to retry; until the next dispatch it is late. */
  lemma RetryKeepsLockstepIff(q: Queue, i: JobId, at: nat, retried: seq<JobId>)
    requires Lockstep(q, retried) && i < |q.jobs|
    ensures Lockstep(RetryJob(q, i, at), retried) <==>
      q.jobs[i].status != JobStatus.FAILED || q.jobs[i].delivery.None? || i in retried
    ensures Lockstep(RetryJob(q, i, at), retried + [i])
  {
    var t := RetryJob(q, i, at);
    SameRowsLinked(q, t);
    assert InStep(q, i, retried);
    forall k | 0 <= k < |t.jobs| ensures InStep(t, k, retried + [i]) && (k != i ==> InStep(t, k, retried)) {
      assert InStep(q, k, retried);
      RetryOthers(q, i, at, retried, retried + [i], k);
      if k != i { RetryOthers(q, i, at, retried, retried, k); }
    }
    if Lockstep(t, retried) { assert InStep(t, i, retried); }
  }

  // ----- serial runs

  datatype Action =
    | EnqueueJob(jobType: JobType, key: Key, recipient: Email, at: nat)
    | RequestDraft(key: Key, at: nat)
    | Call(w: World, now: nat, until: nat, allowed: set<JobType>, ids: seq<JobId>)
    | Complete(i: JobId)
    | CompleteDraft(i: JobId)
    | Fail(i: JobId, retryable: bool, at: nat)
    | Cancel(i: JobId)
    | Retry(i: JobId, at: nat)

  /** History variables: fetches, the jobs whose webhook was called, once per call; retries, the jobs the
      administrator has retried, once per retry. */
  datatype State = State(queue: Queue, fetches: seq<JobId>, retries: seq<JobId>)

  ghost predicate Enabled(s: State, a: Action) {
    match a
    case EnqueueJob(t, _, _, _) => !t.CMS_AI_DRAFT?
    case RequestDraft(_, _) => true
    case Call(_, now, _, allowed, ids) => Claimable(Terminalize(s.queue, now), now, allowed, |ids|, ids)
    case _ => a.i < |s.queue.jobs|
  }

  ghost function Apply(s: State, a: Action): State
    requires Enabled(s, a)
  {
    match a
    case EnqueueJob(t, k, e, at) =>
      var r := Enqueue(s.queue, t, k, e, at); if r.Some? then s.(queue := r.value) else s
    case RequestDraft(k, at) => s.(queue := EnqueueDraft(s.queue, k, at))
    case Call(w, now, until, allowed, ids) =>
      var t := Dispatch(w, s.queue, now, until, allowed, ids); s.(queue := t.queue, fetches := s.fetches + t.fetched)
    case Complete(i) => s.(queue := CompleteJob(s.queue, i))
    case CompleteDraft(i) => s.(queue := ApplyDraft(s.queue, i))
    case Fail(i, retryable, at) => s.(queue := FailJob(s.queue, i, retryable, at))
    case Cancel(i) => s.(queue := CancelJob(s.queue, i))
    case Retry(i, at) =>
      s.(queue := RetryJob(s.queue, i, at), retries := if s.queue.jobs[i].status.FAILED? then s.retries + [i] else s.retries)
  }

  ghost predicate CanRun(s: State, run: seq<Action>)
    decreases |run|
  {
    run == [] || (Enabled(s, run[0]) && CanRun(Apply(s, run[0]), run[1..]))
  }

  ghost function Exec(s: State, run: seq<Action>): State
    requires CanRun(s, run)
    decreases |run|
  {
    if run == [] then s else Exec(Apply(s, run[0]), run[1..])
  }

  ghost predicate Completes(s: State, a: Action)
    requires a.Call? && Enabled(s, a)
  {
    var t := Dispatch(a.w, s.queue, a.now, a.until, a.allowed, a.ids);
    !t.thrown && t.skipped == 0
  }

  /** Every call of a run completes: none throws, none skips a job. */
  ghost predicate CallsComplete(s: State, run: seq<Action>)
    requires CanRun(s, run)
    decreases |run|
  {
    run != [] ==>
      && (run[0].Call? ==> Completes(s, run[0]))
      && CallsComplete(Apply(s, run[0]), run[1..])
  }

  lemma EnqueueKeepsLockstep(q: Queue, t: JobType, k: Key, e: Email, at: nat, retried: seq<JobId>)
    requires Lockstep(q, retried) && !t.CMS_AI_DRAFT? && Enqueue(q, t, k, e, at).Some?
    ensures Lockstep(Enqueue(q, t, k, e, at).value, retried)
  {
    EnqueueKeepsLinked(q, t, k, e, at);
    var r := Enqueue(q, t, k, e, at).value;
    forall i | 0 <= i < |r.jobs| ensures InStep(r, i, retried) {
      if i < |q.jobs| { assert InStep(q, i, retried); }
    }
  }

  lemma DraftsKeepLinked(q: Queue, k: Key, at: nat)
    requires Linked(q)
    ensures Linked(EnqueueDraft(q, k, at))
  {
  }

  lemma DraftKeepsLockstep(q: Queue, k: Key, at: nat, retried: seq<JobId>)
    requires Lockstep(q, retried)
    ensures Lockstep(EnqueueDraft(q, k, at), retried)
  {
    var t := EnqueueDraft(q, k, at);
    DraftsKeepLinked(q, k, at);
    forall i | 0 <= i < |t.jobs| ensures InStep(t, i, retried) {
      if i < |q.jobs| { assert InStep(q, i, retried); }
    }
  }

  lemma StepKeepsLockstep(s: State, a: Action, t: State)
    requires Enabled(s, a) && (a.Call? ==> Completes(s, a)) && Lockstep(s.queue, s.retries) && t == Apply(s, a)
    ensures Lockstep(t.queue, t.retries)
  {
    match a {
      case EnqueueJob(jt, k, e, at) =>
        if Enqueue(s.queue, jt, k, e, at).Some? { EnqueueKeepsLockstep(s.queue, jt, k, e, at, s.retries); }
      case RequestDraft(k, at) => DraftKeepsLockstep(s.queue, k, at, s.retries);
      case Call(w, now, until, allowed, ids) => CallKeepsLockstep(w, s.queue, now, until, allowed, ids, s.retries);
      case Complete(i) => CompleteInStep(s.queue, i, s.retries);
      case CompleteDraft(i) => DraftInStep(s.queue, i, s.retries);
      case Fail(i, retryable, at) => FailInStep(s.queue, i, retryable, at, s.retries, t.queue);
      case Cancel(i) => CancelInStep(s.queue, i, s.retries);
      case Retry(i, at) => RetryKeepsLockstepIff(s.queue, i, at, s.retries);
    }
  }

  /** Between completed calls, with callbacks, drafts and retries only between calls, every job and its delivery are
      in step, except that a retried job may be ahead of its FAILED delivery. */
  lemma {:induction false} RunKeepsLockstep(s: State, run: seq<Action>)
    requires CanRun(s, run) && CallsComplete(s, run) && Lockstep(s.queue, s.retries)
    ensures var t := Exec(s, run); Lockstep(t.queue, t.retries)
    decreases |run|
  {
    if run != [] {
      StepKeepsLockstep(s, run[0], Apply(s, run[0]));
      RunKeepsLockstep(Apply(s, run[0]), run[1..]);
    }
  }

  /** One job and its delivery, after so many attempts. */
  function OneJob(st: JobStatus, attempts: nat, scheduledAt: Option<nat>, lease: Option<nat>, d: DeliveryStatus): Queue {
    Queue([Job(ORDER_PAID_EMAIL, st, OtherKey(1), "a", Some(0), attempts, 3, scheduledAt, lease, 0)],
          [Delivery(OtherKey(1), "a", d, Some(0))])
  }

  const REFUSING := World(t => Send, n => No, n => 0)

  /** A call of the webhook that is refused for good. */
  lemma CallIsRefused(q: Queue, t: Tally)
    requires q == OneJob(JobStatus.PENDING, 0, None, None, DeliveryStatus.PENDING)
    ensures Claimable(Terminalize(q, 0), 0, {ORDER_PAID_EMAIL}, 1, [0])
    ensures t == Dispatch(REFUSING, q, 0, 300000, {ORDER_PAID_EMAIL}, [0]) ==>
      !t.thrown && t.skipped == 0 && t.queue == OneJob(JobStatus.FAILED, 1, None, None, DeliveryStatus.FAILED)
  {
    assert Terminalize(q, 0) == q;
    var claimed := Claim(q, 0, 300000, [0]);
    var cs := Snapshot(claimed, [0]);
    assert cs[..0] == [] && |cs| == 1;
    assert DispatchAll(REFUSING, claimed, cs[..0]) == Tally(claimed, 0, 0, 0, 0, false, []);
  }

  lemma RetryIsBehind(q: Queue)
    requires q == OneJob(JobStatus.FAILED, 1, None, None, DeliveryStatus.FAILED)
    ensures RetryJob(q, 0, 0) == OneJob(JobStatus.PENDING, 0, Some(0), None, DeliveryStatus.FAILED)
    ensures !Lockstep(RetryJob(q, 0, 0), [])
  {
    assert !InStep(RetryJob(q, 0, 0), 0, []);
  }

  lemma ThreeSteps(s: State, a: Action, b: Action, c: Action)
    requires Enabled(s, a) && Enabled(Apply(s, a), b) && Enabled(Apply(Apply(s, a), b), c)
    requires !a.Call? && !c.Call? && (b.Call? ==> Completes(Apply(s, a), b))
    ensures CanRun(s, [a, b, c]) && CallsComplete(s, [a, b, c])
    ensures Exec(s, [a, b, c]) == Apply(Apply(Apply(s, a), b), c)
  {
    var s1, run := Apply(s, a), [a, b, c];
    var s2 := Apply(s1, b);
    var s3 := Apply(s2, c);
    assert run[1..] == [b, c] && [b, c][1..] == [c] && [c][1..] == [];
    assert CanRun(s3, []) && Exec(s3, []) == s3 && CallsComplete(s3, []);
    assert CanRun(s2, [c]) && Exec(s2, [c]) == s3 && CallsComplete(s2, [c]);
    assert CanRun(s1, [b, c]) && Exec(s1, [b, c]) == s3 && CallsComplete(s1, [b, c]);
  }

  /** At an explicit run from an empty queue: a job is sent and refused, the administrator retries it, and its delivery
      is left FAILED beside the PENDING job. */
  lemma RetryLeavesDeliveryBehind(s: State, run: seq<Action>)
    requires s == State(Queue([], []), [], [])
    requires run ==
      [EnqueueJob(ORDER_PAID_EMAIL, OtherKey(1), "a", 0), Call(REFUSING, 0, 300000, {ORDER_PAID_EMAIL}, [0]), Retry(0, 0)]
    ensures CanRun(s, run) && CallsComplete(s, run)
    ensures Exec(s, run).queue == OneJob(JobStatus.PENDING, 0, Some(0), None, DeliveryStatus.FAILED)
    ensures !Lockstep(Exec(s, run).queue, [])
  {
    var q := OneJob(JobStatus.PENDING, 0, None, None, DeliveryStatus.PENDING);
    var s1 := Apply(s, run[0]);
    assert s1.queue == q;
    CallIsRefused(q, Dispatch(REFUSING, q, 0, 300000, {ORDER_PAID_EMAIL}, [0]));
    var s2 := Apply(s1, run[1]);
    RetryIsBehind(s2.queue);
    ThreeSteps(s, run[0], run[1], run[2]);
  }

  // ----- two ways to a delivery

  lemma CompleteKeepsRows(q: Queue, i: JobId)
    requires i < |q.jobs|
    ensures SameRows(q, CompleteJob(q, i)) && SameRows(q, ApplyDraft(q, i)) && SameRows(q, CancelJob(q, i))
  {
  }

  lemma FailKeepsRows(q: Queue, i: JobId, retryable: bool, at: nat)
    requires i < |q.jobs|
    ensures SameRows(q, FailJob(q, i, retryable, at)) && SameRows(q, RetryJob(q, i, at))
  {
  }

  lemma StepKeepsLinked(s: State, a: Action, t: State)
    requires Enabled(s, a) && Linked(s.queue) && t == Apply(s, a)
    ensures Linked(t.queue)
  {
    match a {
      case EnqueueJob(jt, k, e, at) =>
        if Enqueue(s.queue, jt, k, e, at).Some? { EnqueueKeepsLinked(s.queue, jt, k, e, at); }
      case RequestDraft(k, at) => DraftsKeepLinked(s.queue, k, at);
      case Call(w, now, until, allowed, ids) =>
        CallKeepsRows(w, s.queue, now, until, allowed, ids);
        SameRowsLinked(s.queue, t.queue);
      case Fail(i, retryable, at) =>
        FailKeepsRows(s.queue, i, retryable, at);
        SameRowsLinked(s.queue, t.queue);
      case Retry(i, at) =>
        FailKeepsRows(s.queue, i, false, at);
        SameRowsLinked(s.queue, t.queue);
      case _ =>
        CompleteKeepsRows(s.queue, a.i);
        SameRowsLinked(s.queue, t.queue);
    }
  }

  lemma {:induction false} RunKeepsLinked(s: State, run: seq<Action>)
    requires CanRun(s, run) && Linked(s.queue)
    ensures Linked(Exec(s, run).queue)
    decreases |run|
  {
    if run != [] {
      StepKeepsLinked(s, run[0], Apply(s, run[0]));
      RunKeepsLinked(Apply(s, run[0]), run[1..]);
    }
  }

  lemma PathsAgree(q: Queue, i: JobId, to: DeliveryStatus)
    requires Linked(q) && i < |q.jobs|
    ensures SetDelivery(q, q.jobs[i].delivery, to) == MoveDeliveriesOf(q, i, ANY, to)
  {
    var a, b := SetDelivery(q, q.jobs[i].delivery, to).deliveries, MoveDeliveriesOf(q, i, ANY, to).deliveries;
    forall d | 0 <= d < |q.deliveries| ensures a[d] == b[d] {
      var st := q.deliveries[d].status;
      assert st.PENDING? || st.SENDING? || st.SENT? || st.FAILED?;
    }
    assert a == b;
  }

  /** In every queue the system reaches, thrown calls included, the dispatcher's way to a job's delivery, through the
      payload, and the callbacks' way, through the job column, move the same rows. */
  lemma SettlementPathsAgree(run: seq<Action>, i: JobId, to: DeliveryStatus, q: Queue)
    requires CanRun(State(Queue([], []), [], []), run) && q == Exec(State(Queue([], []), [], []), run).queue
    requires i < |q.jobs|
    ensures SetDelivery(q, q.jobs[i].delivery, to) == MoveDeliveriesOf(q, i, ANY, to)
  {
    RunKeepsLinked(State(Queue([], []), [], []), run);
    PathsAgree(q, i, to);
  }

  // ----- bounded attempts

  ghost function Count(ids: seq<JobId>, i: JobId): nat {
    if ids == [] then 0 else Count(ids[..|ids| - 1], i) + if ids[|ids| - 1] == i then 1 else 0
  }

  lemma {:induction false} CountConcat(a: seq<JobId>, b: seq<JobId>, i: JobId)
    ensures Count(a + b, i) == Count(a, i) + Count(b, i)
  {
    if b == [] {
      assert a + b == a;
    } else {
      CountConcat(a, b[..|b| - 1], i);
      assert (a + b)[..|a + b| - 1] == a + b[..|b| - 1];
    }
  }

  lemma {:induction false} CountDistinct(ids: seq<JobId>, i: JobId)
    requires forall j, k :: 0 <= j < k < |ids| ==> ids[j] != ids[k]
    ensures Count(ids, i) == if i in ids then 1 else 0
  {
    if ids != [] {
      var n := |ids| - 1;
      CountDistinct(ids[..n], i);
      assert ids == ids[..n] + [ids[n]];
    }
  }

  lemma FetchedOnceMore(t: Tally, id: JobId, step: Step, i: JobId)
    ensures Count(After(t, id, step).fetched, i) <= Count(t.fetched, i) + if id == i then 1 else 0
  {
    assert (t.fetched + [id])[..|t.fetched|] == t.fetched;
  }

  lemma {:induction false} FetchedAtMostOnceEach(w: World, q: Queue, cs: seq<Claimed>, ids: seq<JobId>, i: JobId)
    requires |cs| == |ids| && forall k :: 0 <= k < |cs| ==> cs[k].id == ids[k] < |q.jobs|
    ensures Count(DispatchAll(w, q, cs).fetched, i) <= Count(ids, i)
  {
    if cs != [] {
      var n := |cs| - 1;
      FetchedAtMostOnceEach(w, q, cs[..n], ids[..n], i);
      var t := DispatchAll(w, q, cs[..n]);
      var step := DispatchOne(w.plan(cs[n].jobType), t.queue, cs[n], w.answers(n), w.at(n));
      OneMoreJob(w, q, cs, n, t, step);
      assert cs[..n + 1] == cs;
      FetchedOnceMore(t, cs[n].id, step, i);
    }
  }

  ghost predicate SameAttempts(q: Queue, t: Queue) {
    |q.jobs| == |t.jobs| &&
    forall i :: 0 <= i < |q.jobs| ==>
      t.jobs[i].attemptCount == q.jobs[i].attemptCount && t.jobs[i].maxAttempts == q.jobs[i].maxAttempts
  }

  lemma {:induction false} LoopKeepsAttempts(w: World, q: Queue, cs: seq<Claimed>)
    requires forall k :: 0 <= k < |cs| ==> cs[k].id < |q.jobs|
    ensures SameAttempts(q, DispatchAll(w, q, cs).queue)
  {
    if cs != [] {
      var n := |cs| - 1;
      LoopKeepsAttempts(w, q, cs[..n]);
      var t := DispatchAll(w, q, cs[..n]);
      OneKeepsRows(w.plan(cs[n].jobType), t.queue, cs[n], w.answers(n), w.at(n));
    }
  }

  /** Every webhook call of a job is paid for by an attempt of the present life of the job or of one the administrator
      ended by a retry; a life has at most maxAttempts. */
  ghost predicate Paid(s: State, i: JobId) {
    if i < |s.queue.jobs| then
      var j := s.queue.jobs[i];
      Count(s.fetches, i) <= Count(s.retries, i) * j.maxAttempts + j.attemptCount && j.attemptCount <= j.maxAttempts
    else Count(s.fetches, i) == 0 && Count(s.retries, i) == 0
  }

  lemma CallIsPaid(s: State, w: World, now: nat, until: nat, allowed: set<JobType>, ids: seq<JobId>, i: JobId)
    requires Claimable(Terminalize(s.queue, now), now, allowed, |ids|, ids) && Paid(s, i)
    ensures Paid(Apply(s, Call(w, now, until, allowed, ids)), i)
  {
    var claimed := Claim(s.queue, now, until, ids);
    var cs := Snapshot(claimed, ids);
    LoopKeepsAttempts(w, claimed, cs);
    FetchedAtMostOnceEach(w, claimed, cs, ids, i);
    CountDistinct(ids, i);
    CountConcat(s.fetches, DispatchAll(w, claimed, cs).fetched, i);
    if i in ids {
      var k :| 0 <= k < |ids| && ids[k] == i;
      assert Due(Terminalize(s.queue, now).jobs[ids[k]], now, allowed);
    }
  }

  lemma RetryIsPaid(s: State, i: JobId, at: nat, k: JobId)
    requires i < |s.queue.jobs| && Paid(s, k)
    ensures Paid(Apply(s, Retry(i, at)), k)
  {
    assert (s.retries + [i])[..|s.retries|] == s.retries;
    if i == k && s.queue.jobs[i].status.FAILED? {
      var m := s.queue.jobs[i].maxAttempts;
      assert (Count(s.retries, k) + 1) * m == Count(s.retries, k) * m + m;
    }
  }

  /** Over any serial run, throwing calls included, a job's webhook is called at most maxAttempts times, and as often
      again for each retry of the administrator. */
  lemma {:induction false} DispatchesAreBounded(s: State, run: seq<Action>, i: JobId)
    requires CanRun(s, run) && Paid(s, i)
    ensures Paid(Exec(s, run), i)
    decreases |run|
  {
    if run != [] {
      var a := run[0];
      if a.Call? {
        CallIsPaid(s, a.w, a.now, a.until, a.allowed, a.ids, i);
      } else if a.Retry? {
        RetryIsPaid(s, a.i, a.at, i);
      }
      DispatchesAreBounded(Apply(s, a), run[1..], i);
    }
  }
}
