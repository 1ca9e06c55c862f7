/** The automation queue: jobs, the deliveries they belong to, and the transaction that creates both. */
module Automation {
  import opened Wrappers

  type Email = string
  type JobId = nat
  type DeliveryId = nat

  datatype JobType =
    | CMS_AI_DRAFT | ORDER_PAID_EMAIL | LICENSE_PROVISIONED_EMAIL | EXTERNAL_ALLOCATION_EMAIL | SERVICE_INQUIRY_NOTIFY_EMAIL

  datatype JobStatus = PENDING | RUNNING | SUCCEEDED | FAILED | CANCELLED

  datatype DeliveryStatus = PENDING | SENDING | SENT | FAILED

  /** Idempotency keys: of an inquiry and the hash of a mailbox, or of anything else. */
  datatype Key = InquiryKey(inquiry: nat, mailbox: nat) | OtherKey(id: nat)

  /** delivery and recipient are fields of the payload; ids are positions in the tables. */
  datatype Job = Job(
    jobType: JobType,
    status: JobStatus,
    key: Key,
    recipient: Email,
    delivery: Option<DeliveryId>,
    attemptCount: nat,
    maxAttempts: nat,
    scheduledAt: Option<nat>,
    leaseUntil: Option<nat>,
    createdAt: nat
  )

  datatype Delivery = Delivery(key: Key, recipient: Email, status: DeliveryStatus, jobId: Option<JobId>)

  datatype Queue = Queue(jobs: seq<Job>, deliveries: seq<Delivery>)

  const DEFAULT_MAX_ATTEMPTS := 3

  predicate HasJob(jobs: seq<Job>, k: Key) {
    exists i :: 0 <= i < |jobs| && jobs[i].key == k
  }

  predicate HasDelivery(deliveries: seq<Delivery>, k: Key) {
    exists i :: 0 <= i < |deliveries| && deliveries[i].key == k
  }

  /** Create a delivery and its job and link them; None when a unique key rolls all of it back. */
  function Enqueue(q: Queue, t: JobType, k: Key, e: Email, at: nat): Option<Queue> {
    if HasJob(q.jobs, k) || HasDelivery(q.deliveries, k) then None
    else
      var job := Job(t, JobStatus.PENDING, k, e, Some(|q.deliveries|), 0, DEFAULT_MAX_ATTEMPTS, None, None, at);
      Some(Queue(q.jobs + [job], q.deliveries + [Delivery(k, e, DeliveryStatus.PENDING, Some(|q.jobs|))]))
  }

  /** It is rolled back exactly when a job or a delivery has the key. */
  lemma EnqueueIff(q: Queue, t: JobType, k: Key, e: Email, at: nat)
    ensures Enqueue(q, t, k, e, at).None? <==> (exists j :: j in q.jobs && j.key == k) || (exists d :: d in q.deliveries && d.key == k)
  {
    if j :| j in q.jobs && j.key == k {
      var i :| 0 <= i < |q.jobs| && q.jobs[i] == j;
      assert q.jobs[i].key == k;
    }
    if d :| d in q.deliveries && d.key == k {
      var i :| 0 <= i < |q.deliveries| && q.deliveries[i] == d;
      assert q.deliveries[i].key == k;
    }
  }

  /** A job's payload and its delivery's column point at each other, for the same key and mailbox. */
  ghost predicate Linked(q: Queue) {
    && (forall i :: 0 <= i < |q.jobs| && q.jobs[i].delivery.Some? ==>
         var d := q.jobs[i].delivery.value;
         && d < |q.deliveries| && q.deliveries[d].jobId == Some(i)
         && q.deliveries[d].key == q.jobs[i].key && q.deliveries[d].recipient == q.jobs[i].recipient)
    && (forall d :: 0 <= d < |q.deliveries| && q.deliveries[d].jobId.Some? ==>
         var i := q.deliveries[d].jobId.value; i < |q.jobs| && q.jobs[i].delivery == Some(d))
    && (forall i :: 0 <= i < |q.jobs| && q.jobs[i].jobType.SERVICE_INQUIRY_NOTIFY_EMAIL? ==> q.jobs[i].delivery.Some?)
    && (forall i, j :: 0 <= i < j < |q.jobs| ==> q.jobs[i].key != q.jobs[j].key)
  }

  /** The transaction keeps both sides of the link. */
  lemma EnqueueKeepsLinked(q: Queue, t: JobType, k: Key, e: Email, at: nat)
    requires Linked(q) && Enqueue(q, t, k, e, at).Some?
    ensures Linked(Enqueue(q, t, k, e, at).value)
  {
  }
}
