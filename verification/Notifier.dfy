/** The handler of SERVICE_INQUIRY_CREATED: in-app notices, email jobs under an hourly cap, one audit row. */
module Notifier {
  import opened Wrappers
  import opened Automation
  import opened NotifierConfig

  type InquiryId = nat
  type UserId = nat

  const HOUR_MS := 3600000
  datatype Notice = Notice(user: UserId, inquiry: InquiryId)

  datatype Db = Db(notices: seq<Notice>, queue: Queue, audits: seq<InquiryId>)

  // ----- in-app notices

  /** The staff with no notice of this inquiry yet. */
  function Targets(notices: seq<Notice>, staff: seq<UserId>, x: InquiryId): seq<UserId> {
    if staff == [] then []
    else
      var u := staff[|staff| - 1];
      Targets(notices, staff[..|staff| - 1], x) + if Notice(u, x) in notices then [] else [u]
  }

  /** createMany: all rows or none. */
  function AddNotices(notices: seq<Notice>, targets: seq<UserId>, x: InquiryId): seq<Notice> {
    notices + seq(|targets|, i requires 0 <= i < |targets| => Notice(targets[i], x))
  }

  // ----- email jobs

  /** Email jobs of inquiries created at or after a moment. */
  function Recent(jobs: seq<Job>, since: int): nat {
    if jobs == [] then 0
    else
      var j := jobs[|jobs| - 1];
      Recent(jobs[..|jobs| - 1], since) + if j.jobType.SERVICE_INQUIRY_NOTIFY_EMAIL? && j.createdAt >= since then 1 else 0
  }

  /** How many jobs the cap still allows after the jobs of the last hour. */
  function Budget(q: Queue, cap: nat, now: nat): int {
    cap - Recent(q.jobs, now - HOUR_MS)
  }

  /** The email jobs of inquiries created in the hour before. */
  ghost function LastHour(q: Queue, now: nat): set<JobId> {
    set i: JobId | i < |q.jobs| && q.jobs[i].jobType == SERVICE_INQUIRY_NOTIFY_EMAIL && q.jobs[i].createdAt >= now - 3600000
  }

  lemma {:induction false} RecentIs(jobs: seq<Job>, now: nat)
    ensures Recent(jobs, now - 3600000) == |LastHour(Queue(jobs, []), now)|
  {
    if jobs != [] {
      var n := |jobs| - 1;
      RecentIs(jobs[..n], now);
      var x, y := LastHour(Queue(jobs[..n], []), now), LastHour(Queue(jobs, []), now);
      assert y == if jobs[n].jobType == SERVICE_INQUIRY_NOTIFY_EMAIL && jobs[n].createdAt >= now - 3600000 then x + {n} else x;
    }
  }

  /** The cap allows as many more jobs as it exceeds the jobs of the last hour. */
  lemma BudgetIs(q: Queue, cap: nat, now: nat)
    ensures Budget(q, cap, now) == cap - |LastHour(q, now)|
  {
    RecentIs(q.jobs, now);
    assert LastHour(Queue(q.jobs, []), now) == LastHour(q, now);
  }

  datatype Progress = Progress(queue: Queue, budget: int, queued: nat, suppressed: bool)

  /** One mailbox; at is the creation time if a job is created. */
  function EmailStep(p: Progress, x: InquiryId, e: Email, hash: Email -> nat, at: nat): Progress {
    var k := InquiryKey(x, hash(e));
    if HasJob(p.queue.jobs, k) then p
    else if p.budget <= 0 then p.(suppressed := true)
    else
      match Enqueue(p.queue, SERVICE_INQUIRY_NOTIFY_EMAIL, k, e, at)
      case None => p
      case Some(t) => Progress(t, p.budget - 1, p.queued + 1, p.suppressed)
  }

  /** The loop, over mailboxes created at the times at(0), at(1), ... */
  ghost function EmailLoop(q: Queue, cap: nat, x: InquiryId, emails: seq<Email>, hash: Email -> nat, now: nat,
          at: nat -> nat): Progress {
    if emails == [] then Progress(q, Budget(q, cap, now), 0, false)
    else
      var n := |emails| - 1;
      EmailStep(EmailLoop(q, cap, x, emails[..n], hash, now, at), x, emails[n], hash, at(n))
  }

  // ----- calls

  /** Where a call stops, by a crash or by a statement that throws. */
  datatype Cut = BeforeNotices | AfterEmails(n: nat) | Uncut

  datatype Call = Call(inquiry: InquiryId, cfg: Config, staff: seq<UserId>, now: nat, at: nat -> nat, cut: Cut)

  function Mailboxes(c: Call): seq<Email> {
    if c.cut.AfterEmails? then Take(c.cfg.emails, c.cut.n) else c.cfg.emails
  }

  ghost function Notify(db: Db, inquiries: set<InquiryId>, hash: Email -> nat, c: Call): Db {
    if c.inquiry !in inquiries || c.cut.BeforeNotices? then db
    else
      var notices := AddNotices(db.notices, Targets(db.notices, Take(c.staff, c.cfg.maxStaff), c.inquiry), c.inquiry);
      var p := EmailLoop(db.queue, c.cfg.hourlyEmailCap, c.inquiry, Mailboxes(c), hash, c.now, c.at);
      Db(notices, p.queue, if c.cut.Uncut? && c.inquiry !in db.audits then db.audits + [c.inquiry] else db.audits)
  }

  // ----- serial runs

  /** Elsewhere: the rest of the system changed the queue. */
  datatype Action = Run(call: Call) | Elsewhere(queue: Queue)

  ghost predicate SameKey(i: Job, j: Job) {
    i.jobType == j.jobType && i.key == j.key && i.recipient == j.recipient && i.delivery == j.delivery && i.createdAt == j.createdAt
  }

  /** Nobody else creates, removes or renames inquiry jobs and their deliveries, or breaks a link. */
  ghost predicate Extends(q: Queue, t: Queue) {
    && (Linked(q) ==> Linked(t))
    && |q.jobs| <= |t.jobs| && |q.deliveries| <= |t.deliveries|
    && (forall i :: 0 <= i < |q.jobs| ==> SameKey(q.jobs[i], t.jobs[i]))
    && (forall i :: |q.jobs| <= i < |t.jobs| ==> t.jobs[i].key.OtherKey? && !t.jobs[i].jobType.SERVICE_INQUIRY_NOTIFY_EMAIL?)
    && (forall d :: 0 <= d < |q.deliveries| ==>
         q.deliveries[d].key == t.deliveries[d].key && q.deliveries[d].jobId == t.deliveries[d].jobId)
    && (forall d :: |q.deliveries| <= d < |t.deliveries| ==> t.deliveries[d].key.OtherKey?)
  }

  /** Jobs of a call are created no earlier than it read the clock. */
  ghost predicate Enabled(db: Db, a: Action) {
    match a
    case Run(c) => forall n :: c.at(n) >= c.now
    case Elsewhere(q) => Extends(db.queue, q)
  }

  ghost function Apply(db: Db, inquiries: set<InquiryId>, hash: Email -> nat, a: Action): Db {
    match a
    case Run(c) => Notify(db, inquiries, hash, c)
    case Elsewhere(q) => db.(queue := q)
  }

  ghost predicate CanRun(db: Db, inquiries: set<InquiryId>, hash: Email -> nat, run: seq<Action>)
    decreases |run|
  {
    run == [] || (Enabled(db, run[0]) && CanRun(Apply(db, inquiries, hash, run[0]), inquiries, hash, run[1..]))
  }

  ghost function Exec(db: Db, inquiries: set<InquiryId>, hash: Email -> nat, run: seq<Action>): Db
    decreases |run|
  {
    if run == [] then db else Exec(Apply(db, inquiries, hash, run[0]), inquiries, hash, run[1..])
  }

  // ----- the sliding window

  /** Email jobs of inquiries created in the closed hour that starts at lo. */
  ghost function InWindow(jobs: seq<Job>, lo: int): nat {
    if jobs == [] then 0
    else
      var j := jobs[|jobs| - 1];
      InWindow(jobs[..|jobs| - 1], lo) + if j.jobType.SERVICE_INQUIRY_NOTIFY_EMAIL? && lo <= j.createdAt <= lo + 3600000 then 1 else 0
  }

  ghost predicate UnderCap(jobs: seq<Job>, cap: nat) {
    forall lo: int :: InWindow(jobs, lo) <= cap
  }

  lemma CountsSnoc(jobs: seq<Job>, j: Job, lo: int)
    ensures Recent(jobs + [j], lo) == Recent(jobs, lo) + if j.jobType.SERVICE_INQUIRY_NOTIFY_EMAIL? && j.createdAt >= lo then 1 else 0
    ensures InWindow(jobs + [j], lo) == InWindow(jobs, lo) +
      if j.jobType.SERVICE_INQUIRY_NOTIFY_EMAIL? && lo <= j.createdAt <= lo + 3600000 then 1 else 0
  {
    assert (jobs + [j])[..|jobs|] == jobs;
  }

  lemma {:induction false} WindowWithinRecent(jobs: seq<Job>, lo: int, since: int)
    requires since <= lo
    ensures InWindow(jobs, lo) <= Recent(jobs, since)
  {
    if jobs != [] { WindowWithinRecent(jobs[..|jobs| - 1], lo, since); }
  }

  lemma {:induction false} WindowOfExtension(x: seq<Job>, y: seq<Job>, lo: int)
    requires |x| <= |y| && forall i :: 0 <= i < |x| ==> SameKey(x[i], y[i])
    requires forall i :: |x| <= i < |y| ==> !y[i].jobType.SERVICE_INQUIRY_NOTIFY_EMAIL?
    ensures InWindow(y, lo) == InWindow(x, lo)
  {
    if |x| < |y| {
      WindowOfExtension(x, y[..|y| - 1], lo);
    } else if x != [] {
      WindowOfExtension(x[..|x| - 1], y[..|y| - 1], lo);
    }
  }

  /** A job created while the hour before now holds fewer than cap jobs keeps the hour that starts at lo under the cap. */
  lemma OneMoreUnderCap(jobs: seq<Job>, j: Job, cap: nat, now: nat, lo: int)
    requires InWindow(jobs, lo) <= cap && Recent(jobs, now - 3600000) < cap && j.createdAt >= now
    ensures InWindow(jobs + [j], lo) <= cap
  {
    CountsSnoc(jobs, j, lo);
    if lo <= j.createdAt <= lo + 3600000 { WindowWithinRecent(jobs, lo, now - 3600000); }
  }

  lemma StepUnderCap(p: Progress, x: InquiryId, e: Email, hash: Email -> nat, at: nat, cap: nat, now: nat, lo: int, r: Progress)
    requires InWindow(p.queue.jobs, lo) <= cap && p.budget == Budget(p.queue, cap, now) && at >= now
    requires r == EmailStep(p, x, e, hash, at)
    ensures InWindow(r.queue.jobs, lo) <= cap && r.budget == Budget(r.queue, cap, now)
  {
    if r.queue != p.queue {
      var j := r.queue.jobs[|p.queue.jobs|];
      assert r.queue.jobs == p.queue.jobs + [j];
      OneMoreUnderCap(p.queue.jobs, j, cap, now, lo);
      CountsSnoc(p.queue.jobs, j, now - 3600000);
    }
  }

  lemma {:induction false} LoopUnderCap(q: Queue, cap: nat, x: InquiryId, emails: seq<Email>, hash: Email -> nat,
        now: nat, at: nat -> nat, lo: int)
    requires InWindow(q.jobs, lo) <= cap && forall n :: at(n) >= now
    ensures var p := EmailLoop(q, cap, x, emails, hash, now, at);
      InWindow(p.queue.jobs, lo) <= cap && p.budget == Budget(p.queue, cap, now)
  {
    if emails != [] {
      var n := |emails| - 1;
      LoopUnderCap(q, cap, x, emails[..n], hash, now, at, lo);
      var p := EmailLoop(q, cap, x, emails[..n], hash, now, at);
      StepUnderCap(p, x, emails[n], hash, at(n), cap, now, lo, EmailStep(p, x, emails[n], hash, at(n)));
    }
  }

  /** One hour of a serial run. */
  lemma {:induction false} WindowOfRun(db: Db, inquiries: set<InquiryId>, hash: Email -> nat, run: seq<Action>, cap: nat, lo: int)
    requires CanRun(db, inquiries, hash, run) && InWindow(db.queue.jobs, lo) <= cap
    requires forall i :: 0 <= i < |run| && run[i].Run? ==> run[i].call.cfg.hourlyEmailCap == cap
    ensures InWindow(Exec(db, inquiries, hash, run).queue.jobs, lo) <= cap
    decreases |run|
  {
    if run != [] {
      var t := Apply(db, inquiries, hash, run[0]);
      match run[0] {
        case Run(c) =>
          if t.queue != db.queue { LoopUnderCap(db.queue, cap, c.inquiry, Mailboxes(c), hash, c.now, c.at, lo); }
        case Elsewhere(q) => WindowOfExtension(db.queue.jobs, q.jobs, lo);
      }
      WindowOfRun(t, inquiries, hash, run[1..], cap, lo);
    }
  }

  /** The cap holds in every closed hour of every serial run, whatever is cut where, not only in the hour
      before a call. Only the cap has to stay the same. */
  lemma SlidingWindow(db: Db, inquiries: set<InquiryId>, hash: Email -> nat, run: seq<Action>, cap: nat)
    requires CanRun(db, inquiries, hash, run) && UnderCap(db.queue.jobs, cap)
    requires forall i :: 0 <= i < |run| && run[i].Run? ==> run[i].call.cfg.hourlyEmailCap == cap
    ensures UnderCap(Exec(db, inquiries, hash, run).queue.jobs, cap)
  {
    forall lo: int ensures InWindow(Exec(db, inquiries, hash, run).queue.jobs, lo) <= cap {
      WindowOfRun(db, inquiries, hash, run, cap, lo);
    }
  }

  // ----- one inquiry's notices, jobs and audit rows

  ghost function NoticesOf(notices: seq<Notice>, x: InquiryId): seq<UserId> {
    if notices == [] then []
    else
      var n := notices[|notices| - 1];
      NoticesOf(notices[..|notices| - 1], x) + if n.inquiry == x then [n.user] else []
  }

  /** The mailboxes of an inquiry's jobs, oldest first. */
  ghost function Mine(jobs: seq<Job>, x: InquiryId): seq<Email> {
    if jobs == [] then []
    else
      var j := jobs[|jobs| - 1];
      Mine(jobs[..|jobs| - 1], x) + if j.key.InquiryKey? && j.key.inquiry == x then [j.recipient] else []
  }

  ghost function AuditsOf(audits: seq<InquiryId>, x: InquiryId): nat {
    if audits == [] then 0
    else AuditsOf(audits[..|audits| - 1], x) + if audits[|audits| - 1] == x then 1 else 0
  }

  ghost predicate InjectiveOn(hash: Email -> nat, emails: seq<Email>) {
    forall i, j :: 0 <= i < j < |emails| ==> hash(emails[i]) != hash(emails[j])
  }

  lemma {:induction false} InNoticesOf(notices: seq<Notice>, x: InquiryId, u: UserId)
    ensures u in NoticesOf(notices, x) <==> Notice(u, x) in notices
  {
    if notices != [] {
      InNoticesOf(notices[..|notices| - 1], x, u);
      assert notices == notices[..|notices| - 1] + [notices[|notices| - 1]];
    }
  }

  lemma {:induction false} InAudits(audits: seq<InquiryId>, x: InquiryId)
    ensures AuditsOf(audits, x) > 0 <==> x in audits
  {
    if audits != [] {
      InAudits(audits[..|audits| - 1], x);
      assert audits == audits[..|audits| - 1] + [audits[|audits| - 1]];
    }
  }

  lemma {:induction false} NoticesOfAdded(notices: seq<Notice>, targets: seq<UserId>, x: InquiryId, y: InquiryId)
    ensures NoticesOf(AddNotices(notices, targets, x), y) == NoticesOf(notices, y) + if x == y then targets else []
  {
    var t := AddNotices(notices, targets, x);
    if targets == [] {
      assert t == notices;
    } else {
      var n := |targets| - 1;
      NoticesOfAdded(notices, targets[..n], x, y);
      assert t[..|t| - 1] == AddNotices(notices, targets[..n], x);
      assert targets == targets[..n] + [targets[n]];
    }
  }

  lemma {:induction false} AllTargets(notices: seq<Notice>, staff: seq<UserId>, x: InquiryId)
    requires NoticesOf(notices, x) == []
    ensures Targets(notices, staff, x) == staff
  {
    if staff != [] {
      var n := |staff| - 1;
      AllTargets(notices, staff[..n], x);
      InNoticesOf(notices, x, staff[n]);
      assert staff == staff[..n] + [staff[n]];
    }
  }

  lemma {:induction false} NoTargets(notices: seq<Notice>, staff: seq<UserId>, x: InquiryId)
    requires forall i :: 0 <= i < |staff| ==> staff[i] in NoticesOf(notices, x)
    ensures Targets(notices, staff, x) == []
  {
    if staff != [] {
      var n := |staff| - 1;
      NoTargets(notices, staff[..n], x);
      InNoticesOf(notices, x, staff[n]);
    }
  }

  /** A call notifies everybody once: it adds the whole staff to an inquiry without notices, and nobody to
      one with all of them. */
  lemma NoticesOnce(notices: seq<Notice>, staff: seq<UserId>, x: InquiryId)
    requires NoticesOf(notices, x) == [] || NoticesOf(notices, x) == staff
    ensures NoticesOf(AddNotices(notices, Targets(notices, staff, x), x), x) == staff
  {
    if NoticesOf(notices, x) == [] { AllTargets(notices, staff, x); } else { NoTargets(notices, staff, x); }
    NoticesOfAdded(notices, Targets(notices, staff, x), x, x);
  }

  // ----- the email loop resumes where it stopped

  ghost predicate Of(k: Key, x: InquiryId) {
    k.InquiryKey? && k.inquiry == x
  }

  /** What holds of one inquiry between calls: its jobs are the configured mailboxes up to some point,
      in order, under their own keys, and no delivery is without its job. */
  ghost predicate JobsInv(q: Queue, x: InquiryId, emails: seq<Email>, hash: Email -> nat) {
    && Mine(q.jobs, x) <= emails
    && (forall i :: 0 <= i < |q.jobs| && Of(q.jobs[i].key, x) ==> q.jobs[i].key.mailbox == hash(q.jobs[i].recipient))
    && (forall d :: 0 <= d < |q.deliveries| && Of(q.deliveries[d].key, x) ==> HasJob(q.jobs, q.deliveries[d].key))
  }

  lemma {:induction false} InMine(jobs: seq<Job>, x: InquiryId, e: Email)
    ensures e in Mine(jobs, x) <==> exists i :: 0 <= i < |jobs| && Of(jobs[i].key, x) && jobs[i].recipient == e
  {
    if jobs != [] {
      var n := |jobs| - 1;
      InMine(jobs[..n], x, e);
      if e in Mine(jobs[..n], x) {
        var i :| 0 <= i < n && Of(jobs[..n][i].key, x) && jobs[..n][i].recipient == e;
        assert jobs[i] == jobs[..n][i];
      }
      if i :| 0 <= i < |jobs| && Of(jobs[i].key, x) && jobs[i].recipient == e {
        if i < n { assert jobs[..n][i] == jobs[i]; }
      }
    }
  }

  /** A configured mailbox has its key taken iff it is among the inquiry's jobs. */
  lemma KeyTakenIff(q: Queue, x: InquiryId, emails: seq<Email>, hash: Email -> nat, n: nat)
    requires n < |emails| && InjectiveOn(hash, emails) && JobsInv(q, x, emails, hash)
    ensures HasJob(q.jobs, InquiryKey(x, hash(emails[n]))) <==> n < |Mine(q.jobs, x)|
  {
    var mine := Mine(q.jobs, x);
    var key := InquiryKey(x, hash(emails[n]));
    if n < |mine| {
      assert mine[n] == emails[n];
      InMine(q.jobs, x, emails[n]);
    }
    if HasJob(q.jobs, key) {
      var i :| 0 <= i < |q.jobs| && q.jobs[i].key == key;
      assert Of(q.jobs[i].key, x);
      InMine(q.jobs, x, q.jobs[i].recipient);
      var k :| 0 <= k < |mine| && mine[k] == q.jobs[i].recipient;
      assert emails[k] == mine[k];
    }
  }

  lemma HasJobSnoc(jobs: seq<Job>, j: Job, k: Key)
    ensures HasJob(jobs + [j], k) <==> HasJob(jobs, k) || j.key == k
  {
    var t := jobs + [j];
    if HasJob(jobs, k) {
      var i :| 0 <= i < |jobs| && jobs[i].key == k;
      assert t[i].key == k;
    }
    assert t[|jobs|] == j;
  }

  lemma AppendKeepsJobsInv(q: Queue, t: Queue, x: InquiryId, emails: seq<Email>, hash: Email -> nat, n: nat)
    requires JobsInv(q, x, emails, hash) && n < |emails| && |Mine(q.jobs, x)| == n
    requires |t.jobs| == |q.jobs| + 1 && t.jobs[..|q.jobs|] == q.jobs
    requires |t.deliveries| == |q.deliveries| + 1 && t.deliveries[..|q.deliveries|] == q.deliveries
    requires t.jobs[|q.jobs|].key == InquiryKey(x, hash(emails[n])) && t.jobs[|q.jobs|].recipient == emails[n]
    requires t.deliveries[|q.deliveries|].key == InquiryKey(x, hash(emails[n]))
    ensures JobsInv(t, x, emails, hash)
  {
    var j := t.jobs[|q.jobs|];
    assert t.jobs == q.jobs + [j];
    assert Mine(t.jobs, x) == Mine(q.jobs, x) + [emails[n]];
    forall d | 0 <= d < |t.deliveries| && Of(t.deliveries[d].key, x) ensures HasJob(t.jobs, t.deliveries[d].key) {
      HasJobSnoc(q.jobs, j, t.deliveries[d].key);
      if d < |q.deliveries| { assert t.deliveries[d] == q.deliveries[d]; }
    }
    forall i | 0 <= i < |t.jobs| && Of(t.jobs[i].key, x) ensures t.jobs[i].key.mailbox == hash(t.jobs[i].recipient) {
      if i < |q.jobs| { assert t.jobs[i] == q.jobs[i]; }
    }
  }

  /** One mailbox, when the inquiry has exactly the k mailboxes before it. */
  lemma StepAppends(p: Progress, x: InquiryId, emails: seq<Email>, hash: Email -> nat, n: nat, at: nat)
    requires n < |emails| && InjectiveOn(hash, emails) && JobsInv(p.queue, x, emails, hash)
    ensures var r := EmailStep(p, x, emails[n], hash, at); var k := |Mine(p.queue.jobs, x)|;
      && (n < k ==> r == p)
      && (n >= k && p.budget <= 0 ==> r == p.(suppressed := true))
      && (n >= k && p.budget > 0 ==>
           && r.budget == p.budget - 1 && r.queued == p.queued + 1 && r.suppressed == p.suppressed
           && Mine(r.queue.jobs, x) == Mine(p.queue.jobs, x) + [emails[n]]
           && (k == n ==> JobsInv(r.queue, x, emails, hash)))
  {
    KeyTakenIff(p.queue, x, emails, hash, n);
    var key := InquiryKey(x, hash(emails[n]));
    if n >= |Mine(p.queue.jobs, x)| && p.budget > 0 {
      if HasDelivery(p.queue.deliveries, key) {
        assert false;
      }
      var r := EmailStep(p, x, emails[n], hash, at);
      assert r.queue.jobs[..|p.queue.jobs|] == p.queue.jobs;
      if n == |Mine(p.queue.jobs, x)| { AppendKeepsJobsInv(p.queue, r.queue, x, emails, hash, n); }
    }
  }

  ghost function Min(a: int, b: int): int { if a <= b then a else b }

  ghost function Max(a: int, b: int): int { if a >= b then a else b }

  /** What the loop over the first n mailboxes has done for an inquiry that had jobs for the first k of them,
      with room for so many more: it adds jobs for the mailboxes after the k-th, in order, while there is
      room. What is missing is always a suffix. */
  ghost predicate Resumed(p: Progress, x: InquiryId, emails: seq<Email>, k: nat, n: nat, budget: int) {
    && p.queued == Min(Max(n - k, 0), Max(budget, 0))
    && k + p.queued <= |emails|
    && p.budget == budget - p.queued
    && (p.suppressed <==> n - k > Max(budget, 0))
    && Mine(p.queue.jobs, x) == emails[..k + p.queued]
  }

  lemma ResumeStep(p: Progress, x: InquiryId, emails: seq<Email>, k: nat, n: nat, budget: int, hash: Email -> nat, at: nat)
    requires n < |emails| && InjectiveOn(hash, emails) && JobsInv(p.queue, x, emails, hash)
    requires Resumed(p, x, emails, k, n, budget)
    ensures Resumed(EmailStep(p, x, emails[n], hash, at), x, emails, k, n + 1, budget)
    ensures JobsInv(EmailStep(p, x, emails[n], hash, at).queue, x, emails, hash)
  {
    StepAppends(p, x, emails, hash, n, at);
    if n >= k && p.budget > 0 {
      assert p.queued == n - k;
      assert emails[..n] + [emails[n]] == emails[..n + 1];
    }
  }

  lemma OneMoreMailbox(q: Queue, cap: nat, x: InquiryId, emails: seq<Email>, i: nat, hash: Email -> nat, now: nat,
          at: nat -> nat)
    requires i < |emails|
    ensures EmailLoop(q, cap, x, emails[..i + 1], hash, now, at) ==
      EmailStep(EmailLoop(q, cap, x, emails[..i], hash, now, at), x, emails[i], hash, at(i))
  {
    assert emails[..i + 1][..i] == emails[..i];
  }

  lemma ResumeStart(q: Queue, cap: nat, x: InquiryId, emails: seq<Email>, hash: Email -> nat, now: nat, p: Progress)
    requires JobsInv(q, x, emails, hash) && p == Progress(q, Budget(q, cap, now), 0, false)
    ensures Resumed(p, x, emails, |Mine(q.jobs, x)|, 0, Budget(q, cap, now))
  {
    assert Mine(q.jobs, x) == emails[..|Mine(q.jobs, x)|];
  }

  lemma {:induction false} LoopResumes(q: Queue, cap: nat, x: InquiryId, emails: seq<Email>, n: nat,
          hash: Email -> nat, now: nat, at: nat -> nat, p: Progress)
    requires n <= |emails| && InjectiveOn(hash, emails) && JobsInv(q, x, emails, hash)
    requires p == EmailLoop(q, cap, x, emails[..n], hash, now, at)
    ensures Resumed(p, x, emails, |Mine(q.jobs, x)|, n, Budget(q, cap, now))
    ensures JobsInv(p.queue, x, emails, hash)
  {
    if n == 0 {
      ResumeStart(q, cap, x, emails, hash, now, p);
    } else {
      var before := EmailLoop(q, cap, x, emails[..n - 1], hash, now, at);
      LoopResumes(q, cap, x, emails, n - 1, hash, now, at, before);
      OneMoreMailbox(q, cap, x, emails, n - 1, hash, now, at);
      ResumeStep(before, x, emails, |Mine(q.jobs, x)|, n - 1, Budget(q, cap, now), hash, at(n - 1));
    }
  }

  // ----- deliveries

  /** Every job of the inquiry has a delivery and every delivery of it a job. */
  ghost predicate Delivered(q: Queue, x: InquiryId) {
    && Linked(q)
    && (forall i :: 0 <= i < |q.jobs| && Of(q.jobs[i].key, x) ==> q.jobs[i].delivery.Some?)
    && (forall d :: 0 <= d < |q.deliveries| && Of(q.deliveries[d].key, x) ==> q.deliveries[d].jobId.Some?)
  }

  ghost predicate PairOf(q: Queue, i: JobId, d: DeliveryId)
    requires i < |q.jobs| && d < |q.deliveries|
  {
    && q.jobs[i].delivery == Some(d) && q.deliveries[d].jobId == Some(i)
    && q.jobs[i].key == q.deliveries[d].key && q.jobs[i].recipient == q.deliveries[d].recipient
  }

  /** Jobs and deliveries of the inquiry come in pairs, of the same key and mailbox, each pointing at the other. */
  ghost predicate Paired(q: Queue, x: InquiryId) {
    && (forall i :: 0 <= i < |q.jobs| && Of(q.jobs[i].key, x) ==>
         q.jobs[i].delivery.Some? && q.jobs[i].delivery.value < |q.deliveries| && PairOf(q, i, q.jobs[i].delivery.value))
    && (forall d :: 0 <= d < |q.deliveries| && Of(q.deliveries[d].key, x) ==>
         q.deliveries[d].jobId.Some? && q.deliveries[d].jobId.value < |q.jobs| && PairOf(q, q.deliveries[d].jobId.value, d))
  }

  lemma DeliveredIsPaired(q: Queue, x: InquiryId)
    requires Delivered(q, x)
    ensures Paired(q, x)
  {
    forall d | 0 <= d < |q.deliveries| && Of(q.deliveries[d].key, x)
      ensures q.deliveries[d].jobId.value < |q.jobs| && PairOf(q, q.deliveries[d].jobId.value, d)
    {
      assert q.jobs[q.deliveries[d].jobId.value].delivery == Some(d);
    }
  }

  lemma StepKeepsDelivered(p: Progress, y: InquiryId, e: Email, hash: Email -> nat, at: nat, x: InquiryId)
    requires Delivered(p.queue, x)
    ensures Delivered(EmailStep(p, y, e, hash, at).queue, x)
  {
    var k := InquiryKey(y, hash(e));
    if Enqueue(p.queue, SERVICE_INQUIRY_NOTIFY_EMAIL, k, e, at).Some? {
      EnqueueKeepsLinked(p.queue, SERVICE_INQUIRY_NOTIFY_EMAIL, k, e, at);
    }
  }

  lemma {:induction false} LoopKeepsDelivered(q: Queue, cap: nat, y: InquiryId, emails: seq<Email>, hash: Email -> nat,
        now: nat, at: nat -> nat, x: InquiryId)
    requires Delivered(q, x)
    ensures Delivered(EmailLoop(q, cap, y, emails, hash, now, at).queue, x)
  {
    if emails != [] {
      var n := |emails| - 1;
      LoopKeepsDelivered(q, cap, y, emails[..n], hash, now, at, x);
      StepKeepsDelivered(EmailLoop(q, cap, y, emails[..n], hash, now, at), y, emails[n], hash, at(n), x);
    }
  }

  lemma ElsewhereKeepsDelivered(q: Queue, t: Queue, x: InquiryId)
    requires Extends(q, t) && Delivered(q, x)
    ensures Delivered(t, x)
  {
    forall i | 0 <= i < |t.jobs| && Of(t.jobs[i].key, x) ensures t.jobs[i].delivery.Some? {
      assert SameKey(q.jobs[i], t.jobs[i]);
    }
  }

  // ----- crash and restart

  /** What holds between calls of one inquiry whose settings do not change. */
  ghost predicate InquiryInv(db: Db, x: InquiryId, emails: seq<Email>, staff: seq<UserId>, hash: Email -> nat) {
    && (NoticesOf(db.notices, x) == [] || NoticesOf(db.notices, x) == staff)
    && JobsInv(db.queue, x, emails, hash)
    && Delivered(db.queue, x)
    && AuditsOf(db.audits, x) <= 1
  }

  /** A clean slate for one inquiry. */
  ghost predicate Untouched(db: Db, x: InquiryId) {
    && NoticesOf(db.notices, x) == [] && Mine(db.queue.jobs, x) == [] && AuditsOf(db.audits, x) == 0
    && (forall i :: 0 <= i < |db.queue.jobs| ==> !Of(db.queue.jobs[i].key, x))
    && (forall d :: 0 <= d < |db.queue.deliveries| ==> !Of(db.queue.deliveries[d].key, x))
    && Linked(db.queue)
  }

  /** What a call that gets past its first read leaves. */
  lemma CallParts(db: Db, inquiries: set<InquiryId>, hash: Email -> nat, c: Call, t: Db)
    requires c.inquiry in inquiries && !c.cut.BeforeNotices? && t == Notify(db, inquiries, hash, c)
    ensures t.notices == AddNotices(db.notices, Targets(db.notices, Take(c.staff, c.cfg.maxStaff), c.inquiry), c.inquiry)
    ensures t.queue == EmailLoop(db.queue, c.cfg.hourlyEmailCap, c.inquiry, Mailboxes(c), hash, c.now, c.at).queue
    ensures t.audits == if c.cut.Uncut? && c.inquiry !in db.audits then db.audits + [c.inquiry] else db.audits
  {
  }

  lemma AuditsOfAdded(audits: seq<InquiryId>, x: InquiryId, y: InquiryId)
    ensures AuditsOf(audits + [x], y) == AuditsOf(audits, y) + if x == y then 1 else 0
  {
    assert (audits + [x])[..|audits|] == audits;
  }

  lemma AuditedOnce(audits: seq<InquiryId>, x: InquiryId)
    requires AuditsOf(audits, x) <= 1
    ensures AuditsOf(if x !in audits then audits + [x] else audits, x) == 1
  {
    InAudits(audits, x);
    AuditsOfAdded(audits, x, x);
  }

  lemma LoopKeepsJobs(q: Queue, c: Call, hash: Email -> nat, t: Queue)
    requires JobsInv(q, c.inquiry, c.cfg.emails, hash) && InjectiveOn(hash, c.cfg.emails)
    requires t == EmailLoop(q, c.cfg.hourlyEmailCap, c.inquiry, Mailboxes(c), hash, c.now, c.at).queue
    ensures JobsInv(t, c.inquiry, c.cfg.emails, hash)
  {
    var n := |Mailboxes(c)|;
    assert Mailboxes(c) == c.cfg.emails[..n];
    LoopResumes(q, c.cfg.hourlyEmailCap, c.inquiry, c.cfg.emails, n, hash, c.now, c.at,
                EmailLoop(q, c.cfg.hourlyEmailCap, c.inquiry, c.cfg.emails[..n], hash, c.now, c.at));
  }

  lemma CallKeepsOwn(db: Db, inquiries: set<InquiryId>, hash: Email -> nat, c: Call, x: InquiryId,
          emails: seq<Email>, staff: seq<UserId>, t: Db)
    requires InquiryInv(db, x, emails, staff, hash) && InjectiveOn(hash, emails)
    requires x == c.inquiry && emails == c.cfg.emails && staff == Take(c.staff, c.cfg.maxStaff)
    requires t == Notify(db, inquiries, hash, c)
    ensures InquiryInv(t, x, emails, staff, hash)
  {
    if x in inquiries && !c.cut.BeforeNotices? {
      CallParts(db, inquiries, hash, c, t);
      NoticesOnce(db.notices, staff, x);
      LoopKeepsJobs(db.queue, c, hash, t.queue);
      LoopKeepsDelivered(db.queue, c.cfg.hourlyEmailCap, x, Mailboxes(c), hash, c.now, c.at, x);
      AuditedOnce(db.audits, x);
    }
  }

  lemma StepOfOther(p: Progress, y: InquiryId, e: Email, hash: Email -> nat, at: nat, x: InquiryId, emails: seq<Email>)
    requires x != y && JobsInv(p.queue, x, emails, hash)
    ensures JobsInv(EmailStep(p, y, e, hash, at).queue, x, emails, hash)
  {
    var t := EmailStep(p, y, e, hash, at).queue;
    if t != p.queue {
      var j := t.jobs[|p.queue.jobs|];
      assert t.jobs[..|p.queue.jobs|] == p.queue.jobs;
      forall d | 0 <= d < |t.deliveries| && Of(t.deliveries[d].key, x) ensures HasJob(t.jobs, t.deliveries[d].key) {
        HasJobSnoc(p.queue.jobs, j, t.deliveries[d].key);
      }
    }
  }

  lemma {:induction false} LoopOfOther(q: Queue, cap: nat, y: InquiryId, ys: seq<Email>, hash: Email -> nat,
          now: nat, at: nat -> nat,
                    x: InquiryId, emails: seq<Email>)
    requires x != y && JobsInv(q, x, emails, hash)
    ensures JobsInv(EmailLoop(q, cap, y, ys, hash, now, at).queue, x, emails, hash)
  {
    if ys != [] {
      var n := |ys| - 1;
      LoopOfOther(q, cap, y, ys[..n], hash, now, at, x, emails);
      StepOfOther(EmailLoop(q, cap, y, ys[..n], hash, now, at), y, ys[n], hash, at(n), x, emails);
    }
  }

  lemma CallKeepsOther(db: Db, inquiries: set<InquiryId>, hash: Email -> nat, c: Call, x: InquiryId,
          emails: seq<Email>, staff: seq<UserId>, t: Db)
    requires InquiryInv(db, x, emails, staff, hash) && x != c.inquiry && t == Notify(db, inquiries, hash, c)
    ensures InquiryInv(t, x, emails, staff, hash)
  {
    if c.inquiry in inquiries && !c.cut.BeforeNotices? {
      CallParts(db, inquiries, hash, c, t);
      NoticesOfAdded(db.notices, Targets(db.notices, Take(c.staff, c.cfg.maxStaff), c.inquiry), c.inquiry, x);
      LoopOfOther(db.queue, c.cfg.hourlyEmailCap, c.inquiry, Mailboxes(c), hash, c.now, c.at, x, emails);
      LoopKeepsDelivered(db.queue, c.cfg.hourlyEmailCap, c.inquiry, Mailboxes(c), hash, c.now, c.at, x);
      AuditsOfAdded(db.audits, c.inquiry, x);
    }
  }

  lemma {:induction false} MineOfExtension(a: seq<Job>, b: seq<Job>, x: InquiryId)
    requires |a| <= |b| && forall i :: 0 <= i < |a| ==> SameKey(a[i], b[i])
    requires forall i :: |a| <= i < |b| ==> b[i].key.OtherKey?
    ensures Mine(b, x) == Mine(a, x)
  {
    if |a| < |b| {
      MineOfExtension(a, b[..|b| - 1], x);
    } else if a != [] {
      MineOfExtension(a[..|a| - 1], b[..|b| - 1], x);
    }
  }

  lemma ElsewhereKeeps(q: Queue, t: Queue, x: InquiryId, emails: seq<Email>, hash: Email -> nat)
    requires Extends(q, t) && JobsInv(q, x, emails, hash)
    ensures JobsInv(t, x, emails, hash)
  {
    MineOfExtension(q.jobs, t.jobs, x);
    forall i | 0 <= i < |t.jobs| && Of(t.jobs[i].key, x) ensures t.jobs[i].key.mailbox == hash(t.jobs[i].recipient) {
      assert SameKey(q.jobs[i], t.jobs[i]);
    }
    forall d | 0 <= d < |t.deliveries| && Of(t.deliveries[d].key, x) ensures HasJob(t.jobs, t.deliveries[d].key) {
      assert HasJob(q.jobs, q.deliveries[d].key);
      var i :| 0 <= i < |q.jobs| && q.jobs[i].key == q.deliveries[d].key;
      assert SameKey(q.jobs[i], t.jobs[i]);
    }
  }

  /** The calls for one inquiry all have the same mailboxes and staff; calls for others are free. */
  ghost predicate SameSettings(run: seq<Action>, x: InquiryId, emails: seq<Email>, staff: seq<UserId>) {
    forall i :: 0 <= i < |run| && run[i].Run? && run[i].call.inquiry == x ==>
      run[i].call.cfg.emails == emails && Take(run[i].call.staff, run[i].call.cfg.maxStaff) == staff
  }

  lemma {:induction false} RunKeepsInquiry(db: Db, inquiries: set<InquiryId>, hash: Email -> nat, run: seq<Action>,
          x: InquiryId, emails: seq<Email>, staff: seq<UserId>)
    requires CanRun(db, inquiries, hash, run) && SameSettings(run, x, emails, staff) && InjectiveOn(hash, emails)
    requires InquiryInv(db, x, emails, staff, hash)
    ensures InquiryInv(Exec(db, inquiries, hash, run), x, emails, staff, hash)
    decreases |run|
  {
    if run != [] {
      match run[0] {
        case Run(c) =>
          var t := Notify(db, inquiries, hash, c);
          if c.inquiry == x { CallKeepsOwn(db, inquiries, hash, c, x, emails, staff, t); }
          else { CallKeepsOther(db, inquiries, hash, c, x, emails, staff, t); }
        case Elsewhere(q) =>
          ElsewhereKeeps(db.queue, q, x, emails, hash);
          ElsewhereKeepsDelivered(db.queue, q, x);
      }
      assert SameSettings(run[1..], x, emails, staff);
      RunKeepsInquiry(Apply(db, inquiries, hash, run[0]), inquiries, hash, run[1..], x, emails, staff);
    }
  }

  lemma CompleteLoop(q: Queue, cap: nat, x: InquiryId, emails: seq<Email>, hash: Email -> nat, now: nat,
          at: nat -> nat, p: Progress,
                     before: seq<Email>, after: seq<Email>, budget: int)
    requires InjectiveOn(hash, emails) && JobsInv(q, x, emails, hash)
    requires p == EmailLoop(q, cap, x, emails, hash, now, at)
    requires before == Mine(q.jobs, x) && after == Mine(p.queue.jobs, x) && budget == Budget(q, cap, now)
    ensures after <= emails && |after| == Min(|emails|, |before| + Max(budget, 0))
  {
    assert emails[..|emails|] == emails;
    LoopResumes(q, cap, x, emails, |emails|, hash, now, at, p);
  }

  /** One job with one delivery each, for the mailboxes in configuration order: for all of them when there is room for
      those still missing and otherwise for the first ones. */
  ghost predicate JobsInFull(before: Queue, after: Queue, x: InquiryId, emails: seq<Email>, budget: int) {
    && Mine(after.jobs, x) <= emails
    && |Mine(after.jobs, x)| == Min(|emails|, |Mine(before.jobs, x)| + Max(budget, 0))
    && Paired(after, x)
  }

  /** Everything one clean call would leave: every staff member notified once, one audit row, and the jobs. */
  ghost predicate NotifiedInFull(before: Db, after: Db, c: Call) {
    && NoticesOf(after.notices, c.inquiry) == Take(c.staff, c.cfg.maxStaff)
    && AuditsOf(after.audits, c.inquiry) == 1
    && JobsInFull(before.queue, after.queue, c.inquiry, c.cfg.emails, c.cfg.hourlyEmailCap - |LastHour(before.queue, c.now)|)
  }

  lemma CompleteJobs(q: Queue, c: Call, hash: Email -> nat, t: Queue)
    requires JobsInv(q, c.inquiry, c.cfg.emails, hash) && Delivered(q, c.inquiry) && InjectiveOn(hash, c.cfg.emails)
    requires t == EmailLoop(q, c.cfg.hourlyEmailCap, c.inquiry, c.cfg.emails, hash, c.now, c.at).queue
    ensures JobsInFull(q, t, c.inquiry, c.cfg.emails, Budget(q, c.cfg.hourlyEmailCap, c.now))
  {
    var p := EmailLoop(q, c.cfg.hourlyEmailCap, c.inquiry, c.cfg.emails, hash, c.now, c.at);
    CompleteLoop(q, c.cfg.hourlyEmailCap, c.inquiry, c.cfg.emails, hash, c.now, c.at, p, Mine(q.jobs, c.inquiry),
                 Mine(t.jobs, c.inquiry), Budget(q, c.cfg.hourlyEmailCap, c.now));
    LoopKeepsDelivered(q, c.cfg.hourlyEmailCap, c.inquiry, c.cfg.emails, hash, c.now, c.at, c.inquiry);
    DeliveredIsPaired(t, c.inquiry);
  }

  lemma CompleteCall(db: Db, inquiries: set<InquiryId>, hash: Email -> nat, c: Call, t: Db)
    requires InquiryInv(db, c.inquiry, c.cfg.emails, Take(c.staff, c.cfg.maxStaff), hash) && InjectiveOn(hash, c.cfg.emails)
    requires c.inquiry in inquiries && c.cut.Uncut? && t == Notify(db, inquiries, hash, c)
    ensures NotifiedInFull(db, t, c)
  {
    CallParts(db, inquiries, hash, c, t);
    NoticesOnce(db.notices, Take(c.staff, c.cfg.maxStaff), c.inquiry);
    CompleteJobs(db.queue, c, hash, t.queue);
    BudgetIs(db.queue, c.cfg.hourlyEmailCap, c.now);
    AuditedOnce(db.audits, c.inquiry);
  }

  /** Crash and restart: after any serial runs, each cut anywhere, one complete call leaves exactly what one
      clean call would. */
  lemma Convergence(db: Db, inquiries: set<InquiryId>, hash: Email -> nat, run: seq<Action>, last: Call)
    requires Untouched(db, last.inquiry) && CanRun(db, inquiries, hash, run) && InjectiveOn(hash, last.cfg.emails)
    requires last.inquiry in inquiries && last.cut.Uncut?
    requires SameSettings(run, last.inquiry, last.cfg.emails, Take(last.staff, last.cfg.maxStaff))
    ensures var before := Exec(db, inquiries, hash, run); NotifiedInFull(before, Notify(before, inquiries, hash, last), last)
  {
    RunKeepsInquiry(db, inquiries, hash, run, last.inquiry, last.cfg.emails, Take(last.staff, last.cfg.maxStaff));
    var before := Exec(db, inquiries, hash, run);
    var t := Notify(before, inquiries, hash, last);
    CompleteCall(before, inquiries, hash, last, t);
  }

  lemma {:induction false} LoopSkipsAll(q: Queue, cap: nat, x: InquiryId, emails: seq<Email>, hash: Email -> nat,
          now: nat, at: nat -> nat)
    requires forall i :: 0 <= i < |emails| ==> HasJob(q.jobs, InquiryKey(x, hash(emails[i])))
    ensures EmailLoop(q, cap, x, emails, hash, now, at) == Progress(q, Budget(q, cap, now), 0, false)
  {
    if emails != [] { LoopSkipsAll(q, cap, x, emails[..|emails| - 1], hash, now, at); }
  }

  /** A call on an inquiry that is done changes nothing at all. */
  lemma RedeliveryIsANoOp(db: Db, inquiries: set<InquiryId>, hash: Email -> nat, c: Call)
    requires NoticesOf(db.notices, c.inquiry) == Take(c.staff, c.cfg.maxStaff) && AuditsOf(db.audits, c.inquiry) == 1
    requires Mine(db.queue.jobs, c.inquiry) == c.cfg.emails && JobsInv(db.queue, c.inquiry, c.cfg.emails, hash)
    ensures Notify(db, inquiries, hash, c) == db
  {
    var x, staff := c.inquiry, Take(c.staff, c.cfg.maxStaff);
    NoTargets(db.notices, staff, x);
    assert AddNotices(db.notices, [], x) == db.notices;
    InAudits(db.audits, x);
    forall i | 0 <= i < |Mailboxes(c)| ensures HasJob(db.queue.jobs, InquiryKey(x, hash(Mailboxes(c)[i]))) {
      InMine(db.queue.jobs, x, c.cfg.emails[i]);
      assert c.cfg.emails[i] in Mine(db.queue.jobs, x);
    }
    LoopSkipsAll(db.queue, c.cfg.hourlyEmailCap, x, Mailboxes(c), hash, c.now, c.at);
  }

  /** The loop keeps jobs and deliveries linked, one to one. */
  lemma {:induction false} LoopKeepsLinked(q: Queue, cap: nat, x: InquiryId, emails: seq<Email>, hash: Email -> nat,
          now: nat, at: nat -> nat)
    requires Linked(q)
    ensures Linked(EmailLoop(q, cap, x, emails, hash, now, at).queue)
  {
    if emails != [] {
      var n := |emails| - 1;
      LoopKeepsLinked(q, cap, x, emails[..n], hash, now, at);
      var p := EmailLoop(q, cap, x, emails[..n], hash, now, at);
      var k := InquiryKey(x, hash(emails[n]));
      if Enqueue(p.queue, SERVICE_INQUIRY_NOTIFY_EMAIL, k, emails[n], at(n)).Some? {
        EnqueueKeepsLinked(p.queue, SERVICE_INQUIRY_NOTIFY_EMAIL, k, emails[n], at(n));
      }
    }
  }

  // ----- the handler

  /** The number reported is the number of rows added. */
  lemma {:induction false} QueuedIsCounted(q: Queue, cap: nat, x: InquiryId, emails: seq<Email>, hash: Email -> nat,
          now: nat, at: nat -> nat)
    ensures var p := EmailLoop(q, cap, x, emails, hash, now, at); p.queued == |p.queue.jobs| - |q.jobs|
  {
    if emails != [] { QueuedIsCounted(q, cap, x, emails[..|emails| - 1], hash, now, at); }
  }

  datatype Outcome = Handled(staffNotified: nat, emailJobsQueued: nat, emailSuppressedByCap: bool) | InquiryNotFound | Threw

  class NotifierTables {
    var notices: seq<Notice>
    var queue: Queue
    var audits: seq<InquiryId>

    ghost function State(): Db
      reads this
    {
      Db(notices, queue, audits)
    }

    method NotifyStaff(inquiry: InquiryId, cfg: Config, allStaff: seq<UserId>) returns (count: nat)
      modifies this`notices
      ensures var targets := Targets(old(notices), Take(allStaff, cfg.maxStaff), inquiry);
        notices == AddNotices(old(notices), targets, inquiry) && count == |targets|
    {
      var staff := Take(allStaff, cfg.maxStaff);
      var targets := Targets(notices, staff, inquiry);
      assert AddNotices(notices, [], inquiry) == notices;
      if |staff| == 0 || |targets| == 0 { return 0; }
      notices := AddNotices(notices, targets, inquiry);
      return |targets|;
    }

    /** stop is the number of mailboxes dealt with before a statement throws, if one does. */
    method QueueEmails(inquiry: InquiryId, cfg: Config, hash: Email -> nat, now: nat, at: nat -> nat, stop: nat)
      returns (thrown: bool, queued: nat, suppressed: bool)
      modifies this`queue
      ensures var p := EmailLoop(old(queue), cfg.hourlyEmailCap, inquiry, Take(cfg.emails, stop), hash, now, at);
        queue == p.queue && queued == p.queued && suppressed == p.suppressed
      ensures thrown <==> stop < |cfg.emails|
    {
      thrown, queued, suppressed := false, 0, false;
      if |cfg.emails| == 0 { return; }
      var budget := Budget(queue, cfg.hourlyEmailCap, now);
      ghost var p := Progress(queue, budget, queued, suppressed);
      for i := 0 to |cfg.emails|
        invariant i <= stop && p == Progress(queue, budget, queued, suppressed)
        invariant p == EmailLoop(old(queue), cfg.hourlyEmailCap, inquiry, cfg.emails[..i], hash, now, at)
      {
        if i == stop {
          thrown := true;
          return;
        }
        var email := cfg.emails[i];
        OneMoreMailbox(old(queue), cfg.hourlyEmailCap, inquiry, cfg.emails, i, hash, now, at);
        p := EmailStep(p, inquiry, email, hash, at(i));
        var key := InquiryKey(inquiry, hash(email));
        if HasJob(queue.jobs, key) { continue; }
        if budget <= 0 {
          suppressed := true;
          continue;
        }
        var created := Enqueue(queue, SERVICE_INQUIRY_NOTIFY_EMAIL, key, email, at(i));
        if created.Some? {
          queue := created.value;
          queued, budget := queued + 1, budget - 1;
        }
      }
      assert cfg.emails[..|cfg.emails|] == cfg.emails;
    }

    /** inquiryId is None when the payload has no usable id; call.cut says which statement throws, if any. */
    method ProcessServiceInquiryCreatedEvent(inquiryId: Option<InquiryId>, inquiries: set<InquiryId>,
            hash: Email -> nat, call: Call)
      returns (outcome: Outcome)
      requires inquiryId.Some? ==> inquiryId.value == call.inquiry
      modifies this
      ensures State() == if inquiryId.None? then old(State()) else Notify(old(State()), inquiries, hash, call)
      ensures outcome.InquiryNotFound? <==> inquiryId.Some? && call.inquiry !in inquiries
      ensures outcome.Handled? <==> inquiryId.Some? && call.inquiry in inquiries && call.cut.Uncut?
      ensures outcome.Handled? ==>
        && outcome.staffNotified == |Targets(old(notices), Take(call.staff, call.cfg.maxStaff), call.inquiry)|
        && outcome.emailJobsQueued == |queue.jobs| - |old(queue).jobs|
        && (outcome.emailSuppressedByCap <==>
             EmailLoop(old(queue), call.cfg.hourlyEmailCap, call.inquiry, call.cfg.emails, hash, call.now, call.at).suppressed)
    {
      if inquiryId.None? { return Threw; }
      if call.inquiry !in inquiries { return InquiryNotFound; }
      if call.cut.BeforeNotices? { return Threw; }
      var staffNotified := NotifyStaff(call.inquiry, call.cfg, call.staff);
      var stop := if call.cut.AfterEmails? then call.cut.n else |call.cfg.emails|;
      QueuedIsCounted(queue, call.cfg.hourlyEmailCap, call.inquiry, Take(call.cfg.emails, stop), hash, call.now, call.at);
      var thrown, queued, suppressed := QueueEmails(call.inquiry, call.cfg, hash, call.now, call.at, stop);
      if thrown || !call.cut.Uncut? { return Threw; }
      if call.inquiry !in audits {
        audits := audits + [call.inquiry];
      }
      return Handled(staffNotified, queued, suppressed);
    }
  }
}
