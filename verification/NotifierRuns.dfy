/** Overlapping calls of the notifier: any number of processes, every read and every write an action of its own. */
module NotifierRuns {
  import opened Wrappers
  import opened Automation
  import opened NotifierConfig
  import opened Notifier

  /** What a call has read and still has to do. since is the number of notices, or of audit rows, there were when it
      read them. */
  datatype Proc =
    | Idle
    | Notifying(inquiry: InquiryId, targets: seq<UserId>, since: nat, emails: seq<Email>, cap: nat)
    | Counting(inquiry: InquiryId, emails: seq<Email>, cap: nat)
    | Looking(inquiry: InquiryId, emails: seq<Email>, budget: int)
    | Creating(inquiry: InquiryId, emails: seq<Email>, budget: int)
    | Auditing(inquiry: InquiryId, since: nat)

  datatype State = State(notices: seq<Notice>, queue: Queue, audits: seq<InquiryId>, now: nat, procs: seq<Proc>)

  datatype Action =
    | Tick(ms: nat)
    | ReadNotices(p: nat, inquiry: InquiryId, staff: seq<UserId>, emails: seq<Email>, cap: nat)
    | WriteNotices(p: nat)
    | CountJobs(p: nat)
    | CheckMailbox(p: nat)
    | CreateJob(p: nat)
    | ReadAudit(p: nat)
    | WriteAudit(p: nat)
    | Elsewhere(queue: Queue)
    | Crash(p: nat)

  ghost predicate Enabled(s: State, a: Action) {
    a.Tick? || (a.Elsewhere? && Extends(s.queue, a.queue)) ||
    (!a.Elsewhere? && a.p < |s.procs| &&
     var x := s.procs[a.p];
     match a
     case ReadNotices(_, _, staff, _, _) => x.Idle? && Distinct(staff)
     case WriteNotices(_) => x.Notifying?
     case CountJobs(_) => x.Counting?
     case CheckMailbox(_) => x.Looking? && x.emails != []
     case CreateJob(_) => x.Creating? && x.emails != []
     case ReadAudit(_) => x.Looking? && x.emails == []
     case WriteAudit(_) => x.Auditing?
     case _ => true)
  }

  ghost function SetProc(s: State, p: nat, x: Proc): State
    requires p < |s.procs|
  {
    s.(procs := s.procs[p := x])
  }

  /** The call after its first mailbox. */
  ghost function NextMailbox(x: Proc, budget: int): Proc
    requires (x.Looking? || x.Creating?) && x.emails != []
  {
    Looking(x.inquiry, x.emails[1..], budget)
  }

  ghost function Created(q: Queue, x: InquiryId, e: Email, hash: Email -> nat, at: nat): Option<Queue> {
    Enqueue(q, SERVICE_INQUIRY_NOTIFY_EMAIL, InquiryKey(x, hash(e)), e, at)
  }

  ghost function Apply(s: State, hash: Email -> nat, a: Action): State
    requires Enabled(s, a)
  {
    match a
    case Tick(ms) => s.(now := s.now + ms)
    case ReadNotices(p, i, staff, emails, cap) =>
      var targets := Targets(s.notices, staff, i);
      SetProc(s, p, if targets == [] then Counting(i, emails, cap) else Notifying(i, targets, |s.notices|, emails, cap))
    case WriteNotices(p) =>
      var x := s.procs[p];
      SetProc(s, p, Counting(x.inquiry, x.emails, x.cap)).(notices := AddNotices(s.notices, x.targets, x.inquiry))
    case CountJobs(p) =>
      var x := s.procs[p];
      SetProc(s, p, Looking(x.inquiry, x.emails, Budget(s.queue, x.cap, s.now)))
    case CheckMailbox(p) =>
      var x := s.procs[p];
      if HasJob(s.queue.jobs, InquiryKey(x.inquiry, hash(x.emails[0]))) || x.budget <= 0 then SetProc(s, p, NextMailbox(x, x.budget))
      else SetProc(s, p, Creating(x.inquiry, x.emails, x.budget))
    case CreateJob(p) =>
      var x := s.procs[p];
      var r := Created(s.queue, x.inquiry, x.emails[0], hash, s.now);
      if r.None? then SetProc(s, p, NextMailbox(x, x.budget))
      else SetProc(s, p, NextMailbox(x, x.budget - 1)).(queue := r.value)
    case ReadAudit(p) =>
      var i := s.procs[p].inquiry;
      SetProc(s, p, if i in s.audits then Idle else Auditing(i, |s.audits|))
    case WriteAudit(p) => SetProc(s, p, Idle).(audits := s.audits + [s.procs[p].inquiry])
    case Elsewhere(q) => s.(queue := q)
    case Crash(p) => SetProc(s, p, Idle)
  }

  ghost predicate CanRun(s: State, hash: Email -> nat, run: seq<Action>)
    decreases |run|
  {
    run == [] || (Enabled(s, run[0]) && CanRun(Apply(s, hash, run[0]), hash, run[1..]))
  }

  ghost function Exec(s: State, hash: Email -> nat, run: seq<Action>): State
    requires CanRun(s, hash, run)
    decreases |run|
  {
    if run == [] then s else Exec(Apply(s, hash, run[0]), hash, run[1..])
  }

  /** A condition on a state and the action about to be taken in it holds at every step. */
  ghost predicate Throughout(ok: (State, Action) -> bool, s: State, hash: Email -> nat, run: seq<Action>)
    requires CanRun(s, hash, run)
    decreases |run|
  {
    run == [] || (ok(s, run[0]) && Throughout(ok, Apply(s, hash, run[0]), hash, run[1..]))
  }

  /** The steps of one mailbox, taken in a row, are the step of the serial loop. */
  lemma MailboxIsEmailStep(s: State, hash: Email -> nat, p: nat, queued: nat, suppressed: bool)
    requires Enabled(s, CheckMailbox(p))
    ensures var x := s.procs[p];
      var r := EmailStep(Progress(s.queue, x.budget, queued, suppressed), x.inquiry, x.emails[0], hash, s.now);
      var looked := Apply(s, hash, CheckMailbox(p));
      var t := if looked.procs[p].Creating? then Apply(looked, hash, CreateJob(p)) else looked;
      t.queue == r.queue && t.procs[p] == Looking(x.inquiry, x.emails[1..], r.budget) && t.notices == s.notices
  {
  }

  // ----- one notice per staff member

  /** No staff member has two notices of the inquiry. */
  ghost predicate NotifiedOnce(s: State, x: InquiryId) {
    Distinct(NoticesOf(s.notices, x))
  }

  /** The action writes a notice for someone who got one of the same inquiry after this call read. */
  ghost predicate Clashes(s: State, a: Action, x: InquiryId) {
    && a.WriteNotices? && Enabled(s, a) && s.procs[a.p].inquiry == x && s.procs[a.p].since <= |s.notices|
    && exists k :: 0 <= k < |s.procs[a.p].targets| && Notice(s.procs[a.p].targets[k], x) in s.notices[s.procs[a.p].since..]
  }

  ghost predicate ProcInv(notices: seq<Notice>, x: Proc) {
    x.Notifying? ==>
      && x.since <= |notices| && Distinct(x.targets)
      && forall k :: 0 <= k < |x.targets| ==> Notice(x.targets[k], x.inquiry) !in notices[..x.since]
  }

  ghost predicate ReadsInv(s: State) {
    forall p :: 0 <= p < |s.procs| ==> ProcInv(s.notices, s.procs[p])
  }

  lemma {:induction false} TargetsAreNew(notices: seq<Notice>, staff: seq<UserId>, x: InquiryId)
    requires Distinct(staff)
    ensures Distinct(Targets(notices, staff, x))
    ensures forall u :: u in Targets(notices, staff, x) <==> u in staff && Notice(u, x) !in notices
  {
    if staff != [] {
      var n := |staff| - 1;
      assert staff == staff[..n] + [staff[n]];
      assert staff[n] !in staff[..n];
      TargetsAreNew(notices, staff[..n], x);
    }
  }

  lemma StepKeepsReads(s: State, hash: Email -> nat, a: Action)
    requires ReadsInv(s) && Enabled(s, a)
    ensures ReadsInv(Apply(s, hash, a))
  {
    var t := Apply(s, hash, a);
    forall p | 0 <= p < |t.procs| ensures ProcInv(t.notices, t.procs[p]) {
      assert ProcInv(s.notices, s.procs[p]);
      if t.procs[p] == s.procs[p] {
        if s.procs[p].Notifying? { assert t.notices[..s.procs[p].since] == s.notices[..s.procs[p].since]; }
      } else if a.ReadNotices? {
        TargetsAreNew(s.notices, a.staff, a.inquiry);
        assert s.notices[..|s.notices|] == s.notices;
      }
    }
  }

  lemma DistinctSum<T>(a: seq<T>, b: seq<T>)
    requires Distinct(b)
    ensures Distinct(a + b) <==> Distinct(a) && forall k :: 0 <= k < |b| ==> b[k] !in a
  {
    var c := a + b;
    if Distinct(c) {
      assert forall i :: 0 <= i < |a| ==> a[i] == c[i];
      forall k | 0 <= k < |b| ensures b[k] !in a { assert c[|a| + k] == b[k]; }
    }
  }

  /** One action leaves everybody with at most one notice iff they had at most one and it does not clash. */
  lemma StepNotifiesOnceIff(s: State, hash: Email -> nat, a: Action, x: InquiryId)
    requires ReadsInv(s) && Enabled(s, a)
    ensures NotifiedOnce(Apply(s, hash, a), x) <==> NotifiedOnce(s, x) && !Clashes(s, a, x)
  {
    if a.WriteNotices? {
      var c := s.procs[a.p];
      assert ProcInv(s.notices, c);
      NoticesOfAdded(s.notices, c.targets, c.inquiry, x);
      if c.inquiry == x {
        DistinctSum(NoticesOf(s.notices, x), c.targets);
        forall k | 0 <= k < |c.targets|
          ensures c.targets[k] in NoticesOf(s.notices, x) <==> Notice(c.targets[k], x) in s.notices[c.since..]
        {
          InNoticesOf(s.notices, x, c.targets[k]);
          assert s.notices == s.notices[..c.since] + s.notices[c.since..];
        }
        assert Clashes(s, a, x) <==> exists k :: 0 <= k < |c.targets| && c.targets[k] in NoticesOf(s.notices, x);
      } else {
        assert NoticesOf(s.notices, x) + [] == NoticesOf(s.notices, x);
      }
    }
  }

  /** Over every run of overlapping calls nobody has two notices of the inquiry iff no write of it clashes. */
  lemma {:induction false} NotifiedOnceIff(s: State, hash: Email -> nat, run: seq<Action>, x: InquiryId)
    requires ReadsInv(s) && CanRun(s, hash, run)
    ensures NotifiedOnce(Exec(s, hash, run), x) <==>
      NotifiedOnce(s, x) && Throughout((t: State, a: Action) => !Clashes(t, a, x), s, hash, run)
    decreases |run|
  {
    if run != [] {
      StepKeepsReads(s, hash, run[0]);
      StepNotifiesOnceIff(s, hash, run[0], x);
      NotifiedOnceIff(Apply(s, hash, run[0]), hash, run[1..], x);
    }
  }

  ghost predicate Between(s: State, p: nat, x: InquiryId)
    requires p < |s.procs|
  {
    s.procs[p].Notifying? && s.procs[p].inquiry == x
  }

  /** No two calls stand between read and write of the inquiry's notices. */
  ghost predicate OneAtATime(s: State, x: InquiryId) {
    forall p, q :: 0 <= p < |s.procs| && 0 <= q < |s.procs| && Between(s, p, x) && Between(s, q, x) ==> p == q
  }

  /** Nobody wrote a notice of the inquiry since a call in between read them. */
  ghost predicate NothingSince(s: State, x: InquiryId) {
    forall p :: 0 <= p < |s.procs| && Between(s, p, x) ==>
      s.procs[p].since <= |s.notices| && forall k :: s.procs[p].since <= k < |s.notices| ==> s.notices[k].inquiry != x
  }

  lemma NothingSinceNoClash(s: State, a: Action, x: InquiryId)
    requires NothingSince(s, x)
    ensures !Clashes(s, a, x)
  {
    if a.WriteNotices? && Enabled(s, a) && s.procs[a.p].inquiry == x {
      assert Between(s, a.p, x);
      assert forall n :: n in s.notices[s.procs[a.p].since..] ==> n.inquiry != x;
    }
  }

  lemma StepKeepsNothingSince(s: State, hash: Email -> nat, a: Action, x: InquiryId, t: State)
    requires Enabled(s, a) && OneAtATime(s, x) && NothingSince(s, x) && t == Apply(s, hash, a)
    ensures NothingSince(t, x)
  {
    forall p | 0 <= p < |t.procs| && Between(t, p, x)
      ensures t.procs[p].since <= |t.notices|
        && forall k :: t.procs[p].since <= k < |t.notices| ==> t.notices[k].inquiry != x
    {
      if t.procs[p] == s.procs[p] {
        assert Between(s, p, x);
        if a.WriteNotices? && s.procs[a.p].inquiry == x { assert Between(s, a.p, x); }
      }
    }
  }

  /** Calls that do not overlap on an inquiry notify nobody twice, crashes included. */
  lemma {:induction false} OneAtATimeSuffices(s: State, hash: Email -> nat, run: seq<Action>, x: InquiryId)
    requires ReadsInv(s) && CanRun(s, hash, run) && NotifiedOnce(s, x) && NothingSince(s, x)
    requires Throughout((t: State, a: Action) => OneAtATime(t, x), s, hash, run)
    ensures NotifiedOnce(Exec(s, hash, run), x)
    decreases |run|
  {
    if run != [] {
      NothingSinceNoClash(s, run[0], x);
      StepKeepsNothingSince(s, hash, run[0], x, Apply(s, hash, run[0]));
      StepKeepsReads(s, hash, run[0]);
      StepNotifiesOnceIff(s, hash, run[0], x);
      OneAtATimeSuffices(Apply(s, hash, run[0]), hash, run[1..], x);
    }
  }

  lemma One(s: State, hash: Email -> nat, a: Action)
    requires Enabled(s, a)
    ensures CanRun(s, hash, [a]) && Exec(s, hash, [a]) == Apply(s, hash, a)
  {
    var t := Apply(s, hash, a);
    assert [a][1..] == [] && CanRun(t, hash, []) && Exec(t, hash, []) == t;
  }

  lemma Two(s: State, hash: Email -> nat, a: Action, b: Action)
    requires Enabled(s, a) && Enabled(Apply(s, hash, a), b)
    ensures CanRun(s, hash, [a, b]) && Exec(s, hash, [a, b]) == Apply(Apply(s, hash, a), hash, b)
  {
    One(Apply(s, hash, a), hash, b);
    assert [a, b][1..] == [b];
  }

  lemma {:induction false} RunConcat(s: State, hash: Email -> nat, a: seq<Action>, b: seq<Action>)
    requires CanRun(s, hash, a) && CanRun(Exec(s, hash, a), hash, b)
    ensures CanRun(s, hash, a + b) && Exec(s, hash, a + b) == Exec(Exec(s, hash, a), hash, b)
    decreases |a|
  {
    if a == [] {
      assert a + b == b;
    } else {
      RunConcat(Apply(s, hash, a[0]), hash, a[1..], b);
      assert (a + b)[1..] == a[1..] + b;
    }
  }

  lemma ReadsAll(s: State, hash: Email -> nat, p: nat, x: InquiryId, staff: seq<UserId>)
    requires p < |s.procs| && s.procs[p].Idle? && NoticesOf(s.notices, x) == [] && staff != [] && Distinct(staff)
    ensures Enabled(s, ReadNotices(p, x, staff, [], 1))
    ensures Apply(s, hash, ReadNotices(p, x, staff, [], 1)) == SetProc(s, p, Notifying(x, staff, |s.notices|, [], 1))
  {
    AllTargets(s.notices, staff, x);
  }

  ghost predicate Waits(s: State, p: nat, x: InquiryId, staff: seq<UserId>) {
    p < |s.procs| && s.procs[p].Notifying? && s.procs[p].inquiry == x && s.procs[p].targets == staff
  }

  lemma WritesAll(s: State, hash: Email -> nat, p: nat, x: InquiryId, staff: seq<UserId>, t: State)
    requires Waits(s, p, x, staff) && t == Apply(s, hash, WriteNotices(p))
    ensures forall q :: q != p && Waits(s, q, x, staff) ==> Waits(t, q, x, staff)
    ensures NoticesOf(t.notices, x) == NoticesOf(s.notices, x) + staff
  {
    NoticesOfAdded(s.notices, staff, x, x);
  }

  lemma BothRead(s: State, hash: Email -> nat, p: nat, q: nat, x: InquiryId, staff: seq<UserId>, run: seq<Action>)
    requires p < |s.procs| && q < |s.procs| && p != q && s.procs[p].Idle? && s.procs[q].Idle?
    requires NoticesOf(s.notices, x) == [] && staff != [] && Distinct(staff)
    requires run == [ReadNotices(p, x, staff, [], 1), ReadNotices(q, x, staff, [], 1)]
    ensures CanRun(s, hash, run)
    ensures var t := Exec(s, hash, run); Waits(t, p, x, staff) && Waits(t, q, x, staff) && t.notices == s.notices
  {
    ReadsAll(s, hash, p, x, staff);
    var t := Apply(s, hash, run[0]);
    ReadsAll(t, hash, q, x, staff);
    Two(s, hash, run[0], run[1]);
  }

  lemma BothWrite(s: State, hash: Email -> nat, p: nat, q: nat, x: InquiryId, staff: seq<UserId>, run: seq<Action>)
    requires p != q && Waits(s, p, x, staff) && Waits(s, q, x, staff) && NoticesOf(s.notices, x) == []
    requires run == [WriteNotices(p), WriteNotices(q)]
    ensures CanRun(s, hash, run) && NoticesOf(Exec(s, hash, run).notices, x) == staff + staff
  {
    var t := Apply(s, hash, run[0]);
    WritesAll(s, hash, p, x, staff, t);
    assert NoticesOf(t.notices, x) == staff;
    WritesAll(t, hash, q, x, staff, Apply(t, hash, run[1]));
    Two(s, hash, run[0], run[1]);
  }

  /** The condition is needed: two calls that both read before either writes notify everybody twice, whoever the staff. */
  lemma OverlapNotifiesTwice(s: State, hash: Email -> nat, p: nat, q: nat, x: InquiryId, staff: seq<UserId>, run: seq<Action>)
    requires p < |s.procs| && q < |s.procs| && p != q && s.procs[p].Idle? && s.procs[q].Idle?
    requires NoticesOf(s.notices, x) == [] && staff != [] && Distinct(staff)
    requires run ==
      [ReadNotices(p, x, staff, [], 1), ReadNotices(q, x, staff, [], 1), WriteNotices(p), WriteNotices(q)]
    ensures CanRun(s, hash, run) && NoticesOf(Exec(s, hash, run).notices, x) == staff + staff
  {
    BothRead(s, hash, p, q, x, staff, run[..2]);
    BothWrite(Exec(s, hash, run[..2]), hash, p, q, x, staff, run[2..]);
    assert run == run[..2] + run[2..];
    RunConcat(s, hash, run[..2], run[2..]);
  }

  // ----- one audit row

  /** The action writes an audit row of an inquiry that got one after this call looked for it. */
  ghost predicate AuditsAgain(s: State, a: Action, x: InquiryId) {
    && a.WriteAudit? && Enabled(s, a) && s.procs[a.p].inquiry == x && s.procs[a.p].since <= |s.audits|
    && x in s.audits[s.procs[a.p].since..]
  }

  ghost predicate LooksInv(audits: seq<InquiryId>, x: Proc) {
    x.Auditing? ==> x.since <= |audits| && x.inquiry !in audits[..x.since]
  }

  ghost predicate AllLooksInv(s: State) {
    forall p :: 0 <= p < |s.procs| ==> LooksInv(s.audits, s.procs[p])
  }

  lemma StepKeepsLooks(s: State, hash: Email -> nat, a: Action)
    requires AllLooksInv(s) && Enabled(s, a)
    ensures AllLooksInv(Apply(s, hash, a))
  {
    var t := Apply(s, hash, a);
    forall p | 0 <= p < |t.procs| ensures LooksInv(t.audits, t.procs[p]) {
      assert LooksInv(s.audits, s.procs[p]);
      if t.procs[p] == s.procs[p] {
        if s.procs[p].Auditing? { assert t.audits[..s.procs[p].since] == s.audits[..s.procs[p].since]; }
      } else if a.ReadAudit? {
        assert s.audits[..|s.audits|] == s.audits;
      }
    }
  }

  lemma StepAuditsOnceIff(s: State, hash: Email -> nat, a: Action, x: InquiryId, t: State)
    requires AllLooksInv(s) && Enabled(s, a) && t == Apply(s, hash, a)
    ensures AuditsOf(t.audits, x) <= 1 <==> AuditsOf(s.audits, x) <= 1 && !AuditsAgain(s, a, x)
  {
    if a.WriteAudit? {
      var c := s.procs[a.p];
      assert LooksInv(s.audits, c);
      AuditsOfAdded(s.audits, c.inquiry, x);
      InAudits(s.audits, x);
      assert s.audits == s.audits[..c.since] + s.audits[c.since..];
    }
  }

  /** Over every run of overlapping calls an inquiry has at most one audit row iff no call writes one after another has
      since it looked. */
  lemma {:induction false} AuditedOnceIff(s: State, hash: Email -> nat, run: seq<Action>, x: InquiryId)
    requires AllLooksInv(s) && CanRun(s, hash, run)
    ensures AuditsOf(Exec(s, hash, run).audits, x) <= 1 <==>
      AuditsOf(s.audits, x) <= 1 && Throughout((t: State, a: Action) => !AuditsAgain(t, a, x), s, hash, run)
    decreases |run|
  {
    if run != [] {
      var t := Apply(s, hash, run[0]);
      StepKeepsLooks(s, hash, run[0]);
      StepAuditsOnceIff(s, hash, run[0], x, t);
      AuditedOnceIff(t, hash, run[1..], x);
    }
  }

  lemma LooksFirst(s: State, hash: Email -> nat, p: nat, x: InquiryId)
    requires p < |s.procs| && s.procs[p] == Looking(x, [], 0) && x !in s.audits
    ensures Enabled(s, ReadAudit(p)) && Apply(s, hash, ReadAudit(p)) == SetProc(s, p, Auditing(x, |s.audits|))
  {
  }

  /** The condition can fail: two calls at the end of their loops that both look before either writes. */
  lemma OverlapAuditsTwice(s: State, hash: Email -> nat, p: nat, q: nat, x: InquiryId, read: seq<Action>, write: seq<Action>)
    requires p < |s.procs| && q < |s.procs| && p != q && s.procs[p] == s.procs[q] == Looking(x, [], 0) && x !in s.audits
    requires read == [ReadAudit(p), ReadAudit(q)] && write == [WriteAudit(p), WriteAudit(q)]
    ensures CanRun(s, hash, read + write) && AuditsOf(Exec(s, hash, read + write).audits, x) == 2
  {
    LooksFirst(s, hash, p, x);
    var t := Apply(s, hash, read[0]);
    LooksFirst(t, hash, q, x);
    Two(s, hash, read[0], read[1]);
    var both := Exec(s, hash, read);
    InAudits(s.audits, x);
    AuditsOfAdded(s.audits, x, x);
    AuditsOfAdded(s.audits + [x], x, x);
    Two(both, hash, write[0], write[1]);
    RunConcat(s, hash, read, write);
  }

  // ----- one job per mailbox

  lemma StepKeepsLinked(s: State, hash: Email -> nat, a: Action)
    requires Enabled(s, a) && Linked(s.queue)
    ensures Linked(Apply(s, hash, a).queue)
  {
    if a.CreateJob? {
      var x := s.procs[a.p];
      if Created(s.queue, x.inquiry, x.emails[0], hash, s.now).Some? {
        EnqueueKeepsLinked(s.queue, SERVICE_INQUIRY_NOTIFY_EMAIL, InquiryKey(x.inquiry, hash(x.emails[0])), x.emails[0], s.now);
      }
    }
  }

  /** However calls overlap, an inquiry and a mailbox have at most one job, and job and delivery point at each other. */
  lemma {:induction false} OneJobPerKey(s: State, hash: Email -> nat, run: seq<Action>)
    requires CanRun(s, hash, run) && Linked(s.queue)
    ensures Linked(Exec(s, hash, run).queue)
    decreases |run|
  {
    if run != [] {
      StepKeepsLinked(s, hash, run[0]);
      OneJobPerKey(Apply(s, hash, run[0]), hash, run[1..]);
    }
  }

  // ----- the cap

  /** The action creates a job although the hour before already holds cap of them. */
  ghost predicate Overfills(s: State, hash: Email -> nat, a: Action, cap: nat) {
    && a.CreateJob? && Enabled(s, a) && Budget(s.queue, cap, s.now) <= 0
    && var x := s.procs[a.p]; Created(s.queue, x.inquiry, x.emails[0], hash, s.now).Some?
  }

  /** No inquiry job was created in the future. */
  ghost predicate Dated(s: State) {
    forall i :: 0 <= i < |s.queue.jobs| && s.queue.jobs[i].jobType.SERVICE_INQUIRY_NOTIFY_EMAIL? ==> s.queue.jobs[i].createdAt <= s.now
  }

  lemma StepKeepsDated(s: State, hash: Email -> nat, a: Action)
    requires Enabled(s, a) && Dated(s)
    ensures Dated(Apply(s, hash, a))
  {
    var t := Apply(s, hash, a);
    forall i | 0 <= i < |t.queue.jobs| && t.queue.jobs[i].jobType.SERVICE_INQUIRY_NOTIFY_EMAIL?
      ensures t.queue.jobs[i].createdAt <= t.now
    {
      if i < |s.queue.jobs| && a.Elsewhere? { assert SameKey(s.queue.jobs[i], t.queue.jobs[i]); }
    }
  }

  lemma {:induction false} RecentIsAWindow(jobs: seq<Job>, now: nat)
    requires forall i :: 0 <= i < |jobs| && jobs[i].jobType.SERVICE_INQUIRY_NOTIFY_EMAIL? ==> jobs[i].createdAt <= now
    ensures InWindow(jobs, now - 3600000) == Recent(jobs, now - 3600000)
  {
    if jobs != [] {
      var n := |jobs| - 1;
      assert jobs[..n] + [jobs[n]] == jobs;
      RecentIsAWindow(jobs[..n], now);
    }
  }

  /** Creating one job now keeps every hour under the cap iff every hour was and the last one has room. */
  lemma OneMoreUnderCapIff(jobs: seq<Job>, j: Job, cap: nat, now: nat)
    requires j.jobType.SERVICE_INQUIRY_NOTIFY_EMAIL? && j.createdAt == now
    requires forall i :: 0 <= i < |jobs| && jobs[i].jobType.SERVICE_INQUIRY_NOTIFY_EMAIL? ==> jobs[i].createdAt <= now
    ensures UnderCap(jobs + [j], cap) <==> UnderCap(jobs, cap) && Recent(jobs, now - 3600000) < cap
  {
    var lo := now - 3600000;
    if UnderCap(jobs + [j], cap) {
      CountsSnoc(jobs, j, lo);
      RecentIsAWindow(jobs, now);
      assert InWindow(jobs + [j], lo) <= cap;
      forall l: int ensures InWindow(jobs, l) <= cap {
        CountsSnoc(jobs, j, l);
        assert InWindow(jobs + [j], l) <= cap;
      }
    } else if UnderCap(jobs, cap) && Recent(jobs, lo) < cap {
      forall l: int ensures InWindow(jobs + [j], l) <= cap { OneMoreUnderCap(jobs, j, cap, now, l); }
    }
  }

  lemma ElsewhereKeepsCap(q: Queue, t: Queue, cap: nat)
    requires Extends(q, t)
    ensures UnderCap(t.jobs, cap) <==> UnderCap(q.jobs, cap)
  {
    forall lo: int ensures InWindow(t.jobs, lo) == InWindow(q.jobs, lo) { WindowOfExtension(q.jobs, t.jobs, lo); }
  }

  lemma CreatedJobs(q: Queue, x: InquiryId, e: Email, hash: Email -> nat, at: nat, t: Queue) returns (j: Job)
    requires Created(q, x, e, hash, at) == Some(t)
    ensures t.jobs == q.jobs + [j] && j.jobType.SERVICE_INQUIRY_NOTIFY_EMAIL? && j.createdAt == at
  {
    j := t.jobs[|q.jobs|];
  }

  lemma StepUnderCapIff(s: State, hash: Email -> nat, a: Action, cap: nat, t: State)
    requires Enabled(s, a) && Dated(s) && t == Apply(s, hash, a)
    ensures UnderCap(t.queue.jobs, cap) <==> UnderCap(s.queue.jobs, cap) && !Overfills(s, hash, a, cap)
  {
    if a.Elsewhere? {
      ElsewhereKeepsCap(s.queue, a.queue, cap);
    } else if a.CreateJob? {
      var x := s.procs[a.p];
      if Created(s.queue, x.inquiry, x.emails[0], hash, s.now).Some? {
        var j := CreatedJobs(s.queue, x.inquiry, x.emails[0], hash, s.now, t.queue);
        OneMoreUnderCapIff(s.queue.jobs, j, cap, s.now);
      }
    }
  }

  /** Over every run of overlapping calls the cap holds in every hour iff each job is created while the hour before
      its creation has room for it. */
  lemma {:induction false} CapHoldsIff(s: State, hash: Email -> nat, run: seq<Action>, cap: nat)
    requires Dated(s) && CanRun(s, hash, run)
    ensures UnderCap(Exec(s, hash, run).queue.jobs, cap) <==>
      UnderCap(s.queue.jobs, cap) && Throughout((t: State, a: Action) => !Overfills(t, hash, a, cap), s, hash, run)
    decreases |run|
  {
    if run != [] {
      var t := Apply(s, hash, run[0]);
      StepKeepsDated(s, hash, run[0]);
      StepUnderCapIff(s, hash, run[0], cap, t);
      CapHoldsIff(t, hash, run[1..], cap);
    }
  }

  /** Reading and counting, for a call with one mailbox and no staff. */
  lemma Counts(s: State, hash: Email -> nat, p: nat, x: InquiryId, e: Email, run: seq<Action>)
    requires p < |s.procs| && s.procs[p].Idle? && run == [ReadNotices(p, x, [], [e], 1), CountJobs(p)]
    ensures CanRun(s, hash, run)
    ensures Exec(s, hash, run) == SetProc(s, p, Looking(x, [e], Budget(s.queue, 1, s.now)))
  {
    Two(s, hash, run[0], run[1]);
  }

  lemma BothCount(s: State, hash: Email -> nat, p: nat, q: nat, x: InquiryId, y: InquiryId, e: Email, run: seq<Action>)
    requires p < |s.procs| && q < |s.procs| && p != q && s.procs[p].Idle? && s.procs[q].Idle? && s.queue == Queue([], [])
    requires run == [ReadNotices(p, x, [], [e], 1), CountJobs(p), ReadNotices(q, y, [], [e], 1), CountJobs(q)]
    ensures CanRun(s, hash, run)
    ensures Exec(s, hash, run) == SetProc(SetProc(s, p, Looking(x, [e], 1)), q, Looking(y, [e], 1))
  {
    Counts(s, hash, p, x, e, run[..2]);
    Counts(Exec(s, hash, run[..2]), hash, q, y, e, run[2..]);
    assert run == run[..2] + run[2..];
    RunConcat(s, hash, run[..2], run[2..]);
  }

  ghost predicate Reaches(s: State, hash: Email -> nat, run: seq<Action>, t: State) {
    CanRun(s, hash, run) && Exec(s, hash, run) == t
  }

  lemma ReachesOn(s: State, hash: Email -> nat, first: seq<Action>, m: State, second: seq<Action>, t: State)
    requires Reaches(s, hash, first, m) && Reaches(m, hash, second, t)
    ensures Reaches(s, hash, first + second, t)
  {
    RunConcat(s, hash, first, second);
  }

  /** Checking the mailbox and creating its job. */
  lemma Creates(s: State, hash: Email -> nat, p: nat, x: InquiryId, e: Email, run: seq<Action>) returns (t: State)
    requires p < |s.procs| && s.procs[p] == Looking(x, [e], 1) && run == [CheckMailbox(p), CreateJob(p)]
    requires !HasJob(s.queue.jobs, InquiryKey(x, hash(e))) && !HasDelivery(s.queue.deliveries, InquiryKey(x, hash(e)))
    ensures Reaches(s, hash, run, t) && Some(t.queue) == Created(s.queue, x, e, hash, s.now)
    ensures t.now == s.now && |t.procs| == |s.procs|
    ensures forall q :: 0 <= q < |s.procs| && q != p ==> t.procs[q] == s.procs[q]
  {
    Two(s, hash, run[0], run[1]);
    t := Exec(s, hash, run);
  }

  lemma CreatedCounts(q: Queue, x: InquiryId, e: Email, hash: Email -> nat, now: nat, t: Queue)
    requires Created(q, x, e, hash, now) == Some(t)
    ensures InWindow(t.jobs, now - 3600000) == InWindow(q.jobs, now - 3600000) + 1
  {
    var j := CreatedJobs(q, x, e, hash, now, t);
    CountsSnoc(q.jobs, j, now - 3600000);
  }

  lemma FirstLeavesRoom(x: InquiryId, y: InquiryId, e: Email, hash: Email -> nat, now: nat, t: Queue)
    requires x != y && Created(Queue([], []), x, e, hash, now) == Some(t)
    ensures !HasJob(t.jobs, InquiryKey(y, hash(e))) && !HasDelivery(t.deliveries, InquiryKey(y, hash(e)))
  {
  }

  lemma SecondCreates(s: State, hash: Email -> nat, q: nat, x: InquiryId, y: InquiryId, e: Email, run: seq<Action>)
    returns (t: State)
    requires q < |s.procs| && x != y && s.procs[q] == Looking(y, [e], 1) && run == [CheckMailbox(q), CreateJob(q)]
    requires Created(Queue([], []), x, e, hash, s.now) == Some(s.queue)
    ensures Reaches(s, hash, run, t) && InWindow(t.queue.jobs, s.now - 3600000) == 2
  {
    FirstLeavesRoom(x, y, e, hash, s.now, s.queue);
    CreatedCounts(Queue([], []), x, e, hash, s.now, s.queue);
    t := Creates(s, hash, q, y, e, run);
    CreatedCounts(s.queue, y, e, hash, s.now, t.queue);
  }

  lemma BothCreate(s: State, hash: Email -> nat, p: nat, q: nat, x: InquiryId, y: InquiryId, e: Email,
          first: seq<Action>, second: seq<Action>) returns (t: State)
    requires p < |s.procs| && q < |s.procs| && p != q && s.queue == Queue([], []) && x != y
    requires s.procs[p] == Looking(x, [e], 1) && s.procs[q] == Looking(y, [e], 1)
    requires first == [CheckMailbox(p), CreateJob(p)] && second == [CheckMailbox(q), CreateJob(q)]
    ensures Reaches(s, hash, first + second, t) && InWindow(t.queue.jobs, s.now - 3600000) == 2
  {
    var m := Creates(s, hash, p, x, e, first);
    t := SecondCreates(m, hash, q, x, y, e, second);
    ReachesOn(s, hash, first, m, second, t);
  }

  /** The condition is needed: under a cap of one, two inquiries whose calls both count before either creates
      get two jobs in the same hour. */
  lemma OverlapExceedsCap(s: State, hash: Email -> nat, p: nat, q: nat, x: InquiryId, y: InquiryId, e: Email,
          count: seq<Action>, create: seq<Action>)
    requires p < |s.procs| && q < |s.procs| && p != q && s.procs[p].Idle? && s.procs[q].Idle?
    requires s.queue == Queue([], []) && x != y
    requires count == [ReadNotices(p, x, [], [e], 1), CountJobs(p), ReadNotices(q, y, [], [e], 1), CountJobs(q)]
    requires create == [CheckMailbox(p), CreateJob(p), CheckMailbox(q), CreateJob(q)]
    ensures CanRun(s, hash, count + create)
    ensures InWindow(Exec(s, hash, count + create).queue.jobs, s.now - 3600000) == 2
  {
    BothCount(s, hash, p, q, x, y, e, count);
    var m := Exec(s, hash, count);
    var t := BothCreate(m, hash, p, q, x, y, e, create[..2], create[2..]);
    assert create == create[..2] + create[2..];
    ReachesOn(s, hash, count, m, create, t);
  }
}
