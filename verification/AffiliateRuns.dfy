/** Referral creation, maturation and clawback by any number of processes: each transaction is one
    action, each read before it is another, and anything may happen in between. */
module AffiliateRuns {
  import opened Wrappers
  import opened Affiliate

  /** What a process holds between a read and the transaction it prepares. */
  datatype Proc =
    | Idle
    | Creating(order: OrderId, account: AccountId, commission: nat, matureAt: nat)
    | Maturing(todo: seq<nat>, approved: nat)
    | Clawing(referral: nat, read: ReferralStatus)

  /** reported is the sum of the approvedCount values that calls have returned. */
  datatype State = State(db: Db, now: nat, procs: seq<Proc>, reported: nat)

  datatype Action =
    | Tick(ms: nat)
    | ReadOrder(p: nat, order: OrderId)
    | CommitCreate(p: nat, tx: Tx)
    | ReadMature(p: nat, batch: seq<nat>)
    | CommitMature(p: nat, tx: Tx)
    | Report(p: nat)
    | ReadClaw(p: nat, order: OrderId)
    | CommitClaw(p: nat, tx: Tx)
    | Crash(p: nat)

  ghost predicate Known(db: Db, i: nat) {
    i < |db.referrals| && db.referrals[i].affiliate in db.accounts
  }

  ghost predicate Enabled(s: State, a: Action) {
    a.Tick? ||
    (a.p < |s.procs| &&
     var x := s.procs[a.p];
     match a
     case ReadOrder(_, _) => x.Idle?
     case CommitCreate(_, _) => x.Creating?
     case ReadMature(_, batch) =>
       x.Idle? && forall k :: 0 <= k < |batch| ==>
         batch[k] < |s.db.referrals| && s.db.referrals[batch[k]].status.PENDING? && s.db.referrals[batch[k]].matureAt <= s.now
     case CommitMature(_, _) => x.Maturing? && x.todo != [] && Known(s.db, x.todo[0])
     case Report(_) => x.Maturing? && x.todo == []
     case ReadClaw(_, _) => x.Idle?
     case CommitClaw(_, _) => x.Clawing? && Known(s.db, x.referral)
     case _ => true)
  }

  ghost function SetProc(s: State, p: nat, x: Proc): State
    requires p < |s.procs|
  {
    s.(procs := s.procs[p := x])
  }

  ghost function Apply(b: Book, s: State, a: Action): State
    requires Enabled(s, a)
  {
    match a
    case Tick(ms) => s.(now := s.now + ms)
    case ReadOrder(p, o) =>
      var r := Resolve(b, o);
      if r.None? || Find(s.db.referrals, o).Some? then s
      else SetProc(s, p, Creating(o, r.value.0, r.value.1, s.now + HOLD_MS))
    case CommitCreate(p, tx) =>
      var x := s.procs[p];
      var t := CreateTx(s.db, x.account, x.order, x.commission, x.matureAt);
      SetProc(s, p, Idle).(db := if tx.Commits? && t.Some? then t.value else s.db)
    case ReadMature(p, batch) => SetProc(s, p, Maturing(batch, 0))
    case CommitMature(p, tx) =>
      var x := s.procs[p];
      var (t, count) := MatureTx(s.db, x.todo[0]);
      SetProc(s, p, Maturing(x.todo[1..], x.approved + if tx.Aborts? then 0 else count)).(db := if tx.Commits? then t else s.db)
    case Report(p) => SetProc(s, p, Idle).(reported := s.reported + s.procs[p].approved)
    case ReadClaw(p, o) =>
      var i := Find(s.db.referrals, o);
      if i.None? || !IsValidReferralTransition(s.db.referrals[i.value].status, REJECTED) then s
      else SetProc(s, p, Clawing(i.value, s.db.referrals[i.value].status))
    case CommitClaw(p, tx) =>
      var x := s.procs[p];
      SetProc(s, p, Idle).(db := if tx.Commits? then ClawbackTx(s.db, x.referral, x.read) else s.db)
    case Crash(p) => SetProc(s, p, Idle)
  }

  ghost predicate CanRun(b: Book, s: State, run: seq<Action>)
    decreases |run|
  {
    run == [] || (Enabled(s, run[0]) && CanRun(b, Apply(b, s, run[0]), run[1..]))
  }

  ghost function Exec(b: Book, s: State, run: seq<Action>): State
    requires CanRun(b, s, run)
    decreases |run|
  {
    if run == [] then s else Exec(b, Apply(b, s, run[0]), run[1..])
  }

  // ----- conservation

  /** The referral a clawback is about to reject still has the status the clawback read, or carries no money. */
  ghost predicate Fresh(s: State, a: Action)
    requires Enabled(s, a)
  {
    a.CommitClaw? && a.tx.Commits? ==>
      var x := s.procs[a.p]; s.db.referrals[x.referral].status == x.read || s.db.referrals[x.referral].commission == 0
  }

  ghost predicate FreshRun(b: Book, s: State, run: seq<Action>)
    requires CanRun(b, s, run)
    decreases |run|
  {
    run == [] || (Fresh(s, run[0]) && FreshRun(b, Apply(b, s, run[0]), run[1..]))
  }

  ghost predicate ProcsInv(s: State) {
    forall p :: 0 <= p < |s.procs| ==>
      && (s.procs[p].Clawing? ==> s.procs[p].referral < |s.db.referrals| && IsValidReferralTransition(s.procs[p].read, REJECTED))
      && (s.procs[p].Maturing? ==> InTable(s.procs[p].todo, |s.db.referrals|))
  }

  lemma StepKeepsProcs(b: Book, s: State, a: Action)
    requires ProcsInv(s) && Enabled(s, a)
    ensures ProcsInv(Apply(b, s, a))
  {
  }

  /** One action of one process conserves iff it is not a stale clawback. */
  lemma StepConservesIff(b: Book, s: State, a: Action)
    requires Consistent(s.db) && ProcsInv(s) && Enabled(s, a)
    ensures Consistent(Apply(b, s, a).db) <==> Fresh(s, a)
  {
    match a {
      case CommitCreate(p, tx) =>
        var x := s.procs[p];
        if CreateTx(s.db, x.account, x.order, x.commission, x.matureAt).Some? {
          CreateConserves(s.db, x.account, x.order, x.commission, x.matureAt);
        }
      case CommitMature(p, tx) => MatureConserves(s.db, s.procs[p].todo[0]);
      case CommitClaw(p, tx) => ClawbackConservesIff(s.db, s.procs[p].referral, s.procs[p].read);
      case _ =>
    }
  }

  /** Any interleaving in which no clawback commits on a status it did not read keeps every balance
      equal to the sum of its referrals. Creation and maturation need no such condition. */
  lemma {:induction false} RunConserves(b: Book, s: State, run: seq<Action>)
    requires Consistent(s.db) && ProcsInv(s) && CanRun(b, s, run) && FreshRun(b, s, run)
    ensures Consistent(Exec(b, s, run).db)
    decreases |run|
  {
    if run != [] {
      StepConservesIff(b, s, run[0]);
      StepKeepsProcs(b, s, run[0]);
      RunConserves(b, Apply(b, s, run[0]), run[1..]);
    }
  }

  lemma {:induction false} WithoutClawbacksIsFresh(b: Book, s: State, run: seq<Action>)
    requires CanRun(b, s, run) && forall k :: 0 <= k < |run| ==> !run[k].CommitClaw?
    ensures FreshRun(b, s, run)
    decreases |run|
  {
    if run != [] {
      WithoutClawbacksIsFresh(b, Apply(b, s, run[0]), run[1..]);
    }
  }

  /** Creation and maturation alone conserve in every interleaving, with no condition on the run. */
  lemma CreationAndMaturationConserve(b: Book, s: State, run: seq<Action>)
    requires Consistent(s.db) && ProcsInv(s) && CanRun(b, s, run)
    requires forall k :: 0 <= k < |run| ==> !run[k].CommitClaw?
    ensures var t := Exec(b, s, run).db;
      Consistent(t) && forall a :: a in t.accounts ==>
        var x := t.accounts[a]; x.pending >= 0 && x.available >= 0 && x.totalEarned == x.pending + x.available
  {
    WithoutClawbacksIsFresh(b, s, run);
    RunConserves(b, s, run);
    var t := Exec(b, s, run).db;
    forall a | a in t.accounts
      ensures var x := t.accounts[a]; x.pending >= 0 && x.available >= 0 && x.totalEarned == x.pending + x.available
    {
      assert Balanced(t, a);
    }
  }

  lemma Unfold(b: Book, s: State, a: Action, rest: seq<Action>)
    requires Enabled(s, a) && CanRun(b, Apply(b, s, a), rest)
    ensures CanRun(b, s, [a] + rest) && Exec(b, s, [a] + rest) == Exec(b, Apply(b, s, a), rest)
  {
    assert ([a] + rest)[1..] == rest;
  }

  const ONE_PENDING := Db(map[7 := Balances(10, 0, 10)], [Referral(7, 1, 10, PENDING, 0)])
  const ONE_APPROVED := Db(map[7 := Balances(0, 10, 10)], [Referral(7, 1, 10, APPROVED, 0)])
  const ONE_BROKEN := Db(map[7 := Balances(-10, 10, 0)], [Referral(7, 1, 10, REJECTED, 0)])

  lemma OneReferral()
    ensures Consistent(ONE_PENDING) && !Consistent(ONE_BROKEN)
    ensures MatureTx(ONE_PENDING, 0) == (ONE_APPROVED, 1) && ClawbackTx(ONE_APPROVED, 0, PENDING) == ONE_BROKEN
  {
    assert Adjust(ONE_PENDING.accounts, 7, -10, 10, 0) == ONE_APPROVED.accounts;
    assert Adjust(ONE_APPROVED.accounts, 7, -10, 0, -10) == ONE_BROKEN.accounts;
    assert ONE_PENDING.referrals[0 := Referral(7, 1, 10, APPROVED, 0)] == ONE_APPROVED.referrals;
    assert ONE_APPROVED.referrals[0 := Referral(7, 1, 10, REJECTED, 0)] == ONE_BROKEN.referrals;
    assert Balanced(ONE_PENDING, 7) && !Balanced(ONE_BROKEN, 7);
  }

  /** The condition is needed: a clawback reads a pending referral, the referral matures, the clawback
      commits. The money is taken from the wrong balance. */
  lemma StaleClawbackBreaksTheBalances(b: Book) returns (s: State, run: seq<Action>)
    ensures s == State(ONE_PENDING, 0, [Idle, Idle], 0) && Consistent(s.db)
    ensures CanRun(b, s, run) && Exec(b, s, run).db == ONE_BROKEN && !Consistent(Exec(b, s, run).db)
  {
    OneReferral();
    s := State(ONE_PENDING, 0, [Idle, Idle], 0);
    var s1 := State(ONE_PENDING, 0, [Clawing(0, PENDING), Idle], 0);
    var s2 := State(ONE_PENDING, 0, [Clawing(0, PENDING), Maturing([0], 0)], 0);
    var s3 := State(ONE_APPROVED, 0, [Clawing(0, PENDING), Maturing([], 1)], 0);
    var s4 := State(ONE_BROKEN, 0, [Idle, Maturing([], 1)], 0);
    assert Apply(b, s, ReadClaw(0, 1)) == s1;
    assert Apply(b, s1, ReadMature(1, [0])) == s2;
    assert [0][1..] == [] && s2.procs[1 := Maturing([], 1)] == s3.procs;
    assert Apply(b, s2, CommitMature(1, Commits)) == s3;
    assert Apply(b, s3, CommitClaw(0, Commits)) == s4;
    run := [CommitClaw(0, Commits)] + [];
    Unfold(b, s3, CommitClaw(0, Commits), []);
    Unfold(b, s2, CommitMature(1, Commits), run);
    run := [CommitMature(1, Commits)] + run;
    Unfold(b, s1, ReadMature(1, [0]), run);
    run := [ReadMature(1, [0])] + run;
    Unfold(b, s, ReadClaw(0, 1), run);
    run := [ReadClaw(0, 1)] + run;
  }

  // ----- who is credited, and when

  /** Referrals and the creations under way are for the account their order earns for. */
  ghost predicate Earned(b: Book, s: State) {
    && (forall i :: 0 <= i < |s.db.referrals| ==> Earns(b, s.db.referrals[i].order, s.db.referrals[i].affiliate))
    && (forall p :: 0 <= p < |s.procs| && s.procs[p].Creating? ==> Earns(b, s.procs[p].order, s.procs[p].account))
  }

  lemma StepKeepsEarned(b: Book, s: State, a: Action, t: State)
    requires Earned(b, s) && Enabled(s, a) && t == Apply(b, s, a)
    ensures Earned(b, t)
  {
    if a.ReadOrder? && Resolve(b, a.order).Some? {
      var r := Resolve(b, a.order).value;
      ResolveIff(b, a.order, r.0, r.1);
    }
  }

  lemma {:induction false} RunKeepsEarned(b: Book, s: State, run: seq<Action>)
    requires Earned(b, s) && CanRun(b, s, run)
    ensures Earned(b, Exec(b, s, run))
    decreases |run|
  {
    if run != [] {
      StepKeepsEarned(b, s, run[0], Apply(b, s, run[0]));
      RunKeepsEarned(b, Apply(b, s, run[0]), run[1..]);
    }
  }

  /** In no interleaving is anybody credited for an order of their own, or while not active. */
  lemma NobodyEarnsFromThemselves(b: Book, s: State, run: seq<Action>)
    requires s.db.referrals == [] && (forall p :: 0 <= p < |s.procs| ==> s.procs[p].Idle?) && CanRun(b, s, run)
    ensures var rs := Exec(b, s, run).db.referrals; forall i :: 0 <= i < |rs| ==>
      && rs[i].order in b.orders && rs[i].affiliate in b.profiles
      && b.profiles[rs[i].affiliate].userId != b.orders[rs[i].order].userId
      && b.profiles[rs[i].affiliate].status == AFF_ACTIVE
  {
    RunKeepsEarned(b, s, run);
  }

  /** Before the time, the order's referral is neither approved nor about to be. */
  ghost predicate OnHold(s: State, o: OrderId, until: nat) {
    && (forall i :: 0 <= i < |s.db.referrals| && s.db.referrals[i].order == o ==>
         until <= s.db.referrals[i].matureAt && (s.db.referrals[i].status.APPROVED? ==> until <= s.now))
    && (forall p :: 0 <= p < |s.procs| && s.procs[p].Creating? && s.procs[p].order == o ==> until <= s.procs[p].matureAt)
    && (forall p, k :: 0 <= p < |s.procs| && s.procs[p].Maturing? && 0 <= k < |s.procs[p].todo| ==>
         s.procs[p].todo[k] < |s.db.referrals| && (s.db.referrals[s.procs[p].todo[k]].order == o ==> until <= s.now))
  }

  lemma StepKeepsOnHold(b: Book, s: State, a: Action, o: OrderId, until: nat, t: State)
    requires OnHold(s, o, until) && Enabled(s, a) && t == Apply(b, s, a)
    requires a.ReadOrder? ==> until <= s.now + 2592000000
    ensures OnHold(t, o, until) && s.now <= t.now
  {
  }

  lemma {:induction false} RunKeepsOnHold(b: Book, s: State, run: seq<Action>, o: OrderId, until: nat)
    requires OnHold(s, o, until) && CanRun(b, s, run) && until <= s.now + 2592000000
    ensures OnHold(Exec(b, s, run), o, until)
    decreases |run|
  {
    if run != [] {
      StepKeepsOnHold(b, s, run[0], o, until, Apply(b, s, run[0]));
      RunKeepsOnHold(b, Apply(b, s, run[0]), run[1..], o, until);
    }
  }

  /** No commission becomes available within 30 days: while an order has no referral and nobody is making one,
      its approval is at least that far away in every interleaving. */
  lemma HeldForThirtyDays(b: Book, s: State, run: seq<Action>, i: nat)
    requires ProcsInv(s) && CanRun(b, s, run)
    requires var rs := Exec(b, s, run).db.referrals; i < |rs| && rs[i].status.APPROVED?
    requires var o := Exec(b, s, run).db.referrals[i].order;
      && (forall j :: 0 <= j < |s.db.referrals| ==> s.db.referrals[j].order != o)
      && (forall p :: 0 <= p < |s.procs| && s.procs[p].Creating? ==> s.procs[p].order != o)
    ensures s.now + 2592000000 <= Exec(b, s, run).now
  {
    RunKeepsOnHold(b, s, run, Exec(b, s, run).db.referrals[i].order, s.now + 2592000000);
  }

  // ----- counting

  /** Referrals that one action took from PENDING to APPROVED. */
  ghost function Left(x: seq<Referral>, y: seq<Referral>): nat
    requires |x| <= |y|
  {
    if x == [] then 0
    else
      var n := |x| - 1;
      Left(x[..n], y[..n]) + if x[n].status.PENDING? && y[n].status.APPROVED? then 1 else 0
  }

  /** Over a run: referrals that left PENDING by maturation. */
  ghost function Matured(b: Book, s: State, run: seq<Action>): nat
    requires CanRun(b, s, run)
    decreases |run|
  {
    if run == [] then 0
    else
      var t := Apply(b, s, run[0]);
      (if |s.db.referrals| <= |t.db.referrals| then Left(s.db.referrals, t.db.referrals) else 0) + Matured(b, t, run[1..])
  }

  /** Over a run: maturations counted by a callback whose transaction then failed to commit. */
  ghost function LateAborts(b: Book, s: State, run: seq<Action>): nat
    requires CanRun(b, s, run)
    decreases |run|
  {
    if run == [] then 0
    else
      (if run[0].CommitMature? && run[0].tx.AbortsLate? then MatureTx(s.db, s.procs[run[0].p].todo[0]).1 else 0)
      + LateAborts(b, Apply(b, s, run[0]), run[1..])
  }

  /** Over a run: counts that died with their process. */
  ghost function LostCounts(b: Book, s: State, run: seq<Action>): nat
    requires CanRun(b, s, run)
    decreases |run|
  {
    if run == [] then 0
    else
      (if run[0].Crash? && s.procs[run[0].p].Maturing? then s.procs[run[0].p].approved else 0)
      + LostCounts(b, Apply(b, s, run[0]), run[1..])
  }

  ghost function ApprovedBy(x: Proc): nat {
    if x.Maturing? then x.approved else 0
  }

  /** Counts of calls that have not returned yet. */
  ghost function InFlight(procs: seq<Proc>): nat {
    if procs == [] then 0
    else InFlight(procs[..|procs| - 1]) + ApprovedBy(procs[|procs| - 1])
  }

  lemma {:induction false} InFlightUpdate(procs: seq<Proc>, p: nat, x: Proc)
    requires p < |procs|
    ensures InFlight(procs[p := x]) == InFlight(procs) - ApprovedBy(procs[p]) + ApprovedBy(x)
  {
    var n := |procs| - 1;
    if p == n {
      assert procs[p := x][..n] == procs[..n];
    } else {
      InFlightUpdate(procs[..n], p, x);
      assert procs[p := x][..n] == procs[..n][p := x];
    }
  }

  lemma {:induction false} LeftNothing(x: seq<Referral>, y: seq<Referral>)
    requires |x| <= |y| && forall i :: 0 <= i < |x| ==> !(x[i].status.PENDING? && y[i].status.APPROVED?)
    ensures Left(x, y) == 0
  {
    if x != [] { LeftNothing(x[..|x| - 1], y[..|x| - 1]); }
  }

  lemma {:induction false} LeftOne(x: seq<Referral>, y: seq<Referral>, i: nat)
    requires i < |x| == |y| && x[i].status.PENDING? && y[i].status.APPROVED?
    requires forall k :: 0 <= k < |x| && k != i ==> x[k] == y[k]
    ensures Left(x, y) == 1
  {
    var n := |x| - 1;
    if i == n { LeftNothing(x[..n], y[..n]); } else { LeftOne(x[..n], y[..n], i); }
  }

  lemma StepCounts(b: Book, s: State, a: Action)
    requires Enabled(s, a)
    ensures var t := Apply(b, s, a);
      && |s.db.referrals| <= |t.db.referrals|
      && t.reported + InFlight(t.procs) + (if a.Crash? then ApprovedBy(s.procs[a.p]) else 0) ==
         s.reported + InFlight(s.procs) + Left(s.db.referrals, t.db.referrals)
         + (if a.CommitMature? && a.tx.AbortsLate? then MatureTx(s.db, s.procs[a.p].todo[0]).1 else 0)
  {
    var t := Apply(b, s, a);
    if !a.Tick? && t.procs != s.procs { InFlightUpdate(s.procs, a.p, t.procs[a.p]); }
    if a.CommitMature? && a.tx.Commits? && s.db.referrals[s.procs[a.p].todo[0]].status.PENDING? {
      LeftOne(s.db.referrals, t.db.referrals, s.procs[a.p].todo[0]);
    } else {
      LeftNothing(s.db.referrals, t.db.referrals);
    }
  }

  /** The reported counts, over any interleaving: what matured, plus what a callback counted and the
      commit then refused, minus what is not returned yet or never will be. */
  lemma {:induction false} CountsAddUp(b: Book, s: State, run: seq<Action>)
    requires CanRun(b, s, run)
    ensures var t := Exec(b, s, run);
      t.reported + InFlight(t.procs) + LostCounts(b, s, run) ==
      s.reported + InFlight(s.procs) + Matured(b, s, run) + LateAborts(b, s, run)
    decreases |run|
  {
    if run != [] {
      StepCounts(b, s, run[0]);
      CountsAddUp(b, Apply(b, s, run[0]), run[1..]);
    }
  }

  /** So over calls that all return, the reported counts equal the referrals that matured iff no
      transaction failed to commit after its callback had counted. */
  lemma ReportedEqualsMaturedIff(b: Book, s: State, run: seq<Action>)
    requires CanRun(b, s, run)
    requires InFlight(s.procs) == 0 && InFlight(Exec(b, s, run).procs) == 0 && LostCounts(b, s, run) == 0
    ensures Exec(b, s, run).reported - s.reported == Matured(b, s, run) <==> LateAborts(b, s, run) == 0
  {
    CountsAddUp(b, s, run);
  }

  /** The condition is needed: one call, whose one commit fails late, reports an approval that was rolled back. */
  lemma LateAbortIsReported(b: Book, s: State) returns (run: seq<Action>)
    requires s == State(ONE_PENDING, 0, [Idle], 0)
    ensures run == [ReadMature(0, [0]), CommitMature(0, AbortsLate), Report(0)]
    ensures CanRun(b, s, run) && Exec(b, s, run) == State(ONE_PENDING, 0, [Idle], 1)
  {
    OneReferral();
    var s1 := State(ONE_PENDING, 0, [Maturing([0], 0)], 0);
    var s2 := State(ONE_PENDING, 0, [Maturing([], 1)], 0);
    assert Apply(b, s, ReadMature(0, [0])) == s1;
    assert [0][1..] == [];
    assert Apply(b, s1, CommitMature(0, AbortsLate)) == s2;
    Unfold(b, s2, Report(0), []);
    Unfold(b, s1, CommitMature(0, AbortsLate), [Report(0)] + []);
    run := [CommitMature(0, AbortsLate)] + ([Report(0)] + []);
    Unfold(b, s, ReadMature(0, [0]), run);
    run := [ReadMature(0, [0])] + run;
  }
}
