/** The affiliate processor over its two tables, one call at a time. */
module AffiliateProcessor {
  import opened Wrappers
  import opened Affiliate
  import opened AffiliateRuns

  datatype Passed = Passed(db: Db, counted: nat)

  ghost predicate CanMature(db: Db, i: nat) {
    i < |db.referrals| && db.referrals[i].affiliate in db.accounts
  }

  /** One transaction of a pass; what its callback counts stays even when the commit fails. */
  ghost function PassStep(p: Passed, i: nat, tx: Tx): Passed
    requires CanMature(p.db, i)
  {
    var (after, count) := MatureTx(p.db, i);
    Passed(if tx.Commits? then after else p.db, p.counted + if tx.Aborts? then 0 else count)
  }

  /** A maturation pass whose transactions end as tx says: the tables it leaves and what its callbacks counted. */
  ghost function Pass(db: Db, batch: seq<nat>, tx: nat -> Tx): (r: Passed)
    requires WellFormed(db) && InTable(batch, |db.referrals|)
    ensures WellFormed(r.db) && |r.db.referrals| == |db.referrals| && r.db.accounts.Keys == db.accounts.Keys
    ensures forall k :: 0 <= k < |db.referrals| && r.db.referrals[k].status.PENDING? ==> db.referrals[k].status.PENDING?
  {
    if batch == [] then Passed(db, 0)
    else
      var n := |batch| - 1;
      PassStep(Pass(db, batch[..n], tx), batch[n], tx(n))
  }

  lemma PassUnfolds(db: Db, batch: seq<nat>, front: seq<nat>, i: nat, tx: nat -> Tx)
    requires batch != [] && front == batch[..|batch| - 1] && i == batch[|batch| - 1]
    requires WellFormed(db) && InTable(batch, |db.referrals|)
    ensures CanMature(Pass(db, front, tx).db, i) && Pass(db, batch, tx) == PassStep(Pass(db, front, tx), i, tx(|front|))
  {
  }

  lemma OneMoreReferral(db: Db, batch: seq<nat>, k: nat, tx: nat -> Tx, front: seq<nat>, more: seq<nat>)
    requires WellFormed(db) && InTable(batch, |db.referrals|) && k < |batch| && front == batch[..k] && more == batch[..k + 1]
    ensures CanMature(Pass(db, front, tx).db, batch[k]) && Pass(db, more, tx) == PassStep(Pass(db, front, tx), batch[k], tx(k))
  {
    assert more[..k] == front;
    PassUnfolds(db, more, front, batch[k], tx);
  }

  lemma {:induction false} MaturePassSnoc(db: Db, batch: seq<nat>, i: nat)
    requires WellFormed(db) && InTable(batch, |db.referrals|) && i < |db.referrals|
    ensures InTable(batch + [i], |db.referrals|)
    ensures MaturePass(db, batch + [i]) == MatureTx(MaturePass(db, batch), i).0
    decreases |batch|
  {
    if batch == [] {
      assert [i][1..] == [];
      assert batch + [i] == [i];
    } else {
      MaturePassSnoc(MatureTx(db, batch[0]).0, batch[1..], i);
      assert (batch + [i])[1..] == batch[1..] + [i];
    }
  }

  /** When every transaction commits, the pass is the one the conservation lemmas are about. */
  lemma {:induction false} PassCommits(db: Db, batch: seq<nat>, tx: nat -> Tx)
    requires WellFormed(db) && InTable(batch, |db.referrals|)
    requires forall k :: 0 <= k < |batch| ==> tx(k).Commits?
    ensures Pass(db, batch, tx).db == MaturePass(db, batch)
  {
    if batch != [] {
      var n := |batch| - 1;
      PassCommits(db, batch[..n], tx);
      MaturePassSnoc(db, batch[..n], batch[n]);
      assert batch == batch[..n] + [batch[n]];
    }
  }

  lemma {:induction false} LeftPlusOne(x: seq<Referral>, y: seq<Referral>, i: nat)
    requires i < |x| == |y| && x[i].status.PENDING? && y[i].status.PENDING?
    ensures Left(x, y[i := y[i].(status := APPROVED)]) == Left(x, y) + 1
  {
    var n := |x| - 1;
    var z := y[i := y[i].(status := APPROVED)];
    if i == n {
      assert z[..n] == y[..n];
    } else {
      LeftPlusOne(x[..n], y[..n], i);
      assert z[..n] == y[..n][i := y[i].(status := APPROVED)];
    }
  }

  /** One more approval, of a referral that was pending all along. */
  lemma {:induction false} LeftMore(x: seq<Referral>, db: Db, i: nat)
    requires WellFormed(db) && |x| == |db.referrals| && i < |x|
    requires forall k :: 0 <= k < |x| && db.referrals[k].status.PENDING? ==> x[k].status.PENDING?
    ensures Left(x, MatureTx(db, i).0.referrals) == Left(x, db.referrals) + MatureTx(db, i).1
  {
    var y := db.referrals;
    if y[i].status.PENDING? {
      LeftPlusOne(x, y, i);
    }
  }

  /** The count a pass returns is what it approved exactly when no transaction fails after its callback. */
  lemma {:induction false} PassCounts(db: Db, batch: seq<nat>, tx: nat -> Tx)
    requires WellFormed(db) && InTable(batch, |db.referrals|)
    ensures var p := Pass(db, batch, tx); Left(db.referrals, p.db.referrals) <= p.counted
    ensures (forall k :: 0 <= k < |batch| ==> !tx(k).AbortsLate?) ==>
      var p := Pass(db, batch, tx); p.counted == Left(db.referrals, p.db.referrals)
  {
    if batch == [] {
      LeftNothing(db.referrals, db.referrals);
    } else {
      var n := |batch| - 1;
      PassCounts(db, batch[..n], tx);
      LeftMore(db.referrals, Pass(db, batch[..n], tx).db, batch[n]);
    }
  }

  /** Mature referrals by end of their hold, at most limit of them, and no later one while an earlier one is left out. */
  ghost predicate IsMatureBatch(rs: seq<Referral>, now: nat, limit: nat, batch: seq<nat>) {
    && |batch| <= limit && InTable(batch, |rs|)
    && (forall k :: 0 <= k < |batch| ==> rs[batch[k]].status.PENDING? && rs[batch[k]].matureAt <= now)
    && (forall j, k :: 0 <= j < k < |batch| ==> batch[j] != batch[k] && rs[batch[j]].matureAt <= rs[batch[k]].matureAt)
    && (forall i :: 0 <= i < |rs| && rs[i].status.PENDING? && rs[i].matureAt <= now && i !in batch ==>
         |batch| == limit && forall k :: 0 <= k < |batch| ==> rs[batch[k]].matureAt <= rs[i].matureAt)
  }

  /** Exactly the referrals of the first n of a batch whose transactions commit have been approved. */
  ghost predicate Approved(rs: seq<Referral>, batch: seq<nat>, n: nat, tx: nat -> Tx, t: seq<Referral>)
    requires n <= |batch| && InTable(batch, |rs|)
  {
    && |t| == |rs|
    && (forall i :: 0 <= i < |rs| && i !in batch[..n] ==> t[i] == rs[i])
    && (forall k :: 0 <= k < n ==> t[batch[k]] == if tx(k).Commits? then rs[batch[k]].(status := APPROVED) else rs[batch[k]])
  }

  lemma ApprovedSnoc(rs: seq<Referral>, batch: seq<nat>, n: nat, tx: nat -> Tx, t: seq<Referral>, u: seq<Referral>)
    requires n < |batch| && InTable(batch, |rs|) && Approved(rs, batch, n, tx, t)
    requires (forall j, k :: 0 <= j < k < |batch| ==> batch[j] != batch[k]) && rs[batch[n]].status.PENDING?
    requires u == if tx(n).Commits? then t[batch[n] := t[batch[n]].(status := APPROVED)] else t
    ensures Approved(rs, batch, n + 1, tx, u)
  {
    assert batch[..n + 1] == batch[..n] + [batch[n]];
    assert batch[n] !in batch[..n];
    assert t[batch[n]] == rs[batch[n]];
  }

  lemma StepApproves(p: Passed, i: nat, tx: Tx)
    requires CanMature(p.db, i) && p.db.referrals[i].status.PENDING?
    ensures PassStep(p, i, tx).db.referrals ==
      if tx.Commits? then p.db.referrals[i := p.db.referrals[i].(status := APPROVED)] else p.db.referrals
  {
  }

  /** What a pass does with nobody else at work. */
  lemma OneMoreApproved(rs: seq<Referral>, batch: seq<nat>, n: nat, tx: nat -> Tx, p: Passed, r: Passed)
    requires n < |batch| && InTable(batch, |rs|) && Approved(rs, batch, n, tx, p.db.referrals)
    requires (forall j, k :: 0 <= j < k < |batch| ==> batch[j] != batch[k]) && rs[batch[n]].status.PENDING?
    requires CanMature(p.db, batch[n]) && r == PassStep(p, batch[n], tx(n))
    ensures Approved(rs, batch, n + 1, tx, r.db.referrals)
  {
    assert batch[n] !in batch[..n];
    StepApproves(p, batch[n], tx(n));
    ApprovedSnoc(rs, batch, n, tx, p.db.referrals, r.db.referrals);
  }

  lemma {:induction false} PassApproves(db: Db, batch: seq<nat>, n: nat, tx: nat -> Tx, p: Passed)
    requires WellFormed(db) && n <= |batch| && InTable(batch, |db.referrals|)
    requires forall j, k :: 0 <= j < k < |batch| ==> batch[j] != batch[k]
    requires forall k :: 0 <= k < |batch| ==> db.referrals[batch[k]].status.PENDING?
    requires p == Pass(db, batch[..n], tx)
    ensures Approved(db.referrals, batch, n, tx, p.db.referrals)
  {
    if n == 0 {
      assert p == Passed(db, 0);
    } else {
      var before := Pass(db, batch[..n - 1], tx);
      PassApproves(db, batch, n - 1, tx, before);
      OneMoreReferral(db, batch, n - 1, tx, batch[..n - 1], batch[..n]);
      OneMoreApproved(db.referrals, batch, n - 1, tx, before, p);
    }
  }

  lemma BatchApproves(db: Db, now: nat, limit: nat, batch: seq<nat>, tx: nat -> Tx, p: Passed)
    requires WellFormed(db) && IsMatureBatch(db.referrals, now, limit, batch) && p == Pass(db, batch, tx)
    ensures Approved(db.referrals, batch, |batch|, tx, p.db.referrals)
  {
    assert batch[..|batch|] == batch;
    PassApproves(db, batch, |batch|, tx, p);
  }

  /** What the first call returns: null, the referral there is, the one it made, or nothing because it threw. */
  datatype Returned = Nothing | Existing(i: nat) | Created(i: nat) | Threw

  class AffiliateTables {
    var accounts: map<AccountId, Balances>
    var referrals: seq<Referral>

    ghost function State(): Db
      reads this
    {
      Db(accounts, referrals)
    }

    /** commits says whether the transaction does; one that names an account the table lacks never does. */
    method ProcessAffiliateReferralForOrder(b: Book, orderId: OrderId, now: nat, commits: bool) returns (r: Returned)
      requires WellFormed(State())
      modifies this
      ensures WellFormed(State())
      ensures r.Nothing? <==> !exists a :: Earns(b, orderId, a)
      ensures r.Existing? <==> (exists a :: Earns(b, orderId, a)) && exists x :: x in old(referrals) && x.order == orderId
      ensures r.Existing? ==> r.i < |referrals| && referrals[r.i].order == orderId
      ensures r.Created? <==>
        && commits && (exists a :: Earns(b, orderId, a) && a in old(accounts))
        && forall x :: x in old(referrals) ==> x.order != orderId
      ensures r.Created? ==>
        && r.i == |old(referrals)| && |referrals| == r.i + 1 && referrals[..r.i] == old(referrals)
        && referrals[r.i].affiliate in old(accounts) && Earns(b, orderId, referrals[r.i].affiliate)
        && var x := referrals[r.i]; var y := old(accounts)[x.affiliate];
           && x.order == orderId
           && b.profiles[x.affiliate].userId != b.orders[orderId].userId && b.profiles[x.affiliate].status == AFF_ACTIVE
           && x.commission == CommissionMinor(b.orders[orderId].totalAmount, b.profiles[x.affiliate].commissionRateBp)
           && x.status == PENDING && x.matureAt == now + 2592000000
           && accounts == old(accounts)[x.affiliate :=
                Balances(y.pending + x.commission, y.available, y.totalEarned + x.commission)]
      ensures !r.Created? ==> accounts == old(accounts) && referrals == old(referrals)
      ensures State() == if r.Created? then ProcessOrder(old(State()), b, orderId, now) else old(State())
    {
      if orderId !in b.orders { return Nothing; }
      var order := b.orders[orderId];
      var affiliateId := order.affiliateId;
      if affiliateId.None? && order.affiliateCode.Some? && order.affiliateCode.value in b.codes {
        affiliateId := Some(b.codes[order.affiliateCode.value]);
      }
      if affiliateId.None? || affiliateId.value !in b.profiles { return Nothing; }
      var a := affiliateId.value;
      ResolveIff(b, orderId, a, CommissionMinor(b.orders[orderId].totalAmount, b.profiles[a].commissionRateBp));
      if !b.profiles[a].status.AFF_ACTIVE? || b.profiles[a].userId == order.userId { return Nothing; }
      var existing := Find(referrals, orderId);
      if existing.Some? { return Existing(existing.value); }
      var commission := CommissionMinor(order.totalAmount, b.profiles[a].commissionRateBp);
      if !commits || a !in accounts { return Threw; }
      var x := accounts[a];
      accounts := accounts[a := Balances(x.pending + commission, x.available, x.totalEarned + commission)];
      referrals := referrals + [Referral(a, orderId, commission, PENDING, now + HOLD_MS)];
      return Created(|referrals| - 1);
    }

    /** True when a referral was rejected. */
    method ClawbackAffiliateReferralForOrder(orderId: OrderId) returns (done: bool)
      requires WellFormed(State())
      modifies this
      ensures WellFormed(State()) && State() == Clawback(old(State()), orderId)
      ensures done <==> (exists r :: r in old(referrals) && r.order == orderId && (r.status.PENDING? || r.status.APPROVED?))
    {
      var found := Find(referrals, orderId);
      if found.None? { return false; }
      var i := found.value;
      var r := referrals[i];
      if !IsValidReferralTransition(r.status, REJECTED) { return false; }
      referrals := referrals[i := r.(status := REJECTED)];
      var x := accounts[r.affiliate];
      if r.status.PENDING? {
        accounts := accounts[r.affiliate := Balances(x.pending - r.commission, x.available, x.totalEarned - r.commission)];
      } else if r.status.APPROVED? {
        accounts := accounts[r.affiliate := Balances(x.pending, x.available - r.commission, x.totalEarned - r.commission)];
      }
      return true;
    }

    /** One transaction of the pass; what it adds to the count stays even when the commit fails. */
    method MatureOne(i: nat, tx: Tx) returns (counted: nat)
      requires WellFormed(State()) && i < |referrals|
      modifies this
      ensures WellFormed(State())
      ensures State() == if tx.Commits? then MatureTx(old(State()), i).0 else old(State())
      ensures counted == if tx.Aborts? then 0 else MatureTx(old(State()), i).1
    {
      var r := referrals[i];
      counted := if r.status.PENDING? && !tx.Aborts? then 1 else 0;
      if r.status.PENDING? && tx.Commits? {
        referrals := referrals[i := r.(status := APPROVED)];
        var x := accounts[r.affiliate];
        accounts := accounts[r.affiliate := Balances(x.pending - r.commission, x.available + r.commission, x.totalEarned)];
      }
    }

    method MatureEach(batch: seq<nat>, tx: nat -> Tx) returns (approvedCount: nat)
      requires WellFormed(State()) && InTable(batch, |referrals|)
      modifies this
      ensures WellFormed(State()) && Passed(State(), approvedCount) == Pass(old(State()), batch, tx)
    {
      approvedCount := 0;
      for k := 0 to |batch|
        invariant WellFormed(State()) && |referrals| == |old(referrals)|
        invariant Passed(State(), approvedCount) == Pass(old(State()), batch[..k], tx)
      {
        OneMoreReferral(old(State()), batch, k, tx, batch[..k], batch[..k + 1]);
        var counted := MatureOne(batch[k], tx(k));
        approvedCount := approvedCount + counted;
      }
      assert batch[..|batch|] == batch;
    }

    /** batch is the answer of findMany; tx says how each transaction ends. */
    method ReconcileMatureAffiliateReferrals(now: nat, limit: nat, batch: seq<nat>, tx: nat -> Tx) returns (approvedCount: nat)
      requires WellFormed(State()) && IsMatureBatch(referrals, now, limit, batch)
      modifies this
      ensures WellFormed(State()) && Passed(State(), approvedCount) == Pass(old(State()), batch, tx)
      ensures Approved(old(referrals), batch, |batch|, tx, referrals)
    {
      ghost var db := State();
      approvedCount := MatureEach(batch, tx);
      BatchApproves(db, now, limit, batch, tx, Passed(State(), approvedCount));
    }
  }
}
