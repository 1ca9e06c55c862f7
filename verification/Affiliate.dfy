/** Affiliate commissions: the transactions on balances and referrals, the conservation law they keep
    under any interleaving, and what a refund undoes. */
module Affiliate {
  import opened Wrappers

  type AccountId = nat
  type OrderId = nat

  datatype AffiliateStatus = AFF_PENDING | AFF_ACTIVE | AFF_SUSPENDED | AFF_REJECTED
  datatype ReferralStatus = PENDING | APPROVED | REJECTED | PAID

  /** The columns of an affiliate account that no function here writes. */
  datatype Profile = Profile(userId: nat, status: AffiliateStatus, commissionRateBp: int)

  datatype Order = Order(userId: nat, totalAmount: int, affiliateId: Option<AccountId>, affiliateCode: Option<nat>)

  /** What the reads before the transactions see; codes is the unique index on the account's code. */
  datatype Book = Book(orders: map<OrderId, Order>, profiles: map<AccountId, Profile>, codes: map<nat, AccountId>)

  datatype Balances = Balances(pending: int, available: int, totalEarned: int)

  datatype Referral = Referral(affiliate: AccountId, order: OrderId, commission: nat, status: ReferralStatus, matureAt: nat)

  datatype Db = Db(accounts: map<AccountId, Balances>, referrals: seq<Referral>)

  const HOLD_MS := 30 * 24 * 60 * 60 * 1000

  /** x ten-thousandths, rounded half up. */
  function HalfUp(x: nat): (h: nat)
    ensures 20000 * h <= 2 * x + 10000 < 20000 * (h + 1)
  {
    (2 * x + 10000) / 20000
  }

  lemma ShareBounds(amount: nat, rateBp: nat)
    ensures rateBp <= 10000 ==> amount * rateBp <= 10000 * amount
    ensures rateBp > 10000 ==> amount * rateBp >= 10000 * amount
  {
    if rateBp <= 10000 { assert amount * (10000 - rateBp) >= 0; } else { assert amount * (rateBp - 10000) >= 0; }
  }

  /** The share, given the product of amount and rate, is cut off at the amount. */
  function Share(product: nat, amount: nat): (c: nat)
    ensures product <= 10000 * amount ==> c <= amount && 20000 * c <= 2 * product + 10000 < 20000 * (c + 1)
    ensures product >= 10000 * amount ==> c == amount
  {
    var raw := HalfUp(product);
    if raw < amount then raw else amount
  }

  /** Half-up share of the amount in basis points, never more than the amount and zero where nothing is due. */
  function CommissionMinor(amount: int, rateBp: int): (c: nat)
    ensures amount > 0 && 0 < rateBp <= 10000 ==>
      c <= amount && 20000 * c <= 2 * (amount * rateBp) + 10000 < 20000 * (c + 1)
    ensures amount > 0 && rateBp > 10000 ==> c == amount
    ensures amount <= 0 || rateBp <= 0 ==> c == 0
  {
    if amount <= 0 || rateBp <= 0 then 0
    else
      ShareBounds(amount, rateBp);
      Share(amount * rateBp, amount)
  }

  predicate IsValidReferralTransition(from: ReferralStatus, to: ReferralStatus) {
    from != to &&
    match from
    case PENDING => to.APPROVED? || to.REJECTED?
    case APPROVED => to.PAID? || to.REJECTED?
    case _ => false
  }

  /** The account and commission of an order, None when one of the skip conditions holds. */
  function Resolve(b: Book, o: OrderId): Option<(AccountId, nat)> {
    if o !in b.orders then None
    else
      var order := b.orders[o];
      var id := if order.affiliateId.Some? then order.affiliateId
        else if order.affiliateCode.Some? && order.affiliateCode.value in b.codes then Some(b.codes[order.affiliateCode.value])
        else None;
      if id.None? || id.value !in b.profiles then None
      else
        var p := b.profiles[id.value];
        if !p.status.AFF_ACTIVE? || p.userId == order.userId then None
        else Some((id.value, CommissionMinor(order.totalAmount, p.commissionRateBp)))
  }

  /** The account is the one the order names, by id or else by code; it is active and belongs to somebody else. */
  ghost predicate Earns(b: Book, o: OrderId, a: AccountId) {
    && o in b.orders && a in b.profiles
    && (b.orders[o].affiliateId == Some(a)
        || (b.orders[o].affiliateId == None && b.orders[o].affiliateCode.Some?
            && b.orders[o].affiliateCode.value in b.codes && b.codes[b.orders[o].affiliateCode.value] == a))
    && b.profiles[a].status == AFF_ACTIVE
    && b.profiles[a].userId != b.orders[o].userId
  }

  /** At most one account earns from an order, and it earns the share of the order's total at its own rate. */
  lemma ResolveIff(b: Book, o: OrderId, a: AccountId, c: nat)
    ensures Resolve(b, o) == Some((a, c)) <==>
      Earns(b, o, a) && c == CommissionMinor(b.orders[o].totalAmount, b.profiles[a].commissionRateBp)
    ensures Resolve(b, o).None? <==> !exists x :: Earns(b, o, x)
    ensures forall x, y :: Earns(b, o, x) && Earns(b, o, y) ==> x == y
  {
    var r := Resolve(b, o);
    if r.Some? { assert Earns(b, o, r.value.0); }
  }

  /** findUnique on the order id. */
  function Find(rs: seq<Referral>, o: OrderId): (r: Option<nat>)
    ensures r.Some? ==> r.value < |rs| && rs[r.value].order == o
    ensures r.None? ==> forall i :: 0 <= i < |rs| ==> rs[i].order != o
  {
    if rs == [] then None
    else if rs[|rs| - 1].order == o then Some(|rs| - 1)
    else Find(rs[..|rs| - 1], o)
  }

  // ----- the transactions

  function Adjust(accounts: map<AccountId, Balances>, a: AccountId, pending: int, available: int,
          total: int): map<AccountId, Balances>
    requires a in accounts
  {
    var b := accounts[a];
    accounts[a := Balances(b.pending + pending, b.available + available, b.totalEarned + total)]
  }

  /** Insert the referral and credit the account; None when a constraint rolls both back. */
  function CreateTx(db: Db, a: AccountId, o: OrderId, commission: nat, matureAt: nat): Option<Db> {
    if Find(db.referrals, o).Some? || a !in db.accounts then None
    else Some(Db(Adjust(db.accounts, a, commission, 0, commission),
                 db.referrals + [Referral(a, o, commission, PENDING, matureAt)]))
  }

  /** Approve the referral if it is still pending, moving its commission; the count is updated.count. */
  function MatureTx(db: Db, i: nat): (Db, nat)
    requires i < |db.referrals| && db.referrals[i].affiliate in db.accounts
  {
    var r := db.referrals[i];
    var c: int := r.commission;
    if !r.status.PENDING? then (db, 0)
    else (Db(Adjust(db.accounts, r.affiliate, -c, c, 0),
             db.referrals[i := r.(status := APPROVED)]), 1)
  }

  /** Reject the referral, by id only, and take the commission back from where it was when it was read. */
  function ClawbackTx(db: Db, i: nat, read: ReferralStatus): Db
    requires i < |db.referrals| && db.referrals[i].affiliate in db.accounts
  {
    var r := db.referrals[i];
    var c: int := r.commission;
    Db(if read.PENDING? then Adjust(db.accounts, r.affiliate, -c, 0, -c)
       else if read.APPROVED? then Adjust(db.accounts, r.affiliate, 0, -c, -c)
       else db.accounts,
       db.referrals[i := r.(status := REJECTED)])
  }

  // ----- the conservation law

  /** Commissions of an account's referrals in one status. */
  ghost function Sum(rs: seq<Referral>, a: AccountId, st: ReferralStatus): nat {
    if rs == [] then 0
    else
      var r := rs[|rs| - 1];
      Sum(rs[..|rs| - 1], a, st) + if r.affiliate == a && r.status == st then r.commission else 0
  }

  ghost predicate Balanced(db: Db, a: AccountId)
    requires a in db.accounts
  {
    var b := db.accounts[a];
    && b.pending == Sum(db.referrals, a, PENDING)
    && b.available == Sum(db.referrals, a, APPROVED)
    && b.totalEarned == b.pending + b.available
  }

  /** Constraints of the schema: foreign key and unique order; payouts are not modelled, so nothing is PAID. */
  ghost predicate WellFormed(db: Db) {
    && (forall i :: 0 <= i < |db.referrals| ==> db.referrals[i].affiliate in db.accounts && !db.referrals[i].status.PAID?)
    && (forall i, j :: 0 <= i < j < |db.referrals| ==> db.referrals[i].order != db.referrals[j].order)
  }

  ghost predicate Consistent(db: Db) {
    WellFormed(db) && forall a :: a in db.accounts ==> Balanced(db, a)
  }

  lemma SumAppend(rs: seq<Referral>, r: Referral, a: AccountId, st: ReferralStatus)
    ensures Sum(rs + [r], a, st) == Sum(rs, a, st) + if r.affiliate == a && r.status == st then r.commission else 0
  {
    assert (rs + [r])[..|rs|] == rs;
  }

  lemma {:induction false} SumUpdate(rs: seq<Referral>, i: nat, to: ReferralStatus, a: AccountId, st: ReferralStatus)
    requires i < |rs|
    ensures Sum(rs[i := rs[i].(status := to)], a, st) == Sum(rs, a, st)
      - (if rs[i].affiliate == a && rs[i].status == st then rs[i].commission else 0)
      + (if rs[i].affiliate == a && to == st then rs[i].commission else 0)
  {
    var n := |rs| - 1;
    var t := rs[i := rs[i].(status := to)];
    if i == n {
      assert t[..n] == rs[..n];
    } else {
      SumUpdate(rs[..n], i, to, a, st);
      assert t[..n] == rs[..n][i := rs[i].(status := to)];
    }
  }

  /** Balances never go below zero. */
  lemma ConsistentIsNonNegative(db: Db, a: AccountId)
    requires Consistent(db) && a in db.accounts
    ensures var b := db.accounts[a]; b.pending >= 0 && b.available >= 0 && b.totalEarned >= 0
  {
    assert Balanced(db, a);
  }

  lemma CreateConserves(db: Db, a: AccountId, o: OrderId, commission: nat, matureAt: nat)
    requires Consistent(db) && CreateTx(db, a, o, commission, matureAt).Some?
    ensures Consistent(CreateTx(db, a, o, commission, matureAt).value)
  {
    var t := CreateTx(db, a, o, commission, matureAt).value;
    var r := Referral(a, o, commission, PENDING, matureAt);
    forall x | x in t.accounts ensures Balanced(t, x) {
      assert Balanced(db, x);
      SumAppend(db.referrals, r, x, PENDING);
      SumAppend(db.referrals, r, x, APPROVED);
    }
  }

  lemma MatureConserves(db: Db, i: nat)
    requires Consistent(db) && i < |db.referrals|
    ensures Consistent(MatureTx(db, i).0)
  {
    var t := MatureTx(db, i).0;
    if db.referrals[i].status.PENDING? {
      forall x | x in t.accounts ensures Balanced(t, x) {
        assert Balanced(db, x);
        SumUpdate(db.referrals, i, APPROVED, x, PENDING);
        SumUpdate(db.referrals, i, APPROVED, x, APPROVED);
      }
    }
  }

  /** A clawback keeps the law exactly when the status at commit is the status it read, or there is
      no money in the referral. */
  lemma ClawbackConservesIff(db: Db, i: nat, read: ReferralStatus)
    requires Consistent(db) && i < |db.referrals| && IsValidReferralTransition(read, REJECTED)
    ensures Consistent(ClawbackTx(db, i, read)) <==> db.referrals[i].status == read || db.referrals[i].commission == 0
  {
    var t := ClawbackTx(db, i, read);
    var r := db.referrals[i];
    forall x | x in t.accounts
      ensures Balanced(t, x) <==> x != r.affiliate || r.status == read || r.commission == 0
    {
      assert Balanced(db, x);
      SumUpdate(db.referrals, i, REJECTED, x, PENDING);
      SumUpdate(db.referrals, i, REJECTED, x, APPROVED);
    }
    assert r.affiliate in t.accounts;
    if Consistent(t) { assert Balanced(t, r.affiliate); }
  }

  /** The referrals determine the balances. */
  lemma SameReferralsSameBalances(x: Db, y: Db)
    requires Consistent(x) && Consistent(y) && x.accounts.Keys == y.accounts.Keys
    requires forall a :: a in x.accounts ==>
      Sum(x.referrals, a, PENDING) == Sum(y.referrals, a, PENDING) && Sum(x.referrals, a, APPROVED) == Sum(y.referrals, a, APPROVED)
    ensures x.accounts == y.accounts
  {
    forall a | a in x.accounts ensures x.accounts[a] == y.accounts[a] {
      assert Balanced(x, a) && Balanced(y, a);
    }
  }

  // ----- whole calls

  /** processAffiliateReferralForOrder with nothing in between its reads and its transaction. */
  function ProcessOrder(db: Db, b: Book, o: OrderId, now: nat): Db {
    match Resolve(b, o)
    case None => db
    case Some(ac) =>
      if Find(db.referrals, o).Some? then db
      else
        match CreateTx(db, ac.0, o, ac.1, now + HOLD_MS)
        case None => db
        case Some(t) => t
  }

  /** clawbackAffiliateReferralForOrder, likewise. */
  function Clawback(db: Db, o: OrderId): Db
    requires forall i :: 0 <= i < |db.referrals| ==> db.referrals[i].affiliate in db.accounts
  {
    match Find(db.referrals, o)
    case None => db
    case Some(i) =>
      if IsValidReferralTransition(db.referrals[i].status, REJECTED) then ClawbackTx(db, i, db.referrals[i].status) else db
  }

  ghost predicate InTable(batch: seq<nat>, n: nat) {
    forall k :: 0 <= k < |batch| ==> batch[k] < n
  }

  /** The transactions of a maturation pass over the referrals it read, in its order. */
  ghost function MaturePass(db: Db, batch: seq<nat>): Db
    requires WellFormed(db) && InTable(batch, |db.referrals|)
    ensures WellFormed(MaturePass(db, batch)) && |MaturePass(db, batch).referrals| == |db.referrals|
    ensures MaturePass(db, batch).accounts.Keys == db.accounts.Keys
    decreases |batch|
  {
    if batch == [] then db else MaturePass(MatureTx(db, batch[0]).0, batch[1..])
  }

  lemma {:induction false} MaturePassConserves(db: Db, batch: seq<nat>)
    requires Consistent(db) && InTable(batch, |db.referrals|)
    ensures Consistent(MaturePass(db, batch))
    decreases |batch|
  {
    if batch != [] {
      MatureConserves(db, batch[0]);
      MaturePassConserves(MatureTx(db, batch[0]).0, batch[1..]);
    }
  }

  lemma ProcessOrderConserves(db: Db, b: Book, o: OrderId, now: nat)
    requires Consistent(db)
    ensures Consistent(ProcessOrder(db, b, o, now))
  {
    var r := Resolve(b, o);
    if r.Some? && CreateTx(db, r.value.0, o, r.value.1, now + HOLD_MS).Some? {
      CreateConserves(db, r.value.0, o, r.value.1, now + HOLD_MS);
    }
  }

  lemma ClawbackConserves(db: Db, o: OrderId)
    requires Consistent(db)
    ensures Consistent(Clawback(db, o))
  {
    var i := Find(db.referrals, o);
    if i.Some? && IsValidReferralTransition(db.referrals[i.value].status, REJECTED) {
      ClawbackConservesIff(db, i.value, db.referrals[i.value].status);
    }
  }

  /** Indices below n, in order. */
  ghost function Below(batch: seq<nat>, n: nat): (r: seq<nat>)
    ensures InTable(r, n)
  {
    if batch == [] then []
    else (if batch[0] < n then [batch[0]] else []) + Below(batch[1..], n)
  }

  /** A pass touches one more referral at the end of the table only as if it were alone. */
  lemma {:induction false} MaturePassSplits(x: Db, y: Db, batch: seq<nat>)
    requires WellFormed(x) && WellFormed(y) && |y.referrals| == |x.referrals| + 1
    requires forall i :: 0 <= i < |x.referrals| ==> y.referrals[i] == x.referrals[i]
    requires InTable(batch, |y.referrals|)
    ensures var n := |x.referrals|; var x' := MaturePass(x, Below(batch, n)); var y' := MaturePass(y, batch);
      && (forall i :: 0 <= i < n ==> y'.referrals[i] == x'.referrals[i])
      && y'.referrals[n].(status := PENDING) == y.referrals[n].(status := PENDING)
      && (y.referrals[n].status.PENDING? || y.referrals[n].status.APPROVED? ==>
           y'.referrals[n].status.PENDING? || y'.referrals[n].status.APPROVED?)
    decreases |batch|
  {
    if batch != [] {
      var n := |x.referrals|;
      var y' := MatureTx(y, batch[0]).0;
      if batch[0] < n {
        MaturePassSplits(MatureTx(x, batch[0]).0, y', batch[1..]);
        assert Below(batch, n) == [batch[0]] + Below(batch[1..], n);
      } else {
        MaturePassSplits(x, y', batch[1..]);
        assert Below(batch, n) == Below(batch[1..], n);
      }
    }
  }

  lemma {:induction false} SumPrefix(x: seq<Referral>, y: seq<Referral>, a: AccountId, st: ReferralStatus)
    requires |y| == |x| + 1 && (forall i :: 0 <= i < |x| ==> y[i] == x[i])
    requires y[|x|].status != st
    ensures Sum(y, a, st) == Sum(x, a, st)
  {
    assert y[..|x|] == x;
  }

  lemma {:induction false} BelowIsAll(batch: seq<nat>, n: nat)
    requires InTable(batch, n)
    ensures Below(batch, n) == batch
  {
    if batch != [] { BelowIsAll(batch[1..], n); }
  }

  /** Clawing back the last referral of a table leaves the balances of the table without it. */
  lemma NewReferralIsUndone(x: Db, y: Db, o: OrderId)
    requires Consistent(x) && Consistent(y) && x.accounts.Keys == y.accounts.Keys
    requires |y.referrals| == |x.referrals| + 1 && (forall i :: 0 <= i < |x.referrals| ==> y.referrals[i] == x.referrals[i])
    requires var r := y.referrals[|x.referrals|]; r.order == o && (r.status.PENDING? || r.status.APPROVED?)
    ensures Clawback(y, o).accounts == x.accounts
    ensures Clawback(Clawback(y, o), o) == Clawback(y, o)
  {
    var n := |x.referrals|;
    assert Find(y.referrals, o) == Some(n);
    var t := Clawback(y, o);
    ClawbackConserves(y, o);
    assert Find(t.referrals, o) == Some(n);
    forall a | a in t.accounts
      ensures Sum(t.referrals, a, PENDING) == Sum(x.referrals, a, PENDING)
      ensures Sum(t.referrals, a, APPROVED) == Sum(x.referrals, a, APPROVED)
    {
      SumPrefix(x.referrals, t.referrals, a, PENDING);
      SumPrefix(x.referrals, t.referrals, a, APPROVED);
    }
    SameReferralsSameBalances(t, x);
  }

  lemma {:induction false} MaturePassKeepsOrders(db: Db, batch: seq<nat>)
    requires WellFormed(db) && InTable(batch, |db.referrals|)
    ensures var t := MaturePass(db, batch); forall i :: 0 <= i < |db.referrals| ==> t.referrals[i].order == db.referrals[i].order
    decreases |batch|
  {
    if batch != [] { MaturePassKeepsOrders(MatureTx(db, batch[0]).0, batch[1..]); }
  }

  lemma NothingToClawBack(db: Db, batch: seq<nat>, o: OrderId)
    requires WellFormed(db) && InTable(batch, |db.referrals|) && Find(db.referrals, o).None?
    ensures Clawback(MaturePass(db, batch), o) == MaturePass(db, batch)
  {
    MaturePassKeepsOrders(db, batch);
  }

  /** Paid, any maturation in between, refunded, however often the refund is repeated: every balance is
      what the same maturation would have left had the order never been paid, whichever branch ran. */
  lemma RefundUndoesPayment(db: Db, b: Book, o: OrderId, now: nat, batch: seq<nat>)
    requires Consistent(db) && Find(db.referrals, o).None?
    requires var paid := ProcessOrder(db, b, o, now); InTable(batch, |paid.referrals|)
    ensures var paid := ProcessOrder(db, b, o, now);
      var refunded := Clawback(MaturePass(paid, batch), o);
      && Consistent(refunded)
      && refunded.accounts == MaturePass(db, Below(batch, |db.referrals|)).accounts
      && Clawback(refunded, o) == refunded
  {
    var paid := ProcessOrder(db, b, o, now);
    var n := |db.referrals|;
    ProcessOrderConserves(db, b, o, now);
    MaturePassConserves(paid, batch);
    var matured := MaturePass(paid, batch);
    ClawbackConserves(matured, o);
    MaturePassConserves(db, Below(batch, n));
    if paid == db {
      BelowIsAll(batch, n);
      NothingToClawBack(db, batch, o);
    } else {
      MaturePassSplits(db, paid, batch);
      NewReferralIsUndone(MaturePass(db, Below(batch, n)), matured, o);
    }
  }

  /** When nothing but the order's own referral matured in between, all three balances of every account
      are exactly what they were. */
  lemma RefundRestoresBalances(db: Db, b: Book, o: OrderId, now: nat, batch: seq<nat>)
    requires Consistent(db) && Find(db.referrals, o).None?
    requires InTable(batch, |ProcessOrder(db, b, o, now).referrals|) && Below(batch, |db.referrals|) == []
    ensures Clawback(MaturePass(ProcessOrder(db, b, o, now), batch), o).accounts == db.accounts
  {
    RefundUndoesPayment(db, b, o, now, batch);
  }
}
