/** Recovery of missing licence emails: the anti-join and its fallback, and how many ticks leave nothing uncovered. */
module Licenses {
  import opened Wrappers

  type LicenseId = nat

  /** active lists the active licences in table order, each once; covered holds those with an email job;
      reachable those whose owner has an address, so that enqueueing creates a job. */
  ghost predicate Distinct(ids: seq<LicenseId>) {
    forall i, j :: 0 <= i < j < |ids| ==> ids[i] != ids[j]
  }

  ghost function Elements(ids: seq<LicenseId>): set<LicenseId> {
    set i | i in ids
  }

  ghost function Uncovered(active: seq<LicenseId>, covered: set<LicenseId>): set<LicenseId> {
    Elements(active) - covered
  }

  ghost function Min(a: int, b: int): int { if a <= b then a else b }

  /** What the anti-join may return: without an order, LIMIT leaves the choice open. */
  ghost predicate IsAntiJoin(active: seq<LicenseId>, covered: set<LicenseId>, batch: nat, ids: seq<LicenseId>) {
    && Distinct(ids) && Elements(ids) <= Uncovered(active, covered)
    && |ids| == Min(batch, |Uncovered(active, covered)|)
  }

  function Missing(ids: seq<LicenseId>, covered: set<LicenseId>): seq<LicenseId> {
    if ids == [] then []
    else Missing(ids[..|ids| - 1], covered) + if ids[|ids| - 1] in covered then [] else [ids[|ids| - 1]]
  }

  /** The fallback: the first active licences, without those that are covered. */
  function Fallback(active: seq<LicenseId>, covered: set<LicenseId>, batch: nat): seq<LicenseId> {
    Missing(if |active| <= batch then active else active[..batch], covered)
  }

  /** Enqueueing one email per licence; a licence whose owner has no address is passed over. */
  ghost function Tick(covered: set<LicenseId>, reachable: set<LicenseId>, ids: seq<LicenseId>): set<LicenseId> {
    covered + Elements(ids) * reachable
  }

  // ----- the fallback against the anti-join

  lemma {:induction false} MissingIs(ids: seq<LicenseId>, covered: set<LicenseId>)
    requires Distinct(ids)
    ensures Distinct(Missing(ids, covered)) && Elements(Missing(ids, covered)) == Elements(ids) - covered
  {
    if ids != [] {
      var n := |ids| - 1;
      MissingIs(ids[..n], covered);
      var m := Missing(ids[..n], covered);
      assert ids == ids[..n] + [ids[n]];
      assert ids[n] !in ids[..n];
      assert ids[n] !in Elements(m);
      assert forall x :: x in Missing(ids, covered) <==> x in Elements(m) || (x == ids[n] && x !in covered);
      assert forall x :: x in Elements(m) <==> x in ids[..n] && x !in covered;
    }
  }

  lemma {:induction false} ElementsCount(ids: seq<LicenseId>)
    requires Distinct(ids)
    ensures |Elements(ids)| == |ids|
  {
    if ids != [] {
      var n := |ids| - 1;
      ElementsCount(ids[..n]);
      assert ids == ids[..n] + [ids[n]];
      assert Elements(ids) == Elements(ids[..n]) + {ids[n]};
    }
  }

  /** The fallback finds only licences the anti-join could, and is one of its possible answers when the active
      licences fit into a batch. */
  lemma FallbackIsSound(active: seq<LicenseId>, covered: set<LicenseId>, batch: nat)
    requires Distinct(active)
    ensures Distinct(Fallback(active, covered, batch)) && Elements(Fallback(active, covered, batch)) <= Uncovered(active, covered)
    ensures |active| <= batch ==>
      && Elements(Fallback(active, covered, batch)) == Uncovered(active, covered)
      && IsAntiJoin(active, covered, batch, Fallback(active, covered, batch))
  {
    var first := if |active| <= batch then active else active[..batch];
    MissingIs(first, covered);
    ElementsCount(Fallback(active, covered, batch));
    if |active| <= batch {
      ElementsCount(active);
      var rest := Elements(active) * covered;
      assert Uncovered(active, covered) == Elements(active) - rest;
    }
  }

  lemma {:induction false} NothingMissingIff(ids: seq<LicenseId>, covered: set<LicenseId>)
    ensures Missing(ids, covered) == [] <==> forall k :: 0 <= k < |ids| ==> ids[k] in covered
  {
    if ids != [] { NothingMissingIff(ids[..|ids| - 1], covered); }
  }

  /** It finds nothing any more once the first batch is covered, however many licences behind it are not. */
  lemma FallbackStallsIff(active: seq<LicenseId>, covered: set<LicenseId>, batch: nat)
    requires Distinct(active)
    ensures Fallback(active, covered, batch) == [] <==> forall k :: 0 <= k < Min(batch, |active|) ==> active[k] in covered
  {
    NothingMissingIff(if |active| <= batch then active else active[..batch], covered);
  }

  // ----- convergence

  lemma SubsetCount(a: set<LicenseId>, b: set<LicenseId>)
    requires a <= b
    ensures |b - a| == |b| - |a|
  {
    assert b == a + (b - a);
  }

  /** One tick takes exactly the reachable licences of its batch away from the uncovered ones. */
  lemma TickDecrease(active: seq<LicenseId>, covered: set<LicenseId>, reachable: set<LicenseId>, batch: nat,
          ids: seq<LicenseId>)
    requires IsAntiJoin(active, covered, batch, ids)
    ensures |Uncovered(active, Tick(covered, reachable, ids))| == |Uncovered(active, covered)| - |Elements(ids) * reachable|
    ensures Uncovered(active, covered) <= reachable ==>
      |Uncovered(active, Tick(covered, reachable, ids))| == |Uncovered(active, covered)| - Min(batch, |Uncovered(active, covered)|)
  {
    var taken := Elements(ids) * reachable;
    assert Uncovered(active, Tick(covered, reachable, ids)) == Uncovered(active, covered) - taken;
    SubsetCount(taken, Uncovered(active, covered));
    if Uncovered(active, covered) <= reachable {
      assert taken == Elements(ids);
      ElementsCount(ids);
    }
  }

  /** Serial ticks: what is covered after the first n of them. */
  ghost function After(covered: set<LicenseId>, reachable: set<LicenseId>, batches: seq<seq<LicenseId>>): set<LicenseId> {
    if batches == [] then covered else Tick(After(covered, reachable, batches[..|batches| - 1]), reachable, batches[|batches| - 1])
  }

  ghost predicate AreTicks(active: seq<LicenseId>, covered: set<LicenseId>, reachable: set<LicenseId>, batch: nat,
          batches: seq<seq<LicenseId>>) {
    forall k :: 0 <= k < |batches| ==> IsAntiJoin(active, After(covered, reachable, batches[..k]), batch, batches[k])
  }

  /** After k ticks all but k batches are covered. */
  lemma {:induction false} Converges(active: seq<LicenseId>, covered: set<LicenseId>, reachable: set<LicenseId>,
          batch: nat, batches: seq<seq<LicenseId>>)
    requires AreTicks(active, covered, reachable, batch, batches) && Uncovered(active, covered) <= reachable
    ensures var n := |Uncovered(active, covered)|; var left := Uncovered(active, After(covered, reachable, batches));
      && left <= Uncovered(active, covered)
      && |left| == n - Min(n, |batches| * batch)
      && (batch > 0 ==> (|batches| * batch >= n <==> left == {}))
  {
    var left := Uncovered(active, After(covered, reachable, batches));
    if batches != [] {
      var m := |batches| - 1;
      var before := batches[..m];
      forall k | 0 <= k < |before| ensures IsAntiJoin(active, After(covered, reachable, before[..k]), batch, before[k]) {
        assert before[..k] == batches[..k];
      }
      Converges(active, covered, reachable, batch, before);
      TickDecrease(active, After(covered, reachable, before), reachable, batch, batches[m]);
      assert |batches| * batch == m * batch + batch;
    }
  }

  /** n by the batch size, rounded up. */
  ghost function Ceiling(n: nat, batch: nat): (c: nat)
    requires batch > 0
    ensures (c - 1) * batch < n <= c * batch
  {
    if n == 0 then 0
    else
      var rest := Ceiling(if n <= batch then 0 else n - batch, batch);
      assert (rest + 1) * batch == rest * batch + batch && (rest + 1 - 1) * batch == (rest - 1) * batch + batch;
      rest + 1
  }

  lemma MoreTakesMore(a: int, b: int, m: nat)
    requires a <= b
    ensures a * m <= b * m
  {
    assert (b - a) * m >= 0;
  }

  lemma CeilingOfTicks(n: nat, batch: nat, k: nat, c: nat, enough: bool)
    requires batch > 0 && (c - 1) * batch < n <= c * batch
    requires enough <==> k * batch >= n
    ensures enough <==> k >= c
  {
    if k >= c { MoreTakesMore(c, k, batch); } else { MoreTakesMore(k, c - 1, batch); }
  }

  /** The least number of ticks that suffices is the number of uncovered licences by the batch size, rounded up. */
  lemma EnoughTicksIff(active: seq<LicenseId>, covered: set<LicenseId>, reachable: set<LicenseId>,
          batch: nat, batches: seq<seq<LicenseId>>)
    requires AreTicks(active, covered, reachable, batch, batches) && Uncovered(active, covered) <= reachable && batch > 0
    ensures Uncovered(active, After(covered, reachable, batches)) == {} <==>
      |batches| >= Ceiling(|Uncovered(active, covered)|, batch)
  {
    var n := |Uncovered(active, covered)|;
    Converges(active, covered, reachable, batch, batches);
    CeilingOfTicks(n, batch, |batches|, Ceiling(n, batch), Uncovered(active, After(covered, reachable, batches)) == {});
  }

  lemma {:induction false} Enumerate(s: set<LicenseId>, n: nat) returns (ids: seq<LicenseId>)
    requires n <= |s|
    ensures Distinct(ids) && Elements(ids) <= s && |ids| == n
  {
    if n == 0 {
      ids := [];
    } else {
      var x :| x in s;
      var more := Enumerate(s - {x}, n - 1);
      ids := more + [x];
      forall k | 0 <= k < n - 1 ensures ids[k] != x {
        assert more[k] in Elements(more);
      }
      forall y | y in Elements(ids) ensures y in s {
        if y != x { assert y in Elements(more); }
      }
    }
  }

  /** Every possible batch makes progress iff fewer than a batch of the uncovered licences are without an
      address: the anti-join has no order, so it may return those again and again. */
  lemma ProgressIff(active: seq<LicenseId>, covered: set<LicenseId>, reachable: set<LicenseId>, batch: nat)
    ensures var mute := Uncovered(active, covered) - reachable;
      (forall ids :: IsAntiJoin(active, covered, batch, ids) ==>
         |Uncovered(active, Tick(covered, reachable, ids))| < |Uncovered(active, covered)|)
      <==> |mute| < Min(batch, |Uncovered(active, covered)|)
  {
    var u := Uncovered(active, covered);
    var mute := u - reachable;
    if |mute| < Min(batch, |u|) {
      forall ids | IsAntiJoin(active, covered, batch, ids) ensures |Uncovered(active, Tick(covered, reachable, ids))| < |u| {
        TickDecrease(active, covered, reachable, batch, ids);
        ElementsCount(ids);
        if Elements(ids) * reachable == {} {
          assert Elements(ids) <= mute;
          SubsetCount(Elements(ids), mute);
        }
      }
    } else {
      var ids := Enumerate(mute, Min(batch, |u|));
      assert IsAntiJoin(active, covered, batch, ids);
      TickDecrease(active, covered, reachable, batch, ids);
      assert Elements(ids) * reachable == {};
    }
  }

  /** A batch in which nobody has an address. */
  lemma MuteBatch(active: seq<LicenseId>, covered: set<LicenseId>, reachable: set<LicenseId>, batch: nat)
    returns (ids: seq<LicenseId>)
    requires Min(batch, |Uncovered(active, covered)|) <= |Uncovered(active, covered) - reachable|
    ensures IsAntiJoin(active, covered, batch, ids) && Tick(covered, reachable, ids) == covered
  {
    var u := Uncovered(active, covered);
    ids := Enumerate(u - reachable, Min(batch, |u|));
    assert Elements(ids) * reachable == {};
  }

  lemma OneMoreTick(active: seq<LicenseId>, covered: set<LicenseId>, reachable: set<LicenseId>, batch: nat,
          before: seq<seq<LicenseId>>, ids: seq<LicenseId>)
    requires AreTicks(active, covered, reachable, batch, before)
    requires IsAntiJoin(active, After(covered, reachable, before), batch, ids)
    ensures AreTicks(active, covered, reachable, batch, before + [ids])
    ensures After(covered, reachable, before + [ids]) == Tick(After(covered, reachable, before), reachable, ids)
  {
    var batches, n := before + [ids], |before|;
    assert batches[..n] == before;
    forall j | 0 <= j <= n ensures IsAntiJoin(active, After(covered, reachable, batches[..j]), batch, batches[j]) {
      if j < n { assert batches[..j] == before[..j] && batches[j] == before[j]; }
    }
  }

  /** The condition is needed: when as many licences without an address are uncovered as a batch takes, any number of
      ticks may find only those, and nothing is ever covered. */
  lemma {:induction false} MuteLicencesStall(active: seq<LicenseId>, covered: set<LicenseId>, reachable: set<LicenseId>,
          batch: nat, k: nat) returns (batches: seq<seq<LicenseId>>)
    requires Min(batch, |Uncovered(active, covered)|) <= |Uncovered(active, covered) - reachable|
    ensures |batches| == k && AreTicks(active, covered, reachable, batch, batches)
    ensures After(covered, reachable, batches) == covered
  {
    if k == 0 {
      batches := [];
    } else {
      var before := MuteLicencesStall(active, covered, reachable, batch, k - 1);
      var ids := MuteBatch(active, covered, reachable, batch);
      OneMoreTick(active, covered, reachable, batch, before, ids);
      batches := before + [ids];
    }
  }

  /** At explicit licences: one without an address, ticks of one. */
  lemma OneMuteLicence(k: nat) returns (batches: seq<seq<LicenseId>>)
    ensures |batches| == k && AreTicks([1], {}, {}, 1, batches) && Uncovered([1], After({}, {}, batches)) == {1}
  {
    assert Uncovered([1], {}) == {1} && {1} - {} == {1};
    batches := MuteLicencesStall([1], {}, {}, 1, k);
  }

  // ----- the reconciler

  lemma OneMoreLicense(active: seq<LicenseId>, covered: set<LicenseId>, reachable: set<LicenseId>,
          ids: seq<LicenseId>, i: nat)
    requires Distinct(ids) && Elements(ids) <= Uncovered(active, covered) && i < |ids|
    ensures ids[i] !in Tick(covered, reachable, ids[..i])
    ensures Tick(covered, reachable, ids[..i + 1]) == Tick(covered, reachable, ids[..i]) + if ids[i] in reachable then {ids[i]} else {}
  {
    assert ids[..i + 1] == ids[..i] + [ids[i]];
    assert ids[i] in Elements(ids) && ids[i] !in ids[..i];
  }

  class LicenseTables {
    var active: seq<LicenseId>
    var covered: set<LicenseId>

    /** The loop over the licences found; stop is the position at which an enqueue throws. */
    method EnqueueEach(missingLicenseIds: seq<LicenseId>, reachable: set<LicenseId>,
            stop: nat) returns (thrown: bool, enqueuedCount: nat)
      requires Distinct(missingLicenseIds) && Elements(missingLicenseIds) <= Uncovered(active, covered)
      modifies this`covered
      ensures thrown <==> stop < |missingLicenseIds|
      ensures covered == Tick(old(covered), reachable, missingLicenseIds[..Min(stop, |missingLicenseIds|)])
      ensures enqueuedCount == |covered| - |old(covered)|
    {
      thrown, enqueuedCount := false, 0;
      assert Tick(covered, reachable, missingLicenseIds[..0]) == covered;
      for i := 0 to |missingLicenseIds|
        invariant i <= stop
        invariant covered == Tick(old(covered), reachable, missingLicenseIds[..i])
        invariant enqueuedCount == |covered| - |old(covered)|
      {
        if i == stop { return true, enqueuedCount; }
        var licenseId := missingLicenseIds[i];
        OneMoreLicense(active, old(covered), reachable, missingLicenseIds, i);
        if licenseId in reachable {
          covered := covered + {licenseId};
          enqueuedCount := enqueuedCount + 1;
        }
      }
    }

    /** antiJoin is what the query returns, None when it fails. */
    method ReconcileMissingLicenseProvisionedEmailJobs(batchSize: nat, antiJoin: Option<seq<LicenseId>>,
            reachable: set<LicenseId>, stop: nat)
      returns (thrown: bool, enqueuedCount: nat, licenseIds: seq<LicenseId>)
      requires antiJoin.Some? ==> IsAntiJoin(active, covered, batchSize, antiJoin.value)
      requires Distinct(active)
      modifies this`covered
      ensures licenseIds == if antiJoin.Some? then antiJoin.value else Fallback(active, old(covered), batchSize)
      ensures thrown <==> stop < |licenseIds|
      ensures covered == Tick(old(covered), reachable, licenseIds[..Min(stop, |licenseIds|)])
      ensures enqueuedCount == |covered| - |old(covered)|
    {
      var missingLicenseIds: seq<LicenseId> := [];
      if antiJoin.Some? {
        missingLicenseIds := antiJoin.value;
      } else {
        missingLicenseIds := Fallback(active, covered, batchSize);
        FallbackIsSound(active, covered, batchSize);
      }
      licenseIds := missingLicenseIds;
      thrown, enqueuedCount := EnqueueEach(missingLicenseIds, reachable, stop);
    }
  }
}
