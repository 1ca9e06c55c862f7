/** One row of outbox_events: the four statements that change it, the history of the
    statements that took effect on it, and what every such history satisfies. */
module OutboxRow {
  import opened Wrappers

  type WorkerId = nat

  datatype Status = PENDING | PROCESSING | PROCESSED | FAILED

  /** maxRetries, lease and batch size of the run; leaseMs is leaseTimeoutMinutes in milliseconds. */
  datatype Config = Config(maxRetries: nat, leaseMs: nat, batchSize: nat)

  datatype Row = Row(
    status: Status,
    lockOwner: Option<WorkerId>,
    lockedAt: Option<nat>,
    retryCount: nat,
    nextAttemptAt: Option<nat>
  )

  /** A row as the API inserts it. */
  const FRESH := Row(PENDING, None, None, 0, None)

  function Pow2(n: nat): nat {
    if n == 0 then 1 else 2 * Pow2(n - 1)
  }

  function BackoffMs(n: nat): nat {
    if 1000 * Pow2(n) <= 60000 then 1000 * Pow2(n) else 60000
  }

  // ----- the statements

  /** WHERE clause of the claim query; a comparison with a NULL column is not true. */
  predicate Claimable(r: Row, now: nat, leaseMs: nat) {
    || (r.status.PENDING? && (r.nextAttemptAt.None? || r.nextAttemptAt.value <= now))
    || (r.status.PROCESSING? && r.lockedAt.Some? && r.lockedAt.value + leaseMs < now)
  }

  function ClaimRow(r: Row, w: WorkerId, now: nat): Row {
    r.(status := PROCESSING, lockOwner := Some(w), lockedAt := Some(now))
  }

  /** WHERE clause of both settle statements. */
  predicate Holds(r: Row, w: WorkerId) {
    r.status.PROCESSING? && r.lockOwner == Some(w)
  }

  function FinishRow(r: Row): Row {
    r.(status := PROCESSED, lockOwner := None, lockedAt := None)
  }

  /** The failing settle writes a retry count computed from the count the worker read earlier. */
  function FailRow(r: Row, readCount: nat, now: nat, maxRetries: nat): Row {
    var n := readCount + 1;
    if n >= maxRetries then Row(FAILED, None, None, n, None)
    else Row(PENDING, None, None, n, Some(now + BackoffMs(n)))
  }

  // ----- histories

  datatype Entry = Claimed(w: WorkerId, at: nat) | Finished(w: WorkerId, at: nat) | Failed(w: WorkerId, at: nat)

  function ApplyEntry(r: Row, e: Entry, maxRetries: nat): Row {
    match e
    case Claimed(w, t) => ClaimRow(r, w, t)
    case Finished(_, _) => FinishRow(r)
    case Failed(_, t) => FailRow(r, r.retryCount, t, maxRetries)
  }

  ghost function Replay(h: seq<Entry>, maxRetries: nat): Row {
    if h == [] then FRESH
    else ApplyEntry(Replay(h[..|h| - 1], maxRetries), h[|h| - 1], maxRetries)
  }

  ghost predicate Allowed(r: Row, e: Entry, leaseMs: nat) {
    if e.Claimed? then Claimable(r, e.at, leaseMs) else Holds(r, e.w)
  }

  ghost predicate NotAfter(h: seq<Entry>, t: nat) {
    h == [] || h[|h| - 1].at <= t
  }

  /** Every statement matched its WHERE clause, and the clock never ran backwards. */
  ghost predicate Legal(h: seq<Entry>, cfg: Config) {
    h == [] ||
    var before, e := h[..|h| - 1], h[|h| - 1];
    && Legal(before, cfg)
    && Allowed(Replay(before, cfg.maxRetries), e, cfg.leaseMs)
    && NotAfter(before, e.at)
  }

  ghost function CountSettles(h: seq<Entry>): nat {
    if h == [] then 0 else CountSettles(h[..|h| - 1]) + if h[|h| - 1].Claimed? then 0 else 1
  }

  /** Times of the failing settles, oldest first. */
  ghost function FailTimes(h: seq<Entry>): seq<nat> {
    if h == [] then []
    else if h[|h| - 1].Failed? then FailTimes(h[..|h| - 1]) + [h[|h| - 1].at]
    else FailTimes(h[..|h| - 1])
  }

  lemma Extend(h: seq<Entry>, e: Entry)
    ensures (h + [e])[..|h + [e]| - 1] == h
  {
  }

  // ----- the retry invariant

  lemma {:induction false} RetryInvariant(h: seq<Entry>, cfg: Config)
    requires Legal(h, cfg) && cfg.maxRetries >= 1
    ensures var r := Replay(h, cfg.maxRetries);
      && (if r.status.FAILED? then r.retryCount == cfg.maxRetries else r.retryCount < cfg.maxRetries)
      && (r.status.PROCESSING? <==> r.lockOwner.Some?)
      && (r.status.PROCESSING? <==> r.lockedAt.Some?)
      && CountSettles(h) == r.retryCount + (if r.status.PROCESSED? then 1 else 0)
      && |FailTimes(h)| == r.retryCount
  {
    if h != [] {
      RetryInvariant(h[..|h| - 1], cfg);
    }
  }

  /** One event has at most maxRetries settles that took effect. */
  lemma SettlesAreBounded(h: seq<Entry>, cfg: Config)
    requires Legal(h, cfg) && cfg.maxRetries >= 1
    ensures CountSettles(h) <= cfg.maxRetries
  {
    RetryInvariant(h, cfg);
  }

  lemma {:induction false} PrefixLegal(h: seq<Entry>, n: nat, cfg: Config)
    requires Legal(h, cfg) && n <= |h|
    ensures Legal(h[..n], cfg)
  {
    if n < |h| {
      PrefixLegal(h[..|h| - 1], n, cfg);
      assert h[..|h| - 1][..n] == h[..n];
    } else {
      assert h[..n] == h;
    }
  }

  /** PROCESSED and FAILED are final: no further statement can take effect on such a row. */
  lemma TerminalIsFinal(h: seq<Entry>, g: seq<Entry>, cfg: Config)
    requires var s := Replay(h, cfg.maxRetries).status; s.PROCESSED? || s.FAILED?
    ensures Legal(h + g, cfg) ==> g == []
  {
    if g != [] {
      Extend(h, g[0]);
      assert (h + g)[..|h| + 1] == h + [g[0]];
      if Legal(h + g, cfg) {
        PrefixLegal(h + g, |h| + 1, cfg);
      }
    }
  }

  /** A reclaim is not a retry, so the number of claims has no bound. */
  lemma {:induction false} ClaimsAreUnbounded(n: nat, w: WorkerId, cfg: Config) returns (h: seq<Entry>)
    ensures Legal(h, cfg) && |h| == n && CountSettles(h) == 0
    ensures forall i :: 0 <= i < n ==> h[i] == Claimed(w, i * (cfg.leaseMs + 1))
    ensures n > 0 ==> Replay(h, cfg.maxRetries) == Row(PROCESSING, Some(w), Some((n - 1) * (cfg.leaseMs + 1)), 0, None)
  {
    if n == 0 {
      h := [];
    } else {
      var before := ClaimsAreUnbounded(n - 1, w, cfg);
      var e := Claimed(w, (n - 1) * (cfg.leaseMs + 1));
      h := before + [e];
      Extend(before, e);
      if n > 1 {
        assert (n - 1) * (cfg.leaseMs + 1) == (n - 2) * (cfg.leaseMs + 1) + cfg.leaseMs + 1;
      }
    }
  }

  // ----- leases

  /** A row is PROCESSING exactly when the last statement on it was a claim, by its lock owner at its lock time. */
  lemma HeldByLastClaim(h: seq<Entry>, maxRetries: nat)
    ensures var r := Replay(h, maxRetries);
      r.status.PROCESSING? <==> h != [] && h[|h| - 1].Claimed?
    ensures h != [] && h[|h| - 1].Claimed? ==>
      Replay(h, maxRetries).lockOwner == Some(h[|h| - 1].w) && Replay(h, maxRetries).lockedAt == Some(h[|h| - 1].at)
  {
  }

  /** Two claims of a row with no settle between them are more than the lease apart. */
  lemma {:induction false} ClaimsAreALeaseApart(h: seq<Entry>, i: nat, j: nat, cfg: Config)
    requires Legal(h, cfg) && i < j < |h|
    requires forall k :: i <= k <= j ==> h[k].Claimed?
    ensures h[j].at > h[i].at + cfg.leaseMs
  {
    PrefixLegal(h, j + 1, cfg);
    var before := h[..j];
    assert h[..j + 1][..j] == before;
    HeldByLastClaim(before, cfg.maxRetries);
    if i < j - 1 {
      ClaimsAreALeaseApart(h, i, j - 1, cfg);
    }
  }

  // ----- back-off

  /** Sum of the delays after the first n failures. */
  ghost function BackoffSum(n: nat): nat {
    if n == 0 then 0 else BackoffSum(n - 1) + BackoffMs(n)
  }

  lemma {:induction false} Pow2Grows(n: nat)
    requires n >= 6
    ensures Pow2(n) >= 64
  {
    if n == 6 {
      assert Pow2(6) == 2 * (2 * (2 * (2 * (2 * (2 * Pow2(0))))));
    } else {
      Pow2Grows(n - 1);
    }
  }

  lemma {:induction false} Pow2Small(n: nat)
    requires n <= 5
    ensures Pow2(n) <= 32
  {
    if n > 0 { 
      Pow2Small(n - 1);
      if n == 5 { assert Pow2(5) == 2 * (2 * (2 * (2 * (2 * Pow2(0))))); }
    }
  }

  /** The sum of the delays before a row is given up, in closed form. */
  lemma {:induction false} BackoffSumClosedForm(m: nat)
    requires m >= 1
    ensures BackoffSum(m - 1) == if m <= 6 then 1000 * (Pow2(m) - 2) else 62000 + 60000 * (m - 6)
  {
    if m > 1 {
      BackoffSumClosedForm(m - 1);
      if m <= 6 { Pow2Small(m - 1); } else { Pow2Grows(m - 1); }
      if m == 7 { assert Pow2(6) == 2 * (2 * (2 * (2 * (2 * (2 * Pow2(0)))))); }
    }
  }

  /** Failures are spaced by their delays, in every history, stale reclaims included. */
  lemma {:induction false} BackoffIsRespected(h: seq<Entry>, cfg: Config)
    requires Legal(h, cfg) && cfg.maxRetries >= 1
    ensures var r := Replay(h, cfg.maxRetries); var f := FailTimes(h);
      && |f| == r.retryCount
      && (r.retryCount == 0 && !r.status.FAILED? ==> r.nextAttemptAt.None?)
      && (f != [] ==>
           var last := f[|f| - 1];
           && last >= f[0] + BackoffSum(|f| - 1)
           && last <= h[|h| - 1].at
           && (r.status.PENDING? ==> r.nextAttemptAt == Some(last + BackoffMs(|f|)))
           && (r.status.PROCESSING? ==> r.lockedAt.Some? && last + BackoffMs(|f|) <= r.lockedAt.value <= h[|h| - 1].at))
  {
    RetryInvariant(h, cfg);
    if h != [] {
      var before := h[..|h| - 1];
      BackoffIsRespected(before, cfg);
    }
  }

  lemma BackoffIs(n: nat)
    ensures BackoffMs(n) == if n >= 6 then 60000 else 1000 * Pow2(n)
  {
    if n >= 6 { Pow2Grows(n); } else { Pow2Small(n); }
  }

  /** When a row can be claimed, from its history alone: at once while nothing has happened to it; after a claim, when
      its lease has passed; after a failure, if it has a retry left and 2, 4, 8, 16, 32 or from then on 60 seconds
      have passed; after it was finished or given up, never. */
  lemma ClaimableIff(h: seq<Entry>, cfg: Config, now: nat)
    requires Legal(h, cfg) && cfg.maxRetries >= 1
    ensures Claimable(Replay(h, cfg.maxRetries), now, cfg.leaseMs) <==>
      h == [] ||
      match h[|h| - 1]
      case Claimed(_, at) => at + cfg.leaseMs < now
      case Finished(_, _) => false
      case Failed(_, at) =>
        var n := |FailTimes(h)|;
        n < cfg.maxRetries && at + (if n >= 6 then 60000 else 1000 * Pow2(n)) <= now
  {
    RetryInvariant(h, cfg);
    if h != [] {
      RetryInvariant(h[..|h| - 1], cfg);
      BackoffIs(|FailTimes(h)|);
    }
  }

  /** An event that ends FAILED did so no earlier than its first failure plus all the delays. */
  lemma FailedNoEarlierThan(h: seq<Entry>, cfg: Config)
    requires Legal(h, cfg) && cfg.maxRetries >= 1
    requires Replay(h, cfg.maxRetries).status.FAILED?
    ensures |FailTimes(h)| == cfg.maxRetries
    ensures FailTimes(h)[cfg.maxRetries - 1] >= FailTimes(h)[0] +
      if cfg.maxRetries <= 6 then 1000 * (Pow2(cfg.maxRetries) - 2) else 62000 + 60000 * (cfg.maxRetries - 6)
  {
    RetryInvariant(h, cfg);
    BackoffIsRespected(h, cfg);
    BackoffSumClosedForm(cfg.maxRetries);
  }
}
