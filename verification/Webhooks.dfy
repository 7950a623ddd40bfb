/**
 The webhook outbox: workers lease due deliveries, attempt them, and record the outcome.
 Any number of workers run, any of them may die with a batch in hand, and operators replay
 deliveries and disable endpoints at any time. `log` and `replays` are histories.
 */
module Webhooks {
  import opened Core

  datatype Status = Waiting | Delivered | GaveUp

  /** A delivery, whether its endpoint is enabled, and how often it was replayed. */
  datatype Row = Row(status: Status, attempts: nat, nextAt: int, enabled: bool, replays: nat)

  datatype Config = Config(maxAttempts: int, baseBackoff: nat, maxBackoff: nat, lease: nat)

  const BATCH: nat := 20

  function Pow2(n: nat): nat {
    if n == 0 then 1 else 2 * Pow2(n - 1)
  }

  function Doubled(base: nat, n: nat): nat {
    if n == 0 then base else 2 * Doubled(base, n - 1)
  }

  function Min(a: int, b: int): int {
    if a < b then a else b
  }

  /** The delay after a failed attempt: doubling from the base, at most the maximum. */
  function Backoff(attempt: int, base: nat, max: nat): nat {
    var exponent := Min(if attempt < 1 then 0 else attempt - 1, 20);
    Min(Doubled(base, exponent), max)
  }

  /** A delivery in a worker's hands: which one, and the attempts it had when claimed. */
  datatype Claim = Claim(delivery: nat, attempts: nat)

  /** `Retried` and `Closed` say how an attempt really ended, not what was made of it. */
  datatype Entry =
    | Claimed(delivery: nat, at: int)
    | Retried(delivery: nat)
    | Replayed(delivery: nat)
    | Closed(delivery: nat, delivered: bool, attempt: nat)

  datatype Outbox = Outbox(rows: seq<Row>, now: int, workers: map<nat, seq<Claim>>, log: seq<Entry>)

  datatype Step =
    | Arrive
    | Wait(seconds: nat)
    | Take(worker: nat, picked: seq<nat>)
    | Finish(worker: nat, delivered: bool, at: int)
    | Die(worker: nat)
    | Replay(delivery: nat)
    | Disable(delivery: nat)

  predicate Due(row: Row, now: int) {
    row.status.Waiting? && row.enabled && row.nextAt <= now
  }

  /** `picked` is a batch a claim may return: due, distinct, within the limit. */
  predicate Claimable(rows: seq<Row>, now: int, picked: seq<nat>) {
    && |picked| <= BATCH
    && Distinct(picked)
    && (forall k :: 0 <= k < |picked| ==> picked[k] < |rows| && Due(rows[picked[k]], now))
  }

  /** The rows after a claim: the lease pushes `next_attempt_at` forward. */
  function Leased(rows: seq<Row>, picked: seq<nat>, until: int): (after: seq<Row>)
    ensures |after| == |rows|
  {
    seq(|rows|, i requires 0 <= i < |rows| => if i in picked then rows[i].(nextAt := until) else rows[i])
  }

  function Claims(rows: seq<Row>, picked: seq<nat>): seq<Claim>
    requires forall k :: 0 <= k < |picked| ==> picked[k] < |rows|
  {
    seq(|picked|, k requires 0 <= k < |picked| => Claim(picked[k], rows[picked[k]].attempts))
  }

  function ClaimEntries(picked: seq<nat>, at: int): seq<Entry> {
    seq(|picked|, k requires 0 <= k < |picked| => Claimed(picked[k], at))
  }

  datatype Outcome = Success | Retry(nextAt: int) | Failure

  /** What a worker makes of an attempt that ended at time `at`. */
  function Judge(c: Config, claim: Claim, delivered: bool, at: int): Outcome {
    var attempt := claim.attempts + 1;
    if delivered then Success
    else if attempt >= c.maxAttempts then Failure
    else Retry(at + Backoff(attempt, c.baseBackoff, c.maxBackoff))
  }

  function Recorded(row: Row, outcome: Outcome): Row {
    match outcome
    case Success => row.(status := Delivered, attempts := row.attempts + 1)
    case Retry(nextAt) => row.(attempts := row.attempts + 1, nextAt := nextAt)
    case Failure => row.(status := GaveUp, attempts := row.attempts + 1)
  }

  /** A failed attempt short of the maximum will be tried again; any other was the last. */
  function Ended(c: Config, claim: Claim, delivered: bool): Entry {
    if !delivered && claim.attempts + 1 < c.maxAttempts then Retried(claim.delivery)
    else Closed(claim.delivery, delivered, claim.attempts + 1)
  }

  function DoTake(o: Outbox, c: Config, worker: nat, picked: seq<nat>): Outbox {
    if worker in o.workers || !Claimable(o.rows, o.now, picked) then o
    else o.(rows := Leased(o.rows, picked, o.now + c.lease),
            workers := o.workers[worker := Claims(o.rows, picked)],
            log := o.log + ClaimEntries(picked, o.now))
  }

  /** The worker records the delivery at the head of its batch; its clock read `at` came earlier. */
  function DoFinish(o: Outbox, c: Config, worker: nat, delivered: bool, at: int): Outbox {
    if worker in o.workers && |o.workers[worker]| > 0 && at <= o.now
       && o.workers[worker][0].delivery < |o.rows|
    then
      var claim := o.workers[worker][0];
      var outcome := Judge(c, claim, delivered, at);
      o.(rows := o.rows[claim.delivery := Recorded(o.rows[claim.delivery], outcome)],
         workers := if |o.workers[worker]| == 1 then o.workers - {worker}
                    else o.workers[worker := o.workers[worker][1..]],
         log := o.log + [Ended(c, claim, delivered)])
    else o
  }

  function Next(o: Outbox, c: Config, step: Step): Outbox {
    match step
    case Arrive => o.(rows := o.rows + [Row(Waiting, 0, o.now, true, 0)])
    case Wait(seconds) => o.(now := o.now + seconds)
    case Take(worker, picked) => DoTake(o, c, worker, picked)
    case Finish(worker, delivered, at) => DoFinish(o, c, worker, delivered, at)
    case Die(worker) => o.(workers := o.workers - {worker})
    case Replay(d) =>
      if d < |o.rows|
      then o.(rows := o.rows[d := o.rows[d].(status := Waiting, nextAt := o.now, replays := o.rows[d].replays + 1)],
              log := o.log + [Replayed(d)])
      else o
    case Disable(d) => if d < |o.rows| then o.(rows := o.rows[d := o.rows[d].(enabled := false)]) else o
  }

  function Run(o: Outbox, c: Config, steps: seq<Step>): Outbox {
    if |steps| == 0 then o else Next(Run(o, c, steps[..|steps| - 1]), c, steps[|steps| - 1])
  }

  const EMPTY_OUTBOX: Outbox := Outbox([], 0, map[], [])

  // ------------------------------------------------------------- as code

  class DeliveryTable {
    var rows: seq<Row>

    constructor ()
      ensures rows == []
    {
      rows := [];
    }

    /** The due row with the earliest `next_attempt_at` that is not yet picked. */
    method EarliestDue(now: int, picked: seq<nat>) returns (best: Option<nat>)
      ensures best.None? ==> forall i :: 0 <= i < |rows| && Due(rows[i], now) ==> i in picked
      ensures best.Some? ==>
        && best.value < |rows| && Due(rows[best.value], now) && best.value !in picked
        && forall i :: 0 <= i < |rows| && Due(rows[i], now) && i !in picked ==> rows[best.value].nextAt <= rows[i].nextAt
    {
      best := None;
      for i := 0 to |rows|
        invariant best.None? ==> forall j :: 0 <= j < i && Due(rows[j], now) ==> j in picked
        invariant best.Some? ==>
          && best.value < i && Due(rows[best.value], now) && best.value !in picked
          && forall j :: 0 <= j < i && Due(rows[j], now) && j !in picked ==> rows[best.value].nextAt <= rows[j].nextAt
      {
        if Due(rows[i], now) && i !in picked {
          if best.None? || rows[i].nextAt < rows[best.value].nextAt {
            best := Some(i);
          }
        }
      }
    }

    /** Claims up to a batch of due rows, earliest first, and leases them. */
    method ClaimDue(now: int, lease: nat) returns (claims: seq<Claim>, ghost picked: seq<nat>)
      modifies this
      ensures Claimable(old(rows), now, picked) && claims == Claims(old(rows), picked)
      ensures rows == Leased(old(rows), picked, now + lease)
      ensures |picked| <= 20
      ensures |picked| < 20 ==> forall i :: 0 <= i < |old(rows)| && Due(old(rows)[i], now) ==> i in picked
      ensures forall i, k :: 0 <= i < |old(rows)| && Due(old(rows)[i], now) && i !in picked && 0 <= k < |picked| ==>
        old(rows)[picked[k]].nextAt <= old(rows)[i].nextAt
    {
      var ids: seq<nat> := [];
      claims := [];
      var full := false;
      while |ids| < BATCH && !full
        invariant rows == old(rows) && Claimable(rows, now, ids) && claims == Claims(rows, ids)
        invariant full ==> forall i :: 0 <= i < |rows| && Due(rows[i], now) ==> i in ids
        invariant forall i, k :: 0 <= i < |rows| && Due(rows[i], now) && i !in ids && 0 <= k < |ids| ==>
          rows[ids[k]].nextAt <= rows[i].nextAt
        decreases BATCH - |ids|, !full
      {
        var best := EarliestDue(now, ids);
        if best.None? {
          full := true;
        } else {
          ids := ids + [best.value];
          claims := claims + [Claim(best.value, rows[best.value].attempts)];
          assert claims == Claims(rows, ids);
        }
      }
      picked := ids;
      for i := 0 to |rows|
        invariant |rows| == |old(rows)|
        invariant forall j :: 0 <= j < i ==>
          rows[j] == if j in ids then old(rows)[j].(nextAt := now + lease) else old(rows)[j]
        invariant forall j :: i <= j < |rows| ==> rows[j] == old(rows)[j]
      {
        if i in ids {
          rows := rows[i := rows[i].(nextAt := now + lease)];
        }
      }
    }

    /**
     One round of a worker: claims what is due, attempts each in turn and records how it went.
     `delivers` says which attempts succeed, `at` when each ends. What it leaves behind is what
     the protocol's claim and one recording per claimed delivery leave behind.
     */
    method DeliverDue(c: Config, now: int, delivers: nat -> bool, at: nat -> int, ghost o: Outbox, ghost worker: nat)
      returns (count: nat, ghost picked: seq<nat>)
      requires o.rows == rows && o.now == now && worker !in o.workers && forall d :: at(d) <= now
      modifies this
      ensures Claimable(o.rows, now, picked) && count == |picked|
      ensures rows == FinishFirst(DoTake(o, c, worker, picked), c, worker, picked, delivers, at, count).rows
    {
      var claims;
      claims, picked := ClaimDue(now, c.lease);
      ghost var taken := DoTake(o, c, worker, picked);
      for i := 0 to |claims|
        invariant rows == FinishFirst(taken, c, worker, picked, delivers, at, i).rows
      {
        FinishOneMore(o, taken, c, worker, picked, delivers, at, i);
        var claim := claims[i];
        RecordDelivery(claim.delivery, Judge(c, claim, delivers(claim.delivery), at(claim.delivery)));
      }
      return |claims|, picked;
    }

    method RecordDelivery(delivery: nat, outcome: Outcome)
      modifies this
      ensures rows == if delivery < |old(rows)|
                      then old(rows)[delivery := Recorded(old(rows)[delivery], outcome)] else old(rows)
    {
      if delivery < |rows| {
        var row := rows[delivery];
        match outcome {
          case Success => row := row.(status := Delivered);
          case Retry(nextAt) => row := row.(nextAt := nextAt);
          case Failure => row := row.(status := GaveUp);
        }
        rows := rows[delivery := row.(attempts := row.attempts + 1)];
      }
    }
  }

  /** The worker records the first `n` deliveries of its batch, one after the other. */
  function FinishFirst(
    taken: Outbox, c: Config, worker: nat, picked: seq<nat>, delivers: nat -> bool, at: nat -> int, n: nat): Outbox
    requires n <= |picked|
  {
    if n == 0 then taken
    else
      Next(FinishFirst(taken, c, worker, picked, delivers, at, n - 1), c,
           Finish(worker, delivers(picked[n - 1]), at(picked[n - 1])))
  }

  /** What is still in the worker's hands after `n` recordings. */
  predicate InHand(o: Outbox, taken: Outbox, worker: nat, picked: seq<nat>, n: nat, so: Outbox)
    requires n <= |picked| && forall k :: 0 <= k < |picked| ==> picked[k] < |o.rows|
  {
    && so.now == taken.now && |so.rows| == |o.rows|
    && (n < |picked| ==> worker in so.workers && so.workers[worker] == Claims(o.rows, picked)[n..])
  }

  lemma {:induction false} BatchShrinks(
    o: Outbox, taken: Outbox, c: Config, worker: nat, picked: seq<nat>, delivers: nat -> bool, at: nat -> int, n: nat,
    so: Outbox)
    requires n <= |picked| && worker !in o.workers && Claimable(o.rows, o.now, picked) && forall d :: at(d) <= o.now
    requires taken == DoTake(o, c, worker, picked) && so == FinishFirst(taken, c, worker, picked, delivers, at, n)
    ensures InHand(o, taken, worker, picked, n, so)
  {
    if n == 0 {
      assert Claims(o.rows, picked)[0..] == Claims(o.rows, picked);
    } else {
      var before := FinishFirst(taken, c, worker, picked, delivers, at, n - 1);
      BatchShrinks(o, taken, c, worker, picked, delivers, at, n - 1, before);
      assert Claims(o.rows, picked)[n - 1..][1..] == Claims(o.rows, picked)[n..];
    }
  }

  lemma FinishOneMore(
    o: Outbox, taken: Outbox, c: Config, worker: nat, picked: seq<nat>, delivers: nat -> bool, at: nat -> int, i: nat)
    requires i < |picked| && worker !in o.workers && Claimable(o.rows, o.now, picked) && forall d :: at(d) <= o.now
    requires taken == DoTake(o, c, worker, picked)
    ensures var so, claim := FinishFirst(taken, c, worker, picked, delivers, at, i), Claims(o.rows, picked)[i];
            && claim.delivery < |so.rows|
            && FinishFirst(taken, c, worker, picked, delivers, at, i + 1).rows
               == so.rows[claim.delivery
                          := Recorded(so.rows[claim.delivery],
                                      Judge(c, claim, delivers(claim.delivery), at(claim.delivery)))]
  {
    BatchShrinks(o, taken, c, worker, picked, delivers, at, i, FinishFirst(taken, c, worker, picked, delivers, at, i));
  }

  // --------------------------------------------------- claims are a lease apart

  predicate Frees(e: Entry, d: nat) {
    (e.Retried? || e.Replayed?) && e.delivery == d
  }

  /** Nothing after entry `i` frees delivery `d` before its lease ends. */
  predicate HeldSince(log: seq<Entry>, i: nat, d: nat) {
    forall k :: i < k < |log| ==> !Frees(log[k], d)
  }

  predicate EntriesGrounded(o: Outbox) {
    && (forall k :: 0 <= k < |o.log| ==> o.log[k].delivery < |o.rows|)
    && (forall w :: w in o.workers ==> forall k :: 0 <= k < |o.workers[w]| ==> o.workers[w][k].delivery < |o.rows|)
  }

  /** A delivery claimed and not freed since is not due before its lease ends. */
  predicate LeasesHold(o: Outbox, c: Config)
    requires EntriesGrounded(o)
  {
    forall i :: 0 <= i < |o.log| && o.log[i].Claimed? && HeldSince(o.log, i, o.log[i].delivery) ==>
      o.rows[o.log[i].delivery].nextAt >= o.log[i].at + c.lease
  }

  /** Entries `i` and `j` claim one delivery, and nothing between them frees it. */
  predicate ClaimsInARow(log: seq<Entry>, i: nat, j: nat)
    requires i < j < |log|
  {
    && log[i].Claimed? && log[j].Claimed? && log[i].delivery == log[j].delivery
    && HeldSince(log[..j], i, log[i].delivery)
  }

  /** Two claims of one delivery with no retry or replay between them are at least a lease apart. */
  predicate Spaced(log: seq<Entry>, c: Config) {
    forall i, j :: 0 <= i < j < |log| && ClaimsInARow(log, i, j) ==> log[j].at >= log[i].at + c.lease
  }

  predicate Leasing(o: Outbox, c: Config) {
    EntriesGrounded(o) && LeasesHold(o, c) && Spaced(o.log, c)
  }

  /** The log of a claim: what was there, and a claim of each picked row. */
  predicate ClaimsAppended(log: seq<Entry>, more: seq<Entry>, picked: seq<nat>, now: int) {
    && log <= more && |more| == |log| + |picked|
    && forall k :: |log| <= k < |more| ==> more[k] == Claimed(picked[k - |log|], now)
  }

  lemma TakeKeepsSpacing(o: Outbox, c: Config, picked: seq<nat>, more: seq<Entry>)
    requires Leasing(o, c) && Claimable(o.rows, o.now, picked) && ClaimsAppended(o.log, more, picked, o.now)
    ensures Spaced(more, c)
  {
    forall i, j | 0 <= i < j < |more| && ClaimsInARow(more, i, j) ensures more[j].at >= more[i].at + c.lease {
      if j < |o.log| {
        assert more[..j] == o.log[..j];
        assert ClaimsInARow(o.log, i, j);
      } else if i < |o.log| {
        HeldBefore(o.log, more[..j], i, more[i].delivery);
        assert more[i] == o.log[i];
        assert Due(o.rows[picked[j - |o.log|]], o.now);
      } else {
        assert false;
      }
    }
  }

  lemma TakeKeepsHolds(o: Outbox, after: Outbox, c: Config, picked: seq<nat>)
    requires Leasing(o, c) && Claimable(o.rows, o.now, picked) && ClaimsAppended(o.log, after.log, picked, o.now)
    requires after.rows == Leased(o.rows, picked, o.now + c.lease) && EntriesGrounded(after)
    ensures LeasesHold(after, c)
  {
    forall i | 0 <= i < |after.log| && after.log[i].Claimed? && HeldSince(after.log, i, after.log[i].delivery)
      ensures after.rows[after.log[i].delivery].nextAt >= after.log[i].at + c.lease
    {
      if i < |o.log| {
        HeldBefore(o.log, after.log, i, after.log[i].delivery);
        assert o.log[i] == after.log[i];
      } else {
        assert after.log[i].delivery in picked;
      }
    }
  }

  lemma TakeKeepsGrounded(o: Outbox, after: Outbox, worker: nat, picked: seq<nat>)
    requires EntriesGrounded(o) && Claimable(o.rows, o.now, picked) && ClaimsAppended(o.log, after.log, picked, o.now)
    requires |after.rows| == |o.rows| && after.workers == o.workers[worker := Claims(o.rows, picked)]
    ensures EntriesGrounded(after)
  {
    forall k | 0 <= k < |after.log| ensures after.log[k].delivery < |after.rows| {
      if k < |o.log| {
        assert after.log[k] == o.log[k];
      }
    }
  }

  lemma TakeKeepsLeases(o: Outbox, c: Config, worker: nat, picked: seq<nat>)
    requires Leasing(o, c) && worker !in o.workers && Claimable(o.rows, o.now, picked)
    ensures Leasing(DoTake(o, c, worker, picked), c)
  {
    var after := DoTake(o, c, worker, picked);
    assert ClaimsAppended(o.log, after.log, picked, o.now);
    TakeKeepsSpacing(o, c, picked, after.log);
    TakeKeepsGrounded(o, after, worker, picked);
    TakeKeepsHolds(o, after, c, picked);
  }

  lemma HeldBefore(log: seq<Entry>, more: seq<Entry>, i: nat, d: nat)
    requires log <= more && i < |log| && HeldSince(more, i, d)
    ensures HeldSince(log, i, d)
  {
    forall k | i < k < |log| ensures !Frees(log[k], d) {
      assert more[k] == log[k];
    }
  }

  /** One entry that claims nothing is appended, and rows it does not free keep their lease. */
  lemma EntryKeepsLeases(o: Outbox, after: Outbox, c: Config, e: Entry)
    requires Leasing(o, c) && !e.Claimed? && e.delivery < |o.rows|
    requires after.log == o.log + [e] && |after.rows| == |o.rows|
    requires forall w :: w in after.workers ==> forall k :: 0 <= k < |after.workers[w]| ==> after.workers[w][k].delivery < |o.rows|
    requires forall d :: 0 <= d < |o.rows| && !Frees(e, d) ==> after.rows[d].nextAt >= o.rows[d].nextAt
    ensures Leasing(after, c)
  {
    forall i | 0 <= i < |after.log| && after.log[i].Claimed? && HeldSince(after.log, i, after.log[i].delivery)
      ensures after.rows[after.log[i].delivery].nextAt >= after.log[i].at + c.lease
    {
      HeldBefore(o.log, after.log, i, after.log[i].delivery);
      assert !Frees(after.log[|o.log|], after.log[i].delivery);
    }
    forall i, j | 0 <= i < j < |after.log| && ClaimsInARow(after.log, i, j)
      ensures after.log[j].at >= after.log[i].at + c.lease
    {
      assert after.log[..j] == o.log[..j];
      assert ClaimsInARow(o.log, i, j);
    }
  }

  lemma FinishKeepsLeases(o: Outbox, c: Config, worker: nat, delivered: bool, at: int)
    requires Leasing(o, c)
    ensures Leasing(DoFinish(o, c, worker, delivered, at), c)
  {
    var after := DoFinish(o, c, worker, delivered, at);
    if after != o {
      EntryKeepsLeases(o, after, c, after.log[|o.log|]);
    }
  }

  lemma StepKeepsLeases(o: Outbox, c: Config, step: Step)
    requires Leasing(o, c)
    ensures Leasing(Next(o, c, step), c)
  {
    match step
    case Take(worker, picked) =>
      if worker !in o.workers && Claimable(o.rows, o.now, picked) {
        TakeKeepsLeases(o, c, worker, picked);
      }
    case Finish(worker, delivered, at) => FinishKeepsLeases(o, c, worker, delivered, at);
    case Replay(d) =>
      if d < |o.rows| {
        EntryKeepsLeases(o, Next(o, c, step), c, Replayed(d));
      }
    case _ =>
  }

  /** In every run with any number of workers, claims of one delivery are a lease apart unless it was freed. */
  lemma {:induction false} ClaimsAreALeaseApart(c: Config, steps: seq<Step>)
    ensures Leasing(Run(EMPTY_OUTBOX, c, steps), c)
  {
    if |steps| > 0 {
      ClaimsAreALeaseApart(c, steps[..|steps| - 1]);
      StepKeepsLeases(Run(EMPTY_OUTBOX, c, steps[..|steps| - 1]), c, steps[|steps| - 1]);
    }
  }

  // ------------------------------------------------------- nothing is lost

  function Longest(c: Config): int {
    if c.lease < c.maxBackoff then c.maxBackoff else c.lease
  }

  predicate Soon(o: Outbox, c: Config) {
    forall d :: 0 <= d < |o.rows| ==> o.rows[d].nextAt <= o.now + Longest(c)
  }

  lemma StepKeepsSoon(o: Outbox, c: Config, step: Step)
    requires Soon(o, c)
    ensures Soon(Next(o, c, step), c)
  {
  }

  lemma {:induction false} RunKeepsSoon(c: Config, steps: seq<Step>)
    ensures Soon(Run(EMPTY_OUTBOX, c, steps), c)
  {
    if |steps| > 0 {
      RunKeepsSoon(c, steps[..|steps| - 1]);
      StepKeepsSoon(Run(EMPTY_OUTBOX, c, steps[..|steps| - 1]), c, steps[|steps| - 1]);
    }
  }

  /**
   In every run, whoever died holding it, a waiting delivery on an enabled endpoint is due,
   and a free worker's claim of it goes through, once the longer of lease and maximum
   backoff has passed.
   */
  lemma WaitingIsDueAgain(c: Config, steps: seq<Step>, d: nat, worker: nat)
    requires var o := Run(EMPTY_OUTBOX, c, steps);
             && d < |o.rows| && o.rows[d].status.Waiting? && o.rows[d].enabled && worker !in o.workers
    ensures var later := Next(Run(EMPTY_OUTBOX, c, steps), c, Wait(Longest(c)));
            && Due(later.rows[d], later.now)
            && Next(later, c, Take(worker, [d])).workers
               == later.workers[worker := [Claim(d, later.rows[d].attempts)]]
  {
    RunKeepsSoon(c, steps);
    var later := Next(Run(EMPTY_OUTBOX, c, steps), c, Wait(Longest(c)));
    assert Claimable(later.rows, later.now, [d]);
    assert Claims(later.rows, [d]) == [Claim(d, later.rows[d].attempts)];
  }

  /** A new delivery is due at once. */
  lemma NewDeliveryIsDue(o: Outbox, c: Config)
    ensures var after := Next(o, c, Arrive);
            |after.rows| == |o.rows| + 1 && Due(after.rows[|o.rows|], after.now) && after.rows[|o.rows|].attempts == 0
  {
  }

  /**
   A failed attempt short of the maximum is next due after the base delay doubled for each
   attempt before it, at most twenty times and at most to the maximum.
   */
  lemma FailedAttemptWaits(o: Outbox, c: Config, worker: nat, at: int, claim: Claim)
    requires worker in o.workers && |o.workers[worker]| > 0 && o.workers[worker][0] == claim
    requires claim.delivery < |o.rows| && at <= o.now && claim.attempts + 1 < c.maxAttempts
    ensures var row := Next(o, c, Finish(worker, false, at)).rows[claim.delivery];
            && row.nextAt == at + Min(c.baseBackoff * Pow2(Min(claim.attempts, 20)), c.maxBackoff)
            && row.status == o.rows[claim.delivery].status
  {
    DoubledIs(c.baseBackoff, Min(claim.attempts, 20));
  }

  lemma {:induction false} DoubledIs(base: nat, n: nat)
    ensures Doubled(base, n) == base * Pow2(n)
  {
    if n > 0 {
      DoubledIs(base, n - 1);
      TwiceFactor(base, Pow2(n - 1), Pow2(n));
    }
  }

  /** Once its endpoint is disabled, a delivery is in no claim. */
  lemma DisabledIsNotClaimed(o: Outbox, c: Config, d: nat, worker: nat, picked: seq<nat>)
    requires d < |o.rows| && d in picked
    ensures var after := Next(o, c, Disable(d));
            && !Due(after.rows[d], after.now) && Next(after, c, Take(worker, picked)) == after
            && after.rows[d] == o.rows[d].(enabled := false)
            && forall e :: 0 <= e < |o.rows| && e != d ==> after.rows[e] == o.rows[e]
  {
    var after := Next(o, c, Disable(d));
    var k :| 0 <= k < |picked| && picked[k] == d;
    assert !Due(after.rows[picked[k]], after.now);
  }

  /** A replayed delivery on an enabled endpoint waits again and is due at once. */
  lemma ReplayIsDueAtOnce(o: Outbox, c: Config, d: nat)
    requires d < |o.rows| && o.rows[d].enabled
    ensures var after := Next(o, c, Replay(d));
            && Due(after.rows[d], after.now) && after.rows[d].attempts == o.rows[d].attempts
            && forall e :: 0 <= e < |o.rows| && e != d ==> after.rows[e] == o.rows[e]
  {
  }

  // -------------------------------------------------- what the attempts came to

  /** The status the attempts and replays of a delivery call for, read from the last of them. */
  function LoggedStatus(log: seq<Entry>, d: nat): Status {
    if |log| == 0 then Waiting
    else
      var last := log[|log| - 1];
      if last.delivery == d && last.Closed? then (if last.delivered then Delivered else GaveUp)
      else if last.delivery == d && last.Replayed? then Waiting
      else LoggedStatus(log[..|log| - 1], d)
  }

  function LoggedAttempts(log: seq<Entry>, d: nat): nat {
    if |log| == 0 then 0
    else
      var last := log[|log| - 1];
      LoggedAttempts(log[..|log| - 1], d) + if last.delivery == d && (last.Retried? || last.Closed?) then 1 else 0
  }

  predicate RowTells(o: Outbox, d: nat)
    requires d < |o.rows|
  {
    o.rows[d].status == LoggedStatus(o.log, d) && o.rows[d].attempts == LoggedAttempts(o.log, d)
  }

  /** Rows tell what the log tells, entries are about rows that exist, and none gave up early. */
  predicate Telling(o: Outbox, c: Config) {
    && (forall d :: 0 <= d < |o.rows| ==> RowTells(o, d))
    && (forall k :: 0 <= k < |o.log| ==>
          o.log[k].delivery < |o.rows| && (o.log[k].Closed? && !o.log[k].delivered ==> o.log[k].attempt >= c.maxAttempts))
  }

  lemma OneMoreEntry(log: seq<Entry>, e: Entry, d: nat)
    ensures LoggedStatus(log + [e], d)
         == if e.delivery == d && e.Closed? then (if e.delivered then Delivered else GaveUp)
            else if e.delivery == d && e.Replayed? then Waiting else LoggedStatus(log, d)
    ensures LoggedAttempts(log + [e], d)
         == LoggedAttempts(log, d) + if e.delivery == d && (e.Retried? || e.Closed?) then 1 else 0
  {
    assert (log + [e])[..|log|] == log;
  }

  lemma {:induction false} ClaimsTellNothing(log: seq<Entry>, picked: seq<nat>, at: int, d: nat)
    ensures LoggedStatus(log + ClaimEntries(picked, at), d) == LoggedStatus(log, d)
    ensures LoggedAttempts(log + ClaimEntries(picked, at), d) == LoggedAttempts(log, d)
  {
    if |picked| == 0 {
      assert log + ClaimEntries(picked, at) == log;
    } else {
      var init := picked[..|picked| - 1];
      ClaimsTellNothing(log, init, at, d);
      assert log + ClaimEntries(picked, at) == log + ClaimEntries(init, at) + [Claimed(picked[|picked| - 1], at)];
      OneMoreEntry(log + ClaimEntries(init, at), Claimed(picked[|picked| - 1], at), d);
    }
  }

  lemma {:induction false} NothingLogged(log: seq<Entry>, d: nat)
    requires forall k :: 0 <= k < |log| ==> log[k].delivery != d
    ensures LoggedStatus(log, d).Waiting? && LoggedAttempts(log, d) == 0
  {
    if |log| > 0 {
      NothingLogged(log[..|log| - 1], d);
    }
  }

  /** One row and one entry go together. */
  lemma EntryKeepsTelling(o: Outbox, after: Outbox, c: Config, e: Entry)
    requires Telling(o, c) && e.delivery < |o.rows| && after.log == o.log + [e] && |after.rows| == |o.rows|
    requires e.Closed? && !e.delivered ==> e.attempt >= c.maxAttempts
    requires forall d :: 0 <= d < |o.rows| && d != e.delivery ==> after.rows[d] == o.rows[d]
    requires var was, now := o.rows[e.delivery], after.rows[e.delivery];
             match e
             case Closed(_, delivered, _) =>
               now.status == (if delivered then Delivered else GaveUp) && now.attempts == was.attempts + 1
             case Retried(_) => now.status == was.status && now.attempts == was.attempts + 1
             case Replayed(_) => now.status.Waiting? && now.attempts == was.attempts
             case Claimed(_, _) => now.status == was.status && now.attempts == was.attempts
    ensures Telling(after, c)
  {
    forall d | 0 <= d < |after.rows| ensures RowTells(after, d) {
      assert RowTells(o, d);
      OneMoreEntry(o.log, e, d);
    }
  }

  lemma FinishKeepsTelling(o: Outbox, after: Outbox, c: Config, worker: nat, delivered: bool, at: int)
    requires Telling(o, c) && after == DoFinish(o, c, worker, delivered, at)
    ensures Telling(after, c)
  {
    if after != o {
      EntryKeepsTelling(o, after, c, Ended(c, o.workers[worker][0], delivered));
    }
  }

  lemma TakeKeepsTelling(o: Outbox, after: Outbox, c: Config, worker: nat, picked: seq<nat>)
    requires Telling(o, c) && after == DoTake(o, c, worker, picked)
    ensures Telling(after, c)
  {
    if after != o {
      forall d | 0 <= d < |after.rows| ensures RowTells(after, d) {
        assert RowTells(o, d);
        ClaimsTellNothing(o.log, picked, o.now, d);
      }
    }
  }

  lemma StepKeepsTelling(o: Outbox, c: Config, step: Step, after: Outbox)
    requires Telling(o, c) && after == Next(o, c, step)
    ensures Telling(after, c)
  {
    match step
    case Finish(worker, delivered, at) => FinishKeepsTelling(o, after, c, worker, delivered, at);
    case Take(worker, picked) => TakeKeepsTelling(o, after, c, worker, picked);
    case Replay(d) =>
      if d < |o.rows| {
        EntryKeepsTelling(o, after, c, Replayed(d));
      }
    case Arrive => ArriveKeepsTelling(o, after, c);
    case _ =>
      forall d | 0 <= d < |after.rows| ensures RowTells(after, d) {
        assert RowTells(o, d);
      }
  }

  lemma ArriveKeepsTelling(o: Outbox, after: Outbox, c: Config)
    requires Telling(o, c) && after == o.(rows := o.rows + [Row(Waiting, 0, o.now, true, 0)])
    ensures Telling(after, c)
  {
    NothingLogged(o.log, |o.rows|);
    forall d | 0 <= d < |after.rows| ensures RowTells(after, d) {
      assert d < |o.rows| ==> RowTells(o, d);
    }
  }

  lemma {:induction false} RunKeepsTelling(c: Config, steps: seq<Step>)
    ensures Telling(Run(EMPTY_OUTBOX, c, steps), c)
  {
    if |steps| > 0 {
      RunKeepsTelling(c, steps[..|steps| - 1]);
      StepKeepsTelling(Run(EMPTY_OUTBOX, c, steps[..|steps| - 1]), c, steps[|steps| - 1], Run(EMPTY_OUTBOX, c, steps));
    }
  }

  predicate ClosedAt(log: seq<Entry>, k: nat, d: nat, delivered: bool) {
    k < |log| && log[k].Closed? && log[k].delivery == d && log[k].delivered == delivered
  }

  /** A closed status comes from an entry that closed it. */
  lemma {:induction false} StatusHasItsEntry(log: seq<Entry>, d: nat) returns (k: nat)
    requires !LoggedStatus(log, d).Waiting?
    ensures ClosedAt(log, k, d, LoggedStatus(log, d).Delivered?)
  {
    k := |log| - 1;
    if !(log[k].delivery == d && log[k].Closed?) {
      k := StatusHasItsEntry(log[..k], d);
    }
  }

  /**
   In every run with any number of workers: a delivery is `delivered` only if an attempt of it
   succeeded, and given up only if one at or past the maximum failed; its status is what the
   last such attempt or replay calls for; and its attempts are those recorded.
   */
  lemma StatusTellsTheAttempts(c: Config, steps: seq<Step>, o: Outbox, d: nat)
    requires o == Run(EMPTY_OUTBOX, c, steps) && d < |o.rows|
    ensures o.rows[d].status == LoggedStatus(o.log, d) && o.rows[d].attempts == LoggedAttempts(o.log, d)
    ensures o.rows[d].status.Delivered? ==> exists k: nat :: ClosedAt(o.log, k, d, true)
    ensures o.rows[d].status.GaveUp? ==> exists k: nat :: ClosedAt(o.log, k, d, false) && o.log[k].attempt >= c.maxAttempts
  {
    RunKeepsTelling(c, steps);
    assert RowTells(o, d);
    if !o.rows[d].status.Waiting? {
      var k := StatusHasItsEntry(o.log, d);
    }
  }

  // ------------------------------------------- attempts, with a single worker

  /** A worker takes a batch only when no batch is in anyone's hands. */
  predicate Alone(o: Outbox, step: Step) {
    step.Take? ==> o.workers == map[]
  }

  predicate AloneRun(c: Config, steps: seq<Step>) {
    |steps| == 0
    || (AloneRun(c, steps[..|steps| - 1])
        && Alone(Run(EMPTY_OUTBOX, c, steps[..|steps| - 1]), steps[|steps| - 1]))
  }

  function Budget(c: Config, row: Row): int {
    (if c.maxAttempts < 1 then 1 else c.maxAttempts) + row.replays - (if row.status.Waiting? then 1 else 0)
  }

  /** The batch in hand: its deliveries still wait, each once, with the attempts the worker saw. */
  predicate BatchTrue(o: Outbox, batch: seq<Claim>) {
    && (forall k :: 0 <= k < |batch| ==>
          && batch[k].delivery < |o.rows|
          && o.rows[batch[k].delivery].status.Waiting?
          && o.rows[batch[k].delivery].attempts == batch[k].attempts)
    && (forall j, k :: 0 <= j < k < |batch| ==> batch[j].delivery != batch[k].delivery)
  }

  predicate WithinBudget(o: Outbox, c: Config) {
    && (forall d :: 0 <= d < |o.rows| ==> o.rows[d].attempts <= Budget(c, o.rows[d]))
    && (forall w :: w in o.workers ==> BatchTrue(o, o.workers[w]))
    && (forall v, w :: v in o.workers && w in o.workers ==> v == w)
  }

  lemma FinishKeepsBudget(o: Outbox, c: Config, worker: nat, delivered: bool, at: int)
    requires WithinBudget(o, c)
    ensures WithinBudget(DoFinish(o, c, worker, delivered, at), c)
  {
    var after := DoFinish(o, c, worker, delivered, at);
    if after != o {
      var batch := o.workers[worker];
      assert BatchTrue(o, batch);
      var d := batch[0].delivery;
      if |batch| > 1 {
        assert BatchTrue(after, batch[1..]);
      }
    }
  }

  /** Rows that still wait with the same attempts keep a batch true. */
  lemma BatchStays(o: Outbox, after: Outbox, batch: seq<Claim>)
    requires BatchTrue(o, batch) && |o.rows| <= |after.rows|
    requires forall d :: 0 <= d < |o.rows| && o.rows[d].status.Waiting? ==>
      after.rows[d].status.Waiting? && after.rows[d].attempts == o.rows[d].attempts
    ensures BatchTrue(after, batch)
  {
  }

  lemma OtherKeepsBudget(o: Outbox, c: Config, step: Step)
    requires WithinBudget(o, c) && !step.Take? && !step.Finish?
    ensures WithinBudget(Next(o, c, step), c)
  {
    var after := Next(o, c, step);
    forall w | w in after.workers ensures BatchTrue(after, after.workers[w]) {
      assert BatchTrue(o, o.workers[w]);
      BatchStays(o, after, o.workers[w]);
    }
  }

  lemma StepKeepsBudget(o: Outbox, c: Config, step: Step)
    requires WithinBudget(o, c) && Alone(o, step)
    ensures WithinBudget(Next(o, c, step), c)
  {
    match step
    case Finish(worker, delivered, at) => FinishKeepsBudget(o, c, worker, delivered, at);
    case Take(worker, picked) =>
      if worker !in o.workers && Claimable(o.rows, o.now, picked) {
        assert BatchTrue(Next(o, c, step), Claims(o.rows, picked));
      }
    case _ => OtherKeepsBudget(o, c, step);
  }

  /** With one worker at a time, recorded attempts never exceed the maximum plus the replays. */
  lemma {:induction false} AttemptsAreBounded(c: Config, steps: seq<Step>)
    requires AloneRun(c, steps)
    ensures WithinBudget(Run(EMPTY_OUTBOX, c, steps), c)
    ensures var o := Run(EMPTY_OUTBOX, c, steps);
            forall d :: 0 <= d < |o.rows| ==>
              o.rows[d].attempts <= (if c.maxAttempts < 1 then 1 else c.maxAttempts) + o.rows[d].replays
  {
    if |steps| > 0 {
      AttemptsAreBounded(c, steps[..|steps| - 1]);
      StepKeepsBudget(Run(EMPTY_OUTBOX, c, steps[..|steps| - 1]), c, steps[|steps| - 1]);
    }
  }

  /** One delivery waits on an enabled endpoint after `n` failed attempts, in nobody's hands. */
  predicate Tried(o: Outbox, n: nat) {
    |o.rows| == 1 && o.rows[0].status.Waiting? && o.rows[0].enabled && o.rows[0].replays == 0
    && o.rows[0].attempts == n && o.workers == map[]
  }

  lemma OneMoreStep(c: Config, steps: seq<Step>, step: Step)
    ensures Run(EMPTY_OUTBOX, c, steps + [step]) == Next(Run(EMPTY_OUTBOX, c, steps), c, step)
  {
    assert (steps + [step])[..|steps|] == steps;
  }

  /** The only delivery is claimed once its time has come. */
  lemma TakesTheOne(o: Outbox, c: Config, worker: nat)
    requires |o.rows| == 1 && Due(o.rows[0], o.now) && worker !in o.workers
    ensures var after := Next(o, c, Take(worker, [0]));
            && after.workers == o.workers[worker := [Claim(0, o.rows[0].attempts)]]
            && after.rows == [o.rows[0].(nextAt := o.now + c.lease)] && after.now == o.now
  {
    assert Claimable(o.rows, o.now, [0]);
    assert Claims(o.rows, [0]) == [Claim(0, o.rows[0].attempts)];
  }

  /** A worker with only this delivery in hand records that its attempt failed. */
  lemma FailsTheOne(o: Outbox, c: Config, worker: nat)
    requires |o.rows| == 1 && worker in o.workers && |o.workers[worker]| == 1 && o.workers[worker][0].delivery == 0
    ensures var after := Next(o, c, Finish(worker, false, o.now));
            && after.workers == o.workers - {worker}
            && |after.rows| == 1 && after.rows[0].attempts == o.rows[0].attempts + 1
            && after.rows[0].enabled == o.rows[0].enabled && after.rows[0].replays == o.rows[0].replays
            && (o.workers[worker][0].attempts + 1 < c.maxAttempts ==> after.rows[0].status == o.rows[0].status)
  {
  }

  /** Any number of failed attempts short of the maximum can have been made. */
  lemma {:induction false} TriedOften(c: Config, n: nat) returns (steps: seq<Step>)
    requires n == 0 || n < c.maxAttempts
    ensures Tried(Run(EMPTY_OUTBOX, c, steps), n) && Soon(Run(EMPTY_OUTBOX, c, steps), c)
  {
    if n == 0 {
      steps := [Arrive];
      OneMoreStep(c, [], Arrive);
    } else {
      var before := TriedOften(c, n - 1);
      var o := Run(EMPTY_OUTBOX, c, before);
      var o1 := Next(o, c, Wait(Longest(c)));
      var o2 := Next(o1, c, Take(0, [0]));
      OneMoreStep(c, before, Wait(Longest(c)));
      OneMoreStep(c, before + [Wait(Longest(c))], Take(0, [0]));
      TakesTheOne(o1, c, 0);
      steps := before + [Wait(Longest(c))] + [Take(0, [0])] + [Finish(0, false, o2.now)];
      OneMoreStep(c, before + [Wait(Longest(c))] + [Take(0, [0])], Finish(0, false, o2.now));
      FailsTheOne(o2, c, 0);
      RunKeepsSoon(c, steps);
    }
  }

  /** Two workers in turn claim the delivery before its last attempt, and both record a failure. */
  lemma BothFail(o: Outbox, o1: Outbox, o2: Outbox, o3: Outbox, o4: Outbox, o5: Outbox, o6: Outbox, c: Config, n: nat)
    requires Tried(o, n) && Soon(o, c)
    requires o1 == Next(o, c, Wait(Longest(c))) && o2 == Next(o1, c, Take(0, [0]))
    requires o3 == Next(o2, c, Wait(c.lease)) && o4 == Next(o3, c, Take(1, [0]))
    requires o5 == Next(o4, c, Finish(0, false, o4.now)) && o6 == Next(o5, c, Finish(1, false, o5.now))
    ensures |o6.rows| == 1 && o6.rows[0].replays == 0 && o6.rows[0].attempts == n + 2
  {
    TakesTheOne(o1, c, 0);
    TakesTheOne(o3, c, 1);
    FailsTheOne(o4, c, 0);
    FailsTheOne(o5, c, 1);
  }

  /**
   With a second worker the bound fails, whatever the maximum: the lease runs out while the
   first worker still makes the last attempt, the second claims the same delivery, and both
   record.
   */
  lemma TwoWorkersOverrun(c: Config) returns (steps: seq<Step>)
    ensures var o := Run(EMPTY_OUTBOX, c, steps);
            && |o.rows| == 1
            && o.rows[0].attempts > (if c.maxAttempts < 1 then 1 else c.maxAttempts) + o.rows[0].replays
  {
    var n := if c.maxAttempts < 1 then 0 else c.maxAttempts - 1;
    var before := TriedOften(c, n);
    var o := Run(EMPTY_OUTBOX, c, before);
    var o1 := Next(o, c, Wait(Longest(c)));
    var o2 := Next(o1, c, Take(0, [0]));
    var o3 := Next(o2, c, Wait(c.lease));
    var o4 := Next(o3, c, Take(1, [0]));
    var o5 := Next(o4, c, Finish(0, false, o4.now));
    BothFail(o, o1, o2, o3, o4, o5, Next(o5, c, Finish(1, false, o5.now)), c, n);
    steps := ThenSix(c, before, Wait(Longest(c)), Take(0, [0]), Wait(c.lease), Take(1, [0]),
                     Finish(0, false, o4.now), Finish(1, false, o5.now));
  }

  lemma ThenSix(c: Config, before: seq<Step>, s1: Step, s2: Step, s3: Step, s4: Step, s5: Step, s6: Step)
    returns (steps: seq<Step>)
    ensures Run(EMPTY_OUTBOX, c, steps)
         == Next(Next(Next(Next(Next(Next(Run(EMPTY_OUTBOX, c, before), c, s1), c, s2), c, s3), c, s4), c, s5), c, s6)
  {
    OneMoreStep(c, before, s1);
    OneMoreStep(c, before + [s1], s2);
    OneMoreStep(c, before + [s1] + [s2], s3);
    OneMoreStep(c, before + [s1] + [s2] + [s3], s4);
    OneMoreStep(c, before + [s1] + [s2] + [s3] + [s4], s5);
    steps := before + [s1] + [s2] + [s3] + [s4] + [s5] + [s6];
    OneMoreStep(c, before + [s1] + [s2] + [s3] + [s4] + [s5], s6);
  }

  lemma {:induction false} DoublingGrows(base: nat, m: nat, n: nat)
    requires m <= n
    ensures Doubled(base, m) <= Doubled(base, n)
  {
    if m < n {
      DoublingGrows(base, m, n - 1);
    }
  }

  /** The delay never shrinks from one attempt to the next and never passes the maximum. */
  lemma BackoffGrowsToTheMaximum(a: int, b: int, base: nat, max: nat)
    requires a <= b
    ensures Backoff(a, base, max) <= Backoff(b, base, max) <= max
    ensures a <= 1 ==> Backoff(a, base, max) == Min(base, max)
    ensures 1 <= a < 21 && Backoff(a, base, max) < max ==>
      Backoff(a + 1, base, max) == Min(2 * Backoff(a, base, max), max)
  {
    var m, n := Min(if a < 1 then 0 else a - 1, 20), Min(if b < 1 then 0 else b - 1, 20);
    DoublingGrows(base, m, n);
  }

  lemma TwiceFactor(base: nat, p: nat, q: nat)
    requires q == 2 * p
    ensures base * q == 2 * (base * p)
  {
  }
}
