/**
 Node events applied to storage, and the pump that applies each event, retries while
 storage is unavailable, and acknowledges it only afterwards.
 */
module NodeEvents {
  import opened Core
  import opened Ledger
  import opened LedgerInvariants
  import opened Storage
  import opened PaymentProtocol
  import opened DispatchSafety
  import opened OutcomeTruth
  import opened StorageAnswers

  datatype Outcome = Applied | Permanent | Transient

  function Classify<T>(r: Result<T, StorageError>): Outcome {
    match r
    case Ok(_) => Applied
    case Err(NotFound) => Permanent
    case Err(IllegalTransition) => Permanent
    case Err(_) => Transient
  }

  /** Moves the newest open row with this hash, if there is one. */
  function Settle(db: Db, hash: string, ok: bool, res: Resolution): (Db, Outcome) {
    var open := FindOpen(db.payments, hash);
    if open.None? then (db, Applied)
    else
      var p := open.value;
      var (after, r) := TransitionPayment(
        db, Some(if ok then SentOk(p) else SentFail(p)), p, if ok then Succeeded else Failed, res);
      (after, Classify(r))
  }

  /** The whole effect of handling one node event with nothing in between. */
  function Handle(db: Db, e: NodeEvent): (Db, Outcome) {
    match e
    case PaymentReceived(hash, amount) =>
      var (after, r) := MarkInvoicePaid(db, hash, amount);
      (after, Classify(r))
    case PaymentSuccessful(hash, preimage, fee) => Settle(db, hash, true, Resolution(fee, None, preimage))
    case PaymentFailed(hash, reason) =>
      if hash.None? then (db, Applied)
      else Settle(db, hash.value, false, Resolution(None, Some(reason), None))
    case OtherNodeEvent => (db, Applied)
  }

  function Handler(): (Db, NodeEvent) -> Db {
    (db, e) => Handle(db, e).0
  }

  function HandleAll(db: Db, events: seq<NodeEvent>): Db {
    Fold(db, events, Handler())
  }

  method HandleNodeEvent(db: Database, e: NodeEvent) returns (r: Outcome)
    modifies db
    ensures (db.State(), r) == Handle(old(db.State()), e)
    ensures r.Transient? ==> db.State() == old(db.State())
  {
    TransientHasNoEffect(db.State(), e);
    match e {
      case PaymentReceived(hash, amount) =>
        var paid := db.MarkInvoicePaid(hash, amount);
        r := Classify(paid);
      case PaymentSuccessful(hash, preimage, fee) =>
        var open := FindOpen(db.payments, hash);
        if open.None? {
          return Applied;
        }
        var t := db.TransitionPayment(Some(SentOk(open.value)), open.value, Succeeded, Resolution(fee, None, preimage));
        r := Classify(t);
      case PaymentFailed(hash, reason) =>
        if hash.None? {
          return Applied;
        }
        var open := FindOpen(db.payments, hash.value);
        if open.None? {
          return Applied;
        }
        var t := db.TransitionPayment(Some(SentFail(open.value)), open.value, Failed, Resolution(None, Some(reason), None));
        r := Classify(t);
      case OtherNodeEvent =>
        r := Applied;
    }
  }

  /** The pump's next event: applied after those before it, or turned away without effect. */
  method PumpOne(db: Database, queue: seq<NodeEvent>, done: nat, ghost start: Db) returns (r: Outcome)
    requires done < |queue| && db.State() == HandleAll(start, queue[..done]) && AllHandled(start, queue, done)
    modifies db
    ensures if r.Transient?
            then db.State() == old(db.State()) && Handle(db.State(), queue[done]) == (db.State(), Transient)
            else db.State() == HandleAll(start, queue[..done + 1]) && AllHandled(start, queue, done + 1)
  {
    r := HandleNodeEvent(db, queue[done]);
    if !r.Transient? {
      OneMoreHandled(start, queue, done, db.State(), r);
    }
  }

  /**
   Applies queued events in order until the queue is empty or the pump is stopped, which
   happens after `patience` retries. What is left was never acknowledged: everything before
   it was applied exactly once, and its first event has had no effect.
   */
  method PumpNodeEvents(db: Database, queue: seq<NodeEvent>, patience: nat) returns (left: seq<NodeEvent>)
    modifies db
    ensures |left| <= |queue| && left == queue[|queue| - |left|..]
    ensures db.State() == HandleAll(old(db.State()), queue[..|queue| - |left|])
    ensures left != [] ==> Handle(db.State(), left[0]) == (db.State(), Transient)
    ensures AllHandled(old(db.State()), queue, |queue| - |left|)
  {
    ghost var start := db.State();
    var done, retries := 0, 0;
    while done < |queue|
      invariant 0 <= done <= |queue| && 0 <= retries <= patience
      invariant db.State() == HandleAll(start, queue[..done]) && AllHandled(start, queue, done)
      decreases |queue| - done, patience - retries
    {
      var r := PumpOne(db, queue, done, start);
      if r.Transient? {
        if retries == patience {
          return queue[done..];
        }
        retries := retries + 1;
      } else {
        done := done + 1;
      }
    }
    left := [];
  }

  /** Event `k` is not turned away for a retry when its turn comes. */
  predicate HandledAt(db: Db, queue: seq<NodeEvent>, k: nat)
    requires k < |queue|
  {
    !Handle(HandleAll(db, queue[..k]), queue[k]).1.Transient?
  }

  predicate AllHandled(db: Db, queue: seq<NodeEvent>, n: nat)
    requires n <= |queue|
  {
    forall k :: 0 <= k < n ==> HandledAt(db, queue, k)
  }

  lemma OneMoreHandled(db: Db, queue: seq<NodeEvent>, n: nat, after: Db, r: Outcome)
    requires n < |queue| && AllHandled(db, queue, n)
    requires (after, r) == Handle(HandleAll(db, queue[..n]), queue[n]) && !r.Transient?
    ensures AllHandled(db, queue, n + 1) && after == HandleAll(db, queue[..n + 1])
  {
    assert queue[..n + 1][..n] == queue[..n];
    assert HandledAt(db, queue, n);
  }

  // ------------------------------------------------- what handling comes to

  /** An open row with this hash that the event has not been applied to. */
  predicate Unapplied(db: Db, hash: string, ok: bool, p: nat) {
    && p < |db.payments| && FindOpen(db.payments, hash) == Some(p)
    && (if ok then SentOk(p) else SentFail(p)) !in db.claimed
  }

  predicate TooLarge(n: Option<nat>) {
    n.Some? && n.value > I64_MAX
  }

  /**
   An event is retried exactly when it brings an amount or a fee that no column holds, to an
   open invoice or a payment that could take it. It is dropped for good exactly when it is a
   receipt for no invoice or an expired one, or a success for a payment never handed to the
   node. Everything else is applied, a failure always.
   */
  lemma VerdictIs(db: Db, e: NodeEvent)
    ensures Handle(db, e).1.Transient? <==>
      || (e.PaymentReceived? && Recv(e.hash) !in db.claimed && e.amount > I64_MAX && exists i :: AwaitsReceipt(db, e.hash, i))
      || (e.PaymentSuccessful? && TooLarge(e.fee)
          && exists p: nat :: Unapplied(db, e.hash, true, p) && !db.payments[p].status.Created?)
    ensures Handle(db, e).1.Permanent? <==>
      || (e.PaymentReceived? && Recv(e.hash) !in db.claimed
          && (FindInvoice(db.invoices, e.hash).None?
              || db.invoices[FindInvoice(db.invoices, e.hash).value].status.Expired?))
      || (e.PaymentSuccessful? && exists p: nat :: Unapplied(db, e.hash, true, p) && db.payments[p].status.Created?)
  {
    match e
    case PaymentReceived(hash, amount) =>
      var (after, r) := MarkInvoicePaid(db, hash, amount);
      ReceiptAnswers(db, hash, amount, after, r);
    case PaymentSuccessful(hash, preimage, fee) => SettleVerdict(db, hash, true, Resolution(fee, None, preimage));
    case PaymentFailed(hash, reason) =>
      if hash.Some? {
        SettleVerdict(db, hash.value, false, Resolution(None, Some(reason), None));
      }
    case OtherNodeEvent =>
  }

  lemma SettleVerdict(db: Db, hash: string, ok: bool, res: Resolution)
    ensures Settle(db, hash, ok, res).1.Transient? <==>
      TooLarge(res.fee) && exists p: nat :: Unapplied(db, hash, ok, p) && (ok ==> !db.payments[p].status.Created?)
    ensures Settle(db, hash, ok, res).1.Permanent? <==>
      ok && exists p: nat :: Unapplied(db, hash, ok, p) && db.payments[p].status.Created?
  {
    var open := FindOpen(db.payments, hash);
    if open.Some? {
      var key, next := if ok then SentOk(open.value) else SentFail(open.value), if ok then Succeeded else Failed;
      var (after, r) := TransitionPayment(db, Some(key), open.value, next, res);
      TransitionRefuses(db, Some(key), open.value, next, res, after, r);
      PaymentsOnlyMoveOn(db.payments[open.value].status, next);
      if key !in db.claimed {
        assert Unapplied(db, hash, ok, open.value);
      }
    }
  }

  /** A receipt pays its open invoice with the amount that came. */
  lemma ReceiptIsStored(db: Db, hash: string, amount: nat, i: nat)
    requires AwaitsReceipt(db, hash, i) && Recv(hash) !in db.claimed && amount <= I64_MAX
    ensures var after := Handle(db, PaymentReceived(hash, amount)).0;
            && |after.invoices| == |db.invoices| && after.payments == db.payments
            && after.invoices[i].status.Paid? && after.invoices[i].received == Some(amount)
            && after.claimed == db.claimed + {Recv(hash)}
            && forall j :: 0 <= j < |db.invoices| && j != i ==> after.invoices[j] == db.invoices[j]
  {
    var (after, r) := MarkInvoicePaid(db, hash, amount);
    ReceiptAnswers(db, hash, amount, after, r);
    ReceiptStores(db, hash, amount, after, i);
  }

  /** A success makes the newest open payment with its hash `succeeded`, with the event's preimage and fee. */
  lemma SuccessIsStored(db: Db, hash: string, preimage: Option<string>, fee: Option<nat>, p: nat)
    requires Unapplied(db, hash, true, p) && !db.payments[p].status.Created? && !TooLarge(fee)
    ensures var after := Handle(db, PaymentSuccessful(hash, preimage, fee)).0;
            && |after.payments| == |db.payments| && after.payments[p].status.Succeeded?
            && Core.Coalesce(preimage, db.payments[p].preimage) == after.payments[p].preimage
            && Core.Coalesce(fee, db.payments[p].fee) == after.payments[p].fee
            && after.claimed == db.claimed + {SentOk(p)}
            && forall i :: 0 <= i < |db.payments| && i != p ==> after.payments[i] == db.payments[i]
  {
    var res := Resolution(fee, None, preimage);
    var (after, r) := TransitionPayment(db, Some(SentOk(p)), p, Succeeded, res);
    TransitionRefuses(db, Some(SentOk(p)), p, Succeeded, res, after, r);
    TransitionStores(db, Some(SentOk(p)), p, Succeeded, res, after, r);
  }

  /** A failure makes the newest open payment with its hash `failed`, with the event's reason. */
  lemma FailureIsStored(db: Db, hash: string, reason: string, p: nat)
    requires Unapplied(db, hash, false, p)
    ensures var after := Handle(db, PaymentFailed(Some(hash), reason)).0;
            && |after.payments| == |db.payments| && after.payments[p].status.Failed?
            && after.payments[p].failure == Some(reason)
            && after.claimed == db.claimed + {SentFail(p)}
            && forall i :: 0 <= i < |db.payments| && i != p ==> after.payments[i] == db.payments[i]
  {
    var res := Resolution(None, Some(reason), None);
    var (after, r) := TransitionPayment(db, Some(SentFail(p)), p, Failed, res);
    TransitionRefuses(db, Some(SentFail(p)), p, Failed, res, after, r);
    TransitionStores(db, Some(SentFail(p)), p, Failed, res, after, r);
  }

  // ---------------------------------------- the handler is the protocol's pump

  /**
   With nothing in between, the pump's two steps on the event at the head of the queue leave
   what the handler leaves, and the pump is about to acknowledge exactly when the handler
   does not ask for a retry.
   */
  lemma PumpHandles(s: Sys, s1: Sys, s2: Sys, e: NodeEvent)
    requires s.pump.Idle? && |s.node.queue| > 0 && s.node.queue[0] == e
    requires s1 == DoPumpTake(s) && s2 == DoPumpApply(s1)
    ensures s2 == s.(db := Handle(s.db, e).0, pump := if Handle(s.db, e).1.Transient? then Idle else Acking)
  {
    match e
    case PaymentReceived(_, _) =>
    case PaymentSuccessful(_, _, _) =>
    case PaymentFailed(_, _) =>
    case OtherNodeEvent =>
  }

  /** The pump takes, applies and acknowledges the event at the head, once. */
  function Round(s: Sys): Sys {
    Next(Next(Next(s, PumpTake), PumpApply), PumpAck)
  }

  function RoundStep(): (Sys, ()) -> Sys {
    (s, _) => Round(s)
  }

  function Rounds(s: Sys, n: nat): Sys {
    Fold(s, seq(n, _ => ()), RoundStep())
  }

  lemma OneMoreRound(s: Sys, n: nat)
    ensures Rounds(s, n + 1) == Round(Rounds(s, n))
  {
    assert seq(n + 1, _ => ())[..n] == seq(n, _ => ());
  }

  lemma RoundHandles(s: Sys, e: NodeEvent)
    requires s.pump.Idle? && |s.node.queue| > 0 && s.node.queue[0] == e && !Handle(s.db, e).1.Transient?
    ensures Round(s) == s.(db := Handle(s.db, e).0, node := s.node.(queue := s.node.queue[1..]))
  {
    PumpHandles(s, DoPumpTake(s), DoPumpApply(DoPumpTake(s)), e);
  }

  /** The system once the first `n` events have been handled and acknowledged. */
  function Handled(s: Sys, n: nat): Sys
    requires n <= |s.node.queue|
  {
    s.(db := HandleAll(s.db, s.node.queue[..n]), node := s.node.(queue := s.node.queue[n..]))
  }

  lemma OneRoundOn(s: Sys, n: nat)
    requires s.pump.Idle? && n < |s.node.queue| && HandledAt(s.db, s.node.queue, n)
    ensures Round(Handled(s, n)) == Handled(s, n + 1)
  {
    var queue := s.node.queue;
    RoundHandles(Handled(s, n), queue[n]);
    assert queue[..n + 1][..n] == queue[..n] && queue[n..][1..] == queue[n + 1..];
  }

  /**
   The protocol's pump, run undisturbed over events that are not turned away, is the handler
   run over them: the same tables, and the queue shorter by just those events.
   */
  lemma {:induction false} RoundsHandleAll(s: Sys, n: nat)
    requires s.pump.Idle? && n <= |s.node.queue| && AllHandled(s.db, s.node.queue, n)
    ensures Rounds(s, n) == Handled(s, n)
  {
    if n > 0 {
      RoundsHandleAll(s, n - 1);
      assert HandledAt(s.db, s.node.queue, n - 1);
      OneRoundOn(s, n - 1);
      OneMoreRound(s, n - 1);
    } else {
      assert s.node.queue[0..] == s.node.queue;
    }
  }

  lemma TransientHasNoEffect(db: Db, e: NodeEvent)
    ensures Handle(db, e).1.Transient? ==> Handle(db, e).0 == db
  {
  }

  // -------------------------------------------------- delivery more than once

  /** Moving an open row to a final status leaves the older rows to be found next. */
  lemma {:induction false} FindOpenAfterClosing(payments: seq<Payment>, p: nat, row: Payment, hash: string)
    requires FindOpen(payments, hash) == Some(p) && p < |payments| && IsFinal(row.status)
    ensures FindOpen(payments[p := row], hash) == FindOpen(payments[..p], hash)
  {
    var last := |payments| - 1;
    if p == last {
      assert payments[p := row][..last] == payments[..p];
    } else {
      assert payments[p := row][..last] == payments[..last][p := row];
      assert payments[..last][..p] == payments[..p];
      FindOpenAfterClosing(payments[..last], p, row, hash);
    }
  }

  /** The row a redelivered outcome would move after the first delivery moved the newest one. */
  predicate OlderRowWouldMove(db: Db, hash: string, ok: bool)
    requires FindOpen(db.payments, hash).Some?
  {
    var p := FindOpen(db.payments, hash).value;
    var q := FindOpen(db.payments[..p], hash);
    && q.Some?
    && (if ok then SentOk(q.value) else SentFail(q.value)) !in db.claimed
    && CanMove(db.payments[q.value].status, if ok then Succeeded else Failed)
  }

  /**
   Exactly when delivering an outcome twice equals delivering it once: when the first
   delivery changed nothing, or no older open row under the same hash would move.
   */
  lemma RedeliveredOutcome(db: Db, hash: string, ok: bool, res: Resolution, once: Db, twice: Db)
    requires once == Settle(db, hash, ok, res).0 && twice == Settle(once, hash, ok, res).0
    ensures twice == once
       <==> (once == db || !OlderRowWouldMove(db, hash, ok))
  {
    if once != db {
      var p := FindOpen(db.payments, hash).value;
      var next := if ok then Succeeded else Failed;
      FindOpenAfterClosing(db.payments, p, MovedRow(db.payments[p], next, res), hash);
      var q := FindOpen(db.payments[..p], hash);
      assert FindOpen(once.payments, hash) == q;
      if q.Some? {
        assert once.payments[q.value] == db.payments[q.value];
        if twice != once {
          assert CanMove(db.payments[q.value].status, next);
        } else if OlderRowWouldMove(db, hash, ok) {
          MovedIsDifferent(once, Some(if ok then SentOk(q.value) else SentFail(q.value)), q.value, next, res);
        }
      }
    }
  }

  lemma MovedIsDifferent(db: Db, key: Option<DedupeKey>, p: nat, next: PaymentStatus, res: Resolution)
    requires p < |db.payments| && CanMove(db.payments[p].status, next)
    ensures CommitMove(db, key, p, next, res) != db
  {
    assert CommitMove(db, key, p, next, res).payments[p].status == next;
  }

  lemma UnsharedOutcomeOnce(db: Db, hash: string, ok: bool, res: Resolution)
    requires Unshared(db.payments)
    ensures Settle(Settle(db, hash, ok, res).0, hash, ok, res).0 == Settle(db, hash, ok, res).0
  {
    var once := Settle(db, hash, ok, res).0;
    RedeliveredOutcome(db, hash, ok, res, once, Settle(once, hash, ok, res).0);
  }

  lemma HandleTwiceIsOnce(db: Db, e: NodeEvent)
    requires Unshared(db.payments)
    ensures Handle(Handle(db, e).0, e).0 == Handle(db, e).0
  {
    match e
    case PaymentReceived(_, _) =>
    case PaymentSuccessful(hash, preimage, fee) =>
      UnsharedOutcomeOnce(db, hash, true, Resolution(fee, None, preimage));
    case PaymentFailed(hash, reason) =>
      if hash.Some? {
        UnsharedOutcomeOnce(db, hash.value, false, Resolution(None, Some(reason), None));
      }
    case OtherNodeEvent =>
  }

  lemma HandleKeepsHashes(db: Db, e: NodeEvent)
    requires Unshared(db.payments)
    ensures Unshared(Handle(db, e).0.payments)
  {
  }

  function Repeat(e: NodeEvent, n: nat): seq<NodeEvent> {
    seq(n, _ => e)
  }

  /** Each event delivered once, then again as often as `extra` says. */
  function AtLeastOnce(events: seq<NodeEvent>, extra: seq<nat>): seq<NodeEvent>
    requires |extra| == |events|
  {
    if |events| == 0 then []
    else
      var last := |events| - 1;
      AtLeastOnce(events[..last], extra[..last]) + Repeat(events[last], 1 + extra[last])
  }

  lemma {:induction false} RepeatIsOnce(db: Db, e: NodeEvent, n: nat)
    requires Unshared(db.payments)
    ensures HandleAll(db, Repeat(e, 1 + n)) == Handle(db, e).0
  {
    assert Repeat(e, 1 + n)[..n] == Repeat(e, n);
    if n == 0 {
      assert HandleAll(db, Repeat(e, 0)) == db;
    } else {
      RepeatIsOnce(db, e, n - 1);
      HandleTwiceIsOnce(db, e);
    }
  }

  /** With unshared hashes, at-least-once delivery has exactly the effect of exactly-once delivery. */
  lemma {:induction false} RedeliveryChangesNothing(db: Db, events: seq<NodeEvent>, extra: seq<nat>)
    requires Unshared(db.payments) && |extra| == |events|
    ensures HandleAll(db, AtLeastOnce(events, extra)) == HandleAll(db, events)
    ensures Unshared(HandleAll(db, events).payments)
  {
    if |events| > 0 {
      var last := |events| - 1;
      var before := HandleAll(db, events[..last]);
      RedeliveryChangesNothing(db, events[..last], extra[..last]);
      var more := Repeat(events[last], 1 + extra[last]);
      RepeatIsOnce(before, events[last], extra[last]);
      FoldSplit(db, AtLeastOnce(events[..last], extra[..last]), more, Handler());
      HandleKeepsHashes(before, events[last]);
    }
  }

  // ---------------------------------------- redelivery at any later time

  /** What storage sees: other transactions, and deliveries of node events, in any order. */
  datatype Item = Work(txn: Txn) | Deliver(event: NodeEvent)

  function DoItem(db: Db, item: Item): Db {
    match item
    case Work(t) => Apply(db, t)
    case Deliver(e) => Handle(db, e).0
  }

  function ItemStep(): (Db, Item) -> Db {
    (db, item) => DoItem(db, item)
  }

  function RunItems(db: Db, items: seq<Item>): Db {
    Fold(db, items, ItemStep())
  }

  lemma LastItem(db: Db, items: seq<Item>)
    requires |items| > 0
    ensures RunItems(db, items) == DoItem(RunItems(db, items[..|items| - 1]), items[|items| - 1])
  {
  }

  predicate HasRow(payments: seq<Payment>, hash: string) {
    exists p :: 0 <= p < |payments| && payments[p].Hash() == hash
  }

  predicate HasFinalRow(payments: seq<Payment>, hash: string) {
    exists p :: 0 <= p < |payments| && payments[p].Hash() == hash && IsFinal(payments[p].status)
  }

  /** The event is applied in `db`, and an outcome has a row to be applied to. */
  predicate Takes(db: Db, e: NodeEvent) {
    && Handle(db, e).1.Applied?
    && (e.PaymentSuccessful? ==> HasRow(db.payments, e.hash))
    && (e.PaymentFailed? && e.lost.Some? ==> HasRow(db.payments, e.lost.value))
  }

  /** Nothing is left for the event to do. */
  predicate Settled(db: Db, e: NodeEvent) {
    && (e.PaymentReceived? ==> Recv(e.hash) in db.claimed)
    && (e.PaymentSuccessful? ==> HasFinalRow(db.payments, e.hash))
    && (e.PaymentFailed? && e.lost.Some? ==> HasFinalRow(db.payments, e.lost.value))
  }

  lemma SettleCloses(db: Db, hash: string, ok: bool, res: Resolution)
    requires DedupeExact(db) && HasRow(db.payments, hash) && Settle(db, hash, ok, res).1.Applied?
    ensures HasFinalRow(Settle(db, hash, ok, res).0.payments, hash)
  {
    var after := Settle(db, hash, ok, res).0;
    var open := FindOpen(db.payments, hash);
    if open.None? {
      var p :| 0 <= p < |db.payments| && db.payments[p].Hash() == hash;
      assert IsFinal(after.payments[p].status);
    } else {
      var p := open.value;
      assert after.payments[p].Hash() == hash && IsFinal(after.payments[p].status);
    }
  }

  lemma TakenIsSettled(db: Db, e: NodeEvent)
    requires DedupeExact(db) && Takes(db, e)
    ensures Settled(Handle(db, e).0, e)
  {
    match e
    case PaymentReceived(_, _) =>
    case PaymentSuccessful(hash, preimage, fee) => SettleCloses(db, hash, true, Resolution(fee, None, preimage));
    case PaymentFailed(hash, reason) =>
      if hash.Some? {
        SettleCloses(db, hash.value, false, Resolution(None, Some(reason), None));
      }
    case OtherNodeEvent =>
  }

  lemma FinalRowIsFound(payments: seq<Payment>, hash: string)
    requires Unshared(payments) && HasFinalRow(payments, hash)
    ensures FindOpen(payments, hash).None?
  {
    var p :| 0 <= p < |payments| && payments[p].Hash() == hash && IsFinal(payments[p].status);
  }

  lemma SettledIsSilent(db: Db, e: NodeEvent)
    requires Settled(db, e) && Unshared(db.payments)
    ensures Handle(db, e).0 == db
  {
    if e.PaymentSuccessful? {
      FinalRowIsFound(db.payments, e.hash);
    } else if e.PaymentFailed? && e.lost.Some? {
      FinalRowIsFound(db.payments, e.lost.value);
    }
  }

  /** The transaction handling an event comes to, if it comes to any. */
  function HandledTxn(db: Db, e: NodeEvent): Option<Txn> {
    match e
    case PaymentReceived(hash, amount) => Some(TReceive(hash, amount))
    case PaymentSuccessful(hash, preimage, fee) =>
      var open := FindOpen(db.payments, hash);
      if open.None? then None
      else Some(TMove(Some(SentOk(open.value)), open.value, Succeeded, Resolution(fee, None, preimage)))
    case PaymentFailed(hash, reason) =>
      if hash.None? || FindOpen(db.payments, hash.value).None? then None
      else
        var p := FindOpen(db.payments, hash.value).value;
        Some(TMove(Some(SentFail(p)), p, Failed, Resolution(None, Some(reason), None)))
    case OtherNodeEvent => None
  }

  lemma HandleIsTxn(db: Db, e: NodeEvent)
    ensures Handle(db, e).0 == if HandledTxn(db, e).Some? then Apply(db, HandledTxn(db, e).value) else db
    ensures HandledTxn(db, e).Some? ==> WellKeyed(HandledTxn(db, e).value)
  {
  }

  lemma ApplyMovesForward(db: Db, t: Txn)
    ensures RowsForward(db.payments, Apply(db, t).payments) && db.claimed <= Apply(db, t).claimed
  {
    if t.TExpire? {
      ExpireKeepsPayments(db, t.now, |db.invoices|);
      ExpireKeepsPaid(db, t.now, |db.invoices|);
    }
  }

  predicate WellKeyedItem(item: Item) {
    item.Work? ==> WellKeyed(item.txn)
  }

  lemma ItemKeeps(db: Db, item: Item)
    requires WellKeyedItem(item)
    ensures RowsForward(db.payments, DoItem(db, item).payments) && db.claimed <= DoItem(db, item).claimed
    ensures DedupeExact(db) ==> DedupeExact(DoItem(db, item))
  {
    var t := if item.Work? then Some(item.txn) else HandledTxn(db, item.event);
    if item.Deliver? {
      HandleIsTxn(db, item.event);
    }
    if t.Some? {
      ApplyMovesForward(db, t.value);
      if DedupeExact(db) {
        ApplyKeepsDedupe(db, t.value);
      }
    }
  }

  lemma FinalRowStays(payments: seq<Payment>, after: seq<Payment>, hash: string)
    requires RowsForward(payments, after) && HasFinalRow(payments, hash)
    ensures HasFinalRow(after, hash)
  {
    var p :| 0 <= p < |payments| && payments[p].Hash() == hash && IsFinal(payments[p].status);
    assert after[p].Hash() == hash && IsFinal(after[p].status);
  }

  lemma SettledStays(db: Db, after: Db, e: NodeEvent)
    requires Settled(db, e) && RowsForward(db.payments, after.payments) && db.claimed <= after.claimed
    ensures Settled(after, e)
  {
    if e.PaymentSuccessful? {
      FinalRowStays(db.payments, after.payments, e.hash);
    } else if e.PaymentFailed? && e.lost.Some? {
      FinalRowStays(db.payments, after.payments, e.lost.value);
    }
  }

  lemma SettledStaysOne(db: Db, item: Item, e: NodeEvent)
    requires Settled(db, e) && WellKeyedItem(item)
    ensures Settled(DoItem(db, item), e)
  {
    ItemKeeps(db, item);
    SettledStays(db, DoItem(db, item), e);
  }

  lemma {:induction false} ItemsKeepDedupe(db: Db, items: seq<Item>)
    requires DedupeExact(db) && forall k :: 0 <= k < |items| ==> WellKeyedItem(items[k])
    ensures DedupeExact(RunItems(db, items))
  {
    if |items| > 0 {
      LastItem(db, items);
      ItemsKeepDedupe(db, items[..|items| - 1]);
      ItemKeeps(RunItems(db, items[..|items| - 1]), items[|items| - 1]);
    }
  }

  lemma ItemsSplit(db: Db, items: seq<Item>, k: nat)
    requires k <= |items|
    ensures RunItems(db, items) == RunItems(RunItems(db, items[..k]), items[k..])
  {
    assert items[..k] + items[k..] == items;
    FoldSplit(db, items[..k], items[k..], ItemStep());
  }

  lemma {:induction false} SettledStaysAlong(db: Db, items: seq<Item>, e: NodeEvent)
    requires Settled(db, e) && forall k :: 0 <= k < |items| ==> WellKeyedItem(items[k])
    ensures Settled(RunItems(db, items), e)
  {
    if |items| > 0 {
      LastItem(db, items);
      SettledStaysAlong(db, items[..|items| - 1], e);
      SettledStaysOne(RunItems(db, items[..|items| - 1]), items[|items| - 1], e);
    }
  }

  /** An event taken at position `j` is settled ever after. */
  lemma SettledEverAfter(db: Db, items: seq<Item>, j: nat, e: NodeEvent)
    requires DedupeExact(db) && forall k :: 0 <= k < |items| ==> WellKeyedItem(items[k])
    requires j < |items| && items[j] == Deliver(e) && Takes(RunItems(db, items[..j]), e)
    ensures Settled(RunItems(db, items), e)
  {
    ItemsKeepDedupe(db, items[..j]);
    TakenIsSettled(RunItems(db, items[..j]), e);
    assert items[..j + 1] == items[..j] + [Deliver(e)];
    OneItemMore(db, items[..j], Deliver(e));
    SettledStaysAlong(RunItems(db, items[..j + 1]), items[j + 1..], e);
    ItemsSplit(db, items, j + 1);
  }

  /** Position `k` delivers an event that an earlier position delivered and storage took. */
  predicate DeliversAgain(db: Db, items: seq<Item>, k: nat)
    requires k < |items|
  {
    && items[k].Deliver?
    && exists j :: 0 <= j < k && items[j] == items[k] && Takes(RunItems(db, items[..j]), items[k].event)
  }

  /** The items without those at positions `again`. */
  function Once(items: seq<Item>, again: set<nat>): seq<Item> {
    if |items| == 0 then []
    else
      var last := |items| - 1;
      if last in again then Once(items[..last], again) else Once(items[..last], again) + [items[last]]
  }

  lemma OneItemMore(db: Db, items: seq<Item>, item: Item)
    ensures RunItems(db, items + [item]) == DoItem(RunItems(db, items), item)
  {
    assert (items + [item])[..|items|] == items;
  }

  lemma ForwardIsUnshared(payments: seq<Payment>, after: seq<Payment>)
    requires RowsForward(payments, after) && Unshared(after)
    ensures Unshared(payments)
  {
    forall i, j | 0 <= i < j < |payments| ensures payments[i].Hash() != payments[j].Hash() {
      assert after[i].Hash() == payments[i].Hash() && after[j].Hash() == payments[j].Hash();
    }
  }

  /**
   Events may be redelivered at any later time, between any other transactions, begun
   payments and other events: with unshared hashes the tables end as if each redelivery of
   an event storage had taken were left out.
   */
  lemma {:induction false} LateRedeliveryChangesNothing(db: Db, items: seq<Item>, again: set<nat>)
    requires DedupeExact(db) && forall k :: 0 <= k < |items| ==> WellKeyedItem(items[k])
    requires Unshared(RunItems(db, items).payments)
    requires forall k :: 0 <= k < |items| && k in again ==> DeliversAgain(db, items, k)
    ensures RunItems(db, items) == RunItems(db, Once(items, again))
  {
    if |items| > 0 {
      var last := |items| - 1;
      var init, before := items[..last], RunItems(db, items[..last]);
      LastItem(db, items);
      ItemKeeps(before, items[last]);
      ForwardIsUnshared(before.payments, RunItems(db, items).payments);
      forall k | 0 <= k < |init| && k in again ensures DeliversAgain(db, init, k) {
        EarlierDeliversAgain(db, items, last, k);
      }
      LateRedeliveryChangesNothing(db, init, again);
      if last in again {
        LastRedeliveryIsSilent(db, items);
      } else {
        OneItemMore(db, Once(init, again), items[last]);
      }
    }
  }

  lemma EarlierDeliversAgain(db: Db, items: seq<Item>, n: nat, k: nat)
    requires k < n <= |items| && DeliversAgain(db, items, k)
    ensures DeliversAgain(db, items[..n], k)
  {
    var j :| 0 <= j < k && items[j] == items[k] && Takes(RunItems(db, items[..j]), items[k].event);
    assert items[..n][..j] == items[..j];
    assert items[..n][j] == items[..n][k];
  }

  lemma LastRedeliveryIsSilent(db: Db, items: seq<Item>)
    requires DedupeExact(db) && forall k :: 0 <= k < |items| ==> WellKeyedItem(items[k])
    requires |items| > 0 && DeliversAgain(db, items, |items| - 1)
    requires Unshared(RunItems(db, items[..|items| - 1]).payments)
    ensures RunItems(db, items) == RunItems(db, items[..|items| - 1])
  {
    var last := |items| - 1;
    var e := items[last].event;
    var j :| 0 <= j < last && items[j] == items[last] && Takes(RunItems(db, items[..j]), e);
    assert items[..last][..j] == items[..j];
    SettledEverAfter(db, items[..last], j, e);
    SettledIsSilent(RunItems(db, items[..last]), e);
    LastItem(db, items);
  }

  // ----------------------------------------- every protocol run is well kept

  /** The storage transaction a protocol step performs, if any. */
  function TxnOf(s: Sys, a: Action): Option<Txn> {
    match a
    case Begin(tid, project, key, invoice, given, metadata) =>
      var amount := AmountOf(invoice, given);
      if tid in s.threads || amount.Err? then None
      else Some(TBegin(project, key, Request(invoice, amount.value, metadata)))
    case Pend(tid) =>
      if tid in s.threads && s.threads[tid].ToPend?
      then Some(TMove(None, s.threads[tid].payment, Pending, NO_RESOLUTION)) else None
    case Refuse(tid) =>
      if tid in s.threads && s.threads[tid].ToRefuse?
      then Some(TMove(None, s.threads[tid].payment, Failed, Resolution(None, Some(s.threads[tid].reason), None)))
      else None
    case Pass(tid) =>
      if tid in s.threads && s.threads[tid].ToPass?
      then Some(TMove(None, s.threads[tid].payment, Pending, NO_RESOLUTION)) else None
    case Write(tid) =>
      if tid in s.threads && s.threads[tid].ToWrite?
      then Some(TMove(None, s.threads[tid].payment, s.threads[tid].next, s.threads[tid].res)) else None
    case PumpTake =>
      if s.pump.Idle? && |s.node.queue| > 0 && s.node.queue[0].PaymentReceived?
      then Some(TReceive(s.node.queue[0].hash, s.node.queue[0].amount)) else None
    case PumpApply =>
      if s.pump.Found? && |s.node.queue| > 0 then
        match s.node.queue[0]
        case PaymentSuccessful(_, preimage, fee) =>
          Some(TMove(Some(SentOk(s.pump.payment)), s.pump.payment, Succeeded, Resolution(fee, None, preimage)))
        case PaymentFailed(_, reason) =>
          Some(TMove(Some(SentFail(s.pump.payment)), s.pump.payment, Failed, Resolution(None, Some(reason), None)))
        case _ => None
      else None
    case OtherTxn(t) => if Elsewhere(t) then Some(t) else None
    case _ => None
  }

  lemma StepIsTxn(s: Sys, a: Action)
    ensures Next(s, a).db == (if TxnOf(s, a).Some? then Apply(s.db, TxnOf(s, a).value) else s.db)
    ensures TxnOf(s, a).Some? ==> WellKeyed(TxnOf(s, a).value)
  {
  }

  function TxnsOf(actions: seq<Action>): seq<Txn> {
    if |actions| == 0 then []
    else
      var rest := actions[..|actions| - 1];
      var t := TxnOf(Run(START, rest), actions[|actions| - 1]);
      if t.Some? then TxnsOf(rest) + [t.value] else TxnsOf(rest)
  }

  lemma TxnsExtend(db: Db, ts: seq<Txn>, t: Option<Txn>, before: Db, after: Db)
    requires before == RunTxns(db, ts) && after == if t.Some? then Apply(before, t.value) else before
    ensures after == RunTxns(db, if t.Some? then ts + [t.value] else ts)
  {
    if t.Some? {
      assert (ts + [t.value])[..|ts|] == ts;
    }
  }

  /** The tables of every run are those of its transactions. */
  lemma {:induction false} RunIsTxns(actions: seq<Action>)
    ensures Run(START, actions).db == RunTxns(EMPTY_DB, TxnsOf(actions))
  {
    if |actions| > 0 {
      var rest := actions[..|actions| - 1];
      RunIsTxns(rest);
      var s := Run(START, rest);
      var t := TxnOf(s, actions[|actions| - 1]);
      StepIsTxn(s, actions[|actions| - 1]);
      TxnsExtend(EMPTY_DB, TxnsOf(rest), t, s.db, Next(s, actions[|actions| - 1]).db);
    }
  }

  /** Each of them claims only a key that fits its effect. */
  lemma {:induction false} TxnsAreWellKeyed(actions: seq<Action>)
    ensures forall k :: 0 <= k < |TxnsOf(actions)| ==> WellKeyed(TxnsOf(actions)[k])
  {
    if |actions| > 0 {
      TxnsAreWellKeyed(actions[..|actions| - 1]);
      StepIsTxn(Run(START, actions[..|actions| - 1]), actions[|actions| - 1]);
    }
  }

  /**
   In every run of the protocol, crashes and all: the log tells every row's status with at
   most one terminal event each, the totals can be read from either, and a dedupe key is
   stored exactly when its effect is.
   */
  lemma ProtocolKeepsTheBooks(actions: seq<Action>)
    ensures var db := Run(START, actions).db;
            LogAgrees(db) && DedupeExact(db) && forall project: string :: TotalsAgree(db, project)
  {
    RunIsTxns(actions);
    TxnsAreWellKeyed(actions);
    LogTellsTheRows(TxnsOf(actions));
    DedupeKeysAreExact(TxnsOf(actions));
  }
}
