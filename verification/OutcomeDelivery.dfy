/**
 No outcome is lost. What the node reported is, from then on, still queued or the status of
 its row: the pump acknowledges an outcome only once it has been recorded.
 */
module OutcomeDelivery {
  import opened Core
  import opened Ledger
  import opened LedgerInvariants
  import opened PaymentProtocol
  import opened DispatchSafety
  import opened OutcomeTruth
  import opened NodeEvents

  predicate RowIs(payments: seq<Payment>, hash: string, status: PaymentStatus) {
    exists p :: 0 <= p < |payments| && payments[p].Hash() == hash && payments[p].status == status
  }

  predicate SuccessQueued(queue: seq<NodeEvent>, hash: string) {
    exists k :: 0 <= k < |queue| && queue[k].PaymentSuccessful? && queue[k].hash == hash
  }

  predicate FailureQueued(queue: seq<NodeEvent>, hash: string) {
    exists k :: 0 <= k < |queue| && queue[k].PaymentFailed? && queue[k].lost == Some(hash)
  }

  /** Every reported outcome is queued or recorded. */
  predicate Told(s: Sys) {
    && (forall h :: h in s.node.succeeded ==> SuccessQueued(s.node.queue, h) || RowIs(s.db.payments, h, Succeeded))
    && (forall h :: h in s.node.failed ==> FailureQueued(s.node.queue, h) || RowIs(s.db.payments, h, Failed))
  }

  predicate Recorded(payments: seq<Payment>, e: NodeEvent) {
    && (e.PaymentSuccessful? ==> RowIs(payments, e.hash, Succeeded))
    && (e.PaymentFailed? && e.lost.Some? ==> RowIs(payments, e.lost.value, Failed))
  }

  /** The event about to be acknowledged has been recorded. */
  predicate AckTrue(s: Sys) {
    s.pump.Acking? ==> |s.node.queue| > 0 && Recorded(s.db.payments, s.node.queue[0])
  }

  ghost predicate Delivering(s: Sys) {
    Truthful(s) && DedupeExact(s.db) && Told(s) && AckTrue(s)
  }

  lemma RowStays(payments: seq<Payment>, after: seq<Payment>, hash: string, status: PaymentStatus)
    requires RowsForward(payments, after) && IsFinal(status) && RowIs(payments, hash, status)
    ensures RowIs(after, hash, status)
  {
    var p :| 0 <= p < |payments| && payments[p].Hash() == hash && payments[p].status == status;
    assert after[p].Hash() == hash && after[p].status == status;
  }

  lemma RecordedStays(payments: seq<Payment>, after: seq<Payment>, e: NodeEvent)
    requires RowsForward(payments, after) && Recorded(payments, e)
    ensures Recorded(after, e)
  {
    if e.PaymentSuccessful? {
      RowStays(payments, after, e.hash, Succeeded);
    } else if e.PaymentFailed? && e.lost.Some? {
      RowStays(payments, after, e.lost.value, Failed);
    }
  }

  // ------------------------------------------- what is queued stays queued

  lemma QueuedStays(queue: seq<NodeEvent>, more: seq<NodeEvent>, hash: string)
    requires queue <= more
    ensures SuccessQueued(queue, hash) ==> SuccessQueued(more, hash)
    ensures FailureQueued(queue, hash) ==> FailureQueued(more, hash)
  {
    if k :| 0 <= k < |queue| && queue[k].PaymentSuccessful? && queue[k].hash == hash {
      assert more[k] == queue[k];
    }
    if k :| 0 <= k < |queue| && queue[k].PaymentFailed? && queue[k].lost == Some(hash) {
      assert more[k] == queue[k];
    }
  }

  /** A report is queued as it is made, and only an acknowledgement takes anything away. */
  predicate Reports(n: Node, after: Node) {
    && n.queue <= after.queue
    && (forall h :: h in after.succeeded ==> h in n.succeeded || SuccessQueued(after.queue, h))
    && (forall h :: h in after.failed ==> h in n.failed || FailureQueued(after.queue, h))
  }

  lemma ReportIsQueued(n: Node, after: Node, e: NodeEvent, hash: string)
    requires after.queue == n.queue + [e]
    requires || (e.PaymentSuccessful? && e.hash == hash && after.succeeded == n.succeeded + {hash} && after.failed == n.failed)
             || (e.PaymentFailed? && e.lost == Some(hash) && after.failed == n.failed + {hash} && after.succeeded == n.succeeded)
    ensures Reports(n, after)
  {
    assert after.queue[|n.queue|] == e;
  }

  lemma StepReports(s: Sys, a: Action)
    requires !a.PumpAck?
    ensures Reports(s.node, Next(s, a).node)
  {
    if a.Report? && Next(s, a) != s {
      var after := Next(s, a).node;
      ReportIsQueued(s.node, after, after.queue[|s.node.queue|], a.hash);
    }
  }

  lemma ReportsKeepTold(s: Sys, after: Sys)
    requires Told(s) && Reports(s.node, after.node) && RowsForward(s.db.payments, after.db.payments)
    ensures Told(after)
  {
    forall h | h in after.node.succeeded && !SuccessQueued(after.node.queue, h)
      ensures RowIs(after.db.payments, h, Succeeded)
    {
      QueuedStays(s.node.queue, after.node.queue, h);
      RowStays(s.db.payments, after.db.payments, h, Succeeded);
    }
    forall h | h in after.node.failed && !FailureQueued(after.node.queue, h)
      ensures RowIs(after.db.payments, h, Failed)
    {
      QueuedStays(s.node.queue, after.node.queue, h);
      RowStays(s.db.payments, after.db.payments, h, Failed);
    }
  }

  lemma QueuedBehindHead(queue: seq<NodeEvent>, hash: string)
    requires |queue| > 0
    ensures SuccessQueued(queue, hash) ==>
      SuccessQueued(queue[1..], hash) || (queue[0].PaymentSuccessful? && queue[0].hash == hash)
    ensures FailureQueued(queue, hash) ==>
      FailureQueued(queue[1..], hash) || (queue[0].PaymentFailed? && queue[0].lost == Some(hash))
  {
    if k :| 0 <= k < |queue| && queue[k].PaymentSuccessful? && queue[k].hash == hash {
      assert k > 0 ==> queue[1..][k - 1] == queue[k];
    }
    if k :| 0 <= k < |queue| && queue[k].PaymentFailed? && queue[k].lost == Some(hash) {
      assert k > 0 ==> queue[1..][k - 1] == queue[k];
    }
  }

  lemma AckKeepsTold(s: Sys, after: Sys)
    requires Told(s) && AckTrue(s) && after == DoPumpAck(s)
    ensures Told(after)
  {
    if s.pump.Acking? {
      forall h | h in s.node.succeeded ensures SuccessQueued(after.node.queue, h) || RowIs(s.db.payments, h, Succeeded) {
        QueuedBehindHead(s.node.queue, h);
      }
      forall h | h in s.node.failed ensures FailureQueued(after.node.queue, h) || RowIs(s.db.payments, h, Failed) {
        QueuedBehindHead(s.node.queue, h);
      }
    }
  }

  // ----------------------------------- what is acknowledged has been recorded

  /** A reported hash belongs to a row that was sent. */
  lemma ReportedRow(s: Sys, hash: string) returns (p: nat)
    requires Truthful(s) && (hash in s.node.succeeded || hash in s.node.failed)
    ensures p < |s.db.payments| && s.db.payments[p].Hash() == hash && !s.db.payments[p].status.Created?
  {
    assert hash in s.node.accepted;
    var k :| 0 <= k < |s.sends| && s.sends[k].invoice.hash == hash;
    p := s.sends[k].payment;
  }

  lemma FinalIsRecorded(s: Sys, p: nat)
    requires Truthful(s) && p < |s.db.payments| && IsFinal(s.db.payments[p].status)
    ensures s.db.payments[p].Hash() in s.node.succeeded ==> s.db.payments[p].status.Succeeded?
    ensures s.db.payments[p].Hash() in s.node.failed ==> s.db.payments[p].status.Failed?
  {
    assert RowTrue(s.node, s.db.payments[p]);
  }

  /** An event for which no open row is found has been recorded before. */
  lemma NothingOpenIsRecorded(s: Sys, e: NodeEvent)
    requires Truthful(s) && |s.node.queue| > 0 && e == s.node.queue[0]
    requires e.PaymentSuccessful? ==> FindOpen(s.db.payments, e.hash).None?
    requires e.PaymentFailed? && e.lost.Some? ==> FindOpen(s.db.payments, e.lost.value).None?
    ensures Recorded(s.db.payments, e)
  {
    if e.PaymentSuccessful? {
      var p := ReportedRow(s, e.hash);
      FinalIsRecorded(s, p);
    } else if e.PaymentFailed? && e.lost.Some? {
      var p := ReportedRow(s, e.lost.value);
      FinalIsRecorded(s, p);
    }
  }

  /** Moving the row of a reported outcome records it, unless the fee does not fit. */
  lemma OutcomeIsRecorded(s: Sys, p: nat, ok: bool, res: Resolution)
    requires Truthful(s) && Unshared(s.db.payments) && DedupeExact(s.db) && p < |s.db.payments|
    requires s.db.payments[p].Hash() in (if ok then s.node.succeeded else s.node.failed)
    ensures var next := if ok then Succeeded else Failed;
            var (after, r) := TransitionPayment(s.db, Some(if ok then SentOk(p) else SentFail(p)), p, next, res);
            if r.Ok? then p < |after.payments| && after.payments[p].status == next && after.payments[p].Hash() == s.db.payments[p].Hash()
            else r.error == AmountOutOfRange
  {
    AcceptedHasLeftCreated(s, p);
    if IsFinal(s.db.payments[p].status) {
      FinalIsRecorded(s, p);
    }
  }

  lemma TakeKeepsAck(s: Sys, after: Sys)
    requires Truthful(s) && AckTrue(s) && after == DoPumpTake(s) && after.db.payments == s.db.payments && after.node == s.node
    ensures AckTrue(after)
  {
    if s.pump.Idle? && after.pump.Acking? {
      NothingOpenIsRecorded(s, s.node.queue[0]);
    }
  }

  lemma ApplyKeepsAck(s: Sys, after: Sys)
    requires Truthful(s) && Unshared(s.db.payments) && DedupeExact(s.db) && AckTrue(s) && after == DoPumpApply(s)
    ensures AckTrue(after)
  {
    if s.pump.Found? && |s.node.queue| > 0 {
      var p := s.pump.payment;
      match s.node.queue[0]
      case PaymentSuccessful(_, preimage, fee) => OutcomeIsRecorded(s, p, true, Resolution(fee, None, preimage));
      case PaymentFailed(_, reason) => OutcomeIsRecorded(s, p, false, Resolution(None, Some(reason), None));
      case _ =>
    }
  }

  /** Any other step leaves the pump, or sets it idle, and the head of the queue. */
  lemma OtherKeepsAck(s: Sys, after: Sys)
    requires AckTrue(s) && RowsForward(s.db.payments, after.db.payments) && s.node.queue <= after.node.queue
    requires after.pump == s.pump || !after.pump.Acking?
    ensures AckTrue(after)
  {
    if after.pump.Acking? {
      RecordedStays(s.db.payments, after.db.payments, s.node.queue[0]);
      assert after.node.queue[0] == s.node.queue[0];
    }
  }

  lemma OthersLeaveThePump(s: Sys, a: Action)
    requires !a.PumpTake? && !a.PumpApply?
    ensures Next(s, a).pump == s.pump || !Next(s, a).pump.Acking?
  {
  }

  lemma StepKeepsAck(s: Sys, a: Action, after: Sys)
    requires Delivering(s) && Unshared(s.db.payments) && after == Next(s, a)
    ensures AckTrue(after)
  {
    if a.PumpTake? {
      PumpTakeEffect(s, after);
      TakeKeepsAck(s, after);
    } else if a.PumpApply? {
      ApplyKeepsAck(s, after);
    } else if !a.PumpAck? {
      StepMovesForward(s, a);
      StepReports(s, a);
      OthersLeaveThePump(s, a);
      OtherKeepsAck(s, after);
    }
  }

  lemma StepKeepsTold(s: Sys, a: Action, after: Sys)
    requires Told(s) && AckTrue(s) && after == Next(s, a)
    ensures Told(after)
  {
    if a.PumpAck? {
      AckKeepsTold(s, after);
    } else {
      StepMovesForward(s, a);
      StepReports(s, a);
      ReportsKeepTold(s, after);
    }
  }

  lemma StepKeepsDelivering(s: Sys, a: Action)
    requires Delivering(s) && Careful(s, a) && Unshared(s.db.payments)
    ensures Delivering(Next(s, a))
  {
    StepStaysTrue(s, a);
    StepIsTxn(s, a);
    if TxnOf(s, a).Some? {
      ApplyKeepsDedupe(s.db, TxnOf(s, a).value);
    }
    StepKeepsTold(s, a, Next(s, a));
    StepKeepsAck(s, a, Next(s, a));
  }

  lemma StartDelivers()
    ensures Delivering(START)
  {
    StartIsTruthful();
  }

  lemma {:induction false} RunKeepsDelivering(actions: seq<Action>)
    requires CarefulRun(START, actions) && Unshared(Run(START, actions).db.payments)
    ensures Delivering(Run(START, actions))
  {
    StartDelivers();
    if |actions| > 0 {
      var before := Run(START, actions[..|actions| - 1]);
      StepMovesForward(before, actions[|actions| - 1]);
      RunKeepsDelivering(actions[..|actions| - 1]);
      StepKeepsDelivering(before, actions[|actions| - 1]);
    }
  }

  /**
   In every careful run with unshared hashes, an outcome the node reported and that is no
   longer queued is the status of its payment's row, and of every row with that hash. An
   outcome whose fee does not fit its column is never acknowledged, so it stays queued.
   */
  lemma ReportedOutcomeIsQueuedOrRecorded(actions: seq<Action>, hash: string)
    requires CarefulRun(START, actions) && Unshared(Run(START, actions).db.payments)
    ensures var s := Run(START, actions);
            && (hash in s.node.succeeded && !SuccessQueued(s.node.queue, hash) ==>
                  && RowIs(s.db.payments, hash, Succeeded)
                  && forall p :: 0 <= p < |s.db.payments| && s.db.payments[p].Hash() == hash ==>
                       s.db.payments[p].status.Succeeded?)
            && (hash in s.node.failed && !FailureQueued(s.node.queue, hash) ==>
                  && RowIs(s.db.payments, hash, Failed)
                  && forall p :: 0 <= p < |s.db.payments| && s.db.payments[p].Hash() == hash ==>
                       s.db.payments[p].status.Failed?)
  {
    RunKeepsDelivering(actions);
    var payments := Run(START, actions).db.payments;
    if RowIs(payments, hash, Succeeded) {
      OnlyRow(payments, hash, Succeeded);
    }
    if RowIs(payments, hash, Failed) {
      OnlyRow(payments, hash, Failed);
    }
  }

  lemma OnlyRow(payments: seq<Payment>, hash: string, status: PaymentStatus)
    requires Unshared(payments) && RowIs(payments, hash, status)
    ensures forall p :: 0 <= p < |payments| && payments[p].Hash() == hash ==> payments[p].status == status
  {
    var q :| 0 <= q < |payments| && payments[q].Hash() == hash && payments[q].status == status;
    forall p | 0 <= p < |payments| && payments[p].Hash() == hash ensures p == q {
    }
  }
}
