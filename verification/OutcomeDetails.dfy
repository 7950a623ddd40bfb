/**
 What a final payment says beyond its status: a succeeded one carries the preimage and the
 fee of the node's own report, a failed one a reason. This holds in every run, careful or
 not and with hashes shared or not.
 */
module OutcomeDetails {
  import opened Core
  import opened Ledger
  import opened Reconcile
  import opened PaymentProtocol
  import opened DispatchSafety
  import opened OutcomeTruth
  import opened StorageAnswers

  predicate Carries(receipts: map<string, Receipt>, hash: string, preimage: Option<string>, fee: Option<nat>) {
    hash in receipts && receipts[hash] == Receipt(preimage, fee)
  }

  /** The node's records and queued events carry what it reported. */
  predicate NodeCarries(n: Node) {
    && n.receipts.Keys <= n.succeeded
    && (forall h :: h in n.records && n.records[h].status.NodeSucceeded? ==>
          Carries(n.receipts, h, n.records[h].preimage, n.records[h].fee))
    && (forall k :: 0 <= k < |n.queue| && n.queue[k].PaymentSuccessful? ==>
          Carries(n.receipts, n.queue[k].hash, n.queue[k].preimage, n.queue[k].fee))
  }

  /** A resolution fits the status it comes with. */
  predicate Fits(receipts: map<string, Receipt>, hash: string, next: PaymentStatus, res: Resolution) {
    match next
    case Succeeded => Carries(receipts, hash, res.preimage, res.fee) && res.failure.None?
    case Failed => res.fee.None? && res.preimage.None? && res.failure.Some?
    case _ => res == NO_RESOLUTION
  }

  predicate RowCarries(receipts: map<string, Receipt>, row: Payment) {
    Fits(receipts, row.Hash(), row.status, Resolution(row.fee, row.failure, row.preimage))
  }

  predicate RowsCarry(receipts: map<string, Receipt>, payments: seq<Payment>) {
    forall p :: 0 <= p < |payments| ==> RowCarries(receipts, payments[p])
  }

  predicate ThreadCarries(receipts: map<string, Receipt>, payments: seq<Payment>, t: Thread) {
    (t.ToPass? || t.ToWrite?) ==>
      t.payment < |payments| && Fits(receipts, payments[t.payment].Hash(), t.next, t.res)
  }

  predicate ThreadsCarry(s: Sys) {
    forall t :: t in s.threads ==> ThreadCarries(s.node.receipts, s.db.payments, s.threads[t])
  }

  predicate Detailed(s: Sys) {
    ThreadsGrounded(s) && PumpTrue(s) && NodeCarries(s.node) && RowsCarry(s.node.receipts, s.db.payments) && ThreadsCarry(s)
  }

  // ----------------------------------------------------------------- rows

  /** A move with a fitting resolution leaves every row carrying what it should. */
  lemma MoveCarries(receipts: map<string, Receipt>, db: Db, key: Option<DedupeKey>, p: nat, next: PaymentStatus, res: Resolution)
    requires RowsCarry(receipts, db.payments)
    requires p < |db.payments| ==> Fits(receipts, db.payments[p].Hash(), next, res)
    ensures RowsCarry(receipts, TransitionPayment(db, key, p, next, res).0.payments)
  {
    var (after, r) := TransitionPayment(db, key, p, next, res);
    TransitionRefuses(db, key, p, next, res, after, r);
    if r.Ok? && r.value.changed {
      TransitionStores(db, key, p, next, res, after, r);
      assert RowCarries(receipts, db.payments[p]) && CanMove(db.payments[p].status, next);
      assert RowCarries(receipts, after.payments[p]);
    }
  }

  /** More reports never unsay one. */
  lemma RowsStillCarry(receipts: map<string, Receipt>, more: map<string, Receipt>, payments: seq<Payment>)
    requires RowsCarry(receipts, payments) && (forall h :: h in receipts ==> h in more && more[h] == receipts[h])
    ensures RowsCarry(more, payments)
  {
    forall p | 0 <= p < |payments| ensures RowCarries(more, payments[p]) {
      assert RowCarries(receipts, payments[p]);
    }
  }

  lemma ReadViewCarries(s: Sys, after: Sys, tid: nat)
    requires Detailed(s) && after == DoReadView(s, tid)
    ensures after.db == s.db && after.node == s.node && ThreadsCarry(after)
  {
    if tid in s.threads && s.threads[tid].SawRow? && s.threads[tid].payment < |s.db.payments| {
      var t := s.threads[tid];
      DecisionFits(s.node, t.seen, s.db.payments[t.payment].Hash());
    }
  }

  lemma DecisionFits(n: Node, seen: PaymentStatus, hash: string)
    requires NodeCarries(n)
    ensures var d := Decide(seen, Look(n.records, hash)); d.Move? ==> Fits(n.receipts, hash, d.next, d.res)
  {
  }

  /** Steps of senders and of reconcilers past their read: threads go on with what they hold. */
  predicate ThreadsGoOn(s: Sys, after: Sys) {
    forall t :: t in after.threads && (after.threads[t].ToPass? || after.threads[t].ToWrite?) ==>
      && t in s.threads && (s.threads[t].ToPass? || s.threads[t].ToWrite?)
      && s.threads[t].payment == after.threads[t].payment && s.threads[t].next == after.threads[t].next
      && s.threads[t].res == after.threads[t].res
  }

  lemma ThreadsStillCarry(s: Sys, after: Sys)
    requires ThreadsCarry(s) && RowsForward(s.db.payments, after.db.payments) && ThreadsGoOn(s, after)
    requires forall h :: h in s.node.receipts ==> h in after.node.receipts && after.node.receipts[h] == s.node.receipts[h]
    ensures ThreadsCarry(after)
  {
    forall t | t in after.threads ensures ThreadCarries(after.node.receipts, after.db.payments, after.threads[t]) {
      if after.threads[t].ToPass? || after.threads[t].ToWrite? {
        assert ThreadCarries(s.node.receipts, s.db.payments, s.threads[t]);
      }
    }
  }

  lemma MostThreadsGoOn(s: Sys, a: Action)
    requires !a.ReadView?
    ensures ThreadsGoOn(s, Next(s, a))
  {
  }

  // ------------------------------------------------------------- the node

  lemma ReportCarries(s: Sys, after: Sys, a: Action)
    requires NodeCarries(s.node) && a.Report? && after == Next(s, a)
    ensures NodeCarries(after.node)
    ensures forall h :: h in s.node.receipts ==> h in after.node.receipts && after.node.receipts[h] == s.node.receipts[h]
  {
  }

  lemma OtherNodeCarries(s: Sys, a: Action)
    requires NodeCarries(s.node) && !a.Report?
    ensures NodeCarries(Next(s, a).node) && Next(s, a).node.receipts == s.node.receipts
  {
  }

  // ------------------------------------------------------------- the pump

  /** The pump's row and event go together until it lets go of them. */
  predicate PumpGoesOn(s: Sys, after: Sys) {
    after.pump.Found? ==>
      after.pump == s.pump && (|s.node.queue| > 0 ==> |after.node.queue| > 0 && after.node.queue[0] == s.node.queue[0])
  }

  lemma MostPumpsGoOn(s: Sys, a: Action)
    requires !a.PumpTake?
    ensures PumpGoesOn(s, Next(s, a))
  {
  }

  lemma PumpStaysTrue(s: Sys, after: Sys)
    requires ThreadsGrounded(s) && PumpTrue(s) && ThreadsGrounded(after)
    requires RowsForward(s.db.payments, after.db.payments) && PumpGoesOn(s, after)
    ensures PumpTrue(after)
  {
  }

  lemma StepKeepsPump(s: Sys, a: Action, after: Sys)
    requires ThreadsGrounded(s) && PumpTrue(s) && after == Next(s, a) && ThreadsGrounded(after)
    ensures PumpTrue(after)
  {
    StepMovesForward(s, a);
    if a.PumpTake? {
      PumpTakeEffect(s, after);
      if after.pump == s.pump {
        PumpStaysTrue(s, after);
      }
    } else {
      MostPumpsGoOn(s, a);
      PumpStaysTrue(s, after);
    }
  }

  // ------------------------------------------------------------- the steps

  lemma ThreadStepRows(s: Sys, a: Action, after: Sys)
    requires Detailed(s) && after == Next(s, a)
    requires a.Pend? || a.Refuse? || a.Pass? || a.Write?
    ensures RowsCarry(s.node.receipts, after.db.payments)
  {
    if a.tid in s.threads {
      var t := s.threads[a.tid];
      assert ThreadCarries(s.node.receipts, s.db.payments, t);
      if (a.Pend? && t.ToPend?) || (a.Pass? && t.ToPass?) {
        MoveCarries(s.node.receipts, s.db, None, t.payment, Pending, NO_RESOLUTION);
      } else if a.Refuse? && t.ToRefuse? {
        MoveCarries(s.node.receipts, s.db, None, t.payment, Failed, Resolution(None, Some(t.reason), None));
      } else if a.Write? && t.ToWrite? {
        MoveCarries(s.node.receipts, s.db, None, t.payment, t.next, t.res);
      }
    }
  }

  lemma PumpApplyRows(s: Sys, after: Sys)
    requires Detailed(s) && after == DoPumpApply(s)
    ensures RowsCarry(s.node.receipts, after.db.payments)
  {
    if s.pump.Found? && |s.node.queue| > 0 {
      var p := s.pump.payment;
      match s.node.queue[0]
      case PaymentSuccessful(_, preimage, fee) =>
        MoveCarries(s.node.receipts, s.db, Some(SentOk(p)), p, Succeeded, Resolution(fee, None, preimage));
      case PaymentFailed(_, reason) =>
        MoveCarries(s.node.receipts, s.db, Some(SentFail(p)), p, Failed, Resolution(None, Some(reason), None));
      case _ =>
    }
  }

  lemma BeginRows(s: Sys, a: Action)
    requires RowsCarry(s.node.receipts, s.db.payments) && a.Begin?
    ensures RowsCarry(s.node.receipts, Next(s, a).db.payments)
  {
    BeginEffect(s, a);
    var after := Next(s, a);
    if after != s {
      assert after.db.payments[|s.db.payments|].fee.None? && after.db.payments[|s.db.payments|].preimage.None?
          && after.db.payments[|s.db.payments|].failure.None?;
    }
  }

  lemma OtherRows(s: Sys, a: Action)
    requires !a.Begin? && !a.Pend? && !a.Refuse? && !a.Pass? && !a.Write? && !a.PumpApply?
    ensures Next(s, a).db.payments == s.db.payments
  {
    if a.OtherTxn? && Elsewhere(a.txn) {
      ElsewhereKeepsPayments(s.db, a.txn);
    }
  }

  lemma StepRows(s: Sys, a: Action, after: Sys)
    requires Detailed(s) && after == Next(s, a)
    ensures RowsCarry(s.node.receipts, after.db.payments)
  {
    if a.Begin? {
      BeginRows(s, a);
    } else if a.Pend? || a.Refuse? || a.Pass? || a.Write? {
      ThreadStepRows(s, a, after);
    } else if a.PumpApply? {
      PumpApplyRows(s, after);
    } else {
      OtherRows(s, a);
    }
  }

  lemma StepThreads(s: Sys, a: Action, after: Sys)
    requires Detailed(s) && after == Next(s, a)
    requires forall h :: h in s.node.receipts ==> h in after.node.receipts && after.node.receipts[h] == s.node.receipts[h]
    ensures ThreadsCarry(after)
  {
    if a.ReadView? {
      ReadViewCarries(s, after, a.tid);
    } else {
      StepMovesForward(s, a);
      MostThreadsGoOn(s, a);
      ThreadsStillCarry(s, after);
    }
  }

  lemma StepKeepsDetails(s: Sys, a: Action, after: Sys)
    requires Detailed(s) && after == Next(s, a) && ThreadsGrounded(after)
    ensures Detailed(after)
  {
    if a.Report? {
      ReportCarries(s, after, a);
    } else {
      OtherNodeCarries(s, a);
    }
    StepRows(s, a, after);
    RowsStillCarry(s.node.receipts, after.node.receipts, after.db.payments);
    StepThreads(s, a, after);
    StepKeepsPump(s, a, after);
  }

  lemma {:induction false} RunKeepsDetails(actions: seq<Action>)
    ensures Detailed(Run(START, actions))
  {
    RunKeepsDispatches(actions);
    if |actions| > 0 {
      var before := Run(START, actions[..|actions| - 1]);
      RunKeepsDetails(actions[..|actions| - 1]);
      StepKeepsDetails(before, actions[|actions| - 1], Run(START, actions));
    }
  }

  /**
   In every run: a `succeeded` payment carries exactly the preimage and fee the node reported
   for its hash, and no failure; a `failed` one carries a reason and neither preimage nor fee;
   and a payment that is not final carries none of them.
   */
  lemma FinalPaymentsCarryTheReport(actions: seq<Action>, p: nat)
    requires p < |Run(START, actions).db.payments|
    ensures var s := Run(START, actions);
            var row := s.db.payments[p];
            match row.status
            case Succeeded =>
              row.Hash() in s.node.receipts && row.failure.None?
              && row.preimage == s.node.receipts[row.Hash()].preimage && row.fee == s.node.receipts[row.Hash()].fee
            case Failed => row.failure.Some? && row.preimage.None? && row.fee.None?
            case _ => row.failure.None? && row.preimage.None? && row.fee.None?
  {
    RunKeepsDetails(actions);
    assert RowCarries(Run(START, actions).node.receipts, Run(START, actions).db.payments[p]);
  }

  predicate Gives(a: Action, hash: string, receipt: Receipt) {
    a.Report? && a.hash == hash && a.ok && receipt == Receipt(a.preimage, a.fee)
  }

  /** A receipt is what one report of that hash said, and is never rewritten. */
  lemma {:induction false} ReceiptsAreReports(actions: seq<Action>, hash: string)
    requires hash in Run(START, actions).node.receipts
    ensures exists k :: 0 <= k < |actions| && Gives(actions[k], hash, Run(START, actions).node.receipts[hash])
  {
    if |actions| > 0 {
      var init, a := actions[..|actions| - 1], actions[|actions| - 1];
      var before := Run(START, init);
      RunKeepsDetails(init);
      if hash in before.node.receipts {
        ReceiptsAreReports(init, hash);
        var k :| 0 <= k < |init| && Gives(init[k], hash, before.node.receipts[hash]);
        ReceiptStays(before, a, hash);
        assert Gives(actions[k], hash, Run(START, actions).node.receipts[hash]);
      } else {
        ReceiptIsNew(before, a, hash);
        assert Gives(actions[|actions| - 1], hash, Run(START, actions).node.receipts[hash]);
      }
    }
  }

  lemma ReceiptStays(s: Sys, a: Action, hash: string)
    requires NodeCarries(s.node) && hash in s.node.receipts
    ensures hash in Next(s, a).node.receipts && Next(s, a).node.receipts[hash] == s.node.receipts[hash]
  {
    if a.Report? {
      ReportCarries(s, Next(s, a), a);
    } else {
      OtherNodeCarries(s, a);
    }
  }

  lemma ReceiptIsNew(s: Sys, a: Action, hash: string)
    requires NodeCarries(s.node) && hash !in s.node.receipts && hash in Next(s, a).node.receipts
    ensures Gives(a, hash, Next(s, a).node.receipts[hash])
  {
    if !a.Report? {
      OtherNodeCarries(s, a);
    }
  }
}
