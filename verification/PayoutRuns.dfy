/**
 What happened to every payout: when it was reserved, which payment settles it, and where an
 undisturbed handler takes it.
 */
module PayoutRuns {
  import opened Core
  import opened Sandbox
  import opened SandboxAnswers
  import opened PayoutProtocol
  import L = Ledger
  import P = PaymentProtocol
  import D = DispatchSafety

  // ------------------------------------------------ terms are fixed for good

  /** Quotes keep their terms, payouts what they were reserved with; both tables only grow. */
  predicate TermsKept(b: Books, after: Books) {
    && |b.payouts| <= |after.payouts| && |b.quotes| <= |after.quotes|
    && (forall q :: 0 <= q < |b.quotes| ==> after.quotes[q].(status := b.quotes[q].status) == b.quotes[q])
    && (forall p :: 0 <= p < |b.payouts| ==>
          after.payouts[p].(status := b.payouts[p].status, payment := b.payouts[p].payment) == b.payouts[p])
  }

  lemma AdvanceKeepsTerms(w: World, after: World, tid: nat, p: nat, next: PayoutStatus, then_: Option<Task>)
    requires after == DoAdvance(w, tid, p, next, then_)
    ensures TermsKept(w.books, after.books) && |after.books.payouts| == |w.books.payouts|
  {
    var (books, r) := AdvancePayout(w.books, p, next);
    AdvanceAnswers(w.books, p, next, books, r);
  }

  lemma TaskStepKeepsTerms(w: World, step: Step, after: World)
    requires (step.Start? || step.Finish? || step.Succeed? || step.Fail?) && after == Next(w, step)
    ensures TermsKept(w.books, after.books) && |after.books.payouts| == |w.books.payouts|
  {
    if step.tid in w.tasks {
      var tid, task := step.tid, w.tasks[step.tid];
      if step.Start? && task.ToStart? {
        AdvanceKeepsTerms(w, after, tid, task.payout, Pending, Some(ToFinish(task.payout, task.scenario)));
      } else if step.Finish? && task.ToFinish? && !task.scenario.Success? {
        AdvanceKeepsTerms(w, after, tid, task.payout, if task.scenario.Failure? then Failed else Unknown, None);
      } else if step.Succeed? && task.ToSucceed? {
        AdvanceKeepsTerms(w, after, tid, task.payout, Succeeded, AfterSuccess(w.books, task.payout));
      } else if step.Fail? && task.ToFail? {
        AdvanceKeepsTerms(w, after, tid, task.payout, Failed, None);
      }
    }
  }

  lemma OtherStepKeepsTerms(w: World, step: Step)
    requires !step.Reserve? && !step.Start? && !step.Finish? && !step.Succeed? && !step.Fail?
    ensures TermsKept(w.books, Next(w, step).books) && |Next(w, step).books.payouts| == |w.books.payouts|
  {
  }

  lemma StepKeepsTerms(w: World, step: Step)
    requires !step.Reserve?
    ensures TermsKept(w.books, Next(w, step).books) && |Next(w, step).books.payouts| == |w.books.payouts|
  {
    if step.Start? || step.Finish? || step.Succeed? || step.Fail? {
      TaskStepKeepsTerms(w, step, Next(w, step));
    } else {
      OtherStepKeepsTerms(w, step);
    }
  }

  /** The reservation took the quote in time, and with an invoice for its amount or for none. */
  predicate Timely(b: Books, p: nat, now: int) {
    && p < |b.payouts| && b.payouts[p].quote < |b.quotes|
    && now <= b.quotes[b.payouts[p].quote].expiresAt
    && (b.payouts[p].bolt11.Some? && b.payouts[p].bolt11.value.amount.Some? ==>
          b.payouts[p].bolt11.value.amount.value == b.quotes[b.payouts[p].quote].btcMsat)
  }

  lemma ReserveStep(w: World, step: Step, after: World)
    requires step.Reserve? && after == Next(w, step)
    ensures TermsKept(w.books, after.books)
    ensures after.books == w.books || (|after.books.payouts| == |w.books.payouts| + 1 && Timely(after.books, |w.books.payouts|, step.now))
  {
    var (books, r) :=
      ReservePayout(w.books, step.project, step.quote, step.key, step.scenario, step.bolt11, step.now);
    ReserveAnswers(w.books, step.project, step.quote, step.key, step.scenario, step.bolt11, step.now, books, r);
    if after.books != w.books {
      ReserveStores(w.books, step.project, step.quote, step.key, step.scenario, step.bolt11, step.now, books, r.value.0);
    }
  }

  lemma TimelyStays(b: Books, after: Books, p: nat, now: int)
    requires Timely(b, p, now) && TermsKept(b, after)
    ensures Timely(after, p, now)
  {
    var payout, later := b.payouts[p], after.payouts[p];
    assert later.(status := payout.status, payment := payout.payment) == payout;
    assert after.quotes[payout.quote].(status := b.quotes[payout.quote].status) == b.quotes[payout.quote];
  }

  /**
   In every run, each payout was reserved by one step, at a time its quote had not expired,
   and with an invoice that fixes no amount or the quote's.
   */
  lemma {:induction false} EveryPayoutWasTimely(steps: seq<Step>, p: nat) returns (k: nat)
    requires p < |Run(GENESIS, steps).books.payouts|
    ensures k < |steps| && steps[k].Reserve? && |Run(GENESIS, steps[..k]).books.payouts| == p
    ensures Timely(Run(GENESIS, steps).books, p, steps[k].now)
  {
    var init, step := steps[..|steps| - 1], steps[|steps| - 1];
    var before, after := Run(GENESIS, init), Run(GENESIS, steps);
    if step.Reserve? {
      ReserveStep(before, step, after);
    } else {
      StepKeepsTerms(before, step);
    }
    if p < |before.books.payouts| {
      k := EveryPayoutWasTimely(init, p);
      assert init[..k] == steps[..k];
      TimelyStays(before.books, after.books, p, steps[k].now);
    } else {
      k := |steps| - 1;
    }
  }

  // ------------------------------------------------- the payment attached

  /** Row `r` is a payment under payout `p`'s own key. */
  predicate LegRow(payments: seq<L.Payment>, p: nat, r: nat) {
    r < |payments| && payments[r].key == L.PayoutLeg(p)
  }

  /** What is attached, or about to be, is the payout's own payment. */
  predicate AttachedTrue(w: World) {
    && (forall p :: 0 <= p < |w.books.payouts| && w.books.payouts[p].payment.Some? ==>
          LegRow(w.sys.db.payments, p, w.books.payouts[p].payment.value))
    && (forall t :: t in w.tasks && w.tasks[t].ToAttach? ==>
          LegRow(w.sys.db.payments, w.tasks[t].payout, w.tasks[t].payment))
  }

  /** Payments go on, and only tasks with a payment in hand attach it. */
  lemma AttachedStays(w: World, after: World)
    requires AttachedTrue(w) && D.RowsForward(w.sys.db.payments, after.sys.db.payments)
    requires forall p :: 0 <= p < |after.books.payouts| && after.books.payouts[p].payment.Some? ==>
      || (p < |w.books.payouts| && after.books.payouts[p].payment == w.books.payouts[p].payment)
      || LegRow(after.sys.db.payments, p, after.books.payouts[p].payment.value)
    requires forall t :: t in after.tasks && after.tasks[t].ToAttach? ==>
      || (t in w.tasks && after.tasks[t] == w.tasks[t])
      || LegRow(after.sys.db.payments, after.tasks[t].payout, after.tasks[t].payment)
    ensures AttachedTrue(after)
  {
    forall p, r | LegRow(w.sys.db.payments, p, r) ensures LegRow(after.sys.db.payments, p, r) {
    }
  }

  lemma AnnounceKeepsRows(sys: P.Sys, project: string, name: string, payout: nat)
    ensures Announce(sys, project, name, payout).db.payments == sys.db.payments
  {
  }

  lemma AdvanceAttaches(w: World, after: World, tid: nat, p: nat, next: PayoutStatus, then_: Option<Task>)
    requires AttachedTrue(w) && after == DoAdvance(w, tid, p, next, then_) && !(then_.Some? && then_.value.ToAttach?)
    ensures AttachedTrue(after)
  {
    var (books, r) := AdvancePayout(w.books, p, next);
    AdvanceAnswers(w.books, p, next, books, r);
    AttachedStays(w, after);
  }

  lemma ReserveAttaches(w: World, after: World, step: Step)
    requires AttachedTrue(w) && step.Reserve? && after == Next(w, step)
    ensures AttachedTrue(after)
  {
    var (books, r) :=
      ReservePayout(w.books, step.project, step.quote, step.key, step.scenario, step.bolt11, step.now);
    ReserveAnswers(w.books, step.project, step.quote, step.key, step.scenario, step.bolt11, step.now, books, r);
    if after.books != w.books {
      ReserveStores(w.books, step.project, step.quote, step.key, step.scenario, step.bolt11, step.now, books, r.value.0);
    }
    AttachedStays(w, after);
  }

  lemma EngineAttaches(w: World, after: World, a: P.Action)
    requires AttachedTrue(w) && after.sys == P.Next(w.sys, a) && after.books == w.books
    requires forall t :: t in after.tasks ==> t in w.tasks && after.tasks[t] == w.tasks[t]
    ensures AttachedTrue(after)
  {
    D.StepMovesForward(w.sys, a);
    AttachedStays(w, after);
  }

  lemma LegAttaches(w: World, after: World, tid: nat, sender: nat)
    requires AttachedTrue(w) && after == DoLeg(w, tid, sender)
    ensures AttachedTrue(after)
  {
    if after != w {
      var p := w.tasks[tid].payout;
      var payout := w.books.payouts[p];
      var a := P.Begin(sender, payout.project, L.PayoutLeg(p), payout.bolt11.value,
                       Some(w.books.quotes[payout.quote].btcMsat), "sandbox_payout_id");
      D.StepMovesForward(w.sys, a);
      AttachedStays(w, after);
    }
  }

  lemma TaskStepAttaches(w: World, after: World, step: Step)
    requires AttachedTrue(w) && after == Next(w, step) && (step.Start? || step.Finish? || step.Succeed? || step.Fail?)
    ensures AttachedTrue(after)
  {
    if step.tid in w.tasks {
      var tid, task := step.tid, w.tasks[step.tid];
      if step.Start? && task.ToStart? {
        AdvanceAttaches(w, after, tid, task.payout, Pending, Some(ToFinish(task.payout, task.scenario)));
      } else if step.Finish? && task.ToFinish? {
        match task.scenario
        case Failure => AdvanceAttaches(w, after, tid, task.payout, Failed, None);
        case Timeout => AdvanceAttaches(w, after, tid, task.payout, Unknown, None);
        case Success => AttachedStays(w, after);
      } else if step.Succeed? && task.ToSucceed? {
        AdvanceAttaches(w, after, tid, task.payout, Succeeded, AfterSuccess(w.books, task.payout));
      } else if step.Fail? && task.ToFail? {
        AdvanceAttaches(w, after, tid, task.payout, Failed, None);
      }
    }
  }

  lemma BookStepAttaches(w: World, after: World, step: Step)
    requires AttachedTrue(w) && after == Next(w, step)
    requires step.TopUp? || step.MakeQuote? || step.Attach? || step.Reconcile? || step.Abandon?
    ensures AttachedTrue(after)
  {
    assert after.sys == w.sys;
    AttachedStays(w, after);
  }

  lemma StepAttaches(w: World, step: Step, after: World)
    requires AttachedTrue(w) && after == Next(w, step)
    ensures AttachedTrue(after)
  {
    match step
    case Engine(a) => EngineAttaches(w, after, a);
    case Crash => EngineAttaches(w, after, P.Crash);
    case Reserve(_, _, _, _, _, _, _) => ReserveAttaches(w, after, step);
    case Leg(tid, sender) => LegAttaches(w, after, tid, sender);
    case Start(_) => TaskStepAttaches(w, after, step);
    case Finish(_) => TaskStepAttaches(w, after, step);
    case Succeed(_) => TaskStepAttaches(w, after, step);
    case Fail(_) => TaskStepAttaches(w, after, step);
    case _ => BookStepAttaches(w, after, step);
  }

  /** In every run, the payment attached to a payout is the one begun under that payout's own key. */
  lemma {:induction false} AttachedPaymentIsTheLeg(steps: seq<Step>)
    ensures AttachedTrue(Run(GENESIS, steps))
  {
    if |steps| > 0 {
      AttachedPaymentIsTheLeg(steps[..|steps| - 1]);
      StepAttaches(Run(GENESIS, steps[..|steps| - 1]), steps[|steps| - 1], Run(GENESIS, steps));
    }
  }

  // --------------------------------------------- handlers with nothing between

  /** A payout just reserved, in the hands of task `tid`, on a quote it may be refunded to. */
  predicate Begun(w: World, tid: nat, p: nat, scenario: Scenario) {
    && p < |w.books.payouts| && w.books.payouts[p].status.Reserved? && w.books.payouts[p].quote < |w.books.quotes|
    && tid in w.tasks && w.tasks[tid] == ToStart(p, scenario)
  }

  /** A reservation hands its payout, with the scenario asked for, to a task that starts it. */
  lemma ReserveBegins(
    w: World, after: World, tid: nat, project: string, quote: nat, key: string, scenario: Scenario,
    bolt11: Option<L.Bolt11>, now: int)
    requires after == DoReserve(w, tid, project, quote, key, scenario, bolt11, now)
    requires tid !in w.tasks && InvoiceFits(w.books, quote, bolt11)
    requires KeyUnused(w.books, project, key) && OwnQuote(w.books, project, quote)
    requires Takeable(w.books, quote, now) && Covered(w.books, project, quote)
    ensures Begun(after, tid, |w.books.payouts|, scenario) && RefundPurse(after.books, |w.books.payouts|) in after.books.balances
    ensures after.books.payouts[|w.books.payouts|].bolt11 == bolt11
  {
    var (books, r) := ReservePayout(w.books, project, quote, key, scenario, bolt11, now);
    ReserveAnswers(w.books, project, quote, key, scenario, bolt11, now, books, r);
    ReserveStores(w.books, project, quote, key, scenario, bolt11, now, books, r.value.0);
  }

  lemma StartsPending(w: World, w1: World, tid: nat, p: nat, scenario: Scenario)
    requires Begun(w, tid, p, scenario) && w1 == Next(w, Start(tid))
    ensures w1.books == w.books.(payouts := w.books.payouts[p := w.books.payouts[p].(status := Pending)])
    ensures tid in w1.tasks && w1.tasks[tid] == ToFinish(p, scenario) && w1.refunds == w.refunds
    ensures w1.sys.db.payments == w.sys.db.payments && w1.sys.threads == w.sys.threads
  {
  }

  /** An undisturbed payout that is to fail ends `failed`, with its source amount back where it came from. */
  lemma FailureIsRefunded(w: World, w1: World, w2: World, tid: nat, p: nat)
    requires Begun(w, tid, p, Failure) && RefundPurse(w.books, p) in w.books.balances
    requires Balance(w.books, RefundPurse(w.books, p)) + RefundOf(w.books, p, Failed) <= I64_MAX
    requires w1 == Next(w, Start(tid)) && w2 == Next(w1, Finish(tid))
    ensures p < |w2.books.payouts| && w2.books.payouts[p].status.Failed? && w2.refunds == w.refunds + [p]
    ensures Balance(w2.books, RefundPurse(w.books, p))
         == Balance(w.books, RefundPurse(w.books, p)) + w.books.quotes[w.books.payouts[p].quote].sourceMinor
    ensures tid !in w2.tasks
  {
    StartsPending(w, w1, tid, p, Failure);
    var (after, r) := AdvancePayout(w1.books, p, Failed);
    AdvanceAnswers(w1.books, p, Failed, after, r);
    AdvanceRefunds(w1.books, p, Failed, after, r, RefundPurse(w.books, p));
  }

  /** One that is to time out ends `unknown`, with nothing refunded and nothing sent. */
  lemma TimeoutStaysUnknown(w: World, w1: World, w2: World, tid: nat, p: nat)
    requires Begun(w, tid, p, Timeout)
    requires w1 == Next(w, Start(tid)) && w2 == Next(w1, Finish(tid))
    ensures p < |w2.books.payouts| && w2.books.payouts[p].status.Unknown? && w2.refunds == w.refunds
    ensures w2.books.balances == w.books.balances && w2.sys.db.payments == w.sys.db.payments && tid !in w2.tasks
  {
    StartsPending(w, w1, tid, p, Timeout);
  }

  /** An `unknown` payout is resolved as its project's reconcile asks. */
  lemma UnknownIsReconciled(w: World, w1: World, w2: World, tid: nat, p: nat, success: bool)
    requires p < |w.books.payouts| && w.books.payouts[p].status.Unknown? && tid !in w.tasks
    requires w.books.payouts[p].quote < |w.books.quotes|
    requires !success ==> Balance(w.books, RefundPurse(w.books, p)) + RefundOf(w.books, p, Failed) <= I64_MAX
    requires w1 == Next(w, Reconcile(tid, w.books.payouts[p].project, p, success))
    requires w2 == Next(w1, if success then Succeed(tid) else Fail(tid))
    ensures p < |w2.books.payouts| && w2.books.payouts[p].status == if success then Succeeded else Failed
    ensures success && w.books.payouts[p].bolt11.Some? ==> tid in w2.tasks && w2.tasks[tid] == ToLeg(p)
    ensures !success ==> w2.refunds == w.refunds + [p]
  {
    assert w1 == w.(tasks := w.tasks[tid := if success then ToSucceed(p) else ToFail(p)]);
    var next := if success then Succeeded else Failed;
    var (after, r) := AdvancePayout(w.books, p, next);
    AdvanceAnswers(w.books, p, next, after, r);
  }

  /** An undisturbed payout that is to succeed ends `succeeded` with its Bitcoin leg to come. */
  lemma SuccessStartsTheLeg(w: World, w1: World, w2: World, w3: World, tid: nat, p: nat)
    requires Begun(w, tid, p, Success) && w.books.payouts[p].bolt11.Some?
    requires w1 == Next(w, Start(tid)) && w2 == Next(w1, Finish(tid)) && w3 == Next(w2, Succeed(tid))
    ensures w3.books == w.books.(payouts := w.books.payouts[p := w.books.payouts[p].(status := Succeeded)])
    ensures tid in w3.tasks && w3.tasks[tid] == ToLeg(p) && w3.refunds == w.refunds
    ensures w3.sys.db.payments == w.sys.db.payments && w3.sys.threads == w.sys.threads
  {
    StartsPending(w, w1, tid, p, Success);
    assert w2 == w1.(tasks := w1.tasks[tid := ToSucceed(p)]);
    var (after, r) := AdvancePayout(w2.books, p, Succeeded);
    AdvanceAnswers(w2.books, p, Succeeded, after, r);
    assert after.payouts == w.books.payouts[p := w.books.payouts[p].(status := Succeeded)];
  }

  /** The leg begins one payment for the quote's amount on the payout's invoice, and it is attached. */
  lemma LegBeginsAndIsAttached(w: World, w1: World, w2: World, tid: nat, sender: nat, p: nat)
    requires tid in w.tasks && w.tasks[tid] == ToLeg(p) && p < |w.books.payouts| && sender !in w.sys.threads
    requires w.books.payouts[p].bolt11.Some? && w.books.payouts[p].quote < |w.books.quotes|
    requires var payout := w.books.payouts[p];
             var btc := w.books.quotes[payout.quote].btcMsat;
             && P.AmountOf(payout.bolt11.value, Some(btc)) == Ok(btc) && btc <= I64_MAX
             && L.FindKey(w.sys.db.payments, payout.project, L.PayoutLeg(p)).None?
    requires w1 == DoLeg(w, tid, sender) && w2 == DoAttach(w1, tid)
    ensures var r, payout := |w.sys.db.payments|, w.books.payouts[p];
            && |w2.sys.db.payments| == r + 1
            && w2.sys.db.payments[r].key == L.PayoutLeg(p) && w2.sys.db.payments[r].project == payout.project
            && w2.sys.db.payments[r].request.invoice == payout.bolt11.value
            && w2.sys.db.payments[r].request.amount == w.books.quotes[payout.quote].btcMsat
            && sender in w2.sys.threads && w2.sys.threads[sender] == P.ToPend(r)
            && w2.books.payouts == w.books.payouts[p := payout.(payment := Some(r))] && tid !in w2.tasks
  {
    var payout := w.books.payouts[p];
    var btc := w.books.quotes[payout.quote].btcMsat;
    var request := L.Request(payout.bolt11.value, btc, "sandbox_payout_id");
    D.NewRequestPends(w.sys, w1.sys, P.DoPend(w1.sys, sender), sender, payout.project, L.PayoutLeg(p), request);
    NewestIsFound(w.sys.db.payments, w1.sys.db.payments, payout.project, L.PayoutLeg(p));
    assert w1.tasks[tid] == ToAttach(p, |w.sys.db.payments|);
  }

  lemma NewestIsFound(payments: seq<L.Payment>, after: seq<L.Payment>, project: string, key: L.IdemKey)
    requires |after| == |payments| + 1 && after[|payments|].project == project && after[|payments|].key == key
    ensures L.FindKey(after, project, key) == Some(|payments|)
  {
  }

  /** A reconcile takes up exactly an `unknown` payout of the caller's own project. */
  lemma ReconcileTakesUpExactly(w: World, tid: nat, project: string, p: nat, success: bool)
    requires tid !in w.tasks
    ensures DoReconcile(w, tid, project, p, success) != w <==>
      p < |w.books.payouts| && w.books.payouts[p].project == project && w.books.payouts[p].status.Unknown?
  {
    if p < |w.books.payouts| && w.books.payouts[p].project == project && w.books.payouts[p].status.Unknown? {
      assert tid in DoReconcile(w, tid, project, p, success).tasks;
    }
  }

  /** Each status is announced under a name of its own. */
  lemma StatusNamesTellApart(a: PayoutStatus, b: PayoutStatus)
    ensures StatusName(a) == StatusName(b) <==> a == b
  {
    if a != b {
      assert StatusName(a)[15..] != StatusName(b)[15..];
    }
  }
}
