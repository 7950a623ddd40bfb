/**
 Conservation of simulated money, and the rule that the Bitcoin leg of a payout goes out at
 most once, only for a payout that succeeded, and never for one that was refunded.
 */
module PayoutSafety {
  import opened Core
  import opened Sandbox
  import opened PayoutProtocol
  import L = Ledger
  import P = PaymentProtocol
  import D = DispatchSafety

  // --------------------------------------------------------- conservation

  /** What a payout still holds of a purse: the quote's source amount, until it is refunded. */
  function Held(quotes: seq<Quote>, purse: Purse): Payout -> int {
    (o: Payout) =>
      if o.quote < |quotes| && !o.status.Failed? && (o.project, quotes[o.quote].source) == purse
      then quotes[o.quote].sourceMinor else 0
  }

  function Credited(credits: map<Purse, nat>, purse: Purse): nat {
    if purse in credits then credits[purse] else 0
  }

  /** Every payout stands on its own used quote, and its purse has a balance row to refund to. */
  predicate PayoutBacked(b: Books, p: nat)
    requires p < |b.payouts|
  {
    var o := b.payouts[p];
    && o.quote < |b.quotes|
    && b.quotes[o.quote].project == o.project
    && b.quotes[o.quote].status.QuoteUsed?
    && (o.project, b.quotes[o.quote].source) in b.balances
  }

  predicate QuoteBacks(b: Books, q: nat) {
    exists p :: 0 <= p < |b.payouts| && b.payouts[p].quote == q
  }

  /** A quote is used exactly when one payout, and only one, stands on it. */
  predicate Backed(b: Books) {
    && (forall p :: 0 <= p < |b.payouts| ==> PayoutBacked(b, p))
    && (forall p, r :: 0 <= p < r < |b.payouts| ==> b.payouts[p].quote != b.payouts[r].quote)
    && (forall q :: 0 <= q < |b.quotes| && b.quotes[q].status.QuoteUsed? ==> QuoteBacks(b, q))
  }

  predicate PurseBalances(b: Books, credits: map<Purse, nat>, purse: Purse) {
    && Balance(b, purse) >= 0
    && Balance(b, purse) == Credited(credits, purse) - Sum(b.payouts, Held(b.quotes, purse))
  }

  ghost predicate Balanced(b: Books, credits: map<Purse, nat>) {
    forall purse: Purse :: PurseBalances(b, credits, purse)
  }

  /** Quotes keep their amount and currency, so payouts hold what they held. */
  lemma QuotesOnlyAge(b: Books, quotes: seq<Quote>, purse: Purse)
    requires Backed(b) && |b.quotes| <= |quotes|
    requires forall q :: 0 <= q < |b.quotes| ==>
      quotes[q].source == b.quotes[q].source && quotes[q].sourceMinor == b.quotes[q].sourceMinor
    ensures Sum(b.payouts, Held(quotes, purse)) == Sum(b.payouts, Held(b.quotes, purse))
  {
    forall i | 0 <= i < |b.payouts|
      ensures Held(quotes, purse)(b.payouts[i]) == Held(b.quotes, purse)(b.payouts[i])
    {
      assert PayoutBacked(b, i);
    }
    SumAgree(b.payouts, Held(quotes, purse), Held(b.quotes, purse));
  }

  lemma QuoteKeepsBooks(b: Books, credits: map<Purse, nat>, offer: Quote)
    requires Backed(b) && Balanced(b, credits)
    ensures Backed(InsertQuote(b, offer).0) && Balanced(InsertQuote(b, offer).0, credits)
  {
    var after := InsertQuote(b, offer).0;
    forall p | 0 <= p < |after.payouts| ensures PayoutBacked(after, p) {
      assert PayoutBacked(b, p);
    }
    forall q | 0 <= q < |after.quotes| && after.quotes[q].status.QuoteUsed? ensures QuoteBacks(after, q) {
      assert QuoteBacks(b, q);
    }
    forall purse: Purse ensures PurseBalances(after, credits, purse) {
      assert PurseBalances(b, credits, purse);
      QuotesOnlyAge(b, after.quotes, purse);
    }
  }

  lemma CreditKeepsBooks(b: Books, credits: map<Purse, nat>, purse: Purse, minor: nat)
    requires Backed(b) && Balanced(b, credits) && Credit(b, purse, minor).1.Ok?
    ensures Backed(Credit(b, purse, minor).0)
    ensures Balanced(Credit(b, purse, minor).0, credits[purse := minor + Credited(credits, purse)])
  {
    var after := Credit(b, purse, minor).0;
    forall p | 0 <= p < |after.payouts| ensures PayoutBacked(after, p) {
      assert PayoutBacked(b, p);
    }
    forall q | 0 <= q < |after.quotes| && after.quotes[q].status.QuoteUsed? ensures QuoteBacks(after, q) {
      assert QuoteBacks(b, q);
    }
    var more := credits[purse := minor + Credited(credits, purse)];
    forall other: Purse ensures PurseBalances(after, more, other) {
      assert PurseBalances(b, credits, other);
    }
  }

  lemma ReserveKeepsBacking(
    b: Books, project: string, quote: nat, key: string, scenario: Scenario, bolt11: Option<L.Bolt11>)
    requires Backed(b) && quote < |b.quotes| && b.quotes[quote].status.QuoteOpen?
    requires b.quotes[quote].project == project
    ensures Backed(CommitReserve(b, project, quote, key, scenario, bolt11))
  {
    var after := CommitReserve(b, project, quote, key, scenario, bolt11);
    forall p | 0 <= p < |after.payouts|
      ensures PayoutBacked(after, p)
      ensures p < |b.payouts| ==> after.payouts[p].quote != quote
    {
      if p < |b.payouts| {
        assert PayoutBacked(b, p);
      }
    }
    forall q | 0 <= q < |after.quotes| && after.quotes[q].status.QuoteUsed? ensures QuoteBacks(after, q) {
      if q == quote {
        assert after.payouts[|b.payouts|].quote == quote;
      } else {
        assert QuoteBacks(b, q);
        var p :| 0 <= p < |b.payouts| && b.payouts[p].quote == q;
        assert after.payouts[p] == b.payouts[p];
      }
    }
  }

  lemma ReserveKeepsBalance(
    b: Books, credits: map<Purse, nat>, project: string, quote: nat, key: string, scenario: Scenario,
    bolt11: Option<L.Bolt11>)
    requires Backed(b) && Balanced(b, credits) && quote < |b.quotes|
    requires b.quotes[quote].project == project
    requires Balance(b, (project, b.quotes[quote].source)) >= b.quotes[quote].sourceMinor
    ensures Balanced(CommitReserve(b, project, quote, key, scenario, bolt11), credits)
  {
    var after := CommitReserve(b, project, quote, key, scenario, bolt11);
    forall purse: Purse ensures PurseBalances(after, credits, purse) {
      assert PurseBalances(b, credits, purse);
      QuotesOnlyAge(b, after.quotes, purse);
      SumAppend(b.payouts, after.payouts[|b.payouts|], Held(after.quotes, purse));
    }
  }

  /** A change of one payout that leaves its quote alone. */
  lemma RewriteKeepsBacking(b: Books, after: Books, p: nat)
    requires Backed(b) && p < |b.payouts| && after.quotes == b.quotes
    requires b.balances.Keys <= after.balances.Keys
    requires |after.payouts| == |b.payouts|
    requires forall i :: 0 <= i < |b.payouts| && i != p ==> after.payouts[i] == b.payouts[i]
    requires after.payouts[p].quote == b.payouts[p].quote && after.payouts[p].project == b.payouts[p].project
    ensures Backed(after)
  {
    forall i | 0 <= i < |after.payouts| ensures PayoutBacked(after, i) {
      assert PayoutBacked(b, i);
    }
    forall q | 0 <= q < |after.quotes| && after.quotes[q].status.QuoteUsed? ensures QuoteBacks(after, q) {
      assert QuoteBacks(b, q);
      var i :| 0 <= i < |b.payouts| && b.payouts[i].quote == q;
      assert after.payouts[i].quote == q;
    }
  }

  lemma AdvanceKeepsBooks(b: Books, credits: map<Purse, nat>, p: nat, next: PayoutStatus)
    requires Backed(b) && Balanced(b, credits)
    ensures Backed(AdvancePayout(b, p, next).0) && Balanced(AdvancePayout(b, p, next).0, credits)
  {
    var (after, r) := AdvancePayout(b, p, next);
    if r.Ok? && r.value.1 {
      assert PayoutBacked(b, p);
      RewriteKeepsBacking(b, after, p);
      forall purse: Purse ensures PurseBalances(after, credits, purse) {
        assert PurseBalances(b, credits, purse);
        SumUpdate(b.payouts, p, after.payouts[p], Held(b.quotes, purse));
      }
    }
  }

  lemma AttachKeepsBooks(b: Books, credits: map<Purse, nat>, p: nat, payment: nat)
    requires Backed(b) && Balanced(b, credits)
    ensures Backed(AttachPayment(b, p, payment)) && Balanced(AttachPayment(b, p, payment), credits)
  {
    var after := AttachPayment(b, p, payment);
    if p < |b.payouts| {
      RewriteKeepsBacking(b, after, p);
      forall purse: Purse ensures PurseBalances(after, credits, purse) {
        assert PurseBalances(b, credits, purse);
        SumUpdate(b.payouts, p, after.payouts[p], Held(b.quotes, purse));
      }
    }
  }

  /** Each refund in the history is of a different payout, and the refunded payouts are the failed ones. */
  ghost predicate RefundsExact(w: World) {
    && Distinct(w.refunds)
    && (forall p: nat :: p in w.refunds <==> p < |w.books.payouts| && w.books.payouts[p].status.Failed?)
  }

  // -------------------------------------------------------------- the leg

  /** A payment row under a payout's key: the payout succeeded and the row pays its quote. */
  predicate LegTrue(b: Books, row: L.Payment) {
    row.key.PayoutLeg? ==>
      var p := row.key.payout;
      && p < |b.payouts|
      && b.payouts[p].status.Succeeded?
      && b.payouts[p].project == row.project
      && b.payouts[p].bolt11 == Some(row.request.invoice)
      && b.payouts[p].quote < |b.quotes|
      && b.quotes[b.payouts[p].quote].btcMsat == row.request.amount
  }

  predicate LegsTrue(w: World) {
    && (forall r :: 0 <= r < |w.sys.db.payments| ==> LegTrue(w.books, w.sys.db.payments[r]))
    && (forall t :: t in w.tasks && w.tasks[t].ToLeg? ==>
          w.tasks[t].payout < |w.books.payouts| && w.books.payouts[w.tasks[t].payout].status.Succeeded?)
  }

  /** The invariant of every run; the part about legs is kept when clients are honest. */
  ghost predicate Sound(w: World, honest: bool) {
    && D.Dispatches(w.sys)
    && Backed(w.books)
    && Balanced(w.books, w.credits)
    && RefundsExact(w)
    && (honest ==> LegsTrue(w))
  }

  /** Books only gain rows, and a succeeded payout keeps everything the leg depends on. */
  predicate BooksForward(b: Books, after: Books) {
    && |b.payouts| <= |after.payouts| && |b.quotes| <= |after.quotes|
    && (forall q :: 0 <= q < |b.quotes| ==> after.quotes[q].btcMsat == b.quotes[q].btcMsat)
    && (forall p :: 0 <= p < |b.payouts| ==>
          && after.payouts[p].project == b.payouts[p].project
          && after.payouts[p].bolt11 == b.payouts[p].bolt11
          && after.payouts[p].quote == b.payouts[p].quote
          && (after.payouts[p].status == b.payouts[p].status
              || CanAdvance(b.payouts[p].status, after.payouts[p].status)))
  }

  lemma LegsStayTrue(w: World, after: World)
    requires BooksForward(w.books, after.books)
    requires after.sys.db.payments == w.sys.db.payments
    requires forall t :: t in after.tasks && after.tasks[t].ToLeg? ==>
      || (t in w.tasks && after.tasks[t] == w.tasks[t])
      || (after.tasks[t].payout < |after.books.payouts| && after.books.payouts[after.tasks[t].payout].status.Succeeded?)
    ensures LegsTrue(w) ==> LegsTrue(after)
  {
    forall r | 0 <= r < |w.sys.db.payments| && LegTrue(w.books, w.sys.db.payments[r])
      ensures LegTrue(after.books, w.sys.db.payments[r])
    {
    }
  }

  lemma AnnounceKeeps(sys: P.Sys, project: string, name: string, payout: nat)
    requires D.Dispatches(sys)
    ensures D.Dispatches(Announce(sys, project, name, payout))
    ensures Announce(sys, project, name, payout).db.payments == sys.db.payments
    ensures Announce(sys, project, name, payout).sends == sys.sends
  {
    var step := P.OtherTxn(L.TEmitOther(project, name, payout));
    assert P.Next(sys, step) == Announce(sys, project, name, payout);
    D.StepKeepsDispatches(sys, step);
  }

  lemma EngineKeepsSound(honest: bool, w: World, a: P.Action)
    requires Sound(w, honest) && (honest && a.Begin? ==> a.key.Client?)
    ensures Sound(Next(w, Engine(a)), honest)
  {
    var after := Next(w, Engine(a));
    D.StepKeepsDispatches(w.sys, a);
    D.StepMovesForward(w.sys, a);
    forall r | 0 <= r < |after.sys.db.payments| && honest ensures LegTrue(after.books, after.sys.db.payments[r]) {
      if r < |w.sys.db.payments| {
        assert LegTrue(w.books, w.sys.db.payments[r]);
      } else {
        OnlyBeginAdds(w.sys, a, r);
      }
    }
  }

  lemma OnlyBeginAdds(sys: P.Sys, a: P.Action, r: nat)
    requires D.Dispatches(sys) && |sys.db.payments| <= r < |P.Next(sys, a).db.payments|
    ensures a.Begin? && P.Next(sys, a).db.payments[r].key == a.key
    ensures P.Next(sys, a).db.payments[r].project == a.project
    ensures P.Next(sys, a).db.payments[r].request.invoice == a.invoice
    ensures a.given.Some? ==> P.Next(sys, a).db.payments[r].request.amount == a.given.value
  {
    if !a.Begin? {
      if a.Pend? {
        D.StepMovesForward(sys, a);
        assert false;
      } else if a.Send? {
        assert false;
      } else {
        D.QuietStep(sys, a);
        assert false;
      }
    }
  }

  /** What a committed reservation changes. */
  predicate ReservedNow(w: World, after: World, project: string, quote: nat, key: string, scenario: Scenario,
                        bolt11: Option<L.Bolt11>)
  {
    && quote < |w.books.quotes| && w.books.quotes[quote].status.QuoteOpen? && w.books.quotes[quote].project == project
    && Balance(w.books, (project, w.books.quotes[quote].source)) >= w.books.quotes[quote].sourceMinor
    && after.books == CommitReserve(w.books, project, quote, key, scenario, bolt11)
    && after.credits == w.credits && after.refunds == w.refunds
    && after.sys == Announce(w.sys, project, "sandbox.payout.reserved", |w.books.payouts|)
    && forall t :: t in after.tasks && after.tasks[t].ToLeg? ==> t in w.tasks && after.tasks[t] == w.tasks[t]
  }

  lemma ReservedKeepsSound(
    honest: bool, w: World, after: World, project: string, quote: nat, key: string, scenario: Scenario,
    bolt11: Option<L.Bolt11>)
    requires Sound(w, honest) && ReservedNow(w, after, project, quote, key, scenario, bolt11)
    ensures Sound(after, honest)
  {
    ReserveKeepsBacking(w.books, project, quote, key, scenario, bolt11);
    ReserveKeepsBalance(w.books, w.credits, project, quote, key, scenario, bolt11);
    AnnounceKeeps(w.sys, project, "sandbox.payout.reserved", |w.books.payouts|);
    LegsStayTrue(w, after);
  }

  lemma ReserveKeepsSound(honest: bool, w: World, after: World, step: Step)
    requires Sound(w, honest) && step.Reserve? && after == Next(w, step)
    ensures Sound(after, honest)
  {
    if after != w {
      ReservedKeepsSound(honest, w, after, step.project, step.quote, step.key, step.scenario, step.bolt11);
    }
  }

  lemma AdvanceIsForward(b: Books, p: nat, next: PayoutStatus)
    ensures BooksForward(b, AdvancePayout(b, p, next).0)
    ensures |AdvancePayout(b, p, next).0.payouts| == |b.payouts|
    ensures AdvancePayout(b, p, next).1.Ok? ==> p < |b.payouts| && AdvancePayout(b, p, next).0.payouts[p].status == next
    ensures forall i :: 0 <= i < |b.payouts| && i != p ==> AdvancePayout(b, p, next).0.payouts[i] == b.payouts[i]
  {
  }

  /** A leg to come is one that was to come, or follows this payout's success. */
  predicate LegsFollow(w: World, after: World, p: nat, success: bool) {
    forall t :: t in after.tasks && after.tasks[t].ToLeg? ==>
      (t in w.tasks && after.tasks[t] == w.tasks[t]) || (after.tasks[t].payout == p && success)
  }

  /** Everything but the tasks is as it was. */
  predicate OnlyTasks(w: World, after: World) {
    after.books == w.books && after.sys == w.sys && after.credits == w.credits && after.refunds == w.refunds
  }

  /** What a committed advance of payout `p` changes. */
  predicate Advanced(w: World, after: World, p: nat, next: PayoutStatus) {
    && p < |w.books.payouts| && !w.books.payouts[p].status.Failed? && AdvancePayout(w.books, p, next).1.Ok?
    && after.books == AdvancePayout(w.books, p, next).0 && after.credits == w.credits
    && after.refunds == (if next.Failed? then w.refunds + [p] else w.refunds)
    && after.sys == Announce(w.sys, w.books.payouts[p].project, StatusName(next), p)
  }

  lemma AdvanceEffect(w: World, after: World, tid: nat, p: nat, next: PayoutStatus, then_: Option<Task>)
    requires after == DoAdvance(w, tid, p, next, then_)
    requires then_.Some? && then_.value.ToLeg? ==> next.Succeeded? && then_.value.payout == p
    ensures Advanced(w, after, p, next) || (OnlyTasks(w, after) && AdvancePayout(w.books, p, next).0 == w.books)
    ensures LegsFollow(w, after, p, next.Succeeded? && AdvancePayout(w.books, p, next).1.Ok?)
  {
  }

  lemma AdvanceKeepsSound(honest: bool, w: World, after: World, p: nat, next: PayoutStatus)
    requires Sound(w, honest)
    requires Advanced(w, after, p, next) || (OnlyTasks(w, after) && AdvancePayout(w.books, p, next).0 == w.books)
    requires LegsFollow(w, after, p, next.Succeeded? && AdvancePayout(w.books, p, next).1.Ok?)
    ensures Sound(after, honest)
  {
    AdvanceIsForward(w.books, p, next);
    if Advanced(w, after, p, next) {
      AnnounceKeeps(w.sys, w.books.payouts[p].project, StatusName(next), p);
      AdvancedKeepsSound(honest, w, after, p, next);
    } else {
      LegsStayTrue(w, after);
    }
  }

  lemma AdvancedKeepsSound(honest: bool, w: World, after: World, p: nat, next: PayoutStatus)
    requires Sound(w, honest) && p < |w.books.payouts| && !w.books.payouts[p].status.Failed?
    requires after.books == AdvancePayout(w.books, p, next).0 && after.credits == w.credits
    requires BooksForward(w.books, after.books) && |after.books.payouts| == |w.books.payouts|
    requires after.books.payouts[p].status == next
    requires forall i :: 0 <= i < |w.books.payouts| && i != p ==> after.books.payouts[i] == w.books.payouts[i]
    requires after.refunds == if next.Failed? then w.refunds + [p] else w.refunds
    requires D.Dispatches(after.sys) && after.sys.db.payments == w.sys.db.payments
    requires forall t :: t in after.tasks && after.tasks[t].ToLeg? ==>
      (t in w.tasks && after.tasks[t] == w.tasks[t]) || (after.tasks[t].payout == p && next.Succeeded?)
    ensures Sound(after, honest)
  {
    AdvanceKeepsBooks(w.books, w.credits, p, next);
    RefundRecorded(w, after, p, next);
    LegsStayTrue(w, after);
  }

  lemma RefundRecorded(w: World, after: World, p: nat, next: PayoutStatus)
    requires RefundsExact(w) && p < |w.books.payouts| && |after.books.payouts| == |w.books.payouts|
    requires !w.books.payouts[p].status.Failed? && after.books.payouts[p].status == next
    requires forall i :: 0 <= i < |w.books.payouts| && i != p ==> after.books.payouts[i] == w.books.payouts[i]
    requires after.refunds == if next.Failed? then w.refunds + [p] else w.refunds
    ensures RefundsExact(after)
  {
    assert p !in w.refunds;
  }

  lemma LegKeepsSound(honest: bool, w: World, tid: nat, sender: nat)
    requires Sound(w, honest)
    ensures Sound(DoLeg(w, tid, sender), honest)
  {
    var after := DoLeg(w, tid, sender);
    if after != w {
      var p := w.tasks[tid].payout;
      var payout := w.books.payouts[p];
      var btc := w.books.quotes[payout.quote].btcMsat;
      var a := P.Begin(sender, payout.project, L.PayoutLeg(p), payout.bolt11.value, Some(btc), "sandbox_payout_id");
      D.StepKeepsDispatches(w.sys, a);
      D.StepMovesForward(w.sys, a);
      forall r | 0 <= r < |after.sys.db.payments| && honest ensures LegTrue(after.books, after.sys.db.payments[r]) {
        if r < |w.sys.db.payments| {
          assert LegTrue(w.books, w.sys.db.payments[r]);
        } else {
          OnlyBeginAdds(w.sys, a, r);
        }
      }
    }
  }

  lemma AttachKeepsSound(honest: bool, w: World, tid: nat)
    requires Sound(w, honest)
    ensures Sound(DoAttach(w, tid), honest)
  {
    if tid in w.tasks && w.tasks[tid].ToAttach? {
      AttachKeepsBooks(w.books, w.credits, w.tasks[tid].payout, w.tasks[tid].payment);
      LegsStayTrue(w, DoAttach(w, tid));
    }
  }

  lemma TopUpKeepsSound(honest: bool, w: World, after: World, purse: Purse, minor: nat)
    requires Sound(w, honest) && after == DoTopUp(w, purse, minor)
    ensures Sound(after, honest)
  {
    if Credit(w.books, purse, minor).1.Ok? {
      CreditKeepsBooks(w.books, w.credits, purse, minor);
      LegsStayTrue(w, after);
    }
  }

  lemma QuoteKeepsSound(honest: bool, w: World, after: World, offer: Quote)
    requires Sound(w, honest) && after == w.(books := InsertQuote(w.books, offer).0)
    ensures Sound(after, honest)
  {
    QuoteKeepsBooks(w.books, w.credits, offer);
    LegsStayTrue(w, after);
  }

  lemma AdvanceStepKeepsSound(
    honest: bool, w: World, after: World, tid: nat, p: nat, next: PayoutStatus, then_: Option<Task>)
    requires Sound(w, honest) && after == DoAdvance(w, tid, p, next, then_)
    requires then_.Some? && then_.value.ToLeg? ==> next.Succeeded? && then_.value.payout == p
    ensures Sound(after, honest)
  {
    AdvanceEffect(w, after, tid, p, next, then_);
    AdvanceKeepsSound(honest, w, after, p, next);
  }

  lemma FinishKeepsSound(honest: bool, w: World, after: World, tid: nat)
    requires Sound(w, honest) && tid in w.tasks && w.tasks[tid].ToFinish? && after == DoFinish(w, tid)
    ensures Sound(after, honest)
  {
    match w.tasks[tid].scenario
    case Failure => AdvanceStepKeepsSound(honest, w, after, tid, w.tasks[tid].payout, Failed, None);
    case Timeout => AdvanceStepKeepsSound(honest, w, after, tid, w.tasks[tid].payout, Unknown, None);
    case Success => LegsStayTrue(w, after);
  }

  lemma TaskStepKeepsSound(honest: bool, w: World, step: Step, after: World)
    requires Sound(w, honest) && (step.Start? || step.Finish? || step.Succeed? || step.Fail?) && after == Next(w, step)
    ensures Sound(after, honest)
  {
    if step.tid in w.tasks {
      var tid, task := step.tid, w.tasks[step.tid];
      if step.Start? && task.ToStart? {
        AdvanceStepKeepsSound(honest, w, after, tid, task.payout, Pending, Some(ToFinish(task.payout, task.scenario)));
      } else if step.Finish? && task.ToFinish? {
        FinishKeepsSound(honest, w, after, tid);
      } else if step.Succeed? && task.ToSucceed? {
        AdvanceStepKeepsSound(honest, w, after, tid, task.payout, Succeeded, AfterSuccess(w.books, task.payout));
      } else if step.Fail? && task.ToFail? {
        AdvanceStepKeepsSound(honest, w, after, tid, task.payout, Failed, None);
      }
    }
  }

  /** A step that touches nothing but tasks, and gives none of them a leg. */
  lemma TasksAloneKeepSound(honest: bool, w: World, after: World)
    requires Sound(w, honest) && OnlyTasks(w, after)
    requires forall t :: t in after.tasks && after.tasks[t].ToLeg? ==> t in w.tasks && after.tasks[t] == w.tasks[t]
    ensures Sound(after, honest)
  {
    LegsStayTrue(w, after);
  }

  lemma StepKeepsSound(honest: bool, w: World, step: Step)
    requires Sound(w, honest) && (honest ==> Honest(step))
    ensures Sound(Next(w, step), honest)
  {
    match step
    case Engine(a) => EngineKeepsSound(honest, w, a);
    case TopUp(purse, minor) => TopUpKeepsSound(honest, w, Next(w, step), purse, minor);
    case MakeQuote(offer) => QuoteKeepsSound(honest, w, Next(w, step), offer);
    case Reserve(_, _, _, _, _, _, _) => ReserveKeepsSound(honest, w, Next(w, step), step);
    case Start(_) => TaskStepKeepsSound(honest, w, step, Next(w, step));
    case Finish(_) => TaskStepKeepsSound(honest, w, step, Next(w, step));
    case Succeed(_) => TaskStepKeepsSound(honest, w, step, Next(w, step));
    case Fail(_) => TaskStepKeepsSound(honest, w, step, Next(w, step));
    case Leg(tid, sender) => LegKeepsSound(honest, w, tid, sender);
    case Attach(tid) => AttachKeepsSound(honest, w, tid);
    case Reconcile(_, _, _, _) => TasksAloneKeepSound(honest, w, Next(w, step));
    case Abandon(_) => TasksAloneKeepSound(honest, w, Next(w, step));
    case Crash => EngineKeepsSound(honest, w, P.Crash);
  }

  lemma {:induction false} RunKeepsSound(honest: bool, steps: seq<Step>)
    requires honest ==> forall k :: 0 <= k < |steps| ==> Honest(steps[k])
    ensures Sound(Run(GENESIS, steps), honest)
  {
    if |steps| == 0 {
      assert forall purse: Purse :: PurseBalances(NO_BOOKS, map[], purse);
    } else {
      RunKeepsSound(honest, steps[..|steps| - 1]);
      StepKeepsSound(honest, Run(GENESIS, steps[..|steps| - 1]), steps[|steps| - 1]);
    }
  }

  /**
   In every run every balance is non-negative and equals what was credited minus what
   payouts not yet failed hold; a quote is used exactly when one payout stands on it; and
   the refunds made are one for each failed payout.
   */
  lemma MoneyIsConserved(steps: seq<Step>, purse: Purse)
    ensures var w := Run(GENESIS, steps);
            && Balance(w.books, purse) >= 0
            && Balance(w.books, purse) == Credited(w.credits, purse) - Sum(w.books.payouts, Held(w.books.quotes, purse))
            && (forall q :: 0 <= q < |w.books.quotes| ==>
                  (w.books.quotes[q].status.QuoteUsed? <==> QuoteBacks(w.books, q)))
            && (forall p, r :: 0 <= p < r < |w.books.payouts| ==> w.books.payouts[p].quote != w.books.payouts[r].quote)
            && RefundsExact(w)
  {
    RunKeepsSound(false, steps);
    var w := Run(GENESIS, steps);
    assert PurseBalances(w.books, w.credits, purse);
    forall q | 0 <= q < |w.books.quotes| && QuoteBacks(w.books, q) ensures w.books.quotes[q].status.QuoteUsed? {
      var p :| 0 <= p < |w.books.payouts| && w.books.payouts[p].quote == q;
      assert PayoutBacked(w.books, p);
    }
  }

  /**
   In every run in which clients keep out of the payouts' key namespace, a send under a
   payout's key happens at most once, only for a payout that is `succeeded` and was never
   refunded, and asks the node for exactly the quote's Bitcoin amount on the payout's invoice.
   */
  lemma LegIsSentOnceAndOnlyOnSuccess(steps: seq<Step>)
    requires forall k :: 0 <= k < |steps| ==> Honest(steps[k])
    ensures var w := Run(GENESIS, steps);
            && (forall k :: 0 <= k < |w.sys.sends| ==> w.sys.sends[k].payment < |w.sys.db.payments|)
            && (forall k :: 0 <= k < |w.sys.sends| && w.sys.db.payments[w.sys.sends[k].payment].key.PayoutLeg? ==>
                  var p := w.sys.db.payments[w.sys.sends[k].payment].key.payout;
                  && p < |w.books.payouts|
                  && w.books.payouts[p].status.Succeeded?
                  && p !in w.refunds
                  && w.books.payouts[p].bolt11 == Some(w.sys.sends[k].invoice)
                  && w.books.payouts[p].quote < |w.books.quotes|
                  && D.AskedAmount(w.sys.sends[k]) == Some(w.books.quotes[w.books.payouts[p].quote].btcMsat))
            && (forall j, k ::
                  0 <= j < k < |w.sys.sends| && w.sys.db.payments[w.sys.sends[j].payment].key.PayoutLeg? ==>
                  w.sys.db.payments[w.sys.sends[j].payment].key != w.sys.db.payments[w.sys.sends[k].payment].key)
  {
    RunKeepsSound(true, steps);
    var w := Run(GENESIS, steps);
    forall j, k | 0 <= j < k < |w.sys.sends| && w.sys.db.payments[w.sys.sends[j].payment].key.PayoutLeg?
      ensures w.sys.db.payments[w.sys.sends[j].payment].key != w.sys.db.payments[w.sys.sends[k].payment].key
    {
      var a, b := w.sys.sends[j].payment, w.sys.sends[k].payment;
      assert a != b;
      assert LegTrue(w.books, w.sys.db.payments[a]) && LegTrue(w.books, w.sys.db.payments[b]);
    }
    forall k | 0 <= k < |w.sys.sends| ensures LegTrue(w.books, w.sys.db.payments[w.sys.sends[k].payment]) {
    }
  }

  /**
   The key namespace must be kept: in any sound state with a payout that is not `succeeded`,
   one client request under the payout's key puts a send under that key.
   */
  lemma ClientCouldTakeTheKey(w: World, w1: World, w2: World, w3: World, p: nat, tid: nat, request: L.Request)
    requires Sound(w, true) && p < |w.books.payouts| && !w.books.payouts[p].status.Succeeded?
    requires tid !in w.sys.threads
    requires P.AmountOf(request.invoice, Some(request.amount)) == Ok(request.amount) && request.amount <= I64_MAX
    requires w1 == w.(sys := P.DoBegin(w.sys, tid, w.books.payouts[p].project, L.PayoutLeg(p), request.invoice,
                                       Some(request.amount), request.metadata))
    requires w2 == w1.(sys := P.DoPend(w1.sys, tid)) && w3 == w2.(sys := P.DoSend(w2.sys, tid, true, ""))
    ensures |w3.sys.sends| == |w.sys.sends| + 1
    ensures w3.sys.sends[|w.sys.sends|].payment < |w3.sys.db.payments|
         && w3.sys.db.payments[w3.sys.sends[|w.sys.sends|].payment].key == L.PayoutLeg(p)
    ensures p < |w3.books.payouts| && !w3.books.payouts[p].status.Succeeded?
  {
    KeyIsFree(w, p);
    D.NewRequestPends(w.sys, w1.sys, w2.sys, tid, w.books.payouts[p].project, L.PayoutLeg(p), request);
  }

  lemma KeyIsFree(w: World, p: nat)
    requires LegsTrue(w) && p < |w.books.payouts| && !w.books.payouts[p].status.Succeeded?
    ensures L.FindKey(w.sys.db.payments, w.books.payouts[p].project, L.PayoutLeg(p)).None?
  {
    assert forall r :: 0 <= r < |w.sys.db.payments| ==> LegTrue(w.books, w.sys.db.payments[r]);
  }

  lemma ReservedFacts(w1: World, w2: World, w3: World, offer: Quote, key: string, scenario: Scenario)
    requires offer.sourceMinor == 1 && offer.targetMinor == 1 && offer.btcMsat == 1000 && offer.expiresAt == 0
    requires w1 == DoTopUp(GENESIS, (offer.project, offer.source), 1)
    requires w2 == w1.(books := InsertQuote(w1.books, offer).0)
    requires w3 == DoReserve(w2, 0, offer.project, 0, key, scenario, None, 0)
    ensures |w3.books.payouts| == 1 && w3.books.payouts[0].status.Reserved? && w3.sys.threads == map[]
  {
    assert w1.books == Books([], [], map[(offer.project, offer.source) := 1]);
    assert w2.books.quotes == [offer.(status := QuoteOpen)] && w2.books.payouts == [];
    assert w3.sys.threads == w2.sys.threads;
  }

  /** One reserved payout is such a state, reached from the start by a credit, a quote and a reservation. */
  lemma ReservedIsReachable(w1: World, w2: World, w3: World, offer: Quote, key: string, scenario: Scenario)
    requires offer.sourceMinor == 1 && offer.targetMinor == 1 && offer.btcMsat == 1000 && offer.expiresAt == 0
    requires w1 == DoTopUp(GENESIS, (offer.project, offer.source), 1)
    requires w2 == w1.(books := InsertQuote(w1.books, offer).0)
    requires w3 == DoReserve(w2, 0, offer.project, 0, key, scenario, None, 0)
    ensures Sound(w3, true) && |w3.books.payouts| == 1 && w3.books.payouts[0].status.Reserved?
    ensures w3.sys.threads == map[]
  {
    ReservedFacts(w1, w2, w3, offer, key, scenario);
    RunKeepsSound(true, []);
    SoundStep(GENESIS, TopUp((offer.project, offer.source), 1), w1);
    SoundStep(w1, MakeQuote(offer), w2);
    SoundStep(w2, Reserve(0, offer.project, 0, key, scenario, None, 0), w3);
  }

  lemma SoundStep(w: World, step: Step, after: World)
    requires Sound(w, true) && Honest(step) && after == Next(w, step)
    ensures Sound(after, true)
  {
    StepKeepsSound(true, w, step);
  }
}
