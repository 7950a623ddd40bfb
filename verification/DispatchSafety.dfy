/** At most one send per idempotency key, under every interleaving and every crash. */
module DispatchSafety {
  import opened Core
  import opened Ledger
  import opened Reconcile
  import opened PaymentProtocol

  predicate KeysUnique(payments: seq<Payment>) {
    forall i, j :: 0 <= i < j < |payments| ==>
      !(payments[i].project == payments[j].project && payments[i].key == payments[j].key)
  }

  predicate Sending(t: Thread) {
    t.ToPend? || t.ToSend? || t.ToRefuse?
  }

  /** The amount the node is asked to pay. */
  function AskedAmount(sent: Sent): Option<nat> {
    if sent.invoice.amount.Some? then sent.invoice.amount else sent.amount
  }

  predicate RequestsValid(payments: seq<Payment>) {
    forall i :: 0 <= i < |payments| ==>
      payments[i].request.invoice.amount.Some? ==>
        payments[i].request.invoice.amount.value == payments[i].request.amount
  }

  predicate ThreadsGrounded(s: Sys) {
    && (forall t :: t in s.threads ==> s.threads[t].payment < |s.db.payments|)
    && (s.pump.Found? ==> s.pump.payment < |s.db.payments|)
  }

  /** Each row has at most one live sender, and one past `ToPend` has a row past `created`. */
  predicate SendersApart(s: Sys)
    requires ThreadsGrounded(s)
  {
    && (forall t, u ::
          (t in s.threads && u in s.threads && t != u && Sending(s.threads[t]) && Sending(s.threads[u])) ==>
          s.threads[t].payment != s.threads[u].payment)
    && (forall t :: t in s.threads && (s.threads[t].ToSend? || s.threads[t].ToRefuse?) ==>
          !s.db.payments[s.threads[t].payment].status.Created?)
  }

  predicate SentGrounded(s: Sys) {
    forall k :: 0 <= k < |s.sends| ==>
      && s.sends[k].payment < |s.db.payments|
      && !s.db.payments[s.sends[k].payment].status.Created?
      && s.sends[k].invoice == s.db.payments[s.sends[k].payment].request.invoice
      && AskedAmount(s.sends[k]) == Some(s.db.payments[s.sends[k].payment].request.amount)
  }

  /** A row is sent once, and a row with a sender still before its send has not been sent. */
  predicate SentOnce(s: Sys) {
    && (forall j, k :: 0 <= j < k < |s.sends| ==> s.sends[j].payment != s.sends[k].payment)
    && (forall t, k :: t in s.threads && (s.threads[t].ToPend? || s.threads[t].ToSend?) && 0 <= k < |s.sends| ==>
          s.threads[t].payment != s.sends[k].payment)
  }

  predicate Dispatches(s: Sys) {
    && KeysUnique(s.db.payments)
    && RequestsValid(s.db.payments)
    && ThreadsGrounded(s)
    && SendersApart(s)
    && SentGrounded(s)
    && SentOnce(s)
  }

  /** What every step does to the payment rows: append, or move statuses forward. */
  predicate RowsForward(before: seq<Payment>, after: seq<Payment>) {
    && |before| <= |after|
    && (forall i :: 0 <= i < |before| ==>
          && after[i].project == before[i].project
          && after[i].key == before[i].key
          && after[i].request == before[i].request
          && (after[i].status == before[i].status || CanMove(before[i].status, after[i].status)))
  }

  lemma {:induction false} ExpireKeepsPayments(db: Db, now: int, n: nat)
    requires n <= |db.invoices|
    ensures ExpireUpTo(db, now, n).payments == db.payments
  {
    if n > 0 {
      ExpireKeepsPayments(db, now, n - 1);
    }
  }

  lemma ElsewhereKeepsPayments(db: Db, t: Txn)
    requires Elsewhere(t)
    ensures Apply(db, t).payments == db.payments
  {
    if t.TExpire? {
      ExpireKeepsPayments(db, t.now, |db.invoices|);
    }
  }

  lemma SenderMovesForward(s: Sys, a: Action)
    requires a.Begin? || a.Pend? || a.Send? || a.Refuse?
    ensures RowsForward(s.db.payments, Next(s, a).db.payments)
  {
  }

  lemma ReconcilerMovesForward(s: Sys, a: Action)
    requires a.ReadRow? || a.ReadView? || a.Pass? || a.Write?
    ensures RowsForward(s.db.payments, Next(s, a).db.payments)
  {
  }

  lemma PumpMovesForward(s: Sys, a: Action)
    requires a.PumpTake? || a.PumpApply? || a.PumpAck?
    ensures RowsForward(s.db.payments, Next(s, a).db.payments)
  {
  }

  lemma EnvironmentLeavesRows(s: Sys, a: Action)
    requires a.Abandon? || a.Crash? || a.Report? || a.Forget? || a.Enqueue? || a.OtherTxn?
    ensures Next(s, a).db.payments == s.db.payments
  {
    if a.OtherTxn? && Elsewhere(a.txn) {
      ElsewhereKeepsPayments(s.db, a.txn);
    }
  }

  lemma StepMovesForward(s: Sys, a: Action)
    ensures RowsForward(s.db.payments, Next(s, a).db.payments)
  {
    if a.Begin? || a.Pend? || a.Send? || a.Refuse? {
      SenderMovesForward(s, a);
    } else if a.ReadRow? || a.ReadView? || a.Pass? || a.Write? {
      ReconcilerMovesForward(s, a);
    } else if a.PumpTake? || a.PumpApply? || a.PumpAck? {
      PumpMovesForward(s, a);
    } else {
      EnvironmentLeavesRows(s, a);
    }
  }

  /** A new row with a key of its own keeps the rows apart and what was sent grounded. */
  lemma NewRowKeeps(s: Sys, after: Sys, row: Payment)
    requires KeysUnique(s.db.payments) && RequestsValid(s.db.payments) && SentGrounded(s)
    requires after.db.payments == s.db.payments + [row] && after.sends == s.sends
    requires forall i :: 0 <= i < |s.db.payments| ==> !(s.db.payments[i].project == row.project && s.db.payments[i].key == row.key)
    requires row.request.invoice.amount.Some? ==> row.request.invoice.amount.value == row.request.amount
    ensures KeysUnique(after.db.payments) && RequestsValid(after.db.payments) && SentGrounded(after)
  {
    forall k | 0 <= k < |after.sends| ensures after.sends[k].payment < |s.db.payments| {
    }
  }

  /** The new row's sender is alone with it, and nothing was sent for it. */
  lemma NewSenderKeeps(s: Sys, after: Sys, tid: nat)
    requires ThreadsGrounded(s) && SendersApart(s) && SentGrounded(s) && SentOnce(s) && tid !in s.threads
    requires s.db.payments <= after.db.payments && |after.db.payments| == |s.db.payments| + 1
    requires after.sends == s.sends && after.pump == s.pump
    requires after.threads == s.threads[tid := ToPend(|s.db.payments|)]
    ensures ThreadsGrounded(after) && SendersApart(after) && SentOnce(after)
  {
    forall t | t in after.threads && t != tid
      ensures t in s.threads && after.threads[t] == s.threads[t] && after.threads[t].payment < |s.db.payments|
    {
    }
  }

  lemma BegunKeeps(s: Sys, after: Sys, tid: nat, row: Payment)
    requires Dispatches(s) && tid !in s.threads
    requires after.db.payments == s.db.payments + [row]
    requires after.sends == s.sends && after.pump == s.pump
    requires after.threads == s.threads[tid := ToPend(|s.db.payments|)]
    requires forall i :: 0 <= i < |s.db.payments| ==> !(s.db.payments[i].project == row.project && s.db.payments[i].key == row.key)
    requires row.request.invoice.amount.Some? ==> row.request.invoice.amount.value == row.request.amount
    ensures Dispatches(after)
  {
    NewRowKeeps(s, after, row);
    NewSenderKeeps(s, after, tid);
  }

  lemma BeginKeeps(s: Sys, a: Action)
    requires Dispatches(s) && a.Begin?
    ensures Dispatches(Next(s, a))
  {
    var after := Next(s, a);
    if after != s {
      BegunKeeps(s, after, a.tid, after.db.payments[|s.db.payments|]);
    }
  }

  /** What a step that neither begins, pends nor sends may do to threads. */
  predicate QuietThreads(s: Sys, threads: map<nat, Thread>) {
    forall t :: t in threads ==>
      && threads[t].payment < |s.db.payments|
      && (Sending(threads[t]) ==> t in s.threads && threads[t] == s.threads[t])
  }

  /** Rows that only move forward keep everything said about rows and sends. */
  lemma RowsKeep(s: Sys, after: Sys)
    requires KeysUnique(s.db.payments) && RequestsValid(s.db.payments) && SentGrounded(s)
    requires RowsForward(s.db.payments, after.db.payments) && |after.db.payments| == |s.db.payments|
    requires after.sends == s.sends
    ensures KeysUnique(after.db.payments) && RequestsValid(after.db.payments) && SentGrounded(after)
  {
    forall i | 0 <= i < |after.db.payments|
      ensures after.db.payments[i].project == s.db.payments[i].project
      ensures after.db.payments[i].key == s.db.payments[i].key
      ensures after.db.payments[i].request == s.db.payments[i].request
      ensures !s.db.payments[i].status.Created? ==> !after.db.payments[i].status.Created?
    {
    }
  }

  /** Steps that send nothing and add no sender, but may retire or advance threads and move rows. */
  lemma QuietKeeps(s: Sys, after: Sys)
    requires Dispatches(s)
    requires RowsForward(s.db.payments, after.db.payments) && |after.db.payments| == |s.db.payments|
    requires after.sends == s.sends
    requires after.pump.Found? ==> after.pump.payment < |s.db.payments|
    requires QuietThreads(s, after.threads)
    ensures Dispatches(after)
  {
    RowsKeep(s, after);
    assert SendersApart(after);
  }

  /** A thread that waited to pend goes on to its send, once its row has left `created`. */
  lemma PendedThreadKeeps(s: Sys, after: Sys, tid: nat)
    requires ThreadsGrounded(s) && SendersApart(s) && SentOnce(s) && tid in s.threads && s.threads[tid].ToPend?
    requires RowsForward(s.db.payments, after.db.payments) && |after.db.payments| == |s.db.payments|
    requires after.sends == s.sends && after.pump == s.pump
    requires after.threads == s.threads[tid := ToSend(s.threads[tid].payment)]
    requires !after.db.payments[s.threads[tid].payment].status.Created?
    ensures ThreadsGrounded(after) && SendersApart(after) && SentOnce(after)
  {
    forall t | t in after.threads
      ensures t in s.threads && after.threads[t].payment == s.threads[t].payment
      ensures Sending(after.threads[t]) ==> Sending(s.threads[t])
      ensures t != tid ==> after.threads[t] == s.threads[t]
    {
    }
  }

  /** A sender's row becomes `pending` and the sender may go on to its send. */
  lemma PendedKeeps(s: Sys, after: Sys, tid: nat)
    requires Dispatches(s) && tid in s.threads && s.threads[tid].ToPend?
    requires RowsForward(s.db.payments, after.db.payments) && |after.db.payments| == |s.db.payments|
    requires after.sends == s.sends && after.pump == s.pump
    requires after.threads == s.threads[tid := ToSend(s.threads[tid].payment)]
    requires !after.db.payments[s.threads[tid].payment].status.Created?
    ensures Dispatches(after)
  {
    RowsKeep(s, after);
    PendedThreadKeeps(s, after, tid);
  }

  lemma PendKeeps(s: Sys, after: Sys, tid: nat)
    requires Dispatches(s) && after == DoPend(s, tid) && RowsForward(s.db.payments, after.db.payments)
    ensures Dispatches(after)
  {
    if tid in s.threads && s.threads[tid].ToPend? {
      if tid in after.threads {
        PendedKeeps(s, after, tid);
      } else {
        QuietKeeps(s, after);
      }
    }
  }

  /** The new send names its row's invoice and amount, and no earlier send named that row. */
  lemma OneMoreSend(s: Sys, after: Sys, p: nat)
    requires SentGrounded(s) && p < |s.db.payments| && !s.db.payments[p].status.Created? && after.db == s.db
    requires RequestsValid(s.db.payments)
    requires after.sends == s.sends + [Sent(p, s.db.payments[p].request.invoice, AmountForNode(s.db.payments[p].request))]
    ensures SentGrounded(after)
  {
    var request := s.db.payments[p].request;
    assert request.invoice.amount.Some? ==> request.invoice.amount.value == request.amount;
    assert AskedAmount(after.sends[|s.sends|]) == Some(request.amount);
  }

  lemma SentThreadKeeps(s: Sys, after: Sys, tid: nat)
    requires ThreadsGrounded(s) && SendersApart(s) && SentOnce(s) && tid in s.threads && s.threads[tid].ToSend?
    requires after.db == s.db && after.pump == s.pump
    requires |after.sends| == |s.sends| + 1 && after.sends[..|s.sends|] == s.sends
    requires after.sends[|s.sends|].payment == s.threads[tid].payment
    requires forall t :: t in after.threads ==>
      && t in s.threads
      && (t != tid ==> after.threads[t] == s.threads[t])
      && (t == tid ==> after.threads[t].ToRefuse? && after.threads[t].payment == s.threads[tid].payment)
    ensures ThreadsGrounded(after) && SendersApart(after) && SentOnce(after)
  {
    forall k | 0 <= k < |s.sends| ensures after.sends[k] == s.sends[k] {
    }
    forall t, k | t in after.threads && (after.threads[t].ToPend? || after.threads[t].ToSend?) && 0 <= k < |after.sends|
      ensures after.threads[t].payment != after.sends[k].payment
    {
      assert Sending(s.threads[t]) && Sending(s.threads[tid]) && t != tid;
    }
  }

  /** The send is recorded and its thread either retires or goes on to refuse the same row. */
  lemma SendKeeps(s: Sys, after: Sys, tid: nat)
    requires Dispatches(s) && tid in s.threads && s.threads[tid].ToSend?
    requires after.db == s.db && after.pump == s.pump
    requires var p := s.threads[tid].payment;
             after.sends == s.sends + [Sent(p, s.db.payments[p].request.invoice, AmountForNode(s.db.payments[p].request))]
    requires forall t :: t in after.threads ==>
      && t in s.threads
      && (t != tid ==> after.threads[t] == s.threads[t])
      && (t == tid ==> after.threads[t].ToRefuse? && after.threads[t].payment == s.threads[tid].payment)
    ensures Dispatches(after)
  {
    OneMoreSend(s, after, s.threads[tid].payment);
    SentThreadKeeps(s, after, tid);
  }

  lemma QuietReconcilers(s: Sys, a: Action)
    requires ThreadsGrounded(s) && (a.Refuse? || a.ReadRow? || a.ReadView? || a.Pass? || a.Write?)
    ensures QuietThreads(s, Next(s, a).threads) && Next(s, a).sends == s.sends && Next(s, a).pump == s.pump
    ensures |Next(s, a).db.payments| == |s.db.payments|
  {
    match a
    case Refuse(_) =>
    case ReadRow(_, _) =>
    case ReadView(_) =>
    case Pass(_) =>
    case Write(_) =>
  }

  lemma QuietPump(s: Sys, a: Action)
    requires ThreadsGrounded(s) && (a.PumpTake? || a.PumpApply? || a.PumpAck?)
    ensures Next(s, a).threads == s.threads && Next(s, a).sends == s.sends
    ensures Next(s, a).pump.Found? ==> Next(s, a).pump.payment < |s.db.payments|
    ensures |Next(s, a).db.payments| == |s.db.payments|
  {
  }

  lemma QuietEnvironment(s: Sys, a: Action)
    requires ThreadsGrounded(s) && (a.Abandon? || a.Crash? || a.Report? || a.Forget? || a.Enqueue? || a.OtherTxn?)
    ensures QuietThreads(s, Next(s, a).threads) && Next(s, a).sends == s.sends
    ensures Next(s, a).pump == s.pump || Next(s, a).pump == Idle
    ensures |Next(s, a).db.payments| == |s.db.payments|
  {
    if a.OtherTxn? && Elsewhere(a.txn) {
      ElsewhereKeepsPayments(s.db, a.txn);
    }
  }

  lemma QuietStep(s: Sys, a: Action)
    requires Dispatches(s) && !a.Begin? && !a.Pend? && !a.Send?
    ensures Next(s, a).sends == s.sends
    ensures |Next(s, a).db.payments| == |s.db.payments|
    ensures Next(s, a).pump.Found? ==> Next(s, a).pump.payment < |s.db.payments|
    ensures QuietThreads(s, Next(s, a).threads)
  {
    if a.Refuse? || a.ReadRow? || a.ReadView? || a.Pass? || a.Write? {
      QuietReconcilers(s, a);
    } else if a.PumpTake? || a.PumpApply? || a.PumpAck? {
      QuietPump(s, a);
    } else {
      QuietEnvironment(s, a);
    }
  }

  lemma StepKeepsDispatches(s: Sys, a: Action)
    requires Dispatches(s)
    ensures Dispatches(Next(s, a))
  {
    if a.Begin? {
      BeginKeeps(s, a);
    } else if a.Pend? {
      StepMovesForward(s, a);
      PendKeeps(s, Next(s, a), a.tid);
    } else if a.Send? {
      if a.tid in s.threads && s.threads[a.tid].ToSend? {
        SendKeeps(s, Next(s, a), a.tid);
      }
    } else {
      StepMovesForward(s, a);
      QuietStep(s, a);
      QuietKeeps(s, Next(s, a));
    }
  }

  lemma {:induction false} RunKeepsDispatches(actions: seq<Action>)
    ensures Dispatches(Run(START, actions))
  {
    if |actions| > 0 {
      RunKeepsDispatches(actions[..|actions| - 1]);
      StepKeepsDispatches(Run(START, actions[..|actions| - 1]), actions[|actions| - 1]);
    }
  }

  /**
   In every run, two sends never share a project and idempotency key; each send asks for
   the invoice and amount of its row; and the row of a send has left `created`, so while it
   is not final the restart scan finds it.
   */
  lemma AtMostOneSendPerKey(actions: seq<Action>)
    ensures var s := Run(START, actions);
            && (forall k :: 0 <= k < |s.sends| ==>
                  && s.sends[k].payment < |s.db.payments|
                  && s.sends[k].invoice == s.db.payments[s.sends[k].payment].request.invoice
                  && AskedAmount(s.sends[k]) == Some(s.db.payments[s.sends[k].payment].request.amount)
                  && !s.db.payments[s.sends[k].payment].status.Created?
                  && (!IsFinal(s.db.payments[s.sends[k].payment].status) ==>
                        s.sends[k].payment in UnresolvedPayments(s.db.payments)))
            && (forall j, k :: 0 <= j < k < |s.sends| ==>
                  !(s.db.payments[s.sends[j].payment].project == s.db.payments[s.sends[k].payment].project
                    && s.db.payments[s.sends[j].payment].key == s.db.payments[s.sends[k].payment].key))
  {
    RunKeepsDispatches(actions);
    var s := Run(START, actions);
    forall j, k | 0 <= j < k < |s.sends|
      ensures !(s.db.payments[s.sends[j].payment].project == s.db.payments[s.sends[k].payment].project
                && s.db.payments[s.sends[j].payment].key == s.db.payments[s.sends[k].payment].key)
    {
      var p, q := s.sends[j].payment, s.sends[k].payment;
      assert p != q;
      if p < q {
        assert KeysUnique(s.db.payments);
      }
    }
  }

  /** A request under an unused key is begun. */
  lemma NewRequestBegins(s: Sys, s1: Sys, tid: nat, project: string, key: IdemKey, request: Request)
    requires tid !in s.threads && FindKey(s.db.payments, project, key).None?
    requires AmountOf(request.invoice, Some(request.amount)) == Ok(request.amount) && request.amount <= I64_MAX
    requires s1 == DoBegin(s, tid, project, key, request.invoice, Some(request.amount), request.metadata)
    ensures s1.db.payments == s.db.payments + [Payment(project, key, request, Created, None, None, None)]
    ensures s1.threads == s.threads[tid := ToPend(|s.db.payments|)]
    ensures s1.node == s.node && s1.sends == s.sends && s1.pump == s.pump
  {
  }

  /** A request under an unused key, with nothing in between, up to `pending`. */
  lemma NewRequestPends(s: Sys, s1: Sys, s2: Sys, tid: nat, project: string, key: IdemKey, request: Request)
    requires tid !in s.threads && FindKey(s.db.payments, project, key).None?
    requires AmountOf(request.invoice, Some(request.amount)) == Ok(request.amount) && request.amount <= I64_MAX
    requires s1 == DoBegin(s, tid, project, key, request.invoice, Some(request.amount), request.metadata)
    requires s2 == DoPend(s1, tid)
    ensures s1.db.payments == s.db.payments + [Payment(project, key, request, Created, None, None, None)]
    ensures s1.threads == s.threads[tid := ToPend(|s.db.payments|)]
    ensures s2.db.payments == s.db.payments + [Payment(project, key, request, Pending, None, None, None)]
    ensures s2.threads == s.threads[tid := ToSend(|s.db.payments|)]
    ensures s1.node == s.node && s1.sends == s.sends && s2.node == s.node && s2.sends == s.sends
  {
    NewRequestBegins(s, s1, tid, project, key, request);
    assert s1.threads[tid] == ToPend(|s.db.payments|);
  }
}
