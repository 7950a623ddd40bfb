/**
 A payment's final status tells what the node reported. This needs two things of a run:
 no payment hash is shared between rows, and no reconciler reads a `created` row while
 that row's own send is in progress. Each is shown to be needed.
 */
module OutcomeTruth {
  import opened Core
  import opened Ledger
  import opened Reconcile
  import opened PaymentProtocol
  import opened DispatchSafety

  predicate Unshared(payments: seq<Payment>) {
    forall i, j :: 0 <= i < j < |payments| ==> payments[i].Hash() != payments[j].Hash()
  }

  predicate HasSender(s: Sys, p: nat) {
    exists t :: t in s.threads && Sending(s.threads[t]) && s.threads[t].payment == p
  }

  /** A reconciler does not read a `created` row whose send is still in progress. */
  predicate Careful(s: Sys, a: Action) {
    (a.ReadRow? && a.payment < |s.db.payments| && s.db.payments[a.payment].status.Created?) ==>
      !HasSender(s, a.payment)
  }

  predicate CarefulRun(s: Sys, actions: seq<Action>) {
    |actions| == 0
    || (CarefulRun(s, actions[..|actions| - 1])
        && Careful(Run(s, actions[..|actions| - 1]), actions[|actions| - 1]))
  }

  predicate NodeHonest(n: Node) {
    && n.succeeded <= n.accepted && n.failed <= n.accepted && n.succeeded !! n.failed
    && (forall h :: h in n.records ==>
          && h in n.accepted
          && (n.records[h].status.NodeSucceeded? ==> h in n.succeeded)
          && (n.records[h].status.NodeFailed? ==> h in n.failed))
    && (forall k :: 0 <= k < |n.queue| ==>
          && (n.queue[k].PaymentSuccessful? ==> n.queue[k].hash in n.succeeded)
          && (n.queue[k].PaymentFailed? && n.queue[k].lost.Some? ==> n.queue[k].lost.value in n.failed))
  }

  predicate AcceptedWasSent(s: Sys) {
    forall h :: h in s.node.accepted ==> exists k :: 0 <= k < |s.sends| && s.sends[k].invoice.hash == h
  }

  /** The row was never sent and has no sender that could still send it. */
  predicate NeverSent(s: Sys, p: nat) {
    && (forall k :: 0 <= k < |s.sends| ==> s.sends[k].payment != p)
    && (forall t :: t in s.threads && (s.threads[t].ToPend? || s.threads[t].ToSend?) ==> s.threads[t].payment != p)
  }

  /** A final status is what the node reported; a failure may instead mean the node never took the payment. */
  predicate RowTrue(n: Node, row: Payment) {
    && (row.status.Succeeded? ==> row.Hash() in n.succeeded)
    && (row.status.Failed? ==> row.Hash() !in n.accepted || row.Hash() in n.failed)
  }

  predicate StatusesTrue(s: Sys) {
    forall p :: 0 <= p < |s.db.payments| ==> RowTrue(s.node, s.db.payments[p])
  }

  /** The verdict a reconciler holds is justified. */
  predicate VerdictTrue(s: Sys, p: nat, hash: string, next: PaymentStatus) {
    && Announced(next)
    && (next.Succeeded? ==> hash in s.node.succeeded)
    && (next.Failed? ==> hash in s.node.failed || NeverSent(s, p))
  }

  predicate ThreadTrue(s: Sys, t: Thread)
    requires t.payment < |s.db.payments|
  {
    var row := s.db.payments[t.payment];
    match t
    case ToPend(_) => true
    case ToSend(_) => row.status.Pending? || row.status.Unknown?
    case ToRefuse(_, _) => row.Hash() !in s.node.accepted
    case SawRow(p, seen) => seen.Created? ==> NeverSent(s, p)
    case ToPass(p, _, next, _) => VerdictTrue(s, p, row.Hash(), next)
    case ToWrite(p, _, next, _) => VerdictTrue(s, p, row.Hash(), next)
  }

  predicate ThreadsTrue(s: Sys)
    requires ThreadsGrounded(s)
  {
    forall t :: t in s.threads ==> ThreadTrue(s, s.threads[t])
  }

  /** The pump holds the row of the event at the head of the queue. */
  predicate PumpTrue(s: Sys)
    requires ThreadsGrounded(s)
  {
    s.pump.Found? ==>
      && |s.node.queue| > 0
      && var e, hash := s.node.queue[0], s.db.payments[s.pump.payment].Hash();
         (e.PaymentSuccessful? && e.hash == hash) || (e.PaymentFailed? && e.lost == Some(hash))
  }

  predicate Truthful(s: Sys) {
    && Dispatches(s)
    && NodeHonest(s.node)
    && AcceptedWasSent(s)
    && StatusesTrue(s)
    && ThreadsTrue(s)
    && PumpTrue(s)
  }

  /** With unshared hashes, a hash the node accepted belongs to a row that was sent. */
  lemma AcceptedRowWasSent(s: Sys, p: nat)
    requires Truthful(s) && Unshared(s.db.payments) && p < |s.db.payments|
    requires s.db.payments[p].Hash() in s.node.accepted
    ensures !NeverSent(s, p)
    ensures forall t :: t in s.threads && (s.threads[t].ToPend? || s.threads[t].ToSend?) ==> s.threads[t].payment != p
  {
    var k :| 0 <= k < |s.sends| && s.sends[k].invoice.hash == s.db.payments[p].Hash();
    var q := s.sends[k].payment;
    assert s.db.payments[q].Hash() == s.db.payments[p].Hash();
    assert p == q;
  }

  /** Row `p` may take status `next`: it was reported, or the node does not have the payment and never will. */
  predicate MayBecome(s: Sys, p: nat, next: PaymentStatus)
    requires p < |s.db.payments|
  {
    var hash := s.db.payments[p].Hash();
    || next == s.db.payments[p].status
    || next.Unknown?
    || (next.Succeeded? && hash in s.node.succeeded)
    || (next.Failed? && hash in s.node.failed)
    || (next.Failed? && hash !in s.node.accepted
        && forall t :: t in s.threads && s.threads[t].ToSend? ==> s.threads[t].payment != p)
  }

  lemma VerdictAllows(s: Sys, p: nat, next: PaymentStatus)
    requires Truthful(s) && Unshared(s.db.payments) && p < |s.db.payments|
    requires VerdictTrue(s, p, s.db.payments[p].Hash(), next)
    ensures MayBecome(s, p, next)
  {
    if s.db.payments[p].Hash() in s.node.accepted {
      AcceptedRowWasSent(s, p);
    }
  }

  lemma MovedThreadTrue(s: Sys, after: Sys, p: nat, t: nat)
    requires Truthful(s) && Unshared(s.db.payments) && p < |s.db.payments| && |after.db.payments| == |s.db.payments|
    requires forall i :: 0 <= i < |s.db.payments| && i != p ==> after.db.payments[i] == s.db.payments[i]
    requires after.db.payments[p].request == s.db.payments[p].request
    requires MayBecome(s, p, after.db.payments[p].status)
    requires after.node == s.node && after.sends == s.sends
    requires forall u :: u in after.threads ==> u in s.threads && after.threads[u] == s.threads[u]
    requires t in s.threads
    ensures ThreadTrue(after, s.threads[t])
  {
    assert ThreadTrue(s, s.threads[t]);
    var q := s.threads[t].payment;
    assert NeverSent(s, q) ==> NeverSent(after, q);
    if s.threads[t].ToSend? && q == p {
      if s.db.payments[p].Hash() in s.node.accepted {
        AcceptedRowWasSent(s, p);
        assert false;
      }
    }
  }

  /** Moving row `p` to a status it may take keeps everything true. */
  lemma MoveStaysTrue(s: Sys, after: Sys, p: nat)
    requires Truthful(s) && Unshared(s.db.payments) && Dispatches(after)
    requires p < |s.db.payments| && |after.db.payments| == |s.db.payments|
    requires forall i :: 0 <= i < |s.db.payments| && i != p ==> after.db.payments[i] == s.db.payments[i]
    requires after.db.payments[p].request == s.db.payments[p].request
    requires MayBecome(s, p, after.db.payments[p].status)
    requires after.node == s.node && after.sends == s.sends && (after.pump.Found? ==> after.pump == s.pump)
    requires forall t :: t in after.threads ==> t in s.threads && after.threads[t] == s.threads[t]
    ensures Truthful(after)
  {
    forall t | t in after.threads ensures ThreadTrue(after, after.threads[t]) {
      MovedThreadTrue(s, after, p, t);
    }
    forall i | 0 <= i < |s.db.payments| ensures RowTrue(after.node, after.db.payments[i]) {
      assert RowTrue(s.node, s.db.payments[i]);
    }
  }

  predicate MaySend(t: Thread) {
    t.ToPend? || t.ToSend?
  }

  /** A thread of `after` is as before, or new and true of `after`; a sender is an old one or has a new row. */
  predicate ThreadKept(s: Sys, after: Sys, t: nat)
    requires t in after.threads && after.threads[t].payment < |after.db.payments|
  {
    && ((t in s.threads && after.threads[t] == s.threads[t]) || ThreadTrue(after, after.threads[t]))
    && (MaySend(after.threads[t]) ==>
          || after.threads[t].payment >= |s.db.payments|
          || (t in s.threads && MaySend(s.threads[t]) && s.threads[t].payment == after.threads[t].payment))
  }

  /** What a step that sends nothing and gives no verdict leaves of rows, sends and the node. */
  predicate Quiet(s: Sys, after: Sys) {
    && after.node.accepted == s.node.accepted && after.sends == s.sends
    && s.node.succeeded <= after.node.succeeded && s.node.failed <= after.node.failed
    && |s.db.payments| <= |after.db.payments|
    && (forall i :: 0 <= i < |s.db.payments| ==>
          after.db.payments[i].request == s.db.payments[i].request
          && (after.db.payments[i].status == s.db.payments[i].status || after.db.payments[i].status.Pending?))
    && (forall i :: |s.db.payments| <= i < |after.db.payments| ==> after.db.payments[i].status.Created?)
  }

  /** With no new sender for old rows, a row never sent stays so. */
  lemma NeverSentStays(s: Sys, after: Sys, p: nat)
    requires after.sends == s.sends && p < |s.db.payments| && NeverSent(s, p)
    requires forall t :: t in after.threads && MaySend(after.threads[t]) ==>
      || after.threads[t].payment >= |s.db.payments|
      || (t in s.threads && MaySend(s.threads[t]) && s.threads[t].payment == after.threads[t].payment)
    ensures NeverSent(after, p)
  {
  }

  lemma OldThreadStaysTrue(s: Sys, after: Sys, t: Thread)
    requires Quiet(s, after) && t.payment < |s.db.payments| && ThreadTrue(s, t)
    requires NeverSent(s, t.payment) ==> NeverSent(after, t.payment)
    ensures ThreadTrue(after, t)
  {
  }

  /** Steps that send nothing and give no verdict: rows stay, become `pending`, or are new. */
  lemma QuietStaysTrue(s: Sys, after: Sys)
    requires Truthful(s) && Dispatches(after) && NodeHonest(after.node) && PumpTrue(after) && Quiet(s, after)
    requires forall t :: t in after.threads ==> ThreadKept(s, after, t)
    ensures Truthful(after)
  {
    forall t | t in after.threads ensures ThreadTrue(after, after.threads[t]) {
      assert ThreadKept(s, after, t);
      if t in s.threads && after.threads[t] == s.threads[t] {
        assert ThreadTrue(s, s.threads[t]);
        if NeverSent(s, s.threads[t].payment) {
          NeverSentStays(s, after, s.threads[t].payment);
        }
        OldThreadStaysTrue(s, after, s.threads[t]);
      }
    }
    forall i | 0 <= i < |after.db.payments| ensures RowTrue(after.node, after.db.payments[i]) {
      if i < |s.db.payments| {
        assert RowTrue(s.node, s.db.payments[i]);
      }
    }
  }

  lemma BegunStaysTrue(s: Sys, after: Sys, tid: nat, row: Payment)
    requires Truthful(s) && Dispatches(after) && row.status.Created?
    requires after.node == s.node && after.sends == s.sends && after.pump == s.pump
    requires after.db.payments == s.db.payments + [row]
    requires after.threads == s.threads[tid := ToPend(|s.db.payments|)]
    ensures Truthful(after)
  {
    QuietStaysTrue(s, after);
  }

  lemma BeginEffect(s: Sys, a: Action)
    requires a.Begin?
    ensures var after := Next(s, a);
            after == s ||
            (after.node == s.node && after.sends == s.sends && after.pump == s.pump
             && |after.db.payments| == |s.db.payments| + 1
             && after.db.payments == s.db.payments + [after.db.payments[|s.db.payments|]]
             && after.db.payments[|s.db.payments|].status.Created?
             && after.threads == s.threads[a.tid := ToPend(|s.db.payments|)])
  {
  }

  lemma BeginStaysTrue(s: Sys, a: Action, after: Sys)
    requires Truthful(s) && a.Begin? && after == Next(s, a) && Dispatches(after)
    ensures Truthful(after)
  {
    BeginEffect(s, a);
    if after != s {
      BegunStaysTrue(s, after, a.tid, after.db.payments[|s.db.payments|]);
    }
  }

  /** Only thread `tid` acted, and rows at most became `pending`. */
  predicate OnlyThread(s: Sys, after: Sys, tid: nat) {
    && after.node == s.node && after.sends == s.sends && after.pump == s.pump
    && |after.db.payments| == |s.db.payments|
    && (forall i :: 0 <= i < |s.db.payments| ==>
          after.db.payments[i].request == s.db.payments[i].request
          && (after.db.payments[i].status == s.db.payments[i].status || after.db.payments[i].status.Pending?))
    && (forall t :: t in after.threads ==> t in s.threads && (t != tid ==> after.threads[t] == s.threads[t]))
  }

  lemma OnlyThreadStaysTrue(s: Sys, after: Sys, tid: nat)
    requires Truthful(s) && Dispatches(after) && OnlyThread(s, after, tid)
    requires tid in after.threads ==> ThreadKept(s, after, tid)
    ensures Truthful(after)
  {
    QuietStaysTrue(s, after);
  }

  lemma PendEffect(s: Sys, tid: nat)
    requires ThreadsGrounded(s) && tid in s.threads && s.threads[tid].ToPend?
    ensures var after := DoPend(s, tid);
            && OnlyThread(s, after, tid)
            && (tid in after.threads ==>
                  after.threads[tid] == ToSend(s.threads[tid].payment)
                  && after.db.payments[s.threads[tid].payment].status.Pending?)
  {
  }

  lemma PassEffect(s: Sys, tid: nat)
    requires ThreadsGrounded(s) && tid in s.threads && s.threads[tid].ToPass?
    ensures var after, t := DoPass(s, tid), s.threads[tid];
            && OnlyThread(s, after, tid)
            && (tid in after.threads ==> after.threads[tid] == ToWrite(t.payment, t.seen, t.next, t.res))
  {
  }

  lemma ReadViewEffect(s: Sys, tid: nat)
    requires ThreadsGrounded(s) && tid in s.threads && s.threads[tid].SawRow?
    ensures var after, t := DoReadView(s, tid), s.threads[tid];
            var record := Look(s.node.records, s.db.payments[t.payment].Hash());
            && OnlyThread(s, after, tid)
            && after.db == s.db
            && (tid in after.threads ==>
                  && (after.threads[tid].ToPass? || after.threads[tid].ToWrite?)
                  && after.threads[tid].payment == t.payment
                  && Announced(after.threads[tid].next)
                  && (after.threads[tid].next.Succeeded? ==> record.Some? && record.value.status.NodeSucceeded?)
                  && (after.threads[tid].next.Failed? ==>
                        (record.Some? && record.value.status.NodeFailed?) || t.seen.Created?))
  {
  }

  lemma VerdictKept(s: Sys, after: Sys, tid: nat)
    requires Truthful(s) && Dispatches(after) && OnlyThread(s, after, tid) && tid in after.threads
    requires after.threads[tid].ToPass? || after.threads[tid].ToWrite?
    requires after.threads[tid].payment < |s.db.payments|
    requires VerdictTrue(s, after.threads[tid].payment,
                         s.db.payments[after.threads[tid].payment].Hash(), after.threads[tid].next)
    ensures ThreadKept(s, after, tid)
  {
    var p := after.threads[tid].payment;
    if NeverSent(s, p) {
      NeverSentStays(s, after, p);
    }
  }

  /** The node took the payment or not; nothing else about it changed. */
  predicate NodeAsked(n: Node, after: Node, hash: string) {
    && after.succeeded == n.succeeded && after.failed == n.failed && after.queue == n.queue
    && (after == n
        || (after.accepted == n.accepted + {hash}
            && after.records == n.records[hash := NodeRecord(NodePending, None, None)]))
  }

  lemma SentStaysTrue(s: Sys, after: Sys, tid: nat)
    requires Truthful(s) && Unshared(s.db.payments) && Dispatches(after)
    requires tid in s.threads && s.threads[tid].ToSend?
    requires after.db == s.db && after.pump == s.pump
    requires NodeAsked(s.node, after.node, s.db.payments[s.threads[tid].payment].Hash())
    requires |after.sends| == |s.sends| + 1 && after.sends[..|s.sends|] == s.sends
    requires after.sends[|s.sends|].payment == s.threads[tid].payment
    requires after.sends[|s.sends|].invoice == s.db.payments[s.threads[tid].payment].request.invoice
    requires forall t :: t in after.threads && t != tid ==> t in s.threads && after.threads[t] == s.threads[t]
    requires tid in after.threads ==>
      after.node == s.node && after.threads[tid].ToRefuse? && after.threads[tid].payment == s.threads[tid].payment
    ensures Truthful(after)
  {
    var p := s.threads[tid].payment;
    assert ThreadTrue(s, s.threads[tid]);
    SentHashIsNew(s, tid);
    SendKeepsAccepted(s, after, p);
    SendKeepsRows(s, after, p);
    forall t | t in after.threads ensures ThreadTrue(after, after.threads[t]) {
      if t != tid {
        SendKeepsThread(s, after, tid, t);
      }
    }
  }

  lemma SendStaysTrue(s: Sys, tid: nat, accept: bool, reason: string)
    requires Truthful(s) && Unshared(s.db.payments) && Dispatches(DoSend(s, tid, accept, reason))
    requires tid in s.threads && s.threads[tid].ToSend?
    ensures Truthful(DoSend(s, tid, accept, reason))
  {
    SentStaysTrue(s, DoSend(s, tid, accept, reason), tid);
  }

  lemma SentHashIsNew(s: Sys, tid: nat)
    requires Truthful(s) && Unshared(s.db.payments) && tid in s.threads && s.threads[tid].ToSend?
    ensures s.db.payments[s.threads[tid].payment].Hash() !in s.node.accepted
  {
    var p := s.threads[tid].payment;
    if s.db.payments[p].Hash() in s.node.accepted {
      AcceptedRowWasSent(s, p);
      assert false;
    }
  }

  lemma SendKeepsAccepted(s: Sys, after: Sys, p: nat)
    requires AcceptedWasSent(s) && p < |s.db.payments|
    requires |after.sends| == |s.sends| + 1 && after.sends[..|s.sends|] == s.sends
    requires after.sends[|s.sends|].invoice.hash == s.db.payments[p].Hash()
    requires after.node.accepted <= s.node.accepted + {s.db.payments[p].Hash()}
    ensures AcceptedWasSent(after)
  {
    forall h | h in after.node.accepted
      ensures exists k :: 0 <= k < |after.sends| && after.sends[k].invoice.hash == h
    {
      if h in s.node.accepted {
        var k :| 0 <= k < |s.sends| && s.sends[k].invoice.hash == h;
        assert after.sends[k] == s.sends[k];
      }
    }
  }

  lemma SendKeepsRows(s: Sys, after: Sys, p: nat)
    requires StatusesTrue(s) && Unshared(s.db.payments) && p < |s.db.payments|
    requires after.db == s.db && !IsFinal(s.db.payments[p].status)
    requires after.node.succeeded == s.node.succeeded && after.node.failed == s.node.failed
    requires after.node.accepted <= s.node.accepted + {s.db.payments[p].Hash()}
    ensures StatusesTrue(after)
  {
    forall i | 0 <= i < |s.db.payments| ensures RowTrue(after.node, s.db.payments[i]) {
      assert RowTrue(s.node, s.db.payments[i]);
      assert i != p ==> s.db.payments[i].Hash() != s.db.payments[p].Hash();
    }
  }

  lemma SendKeepsThread(s: Sys, after: Sys, tid: nat, t: nat)
    requires Truthful(s) && Unshared(s.db.payments) && tid in s.threads && s.threads[tid].ToSend?
    requires t in s.threads && t != tid && after.db == s.db
    requires |after.sends| == |s.sends| + 1 && after.sends[..|s.sends|] == s.sends
    requires after.sends[|s.sends|].payment == s.threads[tid].payment
    requires after.node.succeeded == s.node.succeeded && after.node.failed == s.node.failed
    requires after.node.accepted <= s.node.accepted + {s.db.payments[s.threads[tid].payment].Hash()}
    requires forall u :: u in after.threads && MaySend(after.threads[u]) ==> u in s.threads && after.threads[u] == s.threads[u]
    ensures ThreadTrue(after, s.threads[t])
  {
    assert ThreadTrue(s, s.threads[t]);
    var p, q := s.threads[tid].payment, s.threads[t].payment;
    assert q != p ==> s.db.payments[q].Hash() != s.db.payments[p].Hash();
    if NeverSent(s, q) {
      assert q != p;
      forall k | 0 <= k < |after.sends| ensures after.sends[k].payment != q {
        if k < |s.sends| {
          assert after.sends[k] == s.sends[k];
        }
      }
      assert NeverSent(after, q);
    }
  }

  lemma ReadRowStaysTrue(s: Sys, after: Sys, tid: nat, p: nat)
    requires Truthful(s) && Dispatches(after) && after == DoReadRow(s, tid, p) && Careful(s, ReadRow(tid, p))
    ensures Truthful(after)
  {
    if after != s {
      if s.db.payments[p].status.Created? {
        assert NeverSent(s, p);
        assert NeverSent(after, p);
      }
      QuietStaysTrue(s, after);
    }
  }

  lemma PendStaysTrue(s: Sys, after: Sys, tid: nat)
    requires Truthful(s) && Dispatches(after) && after == DoPend(s, tid)
    ensures Truthful(after)
  {
    if tid in s.threads && s.threads[tid].ToPend? {
      PendEffect(s, tid);
      OnlyThreadStaysTrue(s, after, tid);
    }
  }

  lemma PassStaysTrue(s: Sys, after: Sys, tid: nat)
    requires Truthful(s) && Dispatches(after) && after == DoPass(s, tid)
    ensures Truthful(after)
  {
    if tid in s.threads && s.threads[tid].ToPass? {
      assert ThreadTrue(s, s.threads[tid]);
      PassEffect(s, tid);
      if tid in after.threads {
        VerdictKept(s, after, tid);
      }
      OnlyThreadStaysTrue(s, after, tid);
    }
  }

  lemma ReadViewStaysTrue(s: Sys, after: Sys, tid: nat)
    requires Truthful(s) && Dispatches(after) && after == DoReadView(s, tid)
    ensures Truthful(after)
  {
    if tid in s.threads && s.threads[tid].SawRow? {
      assert ThreadTrue(s, s.threads[tid]);
      ReadViewEffect(s, tid);
      if tid in after.threads {
        VerdictKept(s, after, tid);
      }
      OnlyThreadStaysTrue(s, after, tid);
    }
  }

  /** What a storage move of row `p` does to the rows. */
  lemma MoveTouchesOneRow(db: Db, key: Option<DedupeKey>, p: nat, next: PaymentStatus, res: Resolution)
    requires p < |db.payments|
    ensures var after := TransitionPayment(db, key, p, next, res).0.payments;
            && |after| == |db.payments| && after[p].request == db.payments[p].request
            && (forall i :: 0 <= i < |db.payments| && i != p ==> after[i] == db.payments[i])
            && (after[p].status == db.payments[p].status || after[p].status == next)
  {
  }

  lemma RefuseStaysTrue(s: Sys, tid: nat)
    requires Truthful(s) && Unshared(s.db.payments) && Dispatches(DoRefuse(s, tid))
    requires tid in s.threads && s.threads[tid].ToRefuse?
    ensures Truthful(DoRefuse(s, tid))
  {
    var t := s.threads[tid];
    assert ThreadTrue(s, t);
    MoveTouchesOneRow(s.db, None, t.payment, Failed, Resolution(None, Some(t.reason), None));
    MoveStaysTrue(s, DoRefuse(s, tid), t.payment);
  }

  lemma WriteStaysTrue(s: Sys, after: Sys, tid: nat)
    requires Truthful(s) && Unshared(s.db.payments) && after == DoWrite(s, tid) && Dispatches(after)
    ensures Truthful(after)
  {
    if tid in s.threads && s.threads[tid].ToWrite? {
      var t := s.threads[tid];
      assert ThreadTrue(s, t);
      MoveTouchesOneRow(s.db, None, t.payment, t.next, t.res);
      VerdictAllows(s, t.payment, t.next);
      MoveStaysTrue(s, after, t.payment);
    }
  }

  /** The pump stays, ends up with nothing in hand, or holds the row of the event at the head. */
  predicate PumpTook(s: Sys, after: Sys) {
    && after.db.payments == s.db.payments && after.threads == s.threads
    && after.node == s.node && after.sends == s.sends
    && (after.pump == s.pump || !after.pump.Found? || (ThreadsGrounded(after) && PumpTrue(after)))
  }

  lemma PumpTakeEffect(s: Sys, after: Sys)
    requires ThreadsGrounded(s) && after == DoPumpTake(s)
    ensures PumpTook(s, after)
  {
  }

  lemma PumpTakeStaysTrue(s: Sys, after: Sys)
    requires Truthful(s) && Dispatches(after) && PumpTook(s, after)
    ensures Truthful(after)
  {
    QuietStaysTrue(s, after);
  }

  lemma PumpApplyStaysTrue(s: Sys)
    requires Truthful(s) && Unshared(s.db.payments) && Dispatches(DoPumpApply(s)) && s.pump.Found?
    ensures Truthful(DoPumpApply(s))
  {
    var p := s.pump.payment;
    match s.node.queue[0]
    case PaymentSuccessful(_, preimage, fee) =>
      MoveTouchesOneRow(s.db, Some(SentOk(p)), p, Succeeded, Resolution(fee, None, preimage));
      MoveStaysTrue(s, DoPumpApply(s), p);
    case PaymentFailed(_, reason) =>
      MoveTouchesOneRow(s.db, Some(SentFail(p)), p, Failed, Resolution(None, Some(reason), None));
      MoveStaysTrue(s, DoPumpApply(s), p);
  }

  lemma ReportStaysHonest(s: Sys, a: Action)
    requires NodeHonest(s.node) && (a.Report? || a.Forget? || a.Enqueue? || a.PumpAck?)
    ensures NodeHonest(Next(s, a).node)
  {
  }

  /** Rows and sends are untouched, threads only retire, and the node only reports. */
  predicate Aside(s: Sys, after: Sys) {
    && after.db.payments == s.db.payments && after.sends == s.sends
    && after.node.accepted == s.node.accepted
    && s.node.succeeded <= after.node.succeeded && s.node.failed <= after.node.failed
    && (forall t :: t in after.threads ==> t in s.threads && after.threads[t] == s.threads[t])
    && (after.pump.Found? ==>
          after.pump == s.pump && (|s.node.queue| > 0 ==> |after.node.queue| > 0 && after.node.queue[0] == s.node.queue[0]))
  }

  lemma EnvironmentIsAside(s: Sys, a: Action)
    requires a.Abandon? || a.Crash? || a.Report? || a.Forget? || a.Enqueue? || a.OtherTxn? || a.PumpAck?
    ensures Aside(s, Next(s, a))
  {
    if a.OtherTxn? && Elsewhere(a.txn) {
      ElsewhereKeepsPayments(s.db, a.txn);
    }
  }

  lemma AsideStaysTrue(s: Sys, after: Sys)
    requires Truthful(s) && Dispatches(after) && NodeHonest(after.node) && Aside(s, after)
    ensures Truthful(after)
  {
    QuietStaysTrue(s, after);
  }

  lemma EnvironmentStaysTrue(s: Sys, a: Action, after: Sys)
    requires Truthful(s) && after == Next(s, a) && Dispatches(after)
    requires a.Abandon? || a.Crash? || a.Report? || a.Forget? || a.Enqueue? || a.OtherTxn? || a.PumpAck?
    ensures Truthful(after)
  {
    EnvironmentIsAside(s, a);
    if a.Report? || a.Forget? || a.Enqueue? || a.PumpAck? {
      ReportStaysHonest(s, a);
    }
    AsideStaysTrue(s, after);
  }

  lemma SenderStepStaysTrue(s: Sys, a: Action, after: Sys)
    requires Truthful(s) && Unshared(s.db.payments) && after == Next(s, a) && Dispatches(after)
    requires a.Begin? || a.Pend? || a.Send? || a.Refuse?
    ensures Truthful(after)
  {
    match a
    case Begin(_, _, _, _, _, _) => BeginStaysTrue(s, a, after);
    case Pend(tid) => PendStaysTrue(s, after, tid);
    case Send(tid, accept, reason) =>
      if tid in s.threads && s.threads[tid].ToSend? {
        SendStaysTrue(s, tid, accept, reason);
      }
    case Refuse(tid) =>
      if tid in s.threads && s.threads[tid].ToRefuse? {
        RefuseStaysTrue(s, tid);
      }
  }

  lemma ReconcilerStepStaysTrue(s: Sys, a: Action, after: Sys)
    requires Truthful(s) && Careful(s, a) && Unshared(s.db.payments) && after == Next(s, a) && Dispatches(after)
    requires a.ReadRow? || a.ReadView? || a.Pass? || a.Write?
    ensures Truthful(after)
  {
    match a
    case ReadRow(tid, p) => ReadRowStaysTrue(s, after, tid, p);
    case ReadView(tid) => ReadViewStaysTrue(s, after, tid);
    case Pass(tid) => PassStaysTrue(s, after, tid);
    case Write(tid) => WriteStaysTrue(s, after, tid);
  }

  lemma StepStaysTrue(s: Sys, a: Action)
    requires Truthful(s) && Careful(s, a) && Unshared(s.db.payments)
    ensures Truthful(Next(s, a))
  {
    StepKeepsDispatches(s, a);
    if a.Begin? || a.Pend? || a.Send? || a.Refuse? {
      SenderStepStaysTrue(s, a, Next(s, a));
    } else if a.ReadRow? || a.ReadView? || a.Pass? || a.Write? {
      ReconcilerStepStaysTrue(s, a, Next(s, a));
    } else if a.PumpTake? {
      PumpTakeEffect(s, Next(s, a));
      PumpTakeStaysTrue(s, Next(s, a));
    } else if a.PumpApply? {
      if s.pump.Found? {
        PumpApplyStaysTrue(s);
      }
    } else {
      EnvironmentStaysTrue(s, a, Next(s, a));
    }
  }

  lemma {:induction false} RunStaysTrue(s: Sys, actions: seq<Action>)
    requires Truthful(s) && CarefulRun(s, actions) && Unshared(Run(s, actions).db.payments)
    ensures Truthful(Run(s, actions))
  {
    if |actions| > 0 {
      var before := Run(s, actions[..|actions| - 1]);
      StepMovesForward(before, actions[|actions| - 1]);
      RunStaysTrue(s, actions[..|actions| - 1]);
      StepStaysTrue(before, actions[|actions| - 1]);
    }
  }

  lemma StartIsTruthful()
    ensures Truthful(START)
  {
  }

  /**
   In every careful run with unshared hashes, a payment is `succeeded` only after the node
   reported success, and a payment the node accepted is `failed` only after the node
   reported failure, whatever records the node lost on the way. The two reports never both
   happen.
   */
  lemma FinalStatusIsWhatTheNodeReported(actions: seq<Action>)
    requires CarefulRun(START, actions) && Unshared(Run(START, actions).db.payments)
    ensures var s := Run(START, actions);
            && s.node.succeeded !! s.node.failed
            && forall p :: 0 <= p < |s.db.payments| ==>
                 var row := s.db.payments[p];
                 && (row.status.Succeeded? ==> row.Hash() in s.node.succeeded)
                 && (row.status.Failed? && row.Hash() in s.node.accepted ==> row.Hash() in s.node.failed)
                 && (row.Hash() in s.node.accepted - s.node.succeeded - s.node.failed ==>
                       row.status.Pending? || row.status.Unknown?)
  {
    StartIsTruthful();
    RunStaysTrue(START, actions);
    var s := Run(START, actions);
    forall p | 0 <= p < |s.db.payments|
      ensures RowTrue(s.node, s.db.payments[p])
      ensures s.db.payments[p].Hash() in s.node.accepted ==> !s.db.payments[p].status.Created?
    {
      if s.db.payments[p].Hash() in s.node.accepted {
        AcceptedHasLeftCreated(s, p);
      }
    }
  }

  lemma AcceptedHasLeftCreated(s: Sys, p: nat)
    requires Truthful(s) && Unshared(s.db.payments) && p < |s.db.payments|
    requires s.db.payments[p].Hash() in s.node.accepted
    ensures !s.db.payments[p].status.Created?
  {
    var k :| 0 <= k < |s.sends| && s.sends[k].invoice.hash == s.db.payments[p].Hash();
    assert s.db.payments[s.sends[k].payment].Hash() == s.db.payments[p].Hash();
  }

  // --------------------------------------------- reconciling at startup only

  /** Whether the process has begun a request since it last started. */
  predicate Serving(actions: seq<Action>) {
    |actions| > 0 &&
    match actions[|actions| - 1]
    case Crash => false
    case Begin(_, _, _, _, _, _) => true
    case _ => Serving(actions[..|actions| - 1])
  }

  predicate ReconcilesAtStartup(actions: seq<Action>) {
    forall k :: 0 <= k < |actions| && actions[k].ReadRow? ==> !Serving(actions[..k])
  }

  lemma {:induction false} NoSendersBeforeServing(actions: seq<Action>)
    requires !Serving(actions)
    ensures forall t :: t in Run(START, actions).threads ==> !Sending(Run(START, actions).threads[t])
  {
    if |actions| > 0 && !actions[|actions| - 1].Crash? {
      NoSendersBeforeServing(actions[..|actions| - 1]);
    }
  }

  /**
   A schedule that reconciles before it accepts traffic, as the daemon's startup does, is
   careful. The daemon also serves a reconcile route at any time, which is not.
   */
  lemma {:induction false} StartupReconciliationIsCareful(actions: seq<Action>)
    requires ReconcilesAtStartup(actions)
    ensures CarefulRun(START, actions)
  {
    if |actions| > 0 {
      var rest := actions[..|actions| - 1];
      forall k | 0 <= k < |rest| && rest[k].ReadRow? ensures !Serving(rest[..k]) {
        assert rest[..k] == actions[..k];
      }
      StartupReconciliationIsCareful(rest);
      if actions[|actions| - 1].ReadRow? {
        NoSendersBeforeServing(rest);
      }
    }
  }

  // ------------------------------------------------ the conditions are needed

  /** A row in `created` has its sender, if any, still before `pending`, and its hash unknown to the node. */
  lemma CreatedIsUnsent(s: Sys, p: nat, sender: nat)
    requires Truthful(s) && Unshared(s.db.payments)
    requires p < |s.db.payments| && s.db.payments[p].status.Created?
    requires sender in s.threads && Sending(s.threads[sender]) && s.threads[sender].payment == p
    ensures s.threads[sender] == ToPend(p)
    ensures s.db.payments[p].Hash() !in s.node.accepted && s.db.payments[p].Hash() !in s.node.records
  {
    if s.db.payments[p].Hash() in s.node.accepted {
      AcceptedRowWasSent(s, p);
      assert false;
    }
  }

  lemma ReadsNothing(s: Sys, s1: Sys, s2: Sys, p: nat, reader: nat)
    requires p < |s.db.payments| && s.db.payments[p].status.Created? && reader !in s.threads
    requires s.db.payments[p].Hash() !in s.node.records
    requires s1 == DoReadRow(s, reader, p) && s2 == DoReadView(s1, reader)
    ensures s2.db == s.db && s2.node == s.node
    ensures reader in s2.threads && s2.threads[reader].ToWrite?
         && s2.threads[reader].payment == p && s2.threads[reader].next.Failed? && s2.threads[reader].res.fee.None?
    ensures forall t :: t in s.threads ==> t in s2.threads && s2.threads[t] == s.threads[t]
  {
    assert s1.threads[reader] == SawRow(p, Created);
  }

  lemma SendsAnyway(s2: Sys, s3: Sys, s4: Sys, p: nat, sender: nat, reader: nat)
    requires p < |s2.db.payments| && s2.db.payments[p].status.Created? && sender != reader
    requires sender in s2.threads && s2.threads[sender] == ToPend(p) && reader in s2.threads
    requires s3 == DoPend(s2, sender) && s4 == DoSend(s3, sender, true, "")
    ensures |s4.db.payments| == |s2.db.payments|
    ensures s4.db.payments[p] == s2.db.payments[p].(status := Pending)
    ensures s4.node.accepted == s2.node.accepted + {s2.db.payments[p].Hash()} && s4.node.failed == s2.node.failed
    ensures forall i :: 0 <= i < |s2.db.payments| ==> s4.db.payments[i].Hash() == s2.db.payments[i].Hash()
    ensures reader in s4.threads && s4.threads[reader] == s2.threads[reader]
  {
    assert s3.threads[sender] == ToSend(p) && s3.db.payments[p].status.Pending?;
    assert s3.threads[reader] == s2.threads[reader];
  }

  lemma WritesAnyway(s4: Sys, s5: Sys, p: nat, reader: nat)
    requires p < |s4.db.payments| && s4.db.payments[p].status.Pending? && reader in s4.threads
    requires s4.threads[reader].ToWrite? && s4.threads[reader].payment == p && s4.threads[reader].next.Failed?
    requires s4.threads[reader].res.fee.None? && s5 == DoWrite(s4, reader)
    ensures s5.node == s4.node && |s5.db.payments| == |s4.db.payments| && s5.db.payments[p].status.Failed?
    ensures forall i :: 0 <= i < |s4.db.payments| ==> s5.db.payments[i].Hash() == s4.db.payments[i].Hash()
  {
  }

  lemma SameHashesAreUnshared(payments: seq<Payment>, after: seq<Payment>)
    requires Unshared(payments) && |after| == |payments|
    requires forall i :: 0 <= i < |payments| ==> after[i].Hash() == payments[i].Hash()
    ensures Unshared(after)
  {
  }

  /**
   Reading a `created` row whose sender is live is exactly what must not happen: from any
   truthful state the read can be continued to a payment that is `failed` although the node
   accepted it and never reported failure.
   */
  lemma StaleReadBreaksTruth(
    s: Sys, s1: Sys, s2: Sys, s3: Sys, s4: Sys, s5: Sys, p: nat, sender: nat, reader: nat)
    requires Truthful(s) && Unshared(s.db.payments)
    requires p < |s.db.payments| && s.db.payments[p].status.Created?
    requires sender in s.threads && Sending(s.threads[sender]) && s.threads[sender].payment == p
    requires reader !in s.threads
    requires s1 == DoReadRow(s, reader, p) && s2 == DoReadView(s1, reader)
    requires s3 == DoPend(s2, sender) && s4 == DoSend(s3, sender, true, "") && s5 == DoWrite(s4, reader)
    ensures p < |s5.db.payments| && s5.db.payments[p].status.Failed?
    ensures s5.db.payments[p].Hash() in s5.node.accepted && s5.db.payments[p].Hash() !in s5.node.failed
    ensures Unshared(s5.db.payments)
  {
    CreatedIsUnsent(s, p, sender);
    ReadsNothing(s, s1, s2, p, reader);
    SendsAnyway(s2, s3, s4, p, sender, reader);
    WritesAnyway(s4, s5, p, reader);
    SameHashesAreUnshared(s.db.payments, s5.db.payments);
  }

  /** Nothing that can follow, carefully and with unshared hashes, ever makes a status false. */
  ghost predicate TrueEverAfter(s: Sys) {
    forall actions: seq<Action> ::
      CarefulRun(s, actions) && Unshared(Run(s, actions).db.payments) ==> StatusesTrue(Run(s, actions))
  }

  lemma OneMoreAction(s: Sys, actions: seq<Action>, a: Action)
    ensures Run(s, actions + [a]) == Next(Run(s, actions), a)
    ensures CarefulRun(s, actions + [a]) <==> CarefulRun(s, actions) && Careful(Run(s, actions), a)
  {
    assert (actions + [a])[..|actions|] == actions;
  }

  /** What can follow a careless read: the reader sees no record, the send goes out, the reader writes. */
  function Careless(sender: nat, reader: nat): seq<Action> {
    [ReadView(reader), Pend(sender), Send(sender, true, ""), Write(reader)]
  }

  lemma CarelessRun(s: Sys, s1: Sys, s2: Sys, s3: Sys, s4: Sys, sender: nat, reader: nat)
    requires s1 == DoReadView(s, reader) && s2 == DoPend(s1, sender)
    requires s3 == DoSend(s2, sender, true, "") && s4 == DoWrite(s3, reader)
    ensures Run(s, Careless(sender, reader)) == s4 && CarefulRun(s, Careless(sender, reader))
  {
    var a, b, c, d := ReadView(reader), Pend(sender), Send(sender, true, ""), Write(reader);
    OneMoreAction(s, [], a);
    OneMoreAction(s, [a], b);
    OneMoreAction(s, [a, b], c);
    OneMoreAction(s, [a, b, c], d);
    assert [] + [a] == [a] && [a] + [b] == [a, b] && [a, b] + [c] == [a, b, c] && [a, b, c] + [d] == [a, b, c, d];
  }

  lemma FalseLater(s: Sys, actions: seq<Action>, end: Sys, p: nat)
    requires CarefulRun(s, actions) && end == Run(s, actions) && Unshared(end.db.payments)
    requires p < |end.db.payments| && !RowTrue(end.node, end.db.payments[p])
    ensures !TrueEverAfter(s)
  {
    assert !StatusesTrue(end);
  }

  /**
   The condition on a reconciler's read is exact. From any truthful state, reading an open
   row leaves every careful future true if and only if the row is not a `created` one whose
   send is still in progress.
   */
  lemma ReadIsSafeExactlyWhenCareful(s: Sys, s1: Sys, p: nat, reader: nat)
    requires Truthful(s) && Unshared(s.db.payments) && p < |s.db.payments| && reader !in s.threads
    requires s1 == Next(s, ReadRow(reader, p))
    ensures Careful(s, ReadRow(reader, p)) <==> TrueEverAfter(s1)
  {
    if Careful(s, ReadRow(reader, p)) {
      StepStaysTrue(s, ReadRow(reader, p));
      forall actions: seq<Action> | CarefulRun(s1, actions) && Unshared(Run(s1, actions).db.payments)
        ensures StatusesTrue(Run(s1, actions))
      {
        RunStaysTrue(s1, actions);
      }
    } else {
      var sender :| sender in s.threads && Sending(s.threads[sender]) && s.threads[sender].payment == p;
      CarelessReadIsRegretted(s, s1, p, sender, reader);
    }
  }

  lemma CarelessReadIsRegretted(s: Sys, s1: Sys, p: nat, sender: nat, reader: nat)
    requires Truthful(s) && Unshared(s.db.payments)
    requires p < |s.db.payments| && s.db.payments[p].status.Created?
    requires sender in s.threads && Sending(s.threads[sender]) && s.threads[sender].payment == p
    requires reader !in s.threads && s1 == DoReadRow(s, reader, p)
    ensures !TrueEverAfter(s1)
  {
    var s2 := DoReadView(s1, reader);
    var s3 := DoPend(s2, sender);
    var s4 := DoSend(s3, sender, true, "");
    var s5 := DoWrite(s4, reader);
    StaleReadBreaksTruth(s, s1, s2, s3, s4, s5, p, sender, reader);
    CarelessRun(s1, s2, s3, s4, s5, sender, reader);
    FalseLater(s1, Careless(sender, reader), s5, p);
  }

  lemma RequestStaysTrue(s: Sys, after: Sys, a: Action)
    requires Truthful(s) && a.Begin? && after == Next(s, a)
    ensures Truthful(after)
  {
    StepKeepsDispatches(s, a);
    BeginStaysTrue(s, a, after);
  }

  /** The first request from the initial state is already such a state. */
  lemma FirstRequestCanBeRead(s: Sys, project: string, key: IdemKey, request: Request)
    requires AmountOf(request.invoice, Some(request.amount)) == Ok(request.amount)
    requires s == DoBegin(START, 0, project, key, request.invoice, Some(request.amount), request.metadata)
    ensures Truthful(s) && Unshared(s.db.payments)
    ensures |s.db.payments| == 1 && s.db.payments[0].status.Created? && s.threads == map[0 := ToPend(0)]
  {
    StartIsTruthful();
    NewRequestBegins(START, s, 0, project, key, request);
    RequestStaysTrue(START, s, Begin(0, project, key, request.invoice, Some(request.amount), request.metadata));
  }

  /**
   Unshared hashes are needed too: once a payment is accepted, a second request for the same
   invoice that the node refuses is stored `failed` under a hash the node accepted.
   */
  lemma SharedHashBreaksTruth(
    s: Sys, s1: Sys, s2: Sys, s3: Sys, s4: Sys, p: nat, tid: nat, project: string, key: IdemKey)
    requires Truthful(s) && p < |s.db.payments|
    requires s.db.payments[p].Hash() in s.node.accepted && s.db.payments[p].Hash() !in s.node.failed
    requires tid !in s.threads && FindKey(s.db.payments, project, key).None?
    requires var request := s.db.payments[p].request;
             && AmountOf(request.invoice, Some(request.amount)) == Ok(request.amount) && request.amount <= I64_MAX
             && s1 == DoBegin(s, tid, project, key, request.invoice, Some(request.amount), request.metadata)
    requires s2 == DoPend(s1, tid) && s3 == DoSend(s2, tid, false, "duplicate_payment") && s4 == DoRefuse(s3, tid)
    ensures |s4.db.payments| == |s.db.payments| + 1
    ensures var row := s4.db.payments[|s.db.payments|];
            row.status.Failed? && row.Hash() in s4.node.accepted && row.Hash() !in s4.node.failed
  {
    NewRequestPends(s, s1, s2, tid, project, key, s.db.payments[p].request);
    assert s3.threads[tid] == ToRefuse(|s.db.payments|, "duplicate_payment") && s3.db == s2.db;
    MoveTouchesOneRow(s3.db, None, |s.db.payments|, Failed, Resolution(None, Some("duplicate_payment"), None));
  }

  /** A first payment taken by the node is a state from which that happens. */
  lemma FirstSendIsAccepted(s: Sys, s1: Sys, s2: Sys, project: string, key: IdemKey, request: Request)
    requires AmountOf(request.invoice, Some(request.amount)) == Ok(request.amount)
    requires s == DoBegin(START, 0, project, key, request.invoice, Some(request.amount), request.metadata)
    requires s1 == DoPend(s, 0) && s2 == DoSend(s1, 0, true, "")
    ensures Truthful(s2) && |s2.db.payments| == 1 && 0 !in s2.threads
    ensures s2.db.payments[0].Hash() in s2.node.accepted && s2.db.payments[0].Hash() !in s2.node.failed
  {
    NewRequestPends(START, s, s1, 0, project, key, request);
    FirstRequestCanBeRead(s, project, key, request);
    StepKeepsDispatches(s, Pend(0));
    PendStaysTrue(s, s1, 0);
    StepKeepsDispatches(s1, Send(0, true, ""));
    SendStaysTrue(s1, 0, true, "");
  }

  /**
   And a shared hash can lose an outcome. The success of an accepted payment is at the head
   of the queue when a second request for its invoice has just been begun. The pump finds the
   newer row, may not move it, takes that for a permanent error and acknowledges the event:
   the node reported success, nothing is queued, and the payment is as open as before.
   */
  lemma SharedHashLosesSuccess(
    s: Sys, s1: Sys, s2: Sys, s3: Sys, s4: Sys, p: nat, tid: nat, project: string, key: IdemKey, event: NodeEvent)
    requires p < |s.db.payments| && !IsFinal(s.db.payments[p].status)
    requires s.pump.Idle? && s.node.queue == [event] && event.PaymentSuccessful? && event.hash == s.db.payments[p].Hash()
    requires tid !in s.threads && FindKey(s.db.payments, project, key).None?
    requires var request := s.db.payments[p].request;
             && AmountOf(request.invoice, Some(request.amount)) == Ok(request.amount) && request.amount <= I64_MAX
             && s1 == DoBegin(s, tid, project, key, request.invoice, Some(request.amount), request.metadata)
    requires s2 == DoPumpTake(s1) && s3 == DoPumpApply(s2) && s4 == DoPumpAck(s3)
    ensures s4.node == s.node.(queue := []) && s4.pump.Idle?
    ensures p < |s4.db.payments| && s4.db.payments[p] == s.db.payments[p]
  {
    NewRequestPends(s, s1, DoPend(s1, tid), tid, project, key, s.db.payments[p].request);
    var q := |s.db.payments|;
    assert FindOpen(s1.db.payments, event.hash) == Some(q);
    assert s2 == s1.(pump := Found(q));
    assert s3 == s2.(pump := Acking);
  }

  /** One taken payment, reported successful, is a state from which that happens. */
  lemma FirstSuccessIsQueued(
    s: Sys, s1: Sys, s2: Sys, s3: Sys, project: string, key: IdemKey, request: Request, preimage: Option<string>,
    fee: Option<nat>)
    requires AmountOf(request.invoice, Some(request.amount)) == Ok(request.amount)
    requires s == DoBegin(START, 0, project, key, request.invoice, Some(request.amount), request.metadata)
    requires s1 == DoPend(s, 0) && s2 == DoSend(s1, 0, true, "")
    requires s3 == DoReport(s2, request.invoice.hash, true, preimage, fee, "")
    ensures |s3.db.payments| == 1 && s3.db.payments[0].status.Pending? && s3.db.payments[0].request == request
    ensures s3.pump.Idle? && s3.node.queue == [PaymentSuccessful(request.invoice.hash, preimage, fee)]
    ensures request.invoice.hash in s3.node.succeeded && 0 !in s3.threads
  {
    NewRequestPends(START, s, s1, 0, project, key, request);
    assert s2.node.accepted == {request.invoice.hash} && s2.node.succeeded == {} && s2.node.failed == {};
  }
}
