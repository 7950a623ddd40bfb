/** The send handler as code over a database and a node, and its place in the protocol. */
module Engine {
  import opened Core
  import opened Ledger
  import opened Storage
  import opened Reconcile
  import opened PaymentProtocol
  import F = Fingerprint

  datatype LightningError = NoRoute | DuplicatePayment | NotRunning | OtherError

  function FailureLabel(e: LightningError): string {
    match e
    case NoRoute => "no_route"
    case DuplicatePayment => "duplicate_payment"
    case NotRunning => "node_not_running"
    case OtherError => "node_rejected"
  }

  class LightningNode {
    var state: Node
    var failNextSend: Option<LightningError>
    ghost var sends: seq<Sent>

    constructor ()
      ensures state == START.node && failNextSend == None && sends == []
    {
      state := Node(map[], [], {}, {}, {}, map[]);
      failNextSend := None;
      sends := [];
    }

    /** The node takes a payment it has no record of, unless it is about to fail. */
    predicate Takes(hash: string)
      reads this
    {
      failNextSend.None? && hash !in state.records
    }

    function Refusal(): LightningError
      reads this
    {
      if failNextSend.Some? then failNextSend.value else DuplicatePayment
    }

    /** `send_payment`: accepted and pending from now on, or refused before anything left. */
    method SendPayment(ghost payment: nat, invoice: Bolt11, amount: Option<nat>)
      returns (r: Result<string, LightningError>)
      modifies this
      ensures sends == old(sends) + [Sent(payment, invoice, amount)] && failNextSend == None
      ensures r == if old(Takes(invoice.hash)) then Ok(invoice.hash) else Err(old(Refusal()))
      ensures state == if old(Takes(invoice.hash))
                       then old(state).(records := old(state).records[invoice.hash := NodeRecord(NodePending, None, None)],
                                        accepted := old(state).accepted + {invoice.hash})
                       else old(state)
    {
      sends := sends + [Sent(payment, invoice, amount)];
      if failNextSend.Some? {
        var error := failNextSend.value;
        failNextSend := None;
        return Err(error);
      }
      if invoice.hash in state.records {
        return Err(DuplicatePayment);
      }
      state := state.(records := state.records[invoice.hash := NodeRecord(NodePending, None, None)],
                      accepted := state.accepted + {invoice.hash});
      return Ok(invoice.hash);
    }
  }

  /** Two causes never share a label. */
  lemma FailureLabelsTellApart(a: LightningError, b: LightningError)
    ensures FailureLabel(a) == FailureLabel(b) <==> a == b
  {
    if a != b {
      assert |FailureLabel(a)| != |FailureLabel(b)|;
    }
  }

  /**
   A send goes on exactly for an amount of at least one satoshi and at most the supply that
   the invoice fixes and the request does not contradict, or that the request gives where the
   invoice fixes none.
   */
  lemma AmountIsAcceptedExactlyWhen(invoice: Bolt11, given: Option<nat>, n: nat)
    ensures AmountOf(invoice, given) == Ok(n) <==>
      && 1_000 <= n < 2_100_000_000_000_001_000
      && (invoice.amount == Some(n) || (invoice.amount.None? && given == Some(n)))
      && (given.None? || given == Some(n))
    ensures AmountOf(invoice, given) == Ok(n) ==> F.AmountAccepted(n)
    ensures AmountOf(invoice, given) == Err(AmountMismatch) <==>
      invoice.amount.Some? && given.Some? && invoice.amount != given
    ensures AmountOf(invoice, given) == Err(AmountRequired) <==> invoice.amount.None? && given.None?
  {
  }

  /**
   A reconciler undisturbed between its read and its last write does to the tables what
   reconciling that row does, and leaves nothing else changed.
   */
  lemma ReconcilerReconciles(s: Sys, s1: Sys, s2: Sys, s3: Sys, s4: Sys, tid: nat, p: nat)
    requires tid !in s.threads && p < |s.db.payments|
    requires s1 == DoReadRow(s, tid, p) && s2 == DoReadView(s1, tid) && s3 == DoPass(s2, tid) && s4 == DoWrite(s3, tid)
    ensures s4 == s.(db := ReconcilePayment(s.db, s.node.records, p, s.db.payments[p]).0)
  {
    var row := s.db.payments[p];
    if IsFinal(row.status) {
      assert s4 == s;
    } else {
      assert s1.threads[tid] == SawRow(p, row.status);
      match Decide(row.status, Look(s.node.records, row.Hash()))
      case Keep =>
        assert s2.threads == s.threads;
      case Move(next, res) =>
        if NeedsPass(row.status, next) {
          assert s2.threads[tid] == ToPass(p, row.status, next, res);
          PassesThenWrites(s, s2, s3, s4, tid, p, next, res);
        } else {
          assert s2.threads[tid] == ToWrite(p, row.status, next, res);
          assert s3 == s2;
          assert s4.threads == s.threads;
        }
    }
  }

  lemma PassesThenWrites(s: Sys, s2: Sys, s3: Sys, s4: Sys, tid: nat, p: nat, next: PaymentStatus, res: Resolution)
    requires tid !in s.threads && p < |s.db.payments|
    requires s2 == s.(threads := s.threads[tid := ToPass(p, s.db.payments[p].status, next, res)])
    requires s3 == DoPass(s2, tid) && s4 == DoWrite(s3, tid)
    ensures var (passed, r) := TransitionPayment(s.db, None, p, Pending, NO_RESOLUTION);
            s4 == s.(db := if r.Err? then passed else TransitionPayment(passed, None, p, next, res).0)
  {
    var r := TransitionPayment(s.db, None, p, Pending, NO_RESOLUTION).1;
    if r.Ok? {
      assert s3.threads[tid].ToWrite?;
    }
    assert s4.threads == s.threads;
  }

  datatype SendError = Rejected(api: ApiError) | Storage(error: StorageError)

  datatype SendResult = SendResult(payment: nat, status: PaymentStatus, created: bool)

  ghost function SysOf(db: Database, ln: LightningNode): Sys
    reads db, ln
  {
    Sys(db.State(), ln.state, map[], Idle, ln.sends)
  }

  /** The protocol steps of one request with nothing in between. */
  ghost function SendScript(
    s: Sys, project: string, key: IdemKey, invoice: Bolt11, given: Option<nat>, metadata: string,
    takes: bool, reason: string): Sys
  {
    var s1 := Next(s, Begin(0, project, key, invoice, given, metadata));
    var s2 := Next(s1, Pend(0));
    var s3 := Next(s2, Send(0, takes, reason));
    Next(s3, Refuse(0))
  }

  lemma ScriptWithoutThread(s: Sys, s1: Sys, takes: bool, reason: string)
    requires s1.threads == map[]
    ensures Next(Next(Next(s1, Pend(0)), Send(0, takes, reason)), Refuse(0)) == s1
  {
  }

  /** The row a script begins goes to `pending`. */
  lemma ScriptPends(s1: Sys, p: nat)
    requires p < |s1.db.payments| && s1.db.payments[p].status.Created? && s1.threads == map[0 := ToPend(p)]
    ensures var (db, r) := TransitionPayment(s1.db, None, p, Pending, NO_RESOLUTION);
            && r.Ok? && r.value.payment.status.Pending?
            && Next(s1, Pend(0)) == s1.(db := db, threads := map[0 := ToSend(p)])
            && |db.payments| == |s1.db.payments| && db.payments[p].status.Pending?
            && db.payments[p].request == s1.db.payments[p].request
  {
  }

  /** The node is asked, and takes the payment or refuses it. */
  lemma ScriptSends(s2: Sys, p: nat, takes: bool, reason: string)
    requires p < |s2.db.payments| && s2.threads == map[0 := ToSend(p)]
    ensures var request := s2.db.payments[p].request;
            var asked := s2.(sends := s2.sends + [Sent(p, request.invoice, AmountForNode(request))]);
            Next(s2, Send(0, takes, reason))
            == if takes
               then asked.(threads := map[],
                           node := s2.node.(records := s2.node.records[request.invoice.hash := NodeRecord(NodePending, None, None)],
                                            accepted := s2.node.accepted + {request.invoice.hash}))
               else asked.(threads := map[0 := ToRefuse(p, reason)])
  {
  }

  /** A refusal is definite: the row fails. */
  lemma ScriptRefuses(s3: Sys, p: nat, reason: string)
    requires p < |s3.db.payments| && s3.db.payments[p].status.Pending? && s3.threads == map[0 := ToRefuse(p, reason)]
    ensures var (db, r) := TransitionPayment(s3.db, None, p, Failed, Resolution(None, Some(reason), None));
            && r.Ok? && r.value.payment.status.Failed?
            && Next(s3, Refuse(0)) == s3.(db := db, threads := map[])
            && p < |db.payments| && db.payments[p].status.Failed?
  {
  }

  /** What is left of a request once its row exists: pend, ask the node, and fail the row if it refuses. */
  method Dispatch(db: Database, ln: LightningNode, p: nat, ghost s1: Sys) returns (status: PaymentStatus)
    requires s1.db == db.State() && s1.node == ln.state && s1.sends == ln.sends && s1.pump == Idle
    requires p < |db.payments| && db.payments[p].status.Created? && s1.threads == map[0 := ToPend(p)]
    modifies db, ln
    ensures var takes, reason := old(ln.Takes(db.payments[p].Hash())), FailureLabel(old(ln.Refusal()));
            && SysOf(db, ln) == Next(Next(Next(s1, Pend(0)), Send(0, takes, reason)), Refuse(0))
            && status == if takes then Pending else Failed
    ensures p < |db.payments| && db.payments[p].status == status
    ensures |ln.sends| == |old(ln.sends)| + 1
  {
    var request := db.payments[p].request;
    ghost var takes, reason := ln.Takes(request.invoice.hash), FailureLabel(ln.Refusal());
    ScriptPends(s1, p);
    var pending := db.TransitionPayment(None, p, Pending, NO_RESOLUTION);
    ghost var s2 := Next(s1, Pend(0));
    ScriptSends(s2, p, takes, reason);
    var sent := ln.SendPayment(p, request.invoice, AmountForNode(request));
    ghost var s3 := Next(s2, Send(0, takes, reason));
    if sent.Ok? {
      return pending.value.payment.status;
    }
    ScriptRefuses(s3, p, reason);
    var failed := db.TransitionPayment(None, p, Failed, Resolution(None, Some(FailureLabel(sent.error)), None));
    return failed.value.payment.status;
  }

  /**
   The send handler run alone. What it leaves behind is what the protocol's steps for one
   request leave behind, so the results about runs speak about it.
   */
  method SendPayment(
    db: Database, ln: LightningNode, project: string, key: IdemKey, invoice: Bolt11, given: Option<nat>,
    metadata: string)
    returns (r: Result<SendResult, SendError>)
    modifies db, ln
    ensures var takes, reason := old(ln.Takes(invoice.hash)), FailureLabel(old(ln.Refusal()));
            && SysOf(db, ln) == SendScript(old(SysOf(db, ln)), project, key, invoice, given, metadata, takes, reason)
            && (|ln.sends| > |old(ln.sends)| ==>
                  r.Ok? && r.value.created && r.value.status == if takes then Pending else Failed)
    ensures r.Ok? ==> r.value.payment < |db.payments| && db.payments[r.value.payment].status == r.value.status
    ensures r.Ok? && !r.value.created ==> db.State() == old(db.State()) && ln.sends == old(ln.sends)
  {
    ghost var s := SysOf(db, ln);
    ghost var takes, reason := ln.Takes(invoice.hash), FailureLabel(ln.Refusal());
    var amount := AmountOf(invoice, given);
    if amount.Err? {
      ScriptWithoutThread(s, s, takes, reason);
      return Err(Rejected(amount.error));
    }
    var begun := db.BeginPayment(project, key, Request(invoice, amount.value, metadata));
    ghost var s1 := Next(s, Begin(0, project, key, invoice, given, metadata));
    if begun.Err? || !begun.value.created {
      ScriptWithoutThread(s, s1, takes, reason);
      r := if begun.Err? then Err(Storage(begun.error))
           else Ok(SendResult(begun.value.payment, db.payments[begun.value.payment].status, false));
      return;
    }
    var status := Dispatch(db, ln, begun.value.payment, s1);
    return Ok(SendResult(begun.value.payment, status, true));
  }
}
