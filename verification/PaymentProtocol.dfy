/**
 The payment engine as a protocol. Requests, reconcilers and the node-event pump run
 concurrently; each storage call and each call on the node is one atomic step, and a
 crash, an abandoned request or any other step may come between two of them.

 The Lightning node is an environment: it accepts or refuses a send, later reports one
 outcome for a payment it accepted, may lose its record of a payment, and keeps an event
 at the head of its queue until the event is acknowledged. `accepted`, `succeeded`,
 `failed`, `receipts` and `sends` are histories, read by no step but the node's own.
 */
module PaymentProtocol {
  import opened Core
  import opened Ledger
  import opened Reconcile

  datatype NodeEvent =
    | PaymentReceived(hash: string, amount: nat)
    | PaymentSuccessful(hash: string, preimage: Option<string>, fee: Option<nat>)
    | PaymentFailed(lost: Option<string>, reason: string)
    | OtherNodeEvent

  /** What a success report carries. */
  datatype Receipt = Receipt(preimage: Option<string>, fee: Option<nat>)

  datatype Node = Node(
    records: View,
    queue: seq<NodeEvent>,
    accepted: set<string>,
    succeeded: set<string>,
    failed: set<string>,
    receipts: map<string, Receipt>)

  /** Where a live request or reconciler stands. */
  datatype Thread =
    | ToPend(payment: nat)
    | ToSend(payment: nat)
    | ToRefuse(payment: nat, reason: string)
    | SawRow(payment: nat, seen: PaymentStatus)
    | ToPass(payment: nat, seen: PaymentStatus, next: PaymentStatus, res: Resolution)
    | ToWrite(payment: nat, seen: PaymentStatus, next: PaymentStatus, res: Resolution)

  /** Where the event pump stands with the event at the head of the queue. */
  datatype Pump = Idle | Found(payment: nat) | Acking

  /** One call of the node's `send_payment`. */
  datatype Sent = Sent(payment: nat, invoice: Bolt11, amount: Option<nat>)

  datatype Sys = Sys(db: Db, node: Node, threads: map<nat, Thread>, pump: Pump, sends: seq<Sent>)

  const START: Sys := Sys(EMPTY_DB, Node(map[], [], {}, {}, {}, map[]), map[], Idle, [])

  datatype Action =
    | Begin(tid: nat, project: string, key: IdemKey, invoice: Bolt11, given: Option<nat>, metadata: string)
    | Pend(tid: nat)
    | Send(tid: nat, accept: bool, reason: string)
    | Refuse(tid: nat)
    | ReadRow(tid: nat, payment: nat)
    | ReadView(tid: nat)
    | Pass(tid: nat)
    | Write(tid: nat)
    | PumpTake
    | PumpApply
    | PumpAck
    | Abandon(tid: nat)
    | Crash
    | Report(hash: string, ok: bool, preimage: Option<string>, fee: Option<nat>, reason: string)
    | Forget(hash: string)
    | Enqueue(event: NodeEvent)
    | OtherTxn(txn: Txn)

  // --------------------------------------------------------- send_payment

  datatype ApiError = AmountMismatch | AmountRequired | AmountRejected

  /** The amount a request means, or why it is refused before anything is stored. */
  function AmountOf(invoice: Bolt11, given: Option<nat>): Result<nat, ApiError> {
    if invoice.amount.Some? && given.Some? && invoice.amount.value != given.value then Err(AmountMismatch)
    else if invoice.amount.None? && given.None? then Err(AmountRequired)
    else
      var amount := if invoice.amount.Some? then invoice.amount.value else given.value;
      if amount / 1000 == 0 || amount / 1000 > MAX_SATS then Err(AmountRejected) else Ok(amount)
  }

  function DoBegin(
    s: Sys, tid: nat, project: string, key: IdemKey, invoice: Bolt11, given: Option<nat>, metadata: string): Sys
  {
    var amount := AmountOf(invoice, given);
    if tid in s.threads || amount.Err? then s
    else
      var (db, r) := BeginPayment(s.db, project, key, Request(invoice, amount.value, metadata));
      if r.Ok? && r.value.created
      then s.(db := db, threads := s.threads[tid := ToPend(r.value.payment)])
      else s.(db := db)
  }

  function DoPend(s: Sys, tid: nat): Sys {
    if tid in s.threads && s.threads[tid].ToPend? then
      var p := s.threads[tid].payment;
      var (db, r) := TransitionPayment(s.db, None, p, Pending, NO_RESOLUTION);
      s.(db := db, threads := if r.Ok? then s.threads[tid := ToSend(p)] else Without(s.threads, tid))
    else s
  }

  /** The amount handed to the node: only an amountless invoice gets one. */
  function AmountForNode(request: Request): Option<nat> {
    if request.invoice.amount.None? then Some(request.amount) else None
  }

  function DoSend(s: Sys, tid: nat, accept: bool, reason: string): Sys {
    if tid in s.threads && s.threads[tid].ToSend? && s.threads[tid].payment < |s.db.payments| then
      var p := s.threads[tid].payment;
      var request := s.db.payments[p].request;
      var sends := s.sends + [Sent(p, request.invoice, AmountForNode(request))];
      if accept then
        s.(sends := sends,
           threads := Without(s.threads, tid),
           node := s.node.(records := s.node.records[request.invoice.hash := NodeRecord(NodePending, None, None)],
                           accepted := s.node.accepted + {request.invoice.hash}))
      else s.(sends := sends, threads := s.threads[tid := ToRefuse(p, reason)])
    else s
  }

  function DoRefuse(s: Sys, tid: nat): Sys {
    if tid in s.threads && s.threads[tid].ToRefuse? then
      var t := s.threads[tid];
      var (db, _) := TransitionPayment(s.db, None, t.payment, Failed, Resolution(None, Some(t.reason), None));
      s.(db := db, threads := Without(s.threads, tid))
    else s
  }

  // ----------------------------------------------------- reconcile_payment

  function DoReadRow(s: Sys, tid: nat, p: nat): Sys {
    if tid in s.threads || p >= |s.db.payments| || IsFinal(s.db.payments[p].status) then s
    else s.(threads := s.threads[tid := SawRow(p, s.db.payments[p].status)])
  }

  function DoReadView(s: Sys, tid: nat): Sys {
    if tid in s.threads && s.threads[tid].SawRow? && s.threads[tid].payment < |s.db.payments| then
      var t := s.threads[tid];
      match Decide(t.seen, Look(s.node.records, s.db.payments[t.payment].Hash()))
      case Keep => s.(threads := Without(s.threads, tid))
      case Move(next, res) =>
        s.(threads := s.threads[tid := if NeedsPass(t.seen, next)
                                       then ToPass(t.payment, t.seen, next, res)
                                       else ToWrite(t.payment, t.seen, next, res)])
    else s
  }

  function DoPass(s: Sys, tid: nat): Sys {
    if tid in s.threads && s.threads[tid].ToPass? then
      var t := s.threads[tid];
      var (db, r) := TransitionPayment(s.db, None, t.payment, Pending, NO_RESOLUTION);
      s.(db := db,
         threads := if r.Ok? then s.threads[tid := ToWrite(t.payment, t.seen, t.next, t.res)]
                    else Without(s.threads, tid))
    else s
  }

  function DoWrite(s: Sys, tid: nat): Sys {
    if tid in s.threads && s.threads[tid].ToWrite? then
      var t := s.threads[tid];
      s.(db := TransitionPayment(s.db, None, t.payment, t.next, t.res).0, threads := Without(s.threads, tid))
    else s
  }

  // ---------------------------------------- handle_node_event and its pump

  /** Errors that retrying cannot cure; the event is acknowledged anyway. */
  predicate IsPermanent(e: StorageError) {
    e.NotFound? || e.IllegalTransition?
  }

  /** The next pump position after a storage call: acknowledge, or start the event over. */
  function AfterCall<T>(r: Result<T, StorageError>): Pump {
    if r.Ok? || IsPermanent(r.error) then Acking else Idle
  }

  function DoPumpTake(s: Sys): Sys {
    if s.pump.Idle? && |s.node.queue| > 0 then
      match s.node.queue[0]
      case PaymentReceived(hash, amount) =>
        var (db, r) := MarkInvoicePaid(s.db, hash, amount);
        s.(db := db, pump := AfterCall(r))
      case PaymentSuccessful(hash, _, _) =>
        var open := FindOpen(s.db.payments, hash);
        s.(pump := if open.Some? then Found(open.value) else Acking)
      case PaymentFailed(hash, _) =>
        if hash.None? then s.(pump := Acking)
        else
          var open := FindOpen(s.db.payments, hash.value);
          s.(pump := if open.Some? then Found(open.value) else Acking)
      case OtherNodeEvent => s.(pump := Acking)
    else s
  }

  function DoPumpApply(s: Sys): Sys {
    if s.pump.Found? && |s.node.queue| > 0 then
      var p := s.pump.payment;
      match s.node.queue[0]
      case PaymentSuccessful(_, preimage, fee) =>
        var (db, r) := TransitionPayment(s.db, Some(SentOk(p)), p, Succeeded, Resolution(fee, None, preimage));
        s.(db := db, pump := AfterCall(r))
      case PaymentFailed(_, reason) =>
        var (db, r) := TransitionPayment(s.db, Some(SentFail(p)), p, Failed, Resolution(None, Some(reason), None));
        s.(db := db, pump := AfterCall(r))
      case _ => s
    else s
  }

  function DoPumpAck(s: Sys): Sys {
    if s.pump.Acking? && |s.node.queue| > 0
    then s.(node := s.node.(queue := s.node.queue[1..]), pump := Idle)
    else s
  }

  // ------------------------------------------------------- the environment

  /** The node reports the outcome of a payment it accepted, once. */
  function DoReport(s: Sys, hash: string, ok: bool, preimage: Option<string>, fee: Option<nat>, reason: string): Sys {
    var n := s.node;
    if hash in n.accepted && hash !in n.succeeded && hash !in n.failed then
      if ok then
        s.(node := n.(records := n.records[hash := NodeRecord(NodeSucceeded, preimage, fee)],
                      queue := n.queue + [PaymentSuccessful(hash, preimage, fee)],
                      succeeded := n.succeeded + {hash},
                      receipts := n.receipts[hash := Receipt(preimage, fee)]))
      else
        s.(node := n.(records := n.records[hash := NodeRecord(NodeFailed, None, None)],
                      queue := n.queue + [PaymentFailed(Some(hash), reason)],
                      failed := n.failed + {hash}))
    else s
  }

  /** Events that are not about a payment this node sent. */
  predicate Unsolicited(e: NodeEvent) {
    e.PaymentReceived? || e.OtherNodeEvent? || (e.PaymentFailed? && e.lost.None?)
  }

  /** Transactions no payment step performs. */
  predicate Elsewhere(t: Txn) {
    !t.TBegin? && !t.TMove? && !t.TReceive?
  }

  function Next(s: Sys, a: Action): Sys {
    match a
    case Begin(tid, project, key, invoice, given, metadata) =>
      DoBegin(s, tid, project, key, invoice, given, metadata)
    case Pend(tid) => DoPend(s, tid)
    case Send(tid, accept, reason) => DoSend(s, tid, accept, reason)
    case Refuse(tid) => DoRefuse(s, tid)
    case ReadRow(tid, p) => DoReadRow(s, tid, p)
    case ReadView(tid) => DoReadView(s, tid)
    case Pass(tid) => DoPass(s, tid)
    case Write(tid) => DoWrite(s, tid)
    case PumpTake => DoPumpTake(s)
    case PumpApply => DoPumpApply(s)
    case PumpAck => DoPumpAck(s)
    case Abandon(tid) => s.(threads := Without(s.threads, tid))
    case Crash => s.(threads := map[], pump := Idle)
    case Report(hash, ok, preimage, fee, reason) => DoReport(s, hash, ok, preimage, fee, reason)
    case Forget(hash) => s.(node := s.node.(records := s.node.records - {hash}))
    case Enqueue(event) =>
      if Unsolicited(event) then s.(node := s.node.(queue := s.node.queue + [event])) else s
    case OtherTxn(t) => if Elsewhere(t) then s.(db := Apply(s.db, t)) else s
  }

  function Run(s: Sys, actions: seq<Action>): Sys {
    if |actions| == 0 then s else Next(Run(s, actions[..|actions| - 1]), actions[|actions| - 1])
  }
}
