/**
 The payment tables of the storage layer as values, and each storage call as one
 committed transaction on them.

 A row's identifier is its position in its table, and rows are kept in creation
 order. A transaction that returns before its commit leaves the tables as they
 were, dedupe claim included.
 */
module Ledger {
  import opened Core

  datatype PaymentStatus = Created | Pending | Succeeded | Failed | Unknown

  predicate IsFinal(s: PaymentStatus) {
    s.Succeeded? || s.Failed?
  }

  predicate CanMove(from: PaymentStatus, to: PaymentStatus) {
    || (from.Created? && (to.Pending? || to.Failed?))
    || (from.Pending? && (to.Succeeded? || to.Failed? || to.Unknown?))
    || (from.Unknown? && (to.Succeeded? || to.Failed?))
  }

  datatype InvoiceStatus = Open | Paid | Expired

  predicate InvoiceCanMove(from: InvoiceStatus, to: InvoiceStatus) {
    from.Open? && (to.Paid? || to.Expired?)
  }

  /** Keys chosen by clients, and the key the payout handler derives from a payout. */
  datatype IdemKey = Client(text: string) | PayoutLeg(payout: nat)

  /** A decoded BOLT11 invoice. */
  datatype Bolt11 = Bolt11(text: string, hash: string, amount: Option<nat>)

  /** What the request fingerprint covers. */
  datatype Request = Request(invoice: Bolt11, amount: nat, metadata: string)

  datatype Payment = Payment(
    project: string,
    key: IdemKey,
    request: Request,
    status: PaymentStatus,
    fee: Option<nat>,
    failure: Option<string>,
    preimage: Option<string>)
  {
    function Hash(): string { request.invoice.hash }
  }

  datatype Invoice = Invoice(
    project: string,
    hash: string,
    amount: nat,
    status: InvoiceStatus,
    expiresAt: int,
    received: Option<nat>)

  datatype DedupeKey = Recv(hash: string) | SentOk(payment: nat) | SentFail(payment: nat)

  datatype Topic =
    | PaymentTopic(status: PaymentStatus)
    | InvoicePaid
    | InvoiceExpired
    | OtherTopic(name: string)

  datatype Event = Event(project: string, topic: Topic, resource: nat, amount: nat, fee: Option<nat>)

  datatype Endpoint = Endpoint(project: string, enabled: bool)

  datatype Delivery = Delivery(event: nat, endpoint: nat)

  datatype Db = Db(
    payments: seq<Payment>,
    invoices: seq<Invoice>,
    claimed: set<DedupeKey>,
    events: seq<Event>,
    deliveries: seq<Delivery>,
    endpoints: seq<Endpoint>)

  const EMPTY_DB: Db := Db([], [], {}, [], [], [])

  // ---------------------------------------------------------------- outbox

  /** The enabled endpoints of a project, in table order. */
  function EnabledEndpoints(endpoints: seq<Endpoint>, project: string): seq<nat> {
    if |endpoints| == 0 then []
    else
      var last := |endpoints| - 1;
      var rest := EnabledEndpoints(endpoints[..last], project);
      if endpoints[last].enabled && endpoints[last].project == project then rest + [last] else rest
  }

  function DeliverAll(event: nat, endpoints: seq<nat>): (ds: seq<Delivery>)
    ensures |ds| == |endpoints|
  {
    seq(|endpoints|, i requires 0 <= i < |endpoints| => Delivery(event, endpoints[i]))
  }

  /** Appends the event and one delivery per endpoint enabled now. */
  function Emit(db: Db, event: Event): Db {
    db.(events := db.events + [event],
        deliveries := db.deliveries
          + DeliverAll(|db.events|, EnabledEndpoints(db.endpoints, event.project)))
  }

  // -------------------------------------------------------------- payments

  datatype BeginOutcome = BeginOutcome(payment: nat, created: bool)

  datatype Transitioned = Transitioned(payment: Payment, changed: bool)

  datatype Resolution = Resolution(
    fee: Option<nat>,
    failure: Option<string>,
    preimage: Option<string>)

  const NO_RESOLUTION: Resolution := Resolution(None, None, None)

  /** The row holding `(project, key)`, if there is one. */
  function FindKey(payments: seq<Payment>, project: string, key: IdemKey): (r: Option<nat>)
    ensures r.Some? ==>
      r.value < |payments| && payments[r.value].project == project && payments[r.value].key == key
    ensures r.None? ==> forall i :: 0 <= i < |payments| ==>
      !(payments[i].project == project && payments[i].key == key)
  {
    if |payments| == 0 then None
    else
      var last := |payments| - 1;
      if payments[last].project == project && payments[last].key == key then Some(last)
      else FindKey(payments[..last], project, key)
  }

  /** Inserts a `created` row, or returns the row already stored under the key. */
  function BeginPayment(db: Db, project: string, key: IdemKey, request: Request)
    : (Db, Result<BeginOutcome, StorageError>)
  {
    if request.amount > I64_MAX then (db, Err(AmountOutOfRange))
    else
      var prior := FindKey(db.payments, project, key);
      if prior.None? then
        (db.(payments := db.payments
               + [Payment(project, key, request, Created, None, None, None)]),
         Ok(BeginOutcome(|db.payments|, true)))
      else if db.payments[prior.value].request != request then (db, Err(IdempotencyMismatch))
      else (db, Ok(BeginOutcome(prior.value, false)))
  }

  function PaymentEvent(id: nat, row: Payment): Event {
    Event(row.project, PaymentTopic(row.status), id, row.request.amount, row.fee)
  }

  function MovedRow(row: Payment, next: PaymentStatus, res: Resolution): Payment {
    row.(status := next,
         fee := Coalesce(res.fee, row.fee),
         failure := Coalesce(res.failure, row.failure),
         preimage := Coalesce(res.preimage, row.preimage))
  }

  predicate Announced(s: PaymentStatus) {
    s.Succeeded? || s.Failed? || s.Unknown?
  }

  /** The tables after a committed move of row `id` to `next`. */
  function CommitMove(db: Db, key: Option<DedupeKey>, id: nat, next: PaymentStatus, res: Resolution): Db
    requires id < |db.payments|
  {
    var row := MovedRow(db.payments[id], next, res);
    var moved := db.(payments := db.payments[id := row],
                     claimed := if key.Some? then db.claimed + {key.value} else db.claimed);
    if Announced(next) then Emit(moved, PaymentEvent(id, row)) else moved
  }

  function TransitionPayment(db: Db, key: Option<DedupeKey>, id: nat, next: PaymentStatus, res: Resolution)
    : (Db, Result<Transitioned, StorageError>)
  {
    if id >= |db.payments| then (db, Err(NotFound))
    else
      var current := db.payments[id];
      if (key.Some? && key.value in db.claimed) || current.status == next then
        (db, Ok(Transitioned(current, false)))
      else if !CanMove(current.status, next) then (db, Err(IllegalTransition))
      else if res.fee.Some? && res.fee.value > I64_MAX then (db, Err(AmountOutOfRange))
      else
        (CommitMove(db, key, id, next, res), Ok(Transitioned(MovedRow(current, next, res), true)))
  }

  /** The newest open row carrying the hash. */
  function FindOpen(payments: seq<Payment>, hash: string): (r: Option<nat>)
    ensures r.Some? ==>
      && r.value < |payments|
      && payments[r.value].Hash() == hash
      && !IsFinal(payments[r.value].status)
      && forall i :: r.value < i < |payments| ==>
        !(payments[i].Hash() == hash && !IsFinal(payments[i].status))
    ensures r.None? ==> forall i :: 0 <= i < |payments| ==>
      !(payments[i].Hash() == hash && !IsFinal(payments[i].status))
  {
    if |payments| == 0 then None
    else
      var last := |payments| - 1;
      if payments[last].Hash() == hash && !IsFinal(payments[last].status) then Some(last)
      else FindOpen(payments[..last], hash)
  }

  /** The restart scan: every row in `created`, `pending` or `unknown`, oldest first. */
  function UnresolvedPayments(payments: seq<Payment>): (ids: seq<nat>)
    ensures forall i :: 0 <= i < |payments| ==> (i in ids <==> !IsFinal(payments[i].status))
    ensures forall k :: 0 <= k < |ids| ==> ids[k] < |payments|
    ensures forall j, k :: 0 <= j < k < |ids| ==> ids[j] < ids[k]
  {
    if |payments| == 0 then []
    else
      var last := |payments| - 1;
      var rest := UnresolvedPayments(payments[..last]);
      if IsFinal(payments[last].status) then rest else rest + [last]
  }

  // -------------------------------------------------------------- invoices

  function FindInvoice(invoices: seq<Invoice>, hash: string): (r: Option<nat>)
    ensures r.Some? ==> r.value < |invoices| && invoices[r.value].hash == hash
    ensures r.None? ==> forall i :: 0 <= i < |invoices| ==> invoices[i].hash != hash
  {
    if |invoices| == 0 then None
    else
      var last := |invoices| - 1;
      if invoices[last].hash == hash then Some(last) else FindInvoice(invoices[..last], hash)
  }

  function InsertInvoice(db: Db, project: string, hash: string, amount: nat, expiresAt: int)
    : (Db, Result<nat, StorageError>)
  {
    if amount > I64_MAX then (db, Err(AmountOutOfRange))
    else if FindInvoice(db.invoices, hash).Some? then (db, Err(Conflict))
    else
      (db.(invoices := db.invoices + [Invoice(project, hash, amount, Open, expiresAt, None)]),
       Ok(|db.invoices|))
  }

  /** Applies a `PaymentReceived` event under the dedupe key `recv:<hash>`. */
  function MarkInvoicePaid(db: Db, hash: string, amount: nat)
    : (Db, Result<Option<nat>, StorageError>)
  {
    if Recv(hash) in db.claimed then (db, Ok(None))
    else
      var found := FindInvoice(db.invoices, hash);
      if found.None? then (db, Err(NotFound))
      else
        var row := db.invoices[found.value];
        if row.status.Paid? then (db, Ok(None))
        else if !InvoiceCanMove(row.status, Paid) then (db, Err(IllegalTransition))
        else if amount > I64_MAX then (db, Err(AmountOutOfRange))
        else
          var paid := row.(status := Paid, received := Some(amount));
          (Emit(db.(invoices := db.invoices[found.value := paid], claimed := db.claimed + {Recv(hash)}),
                Event(row.project, InvoicePaid, found.value, amount, None)),
           Ok(Some(found.value)))
  }

  function ExpireOne(db: Db, id: nat): Db
    requires id < |db.invoices|
  {
    var row := db.invoices[id];
    Emit(db.(invoices := db.invoices[id := row.(status := Expired)]),
         Event(row.project, InvoiceExpired, id, row.amount, None))
  }

  predicate Overdue(row: Invoice, now: int) {
    row.status.Open? && row.expiresAt < now
  }

  /** Expires every overdue open invoice among the first `n`, emitting one event each. */
  function ExpireUpTo(db: Db, now: int, n: nat): (r: Db)
    requires n <= |db.invoices|
    ensures |r.invoices| == |db.invoices|
    ensures forall i :: n <= i < |db.invoices| ==> r.invoices[i] == db.invoices[i]
  {
    if n == 0 then db
    else
      var prev := ExpireUpTo(db, now, n - 1);
      if Overdue(prev.invoices[n - 1], now) then ExpireOne(prev, n - 1) else prev
  }

  function ExpireInvoices(db: Db, now: int): Db {
    ExpireUpTo(db, now, |db.invoices|)
  }

  // ---------------------------------------------------- the transaction set

  /** Every committed call on these tables. `EmitOther` stands for events of other components. */
  datatype Txn =
    | TBegin(project: string, key: IdemKey, request: Request)
    | TMove(dedupe: Option<DedupeKey>, id: nat, next: PaymentStatus, res: Resolution)
    | TInsertInvoice(project: string, hash: string, amount: nat, expiresAt: int)
    | TReceive(hash: string, amount: nat)
    | TExpire(now: int)
    | TAddEndpoint(project: string)
    | TDisableEndpoint(endpoint: nat)
    | TEmitOther(project: string, name: string, resource: nat)

  function Apply(db: Db, t: Txn): Db {
    match t
    case TBegin(project, key, request) => BeginPayment(db, project, key, request).0
    case TMove(key, id, next, res) => TransitionPayment(db, key, id, next, res).0
    case TInsertInvoice(project, hash, amount, expiresAt) =>
      InsertInvoice(db, project, hash, amount, expiresAt).0
    case TReceive(hash, amount) => MarkInvoicePaid(db, hash, amount).0
    case TExpire(now) => ExpireInvoices(db, now)
    case TAddEndpoint(project) => db.(endpoints := db.endpoints + [Endpoint(project, true)])
    case TDisableEndpoint(e) =>
      if e < |db.endpoints|
      then db.(endpoints := db.endpoints[e := db.endpoints[e].(enabled := false)])
      else db
    case TEmitOther(project, name, resource) =>
      Emit(db, Event(project, OtherTopic(name), resource, 0, None))
  }

  /** The engine claims `sent_ok:<p>` only for success of p and `sent_fail:<p>` only for its failure. */
  predicate KeyFits(key: Option<DedupeKey>, id: nat, next: PaymentStatus) {
    key.None? || (key.value == SentOk(id) && next.Succeeded?) || (key.value == SentFail(id) && next.Failed?)
  }

  predicate WellKeyed(t: Txn) {
    t.TMove? ==> KeyFits(t.dedupe, t.id, t.next)
  }

  function RunTxns(db: Db, ts: seq<Txn>): Db {
    if |ts| == 0 then db else Apply(RunTxns(db, ts[..|ts| - 1]), ts[|ts| - 1])
  }
}
