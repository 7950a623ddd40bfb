/**
 What each storage call answers and stores, field by field and error by error, without
 naming the steps by which it does so.
 */
module StorageAnswers {
  import opened Core
  import opened Ledger

  /** How far a payment has come. */
  function Stage(s: PaymentStatus): nat {
    match s
    case Created => 0
    case Pending => 1
    case Unknown => 2
    case Succeeded => 3
    case Failed => 3
  }

  /** Payments only move on, and one that was never handed to the node can only be pended or fail. */
  lemma PaymentsOnlyMoveOn(from: PaymentStatus, to: PaymentStatus)
    ensures CanMove(from, to) <==> Stage(from) < Stage(to) && (from.Created? ==> to.Pending? || to.Failed?)
    ensures IsFinal(from) <==> Stage(from) == 3
  {
  }

  /** The value given, or else the value that was there. */
  predicate Updated<T(==)>(given: Option<T>, was: Option<T>, now: Option<T>) {
    (given.Some? ==> now == given) && (given.None? ==> now == was)
  }

  /** Every answer of `begin_payment` has its own condition, and only a new key changes a table. */
  lemma BeginAnswers(
    db: Db, project: string, key: IdemKey, request: Request, after: Db, r: Result<BeginOutcome, StorageError>)
    requires (after, r) == BeginPayment(db, project, key, request)
    ensures r == Err(AmountOutOfRange) <==> request.amount > I64_MAX
    ensures r == Err(IdempotencyMismatch) <==>
      && request.amount <= I64_MAX
      && exists i :: 0 <= i < |db.payments| && FindKey(db.payments, project, key) == Some(i) && db.payments[i].request != request
    ensures r.Err? ==> r.error == AmountOutOfRange || r.error == IdempotencyMismatch
    ensures r.Ok? && r.value.created <==>
      && request.amount <= I64_MAX
      && forall i :: 0 <= i < |db.payments| ==> !(db.payments[i].project == project && db.payments[i].key == key)
    ensures r.Ok? && !r.value.created ==>
      && r.value.payment < |db.payments| && db.payments[r.value.payment].request == request
      && db.payments[r.value.payment].project == project && db.payments[r.value.payment].key == key
    ensures !(r.Ok? && r.value.created) ==> after == db
    ensures r.Ok? && r.value.created ==>
      && r.value.payment == |db.payments| && |after.payments| == |db.payments| + 1
      && after == db.(payments := after.payments) && after.payments[..|db.payments|] == db.payments
      && var row := after.payments[|db.payments|];
         && row.project == project && row.key == key && row.request == request && row.status.Created?
         && row.fee.None? && row.failure.None? && row.preimage.None?
  {
  }

  /** A repeated claim or a repeated status asks for nothing. */
  predicate NothingToDo(db: Db, key: Option<DedupeKey>, id: nat, next: PaymentStatus)
    requires id < |db.payments|
  {
    (key.Some? && key.value in db.claimed) || db.payments[id].status == next
  }

  lemma TransitionRefuses(
    db: Db, key: Option<DedupeKey>, id: nat, next: PaymentStatus, res: Resolution,
    after: Db, r: Result<Transitioned, StorageError>)
    requires (after, r) == TransitionPayment(db, key, id, next, res)
    ensures r == Err(NotFound) <==> id >= |db.payments|
    ensures r == Err(IllegalTransition) <==>
      id < |db.payments| && !NothingToDo(db, key, id, next) && !CanMove(db.payments[id].status, next)
    ensures r == Err(AmountOutOfRange) <==>
      && id < |db.payments| && !NothingToDo(db, key, id, next) && CanMove(db.payments[id].status, next)
      && res.fee.Some? && res.fee.value > I64_MAX
    ensures r.Err? ==> after == db && (r.error == NotFound || r.error == IllegalTransition || r.error == AmountOutOfRange)
    ensures r.Ok? && !r.value.changed <==> id < |db.payments| && NothingToDo(db, key, id, next)
    ensures r.Ok? && !r.value.changed ==> after == db && r.value.payment == db.payments[id]
  {
  }

  /**
   A committed move stores the fee, failure and preimage it was given and keeps those it was
   not, keeps what identifies the payment, touches no other row, stores its claim, and logs
   the outcome with the amount and the fee now stored.
   */
  lemma TransitionStores(
    db: Db, key: Option<DedupeKey>, id: nat, next: PaymentStatus, res: Resolution,
    after: Db, r: Result<Transitioned, StorageError>)
    requires (after, r) == TransitionPayment(db, key, id, next, res) && r.Ok? && r.value.changed
    ensures id < |db.payments| && |after.payments| == |db.payments| && r.value.payment == after.payments[id]
    ensures var was, now := db.payments[id], after.payments[id];
            && now.status == next && now.project == was.project && now.key == was.key && now.request == was.request
            && Updated(res.fee, was.fee, now.fee)
            && Updated(res.failure, was.failure, now.failure)
            && Updated(res.preimage, was.preimage, now.preimage)
    ensures forall i :: 0 <= i < |db.payments| && i != id ==> after.payments[i] == db.payments[i]
    ensures after.claimed == db.claimed + (if key.Some? then {key.value} else {})
    ensures after.invoices == db.invoices && after.endpoints == db.endpoints
    ensures var row := after.payments[id];
            after.events == db.events
              + if next.Created? || next.Pending? then []
                else [Event(row.project, PaymentTopic(next), id, row.request.amount, row.fee)]
  {
  }

  /** The invoice an incoming payment is for, when it is still open. */
  predicate AwaitsReceipt(db: Db, hash: string, i: nat) {
    i < |db.invoices| && FindInvoice(db.invoices, hash) == Some(i) && db.invoices[i].status.Open?
  }

  /** Every answer of `mark_invoice_paid` has its own condition. */
  lemma ReceiptAnswers(db: Db, hash: string, amount: nat, after: Db, r: Result<Option<nat>, StorageError>)
    requires (after, r) == MarkInvoicePaid(db, hash, amount)
    ensures r == Err(NotFound) <==>
      Recv(hash) !in db.claimed && forall i :: 0 <= i < |db.invoices| ==> db.invoices[i].hash != hash
    ensures r == Err(IllegalTransition) <==>
      && Recv(hash) !in db.claimed
      && exists i :: 0 <= i < |db.invoices| && FindInvoice(db.invoices, hash) == Some(i) && db.invoices[i].status.Expired?
    ensures r == Err(AmountOutOfRange) <==>
      Recv(hash) !in db.claimed && amount > I64_MAX && exists i :: AwaitsReceipt(db, hash, i)
    ensures r.Err? ==> after == db && (r.error == NotFound || r.error == IllegalTransition || r.error == AmountOutOfRange)
    ensures r == Ok(None) ==> after == db
  {
    var found := FindInvoice(db.invoices, hash);
    if found.Some? && db.invoices[found.value].status.Open? {
      assert AwaitsReceipt(db, hash, found.value);
    }
  }

  /** An applied receipt pays its one invoice with the amount that came, and logs that amount. */
  lemma ReceiptStores(db: Db, hash: string, amount: nat, after: Db, i: nat)
    requires (after, Ok(Some(i))) == MarkInvoicePaid(db, hash, amount)
    ensures AwaitsReceipt(db, hash, i) && Recv(hash) !in db.claimed && amount <= I64_MAX
    ensures |after.invoices| == |db.invoices|
    ensures var was, now := db.invoices[i], after.invoices[i];
            && now.status.Paid? && now.received == Some(amount) && now.hash == hash
            && now.project == was.project && now.amount == was.amount && now.expiresAt == was.expiresAt
    ensures forall j :: 0 <= j < |db.invoices| && j != i ==> after.invoices[j] == db.invoices[j]
    ensures after.claimed == db.claimed + {Recv(hash)} && after.payments == db.payments
    ensures after.events == db.events + [Event(db.invoices[i].project, InvoicePaid, i, amount, None)]
  {
  }

  lemma InvoiceIsInsertedExactlyWhen(
    db: Db, project: string, hash: string, amount: nat, expiresAt: int, after: Db, r: Result<nat, StorageError>)
    requires (after, r) == InsertInvoice(db, project, hash, amount, expiresAt)
    ensures r.Ok? <==> amount <= I64_MAX && forall i :: 0 <= i < |db.invoices| ==> db.invoices[i].hash != hash
    ensures r.Err? ==> after == db
    ensures r.Ok? ==>
      && r.value == |db.invoices| && |after.invoices| == |db.invoices| + 1 && after.invoices[..|db.invoices|] == db.invoices
      && var row := after.invoices[|db.invoices|];
         && row.project == project && row.hash == hash && row.amount == amount && row.expiresAt == expiresAt
         && row.status.Open? && row.received.None?
  {
  }

  /** The sweep reaches exactly the rows it has come to. */
  lemma {:induction false} SweepExpires(db: Db, now: int, n: nat, after: Db)
    requires n <= |db.invoices| && after == ExpireUpTo(db, now, n)
    ensures |after.invoices| == |db.invoices| && after.payments == db.payments && after.claimed == db.claimed
    ensures forall i :: 0 <= i < |db.invoices| ==>
      after.invoices[i] == if i < n && db.invoices[i].status.Open? && db.invoices[i].expiresAt < now
                           then db.invoices[i].(status := Expired) else db.invoices[i]
  {
    if n > 0 {
      SweepExpires(db, now, n - 1, ExpireUpTo(db, now, n - 1));
    }
  }

  /** The expiry of invoice `i`, as it is announced. */
  predicate Announces(db: Db, e: Event, i: nat) {
    i < |db.invoices| && e == Event(db.invoices[i].project, InvoiceExpired, i, db.invoices[i].amount, None)
  }

  ghost predicate AnnouncesOne(db: Db, e: Event) {
    exists i: nat :: Announces(db, e, i)
  }

  ghost predicate AllAnnounce(db: Db, events: seq<Event>, from: nat) {
    forall k :: from <= k < |events| ==> AnnouncesOne(db, events[k])
  }

  /** What the sweep logs is the expiry of invoices, with their own project and amount. */
  lemma {:induction false} SweepAnnounces(db: Db, now: int, n: nat, after: Db)
    requires n <= |db.invoices| && after == ExpireUpTo(db, now, n)
    ensures db.events <= after.events && AllAnnounce(db, after.events, |db.events|)
  {
    if n > 0 {
      var before := ExpireUpTo(db, now, n - 1);
      SweepAnnounces(db, now, n - 1, before);
      SweepExpires(db, now, n - 1, before);
      forall k | |db.events| <= k < |after.events| ensures AnnouncesOne(db, after.events[k]) {
        if k < |before.events| {
          assert AnnouncesOne(db, before.events[k]);
        } else {
          assert Announces(db, after.events[k], n - 1);
        }
      }
    }
  }

  /**
   An invoice ends `expired` exactly when it was so already, or was open with an expiry before
   now; nothing else about it, and no other row, changes.
   */
  lemma ExpiresExactlyTheOverdue(db: Db, now: int, after: Db)
    requires after == ExpireInvoices(db, now)
    ensures |after.invoices| == |db.invoices| && after.payments == db.payments && after.claimed == db.claimed
    ensures forall i :: 0 <= i < |db.invoices| ==>
      var was, row := db.invoices[i], after.invoices[i];
      && (row.status.Expired? <==> was.status.Expired? || (was.status.Open? && was.expiresAt < now))
      && (row == was || (was.status.Open? && row == was.(status := Expired)))
    ensures db.events <= after.events && AllAnnounce(db, after.events, |db.events|)
  {
    SweepExpires(db, now, |db.invoices|, after);
    SweepAnnounces(db, now, |db.invoices|, after);
  }
}
