/**
 The storage calls as methods on one mutable database. Each runs as a transaction:
 it changes the tables step by step and undoes what it did when it returns early.
 */
module Storage {
  import opened Core
  import opened Ledger

  class Database {
    var payments: seq<Payment>
    var invoices: seq<Invoice>
    var claimed: set<DedupeKey>
    var events: seq<Event>
    var deliveries: seq<Delivery>
    var endpoints: seq<Endpoint>

    function State(): Db
      reads this
    {
      Db(payments, invoices, claimed, events, deliveries, endpoints)
    }

    constructor ()
      ensures State() == EMPTY_DB
    {
      payments, invoices, claimed := [], [], {};
      events, deliveries, endpoints := [], [], [];
    }

    /** Writes the event, then one delivery per enabled endpoint of its project. */
    method EmitEvent(event: Event)
      modifies this`events, this`deliveries
      ensures State() == Emit(old(State()), event)
    {
      var number := |events|;
      events := events + [event];
      for i := 0 to |endpoints|
        invariant events == old(events) + [event]
        invariant deliveries
               == old(deliveries) + DeliverAll(number, EnabledEndpoints(endpoints[..i], event.project))
      {
        assert endpoints[..i + 1][..i] == endpoints[..i];
        if endpoints[i].enabled && endpoints[i].project == event.project {
          deliveries := deliveries + [Delivery(number, i)];
        }
      }
      assert endpoints[..|endpoints|] == endpoints;
    }

    method ClaimNodeEvent(key: DedupeKey) returns (isNew: bool)
      modifies this`claimed
      ensures isNew == (key !in old(claimed)) && claimed == old(claimed) + {key}
    {
      isNew := key !in claimed;
      claimed := claimed + {key};
    }

    method BeginPayment(project: string, key: IdemKey, request: Request)
      returns (r: Result<BeginOutcome, StorageError>)
      modifies this`payments
      ensures (State(), r) == Ledger.BeginPayment(old(State()), project, key, request)
    {
      if request.amount > I64_MAX {
        return Err(AmountOutOfRange);
      }
      var prior := FindKey(payments, project, key);
      if prior.None? {
        payments := payments + [Payment(project, key, request, Created, None, None, None)];
        return Ok(BeginOutcome(|payments| - 1, true));
      }
      if payments[prior.value].request != request {
        return Err(IdempotencyMismatch);
      }
      return Ok(BeginOutcome(prior.value, false));
    }

    method TransitionPayment(key: Option<DedupeKey>, id: nat, next: PaymentStatus, res: Resolution)
      returns (r: Result<Transitioned, StorageError>)
      modifies this`payments, this`claimed, this`events, this`deliveries
      ensures (State(), r) == Ledger.TransitionPayment(old(State()), key, id, next, res)
    {
      if id >= |payments| {
        return Err(NotFound);
      }
      var current := payments[id];
      var before := claimed;
      if key.Some? {
        var isNew := ClaimNodeEvent(key.value);
        if !isNew {
          claimed := before;
          return Ok(Transitioned(current, false));
        }
      }
      if current.status == next {
        claimed := before;
        return Ok(Transitioned(current, false));
      }
      if !CanMove(current.status, next) {
        claimed := before;
        return Err(IllegalTransition);
      }
      if res.fee.Some? && res.fee.value > I64_MAX {
        claimed := before;
        return Err(AmountOutOfRange);
      }
      var updated := current.(status := next,
                              fee := Coalesce(res.fee, current.fee),
                              failure := Coalesce(res.failure, current.failure),
                              preimage := Coalesce(res.preimage, current.preimage));
      payments := payments[id := updated];
      if next.Succeeded? || next.Failed? || next.Unknown? {
        EmitEvent(PaymentEvent(id, updated));
      }
      return Ok(Transitioned(updated, true));
    }

    method MarkInvoicePaid(hash: string, amount: nat) returns (r: Result<Option<nat>, StorageError>)
      modifies this`invoices, this`claimed, this`events, this`deliveries
      ensures (State(), r) == Ledger.MarkInvoicePaid(old(State()), hash, amount)
    {
      var before := claimed;
      var isNew := ClaimNodeEvent(Recv(hash));
      if !isNew {
        claimed := before;
        return Ok(None);
      }
      var found := FindInvoice(invoices, hash);
      if found.None? {
        claimed := before;
        return Err(NotFound);
      }
      var current := invoices[found.value];
      if current.status.Paid? {
        claimed := before;
        return Ok(None);
      }
      if !InvoiceCanMove(current.status, Paid) {
        claimed := before;
        return Err(IllegalTransition);
      }
      if amount > I64_MAX {
        claimed := before;
        return Err(AmountOutOfRange);
      }
      invoices := invoices[found.value := current.(status := Paid, received := Some(amount))];
      EmitEvent(Event(current.project, InvoicePaid, found.value, amount, None));
      return Ok(Some(found.value));
    }

    /** Expires overdue invoices and returns how many there were. */
    method ExpireInvoices(now: int) returns (expired: nat)
      modifies this`invoices, this`events, this`deliveries
      ensures State() == Ledger.ExpireInvoices(old(State()), now)
      ensures |events| == |old(events)| + expired
    {
      expired := 0;
      ghost var start := State();
      for i := 0 to |invoices|
        invariant State() == ExpireUpTo(start, now, i)
        invariant |events| == |old(events)| + expired
      {
        if invoices[i].status.Open? && invoices[i].expiresAt < now {
          var row := invoices[i].(status := Expired);
          invoices := invoices[i := row];
          EmitEvent(Event(row.project, InvoiceExpired, i, row.amount, None));
          expired := expired + 1;
        }
      }
    }
  }
}
