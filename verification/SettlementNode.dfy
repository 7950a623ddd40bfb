/** One settlement node as code: its records, its invoice cache, and its fiat rail. */
module SettlementNode {
  import opened Core
  import opened Settlement
  import opened SettlementProtocol

  datatype NodeError =
    | UnknownSettlement
    | IllegalState
    | QuoteOrInvoiceRefused
    | UnexpectedSigner
    | PayoutRejected
    | PayoutStillUnknown
    | MissingReservation
    | NoRecordedInvoice
    | LightningFailed

  /** What the Lightning node answers to `pay`. A lost answer may follow a payment that went out. */
  datatype PayAnswer = Preimage | NoAnswer

  class SettlementNode {
    const peer: Option<nat>
    var records: map<nat, Record>
    var pendingInvoices: map<nat, Bolt11>
    var rail: Rail
    ghost var pays: seq<(nat, Bolt11)>

    constructor (peer: Option<nat>, stored: map<nat, Record>, rail: Rail)
      ensures this.peer == peer && records == stored && this.rail == rail
      ensures pendingInvoices == map[] && pays == []
    {
      this.peer, records, this.rail := peer, stored, rail;
      pendingInvoices, pays := map[], [];
    }

    /** Payer, step 2: reserve, accept the invoice, then store the record. */
    method AttachInvoice(id: nat, invoice: Bolt11, reservation: nat, now: int) returns (r: Result<(), NodeError>)
      modifies this
      ensures rail.payouts == old(rail).payouts && pays == old(pays)
      ensures r.Ok? <==> id in old(records) && AttachCall(old(records)[id], invoice, reservation, now).Some?
      ensures r.Ok? ==>
        && records == old(records)[id := AttachCall(old(records)[id], invoice, reservation, now).value]
        && pendingInvoices == old(pendingInvoices)[id := invoice]
      ensures r.Err? ==> records == old(records) && pendingInvoices == old(pendingInvoices)
    {
      if id !in records {
        return Err(UnknownSettlement);
      }
      var rec := records[id];
      if IsExpired(rec.expires, now) {
        return Err(QuoteOrInvoiceRefused);
      }
      var state := Then(Then(Transition(rec.state, ReserveSource), ReserveDestination), CreateCondition);
      if state.None? {
        return Err(IllegalState);
      }
      rail := rail.(reservations := rail.reservations + {reservation});
      if invoice.amount != Some(rec.btc) {
        return Err(QuoteOrInvoiceRefused);
      }
      pendingInvoices := pendingInvoices[id := invoice];
      rec := rec.(state := state.value, reservation := Some(reservation), invoice := Some(invoice));
      records := records[id := rec];
      return Ok(());
    }

    /** Applies signed evidence from the configured peer. */
    method ApplyAttestation(a: Attestation) returns (r: Result<(), NodeError>)
      modifies this`records
      ensures r.Ok? <==>
        && (peer.None? || peer.value == a.signer)
        && a.id in old(records) && ApplyCall(old(records)[a.id], a).Some?
      ensures records == if r.Ok? then old(records)[a.id := ApplyCall(old(records)[a.id], a).value] else old(records)
    {
      if peer.Some? && peer.value != a.signer {
        return Err(UnexpectedSigner);
      }
      if a.id !in records {
        return Err(UnknownSettlement);
      }
      var rec := records[a.id];
      var state;
      if rec.state.ConditionCreated? {
        state := Then(Transition(rec.state, Event.RequestPayout), ObservePayout(Some(a.status)));
      } else if rec.state.PayoutUnknown? {
        state := Transition(rec.state, ReconcileUnknown(a.status));
      } else {
        return Err(IllegalState);
      }
      if state.None? {
        return Err(IllegalState);
      }
      records := records[a.id := rec.(state := state.value, attestations := rec.attestations + [a])];
      return Ok(());
    }

    /** Asks the rail for the payout. Asking again replays the decision instead of paying twice. */
    method RequestPayout(id: nat, behaviour: Behaviour) returns (r: Result<Outcome, NodeError>)
      modifies this`records, this`rail
      ensures forall key :: key in old(rail).payouts ==> key in rail.payouts && rail.payouts[key] == old(rail).payouts[key]
      ensures r.Ok? ==>
        && id in old(records) && id in rail.payouts && rail.payouts[id] == r.value
        && records == old(records)[id := old(records)[id].(state := Settled(r.value))]
      ensures r == Err(UnknownSettlement) <==> id !in old(records)
      ensures r == Err(IllegalState) <==> id in old(records) && !old(records)[id].state.ConditionCreated?
      ensures r == Err(MissingReservation) <==>
        && id in old(records) && old(records)[id].state.ConditionCreated?
        && (old(records)[id].reservation.None? || old(records)[id].reservation.value !in old(rail).reservations)
      ensures r.Err? && r.error == PayoutRejected ==>
        id in rail.payouts && rail.payouts[id].Failed? && id in records && records[id].state.PayoutFailed?
      ensures r.Err? && r.error == PayoutStillUnknown ==> id in records && records[id].state.PayoutUnknown?
      ensures r.Err? && r.error != PayoutRejected && r.error != PayoutStillUnknown ==>
        records == old(records) && rail == old(rail)
    {
      if id !in records {
        return Err(UnknownSettlement);
      }
      if Transition(records[id].state, Event.RequestPayout).None? {
        return Err(IllegalState);
      }
      var asked := RequestCall(records[id]);
      if asked.None? {
        return Err(MissingReservation);
      }
      var (next, reply) := Initiate(rail, asked.value.reservation.value, id, behaviour);
      rail := next;
      match reply {
        case Said(outcome) =>
          records := records[id := asked.value.(state := Settled(outcome))];
          return Ok(outcome);
        case Rejected =>
          records := records[id := asked.value.(state := PayoutFailed)];
          return Err(PayoutRejected);
        case TimedOut =>
          records := records[id := asked.value.(state := PayoutUnknown)];
          return Err(PayoutStillUnknown);
        case NoReservation =>
          return Err(MissingReservation);
      }
    }

    /** Pays the accepted invoice. Only an answered payment forgets the invoice and closes the record. */
    method ReleaseSettlement(id: nat, answer: PayAnswer) returns (r: Result<(), NodeError>)
      modifies this
      ensures rail == old(rail)
      ensures var may := id in old(records) && old(records)[id].state.PayoutConfirmed? && id in old(pendingInvoices);
              && pays == (if may then old(pays) + [(id, old(pendingInvoices)[id])] else old(pays))
              && (r.Ok? <==> may && answer.Preimage?)
      ensures r.Ok? ==>
        && records == old(records)[id := old(records)[id].(state := Released)]
        && pendingInvoices == old(pendingInvoices) - {id}
      ensures r.Err? ==> records == old(records) && pendingInvoices == old(pendingInvoices)
    {
      if id !in records {
        return Err(UnknownSettlement);
      }
      var rec := records[id];
      var next := Transition(rec.state, Event.ReleaseSettlement);
      if next.None? {
        return Err(IllegalState);
      }
      if id !in pendingInvoices {
        return Err(NoRecordedInvoice);
      }
      pays := pays + [(id, pendingInvoices[id])];
      if answer.NoAnswer? {
        return Err(LightningFailed);
      }
      pendingInvoices := pendingInvoices - {id};
      records := records[id := rec.(state := next.value)];
      return Ok(());
    }

    /** Rebuilds the invoice cache from the stored records after a restart. */
    method Recover()
      modifies this`pendingInvoices
      ensures pendingInvoices == old(pendingInvoices) + RecoveredCache(records)
    {
      var todo, done := records.Keys, {};
      while todo != {}
        invariant todo + done == records.Keys && todo !! done
        invariant pendingInvoices == old(pendingInvoices) + CacheOf(records, done)
        decreases |todo|
      {
        var id :| id in todo;
        var rec := records[id];
        OneMoreCached(old(pendingInvoices), records, done, id);
        if !rec.state.Released? && !rec.state.Refunded? && rec.invoice.Some? && AwaitsPayment(rec.state) {
          pendingInvoices := pendingInvoices[id := rec.invoice.value];
        }
        todo, done := todo - {id}, done + {id};
      }
      assert CacheOf(records, done) == RecoveredCache(records);
    }
  }

  /** The part of the recovered cache that comes from the records `ids`. */
  function CacheOf(records: map<nat, Record>, ids: set<nat>): map<nat, Bolt11> {
    map id | id in ids && id in records && records[id].invoice.Some? && AwaitsPayment(records[id].state) ::
      records[id].invoice.value
  }

  lemma OneMoreCached(before: map<nat, Bolt11>, records: map<nat, Record>, ids: set<nat>, id: nat)
    requires id in records && id !in ids
    ensures before + CacheOf(records, ids + {id})
         == if records[id].invoice.Some? && AwaitsPayment(records[id].state)
            then (before + CacheOf(records, ids))[id := records[id].invoice.value]
            else before + CacheOf(records, ids)
  {
  }

  /**
   A restart loses no payment. Whatever the payer was waiting for when it stopped, it recovers,
   the confirmation comes, and the release pays the stored invoice.
   */
  method RecoveredInvoiceIsPaid(node: SettlementNode, id: nat, a: Attestation)
    requires id in node.records && node.records[id].invoice.Some?
    requires var state := node.records[id].state;
             state.ConditionCreated? || state.PayoutRequested? || state.PayoutUnknown? || state.PayoutConfirmed?
    requires a.id == id && a.status.Confirmed? && (node.peer.None? || node.peer.value == a.signer)
    modifies node
    ensures node.pays == old(node.pays) + [(id, old(node.records)[id].invoice.value)]
    ensures id in node.records && node.records[id].state.Released?
  {
    node.pendingInvoices := map[];
    node.Recover();
    var rec := node.records[id];
    if rec.state.PayoutRequested? {
      var seen := Transition(rec.state, ObservePayout(Some(a.status)));
      node.records := node.records[id := rec.(state := seen.value)];
    } else if !rec.state.PayoutConfirmed? {
      var applied := node.ApplyAttestation(a);
    }
    var paid := node.ReleaseSettlement(id, Preimage);
  }

  /**
   A release cut off anywhere can be retried: after a lost answer, or after a restart that
   recovers the cache from a record still confirmed, the next release pays the same invoice.
   */
  method RetriedReleasePaysSameInvoice(node: SettlementNode, id: nat, restart: bool)
    requires id in node.records && node.records[id].state.PayoutConfirmed?
    requires id in node.pendingInvoices && node.records[id].invoice == Some(node.pendingInvoices[id])
    modifies node
    ensures node.pays == old(node.pays) + [(id, old(node.pendingInvoices)[id]), (id, old(node.pendingInvoices)[id])]
    ensures id in node.records && node.records[id].state.Released?
  {
    var lost := node.ReleaseSettlement(id, NoAnswer);
    if restart {
      node.pendingInvoices := map[];
      node.Recover();
    }
    var paid := node.ReleaseSettlement(id, Preimage);
  }
}
