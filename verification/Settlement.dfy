/**
 The settlement state machine, the record each node keeps, and what each node call makes of
 the record it read. The fiat rail and the attestations exchanged are here as well.
 */
module Settlement {
  import opened Core

  datatype State =
    | Created
    | Quoted
    | SourceReserved
    | DestinationReserved
    | ConditionCreated
    | PayoutRequested
    | PayoutConfirmed
    | PayoutFailed
    | PayoutUnknown
    | Released
    | Refunded
    | Disputed

  datatype Outcome = Confirmed | Failed

  datatype Event =
    | Quote
    | ReserveSource
    | ReserveDestination
    | CreateCondition
    | RequestPayout
    | ObservePayout(seen: Option<Outcome>)
    | ReconcileUnknown(outcome: Outcome)
    | ReleaseSettlement
    | Refund
    | Dispute

  function Settled(o: Outcome): State {
    if o.Confirmed? then PayoutConfirmed else PayoutFailed
  }

  function Transition(from: State, event: Event): Option<State> {
    match (from, event)
    case (Created, Quote) => Some(Quoted)
    case (Quoted, ReserveSource) => Some(SourceReserved)
    case (SourceReserved, ReserveDestination) => Some(DestinationReserved)
    case (DestinationReserved, CreateCondition) => Some(ConditionCreated)
    case (ConditionCreated, RequestPayout) => Some(PayoutRequested)
    case (PayoutRequested, ObservePayout(Some(o))) => Some(Settled(o))
    case (PayoutRequested, ObservePayout(None)) => Some(PayoutUnknown)
    case (PayoutUnknown, ReconcileUnknown(o)) => Some(Settled(o))
    case (PayoutConfirmed, ReleaseSettlement) => Some(Released)
    case (PayoutFailed, Refund) => Some(Refunded)
    case (PayoutRequested, Dispute) => Some(Disputed)
    case (PayoutUnknown, Dispute) => Some(Disputed)
    case (PayoutConfirmed, Dispute) => Some(Disputed)
    case (PayoutFailed, Dispute) => Some(Disputed)
    case _ => None
  }

  /** The next event of a sequence; nothing follows an illegal one. */
  function Then(from: Option<State>, event: Event): Option<State> {
    if from.None? then None else Transition(from.value, event)
  }

  datatype Bolt11 = Bolt11(text: string, amount: Option<nat>)

  /** An attestation whose signature verifies under `signer`. */
  datatype Attestation = Attestation(id: nat, status: Outcome, signer: nat)

  datatype Record = Record(
    state: State,
    fiat: nat,
    btc: nat,
    expires: Option<int>,
    reservation: Option<nat>,
    invoice: Option<Bolt11>,
    attestations: seq<Attestation>)

  function NewRecord(fiat: nat, btc: nat, expires: Option<int>): Record {
    Record(Quoted, fiat, btc, expires, None, None, [])
  }

  predicate IsExpired(expires: Option<int>, now: int) {
    expires.Some? && now >= expires.value
  }

  // ------------------------------------------------ calls on the payer side

  /** `attach_counterparty_invoice`: the whole sequence is checked before any side effect. */
  function AttachCall(rec: Record, invoice: Bolt11, reservation: nat, now: int): Option<Record> {
    if IsExpired(rec.expires, now) then None
    else
      var next := Then(Then(Transition(rec.state, ReserveSource), ReserveDestination), CreateCondition);
      if next.None? || invoice.amount != Some(rec.btc) then None
      else Some(rec.(state := next.value, reservation := Some(reservation), invoice := Some(invoice)))
  }

  /** `apply_payout_attestation`, after the signature and signer were checked. */
  function ApplyCall(rec: Record, a: Attestation): Option<Record> {
    var next := if rec.state.ConditionCreated?
                then Then(Transition(rec.state, RequestPayout), ObservePayout(Some(a.status)))
                else if rec.state.PayoutUnknown? then Transition(rec.state, ReconcileUnknown(a.status))
                else None;
    if next.None? then None else Some(rec.(state := next.value, attestations := rec.attestations + [a]))
  }

  function MarkUnknownCall(rec: Record): Option<Record> {
    var next := Then(Transition(rec.state, RequestPayout), ObservePayout(None));
    if next.None? then None else Some(rec.(state := next.value))
  }

  function ReleaseCall(rec: Record): Option<Record> {
    var next := Transition(rec.state, ReleaseSettlement);
    if next.None? then None else Some(rec.(state := next.value))
  }

  function RefundCall(rec: Record): Option<Record> {
    var next := Transition(rec.state, Refund);
    if next.None? then None else Some(rec.(state := next.value))
  }

  predicate Conflicts(rec: Record, a: Attestation) {
    exists k :: 0 <= k < |rec.attestations| && rec.attestations[k].status != a.status
  }

  /** `record_payout_attestation`: evidence that disagrees sends the settlement to dispute. */
  function RecordCall(rec: Record, a: Attestation): Option<Record> {
    var kept := rec.(attestations := rec.attestations + [a]);
    if Conflicts(rec, a) then
      var next := Transition(rec.state, Dispute);
      if next.None? then None else Some(kept.(state := next.value))
    else Some(kept)
  }

  /** The states in which a restarted payer still needs the invoice it was given. */
  predicate AwaitsPayment(s: State) {
    s.ConditionCreated? || s.PayoutRequested? || s.PayoutUnknown? || s.PayoutConfirmed?
  }

  // --------------------------------------------------------------- the rail

  datatype Rail = Rail(reservations: set<nat>, payouts: map<nat, Outcome>)

  datatype Behaviour = Confirms | Rejects | ConfirmsAfterTimeout

  datatype RailReply = Said(outcome: Outcome) | Rejected | TimedOut | NoReservation

  /** A payout is decided once per key; asking again replays the decision. */
  function Initiate(rail: Rail, reservation: nat, key: nat, behaviour: Behaviour): (Rail, RailReply) {
    if reservation !in rail.reservations then (rail, NoReservation)
    else if key in rail.payouts then (rail, Said(rail.payouts[key]))
    else
      match behaviour
      case Confirms => (rail.(payouts := rail.payouts[key := Confirmed]), Said(Confirmed))
      case Rejects => (rail.(payouts := rail.payouts[key := Failed]), Rejected)
      case ConfirmsAfterTimeout => (rail.(payouts := rail.payouts[key := Confirmed]), TimedOut)
  }

  // ------------------------------------------- calls on the destination side

  function PrepareCall(fiat: nat, btc: nat, expires: Option<int>, reservation: nat, now: int): Option<Record> {
    if IsExpired(expires, now) then None
    else
      var state := Then(Then(Then(Transition(Created, Quote), ReserveSource), ReserveDestination), CreateCondition);
      if state.None? then None
      else Some(Record(state.value, fiat, btc, expires, Some(reservation), None, []))
  }

  /** `request_payout` up to the rail: the state it will act from. */
  function RequestCall(rec: Record): Option<Record> {
    var next := Transition(rec.state, RequestPayout);
    if next.None? || rec.reservation.None? then None else Some(rec.(state := next.value))
  }

  /** `request_payout` after the rail answered. */
  function ObserveCall(rec: Record, reply: RailReply): Option<Record> {
    var seen := match reply
                case Said(o) => Some(o)
                case Rejected => Some(Failed)
                case TimedOut => None
                case NoReservation => None;
    var next := Transition(rec.state, ObservePayout(seen));
    if reply.NoReservation? || next.None? then None else Some(rec.(state := next.value))
  }

  function ReconcileCall(rec: Record, outcome: Outcome): Option<Record> {
    var next := Transition(rec.state, ReconcileUnknown(outcome));
    if next.None? then None else Some(rec.(state := next.value))
  }
}
