/**
 The settlement state machine seen whole: the ways into each state, what can still be
 reached, and what each call on a record answers.
 */
module SettlementCalls {
  import opened Core
  import opened Settlement

  // ------------------------------------------------------------ the machine

  /** The one or two ways into a state. */
  predicate WayIn(from: State, event: Event, to: State) {
    match to
    case Created => false
    case Quoted => from.Created? && event.Quote?
    case SourceReserved => from.Quoted? && event.ReserveSource?
    case DestinationReserved => from.SourceReserved? && event.ReserveDestination?
    case ConditionCreated => from.DestinationReserved? && event.CreateCondition?
    case PayoutRequested => from.ConditionCreated? && event.RequestPayout?
    case PayoutUnknown => from.PayoutRequested? && event == ObservePayout(None)
    case PayoutConfirmed =>
      || (from.PayoutRequested? && event == ObservePayout(Some(Confirmed)))
      || (from.PayoutUnknown? && event == ReconcileUnknown(Confirmed))
    case PayoutFailed =>
      || (from.PayoutRequested? && event == ObservePayout(Some(Failed)))
      || (from.PayoutUnknown? && event == ReconcileUnknown(Failed))
    case Released => from.PayoutConfirmed? && event.ReleaseSettlement?
    case Refunded => from.PayoutFailed? && event.Refund?
    case Disputed =>
      event.Dispute? && (from.PayoutRequested? || from.PayoutUnknown? || from.PayoutConfirmed? || from.PayoutFailed?)
  }

  lemma TransitionsAreTheWaysIn(from: State, event: Event, to: State)
    ensures Transition(from, event) == Some(to) <==> WayIn(from, event, to)
  {
  }

  /** Where a sequence of events leads, if all of them are legal. */
  function Follow(from: State, events: seq<Event>): Option<State>
    decreases |events|
  {
    if |events| == 0 then Some(from)
    else
      var next := Transition(from, events[0]);
      if next.None? then None else Follow(next.value, events[1..])
  }

  ghost predicate Reachable(from: State, to: State) {
    exists events :: Follow(from, events) == Some(to)
  }

  /** Some further events still lead to release. */
  ghost predicate CanStillBeReleased(s: State) {
    exists events :: |events| > 0 && Follow(s, events) == Some(Released)
  }

  predicate Attached(s: State) {
    !s.Created? && !s.Quoted? && !s.SourceReserved? && !s.DestinationReserved?
  }

  lemma {:induction false} AttachedStaysSo(s: State, events: seq<Event>)
    requires Attached(s) && Follow(s, events).Some?
    ensures Attached(Follow(s, events).value)
    decreases |events|
  {
    if |events| > 0 {
      AttachedStaysSo(Transition(s, events[0]).value, events[1..]);
    }
  }

  lemma {:induction false} ClosedIsNotReleased(s: State, events: seq<Event>)
    requires s.PayoutFailed? || s.Refunded? || s.Disputed?
    ensures Follow(s, events) != Some(Released)
    decreases |events|
  {
    if |events| > 0 && Transition(s, events[0]).Some? {
      ClosedIsNotReleased(Transition(s, events[0]).value, events[1..]);
    }
  }

  lemma LeadsThere(from: State, events: seq<Event>, to: State)
    requires Follow(from, events) == Some(to)
    ensures Reachable(from, to)
    ensures |events| > 0 && to.Released? ==> CanStillBeReleased(from)
  {
  }

  /** From the accepted condition, each attached state is reached. */
  lemma AttachedIsReachable(s: State)
    requires Attached(s)
    ensures Reachable(ConditionCreated, s)
  {
    var confirm, fail := ObservePayout(Some(Confirmed)), ObservePayout(Some(Failed));
    var events :=
      match s
      case ConditionCreated => []
      case PayoutRequested => [RequestPayout]
      case PayoutUnknown => [RequestPayout, ObservePayout(None)]
      case PayoutConfirmed => [RequestPayout, confirm]
      case PayoutFailed => [RequestPayout, fail]
      case Released => [RequestPayout, confirm, ReleaseSettlement]
      case Refunded => [RequestPayout, fail, Refund]
      case _ => [RequestPayout, Dispute];
    FollowThree(ConditionCreated, events);
    LeadsThere(ConditionCreated, events, s);
  }

  lemma FollowThree(s: State, events: seq<Event>)
    requires |events| <= 3
    ensures |events| == 1 ==> Follow(s, events) == Transition(s, events[0])
    ensures |events| == 2 ==> Follow(s, events) == Then(Transition(s, events[0]), events[1])
    ensures |events| == 3 ==> Follow(s, events) == Then(Then(Transition(s, events[0]), events[1]), events[2])
  {
    if |events| > 0 && Transition(s, events[0]).Some? {
      FollowTwo(Transition(s, events[0]).value, events[1..]);
    }
  }

  lemma FollowTwo(s: State, events: seq<Event>)
    requires |events| <= 2
    ensures |events| == 0 ==> Follow(s, events) == Some(s)
    ensures |events| == 1 ==> Follow(s, events) == Transition(s, events[0])
    ensures |events| == 2 ==> Follow(s, events) == Then(Transition(s, events[0]), events[1])
  {
    if |events| == 2 && Transition(s, events[0]).Some? {
      var next := Transition(s, events[0]).value;
      assert events[1..] == [events[1]];
      assert Follow(next, [events[1]]) == Transition(next, events[1]) by {
        assert [events[1]][1..] == [];
      }
    } else if |events| == 1 {
      assert events[1..] == [];
    }
  }

  lemma PayableCanBeReleased(s: State)
    requires s.ConditionCreated? || s.PayoutRequested? || s.PayoutUnknown? || s.PayoutConfirmed?
    ensures CanStillBeReleased(s)
  {
    var events :=
      match s
      case ConditionCreated => [RequestPayout, ObservePayout(Some(Confirmed)), ReleaseSettlement]
      case PayoutRequested => [ObservePayout(Some(Confirmed)), ReleaseSettlement]
      case PayoutUnknown => [ReconcileUnknown(Confirmed), ReleaseSettlement]
      case _ => [ReleaseSettlement];
    FollowThree(s, events);
    LeadsThere(s, events, Released);
  }

  /**
   The states in which a restarted payer is given its invoice back are exactly those in which
   it has been given one and may still have to pay it.
   */
  lemma AwaitsExactlyThePayable(s: State)
    ensures AwaitsPayment(s) <==> Reachable(ConditionCreated, s) && CanStillBeReleased(s)
  {
    if s.ConditionCreated? || s.PayoutRequested? || s.PayoutUnknown? || s.PayoutConfirmed? {
      AttachedIsReachable(s);
      PayableCanBeReleased(s);
    } else {
      if Reachable(ConditionCreated, s) {
        var events :| Follow(ConditionCreated, events) == Some(s);
        AttachedStaysSo(ConditionCreated, events);
      }
      if Attached(s) && CanStillBeReleased(s) {
        var events :| |events| > 0 && Follow(s, events) == Some(Released);
        if !s.Released? {
          ClosedIsNotReleased(s, events);
        }
      }
    }
  }

  // -------------------------------------------------------------- the calls

  /** An invoice is attached exactly to a quoted record, before its expiry, for exactly its amount. */
  lemma AttachAnswers(rec: Record, invoice: Bolt11, reservation: nat, now: int)
    ensures AttachCall(rec, invoice, reservation, now).Some? <==>
      && rec.state.Quoted? && invoice.amount == Some(rec.btc)
      && (rec.expires.None? || now < rec.expires.value)
    ensures AttachCall(rec, invoice, reservation, now).Some? ==>
      AttachCall(rec, invoice, reservation, now).value
      == rec.(state := ConditionCreated, reservation := Some(reservation), invoice := Some(invoice))
  {
  }

  /** Evidence settles exactly a record whose payout is outstanding, as it says, and is kept. */
  lemma ApplyAnswers(rec: Record, a: Attestation)
    ensures ApplyCall(rec, a).Some? <==> rec.state.ConditionCreated? || rec.state.PayoutUnknown?
    ensures ApplyCall(rec, a).Some? ==>
      ApplyCall(rec, a).value
      == rec.(state := if a.status.Confirmed? then PayoutConfirmed else PayoutFailed, attestations := rec.attestations + [a])
  {
  }

  lemma MarkUnknownAnswers(rec: Record)
    ensures MarkUnknownCall(rec) == if rec.state.ConditionCreated? then Some(rec.(state := PayoutUnknown)) else None
  {
  }

  /** Only a confirmed payout is released, and only a failed one refunded. */
  lemma ReleaseAndRefundAnswer(rec: Record)
    ensures ReleaseCall(rec) == if rec.state.PayoutConfirmed? then Some(rec.(state := Released)) else None
    ensures RefundCall(rec) == if rec.state.PayoutFailed? then Some(rec.(state := Refunded)) else None
  {
  }

  /** The record holds evidence of the other outcome. */
  predicate Contradicted(rec: Record, a: Attestation) {
    exists k :: 0 <= k < |rec.attestations| && rec.attestations[k].status != a.status
  }

  /**
   Evidence is always kept; when it contradicts what is held, the settlement is disputed, or,
   where it cannot be any more, the evidence is refused.
   */
  lemma RecordAnswers(rec: Record, a: Attestation)
    ensures RecordCall(rec, a).None? <==>
      && Contradicted(rec, a)
      && !(rec.state.PayoutRequested? || rec.state.PayoutUnknown? || rec.state.PayoutConfirmed? || rec.state.PayoutFailed?)
    ensures RecordCall(rec, a).Some? ==>
      RecordCall(rec, a).value
      == rec.(attestations := rec.attestations + [a], state := if Contradicted(rec, a) then Disputed else rec.state)
  {
  }

  lemma PrepareAnswers(fiat: nat, btc: nat, expires: Option<int>, reservation: nat, now: int)
    ensures PrepareCall(fiat, btc, expires, reservation, now)
         == if expires.None? || now < expires.value
            then Some(Record(ConditionCreated, fiat, btc, expires, Some(reservation), None, [])) else None
  {
  }

  lemma RequestAnswers(rec: Record)
    ensures RequestCall(rec)
         == if rec.state.ConditionCreated? && rec.reservation.Some? then Some(rec.(state := PayoutRequested)) else None
  {
  }

  /** What the rail answered is what a requested record becomes. */
  lemma ObserveAnswers(rec: Record, reply: RailReply)
    requires rec.state.PayoutRequested?
    ensures ObserveCall(rec, reply)
         == match reply
            case Said(outcome) => Some(rec.(state := if outcome.Confirmed? then PayoutConfirmed else PayoutFailed))
            case Rejected => Some(rec.(state := PayoutFailed))
            case TimedOut => Some(rec.(state := PayoutUnknown))
            case NoReservation => None
  {
  }

  lemma ReconcileAnswers(rec: Record, outcome: Outcome)
    ensures ReconcileCall(rec, outcome)
         == if rec.state.PayoutUnknown?
            then Some(rec.(state := if outcome.Confirmed? then PayoutConfirmed else PayoutFailed)) else None
  {
  }

  /**
   The rail decides a key once. Without its reservation it does nothing; a decided key answers
   with its decision whatever else is asked of it; and a new one is confirmed, rejected, or
   confirmed behind a timeout.
   */
  lemma RailDecidesOnce(rail: Rail, reservation: nat, key: nat, behaviour: Behaviour, after: Rail, reply: RailReply)
    requires (after, reply) == Initiate(rail, reservation, key, behaviour)
    ensures after.reservations == rail.reservations
    ensures reply.NoReservation? <==> reservation !in rail.reservations
    ensures reply.NoReservation? || key in rail.payouts ==> after == rail
    ensures !reply.NoReservation? && key in rail.payouts ==> reply == Said(rail.payouts[key])
    ensures !reply.NoReservation? && key !in rail.payouts ==>
      && key in after.payouts && after.payouts == rail.payouts[key := after.payouts[key]]
      && (after.payouts[key].Failed? <==> behaviour.Rejects?)
      && (reply == Said(Confirmed) <==> behaviour.Confirms?)
      && (reply.Rejected? <==> behaviour.Rejects?) && (reply.TimedOut? <==> behaviour.ConfirmsAfterTimeout?)
  {
  }
}
