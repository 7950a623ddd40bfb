/**
 The two-node settlement protocol. A node call reads a record, acts on the outside world and
 stores the record it computed; those are separate steps, so calls interleave, work from
 stale records, overwrite each other, and are cut off by crashes. Messages are lost, repeated
 and delayed: an attestation once signed may be delivered at any later time, any number of
 times, and replies may be forged except for the signature they carry.

 `decided`, `signed`, `attached`, `pays` and `refunds` are histories. A crash of the
 destination may or may not wipe its rail, as the in-memory adapter does.
 */
module SettlementProtocol {
  import opened Core
  import opened Settlement

  /** The destination's identity key. */
  const DESTINATION: nat := 1

  datatype SourceTask =
    | Attaching(id: nat)
    | Putting(id: nat, rec: Record)
    | Paying(id: nat, rec: Record)
    | PayingInvoice(id: nat, rec: Record, invoice: Bolt11)
    | Uncaching(id: nat, rec: Record, refund: bool)

  datatype DestinationTask =
    | Initiating(id: nat, rec: Record)
    | Storing(id: nat, rec: Record, sign: Option<Outcome>)
    | Signing(id: nat, outcome: Outcome)

  datatype Net = Net(
    peer: Option<nat>,
    source: map<nat, Record>,
    cache: map<nat, Bolt11>,
    sourceRail: Rail,
    sourceTasks: map<nat, SourceTask>,
    destination: map<nat, Record>,
    rail: Rail,
    destinationTasks: map<nat, DestinationTask>,
    usedReservations: set<nat>,
    decided: map<nat, Outcome>,
    signed: set<(nat, Outcome)>,
    attached: map<nat, Bolt11>,
    pays: seq<(nat, Bolt11)>,
    refunds: seq<nat>)

  const EMPTY_RAIL: Rail := Rail({}, map[])

  function Initial(peer: Option<nat>): Net {
    Net(peer, map[], map[], EMPTY_RAIL, map[], map[], EMPTY_RAIL, map[], {}, map[], {}, map[], [], [])
  }

  datatype Step =
    | Begin(tid: nat, id: nat, fiat: nat, btc: nat, expires: Option<int>)
    | Attach(tid: nat, invoice: Bolt11, reservation: nat, now: int)
    | Apply(tid: nat, attestation: Attestation)
    | MarkUnknown(tid: nat, id: nat)
    | RecordEvidence(tid: nat, attestation: Attestation)
    | Release(tid: nat, id: nat)
    | ReadCache(tid: nat)
    | Pay(tid: nat, answered: bool)
    | RefundStart(tid: nat, id: nat)
    | Uncache(tid: nat)
    | Put(tid: nat)
    | SourceAbandon(tid: nat)
    | SourceRestart
    | LocalPayout(id: nat, behaviour: Behaviour)
    | LocalReconcile(id: nat)
    | Prepare(tid: nat, id: nat, fiat: nat, btc: nat, expires: Option<int>, reservation: nat, now: int)
    | Request(tid: nat, id: nat)
    | AskRail(tid: nat, behaviour: Behaviour)
    | Reconcile(tid: nat, id: nat)
    | Store(tid: nat)
    | Sign(tid: nat)
    | DestinationAbandon(tid: nat)
    | DestinationRestart(wipesRail: bool)

  predicate SourceStep(step: Step) {
    || step.Begin? || step.Attach? || step.Apply? || step.MarkUnknown? || step.RecordEvidence? || step.Release?
    || step.ReadCache? || step.Pay? || step.RefundStart? || step.Uncache? || step.Put? || step.SourceAbandon?
    || step.SourceRestart? || step.LocalPayout? || step.LocalReconcile?
  }

  /** Everything that belongs to the destination is as it was. */
  predicate DestinationAlone(n: Net, after: Net) {
    && after.peer == n.peer
    && after.destination == n.destination && after.rail == n.rail && after.destinationTasks == n.destinationTasks
    && after.usedReservations == n.usedReservations && after.decided == n.decided && after.signed == n.signed
  }

  /** Everything that belongs to the source is as it was. */
  predicate SourceAlone(n: Net, after: Net) {
    && after.peer == n.peer
    && after.source == n.source && after.cache == n.cache && after.sourceRail == n.sourceRail
    && after.sourceTasks == n.sourceTasks && after.attached == n.attached
    && after.pays == n.pays && after.refunds == n.refunds
  }

  // ------------------------------------------------------------ the source

  function DoBegin(n: Net, tid: nat, id: nat, fiat: nat, btc: nat, expires: Option<int>): (after: Net)
    ensures DestinationAlone(n, after)
  {
    if tid in n.sourceTasks || id in n.source then n
    else n.(source := n.source[id := NewRecord(fiat, btc, expires)],
            sourceTasks := n.sourceTasks[tid := Attaching(id)])
  }

  /** The peer's invoice arrived: reserve, accept it into the cache, and go on to store the record. */
  function DoAttach(n: Net, tid: nat, invoice: Bolt11, reservation: nat, now: int): (after: Net)
    ensures DestinationAlone(n, after)
  {
    if tid in n.sourceTasks && n.sourceTasks[tid].Attaching? && n.sourceTasks[tid].id in n.source then
      var id := n.sourceTasks[tid].id;
      var next := AttachCall(n.source[id], invoice, reservation, now);
      if next.None? then n.(sourceTasks := Without(n.sourceTasks, tid))
      else n.(cache := n.cache[id := invoice],
              attached := n.attached[id := invoice],
              sourceRail := n.sourceRail.(reservations := n.sourceRail.reservations + {reservation}),
              sourceTasks := n.sourceTasks[tid := Putting(id, next.value)])
    else n
  }

  /** An attestation is believed if its signer is the configured peer, or if no peer is configured. */
  predicate Authorised(n: Net, a: Attestation) {
    n.peer.None? || n.peer.value == a.signer
  }

  /** Signatures cannot be forged: the destination's key signs only what the destination signed. */
  predicate Deliverable(n: Net, a: Attestation) {
    a.signer == DESTINATION ==> (a.id, a.status) in n.signed
  }

  /** A call that only computes a new record from the stored one. */
  function Compute(n: Net, tid: nat, id: nat, next: Option<Record>): (after: Net)
    ensures DestinationAlone(n, after)
  {
    if tid in n.sourceTasks || next.None? then n
    else n.(sourceTasks := n.sourceTasks[tid := Putting(id, next.value)])
  }

  function DoApply(n: Net, tid: nat, a: Attestation): (after: Net)
    ensures DestinationAlone(n, after)
  {
    if Deliverable(n, a) && Authorised(n, a) && a.id in n.source
    then Compute(n, tid, a.id, ApplyCall(n.source[a.id], a)) else n
  }

  function DoRecord(n: Net, tid: nat, a: Attestation): (after: Net)
    ensures DestinationAlone(n, after)
  {
    if Deliverable(n, a) && Authorised(n, a) && a.id in n.source
    then Compute(n, tid, a.id, RecordCall(n.source[a.id], a)) else n
  }

  function DoMarkUnknown(n: Net, tid: nat, id: nat): (after: Net)
    ensures DestinationAlone(n, after)
  {
    if id in n.source then Compute(n, tid, id, MarkUnknownCall(n.source[id])) else n
  }

  function DoRelease(n: Net, tid: nat, id: nat): (after: Net)
    ensures DestinationAlone(n, after)
  {
    if tid in n.sourceTasks || id !in n.source || ReleaseCall(n.source[id]).None? then n
    else n.(sourceTasks := n.sourceTasks[tid := Paying(id, ReleaseCall(n.source[id]).value)])
  }

  function DoReadCache(n: Net, tid: nat): (after: Net)
    ensures DestinationAlone(n, after)
  {
    if tid in n.sourceTasks && n.sourceTasks[tid].Paying? then
      var t := n.sourceTasks[tid];
      n.(sourceTasks := if t.id in n.cache then n.sourceTasks[tid := PayingInvoice(t.id, t.rec, n.cache[t.id])]
                        else Without(n.sourceTasks, tid))
    else n
  }

  /** The `pay` call goes out; without an answer the call fails and the invoice stays cached. */
  function DoPay(n: Net, tid: nat, answered: bool): (after: Net)
    ensures DestinationAlone(n, after)
  {
    if tid in n.sourceTasks && n.sourceTasks[tid].PayingInvoice? then
      var t := n.sourceTasks[tid];
      n.(pays := n.pays + [(t.id, t.invoice)],
         sourceTasks := if answered then n.sourceTasks[tid := Uncaching(t.id, t.rec, false)]
                        else Without(n.sourceTasks, tid))
    else n
  }

  function DoRefundStart(n: Net, tid: nat, id: nat): (after: Net)
    ensures DestinationAlone(n, after)
  {
    if tid in n.sourceTasks || id !in n.source || RefundCall(n.source[id]).None? then n
    else n.(sourceTasks := n.sourceTasks[tid := Uncaching(id, RefundCall(n.source[id]).value, true)])
  }

  function DoUncache(n: Net, tid: nat): (after: Net)
    ensures DestinationAlone(n, after)
  {
    if tid in n.sourceTasks && n.sourceTasks[tid].Uncaching? then
      var t := n.sourceTasks[tid];
      n.(cache := n.cache - {t.id},
         refunds := if t.refund then n.refunds + [t.id] else n.refunds,
         sourceTasks := n.sourceTasks[tid := Putting(t.id, t.rec)])
    else n
  }

  function DoPut(n: Net, tid: nat): (after: Net)
    ensures DestinationAlone(n, after)
  {
    if tid in n.sourceTasks && n.sourceTasks[tid].Putting? then
      n.(source := n.source[n.sourceTasks[tid].id := n.sourceTasks[tid].rec],
         sourceTasks := Without(n.sourceTasks, tid))
    else n
  }

  /** `recover`: the invoice cache rebuilt from durable records. */
  function RecoveredCache(source: map<nat, Record>): map<nat, Bolt11> {
    map id | id in source && source[id].invoice.Some? && AwaitsPayment(source[id].state) :: source[id].invoice.value
  }

  /** The source's own `/payout` route, which asks the source's own rail. */
  function DoLocalPayout(n: Net, id: nat, behaviour: Behaviour): (after: Net)
    ensures DestinationAlone(n, after)
  {
    if id in n.source && RequestCall(n.source[id]).Some? then
      var asked := RequestCall(n.source[id]).value;
      var (rail, reply) := Initiate(n.sourceRail, asked.reservation.value, id, behaviour);
      var seen := ObserveCall(asked, reply);
      if seen.Some? then n.(sourceRail := rail, source := n.source[id := seen.value]) else n.(sourceRail := rail)
    else n
  }

  function DoLocalReconcile(n: Net, id: nat): (after: Net)
    ensures DestinationAlone(n, after)
  {
    if id in n.source && id in n.sourceRail.payouts
       && ReconcileCall(n.source[id], n.sourceRail.payouts[id]).Some?
    then n.(source := n.source[id := ReconcileCall(n.source[id], n.sourceRail.payouts[id]).value])
    else n
  }

  // -------------------------------------------------------- the destination

  function DoPrepare(
    n: Net, tid: nat, id: nat, fiat: nat, btc: nat, expires: Option<int>, reservation: nat, now: int): (after: Net)
    ensures SourceAlone(n, after)
  {
    var next := PrepareCall(fiat, btc, expires, reservation, now);
    if tid in n.destinationTasks || id in n.destination || reservation in n.usedReservations || next.None? then n
    else n.(rail := n.rail.(reservations := n.rail.reservations + {reservation}),
            usedReservations := n.usedReservations + {reservation},
            destinationTasks := n.destinationTasks[tid := Storing(id, next.value, None)])
  }

  function DoRequest(n: Net, tid: nat, id: nat): (after: Net)
    ensures SourceAlone(n, after)
  {
    if tid in n.destinationTasks || id !in n.destination || RequestCall(n.destination[id]).None? then n
    else n.(destinationTasks := n.destinationTasks[tid := Initiating(id, RequestCall(n.destination[id]).value)])
  }

  /** The rail's answer: a new decision enters the history, and the computed record goes on to be stored. */
  function Answered(n: Net, tid: nat, id: nat, rec: Record, rail: Rail, reply: RailReply): (after: Net)
    ensures SourceAlone(n, after)
  {
    n.(rail := rail, decided := Decisions(n, id, rail), destinationTasks := AnsweredTasks(n, tid, id, rec, reply))
  }

  function Decisions(n: Net, id: nat, rail: Rail): map<nat, Outcome> {
    if id in rail.payouts && id !in n.rail.payouts then n.decided[id := rail.payouts[id]] else n.decided
  }

  function AnsweredTasks(n: Net, tid: nat, id: nat, rec: Record, reply: RailReply): map<nat, DestinationTask> {
    var seen := ObserveCall(rec, reply);
    if seen.Some?
    then n.destinationTasks[tid := Storing(id, seen.value, if reply.Said? then Some(reply.outcome) else None)]
    else Without(n.destinationTasks, tid)
  }

  function DoAskRail(n: Net, tid: nat, behaviour: Behaviour): (after: Net)
    ensures SourceAlone(n, after)
  {
    if tid in n.destinationTasks && n.destinationTasks[tid].Initiating?
       && n.destinationTasks[tid].rec.reservation.Some?
    then
      var t := n.destinationTasks[tid];
      var (rail, reply) := Initiate(n.rail, t.rec.reservation.value, t.id, behaviour);
      Answered(n, tid, t.id, t.rec, rail, reply)
    else n
  }

  function DoReconcile(n: Net, tid: nat, id: nat): (after: Net)
    ensures SourceAlone(n, after)
  {
    if tid in n.destinationTasks || id !in n.destination || id !in n.rail.payouts
       || ReconcileCall(n.destination[id], n.rail.payouts[id]).None?
    then n
    else n.(destinationTasks := n.destinationTasks[
              tid := Storing(id, ReconcileCall(n.destination[id], n.rail.payouts[id]).value, Some(n.rail.payouts[id]))])
  }

  function DoStore(n: Net, tid: nat): (after: Net)
    ensures SourceAlone(n, after)
  {
    if tid in n.destinationTasks && n.destinationTasks[tid].Storing? then
      var t := n.destinationTasks[tid];
      n.(destination := n.destination[t.id := t.rec],
         destinationTasks := if t.sign.Some? then n.destinationTasks[tid := Signing(t.id, t.sign.value)]
                             else Without(n.destinationTasks, tid))
    else n
  }

  function DoSign(n: Net, tid: nat): (after: Net)
    ensures SourceAlone(n, after)
  {
    if tid in n.destinationTasks && n.destinationTasks[tid].Signing? then
      n.(signed := n.signed + {(n.destinationTasks[tid].id, n.destinationTasks[tid].outcome)},
         destinationTasks := Without(n.destinationTasks, tid))
    else n
  }

  function Next(n: Net, step: Step): Net {
    match step
    case Begin(tid, id, fiat, btc, expires) => DoBegin(n, tid, id, fiat, btc, expires)
    case Attach(tid, invoice, reservation, now) => DoAttach(n, tid, invoice, reservation, now)
    case Apply(tid, a) => DoApply(n, tid, a)
    case MarkUnknown(tid, id) => DoMarkUnknown(n, tid, id)
    case RecordEvidence(tid, a) => DoRecord(n, tid, a)
    case Release(tid, id) => DoRelease(n, tid, id)
    case ReadCache(tid) => DoReadCache(n, tid)
    case Pay(tid, answered) => DoPay(n, tid, answered)
    case RefundStart(tid, id) => DoRefundStart(n, tid, id)
    case Uncache(tid) => DoUncache(n, tid)
    case Put(tid) => DoPut(n, tid)
    case SourceAbandon(tid) => n.(sourceTasks := Without(n.sourceTasks, tid))
    case SourceRestart => n.(sourceTasks := map[], cache := RecoveredCache(n.source))
    case LocalPayout(id, behaviour) => DoLocalPayout(n, id, behaviour)
    case LocalReconcile(id) => DoLocalReconcile(n, id)
    case Prepare(tid, id, fiat, btc, expires, reservation, now) =>
      DoPrepare(n, tid, id, fiat, btc, expires, reservation, now)
    case Request(tid, id) => DoRequest(n, tid, id)
    case AskRail(tid, behaviour) => DoAskRail(n, tid, behaviour)
    case Reconcile(tid, id) => DoReconcile(n, tid, id)
    case Store(tid) => DoStore(n, tid)
    case Sign(tid) => DoSign(n, tid)
    case DestinationAbandon(tid) => n.(destinationTasks := Without(n.destinationTasks, tid))
    case DestinationRestart(wipes) =>
      n.(destinationTasks := map[], rail := if wipes then EMPTY_RAIL else n.rail)
  }

  lemma SourceStepIsAlone(n: Net, step: Step)
    requires SourceStep(step)
    ensures DestinationAlone(n, Next(n, step))
  {
  }

  lemma DestinationStepIsAlone(n: Net, step: Step)
    requires !SourceStep(step)
    ensures SourceAlone(n, Next(n, step))
  {
  }

  function Run(n: Net, steps: seq<Step>): Net {
    if |steps| == 0 then n else Next(Run(n, steps[..|steps| - 1]), steps[|steps| - 1])
  }
}
