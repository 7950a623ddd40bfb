/**
 The source pays only when the destination's rail confirmed the payout and refunds only when
 it failed; evidence never conflicts; and every payment carries the one invoice attached.
 */
module SettlementSafety {
  import opened Core
  import opened Settlement
  import opened SettlementProtocol
  import opened SettlementCalls

  // ------------------------------------------------- the destination's word

  /** The rail remembers what was decided. */
  predicate RailTrue(n: Net) {
    && n.rail.reservations <= n.usedReservations
    && (forall id :: id in n.rail.payouts ==> id in n.decided && n.decided[id] == n.rail.payouts[id])
  }

  /** The record's reservation is one that was made. */
  predicate Reserved(n: Net, rec: Record) {
    rec.reservation.Some? ==> rec.reservation.value in n.usedReservations
  }

  /** If the rail forgot a decision, this record's reservation is gone from it too. */
  predicate Spent(n: Net, id: nat, rec: Record) {
    id in n.decided && id !in n.rail.payouts && rec.reservation.Some? ==>
      rec.reservation.value !in n.rail.reservations
  }

  predicate RecordsHeld(n: Net) {
    && (forall id :: id in n.destination ==> Reserved(n, n.destination[id]) && Spent(n, id, n.destination[id]))
    && (forall id :: id in n.decided ==> id in n.destination)
  }

  predicate DTaskTrue(n: Net, t: DestinationTask) {
    match t
    case Initiating(id, rec) => id in n.destination && Reserved(n, rec) && Spent(n, id, rec)
    case Storing(id, rec, sign) =>
      && Reserved(n, rec) && Spent(n, id, rec)
      && (sign.Some? ==> id in n.decided && n.decided[id] == sign.value)
    case Signing(id, o) => id in n.decided && n.decided[id] == o
  }

  predicate DTasksTrue(n: Net) {
    forall t :: t in n.destinationTasks ==> DTaskTrue(n, n.destinationTasks[t])
  }

  predicate SignedTrue(n: Net) {
    forall w :: w in n.signed ==> w.0 in n.decided && n.decided[w.0] == w.1
  }

  predicate DestinationTrue(n: Net) {
    RailTrue(n) && RecordsHeld(n) && DTasksTrue(n) && SignedTrue(n)
  }

  // ------------------------------------------------------- the source's acts

  /** Every piece of evidence states the decision. */
  predicate AllAgree(decided: map<nat, Outcome>, id: nat, evidence: seq<Attestation>) {
    && (|evidence| > 0 ==> id in decided)
    && (forall k :: 0 <= k < |evidence| ==> evidence[k].status == decided[id])
  }

  /** What a source record, stored or in hand, may say given what was decided and attached. */
  predicate Justified(n: Net, id: nat, rec: Record) {
    && (rec.state.PayoutConfirmed? || rec.state.Released? ==> id in n.decided && n.decided[id].Confirmed?)
    && (rec.state.PayoutFailed? || rec.state.Refunded? ==> id in n.decided && n.decided[id].Failed?)
    && !rec.state.Disputed?
    && AllAgree(n.decided, id, rec.attestations)
    && (rec.invoice.Some? ==> id in n.attached && n.attached[id] == rec.invoice.value
                              && rec.invoice.value.amount == Some(rec.btc))
    && (rec.invoice.Some? <==> Attached(rec.state))
  }

  predicate STaskTrue(n: Net, t: SourceTask) {
    match t
    case Attaching(id) => id in n.source && id !in n.attached
    case Putting(id, rec) => Justified(n, id, rec) && id in n.source
    case Paying(id, rec) => Justified(n, id, rec) && id in n.source && rec.state.Released?
    case PayingInvoice(id, rec, invoice) =>
      Justified(n, id, rec) && id in n.source && rec.state.Released? && rec.invoice == Some(invoice)
    case Uncaching(id, rec, refund) =>
      Justified(n, id, rec) && id in n.source && (refund ==> rec.state.Refunded?)
  }

  predicate STasksTrue(n: Net) {
    && (forall t :: t in n.sourceTasks ==> STaskTrue(n, n.sourceTasks[t]))
    && (forall t, u ::
          (t in n.sourceTasks && u in n.sourceTasks && t != u && n.sourceTasks[t].Attaching? && n.sourceTasks[u].Attaching?) ==>
          n.sourceTasks[t].id != n.sourceTasks[u].id)
  }

  predicate StoreTrue(n: Net) {
    && (forall id :: id in n.source ==> Justified(n, id, n.source[id]))
    && (forall id :: id in n.cache ==> id in n.attached && n.attached[id] == n.cache[id])
    && (forall id :: id in n.attached ==> id in n.source)
    && n.sourceRail.payouts == map[]
  }

  predicate ActsTrue(n: Net) {
    && (forall k :: 0 <= k < |n.pays| ==>
          && n.pays[k].0 in n.decided && n.decided[n.pays[k].0].Confirmed?
          && n.pays[k].0 in n.attached && n.attached[n.pays[k].0] == n.pays[k].1)
    && (forall k :: 0 <= k < |n.refunds| ==> n.refunds[k] in n.decided && n.decided[n.refunds[k]].Failed?)
  }

  predicate SourceTrue(n: Net) {
    StoreTrue(n) && STasksTrue(n) && ActsTrue(n)
  }

  predicate Safe(n: Net) {
    DestinationTrue(n) && SourceTrue(n) && n.peer == Some(DESTINATION)
  }

  /**
   The source's own payout is not asked for, neither on its local `/payout` route nor on the
   `/peer/.../payout` route, which reaches the same call on its records.
   */
  predicate Permitted(step: Step) {
    !step.LocalPayout?
  }

  // ------------------------------------------------- destination steps keep it

  lemma PrepareKeeps(n: Net, after: Net, tid: nat, id: nat, rec: Record, reservation: nat)
    requires DestinationTrue(n) && reservation !in n.usedReservations && id !in n.destination
    requires rec.reservation == Some(reservation)
    requires after.decided == n.decided && after.signed == n.signed && after.destination == n.destination
    requires after.rail == n.rail.(reservations := n.rail.reservations + {reservation})
    requires after.usedReservations == n.usedReservations + {reservation}
    requires after.destinationTasks == n.destinationTasks[tid := Storing(id, rec, None)]
    ensures DestinationTrue(after)
  {
    forall d | d in after.destination
      ensures Reserved(after, after.destination[d]) && Spent(after, d, after.destination[d])
    {
      assert Reserved(n, n.destination[d]) && Spent(n, d, n.destination[d]);
    }
    forall t | t in after.destinationTasks ensures DTaskTrue(after, after.destinationTasks[t]) {
      if t != tid {
        assert DTaskTrue(n, n.destinationTasks[t]);
      }
    }
  }

  /** Steps that neither touch the rail nor decide anything. */
  lemma BookkeepingKeeps(n: Net, after: Net)
    requires DestinationTrue(n)
    requires after.decided == n.decided && after.rail == n.rail && after.usedReservations == n.usedReservations
    requires forall id :: id in n.destination ==> id in after.destination
    requires forall id :: id in after.destination ==>
      Reserved(after, after.destination[id]) && Spent(after, id, after.destination[id])
    requires forall t :: t in after.destinationTasks ==>
      (t in n.destinationTasks && after.destinationTasks[t] == n.destinationTasks[t])
      || DTaskTrue(after, after.destinationTasks[t])
    requires SignedTrue(after)
    ensures DestinationTrue(after)
  {
    forall t | t in after.destinationTasks ensures DTaskTrue(after, after.destinationTasks[t]) {
      if !DTaskTrue(after, after.destinationTasks[t]) {
        assert DTaskTrue(n, n.destinationTasks[t]);
      }
    }
  }

  /** The rail is asked: a decision already made is replayed, never remade. */
  lemma AskRailKeeps(n: Net, tid: nat, behaviour: Behaviour)
    requires DestinationTrue(n) && tid in n.destinationTasks && n.destinationTasks[tid].Initiating?
    requires n.destinationTasks[tid].rec.reservation.Some?
    ensures DestinationTrue(DoAskRail(n, tid, behaviour))
    ensures forall id :: id in n.decided ==>
      id in DoAskRail(n, tid, behaviour).decided && DoAskRail(n, tid, behaviour).decided[id] == n.decided[id]
  {
    var after := DoAskRail(n, tid, behaviour);
    var t := n.destinationTasks[tid];
    assert DTaskTrue(n, t);
    RailAnswers(n, after, tid, behaviour);
    forall d | d in after.destination
      ensures Reserved(after, after.destination[d]) && Spent(after, d, after.destination[d])
    {
      assert Reserved(n, n.destination[d]) && Spent(n, d, n.destination[d]);
    }
    forall u | u in after.destinationTasks ensures DTaskTrue(after, after.destinationTasks[u]) {
      if u != tid {
        assert DTaskTrue(n, n.destinationTasks[u]);
      }
    }
  }

  /** What the rail's answer changes. */
  lemma RailAnswers(n: Net, after: Net, tid: nat, behaviour: Behaviour)
    requires RailTrue(n) && tid in n.destinationTasks && n.destinationTasks[tid].Initiating?
    requires n.destinationTasks[tid].rec.reservation.Some?
    requires Spent(n, n.destinationTasks[tid].id, n.destinationTasks[tid].rec)
    requires after == DoAskRail(n, tid, behaviour)
    ensures var t := n.destinationTasks[tid];
            && after.rail.reservations == n.rail.reservations
            && after.usedReservations == n.usedReservations && after.signed == n.signed
            && after.destination == n.destination
            && RailTrue(after)
            && after.decided.Keys <= n.decided.Keys + {t.id}
            && after.rail.payouts.Keys >= n.rail.payouts.Keys
            && (forall id :: id in n.decided ==> id in after.decided && after.decided[id] == n.decided[id])
            && (t.id in after.decided && t.id !in n.decided ==> t.id in after.rail.payouts)
            && (forall u :: u in after.destinationTasks && u != tid ==>
                  u in n.destinationTasks && after.destinationTasks[u] == n.destinationTasks[u])
            && (tid in after.destinationTasks ==>
                  && after.destinationTasks[tid].Storing?
                  && after.destinationTasks[tid].id == t.id
                  && after.destinationTasks[tid].rec.reservation == t.rec.reservation
                  && (after.destinationTasks[tid].sign.Some? ==>
                        t.id in after.decided && after.decided[t.id] == after.destinationTasks[tid].sign.value))
  {
  }

  lemma StoreKeeps(n: Net, tid: nat)
    requires DestinationTrue(n) && tid in n.destinationTasks && n.destinationTasks[tid].Storing?
    ensures DestinationTrue(DoStore(n, tid))
  {
    assert DTaskTrue(n, n.destinationTasks[tid]);
    var after := DoStore(n, tid);
    forall d | d in after.destination
      ensures Reserved(after, after.destination[d]) && Spent(after, d, after.destination[d])
    {
      if d != n.destinationTasks[tid].id {
        assert Reserved(n, n.destination[d]) && Spent(n, d, n.destination[d]);
      }
    }
    BookkeepingKeeps(n, after);
  }

  /** A call begins from a stored record. */
  lemma TaskStartKeeps(n: Net, after: Net, tid: nat, id: nat)
    requires DestinationTrue(n) && id in n.destination
    requires after == DoRequest(n, tid, id) || after == DoReconcile(n, tid, id)
    ensures DestinationTrue(after)
  {
    if after != n {
      assert Reserved(n, n.destination[id]) && Spent(n, id, n.destination[id]);
      BookkeepingKeeps(n, after);
    }
  }

  lemma SignKeeps(n: Net, after: Net, tid: nat)
    requires DestinationTrue(n) && after == DoSign(n, tid)
    ensures DestinationTrue(after)
  {
    if tid in n.destinationTasks && n.destinationTasks[tid].Signing? {
      assert DTaskTrue(n, n.destinationTasks[tid]);
      BookkeepingKeeps(n, after);
    }
  }

  lemma DestinationAbandonKeeps(n: Net, after: Net, tid: nat)
    requires DestinationTrue(n) && after == n.(destinationTasks := Without(n.destinationTasks, tid))
    ensures DestinationTrue(after)
  {
    BookkeepingKeeps(n, after);
  }

  lemma DestinationRestartKeeps(n: Net, wipes: bool)
    requires DestinationTrue(n)
    ensures DestinationTrue(Next(n, DestinationRestart(wipes)))
  {
    var after := Next(n, DestinationRestart(wipes));
    forall d | d in after.destination
      ensures Reserved(after, after.destination[d]) && Spent(after, d, after.destination[d])
    {
      assert Reserved(n, n.destination[d]) && Spent(n, d, n.destination[d]);
    }
  }

  lemma DestinationStepKeeps(n: Net, step: Step)
    requires DestinationTrue(n) && !SourceStep(step)
    ensures DestinationTrue(Next(n, step))
    ensures DecisionsStand(n, Next(n, step))
  {
    match step
    case Prepare(tid, id, fiat, btc, expires, reservation, now) =>
      if Next(n, step) != n {
        PrepareKeeps(n, Next(n, step), tid, id, PrepareCall(fiat, btc, expires, reservation, now).value, reservation);
      }
    case AskRail(tid, behaviour) =>
      if tid in n.destinationTasks && n.destinationTasks[tid].Initiating? && n.destinationTasks[tid].rec.reservation.Some? {
        AskRailKeeps(n, tid, behaviour);
      }
    case Request(tid, id) =>
      if id in n.destination {
        TaskStartKeeps(n, Next(n, step), tid, id);
      }
    case Reconcile(tid, id) =>
      if id in n.destination {
        TaskStartKeeps(n, Next(n, step), tid, id);
      }
    case Store(tid) =>
      if tid in n.destinationTasks && n.destinationTasks[tid].Storing? {
        StoreKeeps(n, tid);
      }
    case Sign(tid) => SignKeeps(n, Next(n, step), tid);
    case DestinationAbandon(tid) => DestinationAbandonKeeps(n, Next(n, step), tid);
    case DestinationRestart(wipes) => DestinationRestartKeeps(n, wipes);
  }

  // ------------------------------------------------------- source steps keep it

  predicate DecisionsStand(n: Net, after: Net) {
    forall id :: id in n.decided ==> id in after.decided && after.decided[id] == n.decided[id]
  }

  /** More decisions and attachments never unjustify a record. */
  predicate Grows(n: Net, after: Net) {
    && DecisionsStand(n, after)
    && (forall id :: id in n.attached ==> id in after.attached && after.attached[id] == n.attached[id])
    && (forall id :: id in n.source ==> id in after.source)
  }

  lemma JustifiedStays(n: Net, after: Net, id: nat, rec: Record)
    requires Grows(n, after) && Justified(n, id, rec)
    ensures Justified(after, id, rec)
  {
  }

  lemma STaskStays(n: Net, after: Net, t: SourceTask)
    requires Grows(n, after) && STaskTrue(n, t)
    requires t.Attaching? ==> t.id !in after.attached
    ensures STaskTrue(after, t)
  {
    match t
    case Attaching(_) =>
    case Putting(id, rec) => JustifiedStays(n, after, id, rec);
    case Paying(id, rec) => JustifiedStays(n, after, id, rec);
    case PayingInvoice(id, rec, _) => JustifiedStays(n, after, id, rec);
    case Uncaching(id, rec, _) => JustifiedStays(n, after, id, rec);
  }

  /** A destination step leaves the source true. */
  lemma SourceUnmoved(n: Net, after: Net)
    requires SourceTrue(n) && SourceAlone(n, after) && DecisionsStand(n, after)
    ensures SourceTrue(after)
  {
    forall id | id in after.source ensures Justified(after, id, after.source[id]) {
      JustifiedStays(n, after, id, n.source[id]);
    }
    forall t | t in after.sourceTasks ensures STaskTrue(after, after.sourceTasks[t]) {
      STaskStays(n, after, n.sourceTasks[t]);
    }
  }

  /** A source step that changes one task and nothing the invariant reads elsewhere. */
  lemma OneTask(n: Net, after: Net, tid: nat)
    requires SourceTrue(n)
    requires after.source == n.source && after.sourceRail == n.sourceRail
    requires after.attached == n.attached && after.decided == n.decided
    requires forall id :: id in after.cache ==> id in n.cache && after.cache[id] == n.cache[id]
    requires ActsTrue(after)
    requires forall t :: t in after.sourceTasks && t != tid ==> t in n.sourceTasks && after.sourceTasks[t] == n.sourceTasks[t]
    requires tid in after.sourceTasks ==> !after.sourceTasks[tid].Attaching? && STaskTrue(after, after.sourceTasks[tid])
    ensures SourceTrue(after)
  {
    forall id | id in after.source ensures Justified(after, id, after.source[id]) {
      JustifiedStays(n, after, id, n.source[id]);
    }
    forall t | t in after.sourceTasks ensures STaskTrue(after, after.sourceTasks[t]) {
      if t != tid {
        STaskStays(n, after, n.sourceTasks[t]);
      }
    }
  }

  lemma BeginKeeps(n: Net, after: Net, tid: nat, id: nat, rec: Record)
    requires SourceTrue(n) && id !in n.source && tid !in n.sourceTasks
    requires rec.state.Quoted? && rec.invoice.None? && rec.attestations == []
    requires after == n.(source := n.source[id := rec], sourceTasks := n.sourceTasks[tid := Attaching(id)])
    ensures SourceTrue(after)
  {
    forall d | d in after.source ensures Justified(after, d, after.source[d]) {
      if d != id {
        JustifiedStays(n, after, d, n.source[d]);
      }
    }
    forall t | t in after.sourceTasks ensures STaskTrue(after, after.sourceTasks[t]) {
      if t != tid {
        STaskStays(n, after, n.sourceTasks[t]);
      }
    }
    forall t | t in n.sourceTasks && n.sourceTasks[t].Attaching? ensures n.sourceTasks[t].id != id {
      assert STaskTrue(n, n.sourceTasks[t]);
    }
  }

  lemma AttachKeeps(n: Net, after: Net, tid: nat, id: nat, rec: Record, invoice: Bolt11)
    requires SourceTrue(n) && tid in n.sourceTasks && n.sourceTasks[tid] == Attaching(id)
    requires rec.invoice == Some(invoice) && invoice.amount == Some(rec.btc) && id in n.source
    requires rec.state.ConditionCreated? && rec.attestations == n.source[id].attestations
    requires after.source == n.source && after.decided == n.decided
    requires after.cache == n.cache[id := invoice] && after.attached == n.attached[id := invoice]
    requires after.sourceTasks == n.sourceTasks[tid := Putting(id, rec)]
    requires after.sourceRail.payouts == n.sourceRail.payouts
    requires after.pays == n.pays && after.refunds == n.refunds
    ensures SourceTrue(after)
  {
    assert STaskTrue(n, Attaching(id));
    assert Grows(n, after);
    forall d | d in after.source ensures Justified(after, d, after.source[d]) {
      JustifiedStays(n, after, d, n.source[d]);
    }
    forall t | t in after.sourceTasks ensures STaskTrue(after, after.sourceTasks[t]) {
      if t != tid {
        STaskStays(n, after, n.sourceTasks[t]);
      }
    }
  }

  lemma PutKeeps(n: Net, after: Net, tid: nat, id: nat, rec: Record)
    requires SourceTrue(n) && tid in n.sourceTasks && n.sourceTasks[tid] == Putting(id, rec)
    requires after == n.(source := n.source[id := rec], sourceTasks := Without(n.sourceTasks, tid))
    ensures SourceTrue(after)
  {
    assert STaskTrue(n, Putting(id, rec));
    forall d | d in after.source ensures Justified(after, d, after.source[d]) {
      JustifiedStays(n, after, d, after.source[d]);
    }
    forall t | t in after.sourceTasks ensures STaskTrue(after, after.sourceTasks[t]) {
      STaskStays(n, after, n.sourceTasks[t]);
    }
  }

  /** Evidence for what was decided, applied to a justified record, gives a justified record. */
  lemma ApplyJustifies(n: Net, id: nat, rec: Record, a: Attestation)
    requires Justified(n, id, rec) && id in n.decided && n.decided[id] == a.status && ApplyCall(rec, a).Some?
    ensures Justified(n, id, ApplyCall(rec, a).value)
  {
    var next := ApplyCall(rec, a).value;
    assert next.state == Settled(a.status);
    assert next.attestations == rec.attestations + [a];
  }

  /** Recorded evidence never conflicts with evidence recorded before. */
  lemma RecordJustifies(n: Net, id: nat, rec: Record, a: Attestation)
    requires Justified(n, id, rec) && id in n.decided && n.decided[id] == a.status
    ensures RecordCall(rec, a).Some? && Justified(n, id, RecordCall(rec, a).value)
  {
    assert !Conflicts(rec, a);
    assert RecordCall(rec, a).value == rec.(attestations := rec.attestations + [a]);
  }

  lemma OwnCallsJustify(n: Net, id: nat, rec: Record)
    requires Justified(n, id, rec)
    ensures MarkUnknownCall(rec).Some? ==> Justified(n, id, MarkUnknownCall(rec).value)
    ensures ReleaseCall(rec).Some? ==>
      Justified(n, id, ReleaseCall(rec).value) && ReleaseCall(rec).value.state.Released?
    ensures RefundCall(rec).Some? ==>
      Justified(n, id, RefundCall(rec).value) && RefundCall(rec).value.state.Refunded?
  {
    if MarkUnknownCall(rec).Some? {
      var next := MarkUnknownCall(rec).value;
      assert next.state.PayoutUnknown? && next.attestations == rec.attestations && next.invoice == rec.invoice;
      assert Justified(n, id, next);
    }
    if ReleaseCall(rec).Some? {
      assert ReleaseCall(rec).value == rec.(state := Released);
    }
    if RefundCall(rec).Some? {
      assert RefundCall(rec).value == rec.(state := Refunded);
    }
  }

  lemma EvidenceIsHonest(n: Net, a: Attestation)
    requires Safe(n) && Deliverable(n, a) && Authorised(n, a)
    ensures a.id in n.decided && n.decided[a.id] == a.status
  {
    assert (a.id, a.status) in n.signed;
  }

  lemma ComputeKeeps(n: Net, tid: nat, id: nat, next: Option<Record>)
    requires SourceTrue(n) && id in n.source && (next.Some? ==> Justified(n, id, next.value))
    ensures SourceTrue(Compute(n, tid, id, next))
  {
    var after := Compute(n, tid, id, next);
    if after != n {
      JustifiedStays(n, after, id, next.value);
      OneTask(n, after, tid);
    }
  }

  lemma EvidenceStepKeeps(n: Net, step: Step)
    requires Safe(n) && (step.Apply? || step.RecordEvidence?)
    ensures SourceTrue(Next(n, step))
  {
    var a := step.attestation;
    if Deliverable(n, a) && Authorised(n, a) && a.id in n.source {
      EvidenceIsHonest(n, a);
      var rec := n.source[a.id];
      RecordJustifies(n, a.id, rec, a);
      if ApplyCall(rec, a).Some? {
        ApplyJustifies(n, a.id, rec, a);
      }
      ComputeKeeps(n, step.tid, a.id, if step.Apply? then ApplyCall(rec, a) else RecordCall(rec, a));
    }
  }

  lemma MarkUnknownKeeps(n: Net, after: Net, tid: nat, id: nat)
    requires SourceTrue(n) && after == DoMarkUnknown(n, tid, id)
    ensures SourceTrue(after)
  {
    if id in n.source {
      OwnCallsJustify(n, id, n.source[id]);
      ComputeKeeps(n, tid, id, MarkUnknownCall(n.source[id]));
    }
  }

  /** A call on a stored record leaves one new task that holds a justified record. */
  lemma NewTaskKeeps(n: Net, after: Net, tid: nat, task: SourceTask)
    requires SourceTrue(n) && after == n.(sourceTasks := n.sourceTasks[tid := task])
    requires !task.Attaching? && STaskTrue(n, task)
    ensures SourceTrue(after)
  {
    STaskStays(n, after, task);
    OneTask(n, after, tid);
  }

  lemma ReleaseKeeps(n: Net, after: Net, tid: nat, id: nat)
    requires SourceTrue(n) && after == DoRelease(n, tid, id)
    ensures SourceTrue(after)
  {
    if after != n {
      OwnCallsJustify(n, id, n.source[id]);
      NewTaskKeeps(n, after, tid, Paying(id, ReleaseCall(n.source[id]).value));
    }
  }

  lemma RefundStartKeeps(n: Net, after: Net, tid: nat, id: nat)
    requires SourceTrue(n) && after == DoRefundStart(n, tid, id)
    ensures SourceTrue(after)
  {
    if after != n {
      OwnCallsJustify(n, id, n.source[id]);
      NewTaskKeeps(n, after, tid, Uncaching(id, RefundCall(n.source[id]).value, true));
    }
  }

  lemma TaskStepKeeps(n: Net, after: Net, tid: nat, task: Option<SourceTask>)
    requires SourceTrue(n) && tid in n.sourceTasks && !n.sourceTasks[tid].Attaching?
    requires task.Some? ==>
      && !task.value.Attaching? && task.value.id == n.sourceTasks[tid].id && task.value.rec == n.sourceTasks[tid].rec
      && STaskTrue(n, task.value)
    requires after.source == n.source && after.sourceRail == n.sourceRail
    requires after.attached == n.attached && after.decided == n.decided
    requires forall id :: id in after.cache ==> id in n.cache && after.cache[id] == n.cache[id]
    requires after.sourceTasks == if task.Some? then n.sourceTasks[tid := task.value] else Without(n.sourceTasks, tid)
    requires ActsTrue(after)
    ensures SourceTrue(after)
  {
    if task.Some? {
      STaskStays(n, after, task.value);
    }
    OneTask(n, after, tid);
  }

  lemma PayKeeps(n: Net, tid: nat, answered: bool)
    requires SourceTrue(n) && tid in n.sourceTasks && n.sourceTasks[tid].PayingInvoice?
    ensures SourceTrue(DoPay(n, tid, answered))
  {
    var t := n.sourceTasks[tid];
    assert STaskTrue(n, t);
    var after := DoPay(n, tid, answered);
    assert after.pays == n.pays + [(t.id, t.invoice)];
    TaskStepKeeps(n, after, tid, if answered then Some(Uncaching(t.id, t.rec, false)) else None);
  }

  lemma ReadCacheKeeps(n: Net, tid: nat)
    requires SourceTrue(n) && tid in n.sourceTasks && n.sourceTasks[tid].Paying?
    ensures SourceTrue(DoReadCache(n, tid))
  {
    var t := n.sourceTasks[tid];
    assert STaskTrue(n, t);
    TaskStepKeeps(n, DoReadCache(n, tid), tid,
                  if t.id in n.cache then Some(PayingInvoice(t.id, t.rec, n.cache[t.id])) else None);
  }

  lemma UncacheKeeps(n: Net, tid: nat)
    requires SourceTrue(n) && tid in n.sourceTasks && n.sourceTasks[tid].Uncaching?
    ensures SourceTrue(DoUncache(n, tid))
  {
    var t := n.sourceTasks[tid];
    assert STaskTrue(n, t);
    TaskStepKeeps(n, DoUncache(n, tid), tid, Some(Putting(t.id, t.rec)));
  }

  lemma RestartKeeps(n: Net)
    requires SourceTrue(n)
    ensures SourceTrue(Next(n, SourceRestart))
  {
    var after := Next(n, SourceRestart);
    forall id | id in after.source ensures Justified(after, id, after.source[id]) {
      JustifiedStays(n, after, id, n.source[id]);
    }
    forall id | id in after.cache ensures id in after.attached && after.attached[id] == after.cache[id] {
      assert Justified(n, id, n.source[id]);
    }
  }

  lemma AttachStepKeeps(n: Net, after: Net, tid: nat, invoice: Bolt11, reservation: nat, now: int)
    requires SourceTrue(n) && after == DoAttach(n, tid, invoice, reservation, now)
    ensures SourceTrue(after)
  {
    if tid in n.sourceTasks && n.sourceTasks[tid].Attaching? && n.sourceTasks[tid].id in n.source {
      var id := n.sourceTasks[tid].id;
      var next := AttachCall(n.source[id], invoice, reservation, now);
      AttachedRecord(n.source[id], invoice, reservation, now);
      if next.None? {
        OneTask(n, after, tid);
      } else {
        AttachKeeps(n, after, tid, id, next.value, invoice);
      }
    }
  }

  lemma AttachedRecord(rec: Record, invoice: Bolt11, reservation: nat, now: int)
    ensures var next := AttachCall(rec, invoice, reservation, now);
            next.Some? ==>
              && next.value.state.ConditionCreated? && next.value.invoice == Some(invoice)
              && invoice.amount == Some(next.value.btc) && next.value.attestations == rec.attestations
  {
  }

  lemma SourceStepKeeps(n: Net, step: Step)
    requires Safe(n) && SourceStep(step) && Permitted(step)
    ensures SourceTrue(Next(n, step))
  {
    match step
    case Begin(tid, id, fiat, btc, expires) =>
      if tid !in n.sourceTasks && id !in n.source {
        BeginKeeps(n, Next(n, step), tid, id, NewRecord(fiat, btc, expires));
      }
    case Attach(tid, invoice, reservation, now) => AttachStepKeeps(n, Next(n, step), tid, invoice, reservation, now);
    case Put(tid) =>
      if tid in n.sourceTasks && n.sourceTasks[tid].Putting? {
        PutKeeps(n, Next(n, step), tid, n.sourceTasks[tid].id, n.sourceTasks[tid].rec);
      }
    case SourceRestart => RestartKeeps(n);
    case LocalReconcile(id) =>
    case Apply(_, _) | RecordEvidence(_, _) => EvidenceStepKeeps(n, step);
    case MarkUnknown(tid, id) => MarkUnknownKeeps(n, Next(n, step), tid, id);
    case Release(tid, id) => ReleaseKeeps(n, Next(n, step), tid, id);
    case RefundStart(tid, id) => RefundStartKeeps(n, Next(n, step), tid, id);
    case ReadCache(tid) =>
      if tid in n.sourceTasks && n.sourceTasks[tid].Paying? {
        ReadCacheKeeps(n, tid);
      }
    case Pay(tid, answered) =>
      if tid in n.sourceTasks && n.sourceTasks[tid].PayingInvoice? {
        PayKeeps(n, tid, answered);
      }
    case Uncache(tid) =>
      if tid in n.sourceTasks && n.sourceTasks[tid].Uncaching? {
        UncacheKeeps(n, tid);
      }
    case SourceAbandon(tid) => OneTask(n, Next(n, step), tid);
  }

  lemma StepKeepsSafe(n: Net, step: Step)
    requires Safe(n) && Permitted(step)
    ensures Safe(Next(n, step))
    ensures DecisionsStand(n, Next(n, step))
  {
    if SourceStep(step) {
      SourceStepKeeps(n, step);
      SourceStepIsAlone(n, step);
      DestinationUnmoved(n, Next(n, step));
    } else {
      DestinationStepKeeps(n, step);
      DestinationStepIsAlone(n, step);
      SourceUnmoved(n, Next(n, step));
    }
  }

  lemma DestinationUnmoved(n: Net, after: Net)
    requires DestinationTrue(n) && DestinationAlone(n, after)
    ensures DestinationTrue(after)
  {
    forall d | d in after.destination
      ensures Reserved(after, after.destination[d]) && Spent(after, d, after.destination[d])
    {
      assert Reserved(n, n.destination[d]) && Spent(n, d, n.destination[d]);
    }
    forall t | t in after.destinationTasks ensures DTaskTrue(after, after.destinationTasks[t]) {
      assert DTaskTrue(n, n.destinationTasks[t]);
    }
  }

  /** Safety is kept over every run, and no decision of the rail is ever remade. */
  lemma {:induction false} RunIsSafe(n: Net, steps: seq<Step>)
    requires Safe(n) && forall k :: 0 <= k < |steps| ==> Permitted(steps[k])
    ensures Safe(Run(n, steps)) && DecisionsStand(n, Run(n, steps))
  {
    if |steps| > 0 {
      var before := Run(n, steps[..|steps| - 1]);
      RunIsSafe(n, steps[..|steps| - 1]);
      StepKeepsSafe(before, steps[|steps| - 1]);
      assert DecisionsStand(before, Next(before, steps[|steps| - 1]));
    }
  }

  /**
   In every run with the peer configured and the source's own payout route unused: the rail
   decides a settlement once, even if it forgets and restarts; the source calls `pay` only if
   the decision was Confirmed and refunds only if it was Failed, so never both; no record,
   stored or in hand, is ever disputed; and every `pay` for a settlement carries the one
   invoice attached to it, which is the invoice of every record that has one and is for the
   record's amount.
   */
  lemma PaysOnlyWhatTheRailConfirmed(steps: seq<Step>)
    requires forall k :: 0 <= k < |steps| ==> Permitted(steps[k])
    ensures var n := Run(Initial(Some(DESTINATION)), steps);
            && (forall id :: id in n.rail.payouts ==> id in n.decided && n.decided[id] == n.rail.payouts[id])
            && (forall k :: 0 <= k < |n.pays| ==> n.pays[k].0 in n.decided && n.decided[n.pays[k].0].Confirmed?)
            && (forall k :: 0 <= k < |n.refunds| ==> n.refunds[k] in n.decided && n.decided[n.refunds[k]].Failed?)
            && (forall j, k :: 0 <= j < |n.pays| && 0 <= k < |n.refunds| ==> n.pays[j].0 != n.refunds[k])
            && (forall id :: id in n.source ==> !n.source[id].state.Disputed?)
            && (forall j, k :: 0 <= j < |n.pays| && 0 <= k < |n.pays| && n.pays[j].0 == n.pays[k].0 ==>
                  n.pays[j].1 == n.pays[k].1)
            && (forall k :: 0 <= k < |n.pays| && n.pays[k].0 in n.source && n.source[n.pays[k].0].invoice.Some? ==>
                  n.source[n.pays[k].0].invoice == Some(n.pays[k].1)
                  && n.pays[k].1.amount == Some(n.source[n.pays[k].0].btc))
  {
    RunIsSafe(Initial(Some(DESTINATION)), steps);
    var n := Run(Initial(Some(DESTINATION)), steps);
    forall id | id in n.source ensures Justified(n, id, n.source[id]) {
    }
  }

  /** The cache has the invoice of exactly those records that have one and can still be released. */
  ghost predicate CachesWhatMayBePaid(source: map<nat, Record>, cache: map<nat, Bolt11>) {
    forall id :: id in cache <==>
      id in source && source[id].invoice.Some? && CanStillBeReleased(source[id].state)
  }

  predicate CachesStored(source: map<nat, Record>, cache: map<nat, Bolt11>) {
    forall id :: id in cache ==> id in source && source[id].invoice == Some(cache[id])
  }

  lemma RecoversWhatMayBePaid(source: map<nat, Record>, cache: map<nat, Bolt11>)
    requires cache == RecoveredCache(source)
    requires forall id :: id in source ==> (source[id].invoice.Some? <==> Attached(source[id].state))
    ensures CachesWhatMayBePaid(source, cache) && CachesStored(source, cache)
  {
    forall id ensures
      id in cache <==> id in source && source[id].invoice.Some? && CanStillBeReleased(source[id].state)
    {
      if id in source {
        AwaitsExactlyThePayable(source[id].state);
        if Attached(source[id].state) {
          AttachedIsReachable(source[id].state);
        }
      }
    }
  }

  /**
   From every safe state, and so by `RunIsSafe` at any point of any permitted run, a restart
   of the source gives it back exactly the invoices it may still have to pay: those of the
   stored records from which release can still be reached.
   */
  lemma RestartKeepsWhatMayBePaid(n: Net, after: Net)
    requires Safe(n) && after == Next(n, SourceRestart)
    ensures after.source == n.source
    ensures CachesWhatMayBePaid(after.source, after.cache) && CachesStored(after.source, after.cache)
  {
    SafeRestart(n, after);
  }

  lemma SafeRestart(n: Net, after: Net)
    requires Safe(n) && after.source == n.source && after.cache == RecoveredCache(n.source)
    ensures CachesWhatMayBePaid(after.source, after.cache) && CachesStored(after.source, after.cache)
  {
    forall id | id in n.source ensures n.source[id].invoice.Some? <==> Attached(n.source[id].state) {
      assert Justified(n, id, n.source[id]);
    }
    RecoversWhatMayBePaid(after.source, after.cache);
  }

  // ------------------------------------------------ the conditions are needed

  /** A confirmed record whose invoice is cached is paid, whatever was decided. */
  lemma ConfirmedGetsPaid(n: Net, n1: Net, n2: Net, n3: Net, tid: nat, id: nat)
    requires tid !in n.sourceTasks && id in n.source && n.source[id].state.PayoutConfirmed? && id in n.cache
    requires n1 == DoRelease(n, tid, id) && n2 == DoReadCache(n1, tid) && n3 == DoPay(n2, tid, true)
    ensures n3.pays == n.pays + [(id, n.cache[id])] && n3.decided == n.decided
  {
    assert n1.sourceTasks[tid].Paying? && n1.cache == n.cache;
    assert n2.sourceTasks[tid] == PayingInvoice(id, n1.sourceTasks[tid].rec, n.cache[id]);
  }

  lemma StrangerConfirms(n: Net, n1: Net, n2: Net, tid: nat, id: nat, stranger: nat)
    requires n.peer.None? && stranger != DESTINATION && tid !in n.sourceTasks
    requires id in n.source && n.source[id].state.ConditionCreated?
    requires n1 == DoApply(n, tid, Attestation(id, Confirmed, stranger)) && n2 == DoPut(n1, tid)
    ensures id in n2.source && n2.source[id].state.PayoutConfirmed?
    ensures tid !in n2.sourceTasks && n2.cache == n.cache && n2.pays == n.pays
  {
    assert n1.sourceTasks[tid].Putting? && n1.sourceTasks[tid].rec.state.PayoutConfirmed?;
  }

  /** The destination prepares, asks its rail, stores what it said and signs it. */
  lemma DestinationConfirmsAndSigns(
    n: Net, n1: Net, n2: Net, n3: Net, n4: Net, n5: Net, n6: Net, tid: nat, id: nat, fiat: nat, btc: nat, reservation: nat,
    now: int)
    requires tid !in n.destinationTasks && id !in n.destination && id !in n.rail.payouts
    requires reservation !in n.usedReservations
    requires n1 == DoPrepare(n, tid, id, fiat, btc, None, reservation, now) && n2 == DoStore(n1, tid)
    requires n3 == DoRequest(n2, tid, id) && n4 == DoAskRail(n3, tid, Confirms)
    requires n5 == DoStore(n4, tid) && n6 == DoSign(n5, tid)
    ensures SourceAlone(n, n6) && id in n6.decided && n6.decided[id].Confirmed? && (id, Confirmed) in n6.signed
    ensures id in n6.destination && n6.destination[id].state.PayoutConfirmed?
  {
    var rec := Record(ConditionCreated, fiat, btc, None, Some(reservation), None, []);
    DestinationPrepares(n, n1, n2, n3, tid, id, rec, reservation, now);
    RailConfirms(n3, n4, tid, id, rec.(state := PayoutRequested), reservation);
    assert n5.destinationTasks[tid] == Signing(id, Confirmed);
  }

  lemma DestinationPrepares(n: Net, n1: Net, n2: Net, n3: Net, tid: nat, id: nat, rec: Record, reservation: nat, now: int)
    requires tid !in n.destinationTasks && id !in n.destination && id !in n.rail.payouts
    requires reservation !in n.usedReservations
    requires rec == Record(ConditionCreated, rec.fiat, rec.btc, None, Some(reservation), None, [])
    requires n1 == DoPrepare(n, tid, id, rec.fiat, rec.btc, None, reservation, now) && n2 == DoStore(n1, tid)
    requires n3 == DoRequest(n2, tid, id)
    ensures SourceAlone(n, n3) && reservation in n3.rail.reservations && n3.rail.payouts == n.rail.payouts
    ensures tid in n3.destinationTasks && n3.destinationTasks[tid] == Initiating(id, rec.(state := PayoutRequested))
  {
    PrepareAnswers(rec.fiat, rec.btc, None, reservation, now);
    assert n2.destination[id] == rec && tid !in n2.destinationTasks && n2.rail == n1.rail;
    RequestAnswers(rec);
  }

  lemma RailConfirms(n3: Net, n4: Net, tid: nat, id: nat, rec: Record, reservation: nat)
    requires tid in n3.destinationTasks && n3.destinationTasks[tid] == Initiating(id, rec)
    requires rec.state.PayoutRequested? && rec.reservation == Some(reservation)
    requires reservation in n3.rail.reservations && id !in n3.rail.payouts && n4 == DoAskRail(n3, tid, Confirms)
    ensures id in n4.decided && n4.decided[id].Confirmed? && n4.signed == n3.signed && n4.destination == n3.destination
    ensures tid in n4.destinationTasks
         && n4.destinationTasks[tid] == Storing(id, rec.(state := PayoutConfirmed), Some(Confirmed))
  {
    ObserveAnswers(rec, Said(Confirmed));
  }

  /** The source believes its configured peer's signed word. */
  lemma PeerConfirms(n: Net, n1: Net, n2: Net, tid: nat, id: nat)
    requires n.peer == Some(DESTINATION) && tid !in n.sourceTasks && (id, Confirmed) in n.signed
    requires id in n.source && n.source[id].state.ConditionCreated?
    requires n1 == DoApply(n, tid, Attestation(id, Confirmed, DESTINATION)) && n2 == DoPut(n1, tid)
    ensures id in n2.source && n2.source[id].state.PayoutConfirmed?
    ensures tid !in n2.sourceTasks && n2.cache == n.cache && n2.pays == n.pays && n2.decided == n.decided
  {
    assert n1.sourceTasks[tid].Putting? && n1.sourceTasks[tid].rec.state.PayoutConfirmed?;
  }

  /** An undisturbed settlement whose rail confirms is paid, once, with the attached invoice. */
  lemma ConfirmedSettlementIsPaid(n: Net, n1: Net, n2: Net, n3: Net, n4: Net, n5: Net, tid: nat, id: nat)
    requires n.peer == Some(DESTINATION) && tid !in n.sourceTasks && (id, Confirmed) in n.signed
    requires id in n.source && n.source[id].state.ConditionCreated? && id in n.cache
    requires n1 == DoApply(n, tid, Attestation(id, Confirmed, DESTINATION)) && n2 == DoPut(n1, tid)
    requires n3 == DoRelease(n2, tid, id) && n4 == DoReadCache(n3, tid) && n5 == DoPay(n4, tid, true)
    ensures n5.pays == n.pays + [(id, n.cache[id])]
  {
    PeerConfirms(n, n1, n2, tid, id);
    ConfirmedGetsPaid(n2, n3, n4, n5, tid, id);
  }

  /** A failed settlement, undisturbed, is refunded: recorded, closed, and its invoice forgotten. */
  lemma FailedSettlementIsRefunded(n: Net, n1: Net, n2: Net, n3: Net, tid: nat, id: nat)
    requires tid !in n.sourceTasks && id in n.source && n.source[id].state.PayoutFailed?
    requires n1 == DoRefundStart(n, tid, id) && n2 == DoUncache(n1, tid) && n3 == DoPut(n2, tid)
    ensures n3.refunds == n.refunds + [id] && n3.pays == n.pays && id !in n3.cache
    ensures id in n3.source && n3.source[id].state.Refunded? && tid !in n3.sourceTasks
  {
    assert n1.sourceTasks[tid] == Uncaching(id, n.source[id].(state := Refunded), true);
    assert n2.sourceTasks[tid] == Putting(id, n.source[id].(state := Refunded));
  }

  /** A settlement begun on a quote that expires keeps its terms, and from the expiry on takes no invoice. */
  lemma ExpiredQuoteTakesNoInvoice(
    n: Net, n1: Net, n2: Net, tid: nat, id: nat, fiat: nat, btc: nat, expires: int, invoice: Bolt11, reservation: nat, now: int)
    requires tid !in n.sourceTasks && id !in n.source
    requires n1 == DoBegin(n, tid, id, fiat, btc, Some(expires)) && n2 == DoAttach(n1, tid, invoice, reservation, now)
    ensures id in n1.source && n1.source[id] == Record(Quoted, fiat, btc, Some(expires), None, None, [])
    ensures expires <= now ==>
      n2.cache == n.cache && n2.attached == n.attached && n2.sourceRail == n.sourceRail && n2.source == n1.source
      && tid !in n2.sourceTasks
    ensures now < expires && invoice.amount == Some(btc) ==> id in n2.cache && n2.cache[id] == invoice
  {
    assert n1.sourceTasks[tid] == Attaching(id);
    AttachAnswers(n1.source[id], invoice, reservation, now);
  }

  /** One settlement begun, attached and stored: the state the two runs below start from. */
  lemma {:induction false} AttachedAndStored(
    peer: Option<nat>, n1: Net, n2: Net, n3: Net, tid: nat, id: nat, fiat: nat, btc: nat, text: string, reservation: nat,
    now: int)
    requires n1 == DoBegin(Initial(peer), tid, id, fiat, btc, None)
    requires n2 == DoAttach(n1, tid, Bolt11(text, Some(btc)), reservation, now) && n3 == DoPut(n2, tid)
    ensures n3.peer == peer && tid !in n3.sourceTasks && id !in n3.decided && n3.sourceRail.payouts == map[]
    ensures id in n3.source && n3.source[id].state.ConditionCreated? && id in n3.cache
    ensures n3.source[id].reservation == Some(reservation) && reservation in n3.sourceRail.reservations
  {
    assert n1.sourceTasks[tid] == Attaching(id) && n1.source[id] == NewRecord(fiat, btc, None);
    assert n2.sourceTasks[tid].Putting? && n2.sourceTasks[tid].rec.state.ConditionCreated?;
  }

  /** With no peer configured, a stranger's attestation gets an undecided settlement paid. */
  lemma StrangerGetsPaid(
    n: Net, n1: Net, n2: Net, n3: Net, n4: Net, n5: Net, tid: nat, id: nat, stranger: nat)
    requires n.peer.None? && stranger != DESTINATION && tid !in n.sourceTasks
    requires id in n.source && n.source[id].state.ConditionCreated? && id in n.cache && id !in n.decided
    requires n1 == DoApply(n, tid, Attestation(id, Confirmed, stranger)) && n2 == DoPut(n1, tid)
    requires n3 == DoRelease(n2, tid, id) && n4 == DoReadCache(n3, tid) && n5 == DoPay(n4, tid, true)
    ensures n5.pays == n.pays + [(id, n.cache[id])] && id !in n5.decided
  {
    StrangerConfirms(n, n1, n2, tid, id, stranger);
    ConfirmedGetsPaid(n2, n3, n4, n5, tid, id);
  }

  lemma OwnRailConfirms(n: Net, n1: Net, id: nat)
    requires id in n.source && n.source[id].state.ConditionCreated? && n.sourceRail.payouts == map[]
    requires n.source[id].reservation.Some? && n.source[id].reservation.value in n.sourceRail.reservations
    requires n1 == DoLocalPayout(n, id, Confirms)
    ensures id in n1.source && n1.source[id].state.PayoutConfirmed?
    ensures n1.sourceTasks == n.sourceTasks && n1.cache == n.cache && n1.pays == n.pays && n1.decided == n.decided
  {
    var asked := RequestCall(n.source[id]);
    assert asked.Some? && asked.value.state.PayoutRequested? && asked.value.reservation == n.source[id].reservation;
    assert Initiate(n.sourceRail, asked.value.reservation.value, id, Confirms).1 == Said(Confirmed);
    assert ObserveCall(asked.value, Said(Confirmed)).value.state.PayoutConfirmed?;
  }

  /** The source's own payout route on its own record gets the settlement paid on its own word. */
  lemma OwnRailGetsPaid(n: Net, n1: Net, n2: Net, n3: Net, n4: Net, tid: nat, id: nat)
    requires tid !in n.sourceTasks && id !in n.decided && n.sourceRail.payouts == map[]
    requires id in n.source && n.source[id].state.ConditionCreated? && id in n.cache
    requires n.source[id].reservation.Some? && n.source[id].reservation.value in n.sourceRail.reservations
    requires n1 == DoLocalPayout(n, id, Confirms) && n2 == DoRelease(n1, tid, id)
    requires n3 == DoReadCache(n2, tid) && n4 == DoPay(n3, tid, true)
    ensures n4.pays == n.pays + [(id, n.cache[id])] && id !in n4.decided
  {
    OwnRailConfirms(n, n1, id);
    ConfirmedGetsPaid(n1, n2, n3, n4, tid, id);
  }
}
