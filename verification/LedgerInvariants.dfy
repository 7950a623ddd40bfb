/**
 What every committed transaction keeps: the event log tells the same story as the
 rows, every event has its deliveries, and a dedupe key is stored exactly with the
 effect it guards.
 */
module LedgerInvariants {
  import opened Core
  import opened Ledger

  // ------------------------------------------------------- reading the log

  predicate About(e: Event, topic: Topic, resource: nat) {
    e.topic == topic && e.resource == resource
  }

  /** How many events of a topic the log holds for a row. */
  function Tally(events: seq<Event>, topic: Topic, resource: nat): nat {
    if |events| == 0 then 0
    else
      var last := |events| - 1;
      Tally(events[..last], topic, resource) + (if About(events[last], topic, resource) then 1 else 0)
  }

  /** The status a reader of the log alone would give a payment. */
  function LoggedStatus(events: seq<Event>, id: nat): Option<PaymentStatus> {
    if |events| == 0 then None
    else
      var last := |events| - 1;
      if events[last].topic.PaymentTopic? && events[last].resource == id
      then Some(events[last].topic.status)
      else LoggedStatus(events[..last], id)
  }

  function Visible(s: PaymentStatus): Option<PaymentStatus> {
    if Announced(s) then Some(s) else None
  }

  predicate PaymentAgrees(events: seq<Event>, id: nat, s: PaymentStatus) {
    && LoggedStatus(events, id) == Visible(s)
    && Tally(events, PaymentTopic(Succeeded), id) == (if s.Succeeded? then 1 else 0)
    && Tally(events, PaymentTopic(Failed), id) == (if s.Failed? then 1 else 0)
    && Tally(events, PaymentTopic(Unknown), id) <= (if s.Created? || s.Pending? then 0 else 1)
  }

  predicate InvoiceAgrees(events: seq<Event>, id: nat, s: InvoiceStatus) {
    && Tally(events, InvoicePaid, id) == (if s.Paid? then 1 else 0)
    && Tally(events, InvoiceExpired, id) == (if s.Expired? then 1 else 0)
  }

  predicate InvoiceTopic(t: Topic) {
    t.InvoicePaid? || t.InvoiceExpired?
  }

  /** Events never point past the rows that exist. */
  predicate Grounded(db: Db) {
    forall k :: 0 <= k < |db.events| ==>
      && (db.events[k].topic.PaymentTopic? ==> db.events[k].resource < |db.payments|)
      && (InvoiceTopic(db.events[k].topic) ==> db.events[k].resource < |db.invoices|)
  }

  predicate LogAgrees(db: Db) {
    && Grounded(db)
    && (forall i :: 0 <= i < |db.payments| ==> PaymentAgrees(db.events, i, db.payments[i].status))
    && (forall i :: 0 <= i < |db.invoices| ==> InvoiceAgrees(db.events, i, db.invoices[i].status))
  }

  lemma TallyAppend(events: seq<Event>, e: Event, topic: Topic, resource: nat)
    ensures Tally(events + [e], topic, resource)
         == Tally(events, topic, resource) + (if About(e, topic, resource) then 1 else 0)
    ensures LoggedStatus(events + [e], resource)
         == if e.topic.PaymentTopic? && e.resource == resource then Some(e.topic.status)
            else LoggedStatus(events, resource)
  {
    assert (events + [e])[..|events|] == events;
  }

  lemma {:induction false} TallyAbsent(events: seq<Event>, topic: Topic, resource: nat)
    requires forall k :: 0 <= k < |events| ==> !About(events[k], topic, resource)
    ensures Tally(events, topic, resource) == 0
  {
    if |events| > 0 {
      TallyAbsent(events[..|events| - 1], topic, resource);
    }
  }

  lemma {:induction false} StatusAbsent(events: seq<Event>, id: nat)
    requires forall k :: 0 <= k < |events| ==> !(events[k].topic.PaymentTopic? && events[k].resource == id)
    ensures LoggedStatus(events, id) == None
  {
    if |events| > 0 {
      StatusAbsent(events[..|events| - 1], id);
    }
  }

  /** Appending an event about nothing that is tracked keeps every agreement. */
  lemma AgreeAfterEvent(events: seq<Event>, e: Event)
    ensures forall i: nat, s ::
      PaymentAgrees(events, i, s) && !(e.topic.PaymentTopic? && e.resource == i)
      ==> PaymentAgrees(events + [e], i, s)
    ensures forall i: nat, s ::
      InvoiceAgrees(events, i, s) && !(InvoiceTopic(e.topic) && e.resource == i)
      ==> InvoiceAgrees(events + [e], i, s)
  {
    forall i: nat, s | PaymentAgrees(events, i, s) && !(e.topic.PaymentTopic? && e.resource == i)
      ensures PaymentAgrees(events + [e], i, s)
    {
      TallyAppend(events, e, PaymentTopic(Succeeded), i);
      TallyAppend(events, e, PaymentTopic(Failed), i);
      TallyAppend(events, e, PaymentTopic(Unknown), i);
    }
    forall i: nat, s | InvoiceAgrees(events, i, s) && !(InvoiceTopic(e.topic) && e.resource == i)
      ensures InvoiceAgrees(events + [e], i, s)
    {
      TallyAppend(events, e, InvoicePaid, i);
      TallyAppend(events, e, InvoiceExpired, i);
    }
  }

  lemma BeginKeepsLog(db: Db, project: string, key: IdemKey, request: Request)
    requires LogAgrees(db)
    ensures LogAgrees(BeginPayment(db, project, key, request).0)
  {
    var id := |db.payments|;
    TallyAbsent(db.events, PaymentTopic(Succeeded), id);
    TallyAbsent(db.events, PaymentTopic(Failed), id);
    TallyAbsent(db.events, PaymentTopic(Unknown), id);
    StatusAbsent(db.events, id);
  }

  /** A payment moved to an announced status and its event was emitted. */
  lemma MovedKeepsLog(db: Db, after: Db, id: nat, row: Payment)
    requires LogAgrees(db) && id < |db.payments|
    requires CanMove(db.payments[id].status, row.status) && Announced(row.status)
    requires after.payments == db.payments[id := row] && after.invoices == db.invoices
    requires after.events == db.events + [PaymentEvent(id, row)]
    ensures LogAgrees(after)
  {
    var e := PaymentEvent(id, row);
    AgreeAfterEvent(db.events, e);
    TallyAppend(db.events, e, PaymentTopic(Succeeded), id);
    TallyAppend(db.events, e, PaymentTopic(Failed), id);
    TallyAppend(db.events, e, PaymentTopic(Unknown), id);
    assert PaymentAgrees(db.events, id, db.payments[id].status);
    // A row that was `created` or `pending` has no `unknown` event yet.
    assert PaymentAgrees(after.events, id, row.status);
  }

  lemma MoveKeepsLog(db: Db, key: Option<DedupeKey>, id: nat, next: PaymentStatus, res: Resolution)
    requires LogAgrees(db)
    ensures LogAgrees(TransitionPayment(db, key, id, next, res).0)
  {
    var after := TransitionPayment(db, key, id, next, res).0;
    if after != db && Announced(next) {
      MovedKeepsLog(db, after, id, MovedRow(db.payments[id], next, res));
    }
  }

  lemma InsertInvoiceKeepsLog(db: Db, project: string, hash: string, amount: nat, expiresAt: int)
    requires LogAgrees(db)
    ensures LogAgrees(InsertInvoice(db, project, hash, amount, expiresAt).0)
  {
    TallyAbsent(db.events, InvoicePaid, |db.invoices|);
    TallyAbsent(db.events, InvoiceExpired, |db.invoices|);
  }

  /** The common shape of paying and expiring: one open invoice closes and its event is emitted. */
  lemma CloseKeepsLog(db: Db, after: Db, id: nat, e: Event, s: InvoiceStatus)
    requires LogAgrees(db) && id < |db.invoices| && db.invoices[id].status.Open?
    requires s.Paid? || s.Expired?
    requires e.topic == (if s.Paid? then InvoicePaid else InvoiceExpired) && e.resource == id
    requires after.payments == db.payments && |after.invoices| == |db.invoices|
    requires after.events == db.events + [e]
    requires after.invoices[id].status == s
    requires forall i :: 0 <= i < |db.invoices| && i != id ==> after.invoices[i] == db.invoices[i]
    ensures LogAgrees(after)
  {
    AgreeAfterEvent(db.events, e);
    TallyAppend(db.events, e, InvoicePaid, id);
    TallyAppend(db.events, e, InvoiceExpired, id);
    assert InvoiceAgrees(db.events, id, Open);
    assert InvoiceAgrees(after.events, id, s);
  }

  lemma ReceiveKeepsLog(db: Db, hash: string, amount: nat)
    requires LogAgrees(db)
    ensures LogAgrees(MarkInvoicePaid(db, hash, amount).0)
  {
    var (after, r) := MarkInvoicePaid(db, hash, amount);
    if r.Ok? && r.value.Some? {
      CloseKeepsLog(db, after, r.value.value, after.events[|db.events|], Paid);
    }
  }

  lemma {:induction false} ExpireKeepsLog(db: Db, now: int, n: nat)
    requires LogAgrees(db) && n <= |db.invoices|
    ensures LogAgrees(ExpireUpTo(db, now, n))
  {
    if n > 0 {
      ExpireKeepsLog(db, now, n - 1);
      var prev := ExpireUpTo(db, now, n - 1);
      if Overdue(prev.invoices[n - 1], now) {
        var after := ExpireOne(prev, n - 1);
        CloseKeepsLog(prev, after, n - 1, after.events[|prev.events|], Expired);
      }
    }
  }

  lemma ApplyKeepsLog(db: Db, t: Txn)
    requires LogAgrees(db)
    ensures LogAgrees(Apply(db, t))
  {
    match t
    case TBegin(project, key, request) => BeginKeepsLog(db, project, key, request);
    case TMove(key, id, next, res) => MoveKeepsLog(db, key, id, next, res);
    case TInsertInvoice(project, hash, amount, expiresAt) =>
      InsertInvoiceKeepsLog(db, project, hash, amount, expiresAt);
    case TReceive(hash, amount) => ReceiveKeepsLog(db, hash, amount);
    case TExpire(now) => ExpireKeepsLog(db, now, |db.invoices|);
    case TAddEndpoint(_) =>
    case TDisableEndpoint(_) =>
    case TEmitOther(project, name, resource) =>
      AgreeAfterEvent(db.events, Event(project, OtherTopic(name), resource, 0, None));
  }

  // ------------------------------------------------------------ the totals

  function SentWeight(project: string): Payment -> int {
    (p: Payment) => if p.project == project && p.status.Succeeded? then p.request.amount else 0
  }

  function FeeWeight(project: string): Payment -> int {
    (p: Payment) =>
      if p.project == project && p.status.Succeeded? && p.fee.Some? then p.fee.value else 0
  }

  function ReceivedWeight(project: string): Invoice -> int {
    (i: Invoice) =>
      if i.project == project && i.status.Paid? && i.received.Some? then i.received.value else 0
  }

  function AmountLogged(project: string, topic: Topic): Event -> int {
    (e: Event) => if e.project == project && e.topic == topic then e.amount else 0
  }

  function FeeLogged(project: string): Event -> int {
    (e: Event) =>
      if e.project == project && e.topic == PaymentTopic(Succeeded) && e.fee.Some? then e.fee.value else 0
  }

  /** The dashboard totals of a project, read from the rows and read from the log. */
  predicate TotalsAgree(db: Db, project: string) {
    && Sum(db.payments, SentWeight(project)) == Sum(db.events, AmountLogged(project, PaymentTopic(Succeeded)))
    && Sum(db.payments, FeeWeight(project)) == Sum(db.events, FeeLogged(project))
    && Sum(db.invoices, ReceivedWeight(project)) == Sum(db.events, AmountLogged(project, InvoicePaid))
  }

  lemma LogSumsAppend(events: seq<Event>, e: Event, project: string)
    ensures Sum(events + [e], AmountLogged(project, PaymentTopic(Succeeded)))
         == Sum(events, AmountLogged(project, PaymentTopic(Succeeded)))
            + AmountLogged(project, PaymentTopic(Succeeded))(e)
    ensures Sum(events + [e], FeeLogged(project)) == Sum(events, FeeLogged(project)) + FeeLogged(project)(e)
    ensures Sum(events + [e], AmountLogged(project, InvoicePaid))
         == Sum(events, AmountLogged(project, InvoicePaid)) + AmountLogged(project, InvoicePaid)(e)
  {
    SumAppend(events, e, AmountLogged(project, PaymentTopic(Succeeded)));
    SumAppend(events, e, FeeLogged(project));
    SumAppend(events, e, AmountLogged(project, InvoicePaid));
  }

  /** An open row was rewritten and, if its status is announced, its event was emitted. */
  lemma MovedKeepsTotals(db: Db, after: Db, id: nat, row: Payment, project: string)
    requires TotalsAgree(db, project) && id < |db.payments| && !db.payments[id].status.Succeeded?
    requires after.payments == db.payments[id := row] && after.invoices == db.invoices
    requires row.project == db.payments[id].project
    requires after.events == if Announced(row.status) then db.events + [PaymentEvent(id, row)] else db.events
    ensures TotalsAgree(after, project)
  {
    SumUpdate(db.payments, id, row, SentWeight(project));
    SumUpdate(db.payments, id, row, FeeWeight(project));
    LogSumsAppend(db.events, PaymentEvent(id, row), project);
  }

  lemma MoveKeepsTotals(db: Db, key: Option<DedupeKey>, id: nat, next: PaymentStatus, res: Resolution, project: string)
    requires TotalsAgree(db, project)
    ensures TotalsAgree(TransitionPayment(db, key, id, next, res).0, project)
  {
    var after := TransitionPayment(db, key, id, next, res).0;
    if after != db {
      MovedKeepsTotals(db, after, id, MovedRow(db.payments[id], next, res), project);
    }
  }

  lemma CloseKeepsTotals(db: Db, after: Db, id: nat, row: Invoice, e: Event, project: string)
    requires TotalsAgree(db, project)
    requires id < |db.invoices| && db.invoices[id].status.Open?
    requires after.payments == db.payments && after.invoices == db.invoices[id := row]
    requires after.events == db.events + [e] && e.project == row.project && e.resource == id
    requires || (row.status.Paid? && e.topic.InvoicePaid? && row.received == Some(e.amount))
             || (row.status.Expired? && e.topic.InvoiceExpired?)
    ensures TotalsAgree(after, project)
  {
    SumUpdate(db.invoices, id, row, ReceivedWeight(project));
    LogSumsAppend(db.events, e, project);
  }

  lemma {:induction false} ExpireKeepsTotals(db: Db, now: int, n: nat, project: string)
    requires TotalsAgree(db, project) && n <= |db.invoices|
    ensures TotalsAgree(ExpireUpTo(db, now, n), project)
  {
    if n > 0 {
      ExpireKeepsTotals(db, now, n - 1, project);
      var prev := ExpireUpTo(db, now, n - 1);
      if Overdue(prev.invoices[n - 1], now) {
        var after := ExpireOne(prev, n - 1);
        CloseKeepsTotals(prev, after, n - 1, after.invoices[n - 1], after.events[|prev.events|], project);
      }
    }
  }

  lemma ReceiveKeepsTotals(db: Db, hash: string, amount: nat, project: string)
    requires TotalsAgree(db, project)
    ensures TotalsAgree(MarkInvoicePaid(db, hash, amount).0, project)
  {
    var (after, r) := MarkInvoicePaid(db, hash, amount);
    if r.Ok? && r.value.Some? {
      CloseKeepsTotals(db, after, r.value.value, after.invoices[r.value.value], after.events[|db.events|], project);
    }
  }

  lemma BeginKeepsTotals(db: Db, p: string, key: IdemKey, request: Request, project: string)
    requires TotalsAgree(db, project)
    ensures TotalsAgree(BeginPayment(db, p, key, request).0, project)
  {
    var row := Payment(p, key, request, Created, None, None, None);
    SumAppend(db.payments, row, SentWeight(project));
    SumAppend(db.payments, row, FeeWeight(project));
  }

  lemma InsertInvoiceKeepsTotals(db: Db, p: string, hash: string, amount: nat, expiresAt: int, project: string)
    requires TotalsAgree(db, project)
    ensures TotalsAgree(InsertInvoice(db, p, hash, amount, expiresAt).0, project)
  {
    SumAppend(db.invoices, Invoice(p, hash, amount, Open, expiresAt, None), ReceivedWeight(project));
  }

  lemma ApplyKeepsTotals(db: Db, t: Txn, project: string)
    requires TotalsAgree(db, project)
    ensures TotalsAgree(Apply(db, t), project)
  {
    match t
    case TBegin(p, key, request) => BeginKeepsTotals(db, p, key, request, project);
    case TMove(key, id, next, res) => MoveKeepsTotals(db, key, id, next, res, project);
    case TInsertInvoice(p, hash, amount, expiresAt) =>
      InsertInvoiceKeepsTotals(db, p, hash, amount, expiresAt, project);
    case TReceive(hash, amount) => ReceiveKeepsTotals(db, hash, amount, project);
    case TExpire(now) => ExpireKeepsTotals(db, now, |db.invoices|, project);
    case TAddEndpoint(_) =>
    case TDisableEndpoint(_) =>
    case TEmitOther(p, name, resource) =>
      LogSumsAppend(db.events, Event(p, OtherTopic(name), resource, 0, None), project);
  }

  /**
   Over any sequence of committed transactions from empty tables, the log and the rows
   agree, and so do the totals computed from either.
   */
  lemma {:induction false} LogTellsTheRows(ts: seq<Txn>)
    ensures LogAgrees(RunTxns(EMPTY_DB, ts))
    ensures forall project: string :: TotalsAgree(RunTxns(EMPTY_DB, ts), project)
  {
    if |ts| > 0 {
      var before := RunTxns(EMPTY_DB, ts[..|ts| - 1]);
      LogTellsTheRows(ts[..|ts| - 1]);
      var after := Apply(before, ts[|ts| - 1]);
      ApplyKeepsLog(before, ts[|ts| - 1]);
      forall project: string ensures TotalsAgree(after, project) {
        ApplyKeepsTotals(before, ts[|ts| - 1], project);
      }
    }
  }

  // ------------------------------------------------------------ deliveries

  /** The endpoints an event is queued for, in queue order. */
  function Recipients(deliveries: seq<Delivery>, event: nat): seq<nat> {
    if |deliveries| == 0 then []
    else
      var last := |deliveries| - 1;
      var rest := Recipients(deliveries[..last], event);
      if deliveries[last].event == event then rest + [deliveries[last].endpoint] else rest
  }

  lemma {:induction false} RecipientsAppend(a: seq<Delivery>, b: seq<Delivery>, event: nat)
    ensures Recipients(a + b, event) == Recipients(a, event) + Recipients(b, event)
  {
    if |b| == 0 {
      assert a + b == a;
    } else {
      var last := |b| - 1;
      assert (a + b)[..|a| + last] == a + b[..last];
      RecipientsAppend(a, b[..last], event);
    }
  }

  lemma {:induction false} RecipientsOfBatch(event: nat, endpoints: seq<nat>, asked: nat)
    ensures Recipients(DeliverAll(event, endpoints), asked) == if asked == event then endpoints else []
  {
    if |endpoints| > 0 {
      var last := |endpoints| - 1;
      assert DeliverAll(event, endpoints)[..last] == DeliverAll(event, endpoints[..last]);
      RecipientsOfBatch(event, endpoints[..last], asked);
      assert endpoints == endpoints[..last] + [endpoints[last]];
    }
  }

  predicate DeliveriesGrounded(db: Db) {
    forall k :: 0 <= k < |db.deliveries| ==> db.deliveries[k].event < |db.events|
  }

  lemma {:induction false} NoRecipients(deliveries: seq<Delivery>, event: nat)
    requires forall k :: 0 <= k < |deliveries| ==> deliveries[k].event != event
    ensures Recipients(deliveries, event) == []
  {
    if |deliveries| > 0 {
      NoRecipients(deliveries[..|deliveries| - 1], event);
    }
  }

  /** `after` extends `before`: old events keep their recipients, new ones go to the endpoints enabled then. */
  predicate Extends(before: Db, after: Db) {
    && DeliveriesGrounded(after)
    && before.events <= after.events
    && (forall e :: 0 <= e < |before.events| ==>
          Recipients(after.deliveries, e) == Recipients(before.deliveries, e))
    && (forall e :: |before.events| <= e < |after.events| ==>
          Recipients(after.deliveries, e) == EnabledEndpoints(before.endpoints, after.events[e].project))
  }

  lemma EmitExtends(db: Db, event: Event)
    requires DeliveriesGrounded(db)
    ensures Extends(db, Emit(db, event))
  {
    var after := Emit(db, event);
    var to := EnabledEndpoints(db.endpoints, event.project);
    forall e | 0 <= e < |after.events|
      ensures Recipients(after.deliveries, e)
           == if e < |db.events| then Recipients(db.deliveries, e) else to
    {
      RecipientsAppend(db.deliveries, DeliverAll(|db.events|, to), e);
      RecipientsOfBatch(|db.events|, to, e);
      if e == |db.events| {
        NoRecipients(db.deliveries, e);
      }
    }
  }

  lemma {:induction false} ExpireExtends(db: Db, now: int, n: nat)
    requires DeliveriesGrounded(db) && n <= |db.invoices|
    ensures Extends(db, ExpireUpTo(db, now, n)) && ExpireUpTo(db, now, n).endpoints == db.endpoints
  {
    if n > 0 {
      ExpireExtends(db, now, n - 1);
      var prev := ExpireUpTo(db, now, n - 1);
      if Overdue(prev.invoices[n - 1], now) {
        var row := prev.invoices[n - 1];
        EmitExtends(prev.(invoices := prev.invoices[n - 1 := row.(status := Expired)]),
                    Event(row.project, InvoiceExpired, n - 1, row.amount, None));
      }
    }
  }

  lemma ApplyExtends(db: Db, t: Txn)
    requires DeliveriesGrounded(db)
    ensures Extends(db, Apply(db, t))
  {
    match t
    case TMove(key, id, next, res) =>
      var after := TransitionPayment(db, key, id, next, res).0;
      if after != db && Announced(next) {
        var row := MovedRow(db.payments[id], next, res);
        EmitExtends(db.(payments := db.payments[id := row],
                        claimed := if key.Some? then db.claimed + {key.value} else db.claimed),
                    PaymentEvent(id, row));
      }
    case TReceive(hash, amount) =>
      var (after, r) := MarkInvoicePaid(db, hash, amount);
      if r.Ok? && r.value.Some? {
        EmitExtends(db.(invoices := after.invoices, claimed := after.claimed), after.events[|db.events|]);
      }
    case TExpire(now) => ExpireExtends(db, now, |db.invoices|);
    case TEmitOther(project, name, resource) =>
      EmitExtends(db, Event(project, OtherTopic(name), resource, 0, None));
    case TBegin(_, _, _) =>
    case TInsertInvoice(_, _, _, _) =>
    case TAddEndpoint(_) =>
    case TDisableEndpoint(_) =>
  }

  lemma {:induction false} RunKeepsRecipients(db: Db, ts: seq<Txn>)
    requires DeliveriesGrounded(db)
    ensures DeliveriesGrounded(RunTxns(db, ts))
    ensures db.events <= RunTxns(db, ts).events
    ensures forall e :: 0 <= e < |db.events| ==>
      Recipients(RunTxns(db, ts).deliveries, e) == Recipients(db.deliveries, e)
  {
    if |ts| > 0 {
      RunKeepsRecipients(db, ts[..|ts| - 1]);
      ApplyExtends(RunTxns(db, ts[..|ts| - 1]), ts[|ts| - 1]);
    }
  }

  lemma {:induction false} EnabledEndpointsDistinct(endpoints: seq<Endpoint>, project: string)
    ensures Distinct(EnabledEndpoints(endpoints, project))
    ensures forall k: nat :: k in EnabledEndpoints(endpoints, project) <==>
      k < |endpoints| && endpoints[k].enabled && endpoints[k].project == project
  {
    if |endpoints| > 0 {
      var last := |endpoints| - 1;
      EnabledEndpointsDistinct(endpoints[..last], project);
      assert forall k :: k in EnabledEndpoints(endpoints[..last], project) ==> k < last;
      assert last !in EnabledEndpoints(endpoints[..last], project);
    }
  }

  lemma {:induction false} RunSplit(db: Db, before: seq<Txn>, after: seq<Txn>)
    ensures RunTxns(db, before + after) == RunTxns(RunTxns(db, before), after)
  {
    if |after| == 0 {
      assert before + after == before;
    } else {
      var last := |after| - 1;
      assert (before + after)[..|before| + last] == before + after[..last];
      RunSplit(db, before, after[..last]);
    }
  }

  /**
   In every run, an event emitted by transaction `t` has, ever after, exactly one delivery
   for each endpoint of its project that was enabled when it was emitted, and no other.
   */
  lemma EveryEventReachesEnabledEndpoints(before: seq<Txn>, t: Txn, later: seq<Txn>, e: nat)
    requires |RunTxns(EMPTY_DB, before).events| <= e < |RunTxns(EMPTY_DB, before + [t]).events|
    ensures var at := RunTxns(EMPTY_DB, before);
            var final := RunTxns(EMPTY_DB, before + [t] + later);
            && e < |final.events|
            && Distinct(Recipients(final.deliveries, e))
            && forall k: nat :: k in Recipients(final.deliveries, e) <==>
                 k < |at.endpoints| && at.endpoints[k].enabled
                 && at.endpoints[k].project == final.events[e].project
  {
    var at := RunTxns(EMPTY_DB, before);
    RunKeepsRecipients(EMPTY_DB, before);
    assert (before + [t])[..|before|] == before;
    var next := RunTxns(EMPTY_DB, before + [t]);
    ApplyExtends(at, t);
    RunSplit(EMPTY_DB, before + [t], later);
    RunKeepsRecipients(next, later);
    EnabledEndpointsDistinct(at.endpoints, next.events[e].project);
  }

  // ---------------------------------------------------------- dedupe keys

  predicate HashesUnique(db: Db) {
    forall i, j :: 0 <= i < j < |db.invoices| ==> db.invoices[i].hash != db.invoices[j].hash
  }

  predicate PaidUnder(db: Db, hash: string) {
    exists i :: 0 <= i < |db.invoices| && db.invoices[i].hash == hash && db.invoices[i].status.Paid?
  }

  /** A dedupe key is stored exactly when the effect it guards is. */
  ghost predicate DedupeExact(db: Db) {
    && HashesUnique(db)
    && (forall h :: Recv(h) in db.claimed <==> PaidUnder(db, h))
    && (forall p: nat :: SentOk(p) in db.claimed ==> p < |db.payments| && db.payments[p].status.Succeeded?)
    && (forall p: nat :: SentFail(p) in db.claimed ==> p < |db.payments| && db.payments[p].status.Failed?)
  }

  lemma ReceiveKeepsDedupe(db: Db, hash: string, amount: nat)
    requires DedupeExact(db)
    ensures DedupeExact(MarkInvoicePaid(db, hash, amount).0)
  {
    var (after, r) := MarkInvoicePaid(db, hash, amount);
    if r.Ok? && r.value.Some? {
      var id := r.value.value;
      forall h ensures Recv(h) in after.claimed <==> PaidUnder(after, h) {
        if h == hash {
          assert after.invoices[id].hash == h && after.invoices[id].status.Paid?;
        } else if PaidUnder(db, h) {
          var i :| 0 <= i < |db.invoices| && db.invoices[i].hash == h && db.invoices[i].status.Paid?;
          assert after.invoices[i] == db.invoices[i];
        }
      }
    }
  }

  lemma {:induction false} ExpireKeepsDedupe(db: Db, now: int, n: nat)
    requires DedupeExact(db) && n <= |db.invoices|
    ensures DedupeExact(ExpireUpTo(db, now, n))
  {
    if n > 0 {
      ExpireKeepsDedupe(db, now, n - 1);
      var prev := ExpireUpTo(db, now, n - 1);
      if Overdue(prev.invoices[n - 1], now) {
        var after := ExpireOne(prev, n - 1);
        forall h ensures PaidUnder(prev, h) <==> PaidUnder(after, h) {
          if PaidUnder(prev, h) {
            var i :| 0 <= i < |prev.invoices| && prev.invoices[i].hash == h && prev.invoices[i].status.Paid?;
            assert after.invoices[i] == prev.invoices[i];
          }
          if PaidUnder(after, h) {
            var i :| 0 <= i < |after.invoices| && after.invoices[i].hash == h && after.invoices[i].status.Paid?;
            assert after.invoices[i] == prev.invoices[i];
          }
        }
      }
    }
  }

  lemma ApplyKeepsDedupe(db: Db, t: Txn)
    requires DedupeExact(db) && WellKeyed(t)
    ensures DedupeExact(Apply(db, t))
  {
    match t
    case TReceive(hash, amount) => ReceiveKeepsDedupe(db, hash, amount);
    case TExpire(now) => ExpireKeepsDedupe(db, now, |db.invoices|);
    case TInsertInvoice(project, hash, amount, expiresAt) =>
      var after := Apply(db, t);
      forall h ensures PaidUnder(db, h) <==> PaidUnder(after, h) {
        if PaidUnder(db, h) {
          var i :| 0 <= i < |db.invoices| && db.invoices[i].hash == h && db.invoices[i].status.Paid?;
          assert after.invoices[i] == db.invoices[i];
        }
        if PaidUnder(after, h) {
          var i :| 0 <= i < |after.invoices| && after.invoices[i].hash == h && after.invoices[i].status.Paid?;
          assert after.invoices[i] == db.invoices[i];
        }
      }
    case TBegin(_, _, _) =>
      assert Apply(db, t).invoices == db.invoices;
    case TMove(_, _, _, _) =>
      assert Apply(db, t).invoices == db.invoices;
      assert forall h :: Recv(h) in Apply(db, t).claimed <==> Recv(h) in db.claimed;
      assert forall h :: PaidUnder(Apply(db, t), h) <==> PaidUnder(db, h);
    case TAddEndpoint(_) =>
    case TDisableEndpoint(_) =>
    case TEmitOther(_, _, _) =>
  }

  lemma {:induction false} DedupeKeysAreExact(ts: seq<Txn>)
    requires forall k :: 0 <= k < |ts| ==> WellKeyed(ts[k])
    ensures DedupeExact(RunTxns(EMPTY_DB, ts))
    ensures forall p: nat :: !(SentOk(p) in RunTxns(EMPTY_DB, ts).claimed && SentFail(p) in RunTxns(EMPTY_DB, ts).claimed)
  {
    if |ts| > 0 {
      DedupeKeysAreExact(ts[..|ts| - 1]);
      ApplyKeepsDedupe(RunTxns(EMPTY_DB, ts[..|ts| - 1]), ts[|ts| - 1]);
    }
  }

  lemma {:induction false} ExpireKeepsPaid(db: Db, now: int, n: nat)
    requires n <= |db.invoices|
    ensures ExpireUpTo(db, now, n).claimed == db.claimed
    ensures forall i :: 0 <= i < |db.invoices| && !db.invoices[i].status.Open? ==>
      ExpireUpTo(db, now, n).invoices[i] == db.invoices[i]
  {
    if n > 0 {
      ExpireKeepsPaid(db, now, n - 1);
    }
  }

  lemma {:induction false} ClaimsAndClosedInvoicesStay(db: Db, ts: seq<Txn>)
    ensures db.claimed <= RunTxns(db, ts).claimed
    ensures |db.invoices| <= |RunTxns(db, ts).invoices|
    ensures forall i :: 0 <= i < |db.invoices| && !db.invoices[i].status.Open? ==>
      RunTxns(db, ts).invoices[i] == db.invoices[i]
  {
    if |ts| > 0 {
      var before := RunTxns(db, ts[..|ts| - 1]);
      ClaimsAndClosedInvoicesStay(db, ts[..|ts| - 1]);
      if ts[|ts| - 1].TExpire? {
        ExpireKeepsPaid(before, ts[|ts| - 1].now, |before.invoices|);
      }
    }
  }

  /**
   Once an incoming payment has been applied, redelivering its event after any further
   work, with any claimed amount, changes nothing, and the paid row itself never changes.
   */
  lemma RedeliveryIsHarmless(before: seq<Txn>, later: seq<Txn>, hash: string, amount: nat, i: nat)
    requires forall k :: 0 <= k < |before| ==> WellKeyed(before[k])
    requires i < |RunTxns(EMPTY_DB, before).invoices|
    requires RunTxns(EMPTY_DB, before).invoices[i].hash == hash
    requires RunTxns(EMPTY_DB, before).invoices[i].status.Paid?
    ensures var now := RunTxns(EMPTY_DB, before + later);
            && MarkInvoicePaid(now, hash, amount) == (now, Ok(None))
            && i < |now.invoices| && now.invoices[i] == RunTxns(EMPTY_DB, before).invoices[i]
  {
    var db := RunTxns(EMPTY_DB, before);
    DedupeKeysAreExact(before);
    assert PaidUnder(db, hash);
    RunSplit(EMPTY_DB, before, later);
    ClaimsAndClosedInvoicesStay(db, later);
  }
}
