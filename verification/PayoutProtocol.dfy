/**
 Payout handlers over the sandbox ledger and the payment engine. Every storage call is one
 step, several handlers may work on one payout at once, and any of them may stop anywhere.
 `credits` and `refunds` are histories.
 */
module PayoutProtocol {
  import opened Core
  import opened Sandbox
  import L = Ledger
  import P = PaymentProtocol

  /** Where a live payout handler stands. */
  datatype Task =
    | ToStart(payout: nat, scenario: Scenario)
    | ToFinish(payout: nat, scenario: Scenario)
    | ToSucceed(payout: nat)
    | ToLeg(payout: nat)
    | ToAttach(payout: nat, payment: nat)
    | ToFail(payout: nat)

  datatype World = World(
    sys: P.Sys,
    books: Books,
    tasks: map<nat, Task>,
    credits: map<Purse, nat>,
    refunds: seq<nat>)

  const GENESIS: World := World(P.START, NO_BOOKS, map[], map[], [])

  datatype Step =
    | Engine(action: P.Action)
    | TopUp(purse: Purse, minor: nat)
    | MakeQuote(offer: Quote)
    | Reserve(tid: nat, project: string, quote: nat, key: string, scenario: Scenario,
              bolt11: Option<L.Bolt11>, now: int)
    | Start(tid: nat)
    | Finish(tid: nat)
    | Succeed(tid: nat)
    | Leg(tid: nat, sender: nat)
    | Attach(tid: nat)
    | Reconcile(tid: nat, project: string, payout: nat, success: bool)
    | Fail(tid: nat)
    | Abandon(tid: nat)
    | Crash

  /** Every change of a payout is announced in the same transaction. */
  function Announce(sys: P.Sys, project: string, name: string, payout: nat): P.Sys {
    sys.(db := L.Emit(sys.db, L.Event(project, L.OtherTopic(name), payout, 0, None)))
  }

  function DoTopUp(w: World, purse: Purse, minor: nat): World {
    var (books, r) := Credit(w.books, purse, minor);
    if r.Ok?
    then w.(books := books,
            credits := w.credits[purse := minor + if purse in w.credits then w.credits[purse] else 0])
    else w
  }

  /** An invoice that fixes an amount must fix the quote's. */
  predicate InvoiceFits(b: Books, quote: nat, bolt11: Option<L.Bolt11>) {
    (quote < |b.quotes| && bolt11.Some? && bolt11.value.amount.Some?) ==>
      bolt11.value.amount.value == b.quotes[quote].btcMsat
  }

  function DoReserve(
    w: World, tid: nat, project: string, quote: nat, key: string, scenario: Scenario,
    bolt11: Option<L.Bolt11>, now: int): World
  {
    if tid in w.tasks || !InvoiceFits(w.books, quote, bolt11) then w
    else
      var (books, r) := ReservePayout(w.books, project, quote, key, scenario, bolt11, now);
      if r.Ok? && r.value.1
      then w.(books := books,
              tasks := w.tasks[tid := ToStart(r.value.0, scenario)],
              sys := Announce(w.sys, project, "sandbox.payout.reserved", r.value.0))
      else w
  }

  function StatusName(s: PayoutStatus): string {
    match s
    case Reserved => "sandbox.payout.reserved"
    case Pending => "sandbox.payout.pending"
    case Succeeded => "sandbox.payout.succeeded"
    case Failed => "sandbox.payout.failed"
    case Unknown => "sandbox.payout.unknown"
  }

  /** Advances payout `p`; the task goes on as `then_` if the call succeeds and ends otherwise. */
  function DoAdvance(w: World, tid: nat, p: nat, next: PayoutStatus, then_: Option<Task>): World {
    var (books, r) := AdvancePayout(w.books, p, next);
    var tasks := if r.Ok? && then_.Some? then w.tasks[tid := then_.value] else Without(w.tasks, tid);
    if r.Ok? && r.value.1
    then w.(books := books,
            tasks := tasks,
            sys := Announce(w.sys, r.value.0.project, StatusName(next), p),
            refunds := if next.Failed? then w.refunds + [p] else w.refunds)
    else w.(tasks := tasks)
  }

  /** What follows once the payout is committed `succeeded`: the Bitcoin leg, if one was asked for. */
  function AfterSuccess(b: Books, p: nat): Option<Task> {
    if p < |b.payouts| && b.payouts[p].bolt11.Some? then Some(ToLeg(p)) else None
  }

  function DoFinish(w: World, tid: nat): World {
    if tid in w.tasks && w.tasks[tid].ToFinish? then
      var p := w.tasks[tid].payout;
      match w.tasks[tid].scenario
      case Failure => DoAdvance(w, tid, p, Failed, None)
      case Timeout => DoAdvance(w, tid, p, Unknown, None)
      case Success => w.(tasks := w.tasks[tid := ToSucceed(p)])
    else w
  }

  /** Hands the leg to the payment engine under the payout's own key, for the quote's amount. */
  function DoLeg(w: World, tid: nat, sender: nat): World {
    if tid in w.tasks && w.tasks[tid].ToLeg?
       && w.tasks[tid].payout < |w.books.payouts|
       && w.books.payouts[w.tasks[tid].payout].bolt11.Some?
       && w.books.payouts[w.tasks[tid].payout].quote < |w.books.quotes|
    then
      var p := w.tasks[tid].payout;
      var payout := w.books.payouts[p];
      var sys := P.Next(w.sys, P.Begin(sender, payout.project, L.PayoutLeg(p), payout.bolt11.value,
                                       Some(w.books.quotes[payout.quote].btcMsat), "sandbox_payout_id"));
      var row := L.FindKey(sys.db.payments, payout.project, L.PayoutLeg(p));
      w.(sys := sys,
         tasks := if row.Some? then w.tasks[tid := ToAttach(p, row.value)] else Without(w.tasks, tid))
    else w
  }

  /** The attachment may come at any moment after the leg's row exists. */
  function DoAttach(w: World, tid: nat): World {
    if tid in w.tasks && w.tasks[tid].ToAttach? then
      w.(books := AttachPayment(w.books, w.tasks[tid].payout, w.tasks[tid].payment),
         tasks := Without(w.tasks, tid))
    else w
  }

  /** Only an `unknown` payout of the caller's project is reconciled. */
  function DoReconcile(w: World, tid: nat, project: string, p: nat, success: bool): World {
    if tid in w.tasks || p >= |w.books.payouts| || w.books.payouts[p].project != project
       || !w.books.payouts[p].status.Unknown?
    then w
    else w.(tasks := w.tasks[tid := if success then ToSucceed(p) else ToFail(p)])
  }

  function Next(w: World, step: Step): World {
    match step
    case Engine(a) =>
      if a.Crash? then w.(sys := P.Next(w.sys, a), tasks := map[]) else w.(sys := P.Next(w.sys, a))
    case TopUp(purse, minor) => DoTopUp(w, purse, minor)
    case MakeQuote(q) => w.(books := InsertQuote(w.books, q).0)
    case Reserve(tid, project, quote, key, scenario, bolt11, now) =>
      DoReserve(w, tid, project, quote, key, scenario, bolt11, now)
    case Start(tid) =>
      if tid in w.tasks && w.tasks[tid].ToStart?
      then DoAdvance(w, tid, w.tasks[tid].payout, Pending, Some(ToFinish(w.tasks[tid].payout, w.tasks[tid].scenario)))
      else w
    case Finish(tid) => DoFinish(w, tid)
    case Succeed(tid) =>
      if tid in w.tasks && w.tasks[tid].ToSucceed?
      then DoAdvance(w, tid, w.tasks[tid].payout, Succeeded, AfterSuccess(w.books, w.tasks[tid].payout))
      else w
    case Leg(tid, sender) => DoLeg(w, tid, sender)
    case Attach(tid) => DoAttach(w, tid)
    case Reconcile(tid, project, payout, success) => DoReconcile(w, tid, project, payout, success)
    case Fail(tid) =>
      if tid in w.tasks && w.tasks[tid].ToFail?
      then DoAdvance(w, tid, w.tasks[tid].payout, Failed, None)
      else w
    case Abandon(tid) => w.(tasks := Without(w.tasks, tid))
    case Crash => w.(sys := P.Next(w.sys, P.Crash), tasks := map[])
  }

  function Run(w: World, steps: seq<Step>): World {
    if |steps| == 0 then w else Next(Run(w, steps[..|steps| - 1]), steps[|steps| - 1])
  }

  /** Clients do not choose keys in the payouts' own namespace. */
  predicate Honest(step: Step) {
    step.Engine? && step.action.Begin? ==> step.action.key.Client?
  }
}
