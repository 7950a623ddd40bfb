/** The simulated payout ledger: quotes, balances and payouts, one transaction per call. */
module Sandbox {
  import opened Core
  import L = Ledger

  datatype QuoteStatus = QuoteOpen | QuoteUsed | QuoteExpired

  datatype Quote = Quote(
    project: string,
    source: string,
    target: string,
    sourceMinor: nat,
    targetMinor: nat,
    btcMsat: nat,
    status: QuoteStatus,
    expiresAt: int)

  datatype PayoutStatus = Reserved | Pending | Succeeded | Failed | Unknown

  predicate CanAdvance(from: PayoutStatus, to: PayoutStatus) {
    || (from.Reserved? && to.Pending?)
    || (from.Pending? && (to.Succeeded? || to.Failed? || to.Unknown?))
    || (from.Unknown? && (to.Succeeded? || to.Failed?))
  }

  datatype Scenario = Success | Failure | Timeout

  datatype Payout = Payout(
    project: string,
    quote: nat,
    key: string,
    scenario: Scenario,
    bolt11: Option<L.Bolt11>,
    status: PayoutStatus,
    payment: Option<nat>)

  /** A balance is held per project and currency. */
  type Purse = (string, string)

  datatype Books = Books(quotes: seq<Quote>, payouts: seq<Payout>, balances: map<Purse, int>)

  const NO_BOOKS: Books := Books([], [], map[])

  function Balance(b: Books, purse: Purse): int {
    if purse in b.balances then b.balances[purse] else 0
  }

  function InsertQuote(b: Books, q: Quote): (Books, Result<nat, StorageError>) {
    if q.sourceMinor > I64_MAX || q.targetMinor > I64_MAX || q.btcMsat > I64_MAX then (b, Err(AmountOutOfRange))
    else if q.sourceMinor == 0 || q.targetMinor == 0 || q.btcMsat == 0 then (b, Err(DatabaseError))
    else (b.(quotes := b.quotes + [q.(status := QuoteOpen)]), Ok(|b.quotes|))
  }

  /** Adding to a balance fails, and rolls its transaction back, when the column would overflow. */
  function Credit(b: Books, purse: Purse, minor: nat): (Books, Result<(), StorageError>) {
    if minor > I64_MAX then (b, Err(AmountOutOfRange))
    else if Balance(b, purse) + minor > I64_MAX then (b, Err(DatabaseError))
    else (b.(balances := b.balances[purse := Balance(b, purse) + minor]), Ok(()))
  }

  function FindPayout(payouts: seq<Payout>, project: string, key: string): (r: Option<nat>)
    ensures r.Some? ==>
      r.value < |payouts| && payouts[r.value].project == project && payouts[r.value].key == key
    ensures r.None? ==> forall i :: 0 <= i < |payouts| ==>
      !(payouts[i].project == project && payouts[i].key == key)
  {
    if |payouts| == 0 then None
    else
      var last := |payouts| - 1;
      if payouts[last].project == project && payouts[last].key == key then Some(last)
      else FindPayout(payouts[..last], project, key)
  }

  /** The books after a reservation is committed. */
  function CommitReserve(
    b: Books, project: string, quote: nat, key: string, scenario: Scenario, bolt11: Option<L.Bolt11>): Books
    requires quote < |b.quotes|
  {
    var q := b.quotes[quote];
    var purse := (project, q.source);
    b.(quotes := b.quotes[quote := q.(status := QuoteUsed)],
       balances := b.balances[purse := Balance(b, purse) - q.sourceMinor],
       payouts := b.payouts + [Payout(project, quote, key, scenario, bolt11, Reserved, None)])
  }

  /** Marks the quote used, debits the source balance and records the payout, or replays a prior one. */
  function ReservePayout(
    b: Books, project: string, quote: nat, key: string, scenario: Scenario, bolt11: Option<L.Bolt11>, now: int)
    : (Books, Result<(nat, bool), StorageError>)
  {
    var prior := FindPayout(b.payouts, project, key);
    if prior.Some? then
      if b.payouts[prior.value].quote != quote || b.payouts[prior.value].scenario != scenario
      then (b, Err(IdempotencyMismatch))
      else (b, Ok((prior.value, false)))
    else if quote >= |b.quotes| || b.quotes[quote].project != project then (b, Err(NotFound))
    else
      var q := b.quotes[quote];
      if !q.status.QuoteOpen? || q.expiresAt < now then (b, Err(IllegalTransition))
      else if Balance(b, (project, q.source)) < q.sourceMinor then (b, Err(InsufficientBalance))
      else (CommitReserve(b, project, quote, key, scenario, bolt11), Ok((|b.payouts|, true)))
  }

  /** Credits a failed payout's source amount back, to the balance row if there is one. */
  function Refund(b: Books, q: Quote): map<Purse, int> {
    var purse := (q.project, q.source);
    if purse in b.balances then b.balances[purse := b.balances[purse] + q.sourceMinor] else b.balances
  }

  function AdvancePayout(b: Books, id: nat, next: PayoutStatus): (Books, Result<(Payout, bool), StorageError>) {
    if id >= |b.payouts| then (b, Err(NotFound))
    else
      var current := b.payouts[id];
      if current.status == next then (b, Ok((current, false)))
      else if !CanAdvance(current.status, next) then (b, Err(IllegalTransition))
      else
        var updated := current.(status := next);
        var moved := b.(payouts := b.payouts[id := updated]);
        if next.Failed? && current.quote < |b.quotes| then
          var q := b.quotes[current.quote];
          if Balance(b, (q.project, q.source)) + q.sourceMinor > I64_MAX then (b, Err(DatabaseError))
          else (moved.(balances := Refund(b, q)), Ok((updated, true)))
        else (moved, Ok((updated, true)))
  }

  function AttachPayment(b: Books, id: nat, payment: nat): Books {
    if id < |b.payouts|
    then b.(payouts := b.payouts[id := b.payouts[id].(payment := Some(payment))])
    else b
  }

  // ------------------------------------------------------------ as code

  class SandboxTables {
    var quotes: seq<Quote>
    var payouts: seq<Payout>
    var balances: map<Purse, int>

    function State(): Books
      reads this
    {
      Books(quotes, payouts, balances)
    }

    /** Balances fit their column. */
    ghost predicate Valid()
      reads this
    {
      forall purse :: purse in balances ==> balances[purse] <= I64_MAX
    }

    constructor ()
      ensures Valid() && State() == NO_BOOKS
    {
      quotes, payouts, balances := [], [], map[];
    }

    /** `insert ... on conflict do update`: adds to the balance row, creating it at need. */
    method AddToBalance(purse: Purse, delta: int) returns (ok: bool)
      requires Valid()
      modifies this`balances
      ensures Valid()
      ensures ok == (Balance(old(State()), purse) + delta <= I64_MAX)
      ensures balances == if ok then old(balances)[purse := Balance(old(State()), purse) + delta] else old(balances)
    {
      var current := if purse in balances then balances[purse] else 0;
      ok := current + delta <= I64_MAX;
      if ok {
        balances := balances[purse := current + delta];
      }
    }

    method CreditBalance(purse: Purse, minor: nat) returns (r: Result<(), StorageError>)
      requires Valid()
      modifies this`balances
      ensures Valid()
      ensures (State(), r) == Credit(old(State()), purse, minor)
    {
      if minor > I64_MAX {
        return Err(AmountOutOfRange);
      }
      var ok := AddToBalance(purse, minor);
      r := if ok then Ok(()) else Err(DatabaseError);
    }

    method Reserve(
      project: string, quote: nat, key: string, scenario: Scenario, bolt11: Option<L.Bolt11>, now: int)
      returns (r: Result<(nat, bool), StorageError>)
      requires Valid()
      modifies this
      ensures Valid()
      ensures (State(), r) == ReservePayout(old(State()), project, quote, key, scenario, bolt11, now)
    {
      var prior := FindPayout(payouts, project, key);
      if prior.Some? {
        if payouts[prior.value].quote != quote || payouts[prior.value].scenario != scenario {
          return Err(IdempotencyMismatch);
        }
        return Ok((prior.value, false));
      }
      if quote >= |quotes| || quotes[quote].project != project {
        return Err(NotFound);
      }
      var q := quotes[quote];
      if !q.status.QuoteOpen? || q.expiresAt < now {
        return Err(IllegalTransition);
      }
      var balance := if (project, q.source) in balances then balances[(project, q.source)] else 0;
      if balance < q.sourceMinor {
        return Err(InsufficientBalance);
      }
      quotes := quotes[quote := q.(status := QuoteUsed)];
      var ok := AddToBalance((project, q.source), 0 - q.sourceMinor as int);
      payouts := payouts + [Payout(project, quote, key, scenario, bolt11, Reserved, None)];
      return Ok((|payouts| - 1, true));
    }

    method Advance(id: nat, next: PayoutStatus) returns (r: Result<(Payout, bool), StorageError>)
      requires Valid()
      modifies this
      ensures Valid()
      ensures (State(), r) == AdvancePayout(old(State()), id, next)
    {
      if id >= |payouts| {
        return Err(NotFound);
      }
      var current := payouts[id];
      if current.status == next {
        return Ok((current, false));
      }
      if !CanAdvance(current.status, next) {
        return Err(IllegalTransition);
      }
      var updated := current.(status := next);
      payouts := payouts[id := updated];
      if next.Failed? && current.quote < |quotes| {
        var q := quotes[current.quote];
        var balance := if (q.project, q.source) in balances then balances[(q.project, q.source)] else 0;
        if balance + q.sourceMinor > I64_MAX {
          payouts := payouts[id := current];
          assert payouts == old(payouts);
          return Err(DatabaseError);
        }
        if (q.project, q.source) in balances {
          balances := balances[(q.project, q.source) := balance + q.sourceMinor];
        }
      }
      return Ok((updated, true));
    }
  }
}
