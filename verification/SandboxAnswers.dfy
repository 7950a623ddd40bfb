/** What each call on the payout ledger answers and stores, condition by condition. */
module SandboxAnswers {
  import opened Core
  import opened Sandbox
  import L = Ledger

  function Stage(s: PayoutStatus): nat {
    match s
    case Reserved => 0
    case Pending => 1
    case Unknown => 2
    case Succeeded => 3
    case Failed => 3
  }

  /** Payouts only move on, and one that was not started can only start. */
  lemma PayoutsOnlyMoveOn(from: PayoutStatus, to: PayoutStatus)
    ensures CanAdvance(from, to) <==> Stage(from) < Stage(to) && (from.Reserved? ==> to.Pending?)
  {
  }

  /** No payout of the project has the key. */
  predicate KeyUnused(b: Books, project: string, key: string) {
    forall i :: 0 <= i < |b.payouts| ==> !(b.payouts[i].project == project && b.payouts[i].key == key)
  }

  /** The quote is the project's own. */
  predicate OwnQuote(b: Books, project: string, quote: nat) {
    quote < |b.quotes| && b.quotes[quote].project == project
  }

  /** The quote can still be taken at `now`: open, and its expiry not yet past. */
  predicate Takeable(b: Books, quote: nat, now: int)
    requires quote < |b.quotes|
  {
    b.quotes[quote].status.QuoteOpen? && now <= b.quotes[quote].expiresAt
  }

  predicate Covered(b: Books, project: string, quote: nat)
    requires quote < |b.quotes|
  {
    b.quotes[quote].sourceMinor <= Balance(b, (project, b.quotes[quote].source))
  }

  /**
   Every answer of `reserve_payout` has its own condition. A payout is created exactly when
   the key is unused, the quote is this project's and can still be taken now, and the balance
   covers it; a prior one is replayed exactly when quote and scenario are the same; and
   nothing but a creation changes the books.
   */
  lemma ReserveAnswers(
    b: Books, project: string, quote: nat, key: string, scenario: Scenario, bolt11: Option<L.Bolt11>, now: int,
    after: Books, r: Result<(nat, bool), StorageError>)
    requires (after, r) == ReservePayout(b, project, quote, key, scenario, bolt11, now)
    ensures r.Ok? && r.value.1 <==>
      && KeyUnused(b, project, key) && OwnQuote(b, project, quote)
      && Takeable(b, quote, now) && Covered(b, project, quote)
    ensures r == Err(NotFound) <==> KeyUnused(b, project, key) && !OwnQuote(b, project, quote)
    ensures r == Err(IllegalTransition) <==>
      KeyUnused(b, project, key) && OwnQuote(b, project, quote) && !Takeable(b, quote, now)
    ensures r == Err(InsufficientBalance) <==>
      && KeyUnused(b, project, key) && OwnQuote(b, project, quote)
      && Takeable(b, quote, now) && !Covered(b, project, quote)
    ensures r == Err(IdempotencyMismatch) || (r.Ok? && !r.value.1) <==> !KeyUnused(b, project, key)
    ensures !KeyUnused(b, project, key) ==>
      exists p :: 0 <= p < |b.payouts| && b.payouts[p].project == project && b.payouts[p].key == key
                  && r == if b.payouts[p].quote == quote && b.payouts[p].scenario == scenario
                          then Ok((p, false)) else Err(IdempotencyMismatch)
    ensures !(r.Ok? && r.value.1) ==> after == b
  {
  }

  /** A reservation marks its quote used, takes exactly its amount from the project's balance and adds one payout. */
  lemma ReserveStores(
    b: Books, project: string, quote: nat, key: string, scenario: Scenario, bolt11: Option<L.Bolt11>, now: int,
    after: Books, p: nat)
    requires (after, Ok((p, true))) == ReservePayout(b, project, quote, key, scenario, bolt11, now)
    ensures p == |b.payouts| && |after.payouts| == p + 1 && after.payouts[..p] == b.payouts
    ensures after.payouts[p] == Payout(project, quote, key, scenario, bolt11, Reserved, None)
    ensures OwnQuote(b, project, quote) && |after.quotes| == |b.quotes|
    ensures after.quotes[quote].status.QuoteUsed? && after.quotes[quote] == b.quotes[quote].(status := QuoteUsed)
    ensures forall q :: 0 <= q < |b.quotes| && q != quote ==> after.quotes[q] == b.quotes[q]
    ensures forall purse: Purse ::
      Balance(after, purse)
      == Balance(b, purse) - if purse == (project, b.quotes[quote].source) then b.quotes[quote].sourceMinor else 0
  {
  }

  /** The refund a failed payout brings. */
  function RefundOf(b: Books, id: nat, next: PayoutStatus): nat
    requires id < |b.payouts|
  {
    if next.Failed? && b.payouts[id].quote < |b.quotes| then b.quotes[b.payouts[id].quote].sourceMinor else 0
  }

  function RefundPurse(b: Books, id: nat): Purse
    requires id < |b.payouts| && b.payouts[id].quote < |b.quotes|
  {
    (b.quotes[b.payouts[id].quote].project, b.quotes[b.payouts[id].quote].source)
  }

  lemma AdvanceAnswers(b: Books, id: nat, next: PayoutStatus, after: Books, r: Result<(Payout, bool), StorageError>)
    requires (after, r) == AdvancePayout(b, id, next)
    ensures r == Err(NotFound) <==> id >= |b.payouts|
    ensures r.Ok? && !r.value.1 <==> id < |b.payouts| && b.payouts[id].status == next
    ensures r == Err(IllegalTransition) <==>
      id < |b.payouts| && b.payouts[id].status != next && !CanAdvance(b.payouts[id].status, next)
    ensures r == Err(DatabaseError) <==>
      && id < |b.payouts| && CanAdvance(b.payouts[id].status, next)
      && next.Failed? && b.payouts[id].quote < |b.quotes|
      && Balance(b, RefundPurse(b, id)) + RefundOf(b, id, next) > I64_MAX
    ensures !(r.Ok? && r.value.1) ==> after == b
    ensures r.Ok? && r.value.1 ==>
      && |after.payouts| == |b.payouts| && after.quotes == b.quotes
      && after.payouts[id] == b.payouts[id].(status := next) && r.value.0 == after.payouts[id]
      && forall i :: 0 <= i < |b.payouts| && i != id ==> after.payouts[i] == b.payouts[i]
  {
    if id < |b.payouts| {
      PayoutsOnlyMoveOn(b.payouts[id].status, next);
    }
  }

  /** A failed payout gives its source amount back to the balance it came from; nothing else moves money. */
  lemma AdvanceRefunds(b: Books, id: nat, next: PayoutStatus, after: Books, r: Result<(Payout, bool), StorageError>, purse: Purse)
    requires (after, r) == AdvancePayout(b, id, next) && r.Ok? && r.value.1
    requires b.payouts[id].quote < |b.quotes| && RefundPurse(b, id) in b.balances
    ensures Balance(after, purse) == Balance(b, purse) + if purse == RefundPurse(b, id) then RefundOf(b, id, next) else 0
  {
  }

  lemma CreditAnswers(b: Books, purse: Purse, minor: nat, after: Books, r: Result<(), StorageError>)
    requires (after, r) == Credit(b, purse, minor)
    ensures r == Err(AmountOutOfRange) <==> minor > I64_MAX
    ensures r == Err(DatabaseError) <==> minor <= I64_MAX && Balance(b, purse) + minor > I64_MAX
    ensures r.Err? ==> after == b
    ensures r.Ok? ==>
      && minor <= I64_MAX && Balance(b, purse) + minor <= I64_MAX
      && after.quotes == b.quotes && after.payouts == b.payouts
      && forall other: Purse :: Balance(after, other) == Balance(b, other) + if other == purse then minor else 0
  {
  }

  predicate FitsColumn(n: nat) {
    0 < n <= I64_MAX
  }

  lemma QuoteIsInsertedExactlyWhen(b: Books, q: Quote, after: Books, r: Result<nat, StorageError>)
    requires (after, r) == InsertQuote(b, q)
    ensures r.Ok? <==> FitsColumn(q.sourceMinor) && FitsColumn(q.targetMinor) && FitsColumn(q.btcMsat)
    ensures r.Err? ==> after == b
    ensures r.Ok? ==>
      && r.value == |b.quotes| && |after.quotes| == |b.quotes| + 1 && after.quotes[..|b.quotes|] == b.quotes
      && after.quotes[|b.quotes|].status.QuoteOpen? && after.quotes[|b.quotes|] == q.(status := QuoteOpen)
      && after.payouts == b.payouts && after.balances == b.balances
  {
  }
}
