/** The deposit watcher: one scan of the confirmed outputs and the mempool, recorded idempotently. */
module Watcher {
  import opened Core

  datatype OnchainStatus = Unconfirmed | Confirming | Confirmed

  function FromConfirmations(confirmations: nat, required: nat): OnchainStatus {
    if confirmations == 0 then Unconfirmed
    else if confirmations < required then Confirming
    else Confirmed
  }

  function AtLeast(floor: int, n: int): int {
    if n < floor then floor else n
  }

  /** The status of a deposit: confirmations are never below zero, and at least one is required. */
  function StatusOf(confirmations: int, required: int): OnchainStatus {
    FromConfirmations(AtLeast(0, confirmations), AtLeast(1, required))
  }

  datatype Outpoint = Outpoint(txid: string, vout: nat)

  datatype Observation = Observation(
    outpoint: Outpoint,
    address: string,
    amount: nat,
    height: Option<nat>,
    confirmations: int)

  datatype Row = Row(address: string, amount: nat, height: Option<nat>, confirmations: int, status: OnchainStatus)

  datatype Kind = Detected | ReachedConfirmed | Updated

  datatype ChainEvent = ChainEvent(kind: Kind, outpoint: Outpoint, confirmations: int, status: OnchainStatus)

  datatype Chain = Chain(rows: map<Outpoint, Row>, events: seq<ChainEvent>)

  /** Required confirmations of each watched address. */
  type Watched = map<string, int>

  /** Stores one observation; `true` when it is new or its confirmations changed. */
  function RecordObservation(c: Chain, watched: Watched, o: Observation): (Chain, Result<bool, StorageError>)
    requires o.address in watched
  {
    var status := StatusOf(o.confirmations, watched[o.address]);
    if o.outpoint !in c.rows then
      if o.amount > I64_MAX then (c, Err(AmountOutOfRange))
      else if o.amount == 0 then (c, Err(DatabaseError))
      else
        (Chain(c.rows[o.outpoint := Row(o.address, o.amount, o.height, o.confirmations, status)],
               c.events + [ChainEvent(Detected, o.outpoint, o.confirmations, status)]),
         Ok(true))
    else
      var old_ := c.rows[o.outpoint];
      if old_.confirmations == o.confirmations then (c, Ok(false))
      else
        var kind := if status.Confirmed? && !old_.status.Confirmed? then ReachedConfirmed else Updated;
        (Chain(c.rows[o.outpoint := old_.(confirmations := o.confirmations, height := o.height, status := status)],
               c.events + [ChainEvent(kind, o.outpoint, o.confirmations, status)]),
         Ok(true))
  }

  function Rank(s: OnchainStatus): nat {
    match s
    case Unconfirmed => 0
    case Confirming => 1
    case Confirmed => 2
  }

  /** More confirmations never lower a status, a higher requirement never raises it, and none is ever confirmed unmined. */
  lemma StatusFollowsConfirmations(few: int, many: int, lax: int, strict: int)
    requires few <= many && lax <= strict
    ensures Rank(StatusOf(few, strict)) <= Rank(StatusOf(many, lax))
    ensures StatusOf(few, lax).Unconfirmed? <==> few <= 0
    ensures StatusOf(few, lax).Confirmed? <==> few >= 1 && few >= lax
  {
  }

  // ------------------------------------------------------------ what is seen

  datatype Unspent = Unspent(outpoint: Outpoint, address: string, amount: nat, height: nat)

  datatype Output = Output(outpoint: Outpoint, address: string, amount: nat)

  /** A mempool transaction that left the mempool between listing and fetching has no outputs. */
  datatype View = View(tip: nat, unspents: seq<Unspent>, mempool: seq<Option<seq<Output>>>)

  const MAX_MEMPOOL_TXS: nat := 2000

  /** Conversion of an unsigned 32-bit count to a signed one. */
  function AsI32(n: nat): int {
    var low := n % 0x1_0000_0000;
    if low < 0x8000_0000 then low else low - 0x1_0000_0000
  }

  function Confirmations(tip: nat, height: nat): int {
    AsI32(if tip + 1 >= height then tip + 1 - height else 0)
  }

  function SeenUnspent(tip: nat, u: Unspent): Observation {
    Observation(u.outpoint, u.address, u.amount, Some(u.height), Confirmations(tip, u.height))
  }

  function SeenOutput(o: Output): Observation {
    Observation(o.outpoint, o.address, o.amount, None, 0)
  }

  predicate AllWatched(os: seq<Observation>, watched: Watched) {
    forall k :: 0 <= k < |os| ==> os[k].address in watched
  }

  /** The observations the confirmed outputs give, those to watched addresses, in order. */
  function ConfirmedSeen(tip: nat, unspents: seq<Unspent>, watched: Watched): (os: seq<Observation>)
    ensures AllWatched(os, watched)
  {
    if |unspents| == 0 then []
    else
      var last := |unspents| - 1;
      var rest := ConfirmedSeen(tip, unspents[..last], watched);
      if unspents[last].address in watched then rest + [SeenUnspent(tip, unspents[last])] else rest
  }

  function Outpoints(os: seq<Observation>): set<Outpoint> {
    set k | 0 <= k < |os| :: os[k].outpoint
  }

  /** The observations one transaction's outputs give, except those already seen confirmed. */
  function OutputsSeen(outputs: seq<Output>, watched: Watched, seen: set<Outpoint>): (os: seq<Observation>)
    ensures AllWatched(os, watched)
  {
    if |outputs| == 0 then []
    else
      var last := |outputs| - 1;
      var rest := OutputsSeen(outputs[..last], watched, seen);
      if outputs[last].address in watched && outputs[last].outpoint !in seen
      then rest + [SeenOutput(outputs[last])] else rest
  }

  function MempoolSeen(mempool: seq<Option<seq<Output>>>, watched: Watched, seen: set<Outpoint>): (os: seq<Observation>)
    ensures AllWatched(os, watched)
  {
    if |mempool| == 0 then []
    else
      var last := |mempool| - 1;
      var rest := MempoolSeen(mempool[..last], watched, seen);
      if mempool[last].Some? then rest + OutputsSeen(mempool[last].value, watched, seen) else rest
  }

  function Taken<T>(s: seq<T>, n: nat): seq<T> {
    if |s| <= n then s else s[..n]
  }

  /** Everything one scan records, in the order it records it. */
  function AllSeen(view: View, watched: Watched): (os: seq<Observation>)
    ensures AllWatched(os, watched)
  {
    var confirmed := ConfirmedSeen(view.tip, view.unspents, watched);
    confirmed + MempoolSeen(Taken(view.mempool, MAX_MEMPOOL_TXS), watched, Outpoints(confirmed))
  }

  /** One observation of a scan: nothing after an error, otherwise record and count a change. */
  function ScanStep(so: (Chain, Result<nat, StorageError>), watched: Watched, o: Observation)
    : (Chain, Result<nat, StorageError>)
    requires o.address in watched
  {
    if so.1.Err? then so
    else
      var (c, r) := RecordObservation(so.0, watched, o);
      if r.Err? then (c, Err(r.error)) else (c, Ok(so.1.value + if r.value then 1 else 0))
  }

  function RecordAll(c: Chain, watched: Watched, os: seq<Observation>): (Chain, Result<nat, StorageError>)
    requires AllWatched(os, watched)
  {
    if |os| == 0 then (c, Ok(0))
    else ScanStep(RecordAll(c, watched, os[..|os| - 1]), watched, os[|os| - 1])
  }

  /** One batch of observations and, unless it failed, the next one. */
  function Chained(first: (Chain, Result<nat, StorageError>), rest: (Chain, Result<nat, StorageError>))
    : (Chain, Result<nat, StorageError>)
  {
    if first.1.Err? then first
    else (rest.0, if rest.1.Err? then rest.1 else Ok(first.1.value + rest.1.value))
  }

  /** One transaction of a scan: its outputs are recorded after what came before, unless that failed. */
  function TransactionStep(
    so: (Chain, Result<nat, StorageError>), watched: Watched, tx: Option<seq<Output>>, seen: set<Outpoint>)
    : (Chain, Result<nat, StorageError>)
  {
    if tx.None? then so else Chained(so, RecordAll(so.0, watched, OutputsSeen(tx.value, watched, seen)))
  }

  function Scan(c: Chain, watched: Watched, view: View): (Chain, Result<nat, StorageError>) {
    if watched == map[] then (c, Ok(0)) else RecordAll(c, watched, AllSeen(view, watched))
  }

  // ------------------------------------------------------------- as code

  class ChainTables {
    var rows: map<Outpoint, Row>
    var events: seq<ChainEvent>

    function State(): Chain
      reads this
    {
      Chain(rows, events)
    }

    constructor ()
      ensures State() == Chain(map[], [])
    {
      rows, events := map[], [];
    }

    method Record(watched: Watched, o: Observation) returns (r: Result<bool, StorageError>)
      requires o.address in watched
      modifies this
      ensures (State(), r) == RecordObservation(old(State()), watched, o)
    {
      var status := StatusOf(o.confirmations, watched[o.address]);
      var kind;
      if o.outpoint !in rows {
        if o.amount > I64_MAX {
          return Err(AmountOutOfRange);
        }
        if o.amount == 0 {
          return Err(DatabaseError);
        }
        rows := rows[o.outpoint := Row(o.address, o.amount, o.height, o.confirmations, status)];
        kind := Detected;
      } else {
        var known := rows[o.outpoint];
        if known.confirmations == o.confirmations {
          return Ok(false);
        }
        rows := rows[o.outpoint := known.(confirmations := o.confirmations, height := o.height, status := status)];
        kind := if status.Confirmed? && !known.status.Confirmed? then ReachedConfirmed else Updated;
      }
      events := events + [ChainEvent(kind, o.outpoint, o.confirmations, status)];
      return Ok(true);
    }

    /** Records one observation and counts it if something changed. */
    method RecordCounted(watched: Watched, o: Observation, changed: nat) returns (r: Result<nat, StorageError>)
      requires o.address in watched
      modifies this
      ensures (State(), r) == ScanStep((old(State()), Ok(changed)), watched, o)
    {
      var one := Record(watched, o);
      if one.Err? {
        return Err(one.error);
      }
      return Ok(changed + if one.value then 1 else 0);
    }

    /** The first loop: the confirmed outputs, remembering which it saw. */
    method ScanConfirmed(watched: Watched, tip: nat, unspents: seq<Unspent>)
      returns (r: Result<nat, StorageError>, seen: set<Outpoint>)
      modifies this
      ensures (State(), r) == RecordAll(old(State()), watched, ConfirmedSeen(tip, unspents, watched))
      ensures r.Ok? ==> seen == Outpoints(ConfirmedSeen(tip, unspents, watched))
    {
      ghost var start := State();
      r, seen := Ok(0), {};
      for i := 0 to |unspents|
        invariant seen == Outpoints(ConfirmedSeen(tip, unspents[..i], watched))
        invariant (State(), r) == RecordAll(start, watched, ConfirmedSeen(tip, unspents[..i], watched)) && r.Ok?
      {
        OneUnspentMore(start, watched, tip, unspents, i);
        if unspents[i].address in watched {
          seen := seen + {unspents[i].outpoint};
          r := RecordCounted(watched, SeenUnspent(tip, unspents[i]), r.value);
          if r.Err? {
            ConfirmedEndEarly(start, watched, tip, unspents, i + 1);
            return;
          }
        }
      }
      assert unspents[..|unspents|] == unspents;
    }

    /** The inner loop: the outputs of one mempool transaction. */
    method ScanOutputs(watched: Watched, outputs: seq<Output>, seen: set<Outpoint>) returns (r: Result<nat, StorageError>)
      modifies this
      ensures (State(), r) == RecordAll(old(State()), watched, OutputsSeen(outputs, watched, seen))
    {
      ghost var start := State();
      r := Ok(0);
      for j := 0 to |outputs|
        invariant (State(), r) == RecordAll(start, watched, OutputsSeen(outputs[..j], watched, seen)) && r.Ok?
      {
        OneOutputMore(start, watched, outputs, j, seen);
        if outputs[j].address in watched && outputs[j].outpoint !in seen {
          r := RecordCounted(watched, SeenOutput(outputs[j]), r.value);
          if r.Err? {
            OutputsEndEarly(start, watched, outputs, j + 1, seen);
            return;
          }
        }
      }
      assert outputs[..|outputs|] == outputs;
    }

    /** One listed transaction: skipped if it has left the mempool. */
    method ScanTransaction(watched: Watched, tx: Option<seq<Output>>, seen: set<Outpoint>, changed: nat)
      returns (r: Result<nat, StorageError>)
      modifies this
      ensures (State(), r) == TransactionStep((old(State()), Ok(changed)), watched, tx, seen)
    {
      if tx.None? {
        return Ok(changed);
      }
      r := ScanOutputs(watched, tx.value, seen);
      if r.Ok? {
        r := Ok(changed + r.value);
      }
    }

    /** The second loop: the mempool transactions that can still be fetched. */
    method ScanMempool(watched: Watched, listed: seq<Option<seq<Output>>>, seen: set<Outpoint>)
      returns (r: Result<nat, StorageError>)
      modifies this
      ensures (State(), r) == RecordAll(old(State()), watched, MempoolSeen(listed, watched, seen))
    {
      ghost var start := State();
      r := Ok(0);
      for i := 0 to |listed|
        invariant (State(), r) == RecordAll(start, watched, MempoolSeen(listed[..i], watched, seen)) && r.Ok?
      {
        OneTransactionMore(start, watched, listed, i, seen);
        r := ScanTransaction(watched, listed[i], seen, r.value);
        if r.Err? {
          MempoolEndsEarly(start, watched, listed, i + 1, seen);
          return;
        }
      }
      assert listed[..|listed|] == listed;
    }

    /** One pass over the confirmed outputs and then the mempool; returns how many outputs changed. */
    method ScanOnce(watched: Watched, view: View) returns (r: Result<nat, StorageError>)
      modifies this
      ensures (State(), r) == Scan(old(State()), watched, view)
    {
      if watched == map[] {
        return Ok(0);
      }
      ghost var start := State();
      var confirmed, seen := ScanConfirmed(watched, view.tip, view.unspents);
      var listed := Taken(view.mempool, MAX_MEMPOOL_TXS);
      ScanIsTwoLoops(start, watched, view, (State(), confirmed));
      if confirmed.Err? {
        return confirmed;
      }
      var pending := ScanMempool(watched, listed, seen);
      if pending.Err? {
        return pending;
      }
      return Ok(confirmed.value + pending.value);
    }
  }

  /** Recording two batches is recording the first and, if it went through, the second. */
  lemma {:induction false} RecordAppend(c: Chain, watched: Watched, a: seq<Observation>, b: seq<Observation>)
    requires AllWatched(a, watched)
    requires AllWatched(b, watched)
    ensures var first := RecordAll(c, watched, a);
            var rest := RecordAll(first.0, watched, b);
            RecordAll(c, watched, a + b) == Chained(first, rest)
  {
    if |b| == 0 {
      assert a + b == a;
    } else {
      assert (a + b)[..|a + b| - 1] == a + b[..|b| - 1];
      RecordAppend(c, watched, a, b[..|b| - 1]);
    }
  }

  lemma OneMore(c: Chain, watched: Watched, os: seq<Observation>, o: Observation)
    requires o.address in watched && AllWatched(os, watched)
    ensures RecordAll(c, watched, os + [o]) == ScanStep(RecordAll(c, watched, os), watched, o)
  {
    assert (os + [o])[..|os|] == os;
  }

  lemma {:induction false} PrefixOf(tip: nat, unspents: seq<Unspent>, n: nat, watched: Watched)
    requires n <= |unspents|
    ensures ConfirmedSeen(tip, unspents[..n], watched) <= ConfirmedSeen(tip, unspents, watched)
  {
    if n == |unspents| {
      assert unspents[..n] == unspents;
    } else {
      var last := |unspents| - 1;
      assert unspents[..last][..n] == unspents[..n];
      PrefixOf(tip, unspents[..last], n, watched);
    }
  }

  lemma {:induction false} OutputsPrefix(outputs: seq<Output>, n: nat, watched: Watched, seen: set<Outpoint>)
    requires n <= |outputs|
    ensures OutputsSeen(outputs[..n], watched, seen) <= OutputsSeen(outputs, watched, seen)
  {
    if n == |outputs| {
      assert outputs[..n] == outputs;
    } else {
      var last := |outputs| - 1;
      assert outputs[..last][..n] == outputs[..n];
      OutputsPrefix(outputs[..last], n, watched, seen);
    }
  }

  lemma {:induction false} MempoolPrefix(
    mempool: seq<Option<seq<Output>>>, n: nat, watched: Watched, seen: set<Outpoint>)
    requires n <= |mempool|
    ensures MempoolSeen(mempool[..n], watched, seen) <= MempoolSeen(mempool, watched, seen)
  {
    if n == |mempool| {
      assert mempool[..n] == mempool;
    } else {
      var last := |mempool| - 1;
      assert mempool[..last][..n] == mempool[..n];
      MempoolPrefix(mempool[..last], n, watched, seen);
    }
  }

  /** An error ends the scan: what would have followed does not matter. */
  lemma {:induction false} StopsEarly(c: Chain, watched: Watched, os: seq<Observation>, all: seq<Observation>)
    requires os <= all && AllWatched(all, watched)
    requires RecordAll(c, watched, os).1.Err?
    ensures RecordAll(c, watched, all) == RecordAll(c, watched, os)
  {
    if |os| < |all| {
      StopsEarly(c, watched, os, all[..|all| - 1]);
    } else {
      assert os == all;
    }
  }

  lemma ConfirmedEndEarly(c: Chain, watched: Watched, tip: nat, unspents: seq<Unspent>, n: nat)
    requires n <= |unspents| && RecordAll(c, watched, ConfirmedSeen(tip, unspents[..n], watched)).1.Err?
    ensures RecordAll(c, watched, ConfirmedSeen(tip, unspents, watched))
         == RecordAll(c, watched, ConfirmedSeen(tip, unspents[..n], watched))
  {
    PrefixOf(tip, unspents, n, watched);
    StopsEarly(c, watched, ConfirmedSeen(tip, unspents[..n], watched), ConfirmedSeen(tip, unspents, watched));
  }

  lemma OutputsEndEarly(c: Chain, watched: Watched, outputs: seq<Output>, n: nat, seen: set<Outpoint>)
    requires n <= |outputs| && RecordAll(c, watched, OutputsSeen(outputs[..n], watched, seen)).1.Err?
    ensures RecordAll(c, watched, OutputsSeen(outputs, watched, seen))
         == RecordAll(c, watched, OutputsSeen(outputs[..n], watched, seen))
  {
    OutputsPrefix(outputs, n, watched, seen);
    StopsEarly(c, watched, OutputsSeen(outputs[..n], watched, seen), OutputsSeen(outputs, watched, seen));
  }

  lemma MempoolEndsEarly(
    c: Chain, watched: Watched, mempool: seq<Option<seq<Output>>>, n: nat, seen: set<Outpoint>)
    requires n <= |mempool| && RecordAll(c, watched, MempoolSeen(mempool[..n], watched, seen)).1.Err?
    ensures RecordAll(c, watched, MempoolSeen(mempool, watched, seen))
         == RecordAll(c, watched, MempoolSeen(mempool[..n], watched, seen))
  {
    MempoolPrefix(mempool, n, watched, seen);
    StopsEarly(c, watched, MempoolSeen(mempool[..n], watched, seen), MempoolSeen(mempool, watched, seen));
  }

  lemma OneUnspentMore(c: Chain, watched: Watched, tip: nat, unspents: seq<Unspent>, i: nat)
    requires i < |unspents|
    ensures var before := RecordAll(c, watched, ConfirmedSeen(tip, unspents[..i], watched));
            RecordAll(c, watched, ConfirmedSeen(tip, unspents[..i + 1], watched))
            == if unspents[i].address !in watched then before
               else ScanStep(before, watched, SeenUnspent(tip, unspents[i]))
    ensures Outpoints(ConfirmedSeen(tip, unspents[..i + 1], watched))
         == Outpoints(ConfirmedSeen(tip, unspents[..i], watched))
            + if unspents[i].address !in watched then {} else {unspents[i].outpoint}
  {
    assert unspents[..i + 1][..i] == unspents[..i];
    if unspents[i].address in watched {
      var os, o := ConfirmedSeen(tip, unspents[..i], watched), SeenUnspent(tip, unspents[i]);
      OneMore(c, watched, os, o);
      OneMoreOutpoint(os, o);
    }
  }

  lemma OneMoreOutpoint(os: seq<Observation>, o: Observation)
    ensures Outpoints(os + [o]) == Outpoints(os) + {o.outpoint}
  {
    forall p | p in Outpoints(os) + {o.outpoint} ensures p in Outpoints(os + [o]) {
      if p == o.outpoint {
        assert (os + [o])[|os|].outpoint == p;
      } else {
        var k :| 0 <= k < |os| && os[k].outpoint == p;
        assert (os + [o])[k].outpoint == p;
      }
    }
  }

  lemma OneOutputMore(c: Chain, watched: Watched, outputs: seq<Output>, j: nat, seen: set<Outpoint>)
    requires j < |outputs|
    ensures var before := RecordAll(c, watched, OutputsSeen(outputs[..j], watched, seen));
            RecordAll(c, watched, OutputsSeen(outputs[..j + 1], watched, seen))
            == if outputs[j].address !in watched || outputs[j].outpoint in seen then before
               else ScanStep(before, watched, SeenOutput(outputs[j]))
  {
    assert outputs[..j + 1][..j] == outputs[..j];
    if outputs[j].address in watched && outputs[j].outpoint !in seen {
      OneMore(c, watched, OutputsSeen(outputs[..j], watched, seen), SeenOutput(outputs[j]));
    }
  }

  lemma OneTransactionMore(
    c: Chain, watched: Watched, mempool: seq<Option<seq<Output>>>, i: nat, seen: set<Outpoint>)
    requires i < |mempool|
    ensures RecordAll(c, watched, MempoolSeen(mempool[..i + 1], watched, seen))
         == TransactionStep(RecordAll(c, watched, MempoolSeen(mempool[..i], watched, seen)), watched, mempool[i], seen)
  {
    assert mempool[..i + 1][..i] == mempool[..i];
    if mempool[i].Some? {
      RecordAppend(c, watched, MempoolSeen(mempool[..i], watched, seen), OutputsSeen(mempool[i].value, watched, seen));
    }
  }

  lemma ScanIsTwoLoops(c: Chain, watched: Watched, view: View, first: (Chain, Result<nat, StorageError>))
    requires watched != map[] && first == RecordAll(c, watched, ConfirmedSeen(view.tip, view.unspents, watched))
    ensures var seen := Outpoints(ConfirmedSeen(view.tip, view.unspents, watched));
            var rest := RecordAll(first.0, watched, MempoolSeen(Taken(view.mempool, MAX_MEMPOOL_TXS), watched, seen));
            Scan(c, watched, view) == Chained(first, rest)
  {
    var confirmed := ConfirmedSeen(view.tip, view.unspents, watched);
    RecordAppend(c, watched, confirmed,
                 MempoolSeen(Taken(view.mempool, MAX_MEMPOOL_TXS), watched, Outpoints(confirmed)));
  }

  // -------------------------------------------------- a second scan is silent

  predicate OutpointsDistinct(os: seq<Observation>) {
    forall i, j :: 0 <= i < j < |os| ==> os[i].outpoint != os[j].outpoint
  }

  /** The stored row already says what the observation says. */
  predicate Known(c: Chain, o: Observation) {
    o.outpoint in c.rows && c.rows[o.outpoint].confirmations == o.confirmations
  }

  lemma {:induction false} ScanLeavesAllKnown(
    c: Chain, watched: Watched, os: seq<Observation>, so: (Chain, Result<nat, StorageError>))
    requires OutpointsDistinct(os) && AllWatched(os, watched)
    requires so == RecordAll(c, watched, os) && so.1.Ok?
    ensures forall k :: 0 <= k < |os| ==> Known(so.0, os[k])
  {
    if |os| > 0 {
      var last := |os| - 1;
      var before := RecordAll(c, watched, os[..last]);
      ScanLeavesAllKnown(c, watched, os[..last], before);
      forall k | 0 <= k < |os| ensures Known(so.0, os[k]) {
        if k < last {
          assert Known(before.0, os[..last][k]);
        }
      }
    }
  }

  lemma {:induction false} KnownChangesNothing(c: Chain, watched: Watched, os: seq<Observation>)
    requires AllWatched(os, watched)
    requires forall k :: 0 <= k < |os| ==> Known(c, os[k])
    ensures RecordAll(c, watched, os) == (c, Ok(0))
  {
    if |os| > 0 {
      KnownChangesNothing(c, watched, os[..|os| - 1]);
      assert Known(c, os[|os| - 1]);
    }
  }

  predicate UnspentsDistinct(us: seq<Unspent>) {
    forall i, j :: 0 <= i < j < |us| ==> us[i].outpoint != us[j].outpoint
  }

  lemma {:induction false} ConfirmedAreDistinct(tip: nat, us: seq<Unspent>, watched: Watched)
    requires UnspentsDistinct(us)
    ensures OutpointsDistinct(ConfirmedSeen(tip, us, watched))
    ensures forall k :: 0 <= k < |ConfirmedSeen(tip, us, watched)| ==>
      exists i :: 0 <= i < |us| && us[i].outpoint == ConfirmedSeen(tip, us, watched)[k].outpoint
  {
    if |us| > 0 {
      var last := |us| - 1;
      ConfirmedAreDistinct(tip, us[..last], watched);
      var rest := ConfirmedSeen(tip, us[..last], watched);
      forall k | 0 <= k < |rest|
        ensures exists i :: 0 <= i < last && us[i].outpoint == rest[k].outpoint
      {
        var i :| 0 <= i < |us[..last]| && us[..last][i].outpoint == rest[k].outpoint;
        assert us[i].outpoint == rest[k].outpoint;
      }
    }
  }

  /** All outputs the mempool listing gives, flattened. */
  function Flat(mempool: seq<Option<seq<Output>>>): seq<Output> {
    if |mempool| == 0 then []
    else
      var last := |mempool| - 1;
      if mempool[last].Some? then Flat(mempool[..last]) + mempool[last].value else Flat(mempool[..last])
  }

  predicate OutputsDistinct(outputs: seq<Output>) {
    forall i, j :: 0 <= i < j < |outputs| ==> outputs[i].outpoint != outputs[j].outpoint
  }

  lemma {:induction false} OutputsSeenAppend(a: seq<Output>, b: seq<Output>, watched: Watched, seen: set<Outpoint>)
    ensures OutputsSeen(a + b, watched, seen) == OutputsSeen(a, watched, seen) + OutputsSeen(b, watched, seen)
  {
    if |b| == 0 {
      assert a + b == a;
    } else {
      assert (a + b)[..|a + b| - 1] == a + b[..|b| - 1];
      OutputsSeenAppend(a, b[..|b| - 1], watched, seen);
    }
  }

  lemma {:induction false} MempoolIsFlat(mempool: seq<Option<seq<Output>>>, watched: Watched, seen: set<Outpoint>)
    ensures MempoolSeen(mempool, watched, seen) == OutputsSeen(Flat(mempool), watched, seen)
  {
    if |mempool| > 0 {
      var last := |mempool| - 1;
      MempoolIsFlat(mempool[..last], watched, seen);
      if mempool[last].Some? {
        OutputsSeenAppend(Flat(mempool[..last]), mempool[last].value, watched, seen);
      }
    }
  }

  lemma {:induction false} SeenOutputsAreDistinct(outputs: seq<Output>, watched: Watched, seen: set<Outpoint>)
    requires OutputsDistinct(outputs)
    ensures OutpointsDistinct(OutputsSeen(outputs, watched, seen))
    ensures forall k :: 0 <= k < |OutputsSeen(outputs, watched, seen)| ==>
      && OutputsSeen(outputs, watched, seen)[k].outpoint !in seen
      && exists i :: 0 <= i < |outputs| && outputs[i].outpoint == OutputsSeen(outputs, watched, seen)[k].outpoint
  {
    if |outputs| > 0 {
      var last := |outputs| - 1;
      SeenOutputsAreDistinct(outputs[..last], watched, seen);
      var rest := OutputsSeen(outputs[..last], watched, seen);
      forall k | 0 <= k < |rest|
        ensures exists i :: 0 <= i < last && outputs[i].outpoint == rest[k].outpoint
      {
        var i :| 0 <= i < |outputs[..last]| && outputs[..last][i].outpoint == rest[k].outpoint;
        assert outputs[i].outpoint == rest[k].outpoint;
      }
    }
  }

  /**
   For a chain view that lists each output once per source, a scan that completes can be
   repeated over the same view without a change, an event or a count.
   */
  lemma SecondScanIsSilent(c: Chain, watched: Watched, view: View)
    requires UnspentsDistinct(view.unspents)
    requires OutputsDistinct(Flat(Taken(view.mempool, MAX_MEMPOOL_TXS)))
    requires Scan(c, watched, view).1.Ok?
    ensures Scan(Scan(c, watched, view).0, watched, view) == (Scan(c, watched, view).0, Ok(0))
  {
    if watched != map[] {
      var confirmed := ConfirmedSeen(view.tip, view.unspents, watched);
      var listed := Taken(view.mempool, MAX_MEMPOOL_TXS);
      var seen := Outpoints(confirmed);
      ConfirmedAreDistinct(view.tip, view.unspents, watched);
      MempoolIsFlat(listed, watched, seen);
      SeenOutputsAreDistinct(Flat(listed), watched, seen);
      var mem := MempoolSeen(listed, watched, seen);
      var os := AllSeen(view, watched);
      forall i, j | 0 <= i < j < |os| ensures os[i].outpoint != os[j].outpoint {
        if i < |confirmed| <= j {
          assert os[i] == confirmed[i] && os[j] == mem[j - |confirmed|];
          assert os[i].outpoint in seen;
        } else if |confirmed| <= i {
          assert os[i] == mem[i - |confirmed|] && os[j] == mem[j - |confirmed|];
        }
      }
      ScanLeavesAllKnown(c, watched, os, Scan(c, watched, view));
      KnownChangesNothing(Scan(c, watched, view).0, watched, os);
    }
  }

  // ----------------------------------------------- rows, statuses and events

  function LastEvent(events: seq<ChainEvent>, p: Outpoint): Option<ChainEvent> {
    if |events| == 0 then None
    else if events[|events| - 1].outpoint == p then Some(events[|events| - 1])
    else LastEvent(events[..|events| - 1], p)
  }

  /** A row's status follows from its confirmations and requirement, and its latest event says the same. */
  predicate RowTrue(c: Chain, watched: Watched, p: Outpoint)
    requires p in c.rows
  {
    var row := c.rows[p];
    && row.address in watched
    && row.status == StatusOf(row.confirmations, watched[row.address])
    && var e := LastEvent(c.events, p);
       e.Some? && e.value.confirmations == row.confirmations && e.value.status == row.status
  }

  /** How many events announce an output as new. */
  function Detections(events: seq<ChainEvent>, p: Outpoint): nat {
    if |events| == 0 then 0
    else
      var last := events[|events| - 1];
      Detections(events[..|events| - 1], p) + if last.kind.Detected? && last.outpoint == p then 1 else 0
  }

  /** An output is announced as new exactly once if it is stored, and never otherwise. */
  predicate DetectedOnce(c: Chain, p: Outpoint) {
    Detections(c.events, p) == if p in c.rows then 1 else 0
  }

  /** The event a change of status calls for, after the output's previous one. */
  function KindAfter(previous: Option<ChainEvent>, status: OnchainStatus): Kind {
    if previous.None? then Detected
    else if status.Confirmed? && !previous.value.status.Confirmed? then ReachedConfirmed
    else Updated
  }

  /** Each event is of the kind its output's previous event calls for. */
  predicate KindsTrue(events: seq<ChainEvent>) {
    forall k :: 0 <= k < |events| ==> events[k].kind == KindAfter(LastEvent(events[..k], events[k].outpoint), events[k].status)
  }

  ghost predicate ChainTrue(c: Chain, watched: Watched) {
    && (forall p :: p in c.rows ==> RowTrue(c, watched, p))
    && (forall p :: DetectedOnce(c, p))
    && KindsTrue(c.events)
  }

  datatype Coin = Coin(address: string, amount: nat)

  /** The chain's own fact: an output pays one amount to one address, whoever reports it. */
  predicate Consistent(c: Chain, coins: map<Outpoint, Coin>) {
    forall p :: p in c.rows ==> p in coins && coins[p] == Coin(c.rows[p].address, c.rows[p].amount)
  }

  predicate ObservedTruly(os: seq<Observation>, coins: map<Outpoint, Coin>) {
    forall k :: 0 <= k < |os| ==> os[k].outpoint in coins && coins[os[k].outpoint] == Coin(os[k].address, os[k].amount)
  }

  lemma LastEventAppend(events: seq<ChainEvent>, e: ChainEvent, p: Outpoint)
    ensures LastEvent(events + [e], p) == if e.outpoint == p then Some(e) else LastEvent(events, p)
    ensures Detections(events + [e], p) == Detections(events, p) + if e.kind.Detected? && e.outpoint == p then 1 else 0
  {
    assert (events + [e])[..|events|] == events;
  }

  /** One row was written together with its event, which is a detection exactly when the row is new. */
  predicate Written(c: Chain, after: Chain, p: Outpoint, row: Row, e: ChainEvent) {
    && after.rows == c.rows[p := row] && after.events == c.events + [e]
    && e.outpoint == p && e.confirmations == row.confirmations && e.status == row.status
    && (e.kind.Detected? <==> p !in c.rows)
  }

  lemma WrittenKeepsRows(c: Chain, after: Chain, watched: Watched, p: Outpoint, row: Row, e: ChainEvent)
    requires Written(c, after, p, row, e) && row.address in watched
    requires row.status == StatusOf(row.confirmations, watched[row.address])
    requires forall q :: q in c.rows ==> RowTrue(c, watched, q)
    ensures forall q :: q in after.rows ==> RowTrue(after, watched, q)
  {
    forall q | q in after.rows ensures RowTrue(after, watched, q) {
      LastEventAppend(c.events, e, q);
      if q != p {
        assert RowTrue(c, watched, q);
      }
    }
  }

  lemma {:induction false} UndetectedHasNoEvent(events: seq<ChainEvent>, p: Outpoint)
    requires KindsTrue(events) && Detections(events, p) == 0
    ensures LastEvent(events, p).None?
  {
    if |events| > 0 {
      var last := |events| - 1;
      assert events[last].kind == KindAfter(LastEvent(events[..last], events[last].outpoint), events[last].status);
      KindsOfPrefix(events, last);
      UndetectedHasNoEvent(events[..last], p);
    }
  }

  lemma KindsOfPrefix(events: seq<ChainEvent>, n: nat)
    requires n <= |events| && KindsTrue(events)
    ensures KindsTrue(events[..n])
  {
    forall k | 0 <= k < n ensures events[..n][k].kind == KindAfter(LastEvent(events[..n][..k], events[..n][k].outpoint), events[..n][k].status) {
      assert events[..n][..k] == events[..k];
    }
  }

  lemma OneMoreKind(events: seq<ChainEvent>, e: ChainEvent)
    requires KindsTrue(events) && e.kind == KindAfter(LastEvent(events, e.outpoint), e.status)
    ensures KindsTrue(events + [e])
  {
    var more := events + [e];
    forall k | 0 <= k < |more| ensures more[k].kind == KindAfter(LastEvent(more[..k], more[k].outpoint), more[k].status) {
      assert more[..k] == events[..k];
      if k == |events| {
        assert events[..k] == events;
      }
    }
  }

  lemma WrittenKeepsDetections(c: Chain, after: Chain, p: Outpoint, row: Row, e: ChainEvent)
    requires Written(c, after, p, row, e) && forall q :: DetectedOnce(c, q)
    ensures forall q :: DetectedOnce(after, q)
  {
    forall q ensures DetectedOnce(after, q) {
      assert DetectedOnce(c, q);
      LastEventAppend(c.events, e, q);
    }
  }

  /** What recording writes, if it writes anything. */
  lemma RecordWrites(c: Chain, after: Chain, watched: Watched, o: Observation)
    requires o.address in watched && after == RecordObservation(c, watched, o).0 && after != c
    requires o.outpoint in c.rows ==> c.rows[o.outpoint].address == o.address
    ensures o.outpoint in after.rows && |after.events| == |c.events| + 1
    ensures var row, e := after.rows[o.outpoint], after.events[|c.events|];
            && Written(c, after, o.outpoint, row, e)
            && row.address == o.address && row.status == StatusOf(row.confirmations, watched[row.address])
            && row.amount == (if o.outpoint in c.rows then c.rows[o.outpoint].amount else o.amount)
            && e.kind == (if o.outpoint !in c.rows then Detected
                          else if row.status.Confirmed? && !c.rows[o.outpoint].status.Confirmed? then ReachedConfirmed
                          else Updated)
  {
  }

  lemma WrittenKeepsKinds(c: Chain, after: Chain, watched: Watched, p: Outpoint, row: Row, e: ChainEvent)
    requires Written(c, after, p, row, e) && KindsTrue(c.events) && DetectedOnce(c, p)
    requires p in c.rows ==> RowTrue(c, watched, p)
    requires e.kind == (if p !in c.rows then Detected
                        else if row.status.Confirmed? && !c.rows[p].status.Confirmed? then ReachedConfirmed
                        else Updated)
    ensures KindsTrue(after.events)
  {
    if p !in c.rows {
      UndetectedHasNoEvent(c.events, p);
    }
    OneMoreKind(c.events, e);
  }

  lemma RecordKeepsTrue(c: Chain, watched: Watched, o: Observation, coins: map<Outpoint, Coin>)
    requires ChainTrue(c, watched) && Consistent(c, coins) && o.address in watched
    requires o.outpoint in coins && coins[o.outpoint] == Coin(o.address, o.amount)
    ensures ChainTrue(RecordObservation(c, watched, o).0, watched)
    ensures Consistent(RecordObservation(c, watched, o).0, coins)
  {
    RecordedIsTrue(c, RecordObservation(c, watched, o).0, watched, o, coins);
  }

  lemma RecordedIsTrue(c: Chain, after: Chain, watched: Watched, o: Observation, coins: map<Outpoint, Coin>)
    requires ChainTrue(c, watched) && Consistent(c, coins) && o.address in watched
    requires o.outpoint in coins && coins[o.outpoint] == Coin(o.address, o.amount)
    requires after == RecordObservation(c, watched, o).0
    ensures ChainTrue(after, watched) && Consistent(after, coins)
  {
    if after != c {
      RecordWrites(c, after, watched, o);
      WrittenIsTrue(c, after, watched, o.outpoint, after.rows[o.outpoint], after.events[|c.events|]);
    }
  }

  lemma WrittenIsTrue(c: Chain, after: Chain, watched: Watched, p: Outpoint, row: Row, e: ChainEvent)
    requires ChainTrue(c, watched) && Written(c, after, p, row, e)
    requires row.address in watched && row.status == StatusOf(row.confirmations, watched[row.address])
    requires e.kind == (if p !in c.rows then Detected
                        else if row.status.Confirmed? && !c.rows[p].status.Confirmed? then ReachedConfirmed
                        else Updated)
    ensures ChainTrue(after, watched)
  {
    WrittenKeepsRows(c, after, watched, p, row, e);
    WrittenKeepsDetections(c, after, p, row, e);
    assert DetectedOnce(c, p);
    WrittenKeepsKinds(c, after, watched, p, row, e);
  }

  lemma {:induction false} ScanKeepsTrue(
    c: Chain, watched: Watched, os: seq<Observation>, coins: map<Outpoint, Coin>,
    so: (Chain, Result<nat, StorageError>))
    requires ChainTrue(c, watched) && Consistent(c, coins) && ObservedTruly(os, coins)
    requires AllWatched(os, watched)
    requires so == RecordAll(c, watched, os)
    ensures ChainTrue(so.0, watched) && Consistent(so.0, coins)
  {
    if |os| > 0 {
      var before := RecordAll(c, watched, os[..|os| - 1]);
      ScanKeepsTrue(c, watched, os[..|os| - 1], coins, before);
      RecordKeepsTrue(before.0, watched, os[|os| - 1], coins);
    }
  }

  /** One scan: the addresses watched by then, and the chain as the node reports it. */
  datatype Pass = Pass(watched: Watched, view: View)

  function RunScans(c: Chain, passes: seq<Pass>): Chain {
    if |passes| == 0 then c
    else
      var last := passes[|passes| - 1];
      Scan(RunScans(c, passes[..|passes| - 1]), last.watched, last.view).0
  }

  /** Addresses are added over time and never change their requirement. */
  predicate Grows(few: Watched, more: Watched) {
    forall a :: a in few ==> a in more && more[a] == few[a]
  }

  predicate PassesGrow(passes: seq<Pass>, last: Watched) {
    && (forall k :: 0 <= k < |passes| ==> Grows(passes[k].watched, last))
    && (forall j, k :: 0 <= j < k < |passes| ==> Grows(passes[j].watched, passes[k].watched))
  }

  predicate PassesTrue(passes: seq<Pass>, coins: map<Outpoint, Coin>) {
    forall k :: 0 <= k < |passes| ==> ObservedTruly(AllSeen(passes[k].view, passes[k].watched), coins)
  }

  lemma TrueUnderMore(c: Chain, few: Watched, more: Watched)
    requires ChainTrue(c, few) && Grows(few, more)
    ensures ChainTrue(c, more)
  {
    forall p | p in c.rows ensures RowTrue(c, more, p) {
      assert RowTrue(c, few, p);
    }
    forall p ensures DetectedOnce(c, p) {
    }
  }

  /** After any scans of any views of one chain, completed or not, while addresses are added, every row is true. */
  lemma {:induction false} EveryRowIsTrue(passes: seq<Pass>, coins: map<Outpoint, Coin>, watched: Watched)
    requires PassesTrue(passes, coins) && PassesGrow(passes, watched)
    ensures ChainTrue(RunScans(Chain(map[], []), passes), watched)
    ensures Consistent(RunScans(Chain(map[], []), passes), coins)
  {
    if |passes| > 0 {
      var rest, last := passes[..|passes| - 1], passes[|passes| - 1];
      EveryRowIsTrue(rest, coins, last.watched);
      var before := RunScans(Chain(map[], []), rest);
      var after := Scan(before, last.watched, last.view);
      if last.watched != map[] {
        ScanKeepsTrue(before, last.watched, AllSeen(last.view, last.watched), coins, after);
      }
      TrueUnderMore(after.0, last.watched, watched);
    }
  }
}
