/** What a completed scan leaves: every watched output it saw, with the blocks that bury it. */
module WatcherScan {
  import opened Core
  import opened Watcher

  // -------------------------------------------------------- counting blocks

  /** The blocks from `height` to the tip, both included. */
  function Burying(tip: nat, height: nat): nat {
    if height <= tip then tip - height + 1 else 0
  }

  const TWO_31: nat := 0x8000_0000

  /** Below 2^31 blocks, confirmations are the blocks from the output's own to the tip. */
  lemma ConfirmationsCountBlocks(tip: nat, height: nat)
    requires tip + 1 < TWO_31
    ensures Confirmations(tip, height) == Burying(tip, height)
    ensures height <= tip + 1 ==> height + Confirmations(tip, height) == tip + 1
  {
  }

  // ------------------------------------------------------ recording, exactly

  /** Every answer of recording an observation has its own condition; what is refused or unchanged leaves no trace. */
  lemma RecordAnswers(c: Chain, watched: Watched, o: Observation, after: Chain, r: Result<bool, StorageError>)
    requires o.address in watched && (after, r) == RecordObservation(c, watched, o)
    ensures r == Err(AmountOutOfRange) <==> o.outpoint !in c.rows && o.amount > I64_MAX
    ensures r == Err(DatabaseError) <==> o.outpoint !in c.rows && o.amount == 0
    ensures r == Ok(false) <==> o.outpoint in c.rows && c.rows[o.outpoint].confirmations == o.confirmations
    ensures r != Ok(true) ==> after == c
    ensures r == Ok(true) ==> |after.events| == |c.events| + 1 && after.rows.Keys == c.rows.Keys + {o.outpoint}
    ensures forall p :: p in c.rows && p != o.outpoint ==> p in after.rows && after.rows[p] == c.rows[p]
  {
  }

  /** The stored height was another one, with the same count of blocks: a block replaced by one at another height. */
  predicate HeightIsStale(c: Chain, o: Observation) {
    && o.outpoint in c.rows && c.rows[o.outpoint].confirmations == o.confirmations
    && c.rows[o.outpoint].height != o.height
  }

  /** What the row of a recorded observation says, given the rows before. */
  predicate Says(c: Chain, after: Chain, watched: Watched, o: Observation)
    requires o.address in watched
  {
    && o.outpoint in after.rows
    && var row := after.rows[o.outpoint];
       && row.confirmations == o.confirmations
       && (row.height == o.height <==> !HeightIsStale(c, o))
       && (if o.outpoint in c.rows
           then row.address == c.rows[o.outpoint].address && row.amount == c.rows[o.outpoint].amount
           else row.address == o.address && row.amount == o.amount)
       && (row.status == StatusOf(o.confirmations, watched[o.address]) || (Known(c, o) && row == c.rows[o.outpoint]))
  }

  lemma RecordSays(c: Chain, watched: Watched, o: Observation)
    requires o.address in watched && RecordObservation(c, watched, o).1.Ok?
    ensures Says(c, RecordObservation(c, watched, o).0, watched, o)
  {
  }

  function Seen(os: seq<Observation>): set<Outpoint> {
    set k | 0 <= k < |os| :: os[k].outpoint
  }

  /** Rows that were not observed are as they were, and there is a row for each that was. */
  predicate OthersKept(c: Chain, after: Chain, os: seq<Observation>) {
    && after.rows.Keys == c.rows.Keys + Seen(os)
    && forall p :: p in c.rows && p !in Seen(os) ==> after.rows[p] == c.rows[p]
  }

  lemma OneMoreSeen(os: seq<Observation>)
    requires |os| > 0
    ensures Seen(os) == Seen(os[..|os| - 1]) + {os[|os| - 1].outpoint}
  {
    var last := |os| - 1;
    forall p | p in Seen(os[..last]) + {os[last].outpoint} ensures p in Seen(os) {
      if p != os[last].outpoint {
        var k :| 0 <= k < last && os[..last][k].outpoint == p;
        assert os[k].outpoint == p;
      }
    }
    forall p | p in Seen(os) ensures p in Seen(os[..last]) + {os[last].outpoint} {
      var k :| 0 <= k < |os| && os[k].outpoint == p;
      assert k < last ==> os[..last][k].outpoint == p;
    }
  }

  lemma {:induction false} ScanKeepsOthers(c: Chain, watched: Watched, os: seq<Observation>, so: (Chain, Result<nat, StorageError>))
    requires AllWatched(os, watched) && so == RecordAll(c, watched, os) && so.1.Ok?
    ensures OthersKept(c, so.0, os) && |so.0.events| == |c.events| + so.1.value
  {
    if |os| > 0 {
      var last := |os| - 1;
      var before := RecordAll(c, watched, os[..last]);
      ScanKeepsOthers(c, watched, os[..last], before);
      var (after, r) := RecordObservation(before.0, watched, os[last]);
      RecordAnswers(before.0, watched, os[last], after, r);
      OneMoreSeen(os);
    }
  }

  /** A scan of distinct outputs leaves each of them saying what was observed of it. */
  lemma {:induction false} ScanSays(c: Chain, watched: Watched, os: seq<Observation>, so: (Chain, Result<nat, StorageError>))
    requires OutpointsDistinct(os) && AllWatched(os, watched) && so == RecordAll(c, watched, os) && so.1.Ok?
    ensures forall k :: 0 <= k < |os| ==> Says(c, so.0, watched, os[k])
  {
    if |os| > 0 {
      var last := |os| - 1;
      var before := RecordAll(c, watched, os[..last]);
      ScanSays(c, watched, os[..last], before);
      ScanKeepsOthers(c, watched, os[..last], before);
      LastSays(c, before.0, watched, os);
      forall k | 0 <= k < last ensures Says(c, so.0, watched, os[k]) {
        assert Says(c, before.0, watched, os[..last][k]);
        var (after, r) := RecordObservation(before.0, watched, os[last]);
        RecordAnswers(before.0, watched, os[last], after, r);
      }
    }
  }

  /** The last observation finds the row, or the lack of one, that the scan began with. */
  lemma LastSays(c: Chain, before: Chain, watched: Watched, os: seq<Observation>)
    requires |os| > 0 && OutpointsDistinct(os) && AllWatched(os, watched) && OthersKept(c, before, os[..|os| - 1])
    requires RecordObservation(before, watched, os[|os| - 1]).1.Ok?
    ensures Says(c, RecordObservation(before, watched, os[|os| - 1]).0, watched, os[|os| - 1])
  {
    var o := os[|os| - 1];
    assert o.outpoint !in Seen(os[..|os| - 1]);
    assert o.outpoint in c.rows <==> o.outpoint in before.rows;
    RecordSays(before, watched, o);
  }

  // ------------------------------------------------------ what a scan observes

  lemma {:induction false} UnspentIsSeen(tip: nat, us: seq<Unspent>, watched: Watched, i: nat)
    requires i < |us| && us[i].address in watched
    ensures exists k :: 0 <= k < |ConfirmedSeen(tip, us, watched)| && ConfirmedSeen(tip, us, watched)[k] == SeenUnspent(tip, us[i])
  {
    var last := |us| - 1;
    var rest, all := ConfirmedSeen(tip, us[..last], watched), ConfirmedSeen(tip, us, watched);
    if i < last {
      UnspentIsSeen(tip, us[..last], watched, i);
      var k :| 0 <= k < |rest| && rest[k] == SeenUnspent(tip, us[i]);
      assert all[k] == rest[k];
    } else {
      assert all[|rest|] == SeenUnspent(tip, us[i]);
    }
  }

  lemma {:induction false} OutputIsSeen(outputs: seq<Output>, watched: Watched, seen: set<Outpoint>, i: nat)
    requires i < |outputs| && outputs[i].address in watched && outputs[i].outpoint !in seen
    ensures exists k :: 0 <= k < |OutputsSeen(outputs, watched, seen)| && OutputsSeen(outputs, watched, seen)[k] == SeenOutput(outputs[i])
  {
    var last := |outputs| - 1;
    var rest, all := OutputsSeen(outputs[..last], watched, seen), OutputsSeen(outputs, watched, seen);
    if i < last {
      OutputIsSeen(outputs[..last], watched, seen, i);
      var k :| 0 <= k < |rest| && rest[k] == SeenOutput(outputs[i]);
      assert all[k] == rest[k];
    } else {
      assert all[|rest|] == SeenOutput(outputs[i]);
    }
  }

  lemma {:induction false} SeenIsUnspent(tip: nat, us: seq<Unspent>, watched: Watched, k: nat) returns (i: nat)
    requires k < |ConfirmedSeen(tip, us, watched)|
    ensures i < |us| && us[i].address in watched && ConfirmedSeen(tip, us, watched)[k] == SeenUnspent(tip, us[i])
  {
    var last := |us| - 1;
    if k < |ConfirmedSeen(tip, us[..last], watched)| {
      i := SeenIsUnspent(tip, us[..last], watched, k);
    } else {
      i := last;
    }
  }

  lemma {:induction false} SeenIsOutput(outputs: seq<Output>, watched: Watched, seen: set<Outpoint>, k: nat) returns (i: nat)
    requires k < |OutputsSeen(outputs, watched, seen)|
    ensures i < |outputs| && outputs[i].address in watched && outputs[i].outpoint !in seen
    ensures OutputsSeen(outputs, watched, seen)[k] == SeenOutput(outputs[i])
  {
    var last := |outputs| - 1;
    if k < |OutputsSeen(outputs[..last], watched, seen)| {
      i := SeenIsOutput(outputs[..last], watched, seen, k);
    } else {
      i := last;
    }
  }

  /** The view lists each output once per source. */
  predicate ListsOnce(view: View) {
    UnspentsDistinct(view.unspents) && OutputsDistinct(Flat(Listed(view)))
  }

  /** The mempool transactions a scan looks at. */
  function Listed(view: View): seq<Option<seq<Output>>> {
    if |view.mempool| <= 2_000 then view.mempool else view.mempool[..2_000]
  }

  predicate MinedTo(view: View, watched: Watched, i: nat) {
    i < |view.unspents| && view.unspents[i].address in watched
  }

  /** A watched output in the mempool and not among the watched unspent ones. */
  ghost predicate OnlyPending(view: View, watched: Watched, j: nat) {
    && j < |Flat(Listed(view))| && Flat(Listed(view))[j].address in watched
    && forall i: nat :: MinedTo(view, watched, i) ==> view.unspents[i].outpoint != Flat(Listed(view))[j].outpoint
  }

  lemma AllSeenIs(view: View, watched: Watched)
    ensures var confirmed := ConfirmedSeen(view.tip, view.unspents, watched);
            AllSeen(view, watched) == confirmed + OutputsSeen(Flat(Listed(view)), watched, Outpoints(confirmed))
  {
    var confirmed := ConfirmedSeen(view.tip, view.unspents, watched);
    MempoolIsFlat(Listed(view), watched, Outpoints(confirmed));
  }

  lemma MinedIsObserved(view: View, watched: Watched, i: nat) returns (k: nat)
    requires MinedTo(view, watched, i)
    ensures k < |AllSeen(view, watched)| && AllSeen(view, watched)[k] == SeenUnspent(view.tip, view.unspents[i])
  {
    AllSeenIs(view, watched);
    UnspentIsSeen(view.tip, view.unspents, watched, i);
    var confirmed := ConfirmedSeen(view.tip, view.unspents, watched);
    k :| 0 <= k < |confirmed| && confirmed[k] == SeenUnspent(view.tip, view.unspents[i]);
  }

  lemma PendingIsObserved(view: View, watched: Watched, j: nat) returns (k: nat)
    requires OnlyPending(view, watched, j)
    ensures k < |AllSeen(view, watched)| && AllSeen(view, watched)[k] == SeenOutput(Flat(Listed(view))[j])
  {
    AllSeenIs(view, watched);
    var confirmed, outputs := ConfirmedSeen(view.tip, view.unspents, watched), Flat(Listed(view));
    if outputs[j].outpoint in Outpoints(confirmed) {
      var c :| 0 <= c < |confirmed| && confirmed[c].outpoint == outputs[j].outpoint;
      var i := SeenIsUnspent(view.tip, view.unspents, watched, c);
      assert MinedTo(view, watched, i);
    }
    OutputIsSeen(outputs, watched, Outpoints(confirmed), j);
    var pending := OutputsSeen(outputs, watched, Outpoints(confirmed));
    var m :| 0 <= m < |pending| && pending[m] == SeenOutput(outputs[j]);
    k := |confirmed| + m;
  }

  /** Every observation is of a watched unspent output or of a watched one only in the mempool. */
  lemma ObservedIsListed(view: View, watched: Watched, k: nat)
    requires k < |AllSeen(view, watched)|
    ensures var o := AllSeen(view, watched)[k];
            || (exists i: nat :: MinedTo(view, watched, i) && o == SeenUnspent(view.tip, view.unspents[i]))
            || (exists j: nat :: OnlyPending(view, watched, j) && o == SeenOutput(Flat(Listed(view))[j]))
  {
    AllSeenIs(view, watched);
    var confirmed, outputs := ConfirmedSeen(view.tip, view.unspents, watched), Flat(Listed(view));
    if k < |confirmed| {
      var i := SeenIsUnspent(view.tip, view.unspents, watched, k);
      assert MinedTo(view, watched, i);
    } else {
      var j := SeenIsOutput(outputs, watched, Outpoints(confirmed), k - |confirmed|);
      forall i: nat | MinedTo(view, watched, i) ensures view.unspents[i].outpoint != outputs[j].outpoint {
        UnspentIsSeen(view.tip, view.unspents, watched, i);
        var c :| 0 <= c < |confirmed| && confirmed[c] == SeenUnspent(view.tip, view.unspents[i]);
        assert confirmed[c].outpoint in Outpoints(confirmed);
      }
      assert OnlyPending(view, watched, j);
    }
  }

  lemma ObservedOnce(view: View, watched: Watched)
    requires ListsOnce(view)
    ensures OutpointsDistinct(AllSeen(view, watched))
  {
    AllSeenIs(view, watched);
    var confirmed, outputs := ConfirmedSeen(view.tip, view.unspents, watched), Flat(Listed(view));
    var seen := Outpoints(confirmed);
    ConfirmedAreDistinct(view.tip, view.unspents, watched);
    SeenOutputsAreDistinct(outputs, watched, seen);
    BothDistinct(confirmed, OutputsSeen(outputs, watched, seen));
  }

  lemma BothDistinct(confirmed: seq<Observation>, pending: seq<Observation>)
    requires OutpointsDistinct(confirmed) && OutpointsDistinct(pending)
    requires forall k :: 0 <= k < |pending| ==> pending[k].outpoint !in Outpoints(confirmed)
    ensures OutpointsDistinct(confirmed + pending)
  {
    var os := confirmed + pending;
    forall i, j | 0 <= i < j < |os| ensures os[i].outpoint != os[j].outpoint {
      if i < |confirmed| <= j {
        assert os[i].outpoint in Outpoints(confirmed) && os[j] == pending[j - |confirmed|];
      }
    }
  }

  // ------------------------------------------------------------ the theorem

  /** Row and chain agree on a mined output: the blocks that bury it, and whether they are enough. */
  predicate ShowsMined(c: Chain, after: Chain, watched: Watched, tip: nat, u: Unspent)
    requires u.address in watched
  {
    && u.outpoint in after.rows
    && var row := after.rows[u.outpoint];
       && row.address == u.address && row.amount == u.amount
       && row.confirmations == Burying(tip, u.height)
       && (row.status.Confirmed? <==> Burying(tip, u.height) >= 1 && Burying(tip, u.height) >= watched[u.address])
       && (row.status.Unconfirmed? <==> Burying(tip, u.height) == 0)
       && (row.height == Some(u.height) <==> !HeightIsStale(c, SeenUnspent(tip, u)))
  }

  predicate ShowsPending(after: Chain, o: Output) {
    && o.outpoint in after.rows
    && var row := after.rows[o.outpoint];
       row.address == o.address && row.amount == o.amount && row.confirmations == 0 && row.status.Unconfirmed?
  }

  /**
   After a completed scan of a view that lists each output once: each watched unspent output
   has a row that counts the blocks from its own to the tip, is confirmed exactly when those
   meet the requirement, and has its block's height unless a row was there with the same count
   and another height; each watched output seen only in the mempool has a row with no block;
   there is no other new row, no other row changed, and the number returned is the number of
   events logged.
   */
  lemma CompletedScanShowsTheChain(
    c: Chain, watched: Watched, view: View, coins: map<Outpoint, Coin>, after: Chain, changed: nat)
    requires Scan(c, watched, view) == (after, Ok(changed)) && watched != map[] && ListsOnce(view)
    requires ChainTrue(c, watched) && Consistent(c, coins) && ObservedTruly(AllSeen(view, watched), coins)
    requires view.tip + 1 < TWO_31
    ensures forall i: nat :: MinedTo(view, watched, i) ==> ShowsMined(c, after, watched, view.tip, view.unspents[i])
    ensures forall j: nat :: OnlyPending(view, watched, j) ==> ShowsPending(after, Flat(Listed(view))[j])
    ensures forall p :: p in after.rows && (p !in c.rows || after.rows[p] != c.rows[p]) ==>
      || (exists i: nat :: MinedTo(view, watched, i) && view.unspents[i].outpoint == p)
      || (exists j: nat :: OnlyPending(view, watched, j) && Flat(Listed(view))[j].outpoint == p)
    ensures |after.events| == |c.events| + changed
  {
    var os := AllSeen(view, watched);
    ObservedOnce(view, watched);
    ScanSays(c, watched, os, (after, Ok(changed)));
    ScanKeepsOthers(c, watched, os, (after, Ok(changed)));
    forall i: nat | MinedTo(view, watched, i) ensures ShowsMined(c, after, watched, view.tip, view.unspents[i]) {
      var k := MinedIsObserved(view, watched, i);
      MinedRow(c, after, watched, view.tip, view.unspents[i], coins);
    }
    forall j: nat | OnlyPending(view, watched, j) ensures ShowsPending(after, Flat(Listed(view))[j]) {
      var k := PendingIsObserved(view, watched, j);
      PendingRow(c, after, watched, Flat(Listed(view))[j], coins);
    }
    forall p | p in after.rows && (p !in c.rows || after.rows[p] != c.rows[p])
      ensures (exists i: nat :: MinedTo(view, watched, i) && view.unspents[i].outpoint == p)
           || (exists j: nat :: OnlyPending(view, watched, j) && Flat(Listed(view))[j].outpoint == p)
    {
      var k :| 0 <= k < |os| && os[k].outpoint == p;
      ObservedIsListed(view, watched, k);
    }
  }

  lemma MinedRow(c: Chain, after: Chain, watched: Watched, tip: nat, u: Unspent, coins: map<Outpoint, Coin>)
    requires u.address in watched && Says(c, after, watched, SeenUnspent(tip, u)) && tip + 1 < TWO_31
    requires ChainTrue(c, watched) && Consistent(c, coins)
    requires u.outpoint in coins && coins[u.outpoint] == Coin(u.address, u.amount)
    ensures ShowsMined(c, after, watched, tip, u)
  {
    ConfirmationsCountBlocks(tip, u.height);
    StatusFollowsConfirmations(Burying(tip, u.height), Burying(tip, u.height), watched[u.address], watched[u.address]);
    if u.outpoint in c.rows {
      assert RowTrue(c, watched, u.outpoint);
    }
  }

  lemma PendingRow(c: Chain, after: Chain, watched: Watched, o: Output, coins: map<Outpoint, Coin>)
    requires o.address in watched && Says(c, after, watched, SeenOutput(o))
    requires ChainTrue(c, watched) && Consistent(c, coins)
    requires o.outpoint in coins && coins[o.outpoint] == Coin(o.address, o.amount)
    ensures ShowsPending(after, o)
  {
    StatusFollowsConfirmations(0, 0, watched[o.address], watched[o.address]);
    if o.outpoint in c.rows {
      assert RowTrue(c, watched, o.outpoint);
    }
  }

  /**
   The exception is real: a deposit one block deep, whose block is replaced by one at the next
   height, is still one block deep, so the scan leaves the old height standing.
   */
  lemma ReplacedBlockKeepsItsOldHeight(c: Chain, watched: Watched, o: Observation, row: Row)
    requires o.address in watched && c.rows == map[o.outpoint := row] && row.height == Some(100) && row.confirmations == 1
    requires o.height == Some(101) && o.confirmations == Confirmations(101, 101)
    ensures HeightIsStale(c, o) && RecordObservation(c, watched, o) == (c, Ok(false))
  {
  }
}
