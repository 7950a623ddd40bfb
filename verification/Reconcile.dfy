/** Reconciliation of open payments with the node's own records. */
module Reconcile {
  import opened Core
  import opened Ledger
  import opened Storage

  datatype NodeStatus = NodePending | NodeSucceeded | NodeFailed

  datatype NodeRecord = NodeRecord(status: NodeStatus, preimage: Option<string>, fee: Option<nat>)

  /** The node's records by payment hash, as `payment(hash)` reports them. */
  type View = map<string, NodeRecord>

  function Look(view: View, hash: string): Option<NodeRecord> {
    if hash in view then Some(view[hash]) else None
  }

  datatype Decision = Keep | Move(next: PaymentStatus, res: Resolution)

  /** What a reconciler that saw `current` does about the node's answer. */
  function Decide(current: PaymentStatus, seen: Option<NodeRecord>): Decision {
    if IsFinal(current) then Keep
    else
      match seen
      case Some(NodeRecord(NodeSucceeded, preimage, fee)) => Move(Succeeded, Resolution(fee, None, preimage))
      case Some(NodeRecord(NodeFailed, _, _)) => Move(Failed, Resolution(None, Some("reported_failed_by_node"), None))
      case Some(NodeRecord(NodePending, _, _)) => Keep
      case None =>
        if current.Created? then Move(Failed, Resolution(None, Some("never_dispatched"), None))
        else if current.Unknown? then Keep
        else Move(Unknown, NO_RESOLUTION)
  }

  /** `created` cannot move straight to anything but `failed`; it passes through `pending`. */
  predicate NeedsPass(current: PaymentStatus, next: PaymentStatus) {
    current.Created? && !next.Failed?
  }

  /** Reconciles one row from the status the caller read. */
  function ReconcilePayment(db: Db, view: View, id: nat, row: Payment): (Db, Result<Payment, StorageError>) {
    match Decide(row.status, Look(view, row.Hash()))
    case Keep => (db, Ok(row))
    case Move(next, res) =>
      var (passed, p) := if NeedsPass(row.status, next)
                         then TransitionPayment(db, None, id, Pending, NO_RESOLUTION)
                         else (db, Ok(Transitioned(row, false)));
      if p.Err? then (passed, Err(p.error))
      else
        var (done, r) := TransitionPayment(passed, None, id, next, res);
        (done, if r.Ok? then Ok(r.value.payment) else Err(r.error))
  }

  /** One turn of the scan: nothing after an error, otherwise reconcile the row and count a change. */
  function ScanRow(so: (Db, Result<nat, StorageError>), view: View, id: nat, row: Payment)
    : (Db, Result<nat, StorageError>)
  {
    if so.1.Err? then so
    else
      var (next, after) := ReconcilePayment(so.0, view, id, row);
      if after.Err? then (next, Err(after.error))
      else (next, Ok(so.1.value + if after.value.status != row.status then 1 else 0))
  }

  /** Reconciles the first `n` of the scanned rows, counting changes and stopping at an error. */
  function ReconcileUpTo(db: Db, view: View, rows: seq<Payment>, ids: seq<nat>, n: nat)
    : (Db, Result<nat, StorageError>)
    requires n <= |ids| && forall k :: 0 <= k < |ids| ==> ids[k] < |rows|
  {
    if n == 0 then (db, Ok(0))
    else
      ScanRow(ReconcileUpTo(db, view, rows, ids, n - 1), view, ids[n - 1], rows[ids[n - 1]])
  }

  function ReconcileAll(db: Db, view: View): (Db, Result<nat, StorageError>) {
    var ids := UnresolvedPayments(db.payments);
    ReconcileUpTo(db, view, db.payments, ids, |ids|)
  }

  method ReconcilePaymentNow(db: Database, view: View, id: nat, row: Payment)
    returns (r: Result<Payment, StorageError>)
    modifies db
    ensures (db.State(), r) == ReconcilePayment(old(db.State()), view, id, row)
  {
    if IsFinal(row.status) {
      return Ok(row);
    }
    var seen := Look(view, row.Hash());
    var next, res;
    match seen {
      case Some(NodeRecord(NodeSucceeded, preimage, fee)) =>
        next, res := Succeeded, Resolution(fee, None, preimage);
      case Some(NodeRecord(NodeFailed, _, _)) =>
        next, res := Failed, Resolution(None, Some("reported_failed_by_node"), None);
      case Some(NodeRecord(NodePending, _, _)) =>
        return Ok(row);
      case None =>
        if row.status.Created? {
          next, res := Failed, Resolution(None, Some("never_dispatched"), None);
        } else if row.status.Unknown? {
          return Ok(row);
        } else {
          next, res := Unknown, NO_RESOLUTION;
        }
    }
    if row.status.Created? && !next.Failed? {
      var p := db.TransitionPayment(None, id, Pending, NO_RESOLUTION);
      if p.Err? {
        return Err(p.error);
      }
    }
    var t := db.TransitionPayment(None, id, next, res);
    r := if t.Ok? then Ok(t.value.payment) else Err(t.error);
  }

  /** Reconciles one scanned row and counts it if its status changed. */
  method ScanRowNow(db: Database, view: View, id: nat, row: Payment, changed: nat) returns (r: Result<nat, StorageError>)
    modifies db
    ensures (db.State(), r) == ScanRow((old(db.State()), Ok(changed)), view, id, row)
  {
    var after := ReconcilePaymentNow(db, view, id, row);
    if after.Err? {
      return Err(after.error);
    }
    return Ok(changed + if after.value.status != row.status then 1 else 0);
  }

  /** The startup pass over every open payment. */
  method ReconcileAllNow(db: Database, view: View) returns (r: Result<nat, StorageError>)
    modifies db
    ensures (db.State(), r) == ReconcileAll(old(db.State()), view)
  {
    ghost var start := db.State();
    var rows := db.payments;
    var open := UnresolvedPayments(rows);
    r := Ok(0);
    for k := 0 to |open|
      invariant (db.State(), r) == ReconcileUpTo(start, view, rows, open, k) && r.Ok?
    {
      r := ScanRowNow(db, view, open[k], rows[open[k]], r.value);
      if r.Err? {
        StopsAtError(start, view, rows, open, k + 1, |open|);
        return;
      }
    }
  }

  lemma {:induction false} StopsAtError(db: Db, view: View, rows: seq<Payment>, ids: seq<nat>, n: nat, m: nat)
    requires n <= m <= |ids| && forall k :: 0 <= k < |ids| ==> ids[k] < |rows|
    requires ReconcileUpTo(db, view, rows, ids, n).1.Err?
    ensures ReconcileUpTo(db, view, rows, ids, m) == ReconcileUpTo(db, view, rows, ids, n)
  {
    if n < m {
      StopsAtError(db, view, rows, ids, n, m - 1);
    }
  }

  // ------------------------------------------------------------ the table

  /** The whole effect of reconciliation on a row's status, as a table of status by answer. */
  function Table(current: PaymentStatus, seen: Option<NodeStatus>): PaymentStatus {
    match (current, seen)
    case (Succeeded, _) => Succeeded
    case (Failed, _) => Failed
    case (_, Some(NodeSucceeded)) => Succeeded
    case (_, Some(NodeFailed)) => Failed
    case (_, Some(NodePending)) => current
    case (Created, None) => Failed
    case (_, None) => Unknown
  }

  function Answer(view: View, hash: string): Option<NodeStatus> {
    if hash in view then Some(view[hash].status) else None
  }

  /** A success whose reported fee does not fit the fee column. */
  predicate FeeTooLarge(row: Payment, view: View) {
    && !IsFinal(row.status)
    && row.Hash() in view
    && view[row.Hash()].status.NodeSucceeded?
    && view[row.Hash()].fee.Some?
    && view[row.Hash()].fee.value > I64_MAX
  }

  function Reconciled(row: Payment, view: View): Payment {
    match Decide(row.status, Look(view, row.Hash()))
    case Keep => row
    case Move(next, res) => MovedRow(row, next, res)
  }

  lemma OneRow(db: Db, view: View, id: nat)
    requires id < |db.payments|
    ensures var row := db.payments[id];
            var (after, r) := ReconcilePayment(db, view, id, row);
            && |after.payments| == |db.payments|
            && (forall i :: 0 <= i < |db.payments| && i != id ==> after.payments[i] == db.payments[i])
            && (if FeeTooLarge(row, view) then r == Err(AmountOutOfRange)
                else r == Ok(Reconciled(row, view)) && after.payments[id] == Reconciled(row, view))
            && (Reconciled(row, view) == row && !FeeTooLarge(row, view) ==> after == db)
  {
    var row := db.payments[id];
    match Decide(row.status, Look(view, row.Hash()))
    case Keep =>
    case Move(next, res) =>
      if NeedsPass(row.status, next) {
        var mid := TransitionPayment(db, None, id, Pending, NO_RESOLUTION).0;
        assert mid.payments[id] == row.(status := Pending);
      }
  }

  function Changed(row: Payment, view: View): nat {
    if Reconciled(row, view).status != row.status then 1 else 0
  }

  /** One for each row whose status changes, zero for the others. */
  function Marks(rows: seq<Payment>, view: View): (marks: seq<nat>)
    ensures |marks| == |rows| && forall i :: 0 <= i < |rows| ==> marks[i] == Changed(rows[i], view)
  {
    seq(|rows|, i requires 0 <= i < |rows| => Changed(rows[i], view))
  }

  function Total(marks: seq<nat>): nat {
    if |marks| == 0 then 0 else Total(marks[..|marks| - 1]) + marks[|marks| - 1]
  }

  function TotalAt(marks: seq<nat>, ids: seq<nat>): nat
    requires forall k :: 0 <= k < |ids| ==> ids[k] < |marks|
  {
    if |ids| == 0 then 0 else TotalAt(marks, ids[..|ids| - 1]) + marks[ids[|ids| - 1]]
  }

  function Changes(rows: seq<Payment>, view: View): nat {
    Total(Marks(rows, view))
  }

  function ChangesAt(rows: seq<Payment>, ids: seq<nat>, view: View): nat
    requires forall k :: 0 <= k < |ids| ==> ids[k] < |rows|
  {
    TotalAt(Marks(rows, view), ids)
  }

  lemma {:induction false} TotalAtPrefix(marks: seq<nat>, more: seq<nat>, ids: seq<nat>)
    requires marks <= more && forall k :: 0 <= k < |ids| ==> ids[k] < |marks|
    ensures TotalAt(more, ids) == TotalAt(marks, ids)
  {
    if |ids| > 0 {
      TotalAtPrefix(marks, more, ids[..|ids| - 1]);
    }
  }

  lemma OneMoreMark(marks: seq<nat>, ids: seq<nat>, id: nat)
    requires id < |marks| && forall k :: 0 <= k < |ids| ==> ids[k] < |marks|
    ensures TotalAt(marks, ids + [id]) == TotalAt(marks, ids) + marks[id]
  {
    assert (ids + [id])[..|ids|] == ids;
  }

  lemma CountScannedRow(marks: seq<nat>, rest: seq<nat>)
    requires |marks| > 0 && forall k :: 0 <= k < |rest| ==> rest[k] < |marks| - 1
    requires TotalAt(marks[..|marks| - 1], rest) == Total(marks[..|marks| - 1])
    ensures TotalAt(marks, rest + [|marks| - 1]) == Total(marks)
  {
    TotalAtPrefix(marks[..|marks| - 1], marks, rest);
    OneMoreMark(marks, rest, |marks| - 1);
  }

  lemma CountSkippedRow(marks: seq<nat>, rest: seq<nat>)
    requires |marks| > 0 && forall k :: 0 <= k < |rest| ==> rest[k] < |marks| - 1
    requires TotalAt(marks[..|marks| - 1], rest) == Total(marks[..|marks| - 1]) && marks[|marks| - 1] == 0
    ensures TotalAt(marks, rest) == Total(marks)
  {
    TotalAtPrefix(marks[..|marks| - 1], marks, rest);
  }

  /** Only open rows change, so counting over the scan counts over the table. */
  lemma {:induction false} ScanCountsEveryChange(rows: seq<Payment>, view: View)
    ensures ChangesAt(rows, UnresolvedPayments(rows), view) == Changes(rows, view)
  {
    if |rows| > 0 {
      var last := |rows| - 1;
      ScanCountsEveryChange(rows[..last], view);
      assert Marks(rows, view)[..last] == Marks(rows[..last], view);
      if IsFinal(rows[last].status) {
        CountSkippedRow(Marks(rows, view), UnresolvedPayments(rows[..last]));
      } else {
        CountScannedRow(Marks(rows, view), UnresolvedPayments(rows[..last]));
      }
    }
  }

  predicate Blocked(rows: seq<Payment>, ids: seq<nat>, n: nat, view: View)
    requires n <= |ids| && forall k :: 0 <= k < |ids| ==> ids[k] < |rows|
  {
    exists k :: 0 <= k < n && FeeTooLarge(rows[ids[k]], view)
  }

  /** The first `n` scanned rows are reconciled and nothing else is touched. */
  predicate Done(rows: seq<Payment>, after: seq<Payment>, ids: seq<nat>, n: nat, view: View)
    requires n <= |ids| && forall k :: 0 <= k < |ids| ==> ids[k] < |rows|
  {
    && |after| == |rows|
    && (forall i :: 0 <= i < |rows| && i !in ids[..n] ==> after[i] == rows[i])
    && (forall k :: 0 <= k < n ==> after[ids[k]] == Reconciled(rows[ids[k]], view))
  }

  lemma OneRowDone(rows: seq<Payment>, before: seq<Payment>, after: seq<Payment>, ids: seq<nat>, n: nat, view: View)
    requires 0 < n <= |ids| && forall k :: 0 <= k < |ids| ==> ids[k] < |rows|
    requires forall j, k :: 0 <= j < k < |ids| ==> ids[j] < ids[k]
    requires Done(rows, before, ids, n - 1, view) && |after| == |rows|
    requires forall i :: 0 <= i < |rows| && i != ids[n - 1] ==> after[i] == before[i]
    requires after[ids[n - 1]] == Reconciled(rows[ids[n - 1]], view)
    ensures Done(rows, after, ids, n, view)
  {
    assert ids[..n] == ids[..n - 1] + [ids[n - 1]];
    forall k | 0 <= k < n ensures after[ids[k]] == Reconciled(rows[ids[k]], view) {
      assert k < n - 1 ==> ids[k] != ids[n - 1];
    }
  }

  lemma NextIsUntouched(rows: seq<Payment>, before: seq<Payment>, ids: seq<nat>, n: nat, view: View)
    requires 0 < n <= |ids| && forall k :: 0 <= k < |ids| ==> ids[k] < |rows|
    requires forall j, k :: 0 <= j < k < |ids| ==> ids[j] < ids[k]
    requires Done(rows, before, ids, n - 1, view)
    ensures before[ids[n - 1]] == rows[ids[n - 1]]
  {
    assert ids[n - 1] !in ids[..n - 1];
  }

  lemma ScanRowMeetsTable(rows: seq<Payment>, so: (Db, Result<nat, StorageError>), view: View, ids: seq<nat>, n: nat)
    requires 0 < n <= |ids| && forall k :: 0 <= k < |ids| ==> ids[k] < |rows|
    requires forall j, k :: 0 <= j < k < |ids| ==> ids[j] < ids[k]
    requires so.1.Ok? && Done(rows, so.0.payments, ids, n - 1, view)
    ensures var next := ScanRow(so, view, ids[n - 1], rows[ids[n - 1]]);
            if FeeTooLarge(rows[ids[n - 1]], view) then next.1 == Err(AmountOutOfRange)
            else
              && Done(rows, next.0.payments, ids, n, view)
              && next.1 == Ok(so.1.value + Changed(rows[ids[n - 1]], view))
  {
    NextIsUntouched(rows, so.0.payments, ids, n, view);
    OneRow(so.0, view, ids[n - 1]);
    if !FeeTooLarge(rows[ids[n - 1]], view) {
      OneRowDone(rows, so.0.payments, ScanRow(so, view, ids[n - 1], rows[ids[n - 1]]).0.payments, ids, n, view);
    }
  }

  lemma BlockedStep(rows: seq<Payment>, ids: seq<nat>, n: nat, view: View)
    requires 0 < n <= |ids| && forall k :: 0 <= k < |ids| ==> ids[k] < |rows|
    ensures Blocked(rows, ids, n, view)
       <==> Blocked(rows, ids, n - 1, view) || FeeTooLarge(rows[ids[n - 1]], view)
  {
  }

  lemma ChangesAtStep(rows: seq<Payment>, ids: seq<nat>, n: nat, view: View)
    requires 0 < n <= |ids| && forall k :: 0 <= k < |ids| ==> ids[k] < |rows|
    ensures ChangesAt(rows, ids[..n], view) == ChangesAt(rows, ids[..n - 1], view) + Changed(rows[ids[n - 1]], view)
  {
    assert ids[..n][..n - 1] == ids[..n - 1];
  }

  /** A scan of the first `n` rows is blocked by a fee, or has done them all and counted the changes. */
  predicate Meets(rows: seq<Payment>, so: (Db, Result<nat, StorageError>), ids: seq<nat>, n: nat, view: View)
    requires n <= |ids| && forall k :: 0 <= k < |ids| ==> ids[k] < |rows|
  {
    if Blocked(rows, ids, n, view) then so.1 == Err(AmountOutOfRange)
    else Done(rows, so.0.payments, ids, n, view) && so.1 == Ok(ChangesAt(rows, ids[..n], view))
  }

  lemma OneRowMoreMeetsTable(
    rows: seq<Payment>, prev: (Db, Result<nat, StorageError>), so: (Db, Result<nat, StorageError>), view: View,
    ids: seq<nat>, n: nat)
    requires 0 < n <= |ids| && forall k :: 0 <= k < |ids| ==> ids[k] < |rows|
    requires forall j, k :: 0 <= j < k < |ids| ==> ids[j] < ids[k]
    requires Meets(rows, prev, ids, n - 1, view) && so == ScanRow(prev, view, ids[n - 1], rows[ids[n - 1]])
    ensures Meets(rows, so, ids, n, view)
  {
    BlockedStep(rows, ids, n, view);
    if prev.1.Ok? {
      ScanRowMeetsTable(rows, prev, view, ids, n);
      ChangesAtStep(rows, ids, n, view);
    }
  }

  lemma {:induction false} PrefixMeetsTable(
    db: Db, view: View, ids: seq<nat>, n: nat, so: (Db, Result<nat, StorageError>))
    requires n <= |ids| && forall k :: 0 <= k < |ids| ==> ids[k] < |db.payments|
    requires forall j, k :: 0 <= j < k < |ids| ==> ids[j] < ids[k]
    requires so == ReconcileUpTo(db, view, db.payments, ids, n)
    ensures Meets(db.payments, so, ids, n, view)
  {
    if n > 0 {
      var prev := ReconcileUpTo(db, view, db.payments, ids, n - 1);
      PrefixMeetsTable(db, view, ids, n - 1, prev);
      OneRowMoreMeetsTable(db.payments, prev, so, view, ids, n);
    }
  }

  /** A reconciler passes through `pending` exactly where the move it decided on is not allowed directly. */
  lemma PassesOnlyWhereItMust(current: PaymentStatus, seen: Option<NodeRecord>)
    ensures var d := Decide(current, seen); d.Move? ==> (NeedsPass(current, d.next) <==> !CanMove(current, d.next))
    ensures Decide(current, seen).Move? ==> !IsFinal(current) && Decide(current, seen).next != current
  {
  }

  lemma RowMeetsTable(row: Payment, view: View)
    ensures Reconciled(row, view).status == Table(row.status, Answer(view, row.Hash()))
  {
  }

  /**
   A reconciled row carries what the node's record says: the preimage and fee of a success,
   and for a failure whether the node reported it or never saw the payment.
   */
  lemma ReconciledRowCarries(row: Payment, view: View)
    requires !IsFinal(row.status)
    ensures var now := Reconciled(row, view);
            && now.project == row.project && now.key == row.key && now.request == row.request
            && (now.status.Succeeded? ==>
                  && row.Hash() in view
                  && now.preimage == Coalesce(view[row.Hash()].preimage, row.preimage)
                  && now.fee == Coalesce(view[row.Hash()].fee, row.fee) && now.failure == row.failure)
            && (now.status.Failed? ==>
                  && now.preimage == row.preimage && now.fee == row.fee
                  && now.failure == Some(if row.Hash() in view then "reported_failed_by_node" else "never_dispatched"))
            && (!IsFinal(now.status) ==> now == row.(status := now.status))
  {
  }

  /**
   Run alone over a fixed node view, reconciliation never meets an illegal transition. It
   fails exactly when a success reports a fee the column cannot hold; otherwise every row
   ends where the table says and the count returned is exact.
   */
  lemma ReconcileAllMeetsTable(db: Db, view: View, after: Db, r: Result<nat, StorageError>)
    requires (after, r) == ReconcileAll(db, view)
    ensures if exists i :: 0 <= i < |db.payments| && FeeTooLarge(db.payments[i], view)
            then r == Err(AmountOutOfRange)
            else
              && r == Ok(Changes(db.payments, view))
              && |after.payments| == |db.payments|
              && (forall i :: 0 <= i < |db.payments| ==> after.payments[i] == Reconciled(db.payments[i], view))
              && (forall i :: 0 <= i < |db.payments| ==>
                    after.payments[i].status == Table(db.payments[i].status, Answer(view, db.payments[i].Hash())))
  {
    var rows, ids := db.payments, UnresolvedPayments(db.payments);
    PrefixMeetsTable(db, view, ids, |ids|, (after, r));
    BlockedByAnyRow(rows, ids, view);
    if !Blocked(rows, ids, |ids|, view) {
      ScanCountsEveryChange(rows, view);
      assert ids[..|ids|] == ids;
      forall i | 0 <= i < |rows|
        ensures after.payments[i] == Reconciled(rows[i], view)
        ensures after.payments[i].status == Table(rows[i].status, Answer(view, rows[i].Hash()))
      {
        DoneRow(rows, after.payments, ids, view, i);
        RowMeetsTable(rows[i], view);
      }
    }
  }

  /** Every open row is scanned, so any oversized fee blocks the scan. */
  lemma BlockedByAnyRow(rows: seq<Payment>, ids: seq<nat>, view: View)
    requires ids == UnresolvedPayments(rows)
    ensures Blocked(rows, ids, |ids|, view) <==> exists i :: 0 <= i < |rows| && FeeTooLarge(rows[i], view)
  {
    if i :| 0 <= i < |rows| && FeeTooLarge(rows[i], view) {
      assert i in ids;
      var k :| 0 <= k < |ids| && ids[k] == i;
    }
  }

  lemma DoneRow(rows: seq<Payment>, after: seq<Payment>, ids: seq<nat>, view: View, i: nat)
    requires ids == UnresolvedPayments(rows) && i < |rows| && Done(rows, after, ids, |ids|, view)
    ensures after[i] == Reconciled(rows[i], view)
  {
    assert ids[..|ids|] == ids;
    if i in ids {
      var k :| 0 <= k < |ids| && ids[k] == i;
    } else {
      assert IsFinal(rows[i].status);
    }
  }

  lemma {:induction false} SettledScanDoesNothing(db: Db, view: View, ids: seq<nat>, n: nat)
    requires n <= |ids| && forall k :: 0 <= k < |ids| ==> ids[k] < |db.payments|
    requires forall i :: 0 <= i < |db.payments| ==>
      Reconciled(db.payments[i], view) == db.payments[i] && !FeeTooLarge(db.payments[i], view)
    ensures ReconcileUpTo(db, view, db.payments, ids, n) == (db, Ok(0))
  {
    if n > 0 {
      SettledScanDoesNothing(db, view, ids, n - 1);
      OneRow(db, view, ids[n - 1]);
    }
  }

  /** After a completed pass, a second pass over the same view writes nothing and counts zero. */
  lemma SecondPassChangesNothing(db: Db, view: View, after: Db, r: Result<nat, StorageError>)
    requires (after, r) == ReconcileAll(db, view) && r.Ok?
    ensures ReconcileAll(after, view) == (after, Ok(0))
  {
    ReconcileAllMeetsTable(db, view, after, r);
    forall i | 0 <= i < |after.payments|
      ensures Reconciled(after.payments[i], view) == after.payments[i] && !FeeTooLarge(after.payments[i], view)
    {
      ReconciledIsFixed(db.payments[i], view);
    }
    var ids := UnresolvedPayments(after.payments);
    SettledScanDoesNothing(after, view, ids, |ids|);
  }

  lemma ReconciledIsFixed(row: Payment, view: View)
    requires !FeeTooLarge(row, view)
    ensures Reconciled(Reconciled(row, view), view) == Reconciled(row, view)
    ensures !FeeTooLarge(Reconciled(row, view), view)
  {
  }
}
