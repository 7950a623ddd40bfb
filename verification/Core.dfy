/** Types and small facts shared by every component. */
module Core {

  datatype Option<+T> = None | Some(value: T)

  datatype Result<+T, +E> = Ok(value: T) | Err(error: E)

  type Byte = b: nat | b < 256

  /** Largest value of a signed 64-bit column. */
  const I64_MAX: int := 0x7fff_ffff_ffff_ffff

  /** Largest unsigned 64-bit value. */
  const U64_MAX: int := 0xffff_ffff_ffff_ffff

  /** The supply bound on any single amount, in satoshis. */
  const MAX_SATS: int := 21_000_000 * 100_000_000

  datatype StorageError =
    | NotFound
    | Conflict
    | IdempotencyMismatch
    | IllegalTransition
    | InsufficientBalance
    | AmountOutOfRange
    | DatabaseError

  /** SQL `coalesce` of two nullable values. */
  function Coalesce<T>(first: Option<T>, second: Option<T>): Option<T> {
    if first.Some? then first else second
  }

  predicate Distinct<T(==)>(s: seq<T>) {
    forall i, j :: 0 <= i < j < |s| ==> s[i] != s[j]
  }

  /** A table of live tasks without one of them. */
  function Without<T>(tasks: map<nat, T>, tid: nat): (r: map<nat, T>)
    ensures forall t :: t in r <==> t in tasks && t != tid
    ensures forall t :: t in r ==> r[t] == tasks[t]
  {
    map t | t in tasks && t != tid :: tasks[t]
  }

  /** The sum of a weight over a table. */
  function Sum<T>(rows: seq<T>, weight: T -> int): int {
    if |rows| == 0 then 0 else Sum(rows[..|rows| - 1], weight) + weight(rows[|rows| - 1])
  }

  lemma SumAppend<T>(rows: seq<T>, row: T, weight: T -> int)
    ensures Sum(rows + [row], weight) == Sum(rows, weight) + weight(row)
  {
    assert (rows + [row])[..|rows|] == rows;
  }

  lemma {:induction false} SumUpdate<T>(rows: seq<T>, i: nat, row: T, weight: T -> int)
    requires i < |rows|
    ensures Sum(rows[i := row], weight) == Sum(rows, weight) - weight(rows[i]) + weight(row)
  {
    var last := |rows| - 1;
    if i == last {
      assert rows[i := row][..last] == rows[..last];
    } else {
      assert rows[i := row][..last] == rows[..last][i := row];
      SumUpdate(rows[..last], i, row, weight);
    }
  }

  lemma {:induction false} SumAgree<T>(rows: seq<T>, weight: T -> int, other: T -> int)
    requires forall i :: 0 <= i < |rows| ==> weight(rows[i]) == other(rows[i])
    ensures Sum(rows, weight) == Sum(rows, other)
  {
    if |rows| > 0 {
      SumAgree(rows[..|rows| - 1], weight, other);
    }
  }

  /** Takes `step` over a sequence, from the left. */
  function Fold<S, E>(start: S, items: seq<E>, step: (S, E) -> S): S {
    if |items| == 0 then start
    else step(Fold(start, items[..|items| - 1], step), items[|items| - 1])
  }

  lemma {:induction false} FoldSplit<S, E>(start: S, a: seq<E>, b: seq<E>, step: (S, E) -> S)
    ensures Fold(start, a + b, step) == Fold(Fold(start, a, step), b, step)
  {
    if |b| == 0 {
      assert a + b == a;
    } else {
      assert (a + b)[..|a + b| - 1] == a + b[..|b| - 1];
      FoldSplit(start, a, b[..|b| - 1], step);
    }
  }
}
