/**
 * The status lists shared by the three connection-pool revisions (seal/db/mysql/connection_pool.py,
 * seal/db/mysql/mysql_connection.py and seal/db/mysql/_connection_pool.py): each pooled
 * connection is idle or occupied, and acquisition scans for the first idle one.
 */
module PoolStates {
  import opened Wrappers

  /** `'idle'` / `'occupied'`, or `ConnectionStatus.IDLE` / `ConnectionStatus.OCCUPIED`. */
  datatype Status = Idle | Occupied

  /** The position of the first idle connection in list order, if any. */
  function FirstIdle(ss: seq<Status>): (r: Option<nat>)
    ensures r.None? <==> Idle !in ss
    ensures r.Some? ==> r.value < |ss| && ss[r.value] == Idle && Idle !in ss[..r.value]
  {
    if |ss| == 0 then None
    else if ss[0] == Idle then Some(0)
    else
      match FirstIdle(ss[1..])
      case None => None
      case Some(i) =>
        assert ss[..i + 1] == [ss[0]] + ss[1..][..i];
        Some(i + 1)
  }

  /** The first idle position is the one before which nothing is idle. */
  lemma FirstIdleAt(ss: seq<Status>, i: nat)
    requires i < |ss| && ss[i] == Idle && Idle !in ss[..i]
    ensures FirstIdle(ss) == Some(i)
  {
  }

  /** The position of `x` in a list whose elements are distinct. */
  function IndexOf<T(==)>(xs: seq<T>, x: T): (r: Option<nat>)
    ensures r.None? <==> x !in xs
    ensures r.Some? ==> r.value < |xs| && xs[r.value] == x && x !in xs[..r.value]
  {
    if |xs| == 0 then None
    else if xs[0] == x then Some(0)
    else
      match IndexOf(xs[1..], x)
      case None => None
      case Some(i) =>
        assert xs[..i + 1] == [xs[0]] + xs[1..][..i];
        Some(i + 1)
  }

  /** `xs` without its element at position `i`. */
  function RemoveAt<T>(xs: seq<T>, i: nat): (r: seq<T>)
    requires i < |xs|
    ensures |r| == |xs| - 1
    ensures forall j | 0 <= j < i :: r[j] == xs[j]
    ensures forall j | i <= j < |r| :: r[j] == xs[j + 1]
  {
    xs[..i] + xs[i + 1..]
  }

  /** Occupying the first idle connection leaves one idle connection fewer. */
  lemma {:induction false} OccupyCountsDown(ss: seq<Status>, i: nat)
    requires FirstIdle(ss) == Some(i)
    ensures multiset(ss[i := Occupied])[Idle] == multiset(ss)[Idle] - 1
    ensures multiset(ss[i := Occupied])[Occupied] == multiset(ss)[Occupied] + 1
  {
    assert ss == ss[..i] + [ss[i]] + ss[i + 1..];
    assert ss[i := Occupied] == ss[..i] + [Occupied] + ss[i + 1..];
  }
}
