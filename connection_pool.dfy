/**
 * seal/db/mysql/connection_pool.py: a pool of delegate connections, pre-filled with
 * `min_connections` idle delegates. Acquisition occupies the first idle delegate, else
 * grows the pool up to `max_connections`; release closes and drops a delegate while the
 * pool is above its minimum, and marks it idle otherwise.
 *
 * The driver connections are opaque handles, numbered in the order they are opened; the
 * pool records which of them it has closed.
 */
module ConnectionPools {
  import opened Wrappers
  import opened Errors
  import opened PoolStates

  /** `DelegateConnection`: a driver connection, its pool and its status. */
  class DelegateConnection {
    const connection: nat
    const pool: ConnectionPool
    var status: Status

    constructor (connection: nat, pool: ConnectionPool)
      ensures this.connection == connection && this.pool == pool && status == Idle
    {
      this.connection, this.pool := connection, pool;
      status := Idle;
    }

    /** `close`: hands the delegate back to its pool. */
    method Close() returns (r: Result<(), Error>)
      requires pool.Valid()
      modifies pool, this
      ensures pool.Valid() && pool.openCount == old(pool.openCount)
      ensures |old(pool.connections)| > pool.minConnections ==> pool.closed == old(pool.closed) + [connection]
      ensures |old(pool.connections)| > pool.minConnections && this in old(pool.connections) ==>
                r.Ok? && pool.connections == RemoveAt(old(pool.connections), IndexOf(old(pool.connections), this).value)
      ensures |old(pool.connections)| > pool.minConnections && this !in old(pool.connections) ==>
                r == Err(NotInList) && pool.connections == old(pool.connections)
      ensures |old(pool.connections)| <= pool.minConnections ==>
                r.Ok? && status == Idle && pool.connections == old(pool.connections) && pool.closed == old(pool.closed)
    {
      r := pool.Release(this);
    }
  }

  function StatusesOf(cs: seq<DelegateConnection>): (ss: seq<Status>)
    reads cs
    ensures |ss| == |cs| && forall i | 0 <= i < |cs| :: ss[i] == cs[i].status
  {
    if |cs| == 0 then [] else StatusesOf(cs[..|cs| - 1]) + [cs[|cs| - 1].status]
  }

  class ConnectionPool {
    const minConnections: int
    const maxConnections: int
    /** `_connections` */
    var connections: seq<DelegateConnection>
    /** How many driver connections have been opened; the next one gets this number. */
    var openCount: nat
    /** The driver connections closed so far, in order. */
    var closed: seq<nat>

    /** The most connections the pool can hold: its maximum, or its initial size if larger. */
    function Bound(): nat
    {
      if minConnections > maxConnections && minConnections > 0 then minConnections
      else if maxConnections > 0 then maxConnections
      else 0
    }

    /**
     * The delegates are distinct, belong to this pool and carry driver connections opened
     * by it; the size stays between the minimum and the bound.
     */
    predicate Valid()
      reads this, connections
    {
      && (forall i, j | 0 <= i < j < |connections| :: connections[i] != connections[j])
      && (forall i | 0 <= i < |connections| :: connections[i].pool == this && connections[i].connection < openCount)
      && minConnections <= |connections| <= Bound()
    }

    /** The status of each delegate, in list order. */
    function Statuses(): (ss: seq<Status>)
      reads this, connections
      ensures |ss| == |connections| && forall i | 0 <= i < |connections| :: ss[i] == connections[i].status
    {
      StatusesOf(connections)
    }

    /** `__init__`: `min_connections` idle delegates over freshly opened driver connections. */
    constructor (minConnections: int, maxConnections: int)
      ensures this.minConnections == minConnections && this.maxConnections == maxConnections
      ensures Valid() && fresh(connections)
      ensures |connections| == (if minConnections > 0 then minConnections else 0)
      ensures forall i | 0 <= i < |connections| :: connections[i].status == Idle && connections[i].connection == i
      ensures openCount == |connections| && closed == []
    {
      this.minConnections, this.maxConnections := minConnections, maxConnections;
      connections, openCount, closed := [], 0, [];
      new;
      while openCount < minConnections
        invariant |connections| == openCount <= (if minConnections > 0 then minConnections else 0)
        invariant closed == []
        invariant fresh(connections)
        invariant forall i, j | 0 <= i < j < |connections| :: connections[i] != connections[j]
        invariant forall i | 0 <= i < |connections| ::
                    connections[i].pool == this && connections[i].status == Idle && connections[i].connection == i
      {
        var d := new DelegateConnection(openCount, this);
        connections := connections + [d];
        openCount := openCount + 1;
      }
    }

    /** `occupy`: the first idle delegate in list order becomes occupied and is returned. */
    method Occupy() returns (r: Option<DelegateConnection>)
      requires Valid()
      modifies connections
      ensures Valid() && unchanged(this)
      ensures match FirstIdle(old(Statuses()))
              case None => r.None? && Statuses() == old(Statuses())
              case Some(i) => r == Some(connections[i]) && Statuses() == old(Statuses())[i := Occupied]
    {
      var i := 0;
      while i < |connections|
        invariant 0 <= i <= |connections|
        invariant Idle !in old(Statuses())[..i]
        invariant Statuses() == old(Statuses())
      {
        if connections[i].status == Idle {
          FirstIdleAt(old(Statuses()), i);
          connections[i].status := Occupied;
          return Some(connections[i]);
        }
        assert old(Statuses())[..i + 1] == old(Statuses())[..i] + [connections[i].status];
        i := i + 1;
      }
      assert old(Statuses())[..i] == old(Statuses());
      return None;
    }

    /**
     * `get_connection`: an idle delegate if there is one; else, below the maximum, one new
     * occupied delegate appended; else an error at once when a timeout is given, and the
     * blocking wait otherwise.
     */
    method GetConnection(timeout: Option<real> := None) returns (r: Result<DelegateConnection, Error>)
      requires Valid()
      modifies this, connections
      ensures Valid() && closed == old(closed)
      ensures FirstIdle(old(Statuses())).Some? ==>
                var i := FirstIdle(old(Statuses())).value;
                && connections == old(connections) && r == Ok(connections[i]) && openCount == old(openCount)
                && Statuses() == old(Statuses())[i := Occupied]
      ensures FirstIdle(old(Statuses())).None? && |old(connections)| < maxConnections ==>
                && r.Ok? && fresh(r.value) && connections == old(connections) + [r.value]
                && Statuses() == old(Statuses()) + [Occupied]
                && r.value.connection == old(openCount) && openCount == old(openCount) + 1
      ensures FirstIdle(old(Statuses())).None? && |old(connections)| >= maxConnections ==>
                && r == (if timeout.Some? then Err(NoAvailableConnection) else Err(WouldBlock))
                && connections == old(connections) && openCount == old(openCount) && Statuses() == old(Statuses())
    {
      var c := Occupy();
      if c.Some? {
        return Ok(c.value);
      }
      if |connections| < maxConnections {
        var d := Grow();
        return Ok(d);
      }
      if timeout.Some? {
        return Err(NoAvailableConnection);
      }
      return Err(WouldBlock);
    }

    /** One new occupied delegate over a newly opened driver connection, appended. */
    method Grow() returns (d: DelegateConnection)
      requires Valid() && |connections| < maxConnections
      modifies this
      ensures Valid() && fresh(d) && closed == old(closed)
      ensures connections == old(connections) + [d] && Statuses() == old(Statuses()) + [Occupied]
      ensures d.connection == old(openCount) && openCount == old(openCount) + 1
    {
      d := new DelegateConnection(openCount, this);
      d.status := Occupied;
      connections := connections + [d];
      openCount := openCount + 1;
    }

    /**
     * `release`: above the minimum the delegate's driver connection is closed and the
     * delegate removed (a delegate not in the pool then raises); otherwise it is marked idle.
     */
    method Release(d: DelegateConnection) returns (r: Result<(), Error>)
      requires Valid()
      modifies this, d
      ensures Valid() && openCount == old(openCount)
      ensures |old(connections)| > minConnections ==> closed == old(closed) + [d.connection]
      ensures |old(connections)| > minConnections && d in old(connections) ==>
                var k := IndexOf(old(connections), d).value;
                && r.Ok? && connections == RemoveAt(old(connections), k)
                && Statuses() == RemoveAt(old(Statuses()), k)
      ensures |old(connections)| > minConnections && d !in old(connections) ==>
                r == Err(NotInList) && connections == old(connections) && Statuses() == old(Statuses())
      ensures |old(connections)| <= minConnections ==>
                && r.Ok? && d.status == Idle && connections == old(connections) && closed == old(closed)
                && Statuses() == (if d in old(connections) then old(Statuses())[IndexOf(old(connections), d).value := Idle] else old(Statuses()))
    {
      if |connections| > minConnections {
        r := Drop(d);
      } else {
        MarkIdle(d);
        r := Ok(());
      }
    }

    /** Above the minimum: the driver connection is closed, then the delegate is looked up and removed. */
    method Drop(d: DelegateConnection) returns (r: Result<(), Error>)
      requires Valid() && |connections| > minConnections
      modifies this
      ensures Valid() && openCount == old(openCount) && closed == old(closed) + [d.connection]
      ensures d in old(connections) ==>
                var k := IndexOf(old(connections), d).value;
                && r.Ok? && connections == RemoveAt(old(connections), k)
                && Statuses() == RemoveAt(old(Statuses()), k)
      ensures d !in old(connections) ==>
                r == Err(NotInList) && connections == old(connections) && Statuses() == old(Statuses())
    {
      closed := closed + [d.connection];
      var k := IndexOf(connections, d);
      if k.None? {
        return Err(NotInList);
      }
      connections := RemoveAt(connections, k.value);
      assert Statuses() == RemoveAt(old(Statuses()), k.value);
      return Ok(());
    }

    /** At or below the minimum: the delegate is marked idle and stays in the pool. */
    method MarkIdle(d: DelegateConnection)
      requires Valid()
      modifies d
      ensures Valid() && d.status == Idle
      ensures Statuses() == (if d in connections then old(Statuses())[IndexOf(connections, d).value := Idle] else old(Statuses()))
    {
      d.status := Idle;
      if d in connections {
        var k := IndexOf(connections, d).value;
        assert forall i | 0 <= i < |connections| && i != k :: connections[i] != d;
      }
    }
  }
}
