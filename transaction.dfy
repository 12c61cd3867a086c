/**
 * seal/db/transaction.py: `SqlContext`, which holds the connection of the current
 * transaction and its id. The connection is an abstract one that records what is called
 * on it; the data source's `get_connection()` result and the fresh `uuid4()` are
 * parameters of `begin`.
 */
module Transactions {
  import opened Wrappers
  import opened Errors

  /** The calls a transaction makes on its connection. */
  datatype Event = Began | Committed | RolledBack | Closed

  /** An `IDatabaseConnection`, seen through the calls made on it. */
  class Connection {
    var events: seq<Event>

    constructor ()
      ensures events == []
    {
      events := [];
    }
  }

  class SqlContext {
    /** `_tx` */
    var tx: Option<Connection>
    /** `_tx_id` */
    var txId: Option<nat>

    /** Nothing is held until `begin`. */
    constructor ()
      ensures tx.None? && txId.None?
    {
      tx, txId := None, None;
    }

    /** The held connection, as a frame. */
    function Held(): set<Connection>
      reads this
    {
      if tx.Some? then {tx.value} else {}
    }

    /**
     * `begin`: takes a fresh id and the data source's connection, and begins on it once.
     * A connection held before is replaced without being closed.
     */
    method Begin(connection: Connection, id: nat)
      modifies this, connection
      ensures tx == Some(connection) && txId == Some(id)
      ensures connection.events == old(connection.events) + [Began]
    {
      txId := Some(id);
      tx := Some(connection);
      connection.events := connection.events + [Began];
    }

    /**
     * `commit`: commit, then close, on the held connection; before any `begin` the call on
     * None raises. The connection and id stay held afterwards.
     */
    method Commit() returns (r: Result<(), Error>)
      modifies Held()
      ensures tx == old(tx) && txId == old(txId)
      ensures tx.None? ==> r == Err(NoSuchMethod("commit"))
      ensures tx.Some? ==> r.Ok? && tx.value.events == old(tx.value.events) + [Committed, Closed]
    {
      if tx.None? {
        return Err(NoSuchMethod("commit"));
      }
      tx.value.events := tx.value.events + [Committed];
      tx.value.events := tx.value.events + [Closed];
      return Ok(());
    }

    /** `rollback`: rollback, then close, on the held connection, which stays held. */
    method Rollback() returns (r: Result<(), Error>)
      modifies Held()
      ensures tx == old(tx) && txId == old(txId)
      ensures tx.None? ==> r == Err(NoSuchMethod("rollback"))
      ensures tx.Some? ==> r.Ok? && tx.value.events == old(tx.value.events) + [RolledBack, Closed]
    {
      if tx.None? {
        return Err(NoSuchMethod("rollback"));
      }
      tx.value.events := tx.value.events + [RolledBack];
      tx.value.events := tx.value.events + [Closed];
      return Ok(());
    }

    /** `tx()` */
    function Tx(): Option<Connection>
      reads this
    {
      tx
    }

    /** `tx_id()` */
    function TxId(): Option<nat>
      reads this
    {
      txId
    }
  }

  /**
   * Two `begin`s in a row: the first connection has begun and is never closed, the second
   * is the one held, and a commit then closes only the second.
   */
  method BeginTwiceLeaks() returns (first: Connection, second: Connection, ctx: SqlContext)
    ensures first != second && ctx.Tx() == Some(second)
    ensures first.events == [Began] && second.events == [Began, Committed, Closed]
  {
    first := new Connection();
    second := new Connection();
    ctx := new SqlContext();
    ctx.Begin(first, 1);
    ctx.Begin(second, 2);
    var committed := ctx.Commit();
  }

  /** A commit before any `begin` raises and holds nothing; a commit after it keeps the id. */
  method CommitNeedsBegin(connection: Connection) returns (before: Result<(), Error>, after: Result<(), Error>, ctx: SqlContext)
    modifies connection
    ensures before == Err(NoSuchMethod("commit")) && after.Ok?
    ensures ctx.TxId() == Some(7) && ctx.Tx() == Some(connection)
    ensures connection.events == old(connection.events) + [Began, Committed, Closed]
  {
    ctx := new SqlContext();
    before := ctx.Commit();
    ctx.Begin(connection, 7);
    after := ctx.Commit();
  }
}
