/** The transaction scopes of utils/database.py. Each helper is a generator-based
    context manager: connect, yield the connection to the caller's block, then
    commit or roll back, and always close the connection (or return it to the
    pool). The caller's block runs between the constructor and `Exit`; how it
    ended, and how the driver's commit and rollback answered, are parameters. */
module Scopes {
  import opened Common
  import opened Storage

  /** The exception that leaves a scope. `commitOnSuccess` is false only for
      `get_dao_connection(auto_commit=True)`. */
  function ExitOutcome(commitOnSuccess: bool, body: Outcome, commitAnswer: Outcome, rollbackAnswer: Outcome): (r: Outcome)
    // the block's own exception is re-raised unchanged, unless the rollback itself raised
    ensures body.Raised? ==> r == (if rollbackAnswer.Raised? then rollbackAnswer else body)
    // a failing commit is rolled back and re-raised like a failing block
    ensures body.Normal? && commitOnSuccess && commitAnswer.Raised? ==>
      r == (if rollbackAnswer.Raised? then rollbackAnswer else commitAnswer)
    ensures r.Normal? <==> body.Normal? && (commitOnSuccess ==> commitAnswer.Normal?)
  {
    var failure := if body.Normal? && commitOnSuccess then commitAnswer else body;
    if failure.Normal? then Normal
    else if rollbackAnswer.Raised? then rollbackAnswer
    else failure
  }

  /** A scope whose block is running. */
  class Scope {
    const conn: Connection
    const commitOnSuccess: bool
    /** The pool the connection was borrowed from, if any. */
    const pool: ConnectionPool?
    var active: bool

    /** `DatabaseManager.transaction()` and `db_transaction()`: a new connection,
        committed when the block succeeds. */
    constructor Transaction(db: Database)
      requires db.Valid()
      ensures fresh(conn) && conn.db == db && conn.Valid() && conn.open
      ensures conn.working == db.committed && conn.txStart == None
      ensures conn.commits == 0 && conn.rollbacks == 0 && conn.closes == 0
      ensures commitOnSuccess && pool == null && active
    {
      conn := new Connection.Connect(db);
      commitOnSuccess := true;
      pool := null;
      active := true;
    }

    /** `DatabaseManager.get_dao_connection(auto_commit)`: like `transaction`,
        except that with `auto_commit` the scope never commits (the DAO does). */
    constructor DaoConnection(db: Database, autoCommit: bool)
      requires db.Valid()
      ensures fresh(conn) && conn.db == db && conn.Valid() && conn.open
      ensures conn.working == db.committed && conn.txStart == None
      ensures conn.commits == 0 && conn.rollbacks == 0 && conn.closes == 0
      ensures commitOnSuccess == !autoCommit && pool == null && active
    {
      conn := new Connection.Connect(db);
      commitOnSuccess := !autoCommit;
      pool := null;
      active := true;
    }

    /** The scope of `ConnectionPool.get_connection()`, on a borrowed connection. */
    constructor Borrowed(db: Database, pool: ConnectionPool)
      requires db.Valid()
      ensures fresh(conn) && conn.db == db && conn.Valid() && conn.open
      ensures conn.working == db.committed && conn.txStart == None
      ensures conn.commits == 0 && conn.rollbacks == 0 && conn.closes == 0
      ensures commitOnSuccess && this.pool == pool && active
    {
      conn := new Connection.Connect(db);
      commitOnSuccess := true;
      this.pool := pool;
      active := true;
    }

    /** Leaving the `with` block. `body` is how the block ended; `commitAnswer`
        and `rollbackAnswer` are what the driver's `commit()` and `rollback()`
        would raise if called on the open connection (on a connection that is
        already closed they raise the driver's "connection already closed").
        The pending writes become committed exactly when the commit succeeds;
        the connection is then closed once, or handed back to the pool, whose
        `putconn` raises, replacing whatever the scope was raising, when the
        pool was closed in the meantime. */
    method Exit(body: Outcome, commitAnswer: Outcome, rollbackAnswer: Outcome) returns (r: Outcome)
      requires active && conn.Valid()
      requires pool == null ==> conn.open
      requires pool != null ==> pool.pool.Some? && conn in pool.used && (pool.pool.value.closed ==> !conn.open)
      modifies this, conn, conn.db, pool
      ensures !active
      ensures var done := ExitOutcome(commitOnSuccess, body, DriverAnswer(old(conn.open), commitAnswer),
                                      DriverAnswer(old(conn.open), rollbackAnswer));
        && conn.db.committed == (if done.Normal? && commitOnSuccess then old(conn.working) else old(conn.db.committed))
        && conn.commits == old(conn.commits) + (if done.Normal? && commitOnSuccess then 1 else 0)
        && conn.rollbacks == old(conn.rollbacks)
                             + (if done.Raised? && DriverAnswer(old(conn.open), rollbackAnswer).Normal? then 1 else 0)
        && r == (if pool != null && old(pool.pool).value.closed then Raised(PoolError(PoolClosedMessage)) else done)
      ensures conn.Valid()
      ensures old(conn.open) ==> conn.working == conn.db.committed && conn.txStart == None
      ensures conn.db.nextId == old(conn.db.nextId) && conn.db.clock == old(conn.db.clock)
      ensures pool == null ==> !conn.open && conn.closes == old(conn.closes) + 1
      ensures pool != null ==> && pool.pool == old(pool.pool) && pool.lent == old(pool.lent)
                               && (old(pool.pool).value.closed ==>
                                     pool.returned == old(pool.returned) && pool.used == old(pool.used)
                                     && pool.idle == old(pool.idle)
                                     && !conn.open && conn.closes == old(conn.closes))
                               && (!old(pool.pool).value.closed ==>
                                     pool.returned == old(pool.returned) + 1 && pool.used == old(pool.used) - {conn}
                                     && var kept := old(conn.open) && old(pool.idle) < pool.pool.value.minConn;
                                     conn.open == kept
                                     && pool.idle == old(pool.idle) + (if kept then 1 else 0)
                                     && conn.closes == old(conn.closes) + (if old(conn.open) && !kept then 1 else 0))
    {
      var commitReply := DriverAnswer(conn.open, commitAnswer);
      var rollbackReply := DriverAnswer(conn.open, rollbackAnswer);
      // try: yield conn; conn.commit()
      var failure := body;
      if body.Normal? && commitOnSuccess {
        if commitReply.Normal? {
          conn.Commit();
        } else {
          failure := commitReply;
        }
      }
      // except: conn.rollback(); raise
      r := failure;
      if failure.Raised? {
        if rollbackReply.Normal? {
          conn.Rollback();
        } else {
          r := rollbackReply;
        }
      }
      // finally: conn.close() or pool.putconn(conn)
      if pool == null {
        conn.Close();
      } else {
        var put := pool.PutConn(conn);
        if put.Raised? {
          r := put;
        }
      }
      active := false;
    }
  }

  /** What a driver call answers: the given answer on an open connection,
      InterfaceError "connection already closed" on a closed one. */
  function DriverAnswer(open: bool, answer: Outcome): (r: Outcome)
    ensures open ==> r == answer
    ensures !open ==> r.Raised? && r.error == DriverError(ConnectionClosedMessage)
  {
    if open then answer else Raised(DriverError(ConnectionClosedMessage))
  }

  /** The pool object `psycopg2.pool.ThreadedConnectionPool(minconn, maxconn, ...)`;
      `closed` records a `closeall()`. */
  datatype PoolHandle = PoolHandle(minConn: int, maxConn: int, closed: bool)

  const PoolClosedMessage := "connection pool is closed"
  const PoolExhaustedMessage := "connection pool exhausted"

  /** `ConnectionPool`, with its class attribute `_pool` as the field `pool`
      and the psycopg2 pool's own state as `idle` and `used`. */
  class ConnectionPool {
    var pool: Option<PoolHandle>
    /** How many open connections wait in the pool (`_pool`). */
    var idle: nat
    /** The connections lent out and not yet put back (`_used`). */
    var used: set<Connection>
    /** Connections handed out by `getconn` and given back by `putconn`. */
    ghost var lent: nat
    ghost var returned: nat

    /** The class as defined: `_pool = None`. */
    constructor ()
      ensures pool == None && idle == 0 && used == {} && lent == 0 && returned == 0
    {
      pool := None;
      idle, used := 0, {};
      lent, returned := 0, 0;
    }

    /** `initialize(minconn=1, maxconn=10)`: creates the pool only when there
        is none; a new pool opens `minconn` connections and has lent none. */
    method Initialize(minConn: int, maxConn: int)
      modifies this
      ensures old(pool).None? ==> && pool == Some(PoolHandle(minConn, maxConn, false))
                                  && idle == (if minConn > 0 then minConn else 0) && used == {}
      ensures old(pool).Some? ==> pool == old(pool) && idle == old(idle) && used == old(used)
      ensures lent == old(lent) && returned == old(returned)
    {
      if pool.None? {
        pool := Some(PoolHandle(minConn, maxConn, false));
        idle := if minConn > 0 then minConn else 0;
        used := {};
      }
    }

    /** Entering `get_connection()`: initialises lazily with the default bounds,
        then `getconn()`: a closed pool refuses; otherwise an idle connection
        is reused, or a new one opened unless `maxconn` are already lent out. */
    method GetConnection(db: Database) returns (r: Result<Scope>)
      requires db.Valid()
      modifies this
      ensures pool == if old(pool).None? then Some(PoolHandle(1, 10, false)) else old(pool)
      ensures var idle0 := if old(pool).None? then 1 else old(idle);
              var used0 := if old(pool).None? then {} else old(used);
        && (pool.value.closed ==>
              r == Failure(PoolError(PoolClosedMessage)) && idle == idle0 && used == used0 && lent == old(lent))
        && (!pool.value.closed && idle0 == 0 && |used0| == pool.value.maxConn ==>
              r == Failure(PoolError(PoolExhaustedMessage)) && idle == idle0 && used == used0 && lent == old(lent))
        && (!pool.value.closed && !(idle0 == 0 && |used0| == pool.value.maxConn) ==>
              && r.Success? && fresh(r.value) && fresh(r.value.conn)
              && r.value.pool == this && r.value.active
              && r.value.commitOnSuccess && r.value.conn.db == db
              && r.value.conn.Valid() && r.value.conn.open
              && r.value.conn.working == db.committed && r.value.conn.txStart == None
              && idle == (if idle0 > 0 then idle0 - 1 else 0)
              && used == used0 + {r.value.conn} && lent == old(lent) + 1)
      ensures returned == old(returned)
    {
      if pool.None? {
        Initialize(1, 10);
      }
      if pool.value.closed {
        return Failure(PoolError(PoolClosedMessage));
      }
      if idle == 0 && |used| == pool.value.maxConn {
        return Failure(PoolError(PoolExhaustedMessage));
      }
      var s := new Scope.Borrowed(db, this);
      if idle > 0 {
        idle := idle - 1;
      }
      used := used + {s.conn};
      lent := lent + 1;
      r := Success(s);
    }

    /** `putconn(conn)`: a closed pool refuses. Otherwise the connection stops
        being lent; an open one is kept (its transaction aborted, which the
        `rollbacks` counter does not record, as it counts only explicit
        `rollback()` calls) while fewer than `minconn` wait in the pool, and
        closed beyond that. */
    method PutConn(conn: Connection) returns (r: Outcome)
      requires pool.Some? && conn in used && conn.Valid()
      modifies this, conn
      ensures conn.Valid() && conn.commits == old(conn.commits) && conn.rollbacks == old(conn.rollbacks)
      ensures old(pool).value.closed ==>
        r == Raised(PoolError(PoolClosedMessage)) && unchanged(this) && unchanged(conn)
      ensures !old(pool).value.closed ==>
        && r == Normal && pool == old(pool) && used == old(used) - {conn}
        && lent == old(lent) && returned == old(returned) + 1
        && (!old(conn.open) ==> unchanged(conn) && idle == old(idle))
        && (old(conn.open) ==> && conn.working == conn.db.committed && conn.txStart == None
                               && var kept := old(idle) < pool.value.minConn;
                               && conn.open == kept
                               && idle == old(idle) + (if kept then 1 else 0)
                               && conn.closes == old(conn.closes) + (if kept then 0 else 1))
    {
      if pool.value.closed {
        return Raised(PoolError(PoolClosedMessage));
      }
      if conn.open {
        if idle < pool.value.minConn {
          conn.working, conn.txStart := conn.db.committed, None;
          idle := idle + 1;
        } else {
          conn.Close();
        }
      }
      used := used - {conn};
      returned := returned + 1;
      r := Normal;
    }

    /** `close_all()`: when there is a pool, `closeall()` closes every
        connection it holds or has lent out, whose transactions the server then
        aborts; `_pool` stays set, so a later `get_connection` does not
        re-initialise, and a second `close_all` is refused. */
    method CloseAll() returns (r: Outcome)
      modifies this, used
      ensures used == old(used) && idle == old(idle) && lent == old(lent) && returned == old(returned)
      ensures old(pool).None? ==> r == Normal && pool == None
      ensures old(pool).Some? && old(pool).value.closed ==>
        r == Raised(PoolError(PoolClosedMessage)) && pool == old(pool)
      ensures old(pool).Some? && !old(pool).value.closed ==>
        r == Normal && pool == Some(old(pool).value.(closed := true))
      ensures forall c :: c in used ==> c.commits == old(c.commits) && c.rollbacks == old(c.rollbacks)
      ensures !(old(pool).Some? && !old(pool).value.closed) ==> forall c :: c in used ==> unchanged(c)
      ensures old(pool).Some? && !old(pool).value.closed ==>
        forall c :: c in used ==>
          && !c.open
          && c.closes == old(c.closes) + (if old(c.open) then 1 else 0)
          && (old(c.open) ==> c.working == c.db.committed && c.txStart == None)
          && (!old(c.open) ==> c.working == old(c.working) && c.txStart == old(c.txStart))
    {
      if pool.None? {
        return Normal;
      }
      if pool.value.closed {
        return Raised(PoolError(PoolClosedMessage));
      }
      forall c | c in used && c.open {
        c.closes := c.closes + 1;
      }
      forall c | c in used && c.open {
        c.working := c.db.committed;
      }
      forall c | c in used && c.open {
        c.txStart := None;
      }
      forall c | c in used {
        c.open := false;
      }
      pool := Some(pool.value.(closed := true));
      r := Normal;
    }
  }

  /** Closing the pool inside a `with ConnectionPool.get_connection()` block of
      a fresh process: the close succeeds, the borrowed connection is closed
      under the block, so nothing it wrote is committed, leaving the block
      raises the pool's error whatever the block did, and closing again is
      refused. */
  method CloseAllInsideBlock(db: Database, pools: ConnectionPool, body: Outcome,
                             commitAnswer: Outcome, rollbackAnswer: Outcome)
    returns (closing: Outcome, leaving: Outcome, again: Outcome)
    requires db.Valid() && pools.pool.None?
    modifies db, pools, pools.used
    ensures closing == Normal
    ensures leaving == Raised(PoolError(PoolClosedMessage))
    ensures again == Raised(PoolError(PoolClosedMessage))
    ensures db.committed == old(db.committed)
  {
    var got := pools.GetConnection(db);
    var scope := got.value;
    closing := pools.CloseAll();
    leaving := scope.Exit(body, commitAnswer, rollbackAnswer);
    again := pools.CloseAll();
  }

  /** With the default bounds (1, 10), a connection handed back by a block that
      ended normally waits in the pool, and the next `get_connection` reuses it
      rather than opening another: one connection is lent, none waits. */
  method BorrowTwice(db: Database, pools: ConnectionPool, commitAnswer: Outcome)
    returns (first: Outcome, second: Result<Scope>)
    requires db.Valid() && pools.pool.None?
    modifies db, pools
    ensures second.Success? && pools.used == {second.value.conn}
    ensures pools.idle == 0 && pools.pool == Some(PoolHandle(1, 10, false))
    ensures first == commitAnswer
  {
    var got := pools.GetConnection(db);
    var scope := got.value;
    first := scope.Exit(Normal, commitAnswer, Normal);
    second := pools.GetConnection(db);
  }
}
