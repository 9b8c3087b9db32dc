/** The database the DAO and the transaction scopes talk to, reduced to what the
    modelled code observes: the committed contents of the contract_types table,
    the id sequence, the server clock, and per connection the transaction's own
    view of the table (committed rows plus its pending writes). */
module Storage {
  import opened Common
  import opened ContractTypes

  /** A stored row carries a storage-assigned id and timestamps not later than `clock`. */
  predicate RowOk(ct: ContractType, nextId: int, clock: Timestamp) {
    && ct.id.Some? && 1 <= ct.id.value < nextId
    && (ct.createdAt.Some? ==> ct.createdAt.value <= clock)
    && (ct.updatedAt.Some? ==> ct.updatedAt.value <= clock)
  }

  /** The rows of contract_types in physical order: ids are distinct and were
      all drawn from the sequence before `nextId`. */
  predicate TableOk(rows: seq<ContractType>, nextId: int, clock: Timestamp) {
    && (forall i :: 0 <= i < |rows| ==> RowOk(rows[i], nextId, clock))
    && (forall i, j :: 0 <= i < j < |rows| ==> rows[i].id != rows[j].id)
  }

  class Database {
    /** Rows every new transaction sees. */
    var committed: seq<ContractType>
    /** Next value of the id sequence (SERIAL); sequences are not rolled back,
        so an id is never handed out twice. */
    var nextId: int
    /** CURRENT_TIMESTAMP, as a point of an abstract monotone clock. */
    var clock: Timestamp

    ghost predicate Valid()
      reads this
    {
      nextId >= 1 && TableOk(committed, nextId, clock)
    }

    constructor (rows: seq<ContractType>, nextId: int, clock: Timestamp)
      requires nextId >= 1 && TableOk(rows, nextId, clock)
      ensures Valid()
      ensures committed == rows && this.nextId == nextId && this.clock == clock
    {
      committed := rows;
      this.nextId := nextId;
      this.clock := clock;
    }

    /** Time passes: the server clock moves one step forward. */
    method Tick()
      requires Valid()
      modifies this
      ensures Valid()
      ensures clock == old(clock) + 1
      ensures committed == old(committed) && nextId == old(nextId)
    {
      clock := clock + 1;
    }
  }

  /** A table that was valid stays valid as the clock moves forward. */
  lemma TableOkLater(rows: seq<ContractType>, nextId: int, clock: Timestamp, later: Timestamp)
    requires TableOk(rows, nextId, clock) && clock <= later
    ensures TableOk(rows, nextId, later)
  {
  }

  /** CURRENT_TIMESTAMP inside a transaction: its start time once it has
      begun; a statement that begins it reads the clock. */
  function Stamp(txStart: Option<Timestamp>, clock: Timestamp): Timestamp {
    if txStart.Some? then txStart.value else clock
  }

  const ConnectionClosedMessage := "connection already closed"

  /** A psycopg2 connection: one transaction at a time, whose writes stay
      pending in `working` until `Commit`. */
  class Connection {
    const db: Database
    /** What this connection's transaction sees: the committed rows with its
        own pending writes applied. */
    var working: seq<ContractType>
    var open: bool
    /** When the transaction in progress began, or None between transactions.
        psycopg2 opens a transaction (BEGIN) before the first statement after
        connecting, committing or rolling back. */
    var txStart: Option<Timestamp>
    /** How many times the transaction was committed, rolled back, or the
        connection closed, by explicit `commit()`, `rollback()` and `close()`
        calls; the abort a pool performs when a connection is put back, and the
        server's abort on close, are not counted as rollbacks. */
    ghost var commits: nat
    ghost var rollbacks: nat
    ghost var closes: nat

    ghost predicate Valid()
      reads this, db
    {
      && db.Valid() && TableOk(working, db.nextId, db.clock)
      && (txStart.Some? ==> txStart.value <= db.clock)
    }

    /** `psycopg2.connect(...)`: a new connection, with nothing pending. */
    constructor Connect(db: Database)
      requires db.Valid()
      ensures this.db == db && Valid() && open
      ensures working == db.committed && txStart == None
      ensures commits == 0 && rollbacks == 0 && closes == 0
    {
      this.db := db;
      working := db.committed;
      open := true;
      txStart := None;
      commits, rollbacks, closes := 0, 0, 0;
    }

    /** The first statement of a transaction begins it: CURRENT_TIMESTAMP
        is from then on the time it began, whatever the clock says later. */
    method Begin() returns (now: Timestamp)
      requires Valid() && open
      modifies this
      ensures Valid() && open
      ensures now == Stamp(old(txStart), db.clock) && txStart == Some(now)
      ensures working == old(working)
      ensures commits == old(commits) && rollbacks == old(rollbacks) && closes == old(closes)
    {
      if txStart.None? {
        txStart := Some(db.clock);
      }
      now := txStart.value;
    }

    /** `conn.commit()`: the pending writes become the committed table. */
    method Commit()
      requires Valid() && open
      modifies this, db
      ensures Valid() && open
      ensures db.committed == old(working) && working == old(working) && txStart == None
      ensures db.nextId == old(db.nextId) && db.clock == old(db.clock)
      ensures commits == old(commits) + 1
      ensures rollbacks == old(rollbacks) && closes == old(closes)
    {
      db.committed := working;
      txStart := None;
      commits := commits + 1;
    }

    /** `conn.rollback()`: the pending writes are discarded. */
    method Rollback()
      requires Valid() && open
      modifies this
      ensures Valid() && open
      ensures working == db.committed && txStart == None
      ensures rollbacks == old(rollbacks) + 1
      ensures commits == old(commits) && closes == old(closes)
    {
      working := db.committed;
      txStart := None;
      rollbacks := rollbacks + 1;
    }

    /** `conn.close()`: the server aborts whatever is still pending. */
    method Close()
      requires Valid()
      modifies this
      ensures Valid() && !open
      ensures working == db.committed && txStart == None
      ensures closes == old(closes) + 1
      ensures commits == old(commits) && rollbacks == old(rollbacks)
    {
      working := db.committed;
      txStart := None;
      open := false;
      closes := closes + 1;
    }
  }
}
