/** ContractTypeDAO of models/contract_type.py: typed reads and writes of the
    contract_types table over one connection, each write committing by itself
    only when the DAO was built with `auto_commit`. The SQL each method sends
    is modelled by what it does to the connection's view of the table. */
module ContractTypeDao {
  import opened Common
  import opened ContractTypes
  import opened Storage

  // ---------------------------------------------------------------------
  // ORDER BY sort_order, type_code
  // ---------------------------------------------------------------------

  /** Lexicographic order on strings, character by character. */
  predicate StrLe(a: string, b: string)
    decreases |a|
  {
    a == [] || (b != [] && (a[0] < b[0] || (a[0] == b[0] && StrLe(a[1..], b[1..]))))
  }

  lemma {:induction false} StrLeTotal(a: string, b: string)
    ensures StrLe(a, b) || StrLe(b, a)
    decreases |a|
  {
    if a != [] && b != [] && a[0] == b[0] {
      StrLeTotal(a[1..], b[1..]);
    }
  }

  lemma {:induction false} StrLeTrans(a: string, b: string, c: string)
    requires StrLe(a, b) && StrLe(b, c)
    ensures StrLe(a, c)
    decreases |a|
  {
    if a != [] && a[0] == b[0] && b[0] == c[0] {
      StrLeTrans(a[1..], b[1..], c[1..]);
    }
  }

  /** The listing order: by sort_order, then by type_code. */
  predicate KeyLe(x: ContractType, y: ContractType) {
    x.sortOrder < y.sortOrder || (x.sortOrder == y.sortOrder && StrLe(x.typeCode, y.typeCode))
  }

  lemma KeyLeTotal(x: ContractType, y: ContractType)
    ensures KeyLe(x, y) || KeyLe(y, x)
  {
    StrLeTotal(x.typeCode, y.typeCode);
  }

  lemma KeyLeTrans(x: ContractType, y: ContractType, z: ContractType)
    requires KeyLe(x, y) && KeyLe(y, z)
    ensures KeyLe(x, z)
  {
    if x.sortOrder == y.sortOrder == z.sortOrder {
      StrLeTrans(x.typeCode, y.typeCode, z.typeCode);
    }
  }

  predicate Sorted(s: seq<ContractType>) {
    forall i, j :: 0 <= i < j < |s| ==> KeyLe(s[i], s[j])
  }

  /** Places `x` before the first element it does not follow. */
  function Insert(x: ContractType, s: seq<ContractType>): (r: seq<ContractType>)
    ensures multiset(r) == multiset(s) + multiset{x}
  {
    if s == [] then [x]
    else if KeyLe(x, s[0]) then [x] + s
    else
      assert s == [s[0]] + s[1..];
      [s[0]] + Insert(x, s[1..])
  }

  lemma {:induction false} InsertSorted(x: ContractType, s: seq<ContractType>)
    requires Sorted(s)
    ensures Sorted(Insert(x, s))
  {
    if s == [] {
    } else if KeyLe(x, s[0]) {
      var r := [x] + s;
      forall i, j | 0 <= i < j < |r| ensures KeyLe(r[i], r[j]) {
        if i == 0 && j > 1 {
          KeyLeTrans(x, s[0], s[j - 1]);
        }
      }
    } else {
      KeyLeTotal(x, s[0]);
      var t := Insert(x, s[1..]);
      InsertSorted(x, s[1..]);
      assert multiset(t) == multiset(s[1..]) + multiset{x};
      var r := [s[0]] + t;
      forall i, j | 0 <= i < j < |r| ensures KeyLe(r[i], r[j]) {
        if i == 0 {
          assert r[j] in multiset(t);
          if r[j] != x {
            assert r[j] in multiset(s[1..]);
            var k :| 0 <= k < |s[1..]| && s[1..][k] == r[j];
            assert s[k + 1] == r[j];
          }
        }
      }
    }
  }

  /** Insertion sort by the listing order; equal keys keep their physical order. */
  function SortByKey(s: seq<ContractType>): (r: seq<ContractType>)
    ensures multiset(r) == multiset(s)
  {
    if s == [] then []
    else
      assert s == [s[0]] + s[1..];
      Insert(s[0], SortByKey(s[1..]))
  }

  lemma {:induction false} SortByKeySorted(s: seq<ContractType>)
    ensures Sorted(SortByKey(s))
  {
    if s != [] {
      SortByKeySorted(s[1..]);
      InsertSorted(s[0], SortByKey(s[1..]));
    }
  }

  /** `WHERE is_active = TRUE`, keeping physical order. */
  function ActiveRows(rows: seq<ContractType>): (r: seq<ContractType>)
    ensures forall x :: x in r <==> x in rows && x.isActive
    ensures multiset(r) <= multiset(rows)
  {
    if rows == [] then []
    else
      assert rows == [rows[0]] + rows[1..];
      (if rows[0].isActive then [rows[0]] else []) + ActiveRows(rows[1..])
  }

  /** The rows `get_all` returns. */
  function Listing(rows: seq<ContractType>, activeOnly: bool): seq<ContractType> {
    SortByKey(if activeOnly then ActiveRows(rows) else rows)
  }

  /** The listing is ordered by (sort_order, type_code), holds every selected
      row as often as the table does, and with `active_only` exactly the
      active rows. */
  lemma ListingSpec(rows: seq<ContractType>, activeOnly: bool)
    ensures Sorted(Listing(rows, activeOnly))
    ensures multiset(Listing(rows, activeOnly)) == multiset(if activeOnly then ActiveRows(rows) else rows)
    ensures forall x :: x in Listing(rows, activeOnly) <==> x in rows && (activeOnly ==> x.isActive)
  {
    var sel := if activeOnly then ActiveRows(rows) else rows;
    SortByKeySorted(sel);
    forall x ensures x in Listing(rows, activeOnly) <==> x in sel {
      assert x in Listing(rows, activeOnly) <==> x in multiset(Listing(rows, activeOnly));
      assert x in sel <==> x in multiset(sel);
    }
  }

  /** The active listing is part of the full listing. */
  lemma ActiveListingWithinAll(rows: seq<ContractType>)
    ensures multiset(Listing(rows, true)) <= multiset(Listing(rows, false))
    ensures |Listing(rows, true)| <= |Listing(rows, false)|
  {
    ListingSpec(rows, true);
    ListingSpec(rows, false);
    var a, b := Listing(rows, true), Listing(rows, false);
    assert |multiset(a)| <= |multiset(b)| by {
      var d := multiset(b) - multiset(a);
      assert multiset(b) == multiset(a) + d;
    }
  }

  // ---------------------------------------------------------------------
  // WHERE type_code = %s / WHERE id = %s, then fetchone()
  // ---------------------------------------------------------------------

  datatype Key = ByCode(code: string) | ById(id: int)

  predicate Matches(ct: ContractType, k: Key) {
    match k
    case ByCode(c) => ct.typeCode == c
    case ById(i) => ct.id == Some(i)
  }

  /** The first row in physical order that has the key, or absence. */
  function Find(rows: seq<ContractType>, k: Key): (r: Option<ContractType>)
    ensures r.Some? ==> r.value in rows && Matches(r.value, k)
    ensures r.None? <==> forall i :: 0 <= i < |rows| ==> !Matches(rows[i], k)
  {
    if rows == [] then None
    else if Matches(rows[0], k) then Some(rows[0])
    else
      assert forall i :: 1 <= i < |rows| ==> rows[i] == rows[1..][i - 1];
      Find(rows[1..], k)
  }

  /** `fetchone()` answers with the first matching row. */
  lemma {:induction false} FindIsFirst(rows: seq<ContractType>, k: Key, i: nat)
    requires i < |rows| && Matches(rows[i], k)
    requires forall j :: 0 <= j < i ==> !Matches(rows[j], k)
    ensures Find(rows, k) == Some(rows[i])
  {
    if i > 0 {
      FindIsFirst(rows[1..], k, i - 1);
    }
  }

  /** Ids are distinct, so looking a row up by its id finds that very row. */
  lemma FindByOwnId(rows: seq<ContractType>, nextId: int, clock: Timestamp, i: nat)
    requires TableOk(rows, nextId, clock) && i < |rows|
    ensures Find(rows, ById(rows[i].id.value)) == Some(rows[i])
  {
    FindIsFirst(rows, ById(rows[i].id.value), i);
  }

  predicate HasId(rows: seq<ContractType>, id: int) {
    exists i :: 0 <= i < |rows| && rows[i].id == Some(id)
  }

  // ---------------------------------------------------------------------
  // What each write does to the rows
  // ---------------------------------------------------------------------

  /** `Contract type ID is required for update` is raised exactly when the
      record's id is falsy: None or 0. */
  predicate IdTruthy(ct: ContractType) {
    ct.id.Some? && ct.id.value != 0
  }

  const MissingIdMessage := "Contract type ID is required for update"

  /** `SET type_code, type_name, description, default_workflow, is_active,
      sort_order, updated_at = CURRENT_TIMESTAMP`: id and created_at stay. */
  function ReplaceColumns(row: ContractType, ct: ContractType, now: Timestamp): ContractType {
    row.(typeCode := ct.typeCode, typeName := ct.typeName, description := ct.description,
         defaultWorkflow := ct.defaultWorkflow, isActive := ct.isActive,
         sortOrder := ct.sortOrder, updatedAt := Some(now))
  }

  function UpdateRows(rows: seq<ContractType>, ct: ContractType, now: Timestamp): (r: seq<ContractType>)
    ensures |r| == |rows|
  {
    seq(|rows|, i requires 0 <= i < |rows| =>
      if rows[i].id == ct.id then ReplaceColumns(rows[i], ct, now) else rows[i])
  }

  /** `DELETE FROM contract_types WHERE id = %s` */
  function DeleteRows(rows: seq<ContractType>, id: int): (r: seq<ContractType>)
    ensures forall x :: x in r <==> x in rows && x.id != Some(id)
  {
    if rows == [] then []
    else
      assert rows == [rows[0]] + rows[1..];
      (if rows[0].id == Some(id) then [] else [rows[0]]) + DeleteRows(rows[1..], id)
  }

  /** `SET is_active = FALSE, updated_at = CURRENT_TIMESTAMP WHERE id = %s` */
  function DeactivateRows(rows: seq<ContractType>, id: int, now: Timestamp): (r: seq<ContractType>)
    ensures |r| == |rows|
  {
    seq(|rows|, i requires 0 <= i < |rows| =>
      if rows[i].id == Some(id) then rows[i].(isActive := false, updatedAt := Some(now)) else rows[i])
  }

  lemma {:induction false} DeleteKeepsTable(rows: seq<ContractType>, id: int, nextId: int, clock: Timestamp)
    requires TableOk(rows, nextId, clock)
    ensures TableOk(DeleteRows(rows, id), nextId, clock)
  {
    if rows != [] {
      DeleteKeepsTable(rows[1..], id, nextId, clock);
      var rest := DeleteRows(rows[1..], id);
      if rows[0].id != Some(id) {
        forall j | 0 <= j < |rest| ensures rows[0].id != rest[j].id {
          assert rest[j] in rows[1..];
        }
      }
    }
  }

  // ---------------------------------------------------------------------
  // Properties relating several DAO calls
  // ---------------------------------------------------------------------

  /** After `delete(id)`, `get_by_id(id)` finds nothing. */
  lemma DeleteThenGetById(rows: seq<ContractType>, id: int)
    ensures Find(DeleteRows(rows, id), ById(id)) == None
  {
    var r := DeleteRows(rows, id);
    forall i | 0 <= i < |r| ensures !Matches(r[i], ById(id)) {
      assert r[i] in r;
    }
  }

  /** The update keeps every row's id where it was. */
  lemma UpdateKeepsIds(rows: seq<ContractType>, ct: ContractType, now: Timestamp)
    ensures forall i :: 0 <= i < |rows| ==> UpdateRows(rows, ct, now)[i].id == rows[i].id
  {
  }

  /** The row with the record's id is found, rewritten, where it was found before. */
  lemma UpdateFindsRewritten(rows: seq<ContractType>, nextId: int, clock: Timestamp, ct: ContractType, i: nat)
    requires TableOk(rows, nextId, clock) && IdTruthy(ct)
    requires i < |rows| && rows[i].id == ct.id
    ensures Find(UpdateRows(rows, ct, clock), ById(ct.id.value)) == Some(ReplaceColumns(rows[i], ct, clock))
  {
    var r := UpdateRows(rows, ct, clock);
    UpdateKeepsIds(rows, ct, clock);
    assert r[i] == ReplaceColumns(rows[i], ct, clock);
    FindIsFirst(r, ById(ct.id.value), i);
  }

  /** A row with another id is found unchanged where it was found before. */
  lemma UpdateKeepsOthers(rows: seq<ContractType>, nextId: int, clock: Timestamp, ct: ContractType, other: int)
    requires TableOk(rows, nextId, clock) && Some(other) != ct.id
    ensures Find(UpdateRows(rows, ct, clock), ById(other)) == Find(rows, ById(other))
  {
    var r := UpdateRows(rows, ct, clock);
    UpdateKeepsIds(rows, ct, clock);
    if Find(rows, ById(other)).Some? {
      var i :| 0 <= i < |rows| && rows[i] == Find(rows, ById(other)).value;
      FindByOwnId(rows, nextId, clock, i);
      assert r[i] == rows[i];
      FindIsFirst(r, ById(other), i);
    }
  }

  /** `update` changes the row with that id, as `get_by_id` then shows, and no other row. */
  lemma UpdateThenGetById(rows: seq<ContractType>, nextId: int, clock: Timestamp, ct: ContractType, other: int)
    requires TableOk(rows, nextId, clock) && IdTruthy(ct)
    ensures var r := UpdateRows(rows, ct, clock);
      && (Find(rows, ById(ct.id.value)).Some? ==>
           Find(r, ById(ct.id.value)) == Some(ReplaceColumns(Find(rows, ById(ct.id.value)).value, ct, clock)))
      && (Find(rows, ById(ct.id.value)).None? ==> r == rows)
      && (Some(other) != ct.id ==> Find(r, ById(other)) == Find(rows, ById(other)))
  {
    var id := ct.id.value;
    if Find(rows, ById(id)).Some? {
      var i :| 0 <= i < |rows| && rows[i] == Find(rows, ById(id)).value;
      UpdateFindsRewritten(rows, nextId, clock, ct, i);
    } else {
      assert UpdateRows(rows, ct, clock) == rows;
    }
    if Some(other) != ct.id {
      UpdateKeepsOthers(rows, nextId, clock, ct, other);
    }
  }

  /** After the soft delete every row with the id is inactive, and ids stay put. */
  lemma DeactivatedRows(rows: seq<ContractType>, id: int, now: Timestamp)
    ensures forall i :: 0 <= i < |rows| ==> DeactivateRows(rows, id, now)[i].id == rows[i].id
    ensures forall x :: x in DeactivateRows(rows, id, now) && x.id == Some(id) ==> !x.isActive
  {
  }

  /** The row with the id is found where it was, with `is_active` false,
      `updated_at` stamped and every other column as before. */
  lemma DeactivateFindsRewritten(rows: seq<ContractType>, nextId: int, clock: Timestamp, id: int, i: nat)
    requires TableOk(rows, nextId, clock) && i < |rows| && rows[i].id == Some(id)
    ensures Find(DeactivateRows(rows, id, clock), ById(id))
            == Some(rows[i].(isActive := false, updatedAt := Some(clock)))
  {
    var r := DeactivateRows(rows, id, clock);
    DeactivatedRows(rows, id, clock);
    FindIsFirst(r, ById(id), i);
  }

  /** A row with another id is found unchanged by `get_by_id`. */
  lemma DeactivateKeepsOthers(rows: seq<ContractType>, nextId: int, clock: Timestamp, id: int, other: int)
    requires TableOk(rows, nextId, clock) && other != id
    ensures Find(DeactivateRows(rows, id, clock), ById(other)) == Find(rows, ById(other))
  {
    var r := DeactivateRows(rows, id, clock);
    DeactivatedRows(rows, id, clock);
    if Find(rows, ById(other)).Some? {
      var i :| 0 <= i < |rows| && rows[i] == Find(rows, ById(other)).value;
      FindByOwnId(rows, nextId, clock, i);
      assert r[i] == rows[i];
      FindIsFirst(r, ById(other), i);
    }
  }

  /** After `deactivate(id)` the row is still found by `get_by_id`, now
      inactive and stamped, with its other columns as before, but no row with
      that id is in the active listing; the full listing still has it. */
  lemma DeactivateThenList(rows: seq<ContractType>, nextId: int, clock: Timestamp, id: int)
    requires TableOk(rows, nextId, clock) && HasId(rows, id)
    ensures var r := DeactivateRows(rows, id, clock);
      && Find(r, ById(id)) == Some(Find(rows, ById(id)).value.(isActive := false, updatedAt := Some(clock)))
      && Find(r, ById(id)).Some? && !Find(r, ById(id)).value.isActive
      && (forall x :: x in Listing(r, true) ==> x.id != Some(id))
      && Find(r, ById(id)).value in Listing(r, false)
  {
    var r := DeactivateRows(rows, id, clock);
    DeactivatedRows(rows, id, clock);
    var i :| 0 <= i < |rows| && rows[i].id == Some(id);
    FindByOwnId(rows, nextId, clock, i);
    DeactivateFindsRewritten(rows, nextId, clock, id, i);
    ListingSpec(r, true);
    ListingSpec(r, false);
  }

  /** The id storage hands out is fresh: the created record is what `get_by_id`
      then returns, and, when no earlier row had its code, what `get_by_code`
      returns. */
  lemma CreateThenGet(rows: seq<ContractType>, nextId: int, clock: Timestamp, created: ContractType)
    requires TableOk(rows, nextId, clock) && created.id == Some(nextId)
    ensures Find(rows + [created], ById(nextId)) == Some(created)
    ensures Find(rows, ByCode(created.typeCode)).None? ==>
      Find(rows + [created], ByCode(created.typeCode)) == Some(created)
  {
    var r := rows + [created];
    assert forall j :: 0 <= j < |rows| ==> r[j] == rows[j];
    FindIsFirst(r, ById(nextId), |rows|);
    if Find(rows, ByCode(created.typeCode)).None? {
      FindIsFirst(r, ByCode(created.typeCode), |rows|);
    }
  }

  // ---------------------------------------------------------------------
  // The DAO object
  // ---------------------------------------------------------------------

  class ContractTypeDAO {
    /** May be absent: a DAO built without a connection can still reject an update. */
    const conn: Connection?
    const autoCommit: bool

    /** The objects a write may change. */
    function Footprint(): set<object>
      reads this
    {
      if conn == null then {} else {conn, conn.db}
    }

    constructor (conn: Connection?, autoCommit: bool)
      ensures this.conn == conn && this.autoCommit == autoCommit
    {
      this.conn := conn;
      this.autoCommit := autoCommit;
    }

    /** `get_all`: reads, never commits; like every statement it begins the
        connection's transaction if none is in progress. */
    method GetAll(activeOnly: bool) returns (types: seq<ContractType>)
      requires conn != null && conn.Valid() && conn.open
      modifies conn
      ensures conn.Valid() && conn.open && conn.working == old(conn.working)
      ensures conn.txStart == Some(Stamp(old(conn.txStart), conn.db.clock))
      ensures conn.commits == old(conn.commits) && conn.rollbacks == old(conn.rollbacks) && conn.closes == old(conn.closes)
      ensures types == Listing(conn.working, activeOnly)
      ensures Sorted(types)
      ensures forall t :: t in types <==> t in conn.working && (activeOnly ==> t.isActive)
    {
      var _ := conn.Begin();
      var rows := Listing(conn.working, activeOnly);
      types := seq(|rows|, i requires 0 <= i < |rows| => FromDbRow(ToRow(rows[i])));
      forall i | 0 <= i < |rows| ensures types[i] == rows[i] {
        FromDbRowOfToRow(rows[i]);
      }
      ListingSpec(conn.working, activeOnly);
    }

    /** `get_by_code`: the first row with that code, or None; never fails. */
    method GetByCode(typeCode: string) returns (found: Option<ContractType>)
      requires conn != null && conn.Valid() && conn.open
      modifies conn
      ensures conn.Valid() && conn.open && conn.working == old(conn.working)
      ensures conn.txStart == Some(Stamp(old(conn.txStart), conn.db.clock))
      ensures conn.commits == old(conn.commits) && conn.rollbacks == old(conn.rollbacks) && conn.closes == old(conn.closes)
      ensures found == Find(conn.working, ByCode(typeCode))
      ensures found.Some? ==> found.value.typeCode == typeCode && found.value in conn.working
      ensures found.None? <==> forall t :: t in conn.working ==> t.typeCode != typeCode
    {
      var _ := conn.Begin();
      var row := Find(conn.working, ByCode(typeCode));
      if row.Some? {
        FromDbRowOfToRow(row.value);
        found := Some(FromDbRow(ToRow(row.value)));
      } else {
        found := None;
      }
    }

    /** `get_by_id`: the row with that id, or None; never fails. */
    method GetById(id: int) returns (found: Option<ContractType>)
      requires conn != null && conn.Valid() && conn.open
      modifies conn
      ensures conn.Valid() && conn.open && conn.working == old(conn.working)
      ensures conn.txStart == Some(Stamp(old(conn.txStart), conn.db.clock))
      ensures conn.commits == old(conn.commits) && conn.rollbacks == old(conn.rollbacks) && conn.closes == old(conn.closes)
      ensures found == Find(conn.working, ById(id))
      ensures found.Some? ==> found.value.id == Some(id) && found.value in conn.working
      ensures found.None? <==> !HasId(conn.working, id)
    {
      var _ := conn.Begin();
      var row := Find(conn.working, ById(id));
      if row.Some? {
        FromDbRowOfToRow(row.value);
        found := Some(FromDbRow(ToRow(row.value)));
      } else {
        found := None;
      }
    }

    /** `create`: inserts one row whose id comes from the sequence and whose
        timestamps are CURRENT_TIMESTAMP, the start of the transaction, and
        hands back the record with those three fields filled in. */
    method Create(ct: ContractType) returns (created: ContractType)
      requires conn != null && conn.Valid() && conn.open
      modifies Footprint()
      ensures conn.Valid() && conn.open
      ensures var now := Stamp(old(conn.txStart), conn.db.clock);
        created == ct.(id := Some(old(conn.db.nextId)), createdAt := Some(now), updatedAt := Some(now))
      ensures conn.txStart == if autoCommit then None else Some(Stamp(old(conn.txStart), conn.db.clock))
      ensures conn.working == old(conn.working) + [created]
      ensures conn.db.nextId == old(conn.db.nextId) + 1 && conn.db.clock == old(conn.db.clock)
      ensures conn.db.committed == if autoCommit then conn.working else old(conn.db.committed)
      ensures conn.commits == old(conn.commits) + (if autoCommit then 1 else 0)
      ensures conn.rollbacks == old(conn.rollbacks) && conn.closes == old(conn.closes)
    {
      var db := conn.db;
      var now := conn.Begin();
      created := ct.(id := Some(db.nextId), createdAt := Some(now), updatedAt := Some(now));
      conn.working := conn.working + [created];
      db.nextId := db.nextId + 1;
      if autoCommit {
        conn.Commit();
      }
    }

    /** `update`: a falsy id is rejected before the connection is used;
        otherwise the six mutable columns of the row with that id are replaced
        and its updated_at refreshed; the result says whether such a row existed. */
    method Update(ct: ContractType) returns (r: Result<bool>)
      requires IdTruthy(ct) ==> conn != null && conn.Valid() && conn.open
      modifies Footprint()
      ensures !IdTruthy(ct) ==> r == Failure(ValueError(MissingIdMessage))
      ensures !IdTruthy(ct) && conn != null ==> unchanged(conn, conn.db)
      ensures IdTruthy(ct) ==> && conn.Valid() && conn.open
                               && r == Success(HasId(old(conn.working), ct.id.value))
                               && conn.working == UpdateRows(old(conn.working), ct, Stamp(old(conn.txStart), conn.db.clock))
                               && conn.db.nextId == old(conn.db.nextId) && conn.db.clock == old(conn.db.clock)
                               && conn.db.committed == (if autoCommit then conn.working else old(conn.db.committed))
                               && conn.txStart == (if autoCommit then None else Some(Stamp(old(conn.txStart), conn.db.clock)))
                               && conn.commits == old(conn.commits) + (if autoCommit then 1 else 0)
                               && conn.rollbacks == old(conn.rollbacks) && conn.closes == old(conn.closes)
    {
      if !IdTruthy(ct) {
        return Failure(ValueError(MissingIdMessage));
      }
      var rows := conn.working;
      var now := conn.Begin();
      conn.working := UpdateRows(rows, ct, now);
      if autoCommit {
        conn.Commit();
      }
      r := Success(HasId(rows, ct.id.value));
    }

    /** `delete`: removes the row with that id; says whether one existed. */
    method Delete(id: int) returns (deleted: bool)
      requires conn != null && conn.Valid() && conn.open
      modifies Footprint()
      ensures conn.Valid() && conn.open
      ensures deleted == HasId(old(conn.working), id)
      ensures conn.working == DeleteRows(old(conn.working), id)
      ensures conn.db.nextId == old(conn.db.nextId) && conn.db.clock == old(conn.db.clock)
      ensures conn.db.committed == if autoCommit then conn.working else old(conn.db.committed)
      ensures conn.txStart == if autoCommit then None else Some(Stamp(old(conn.txStart), conn.db.clock))
      ensures conn.commits == old(conn.commits) + (if autoCommit then 1 else 0)
      ensures conn.rollbacks == old(conn.rollbacks) && conn.closes == old(conn.closes)
    {
      var _ := conn.Begin();
      var rows := conn.working;
      DeleteKeepsTable(rows, id, conn.db.nextId, conn.db.clock);
      conn.working := DeleteRows(rows, id);
      if autoCommit {
        conn.Commit();
      }
      deleted := HasId(rows, id);
    }

    /** `deactivate`: the soft delete; says whether the row existed. */
    method Deactivate(id: int) returns (deactivated: bool)
      requires conn != null && conn.Valid() && conn.open
      modifies Footprint()
      ensures conn.Valid() && conn.open
      ensures deactivated == HasId(old(conn.working), id)
      ensures conn.working == DeactivateRows(old(conn.working), id, Stamp(old(conn.txStart), conn.db.clock))
      ensures conn.db.nextId == old(conn.db.nextId) && conn.db.clock == old(conn.db.clock)
      ensures conn.db.committed == if autoCommit then conn.working else old(conn.db.committed)
      ensures conn.txStart == if autoCommit then None else Some(Stamp(old(conn.txStart), conn.db.clock))
      ensures conn.commits == old(conn.commits) + (if autoCommit then 1 else 0)
      ensures conn.rollbacks == old(conn.rollbacks) && conn.closes == old(conn.closes)
    {
      var rows := conn.working;
      var now := conn.Begin();
      conn.working := DeactivateRows(rows, id, now);
      if autoCommit {
        conn.Commit();
      }
      deactivated := HasId(rows, id);
    }
  }

  // ---------------------------------------------------------------------
  // CURRENT_TIMESTAMP across transactions
  // ---------------------------------------------------------------------

  /** Two records created in one transaction carry the same timestamps, the
      time the transaction began, even when the clock moves between them. */
  method StampsWithinTransaction(db: Database, a: ContractType, b: ContractType)
    returns (createdA: ContractType, createdB: ContractType)
    requires db.Valid()
    modifies db
    ensures createdA.createdAt == createdB.createdAt == Some(old(db.clock))
    ensures createdA.updatedAt == createdB.updatedAt == Some(old(db.clock))
    ensures db.clock == old(db.clock) + 1 && db.committed == old(db.committed)
  {
    var conn := new Connection.Connect(db);
    var dao := new ContractTypeDAO(conn, false);
    createdA := dao.Create(a);
    db.Tick();
    TableOkLater(conn.working, db.nextId, db.clock - 1, db.clock);
    createdB := dao.Create(b);
  }

  /** With `auto_commit`, each write is its own transaction: an update made
      after the clock has moved stamps `updated_at` later than `created_at`,
      which the update leaves alone. */
  method UpdateRefreshesStamp(db: Database, ct: ContractType, newName: string)
    returns (created: ContractType, updated: Option<ContractType>)
    requires db.Valid()
    modifies db
    ensures created.createdAt == created.updatedAt == Some(old(db.clock))
    ensures updated == Some(created.(typeName := newName, updatedAt := Some(old(db.clock) + 1)))
    ensures updated.value.updatedAt.value > updated.value.createdAt.value
  {
    var conn := new Connection.Connect(db);
    var dao := new ContractTypeDAO(conn, true);
    created := dao.Create(ct);
    db.Tick();
    TableOkLater(conn.working, db.nextId, db.clock - 1, db.clock);
    updated := UpdateLast(dao, created, newName);
  }

  /** Renaming, through an `auto_commit` DAO between transactions, the record
      last inserted: `get_by_id` then finds it renamed and stamped now. */
  method UpdateLast(dao: ContractTypeDAO, created: ContractType, newName: string)
    returns (updated: Option<ContractType>)
    requires dao.conn != null && dao.conn.Valid() && dao.conn.open && dao.autoCommit
    requires dao.conn.txStart == None && IdTruthy(created)
    requires |dao.conn.working| > 0 && dao.conn.working[|dao.conn.working| - 1] == created
    modifies dao.conn, dao.conn.db
    ensures updated == Some(created.(typeName := newName, updatedAt := Some(dao.conn.db.clock)))
    ensures dao.conn.db.clock == old(dao.conn.db.clock)
  {
    var rows := dao.conn.working;
    var changed := created.(typeName := newName);
    var _ := dao.Update(changed);
    RefreshedRow(rows, dao.conn.db.nextId, dao.conn.db.clock, created, changed);
    updated := dao.GetById(created.id.value);
  }

  /** The last row, rewritten by an update of its own record, is found by its
      id with the new columns and the update's stamp. */
  lemma RefreshedRow(rows: seq<ContractType>, nextId: int, now: Timestamp, created: ContractType, changed: ContractType)
    requires TableOk(rows, nextId, now) && |rows| > 0 && rows[|rows| - 1] == created
    requires IdTruthy(created) && changed == created.(typeName := changed.typeName)
    ensures Find(UpdateRows(rows, changed, now), ById(created.id.value))
            == Some(created.(typeName := changed.typeName, updatedAt := Some(now)))
  {
    UpdateFindsRewritten(rows, nextId, now, changed, |rows| - 1);
  }
}
