/** The contract-type record of models/contract_type.py: the workflow enum, the
    dataclass with its defaults, decoding of a positional database row,
    the JSON dictionary and the debugging representation. */
module ContractTypes {
  import opened Common

  /** The three workflows a contract type may default to (a `str` enum). */
  datatype DefaultWorkflow = Standard | Quick | Strict

  /** The string each enum member stands for. */
  function WorkflowValue(w: DefaultWorkflow): string {
    match w
    case Standard => "standard_contract_processing"
    case Quick => "quick_approval"
    case Strict => "strict_approval"
  }

  /** The enum's lookup by value, `DefaultWorkflow(s)`; None where Python raises ValueError. */
  function ParseWorkflow(s: string): Option<DefaultWorkflow> {
    if s == "standard_contract_processing" then Some(Standard)
    else if s == "quick_approval" then Some(Quick)
    else if s == "strict_approval" then Some(Strict)
    else None
  }

  /** Lookup by value and the value of a member are inverse to each other. */
  lemma WorkflowRoundTrip(w: DefaultWorkflow, s: string)
    ensures ParseWorkflow(WorkflowValue(w)) == Some(w)
    ensures ParseWorkflow(s) == Some(w) <==> WorkflowValue(w) == s
  {
  }

  /** One contract type; `id` and the timestamps are assigned by storage. */
  datatype ContractType = ContractType(
    id: Option<int>,
    typeCode: string,
    typeName: string,
    description: Option<string>,
    defaultWorkflow: Option<string>,
    isActive: bool,
    sortOrder: int,
    createdAt: Option<Timestamp>,
    updatedAt: Option<Timestamp>)

  /** `ContractType(type_code=..., type_name=...)`: every other field takes its default. */
  function NewContractType(typeCode: string, typeName: string): (ct: ContractType)
    ensures ct.typeCode == typeCode && ct.typeName == typeName
    ensures ct.id == None && ct.description == None && ct.defaultWorkflow == None
    ensures ct.isActive && ct.sortOrder == 0
    ensures ct.createdAt == None && ct.updatedAt == None
  {
    ContractType(None, typeCode, typeName, None, None, true, 0, None, None)
  }

  /** The columns of contract_types in the order every SELECT of the DAO lists
      them, which is also the key order of `to_dict`. */
  const Columns: seq<string> := [
    "id", "type_code", "type_name", "description", "default_workflow",
    "is_active", "sort_order", "created_at", "updated_at"]

  /** The kind of value column `i` of the table holds (NULL where the field is Optional). */
  predicate CellFits(i: nat, v: Value) {
    if i == 0 then v.VInt? || v.VNull?
    else if i == 1 || i == 2 then v.VStr?
    else if i == 3 || i == 4 then v.VStr? || v.VNull?
    else if i == 5 then v.VBool?
    else if i == 6 then v.VInt?
    else if i == 7 || i == 8 then v.VTime? || v.VNull?
    else true
  }

  /** A row `from_db_row` can decode: it reads the first three columns
      unconditionally, and each column it reads holds its column's kind. */
  predicate WellTypedRow(row: seq<Value>) {
    |row| >= 3 && forall i :: 0 <= i < |row| ==> CellFits(i, row[i])
  }

  /** `row[i] if len(row) > i else default` */
  function CellOr(row: seq<Value>, i: nat, default: Value): Value {
    if |row| > i then row[i] else default
  }

  function AsOptInt(v: Value): Option<int> {
    if v.VInt? then Some(v.i) else None
  }

  function AsOptStr(v: Value): Option<string> {
    if v.VStr? then Some(v.s) else None
  }

  function AsOptTime(v: Value): Option<Timestamp> {
    if v.VTime? then Some(v.t) else None
  }

  function OfOptInt(x: Option<int>): Value {
    if x.Some? then VInt(x.value) else VNull
  }

  function OfOptStr(x: Option<string>): Value {
    if x.Some? then VStr(x.value) else VNull
  }

  function OfOptTime(x: Option<Timestamp>): Value {
    if x.Some? then VTime(x.value) else VNull
  }

  /** `ContractType.from_db_row`: positional decoding; a column past the end of
      the row takes the dataclass default. */
  function FromDbRow(row: seq<Value>): ContractType
    requires WellTypedRow(row)
  {
    ContractType(
      id := AsOptInt(row[0]),
      typeCode := row[1].s,
      typeName := row[2].s,
      description := AsOptStr(CellOr(row, 3, VNull)),
      defaultWorkflow := AsOptStr(CellOr(row, 4, VNull)),
      isActive := CellOr(row, 5, VBool(true)).b,
      sortOrder := CellOr(row, 6, VInt(0)).i,
      createdAt := AsOptTime(CellOr(row, 7, VNull)),
      updatedAt := AsOptTime(CellOr(row, 8, VNull)))
  }

  /** The value `from_db_row` substitutes for a trailing column the row lacks. */
  function TrailingDefault(i: nat): Value
    requires 3 <= i < 9
  {
    if i == 5 then VBool(true) else if i == 6 then VInt(0) else VNull
  }

  /** The full nine-column row the table stores for a record (the SELECT list). */
  function ToRow(ct: ContractType): (row: seq<Value>)
    ensures |row| == |Columns| && WellTypedRow(row)
  {
    [OfOptInt(ct.id), VStr(ct.typeCode), VStr(ct.typeName),
     OfOptStr(ct.description), OfOptStr(ct.defaultWorkflow),
     VBool(ct.isActive), VInt(ct.sortOrder),
     OfOptTime(ct.createdAt), OfOptTime(ct.updatedAt)]
  }

  /** `to_dict`: the nine fields under their column names; a timestamp stays
      abstract (its isoformat text is not modelled) and is null when unset. */
  function ToDict(ct: ContractType): map<string, Value> {
    map[
      "id" := OfOptInt(ct.id),
      "type_code" := VStr(ct.typeCode),
      "type_name" := VStr(ct.typeName),
      "description" := OfOptStr(ct.description),
      "default_workflow" := OfOptStr(ct.defaultWorkflow),
      "is_active" := VBool(ct.isActive),
      "sort_order" := VInt(ct.sortOrder),
      "created_at" := OfOptTime(ct.createdAt),
      "updated_at" := OfOptTime(ct.updatedAt)]
  }

  /** Decoding a stored row gives back the record it was stored from. */
  lemma FromDbRowOfToRow(ct: ContractType)
    ensures FromDbRow(ToRow(ct)) == ct
  {
  }

  /** A short row: its columns are taken positionally, the missing trailing
      fields get the dataclass defaults. */
  lemma FromDbRowPartial(row: seq<Value>)
    requires WellTypedRow(row)
    ensures var ct := FromDbRow(row);
      && ct.typeCode == row[1].s && ct.typeName == row[2].s
      && (|row| <= 3 ==> ct.description == None)
      && (|row| <= 4 ==> ct.defaultWorkflow == None)
      && (|row| <= 5 ==> ct.isActive)
      && (|row| <= 6 ==> ct.sortOrder == 0)
      && (|row| <= 7 ==> ct.createdAt == None)
      && (|row| <= 8 ==> ct.updatedAt == None)
  {
  }

  /** `to_dict` emits exactly the nine columns, each under its own name, with
      the value the stored row holds in that column. */
  lemma DictFollowsColumns(ct: ContractType)
    ensures ToDict(ct).Keys == set c | c in Columns
    ensures forall i :: 0 <= i < |Columns| ==> ToDict(ct)[Columns[i]] == ToRow(ct)[i]
  {
  }

  /** Decoding a row and storing the record again gives the row back, padded
      with the defaults for the columns it lacked (and cut to nine columns). */
  lemma RowOfFromDbRow(row: seq<Value>)
    requires WellTypedRow(row)
    ensures forall i :: 0 <= i < |row| && i < |Columns| ==> ToRow(FromDbRow(row))[i] == row[i]
    ensures forall i :: |row| <= i < |Columns| ==> ToRow(FromDbRow(row))[i] == TrailingDefault(i)
  {
  }

  /** `to_dict(from_db_row(row))` has exactly the nine column names as keys and
      reproduces, under each column's name, the row's value for that column or
      the default substituted for it. */
  lemma ToDictOfRow(row: seq<Value>)
    requires WellTypedRow(row)
    ensures ToDict(FromDbRow(row)).Keys == set c | c in Columns
    ensures forall i :: 0 <= i < |row| && i < |Columns| ==> ToDict(FromDbRow(row))[Columns[i]] == row[i]
    ensures forall i :: |row| <= i < |Columns| ==>
      ToDict(FromDbRow(row))[Columns[i]] == TrailingDefault(i)
  {
    DictFollowsColumns(FromDbRow(row));
    RowOfFromDbRow(row);
  }

  /** `__repr__`: `ContractType(id=<id>, code='<code>', name='<name>')`. */
  function Repr(ct: ContractType): string {
    "ContractType(id=" + (if ct.id.Some? then Decimal(ct.id.value) else "None")
    + ", code='" + ct.typeCode + "', name='" + ct.typeName + "')"
  }

  predicate IsInfix(part: string, whole: string) {
    exists k :: 0 <= k <= |whole| - |part| && whole[k..][..|part|] == part
  }

  /** The representation shows the record's code and name. */
  lemma ReprShowsCodeAndName(ct: ContractType)
    ensures IsInfix(ct.typeCode, Repr(ct)) && IsInfix(ct.typeName, Repr(ct))
  {
    var r := Repr(ct);
    var head := "ContractType(id=" + (if ct.id.Some? then Decimal(ct.id.value) else "None") + ", code='";
    var mid := "', name='";
    assert r == head + ct.typeCode + mid + ct.typeName + "')";
    var k1 := |head|;
    assert r[k1..][..|ct.typeCode|] == ct.typeCode;
    var k2 := |head| + |ct.typeCode| + |mid|;
    assert r[k2..][..|ct.typeName|] == ct.typeName;
  }
}
