/** The contract-type endpoints of apis/contract_type.py, with the envelope
    main.py renders for an HTTPException. Each handler opens `db_transaction()`;
    the two read endpoints are decisions over the committed table, the create
    endpoint runs the DAO inside the scope. */
module ContractTypeApi {
  import opened Common
  import opened ContractTypes
  import opened Storage
  import opened ContractTypeDao
  import opened Scopes

  /** The request body `ContractTypeCreate`, after its defaults are filled in. */
  datatype CreateRequest = CreateRequest(
    typeCode: string,
    typeName: string,
    description: Option<string>,
    defaultWorkflow: string)

  /** Filling in the fields a request body left out. */
  function ParseCreateRequest(typeCode: string, typeName: string,
                              description: Option<string>, defaultWorkflow: Option<string>): (req: CreateRequest)
    ensures req.typeCode == typeCode && req.typeName == typeName && req.description == description
    ensures defaultWorkflow.Some? ==> req.defaultWorkflow == defaultWorkflow.value
    ensures defaultWorkflow.None? ==> req.defaultWorkflow == WorkflowValue(Standard)
  {
    CreateRequest(typeCode, typeName, description,
                  if defaultWorkflow.Some? then defaultWorkflow.value else "standard_contract_processing")
  }

  /** The JSON body of a response. */
  datatype Body =
    | ListBody(data: seq<map<string, Value>>, count: int)      // {"success": true, "data": [...], "count": n}
    | ItemBody(item: map<string, Value>)                       // {"success": true, "data": {...}}
    | CreatedBody(message: string, item: map<string, Value>)   // {"success": true, "message": ..., "data": {...}}
    | ErrorBody(error: string, statusCode: int)                // {"success": false, "error": ..., "status_code": n}

  datatype Reply = Reply(status: int, body: Body)

  /** The `success` field of the envelope. */
  predicate Succeeded(b: Body) {
    !b.ErrorBody?
  }

  const CreatedMessage := "Contract type created successfully"

  function NotFoundDetail(typeCode: string): string {
    "Contract type '" + typeCode + "' not found"
  }

  function ExistsDetail(typeCode: string): string {
    "Contract type '" + typeCode + "' already exists"
  }

  /** An exception leaving a handler: an HTTPException passes through
      unchanged, anything else becomes a 500 whose detail is the exception's
      text; main.py then renders the error envelope. */
  function HandlerFailure(e: Error): (r: Reply)
    ensures !Succeeded(r.body) && r.body.statusCode == r.status
    ensures e.HttpError? ==> r.status == e.status && r.body.error == e.detail
    ensures !e.HttpError? ==> r.status == 500 && r.body.error == Text(e)
  {
    match e
    case HttpError(status, detail) => Reply(status, ErrorBody(detail, status))
    case _ => Reply(500, ErrorBody(Text(e), 500))
  }

  function Dicts(ts: seq<ContractType>): (ds: seq<map<string, Value>>)
    ensures |ds| == |ts|
  {
    seq(|ts|, i requires 0 <= i < |ts| => ToDict(ts[i]))
  }

  /** `GET /contract-type/all` over the committed table. `fault` is the text of
      a storage exception that escaped the scope (connect, query, commit or
      rollback). */
  function GetAllContractTypes(committed: seq<ContractType>, fault: Option<string>): Reply {
    if fault.Some? then HandlerFailure(DriverError(fault.value))
    else
      var types := Listing(committed, true);
      Reply(200, ListBody(Dicts(types), |types|))
  }

  /** `GET /contract-type/{type_code}` over the committed table; the 404 is
      raised inside the scope, which rolls back. */
  function GetContractType(committed: seq<ContractType>, typeCode: string, fault: Option<string>): Reply {
    if fault.Some? then HandlerFailure(DriverError(fault.value))
    else
      var found := Find(committed, ByCode(typeCode));
      if found.None? then HandlerFailure(HttpError(404, NotFoundDetail(typeCode)))
      else Reply(200, ItemBody(ToDict(found.value)))
  }

  /** A storage failure always answers 500 with the failure's text. */
  lemma FaultIsServerError(committed: seq<ContractType>, typeCode: string, msg: string)
    ensures GetAllContractTypes(committed, Some(msg)) == Reply(500, ErrorBody(msg, 500))
    ensures GetContractType(committed, typeCode, Some(msg)) == Reply(500, ErrorBody(msg, 500))
  {
  }

  /** Every entry of the dictionaries of active records says it is active. */
  lemma DictsOfActive(ts: seq<ContractType>)
    requires forall t :: t in ts ==> t.isActive
    ensures forall i :: 0 <= i < |Dicts(ts)| ==> Dicts(ts)[i]["is_active"] == VBool(true)
  {
    forall i | 0 <= i < |Dicts(ts)| ensures Dicts(ts)[i]["is_active"] == VBool(true) {
      assert ts[i] in ts;
    }
  }

  /** Every record has its dictionary among the dictionaries. */
  lemma DictsCover(ts: seq<ContractType>)
    ensures forall t :: t in ts ==> ToDict(t) in Dicts(ts)
  {
    forall t | t in ts ensures ToDict(t) in Dicts(ts) {
      var i :| 0 <= i < |ts| && ts[i] == t;
      assert Dicts(ts)[i] == ToDict(t);
    }
  }

  /** The list endpoint answers with the active rows in listing order, each as
      its dictionary, and a count equal to the number of entries. */
  lemma GetAllReply(committed: seq<ContractType>)
    ensures var r := GetAllContractTypes(committed, None);
      && r.status == 200 && r.body.ListBody? && Succeeded(r.body)
      && r.body.count == |r.body.data|
      && r.body.data == Dicts(Listing(committed, true))
      && (forall i :: 0 <= i < |r.body.data| ==> r.body.data[i]["is_active"] == VBool(true))
      && (forall t :: t in committed && t.isActive ==> ToDict(t) in r.body.data)
  {
    var types := Listing(committed, true);
    ListingSpec(committed, true);
    DictsOfActive(types);
    DictsCover(types);
  }

  /** Get by code answers 404 exactly when no row has the code, naming the code
      in the detail; otherwise it answers with that row, which carries the code. */
  lemma GetReply(committed: seq<ContractType>, typeCode: string)
    ensures var r := GetContractType(committed, typeCode, None);
      && (r.status == 404 <==> forall t :: t in committed ==> t.typeCode != typeCode)
      && (r.status == 404 ==> r.body == ErrorBody(NotFoundDetail(typeCode), 404))
      && (r.status != 404 ==>
            && r.status == 200 && r.body.ItemBody?
            && r.body.item["type_code"] == VStr(typeCode)
            && r.body.item == ToDict(Find(committed, ByCode(typeCode)).value))
  {
  }

  /** The record the create endpoint inserts: the request's fields, the
      dataclass defaults for everything else. */
  function Requested(data: CreateRequest): (ct: ContractType)
    ensures ct.typeCode == data.typeCode && ct.typeName == data.typeName
    ensures ct.description == data.description && ct.defaultWorkflow == Some(data.defaultWorkflow)
    ensures ct.isActive && ct.sortOrder == 0 && ct.id == None
  {
    NewContractType(data.typeCode, data.typeName).(
      description := data.description, defaultWorkflow := Some(data.defaultWorkflow))
  }

  /** `POST /contract-type/`: inside `db_transaction()`, with a DAO that does not
      commit by itself, check for the code, then insert. A duplicate code
      answers 400 and inserts nothing; otherwise exactly one row is inserted
      and it becomes committed only through the scope's single commit. */
  method CreateContractType(db: Database, data: CreateRequest, commitAnswer: Outcome, rollbackAnswer: Outcome)
    returns (reply: Reply)
    requires db.Valid()
    modifies db
    ensures db.Valid() && db.clock == old(db.clock)
    ensures Find(old(db.committed), ByCode(data.typeCode)).Some? ==>
      && db.committed == old(db.committed) && db.nextId == old(db.nextId)
      && reply == HandlerFailure(if rollbackAnswer.Raised? then rollbackAnswer.error
                                 else HttpError(400, ExistsDetail(data.typeCode)))
    ensures Find(old(db.committed), ByCode(data.typeCode)).None? ==>
      var created := Requested(data).(id := Some(old(db.nextId)),
                                      createdAt := Some(db.clock), updatedAt := Some(db.clock));
      && db.nextId == old(db.nextId) + 1
      && (commitAnswer.Normal? ==>
            db.committed == old(db.committed) + [created]
            && reply == Reply(200, CreatedBody(CreatedMessage, ToDict(created))))
      && (commitAnswer.Raised? ==>
            db.committed == old(db.committed)
            && reply == HandlerFailure(if rollbackAnswer.Raised? then rollbackAnswer.error
                                       else commitAnswer.error))
  {
    var scope := new Scope.Transaction(db);
    var dao := new ContractTypeDAO(scope.conn, false);
    var existing := dao.GetByCode(data.typeCode);
    var body := Normal;
    var created := Requested(data);
    if existing.Some? {
      body := Raised(HttpError(400, ExistsDetail(data.typeCode)));
    } else {
      created := dao.Create(Requested(data));
    }
    var outcome := scope.Exit(body, commitAnswer, rollbackAnswer);
    if outcome.Normal? {
      reply := Reply(200, CreatedBody(CreatedMessage, ToDict(created)));
    } else {
      reply := HandlerFailure(outcome.error);
    }
  }
}
