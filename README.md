# contract_forge: contract types, their store and their transactions, in Dafny

contract_forge keeps a catalogue of *contract types* (sales, purchase,
franchise, ...) in the PostgreSQL table `contract_types` and serves it over a
small REST API. This project models the core of that service and proves what
it promises:

- **The record** (`ContractTypes`, contract_type.dfy): the `DefaultWorkflow`
  enum, the nine-field `ContractType` dataclass with its defaults, positional
  decoding of a database row (`from_db_row`), the JSON dictionary (`to_dict`)
  and `__repr__`.
- **The table and its connections** (`Storage`, storage.dfy): a `Database`
  object holding the committed rows in physical order, the id sequence and the
  server clock, and a `Connection` object whose transaction sees the committed
  rows plus its own pending writes until `commit`, `rollback` or `close`.
- **The DAO** (`ContractTypeDao`, dao.dfy): the class `ContractTypeDAO` with
  `get_all`, `get_by_code`, `get_by_id`, `create`, `update`, `delete` and
  `deactivate`, each proved against a function of the connection's rows; the
  `auto_commit` flag decides whether a write is committed at once.
- **The transaction scopes** (`Scopes`, database.dfy): `DatabaseManager.transaction`,
  `get_dao_connection`, `db_transaction` and the pooled `ConnectionPool.get_connection`
  as a `Scope` object entered by a constructor and left by `Exit`, and the
  process-wide `ConnectionPool` with `initialize`, `get_connection` and `close_all`.
- **The endpoints** (`ContractTypeApi`, api.dfy): `GET /contract-type/all`,
  `GET /contract-type/{type_code}` and `POST /contract-type/`, with the error
  envelope that main.py renders for an `HTTPException`.
- **The settings** (`Settings`, config.py → config.dfy): `validate`, the
  environment predicates, `API_DEBUG` parsing, and the PostgreSQL and Redis
  connection settings.
- **The frontend contract store** (`ContractStore`, contract_store.dfy): the
  zustand store's state `{contracts, selectedContract}` and its five actions.

Python code that raises is modelled with `Result`/`Outcome` values carrying an
`Error`; how the caller's block inside a `with` ended, and how the driver's
`commit()` and `rollback()` answer, are parameters of `Scope.Exit`. The server
clock is the `clock` field of `Database`, an abstract timestamp that
`Database.Tick` moves forward. `CURRENT_TIMESTAMP` is the start of the
transaction: a connection records in `txStart` the clock at the first statement
after connect, commit or rollback, and every write of that transaction is
stamped with it. Ids come from the sequence `nextId`, which rollbacks do not
rewind.

`POST /contract-type/` answers 200, because its route sets no `status_code`.
A unique-constraint violation raised by the insert would reach the handler's
`except Exception` and answer 500 (apis/contract_type.py:127-129); the model
has no path on which the insert itself fails (see "Left out").

## Model

| member | source | states |
|---|---|---|
| Common.DigitsRoundTrip | models/contract_type.py:91 | the decimal digits an f-string prints for a natural number read back as that number |
| Common.NatDigitsParse | config.py:31 | the digits of a natural number parse back as that number |
| Common.NegativeDecimalParse | config.py:31 | a minus sign before the digits of a positive number parses back as its negation |
| Common.DecimalRoundTrip | config.py:31 | the text an f-string prints for any integer (sign included) parses back to the integer |
| ContractTypes.WorkflowValue | models/contract_type.py:14-18 | the value of each workflow member; WorkflowRoundTrip states that it and ParseWorkflow are inverse |
| ContractTypes.ParseWorkflow | models/contract_type.py:14-18 | lookup of a workflow member by value; WorkflowRoundTrip states that each of the three strings names exactly its member |
| ContractTypes.WorkflowRoundTrip | models/contract_type.py:14-18 | lookup by value and the member's value are inverse: each of the three strings names exactly its member |
| ContractTypes.NewContractType | models/contract_type.py:37-45 | a record built from code and name has no id, description, workflow or timestamps, is active and has sort order 0 |
| ContractTypes.ToRow | models/contract_type.py:126-129 | the stored row has the nine SELECT columns and each cell holds its column's kind |
| ContractTypes.FromDbRow | models/contract_type.py:58-68 | positional decoding of a row; FromDbRowOfToRow, FromDbRowPartial and RowOfFromDbRow state what it reads and which defaults it fills in |
| ContractTypes.FromDbRowOfToRow | models/contract_type.py:58-68 | decoding the row stored for a record gives that record back |
| ContractTypes.FromDbRowPartial | models/contract_type.py:58-68 | a short row is read positionally; every trailing field it lacks takes the dataclass default (None, True or 0) |
| ContractTypes.RowOfFromDbRow | models/contract_type.py:58-68 | re-storing a decoded row gives back each cell it had and the default for each column it lacked |
| ContractTypes.ToDict | models/contract_type.py:77-87 | the JSON dictionary of a record; DictFollowsColumns and ToDictOfRow state its keys and values |
| ContractTypes.DictFollowsColumns | models/contract_type.py:77-87 | the dictionary has exactly the nine column names as keys, each with the value of that column |
| ContractTypes.ToDictOfRow | models/contract_type.py:58-87 | `to_dict(from_db_row(row))` keys are the nine columns and each holds the row's cell or the default substituted for it |
| ContractTypes.Repr | models/contract_type.py:89-91 | `__repr__`; ReprShowsCodeAndName states that it shows the code and the name |
| ContractTypes.ReprShowsCodeAndName | models/contract_type.py:89-91 | the representation contains the record's type code and type name |
| Storage.Connection.Connect | utils/database.py:15-18 | a new connection sees exactly the committed rows and has nothing pending |
| Storage.Connection.Begin | models/contract_type.py:261 | the first statement of a transaction fixes its CURRENT_TIMESTAMP to the clock of that moment; later statements of the same transaction read the same time |
| Storage.Stamp | models/contract_type.py:207-263 | CURRENT_TIMESTAMP: the start of the transaction once begun, the clock at the statement that begins it; the UPDATE sets `updated_at` to it, and the INSERT supplies no timestamps, so the model assumes the table defaults `created_at` and `updated_at` to CURRENT_TIMESTAMP (the schema is not part of the source); StampsWithinTransaction and UpdateRefreshesStamp state its consequences |
| Storage.Connection.Commit | utils/database.py:39 | the pending writes become the committed table |
| Storage.Connection.Rollback | utils/database.py:41 | the pending writes are discarded; the committed table is unchanged |
| Storage.Connection.Close | utils/database.py:44 | the connection closes and whatever was pending is lost |
| ContractTypeDao.StrLeTotal | models/contract_type.py:136 | the text order on type codes is total |
| ContractTypeDao.StrLeTrans | models/contract_type.py:136 | the text order on type codes is transitive |
| ContractTypeDao.KeyLeTotal | models/contract_type.py:136 | the (sort_order, type_code) order is total |
| ContractTypeDao.KeyLeTrans | models/contract_type.py:136 | the (sort_order, type_code) order is transitive |
| ContractTypeDao.Insert | models/contract_type.py:136 | inserting into the ordered result keeps every row with its multiplicity |
| ContractTypeDao.InsertSorted | models/contract_type.py:136 | inserting into an ordered listing keeps it ordered |
| ContractTypeDao.SortByKey | models/contract_type.py:136 | ORDER BY returns a permutation of the selected rows |
| ContractTypeDao.SortByKeySorted | models/contract_type.py:136 | ORDER BY sort_order, type_code returns the rows ordered by that key |
| ContractTypeDao.ActiveRows | models/contract_type.py:133-134 | `WHERE is_active = TRUE` keeps exactly the active rows and adds none |
| ContractTypeDao.Listing | models/contract_type.py:126-142 | the SELECT ... ORDER BY of `get_all`; ListingSpec states its order, its rows and its filter |
| ContractTypeDao.ListingSpec | models/contract_type.py:126-142 | the listing is ordered, is a permutation of the selected rows, and with `active_only` holds exactly the active rows |
| ContractTypeDao.ActiveListingWithinAll | models/contract_type.py:133-134 | the active listing is a sub-multiset of the full listing and no longer |
| ContractTypeDao.Find | models/contract_type.py:156-168 | `fetchone` finds a row that has the code (or id), and nothing exactly when no row has it |
| ContractTypeDao.FindIsFirst | models/contract_type.py:165 | `fetchone` answers with the first matching row in table order |
| ContractTypeDao.FindByOwnId | models/contract_type.py:182-194 | ids being distinct, looking a stored row up by its id finds that row |
| ContractTypeDao.UpdateRows | models/contract_type.py:253-263 | UPDATE ... WHERE id keeps the number of rows |
| ContractTypeDao.DeleteRows | models/contract_type.py:296-297 | DELETE WHERE id removes exactly the rows with that id and keeps every other |
| ContractTypeDao.DeactivateRows | models/contract_type.py:320-327 | the soft delete keeps the number of rows; DeactivateFindsRewritten and DeactivateKeepsOthers state that it only clears `is_active` and stamps `updated_at` on the row with the id |
| ContractTypeDao.DeleteKeepsTable | models/contract_type.py:296-297 | deleting keeps ids distinct and drawn from the sequence |
| ContractTypeDao.DeleteThenGetById | models/contract_type.py:284-306 | after `delete(id)`, `get_by_id(id)` finds nothing |
| ContractTypeDao.UpdateKeepsIds | models/contract_type.py:253-263 | the update never changes a row's id |
| ContractTypeDao.UpdateFindsRewritten | models/contract_type.py:253-263 | the row with the record's id is found again, with the six columns replaced and `updated_at` stamped |
| ContractTypeDao.UpdateKeepsOthers | models/contract_type.py:253-263 | looking up any other id finds the same row as before the update |
| ContractTypeDao.UpdateThenGetById | models/contract_type.py:238-282 | `update` rewrites the six columns and `updated_at` of the row with its id, keeps id and `created_at`, changes no other row, and changes nothing when no row has the id |
| ContractTypeDao.DeactivatedRows | models/contract_type.py:320-325 | after the soft delete every row with the id is inactive and no id moves |
| ContractTypeDao.DeactivateFindsRewritten | models/contract_type.py:320-327 | the row with the id is found where it was, with `is_active` false, `updated_at` the stamp and every other column as before |
| ContractTypeDao.DeactivateKeepsOthers | models/contract_type.py:320-327 | looking up any other id finds the same row as before the soft delete |
| ContractTypeDao.DeactivateThenList | models/contract_type.py:308-335 | after `deactivate(id)` the row is found by id exactly as before except `is_active` false and `updated_at` stamped; it is absent from the active listing and present in the full one |
| ContractTypeDao.CreateThenGet | models/contract_type.py:196-236 | the created record is what `get_by_id` of its new id returns, and what `get_by_code` returns when the code was new |
| ContractTypeDao.ContractTypeDAO.constructor | models/contract_type.py:103-112 | the DAO keeps the given connection and `auto_commit` flag |
| ContractTypeDao.ContractTypeDAO.GetAll | models/contract_type.py:114-142 | the decoded rows are the connection's listing: ordered, with exactly the (active) rows it sees; the transaction is begun if none was, and nothing is committed, rolled back or closed |
| ContractTypeDao.ContractTypeDAO.GetByCode | models/contract_type.py:144-168 | the first row with the code, or None exactly when no visible row has the code; nothing is committed, rolled back or closed |
| ContractTypeDao.ContractTypeDAO.GetById | models/contract_type.py:170-194 | the first row with the id, or None exactly when no visible row has the id; nothing is committed, rolled back or closed |
| ContractTypeDao.ContractTypeDAO.Create | models/contract_type.py:196-236 | the record comes back with the next sequence id and the transaction's start time as both timestamps, is appended to the transaction's rows, and is committed iff `auto_commit`; never rolled back or closed |
| ContractTypeDao.ContractTypeDAO.Update | models/contract_type.py:238-282 | a falsy id (None or 0) raises ValueError before touching the connection; otherwise the row with the id is rewritten with `updated_at` the transaction's start time, the answer is whether one existed, the write is committed iff `auto_commit`, and the connection is neither rolled back nor closed |
| ContractTypeDao.ContractTypeDAO.Delete | models/contract_type.py:284-306 | removes the rows with the id, answers whether one existed, commits iff `auto_commit`, neither rolls back nor closes |
| ContractTypeDao.ContractTypeDAO.Deactivate | models/contract_type.py:308-335 | marks the row with the id inactive and stamps `updated_at` with the transaction's start time, answers whether one existed, commits iff `auto_commit`, neither rolls back nor closes |
| ContractTypeDao.StampsWithinTransaction | models/contract_type.py:196-236 | two records created in one transaction get the same timestamps, the transaction's start, even when the clock moves between the inserts |
| ContractTypeDao.UpdateRefreshesStamp | models/contract_type.py:238-282 | an update committed in a later transaction, after the clock moved, stamps `updated_at` later than `created_at` and keeps `created_at` |
| ContractTypeDao.UpdateLast | models/contract_type.py:238-282 | updating the last inserted record under `auto_commit` between transactions makes `get_by_id` return it with the new columns and the current clock as `updated_at` |
| ContractTypeDao.RefreshedRow | models/contract_type.py:253-263 | the rewritten last row is found by its id with the new columns and the update's stamp |
| Scopes.ExitOutcome | utils/database.py:37-44 | the block's exception is re-raised unchanged unless the rollback raised; a failing commit is rolled back and re-raised; the scope ends normally iff the block did and the commit (when made) succeeded |
| Scopes.Scope.Transaction | utils/database.py:20-44 | a fresh connection seeing the committed rows, to be committed on success |
| Scopes.Scope.DaoConnection | utils/database.py:46-74 | like `transaction`, except that with `auto_commit` the scope never commits |
| Scopes.Scope.Borrowed | utils/database.py:123-138 | a borrowed connection seeing the committed rows, committed on success and handed back to its pool |
| Scopes.Scope.Exit | utils/database.py:36-138 | pending writes become committed exactly when the commit succeeds (a connection already closed refuses commit and rollback); otherwise the committed table is as before and nothing stays pending; an unpooled connection is closed once; a pooled one is handed back once, the pool's idle count growing by one exactly when it keeps the connection, and when the pool was closed meanwhile `putconn` raises PoolError in place of the scope's own outcome |
| Scopes.DriverAnswer | utils/database.py:130-135 | a driver call on an open connection answers as the driver does; on a closed one it raises "connection already closed" |
| Scopes.ConnectionPool.constructor | utils/database.py:111 | a class with no pool yet |
| Scopes.ConnectionPool.Initialize | utils/database.py:113-121 | creates the pool with the given bounds, `minconn` idle connections and none lent, only when there is none; a second call changes nothing |
| Scopes.ConnectionPool.GetConnection | utils/database.py:123-130 | initialises lazily with bounds (1, 10); a closed pool refuses with PoolError; with no idle connection and `maxconn` lent it refuses with "connection pool exhausted"; otherwise lends a connection seeing the committed rows and records it as lent |
| Scopes.ConnectionPool.PutConn | utils/database.py:138 | a closed pool raises PoolError and changes nothing; otherwise the connection stops being lent, is kept open with nothing pending while fewer than `minconn` are idle, and is closed beyond that |
| Scopes.ConnectionPool.CloseAll | utils/database.py:140-144 | without a pool nothing happens; an open pool is closed together with every connection it lent; a pool already closed raises PoolError |
| Scopes.CloseAllInsideBlock | utils/database.py:123-144 | closing the pool inside a `get_connection` block commits nothing, makes leaving the block raise PoolError whatever the block did, and a second `close_all` raises PoolError |
| Scopes.BorrowTwice | utils/database.py:123-138 | with the default bounds, the connection handed back after a normal block waits in the pool and the next `get_connection` reuses it: one connection lent, none idle |
| ContractTypeApi.ParseCreateRequest | apis/contract_type.py:22-27 | a request without description or workflow gets None and `standard_contract_processing` |
| ContractTypeApi.HandlerFailure | apis/contract_type.py:125-129 | an HTTPException keeps its status and detail; any other exception answers 500 with its text; the envelope says `success: false` and repeats the status |
| ContractTypeApi.GetAllContractTypes | apis/contract_type.py:34-55 | the list endpoint; GetAllReply and FaultIsServerError state its answers |
| ContractTypeApi.GetContractType | apis/contract_type.py:58-85 | the get-by-code endpoint; GetReply and FaultIsServerError state its answers |
| ContractTypeApi.FaultIsServerError | apis/contract_type.py:53-55 | a storage failure makes both read endpoints answer 500 with the failure's text |
| ContractTypeApi.GetAllReply | apis/contract_type.py:34-51 | the list answer holds, in listing order, the dictionary of every active row and only those, with `count` equal to the number of entries |
| ContractTypeApi.Dicts | apis/contract_type.py:49 | one dictionary per record |
| ContractTypeApi.DictsOfActive | apis/contract_type.py:49 | dictionaries of active records all say `is_active: true` |
| ContractTypeApi.DictsCover | apis/contract_type.py:49 | every record's dictionary is in the list |
| ContractTypeApi.GetReply | apis/contract_type.py:58-79 | 404 with "Contract type '<code>' not found" exactly when no row has the code; otherwise 200 with the first such row's dictionary |
| ContractTypeApi.Requested | apis/contract_type.py:109-114 | the inserted record carries the request's fields, is active and has sort order 0 |
| ContractTypeApi.CreateContractType | apis/contract_type.py:88-129 | a duplicate code answers 400 "already exists" and commits nothing; otherwise one record with the next id is inserted and committed by the scope's single commit, or nothing is committed and the failure answers 500 |
| Settings.Lower | config.py:74 | lowering keeps the length |
| Settings.LowerEquals | config.py:100-110 | comparing the lowered text with a lowercase word is comparing with the word ignoring case |
| Settings.ParseApiDebug | config.py:74 | API_DEBUG from the variable's text; ApiDebugSpec states when it is on |
| Settings.ApiDebugSpec | config.py:74 | API_DEBUG is on iff its text is "true" in any case, and on when unset |
| Settings.IsProduction | config.py:98-100 | `is_production`; EnvironmentSpec states it is a case-insensitive comparison with "production" |
| Settings.IsDevelopment | config.py:103-105 | `is_development`; EnvironmentSpec states it is a case-insensitive comparison with "development" |
| Settings.IsTesting | config.py:108-110 | `is_testing`; EnvironmentSpec states it is a case-insensitive comparison with "testing" |
| Settings.EnvironmentSpec | config.py:97-110 | each environment predicate is a case-insensitive comparison and at most one holds |
| Settings.ValidationErrors | config.py:113-128 | the errors a configuration has; ValidationErrorsSpec states each error's condition and their order |
| Settings.ValidationErrorsSpec | config.py:112-128 | the password error iff the password is empty; the secret-key and debug errors iff in production with the default key / debug on; nothing else outside production; at most three, no repeats, in fixed order |
| Settings.DefaultConfigSpec | config.py:22-79 | with nothing set the environment is development, debug is on, and validation reports only the missing password |
| Settings.Validate | config.py:112-128 | the appended error list is the configuration's list of errors |
| Settings.GetRedisConfig | config.py:52-63 | host, port, db and `decode_responses: true` always; `password` iff one is set and non-empty |
| Settings.SplitAt | config.py:31 | splitting at the first separator: the head lacks it and the parts rebuild the text |
| Settings.SplitAtJoin | config.py:31 | a head without the separator is found again by splitting |
| Settings.ParseJoinedUrl | config.py:31 | a URL assembled from separator-free parts reads back into those parts |
| Settings.DatabaseUrl | config.py:29-31 | `get_database_url`; DatabaseUrlRoundTrip states that the URL reads back into the five settings |
| Settings.DatabaseConfig | config.py:34-42 | `get_database_config`; DatabaseConfigAgreesWithUrl states its keys and that it agrees with the URL |
| Settings.DatabaseUrlRoundTrip | config.py:28-31 | reading the URL back gives user, password, host, port and database |
| Settings.DatabaseConfigAgreesWithUrl | config.py:33-42 | the dictionary has exactly the five connect keys, holding the values the URL carries |
| ContractStore.Merge | frontend/src/store/contractStore.ts:33 | `{ ...c, ...updates }`; MergeSpec states, key by key, its spread semantics |
| ContractStore.MergeSpec | frontend/src/store/contractStore.ts:33 | each of the twelve keys takes the patch's value when the patch has the key and keeps the old value otherwise; an empty patch changes nothing; a patch applied twice equals once |
| ContractStore.AddContract | frontend/src/store/contractStore.ts:24-27 | `addContract`; AddContractSpec states its result |
| ContractStore.UpdateContract | frontend/src/store/contractStore.ts:30-40 | `updateContract`; UpdateContractSpec and UpdateUnknownId state its result |
| ContractStore.RemoveContract | frontend/src/store/contractStore.ts:43-48 | `removeContract`; RemoveContractSpec states its result |
| ContractStore.SelectContract | frontend/src/store/contractStore.ts:51-54 | `selectContract`; SelectContractSpec states its result |
| ContractStore.ClearSelection | frontend/src/store/contractStore.ts:57-60 | `clearSelection`; ClearSelectionSpec states its result |
| ContractStore.AddContractSpec | frontend/src/store/contractStore.ts:24-27 | the contract goes in front of the whole old list; the selection is unchanged |
| ContractStore.UpdateContractSpec | frontend/src/store/contractStore.ts:30-40 | length and order kept; the patch merged into exactly the contracts with the id; the selection merged iff it has the id |
| ContractStore.UpdateUnknownId | frontend/src/store/contractStore.ts:32-34 | an update for an id no contract has leaves the list as it was |
| ContractStore.Without | frontend/src/store/contractStore.ts:45 | `contracts.filter(c => c.id !== id)`; WithoutMembers, WithoutCounts, WithoutConcat and WithoutNoop state what it keeps and in which order |
| ContractStore.WithoutConcat | frontend/src/store/contractStore.ts:45 | filtering distributes over concatenation, so kept contracts keep their relative order |
| ContractStore.WithoutMembers | frontend/src/store/contractStore.ts:45 | exactly the contracts without the id are kept |
| ContractStore.WithoutCounts | frontend/src/store/contractStore.ts:45 | each kept contract appears as often as before |
| ContractStore.WithoutNoop | frontend/src/store/contractStore.ts:45 | filtering never lengthens the list and changes nothing when no contract has the id |
| ContractStore.RemoveContractSpec | frontend/src/store/contractStore.ts:43-48 | removes every contract with the id, keeps the rest in order, clears the selection iff it has the id |
| ContractStore.FindById | frontend/src/store/contractStore.ts:53 | `contracts.find(c => c.id === id)`; FindByIdSpec states that it returns the first contract with the id |
| ContractStore.FindByIdSpec | frontend/src/store/contractStore.ts:53 | `find` returns the first contract with the id, and nothing iff none has it |
| ContractStore.SelectContractSpec | frontend/src/store/contractStore.ts:51-54 | the list is unchanged; the selection is a listed contract with the id, or null iff there is none |
| ContractStore.ClearSelectionSpec | frontend/src/store/contractStore.ts:57-60 | the list is unchanged and the selection is null |
| ContractStore.ApplyKeepsSelection | frontend/src/store/contractStore.ts:24-60 | each of the five actions keeps the selection null or equal to a listed contract |
| ContractStore.RunKeepsSelection | frontend/src/store/contractStore.ts:20-60 | from the initial state, any sequence of actions leaves the selection null or equal to a listed contract |

## Left out

- SQL text, cursors, `rowcount` and the psycopg2 driver are replaced by the row functions of `ContractTypeDao`; the unique constraint on `type_code` is not part of the table invariant, so two rows may share a code (lookups then find the first).
- Concurrency: each transaction is modelled alone; a commit replaces the committed table with the connection's view, so interleaved transactions, isolation levels and the check-then-insert race of the create endpoint are not modelled.
- ContractTypeApi.CreateContractType: a storage failure raised by `psycopg2.connect` when the scope is entered (apis/contract_type.py:97, which the source answers with 500), or by the lookup or the insert itself (including a unique-constraint violation), is not a parameter; the commit and rollback answers are.
- ContractTypeDao.ContractTypeDAO.Create: the source writes id and timestamps back into the record passed in and returns that same object; the model returns the updated value, so aliasing of the caller's record is not captured.
- ContractTypeDao.ContractTypeDAO.Update, Delete, Deactivate and Create: a failure of the DAO's own `commit()` under `auto_commit` is not modelled.
- ContractTypeDao.ContractTypeDAO.GetAll, GetByCode, GetById, Create, Update, Delete, Deactivate: a statement that raises (a unique violation on insert or update, a lost connection) and a call on a closed connection (psycopg2's InterfaceError) are not modelled; each method requires an open connection and always completes. Inside a scope such a failure is what the `Raised` body passed to `Scopes.Scope.Exit` stands for.
- Timestamps are abstract clock points; `isoformat()` text in `to_dict` is not modelled (the dictionary holds the timestamp or null).
- ORDER BY on `type_code` uses code-point order of the text; a database collation may order differently. Rows with equal keys keep table order.
- Scopes.ConnectionPool.GetConnection: a reused idle connection is modelled as a new connection object on the committed rows, so the identity of pooled connections is not captured; a failing connect, `putconn` of a connection with an unknown transaction status, and the pool's thread safety are not modelled.
- Scopes.Scope.Exit: a block that closes its own unpooled connection is not modelled, because the scope requires that connection open; a pooled connection must be one its pool has lent, and closed if the pool has been closed since, which is what `close_all` ensures.
- Exceptions that are not `Exception` subclasses (KeyboardInterrupt, GeneratorExit) skip the rollback in the source; the model treats every raised block alike.
- Settings.Lower: lowers ASCII letters only, whereas Python's `str.lower` is full Unicode case mapping.
- Settings.DatabaseUrlRoundTrip: holds only when user and host contain no ':' and the password no '@'; the source does not percent-encode the parts.
- Configuration I/O: reading `.env` and the environment, `int(...)` parsing of ports, and `print_config` are not modelled; `Config` is a record of already-parsed values, and the settings no modelled helper reads (LOG_LEVEL, API_HOST, API_PORT, JWT_*, N8N_*, OPENAI_*) are not part of it.
- Logging calls in the endpoints and the DAO are I/O and left out.
- Request validation by FastAPI (a body missing `type_code` answers 422) and routing are framework behaviour.
- `DatabaseManager.get_connection` is the plain `Storage.Connection.Connect`.
- Scopes.Scope.Transaction and DaoConnection: `psycopg2.connect` runs before the `try` (utils/database.py:36, 65, 92), so a failing connect raises with nothing to roll back or close; the constructors always connect, and that failure is not modelled.
- ContractStore.ApplyKeepsSelection and RunKeepsSelection: the selection equals a listed contract in value; after `updateContract` the source's selection is a separate object from the list element, so reference identity is not what is proved.
- ContractStore.Merge: a patch that sets a required property explicitly to `undefined` is not modelled; `fileSize` and `progress` (JavaScript numbers) are reals the store never inspects.
- The frontend apart from the store (components, hooks, services) is UI and network code.
