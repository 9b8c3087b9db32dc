/** The frontend's contract store (frontend/src/store/contractStore.ts): a list of
    contracts and an optional selected contract, changed only by five actions,
    each of which builds the next state from the previous one. */
module ContractStore {
  import opened Common

  datatype ContractStatus = Pending | Processing | Completed | Failed

  datatype RiskLevel = Low | Medium | High

  /** `Contract` of types/contract.ts; optional properties are `Option`s. */
  datatype Contract = Contract(
    id: string,
    filename: string,
    fileFormat: string,
    fileSize: real,
    status: ContractStatus,
    progress: real,
    currentStep: Option<string>,
    riskLevel: Option<RiskLevel>,
    uploadTime: string,
    completedTime: Option<string>,
    uploadedBy: string,
    reportUrl: Option<string>)

  /** `Partial<Contract>`: `None` where the key is absent. For an optional
      property the key may be present and `undefined`, which is `Some(None)`. */
  datatype ContractPatch = ContractPatch(
    id: Option<string>,
    filename: Option<string>,
    fileFormat: Option<string>,
    fileSize: Option<real>,
    status: Option<ContractStatus>,
    progress: Option<real>,
    currentStep: Option<Option<string>>,
    riskLevel: Option<Option<RiskLevel>>,
    uploadTime: Option<string>,
    completedTime: Option<Option<string>>,
    uploadedBy: Option<string>,
    reportUrl: Option<Option<string>>)

  const EmptyPatch := ContractPatch(None, None, None, None, None, None, None, None, None, None, None, None)

  function Or<T>(update: Option<T>, current: T): T {
    if update.Some? then update.value else current
  }

  /** `{ ...c, ...updates }`: each key present in the patch overrides. */
  function Merge(c: Contract, u: ContractPatch): Contract {
    Contract(
      Or(u.id, c.id), Or(u.filename, c.filename), Or(u.fileFormat, c.fileFormat),
      Or(u.fileSize, c.fileSize), Or(u.status, c.status), Or(u.progress, c.progress),
      Or(u.currentStep, c.currentStep), Or(u.riskLevel, c.riskLevel),
      Or(u.uploadTime, c.uploadTime), Or(u.completedTime, c.completedTime),
      Or(u.uploadedBy, c.uploadedBy), Or(u.reportUrl, c.reportUrl))
  }

  /** Spreading an empty patch changes nothing, spreading a patch twice is
      spreading it once, and every key takes the patch's value when the patch
      has it and keeps its old value otherwise. */
  lemma MergeSpec(c: Contract, u: ContractPatch)
    ensures Merge(c, EmptyPatch) == c
    ensures Merge(Merge(c, u), u) == Merge(c, u)
    ensures var m := Merge(c, u);
      && m.id == (if u.id.Some? then u.id.value else c.id)
      && m.filename == (if u.filename.Some? then u.filename.value else c.filename)
      && m.fileFormat == (if u.fileFormat.Some? then u.fileFormat.value else c.fileFormat)
      && m.fileSize == (if u.fileSize.Some? then u.fileSize.value else c.fileSize)
      && m.status == (if u.status.Some? then u.status.value else c.status)
      && m.progress == (if u.progress.Some? then u.progress.value else c.progress)
      && m.currentStep == (if u.currentStep.Some? then u.currentStep.value else c.currentStep)
      && m.riskLevel == (if u.riskLevel.Some? then u.riskLevel.value else c.riskLevel)
      && m.uploadTime == (if u.uploadTime.Some? then u.uploadTime.value else c.uploadTime)
      && m.completedTime == (if u.completedTime.Some? then u.completedTime.value else c.completedTime)
      && m.uploadedBy == (if u.uploadedBy.Some? then u.uploadedBy.value else c.uploadedBy)
      && m.reportUrl == (if u.reportUrl.Some? then u.reportUrl.value else c.reportUrl)
  {
  }

  datatype StoreState = StoreState(contracts: seq<Contract>, selected: Option<Contract>)

  /** `contracts: []`, `selectedContract: null`. */
  const Initial := StoreState([], None)

  // ---------------------------------------------------------------------
  // The five actions
  // ---------------------------------------------------------------------

  /** `addContract`: the new contract goes first. */
  function AddContract(s: StoreState, c: Contract): StoreState {
    s.(contracts := [c] + s.contracts)
  }

  /** `contracts.map(c => c.id === id ? { ...c, ...updates } : c)` */
  function MergeWhere(cs: seq<Contract>, id: string, u: ContractPatch): seq<Contract> {
    seq(|cs|, i requires 0 <= i < |cs| => if cs[i].id == id then Merge(cs[i], u) else cs[i])
  }

  /** `updateContract`: merge into every contract with the id, and into the
      selection when it has the id. */
  function UpdateContract(s: StoreState, id: string, u: ContractPatch): StoreState {
    StoreState(
      MergeWhere(s.contracts, id, u),
      if s.selected.Some? && s.selected.value.id == id then Some(Merge(s.selected.value, u)) else s.selected)
  }

  /** `contracts.filter(c => c.id !== id)` */
  function Without(cs: seq<Contract>, id: string): seq<Contract> {
    if cs == [] then []
    else (if cs[0].id != id then [cs[0]] else []) + Without(cs[1..], id)
  }

  /** `removeContract`: drop every contract with the id; drop the selection too
      when it has the id. */
  function RemoveContract(s: StoreState, id: string): StoreState {
    StoreState(
      Without(s.contracts, id),
      if s.selected.Some? && s.selected.value.id == id then None else s.selected)
  }

  /** `contracts.find(c => c.id === id)` */
  function FindById(cs: seq<Contract>, id: string): Option<Contract> {
    if cs == [] then None
    else if cs[0].id == id then Some(cs[0])
    else FindById(cs[1..], id)
  }

  /** `selectContract`: the first contract with the id, or null. */
  function SelectContract(s: StoreState, id: string): StoreState {
    s.(selected := FindById(s.contracts, id))
  }

  /** `clearSelection` */
  function ClearSelection(s: StoreState): StoreState {
    s.(selected := None)
  }

  // ---------------------------------------------------------------------
  // What each action promises
  // ---------------------------------------------------------------------

  /** Adding puts the contract in front of the old list, whole and in order,
      and leaves the selection alone. */
  lemma AddContractSpec(s: StoreState, c: Contract)
    ensures var t := AddContract(s, c);
      && |t.contracts| == |s.contracts| + 1 && t.contracts[0] == c
      && t.contracts[1..] == s.contracts
      && t.selected == s.selected
  {
  }

  /** Updating keeps length and order, merges the patch into exactly the
      contracts with the id, and into the selection exactly when it has the id. */
  lemma UpdateContractSpec(s: StoreState, id: string, u: ContractPatch)
    ensures var t := UpdateContract(s, id, u);
      && |t.contracts| == |s.contracts|
      && (forall i :: 0 <= i < |s.contracts| && s.contracts[i].id == id ==>
            t.contracts[i] == Merge(s.contracts[i], u))
      && (forall i :: 0 <= i < |s.contracts| && s.contracts[i].id != id ==>
            t.contracts[i] == s.contracts[i])
      && (s.selected.Some? && s.selected.value.id == id ==> t.selected == Some(Merge(s.selected.value, u)))
      && (!(s.selected.Some? && s.selected.value.id == id) ==> t.selected == s.selected)
  {
  }

  /** An update for an id no contract has changes no contract. */
  lemma UpdateUnknownId(s: StoreState, id: string, u: ContractPatch)
    requires forall c :: c in s.contracts ==> c.id != id
    ensures UpdateContract(s, id, u).contracts == s.contracts
  {
    var t := UpdateContract(s, id, u).contracts;
    forall i | 0 <= i < |t| ensures t[i] == s.contracts[i] {
      assert s.contracts[i] in s.contracts;
    }
  }

  /** Filtering one part after another is filtering the whole: the kept
      contracts stay in their relative order. */
  lemma {:induction false} WithoutConcat(a: seq<Contract>, b: seq<Contract>, id: string)
    ensures Without(a + b, id) == Without(a, id) + Without(b, id)
  {
    if a != [] {
      WithoutConcat(a[1..], b, id);
      assert (a + b)[1..] == a[1..] + b;
    } else {
      assert a + b == b;
    }
  }

  /** Filtering keeps exactly the contracts without the id. */
  lemma {:induction false} WithoutMembers(cs: seq<Contract>, id: string)
    ensures forall c :: c in Without(cs, id) <==> c in cs && c.id != id
  {
    if cs != [] {
      WithoutMembers(cs[1..], id);
      assert cs == [cs[0]] + cs[1..];
    }
  }

  /** Each kept contract is kept as often as the list holds it. */
  lemma {:induction false} WithoutCounts(cs: seq<Contract>, id: string)
    ensures forall c: Contract :: c.id != id ==> multiset(Without(cs, id))[c] == multiset(cs)[c]
  {
    if cs != [] {
      WithoutCounts(cs[1..], id);
      assert cs == [cs[0]] + cs[1..];
    }
  }

  /** Filtering never lengthens, and changes nothing when no contract has the id. */
  lemma {:induction false} WithoutNoop(cs: seq<Contract>, id: string)
    ensures |Without(cs, id)| <= |cs|
    ensures (forall c :: c in cs ==> c.id != id) ==> Without(cs, id) == cs
  {
    if cs != [] {
      WithoutNoop(cs[1..], id);
      if forall c :: c in cs ==> c.id != id {
        assert cs[0] in cs;
        assert forall c :: c in cs[1..] ==> c in cs;
        assert [cs[0]] + cs[1..] == cs;
      }
    }
  }

  /** Removing drops every contract with the id and keeps the others in order;
      the selection is cleared exactly when it has the id. */
  lemma RemoveContractSpec(s: StoreState, id: string)
    ensures var t := RemoveContract(s, id);
      && (forall c :: c in t.contracts <==> c in s.contracts && c.id != id)
      && (forall a, b :: s.contracts == a + b ==> t.contracts == Without(a, id) + Without(b, id))
      && (t.selected.None? <==> s.selected.None? || s.selected.value.id == id)
      && (t.selected.Some? ==> t.selected == s.selected)
  {
    WithoutMembers(s.contracts, id);
    forall a, b | s.contracts == a + b ensures Without(s.contracts, id) == Without(a, id) + Without(b, id) {
      WithoutConcat(a, b, id);
    }
  }

  /** The contract `find` returns is the first one with the id; there is none
      exactly when no contract has the id. */
  lemma {:induction false} FindByIdSpec(cs: seq<Contract>, id: string)
    ensures FindById(cs, id).None? <==> forall c :: c in cs ==> c.id != id
    ensures FindById(cs, id).Some? ==>
      exists k :: && 0 <= k < |cs| && cs[k] == FindById(cs, id).value
                  && cs[k].id == id && forall j :: 0 <= j < k ==> cs[j].id != id
  {
    if cs != [] {
      FindByIdSpec(cs[1..], id);
      assert cs == [cs[0]] + cs[1..];
      if cs[0].id != id && FindById(cs, id).Some? {
        var k :| 0 <= k < |cs[1..]| && cs[1..][k] == FindById(cs, id).value
          && cs[1..][k].id == id && forall j :: 0 <= j < k ==> cs[1..][j].id != id;
        assert cs[k + 1] == cs[1..][k];
        assert forall j :: 1 <= j < k + 1 ==> cs[j] == cs[1..][j - 1];
      }
    }
  }

  /** Selecting leaves the list alone and selects the first contract with the id. */
  lemma SelectContractSpec(s: StoreState, id: string)
    ensures var t := SelectContract(s, id);
      && t.contracts == s.contracts
      && (t.selected.None? <==> forall c :: c in s.contracts ==> c.id != id)
      && (t.selected.Some? ==> t.selected.value in s.contracts && t.selected.value.id == id)
  {
    FindByIdSpec(s.contracts, id);
  }

  lemma ClearSelectionSpec(s: StoreState)
    ensures var t := ClearSelection(s);
      t.contracts == s.contracts && t.selected.None?
  {
  }

  // ---------------------------------------------------------------------
  // The selection invariant
  // ---------------------------------------------------------------------

  /** The selection is null or a contract of the list (equal in value). */
  predicate SelectionInList(s: StoreState) {
    s.selected.None? || s.selected.value in s.contracts
  }

  datatype Action =
    | Add(contract: Contract)
    | Update(id: string, updates: ContractPatch)
    | Remove(id: string)
    | Select(id: string)
    | Clear

  function Apply(s: StoreState, a: Action): StoreState {
    match a
    case Add(c) => AddContract(s, c)
    case Update(id, u) => UpdateContract(s, id, u)
    case Remove(id) => RemoveContract(s, id)
    case Select(id) => SelectContract(s, id)
    case Clear => ClearSelection(s)
  }

  /** Every action keeps the selection among the listed contracts. */
  lemma ApplyKeepsSelection(s: StoreState, a: Action)
    requires SelectionInList(s)
    ensures SelectionInList(Apply(s, a))
  {
    match a
    case Add(c) =>
    case Update(id, u) =>
      if s.selected.Some? {
        var k :| 0 <= k < |s.contracts| && s.contracts[k] == s.selected.value;
        assert UpdateContract(s, id, u).contracts[k] == UpdateContract(s, id, u).selected.value;
      }
    case Remove(id) =>
      WithoutMembers(s.contracts, id);
    case Select(id) =>
      FindByIdSpec(s.contracts, id);
    case Clear =>
  }

  /** The state after a sequence of actions, starting from the initial state. */
  function Run(actions: seq<Action>): StoreState {
    if actions == [] then Initial
    else Apply(Run(actions[..|actions| - 1]), actions[|actions| - 1])
  }

  /** However the store is driven, the selection is null or a listed contract. */
  lemma {:induction false} RunKeepsSelection(actions: seq<Action>)
    ensures SelectionInList(Run(actions))
  {
    if actions != [] {
      RunKeepsSelection(actions[..|actions| - 1]);
      ApplyKeepsSelection(Run(actions[..|actions| - 1]), actions[|actions| - 1]);
    }
  }
}
