/** The market registry of Penrose as a value: its storage, and what each owner call does
    to it. A call that reverts leaves the storage as it was. */
module Registry {
  import opened Evm
  import opened Lists

  datatype MasterContract = MasterContract(location: Address, risk: nat)

  /** The registry's storage variables. Flags are kept as the set of flagged addresses. */
  datatype State = State(
    owner: Address,
    singularityMasterContracts: seq<MasterContract>,
    bigbangMasterContracts: seq<MasterContract>,
    isSingularityMasterContractRegistered: set<Address>,
    isBigBangMasterContractRegistered: set<Address>,
    isMarketRegistered: set<Address>,
    allBigBangMarkets: seq<Address>,
    isOriginRegistered: set<Address>,
    allOriginsMarkets: seq<Address>,
    masterContractOf: Words<Address>,
    clonesOf: Arrays)

  function Empty(owner: Address): State {
    State(owner, [], [], {}, {}, {}, [], {}, [], map[], map[])
  }

  /** What creating a clone produced: its address (0 when the creation failed), whether its
      initialiser returned, and whether it has code. */
  datatype Creation = Creation(clone: Address, initSucceeds: bool, hasCode: bool)

  datatype Call =
    | RegisterSingularityMasterContract(master: Address, risk: nat)
    | RegisterBigBangMasterContract(master: Address, risk: nat)
    | Deploy(master: Address, created: Creation)
    | RegisterSingularity(master: Address, created: Creation)
    | RegisterBigBang(master: Address, created: Creation)
    | AddSingularity(master: Address, market: Address)
    | AddBigBang(master: Address, market: Address)
    | AddOriginsMarket(market: Address)
    | UnregisterContract(market: Address, marketType: nat)

  // The market types UnregisterContract tells apart; every other number is treated as a
  // Singularity.
  const BIG_BANG: nat := 1
  const ORIGINS: nat := 2

  function MasterOf(r: State, x: Address): Address {
    Load(r.masterContractOf, x)
  }

  function Clones(r: State, mc: Address): seq<Address> {
    LoadArray(r.clonesOf, mc)
  }

  predicate IsMaster(r: State, mc: Address) {
    mc in r.isSingularityMasterContractRegistered || mc in r.isBigBangMasterContractRegistered
  }

  /** Lists x under mc, in both directions. */
  function Link(r: State, mc: Address, x: Address): (next: State)
    ensures forall m :: Clones(next, m) == Clones(r, m) + if m == mc then [x] else []
    ensures forall y :: MasterOf(next, y) == if y == x then mc else MasterOf(r, y)
  {
    r.(masterContractOf := Store(r.masterContractOf, x, mc),
       clonesOf := StoreArray(r.clonesOf, mc, Clones(r, mc) + [x]))
  }

  function DeployClone(r: State, mc: Address, created: Creation): Result<State> {
    if mc == ZERO_ADDRESS then Revert(NoMasterContract)
    else if created.clone == ZERO_ADDRESS || !created.initSucceeds then Revert(InitFailed)
    else Ok(Link(r, mc, created.clone))
  }

  /** Removes x from the list of its type; Singularity markets have none. */
  function RemoveFromIndex(r: State, x: Address, marketType: nat): Result<State> {
    if marketType == BIG_BANG then
      if x !in r.allBigBangMarkets then Revert(AddressNotValid)
      else Ok(r.(allBigBangMarkets := RemoveOne(r.allBigBangMarkets, x)))
    else if marketType == ORIGINS then
      if x !in r.allOriginsMarkets then Revert(AddressNotValid)
      else Ok(r.(allOriginsMarkets := RemoveOne(r.allOriginsMarkets, x),
                 isOriginRegistered := r.isOriginRegistered - {x}))
    else Ok(r)
  }

  function RemoveFromClones(r: State, mc: Address, x: Address): Result<State> {
    if x !in Clones(r, mc) then Revert(AddressNotValid)
    else Ok(r.(clonesOf := StoreArray(r.clonesOf, mc, RemoveOne(Clones(r, mc), x))))
  }

  function Unregister(r: State, x: Address, marketType: nat): Result<State> {
    var cleared := r.(isMarketRegistered := r.isMarketRegistered - {x},
                      masterContractOf := Store(r.masterContractOf, x, ZERO_ADDRESS));
    var indexed :- RemoveFromIndex(cleared, x, marketType);
    if marketType == ORIGINS then Ok(indexed) else RemoveFromClones(indexed, MasterOf(r, x), x)
  }

  /** What an owner's call does. */
  function Step(r: State, call: Call): Result<State> {
    match call
    case RegisterSingularityMasterContract(mc, risk) =>
      if mc in r.isSingularityMasterContractRegistered then Revert(Registered)
      else Ok(r.(singularityMasterContracts := r.singularityMasterContracts + [MasterContract(mc, risk)],
                 isSingularityMasterContractRegistered := r.isSingularityMasterContractRegistered + {mc}))
    case RegisterBigBangMasterContract(mc, risk) =>
      if mc in r.isBigBangMasterContractRegistered then Revert(Registered)
      else Ok(r.(bigbangMasterContracts := r.bigbangMasterContracts + [MasterContract(mc, risk)],
                 isBigBangMasterContractRegistered := r.isBigBangMasterContractRegistered + {mc}))
    case Deploy(mc, created) => DeployClone(r, mc, created)
    case RegisterSingularity(mc, created) =>
      if mc !in r.isSingularityMasterContractRegistered then Revert(NotRegistered)
      else
        var d :- DeployClone(r, mc, created);
        if !created.hasCode then Revert(Failed)
        else Ok(d.(isMarketRegistered := d.isMarketRegistered + {created.clone}))
    case RegisterBigBang(mc, created) =>
      if mc !in r.isBigBangMasterContractRegistered then Revert(NotRegistered)
      else
        var d :- DeployClone(r, mc, created);
        if !created.hasCode then Revert(Failed)
        else Ok(d.(isMarketRegistered := d.isMarketRegistered + {created.clone},
                   allBigBangMarkets := d.allBigBangMarkets + [created.clone]))
    case AddSingularity(mc, x) =>
      if mc !in r.isSingularityMasterContractRegistered then Revert(NotRegistered)
      else if x in r.isMarketRegistered then Revert(AlreadyAdded)
      else Ok(Link(r, mc, x).(isMarketRegistered := r.isMarketRegistered + {x}))
    case AddBigBang(mc, x) =>
      if mc !in r.isBigBangMasterContractRegistered then Revert(NotRegistered)
      else if x in r.isMarketRegistered then Revert(AlreadyAdded)
      else Ok(Link(r, mc, x).(isMarketRegistered := r.isMarketRegistered + {x},
                              allBigBangMarkets := r.allBigBangMarkets + [x]))
    case AddOriginsMarket(x) =>
      if x in r.isOriginRegistered then Revert(AlreadyAdded)
      else Ok(r.(isOriginRegistered := r.isOriginRegistered + {x},
                 allOriginsMarkets := r.allOriginsMarkets + [x]))
    case UnregisterContract(x, marketType) => Unregister(r, x, marketType)
  }

  /** A transaction: anyone may send a call, only the owner's is carried out. */
  datatype Tx = Tx(sender: Address, call: Call)

  function Exec(r: State, tx: Tx): Result<State> {
    if tx.sender != r.owner then Revert(NotOwner) else Step(r, tx.call)
  }

  /** The state after a transaction, reverted or not. */
  function Apply(r: State, tx: Tx): State {
    match Exec(r, tx)
    case Ok(next) => next
    case Revert(_) => r
  }

  function Run(r: State, txs: seq<Tx>): State
    decreases |txs|
  {
    if txs == [] then r else Run(Apply(r, txs[0]), txs[1..])
  }

  /** All clones of the listed master contracts, master by master. */
  function Flatten(r: State, masters: seq<MasterContract>): seq<Address> {
    if masters == [] then []
    else Flatten(r, masters[..|masters| - 1]) + Clones(r, masters[|masters| - 1].location)
  }
}
