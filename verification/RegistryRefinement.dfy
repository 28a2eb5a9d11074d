/** The registry refines one map from markets to their kind and master contract; what
    follows for whole runs, for the market views, and for adding and removing a market. */
module RegistryRefinement {
  import opened Evm
  import opened Lists
  import opened Registry
  import opened RegistryInvariants

  datatype Kind = SingularityMarket | BigBangMarket | BareClone

  datatype Entry = Entry(kind: Kind, master: Address)

  /** The registry as its users think of it. */
  datatype Model = Model(
    owner: Address,
    singularityMasters: set<MasterContract>,
    bigBangMasters: set<MasterContract>,
    markets: map<Address, Entry>,
    origins: set<Address>)

  function KindOf(r: State, x: Address): Kind {
    if x !in r.isMarketRegistered then BareClone
    else if x in r.allBigBangMarkets then BigBangMarket
    else SingularityMarket
  }

  function MasterSet(list: seq<MasterContract>): set<MasterContract> {
    set m | m in list
  }

  function Abs(r: State): Model {
    Model(r.owner,
          MasterSet(r.singularityMasterContracts),
          MasterSet(r.bigbangMasterContracts),
          map x | x in r.masterContractOf :: Entry(KindOf(r, x), r.masterContractOf[x]),
          r.isOriginRegistered)
  }

  predicate HasMaster(masters: set<MasterContract>, mc: Address) {
    exists m :: m in masters && m.location == mc
  }

  predicate IsMarket(a: Model, x: Address) {
    x in a.markets && a.markets[x].kind != BareClone
  }

  function ModelCreate(a: Model, kind: Kind, mc: Address, created: Creation): Result<Model> {
    if mc == ZERO_ADDRESS then Revert(NoMasterContract)
    else if created.clone == ZERO_ADDRESS || !created.initSucceeds then Revert(InitFailed)
    else if kind != BareClone && !created.hasCode then Revert(Failed)
    else Ok(a.(markets := a.markets[created.clone := Entry(kind, mc)]))
  }

  function ModelAdd(a: Model, kind: Kind, mc: Address, x: Address): Result<Model> {
    if IsMarket(a, x) then Revert(AlreadyAdded)
    else Ok(a.(markets := a.markets[x := Entry(kind, mc)]))
  }

  /** The calls on the map: one key is written or removed, no list is searched. */
  function ModelStep(a: Model, call: Call): Result<Model> {
    match call
    case RegisterSingularityMasterContract(mc, risk) =>
      if HasMaster(a.singularityMasters, mc) then Revert(Registered)
      else Ok(a.(singularityMasters := a.singularityMasters + {MasterContract(mc, risk)}))
    case RegisterBigBangMasterContract(mc, risk) =>
      if HasMaster(a.bigBangMasters, mc) then Revert(Registered)
      else Ok(a.(bigBangMasters := a.bigBangMasters + {MasterContract(mc, risk)}))
    case Deploy(mc, created) => ModelCreate(a, BareClone, mc, created)
    case RegisterSingularity(mc, created) =>
      if !HasMaster(a.singularityMasters, mc) then Revert(NotRegistered)
      else ModelCreate(a, SingularityMarket, mc, created)
    case RegisterBigBang(mc, created) =>
      if !HasMaster(a.bigBangMasters, mc) then Revert(NotRegistered)
      else ModelCreate(a, BigBangMarket, mc, created)
    case AddSingularity(mc, x) =>
      if !HasMaster(a.singularityMasters, mc) then Revert(NotRegistered)
      else ModelAdd(a, SingularityMarket, mc, x)
    case AddBigBang(mc, x) =>
      if !HasMaster(a.bigBangMasters, mc) then Revert(NotRegistered)
      else ModelAdd(a, BigBangMarket, mc, x)
    case AddOriginsMarket(x) =>
      if x in a.origins then Revert(AlreadyAdded)
      else Ok(a.(origins := a.origins + {x}))
    case UnregisterContract(x, t) =>
      if t == ORIGINS then
        if x !in a.origins then Revert(AddressNotValid) else Ok(a.(origins := a.origins - {x}))
      else if x !in a.markets || (t == BIG_BANG && a.markets[x].kind != BigBangMarket) then
        Revert(AddressNotValid)
      else Ok(a.(markets := a.markets - {x}))
  }

  function ModelRun(a: Model, txs: seq<Tx>): Model
    decreases |txs|
  {
    if txs == [] then a
    else
      var next := if txs[0].sender != a.owner then Revert(NotOwner) else ModelStep(a, txs[0].call);
      ModelRun(if next.Ok? then next.value else a, txs[1..])
  }

  lemma MastersRead(list: seq<MasterContract>, flags: set<Address>, mc: Address)
    requires Indexes(Locations(list), flags)
    ensures mc in flags <==> HasMaster(MasterSet(list), mc)
    ensures NoDup(list)
  {
    var locations := Locations(list);
    if mc in flags {
      var i :| 0 <= i < |locations| && locations[i] == mc;
      assert list[i] in list;
    }
    if HasMaster(MasterSet(list), mc) {
      var i :| 0 <= i < |list| && list[i].location == mc;
      assert locations[i] == mc;
    }
    forall i, j | 0 <= i < j < |list| ensures list[i] != list[j] {
      assert locations[i] != locations[j];
    }
  }

  lemma LinkSimulates(r: State, next: State, mc: Address, x: Address)
    requires mc != ZERO_ADDRESS && next.masterContractOf == Store(r.masterContractOf, x, mc)
    requires forall y :: y != x ==> KindOf(next, y) == KindOf(r, y)
    ensures Abs(next).markets == Abs(r).markets[x := Entry(KindOf(next, x), mc)]
  {
  }

  /** One call: registry and map succeed together, fail together with the same error, and
      stay related. */
  lemma StepSimulates(r: State, call: Call)
    requires Faithful(r)
    requires Step(r, call).Ok? ==> WellTyped(r, call)
    ensures match Step(r, call)
            case Ok(next) => Faithful(next) && ModelStep(Abs(r), call) == Ok(Abs(next))
            case Revert(e) => ModelStep(Abs(r), call) == Revert(e)
  {
    if Step(r, call).Ok? {
      AgreementExactly(r, call);
    }
    match call
    case Deploy(_, _) => CreateSimulates(r, call);
    case RegisterSingularity(_, _) => CreateSimulates(r, call);
    case RegisterBigBang(_, _) => CreateSimulates(r, call);
    case AddSingularity(_, _) => AddSimulates(r, call);
    case AddBigBang(_, _) => AddSimulates(r, call);
    case UnregisterContract(x, t) => UnregisterSimulates(r, x, t);
    case RegisterSingularityMasterContract(_, _) => RegisterSimulates(r, call);
    case RegisterBigBangMasterContract(_, _) => RegisterSimulates(r, call);
    case AddOriginsMarket(_) => assert Step(r, call).Ok? ==> Abs(Step(r, call).value).markets == Abs(r).markets;
  }

  lemma RegisterSimulates(r: State, call: Call)
    requires Faithful(r)
    requires call.RegisterSingularityMasterContract? || call.RegisterBigBangMasterContract?
    ensures match Step(r, call)
            case Ok(next) => ModelStep(Abs(r), call) == Ok(Abs(next))
            case Revert(e) => ModelStep(Abs(r), call) == Revert(e)
  {
    MastersRead(r.singularityMasterContracts, r.isSingularityMasterContractRegistered, call.master);
    MastersRead(r.bigbangMasterContracts, r.isBigBangMasterContractRegistered, call.master);
    if Step(r, call).Ok? {
      var m := MasterContract(call.master, call.risk);
      assert MasterSet(r.singularityMasterContracts + [m]) == MasterSet(r.singularityMasterContracts) + {m};
      assert MasterSet(r.bigbangMasterContracts + [m]) == MasterSet(r.bigbangMasterContracts) + {m};
      assert Abs(Step(r, call).value).markets == Abs(r).markets;
    }
  }

  lemma CreateSimulates(r: State, call: Call)
    requires Faithful(r)
    requires call.Deploy? || call.RegisterSingularity? || call.RegisterBigBang?
    requires Step(r, call).Ok? ==> WellTyped(r, call)
    ensures match Step(r, call)
            case Ok(next) => ModelStep(Abs(r), call) == Ok(Abs(next))
            case Revert(e) => ModelStep(Abs(r), call) == Revert(e)
  {
    MastersRead(r.singularityMasterContracts, r.isSingularityMasterContractRegistered, call.master);
    MastersRead(r.bigbangMasterContracts, r.isBigBangMasterContractRegistered, call.master);
    if Step(r, call).Ok? {
      LinkSimulates(r, Step(r, call).value, call.master, call.created.clone);
    }
  }

  lemma AddSimulates(r: State, call: Call)
    requires Faithful(r)
    requires call.AddSingularity? || call.AddBigBang?
    requires Step(r, call).Ok? ==> WellTyped(r, call)
    ensures match Step(r, call)
            case Ok(next) => ModelStep(Abs(r), call) == Ok(Abs(next))
            case Revert(e) => ModelStep(Abs(r), call) == Revert(e)
  {
    var x := call.market;
    assert x in r.masterContractOf <==> MasterOf(r, x) != ZERO_ADDRESS;
    MastersRead(r.singularityMasterContracts, r.isSingularityMasterContractRegistered, call.master);
    MastersRead(r.bigbangMasterContracts, r.isBigBangMasterContractRegistered, call.master);
    if Step(r, call).Ok? {
      LinkSimulates(r, Step(r, call).value, call.master, x);
    }
  }

  lemma UnregisterSimulates(r: State, x: Address, t: nat)
    requires Faithful(r)
    requires Unregister(r, x, t).Ok? ==> WellTyped(r, UnregisterContract(x, t))
    ensures match Unregister(r, x, t)
            case Ok(next) => ModelStep(Abs(r), UnregisterContract(x, t)) == Ok(Abs(next))
            case Revert(e) => ModelStep(Abs(r), UnregisterContract(x, t)) == Revert(e)
  {
    assert x in r.masterContractOf <==> MasterOf(r, x) != ZERO_ADDRESS;
    assert x in Clones(r, MasterOf(r, x)) <==> MasterOf(r, x) != ZERO_ADDRESS;
    if Unregister(r, x, t).Ok? {
      UnregisterAbs(r, x, t);
      assert MasterOf(r, x) == ZERO_ADDRESS ==> Abs(r).markets - {x} == Abs(r).markets;
    }
  }

  lemma UnregisterAbs(r: State, x: Address, t: nat)
    requires Faithful(r) && Unregister(r, x, t).Ok? && WellTyped(r, UnregisterContract(x, t))
    ensures Abs(Unregister(r, x, t).value)
            == Abs(r).(markets := Abs(r).markets - {x},
                       origins := if t == ORIGINS then Abs(r).origins - {x} else Abs(r).origins)
  {
    var next := Unregister(r, x, t).value;
    UnregisterKinds(r, x, t);
    assert next.masterContractOf == r.masterContractOf - {x};
    assert Abs(next).markets == Abs(r).markets - {x};
  }

  lemma UnregisterKinds(r: State, x: Address, t: nat)
    requires Unregister(r, x, t).Ok?
    ensures forall y :: y != x ==> KindOf(Unregister(r, x, t).value, y) == KindOf(r, y)
  {
    if t == BIG_BANG {
      forall y | y != x ensures KindOf(Unregister(r, x, t).value, y) == KindOf(r, y) {
        RemoveOneKeepsOthers(r.allBigBangMarkets, x, y);
      }
    }
  }

  /** Every call that goes through is well typed. */
  predicate TypedRun(r: State, txs: seq<Tx>)
    decreases |txs|
  {
    txs == [] ||
    (&& (Exec(r, txs[0]).Ok? ==> WellTyped(r, txs[0].call))
     && TypedRun(Apply(r, txs[0]), txs[1..]))
  }

  ghost predicate AlwaysFaithful(r: State, txs: seq<Tx>)
    decreases |txs|
  {
    Faithful(r) && (txs == [] || AlwaysFaithful(Apply(r, txs[0]), txs[1..]))
  }

  /** The indexes agree in every state of a run exactly when every call that goes through
      is well typed. */
  lemma {:induction false} RunAgreesExactly(r: State, txs: seq<Tx>)
    requires Faithful(r)
    ensures AlwaysFaithful(r, txs) <==> TypedRun(r, txs)
    decreases |txs|
  {
    if txs != [] {
      var next := Apply(r, txs[0]);
      if Exec(r, txs[0]).Ok? {
        AgreementExactly(r, txs[0].call);
      }
      if Faithful(next) {
        RunAgreesExactly(next, txs[1..]);
      } else {
        assert !AlwaysFaithful(next, txs[1..]);
      }
    }
  }

  /** Forward simulation of whole runs. */
  lemma {:induction false} RunSimulates(r: State, txs: seq<Tx>)
    requires Faithful(r) && TypedRun(r, txs)
    ensures Faithful(Run(r, txs))
    ensures Abs(Run(r, txs)) == ModelRun(Abs(r), txs)
    decreases |txs|
  {
    if txs != [] {
      if txs[0].sender == r.owner {
        StepSimulates(r, txs[0].call);
      }
      RunSimulates(Apply(r, txs[0]), txs[1..]);
    }
  }

  lemma EmptyIsFaithful(owner: Address)
    ensures Faithful(Empty(owner)) && Consistent(Empty(owner))
  {
  }

  /** What the map says about each index. */
  lemma ModelReadsIndexes(r: State, x: Address, mc: Address)
    requires Faithful(r)
    ensures x in r.isMarketRegistered <==> IsMarket(Abs(r), x)
    ensures x in r.allBigBangMarkets <==> x in Abs(r).markets && Abs(r).markets[x].kind == BigBangMarket
    ensures x in Clones(r, mc) <==> x in Abs(r).markets && Abs(r).markets[x].master == mc
    ensures MasterOf(r, x) == if x in Abs(r).markets then Abs(r).markets[x].master else ZERO_ADDRESS
    ensures NoDup(r.allBigBangMarkets) && NoDup(Clones(r, mc))
  {
    assert x in r.masterContractOf <==> MasterOf(r, x) != ZERO_ADDRESS;
  }

  lemma SameElementsSameMultiset<T>(s: seq<T>, t: seq<T>)
    requires NoDup(s) && NoDup(t)
    ensures multiset(s) == multiset(t) <==> forall x :: x in s <==> x in t
  {
    NoDupMultiset(s);
    NoDupMultiset(t);
    if forall x :: x in s <==> x in t {
      forall x ensures multiset(s)[x] == multiset(t)[x] {
        assert x in s <==> multiset(s)[x] > 0;
        assert x in t <==> multiset(t)[x] > 0;
      }
    } else {
      var x :| !(x in s <==> x in t);
      assert multiset(s)[x] != multiset(t)[x];
    }
  }

  /** Two lists of master contracts that make the same set. */
  lemma SameMasters(s: seq<MasterContract>, t: seq<MasterContract>, flags: set<Address>, flags': set<Address>)
    requires Indexes(Locations(s), flags) && Indexes(Locations(t), flags')
    requires MasterSet(s) == MasterSet(t)
    ensures multiset(s) == multiset(t) && flags == flags'
  {
    forall mc ensures mc in flags <==> mc in flags' {
      MastersRead(s, flags, mc);
      MastersRead(t, flags', mc);
    }
    MastersRead(s, flags, ZERO_ADDRESS);
    MastersRead(t, flags', ZERO_ADDRESS);
    forall m ensures m in s <==> m in t {
      assert m in s <==> m in MasterSet(s);
      assert m in t <==> m in MasterSet(t);
    }
    SameElementsSameMultiset(s, t);
  }

  /** Two registries with the same map differ at most in the order of their lists, the lists
      of master contracts with their risks among them. */
  lemma OnlyOrderIsHidden(r: State, s: State, mc: Address)
    requires Faithful(r) && Faithful(s) && Abs(r) == Abs(s)
    ensures multiset(r.singularityMasterContracts) == multiset(s.singularityMasterContracts)
    ensures multiset(r.bigbangMasterContracts) == multiset(s.bigbangMasterContracts)
    ensures multiset(r.allBigBangMarkets) == multiset(s.allBigBangMarkets)
    ensures multiset(r.allOriginsMarkets) == multiset(s.allOriginsMarkets)
    ensures multiset(Clones(r, mc)) == multiset(Clones(s, mc))
    ensures s.(singularityMasterContracts := r.singularityMasterContracts,
               bigbangMasterContracts := r.bigbangMasterContracts,
               allBigBangMarkets := r.allBigBangMarkets,
               allOriginsMarkets := r.allOriginsMarkets,
               clonesOf := r.clonesOf) == r
  {
    forall x
      ensures x in r.allBigBangMarkets <==> x in s.allBigBangMarkets
      ensures x in Clones(r, mc) <==> x in Clones(s, mc)
      ensures x in r.isMarketRegistered <==> x in s.isMarketRegistered
      ensures MasterOf(r, x) == MasterOf(s, x)
    {
      ModelReadsIndexes(r, x, mc);
      ModelReadsIndexes(s, x, mc);
    }
    SameElementsSameMultiset(r.allBigBangMarkets, s.allBigBangMarkets);
    SameElementsSameMultiset(r.allOriginsMarkets, s.allOriginsMarkets);
    SameElementsSameMultiset(Clones(r, mc), Clones(s, mc));
    SameWords(r.masterContractOf, s.masterContractOf);
    SameMasters(r.singularityMasterContracts, s.singularityMasterContracts,
                r.isSingularityMasterContractRegistered, s.isSingularityMasterContractRegistered);
    SameMasters(r.bigbangMasterContracts, s.bigbangMasterContracts,
                r.isBigBangMasterContractRegistered, s.isBigBangMasterContractRegistered);
    assert r.isMarketRegistered == s.isMarketRegistered;
  }

  /** A market view goes through its master contracts in their order. */
  lemma {:induction false} FlattenInOrder(r: State, masters: seq<MasterContract>, more: seq<MasterContract>)
    ensures Flatten(r, masters + more) == Flatten(r, masters) + Flatten(r, more)
    ensures forall m: MasterContract :: Flatten(r, [m]) == Clones(r, m.location)
    decreases |more|
  {
    if more == [] {
      assert masters + more == masters;
    } else {
      assert (masters + more)[..|masters + more| - 1] == masters + more[..|more| - 1];
      FlattenInOrder(r, masters, more[..|more| - 1]);
    }
    forall m: MasterContract ensures Flatten(r, [m]) == Clones(r, m.location) {
      assert [m][..0] == [];
    }
  }

  /** A market view over different master contracts never repeats a market. */
  lemma {:induction false} FlattenNoDup(r: State, masters: seq<MasterContract>)
    requires Inverse(r.masterContractOf, r.clonesOf) && NoDup(Locations(masters))
    ensures NoDup(Flatten(r, masters))
    ensures forall x :: x in Flatten(r, masters) <==>
                          MasterOf(r, x) != ZERO_ADDRESS && MasterOf(r, x) in Locations(masters)
  {
    if masters != [] {
      var init, last := masters[..|masters| - 1], masters[|masters| - 1];
      assert masters == init + [last];
      LocationsPush(init, last);
      assert Locations(init) == Locations(masters)[..|init|];
      FlattenNoDup(r, init);
      assert last.location !in Locations(init);
      AppendNoDup(Flatten(r, init), Clones(r, last.location));
    }
  }

  lemma AppendNoDup(s: seq<Address>, t: seq<Address>)
    requires NoDup(s) && NoDup(t) && forall x :: x in s ==> x !in t
    ensures NoDup(s + t)
  {
    forall i, j | 0 <= i < j < |s + t| ensures (s + t)[i] != (s + t)[j] {
      if i < |s| <= j {
        assert s[i] in s && t[j - |s|] in t;
      }
    }
  }

  /** The two ways to list the BigBang markets agree up to order exactly when nothing but a
      BigBang market was created or added under a BigBang master contract. */
  lemma BigBangIndexesAgreeExactly(r: State)
    requires Faithful(r)
    ensures NoDup(Flatten(r, r.bigbangMasterContracts)) && NoDup(Flatten(r, r.singularityMasterContracts))
    ensures multiset(Flatten(r, r.bigbangMasterContracts)) == multiset(r.allBigBangMarkets) <==>
              forall x :: MasterOf(r, x) in r.isBigBangMasterContractRegistered ==> KindOf(r, x) == BigBangMarket
  {
    FlattenNoDup(r, r.singularityMasterContracts);
    FlattenNoDup(r, r.bigbangMasterContracts);
    SameElementsSameMultiset(Flatten(r, r.bigbangMasterContracts), r.allBigBangMarkets);
  }

  /** No clone was created without being registered. */
  ghost predicate NoBareClones(r: State) {
    forall x :: MasterOf(r, x) != ZERO_ADDRESS ==> x in r.isMarketRegistered
  }

  predicate NoDeploy(txs: seq<Tx>) {
    forall i :: 0 <= i < |txs| ==> !txs[i].call.Deploy?
  }

  lemma StepKeepsNoBareClones(r: State, call: Call)
    requires NoBareClones(r) && !call.Deploy? && Step(r, call).Ok?
    ensures NoBareClones(Step(r, call).value)
  {
    var next := Step(r, call).value;
    forall x | MasterOf(next, x) != ZERO_ADDRESS ensures x in next.isMarketRegistered {
      assert MasterOf(r, x) != ZERO_ADDRESS ==> x in r.isMarketRegistered;
    }
  }

  lemma {:induction false} RunKeepsNoBareClones(r: State, txs: seq<Tx>)
    requires NoBareClones(r) && NoDeploy(txs)
    ensures NoBareClones(Run(r, txs))
    decreases |txs|
  {
    if txs != [] {
      assert !txs[0].call.Deploy?;
      if Exec(r, txs[0]).Ok? {
        StepKeepsNoBareClones(r, txs[0].call);
      }
      RunKeepsNoBareClones(Apply(r, txs[0]), txs[1..]);
    }
  }

  /** In a well-typed run without bare clones, and with no master contract in both families,
      bigBangMarkets() is a permutation of allBigBangMarkets. */
  lemma BigBangIndexesAgree(owner: Address, txs: seq<Tx>)
    requires TypedRun(Empty(owner), txs) && NoDeploy(txs)
    requires var r := Run(Empty(owner), txs);
             r.isSingularityMasterContractRegistered !! r.isBigBangMasterContractRegistered
    ensures var r := Run(Empty(owner), txs);
            multiset(Flatten(r, r.bigbangMasterContracts)) == multiset(r.allBigBangMarkets)
  {
    EmptyIsFaithful(owner);
    RunSimulates(Empty(owner), txs);
    RunKeepsNoBareClones(Empty(owner), txs);
    BigBangIndexesAgreeExactly(Run(Empty(owner), txs));
  }

  /** x is in no index that lets Penrose use it. */
  predicate CutOff(r: State, x: Address) {
    x !in r.isMarketRegistered && MasterOf(r, x) == ZERO_ADDRESS
  }

  predicate Introduces(call: Call, x: Address) {
    match call
    case Deploy(_, created) => created.clone == x
    case RegisterSingularity(_, created) => created.clone == x
    case RegisterBigBang(_, created) => created.clone == x
    case AddSingularity(_, market) => market == x
    case AddBigBang(_, market) => market == x
    case _ => false
  }

  lemma StepKeepsCutOff(r: State, call: Call, x: Address)
    requires CutOff(r, x) && !Introduces(call, x) && Step(r, call).Ok?
    ensures CutOff(Step(r, call).value, x)
  {
    match call
    case _ =>
  }

  lemma {:induction false} RunKeepsCutOff(r: State, txs: seq<Tx>, x: Address)
    requires CutOff(r, x)
    requires forall i :: 0 <= i < |txs| ==> !Introduces(txs[i].call, x)
    ensures CutOff(Run(r, txs), x)
    decreases |txs|
  {
    if txs != [] {
      assert !Introduces(txs[0].call, x);
      if Exec(r, txs[0]).Ok? {
        StepKeepsCutOff(r, txs[0].call, x);
      }
      RunKeepsCutOff(Apply(r, txs[0]), txs[1..], x);
    }
  }

  /** A removed market, whatever type it was removed with, stays cut off until it is added
      or created again. */
  lemma RemovalCutsOff(r: State, x: Address, t: nat, txs: seq<Tx>)
    requires Unregister(r, x, t).Ok?
    requires forall i :: 0 <= i < |txs| ==> !Introduces(txs[i].call, x)
    ensures CutOff(Run(Unregister(r, x, t).value, txs), x)
  {
    RunKeepsCutOff(Unregister(r, x, t).value, txs, x);
  }

  /** What a removal takes, in any state: one occurrence of x from each list it touches, and
      nothing from any other list. */
  lemma RemovalTakesOne(r: State, x: Address, t: nat, mc: Address)
    requires Unregister(r, x, t).Ok?
    ensures var next := Unregister(r, x, t).value;
            && multiset(next.allBigBangMarkets)
               == multiset(r.allBigBangMarkets) - (if t == 1 then multiset{x} else multiset{})
            && multiset(next.allOriginsMarkets)
               == multiset(r.allOriginsMarkets) - (if t == 2 then multiset{x} else multiset{})
            && multiset(Clones(next, mc))
               == multiset(Clones(r, mc)) - (if t != 2 && mc == MasterOf(r, x) then multiset{x} else multiset{})
            && next.isMarketRegistered == r.isMarketRegistered - {x}
            && (forall y :: MasterOf(next, y) == if y == x then ZERO_ADDRESS else MasterOf(r, y))
            && next.singularityMasterContracts == r.singularityMasterContracts
            && next.bigbangMasterContracts == r.bigbangMasterContracts
  {
    var next := Unregister(r, x, t).value;
    assert next.allBigBangMarkets == if t == 1 then RemoveOne(r.allBigBangMarkets, x) else r.allBigBangMarkets;
    assert next.allOriginsMarkets == if t == 2 then RemoveOne(r.allOriginsMarkets, x) else r.allOriginsMarkets;
    assert Clones(next, mc) == if t != 2 && mc == MasterOf(r, x) then RemoveOne(Clones(r, mc), x) else Clones(r, mc);
    TakenFrom(r.allBigBangMarkets, next.allBigBangMarkets, x, t == 1);
    TakenFrom(r.allOriginsMarkets, next.allOriginsMarkets, x, t == 2);
    TakenFrom(Clones(r, mc), Clones(next, mc), x, t != 2 && mc == MasterOf(r, x));
  }

  lemma TakenFrom(s: seq<Address>, t: seq<Address>, x: Address, taken: bool)
    requires taken ==> x in s
    requires t == if taken then RemoveOne(s, x) else s
    ensures multiset(t) == multiset(s) - if taken then multiset{x} else multiset{}
  {
    if taken {
      RemoveOneTakesOne(s, x);
    }
  }

  /** The call that lists x, and the market type that undoes it. */
  predicate Enlists(call: Call, x: Address, t: nat) {
    match call
    case AddSingularity(_, market) => market == x && t != BIG_BANG && t != ORIGINS
    case RegisterSingularity(_, created) => created.clone == x && t != BIG_BANG && t != ORIGINS
    case AddBigBang(_, market) => market == x && t == BIG_BANG
    case RegisterBigBang(_, created) => created.clone == x && t == BIG_BANG
    case _ => false
  }

  lemma UnlinkRestores(r: State, mc: Address, x: Address)
    requires MasterOf(r, x) == ZERO_ADDRESS && x !in Clones(r, mc) && mc != ZERO_ADDRESS
    ensures var next := Link(r, mc, x);
            && x in Clones(next, mc)
            && Store(next.masterContractOf, x, ZERO_ADDRESS) == r.masterContractOf
            && StoreArray(next.clonesOf, mc, RemoveOne(Clones(next, mc), x)) == r.clonesOf
  {
    var list := Clones(r, mc);
    assert Clones(Link(r, mc, x), mc) == list + [x];
    RemovePushed(list, x);
    StoreTwice(r.masterContractOf, x, mc, ZERO_ADDRESS);
    StoreArrayTwice(r.clonesOf, mc, list + [x], list);
  }

  /** The state after listing x. */
  function Enlisted(r: State, mc: Address, x: Address, bigBang: bool): State {
    Link(r, mc, x).(isMarketRegistered := r.isMarketRegistered + {x},
                    allBigBangMarkets := r.allBigBangMarkets + if bigBang then [x] else [])
  }

  lemma EnlistedBack(r: State, mc: Address, x: Address, t: nat)
    requires MasterOf(r, x) == ZERO_ADDRESS && x !in Clones(r, mc) && mc != ZERO_ADDRESS
    requires x !in r.isMarketRegistered && x !in r.allBigBangMarkets && t != ORIGINS
    ensures Unregister(Enlisted(r, mc, x, t == BIG_BANG), x, t) == Ok(r)
  {
    var linked, next := Link(r, mc, x), Enlisted(r, mc, x, t == BIG_BANG);
    UnlinkRestores(r, mc, x);
    assert MasterOf(linked, x) == mc;
    assert MasterOf(next, x) == mc && Clones(next, mc) == Clones(linked, mc);
    assert next.isMarketRegistered - {x} == r.isMarketRegistered;
    if t == BIG_BANG {
      RemovePushed(r.allBigBangMarkets, x);
    } else {
      assert next.allBigBangMarkets == r.allBigBangMarkets;
    }
  }

  /** Listing a market and unregistering it at once gives back the very same storage, list
      orders included, exactly when it was not listed before. */
  lemma ListThenUnregister(r: State, call: Call, x: Address, t: nat)
    requires Faithful(r) && Enlists(call, x, t) && Step(r, call).Ok?
    ensures Unregister(Step(r, call).value, x, t) == Ok(r) <==> MasterOf(r, x) == ZERO_ADDRESS
  {
    var mc, bigBang := call.master, t == BIG_BANG;
    assert r.allBigBangMarkets + [] == r.allBigBangMarkets;
    assert Step(r, call).value == Enlisted(r, mc, x, bigBang);
    if MasterOf(r, x) == ZERO_ADDRESS {
      EnlistedBack(r, mc, x, t);
    } else {
      var back := Unregister(Enlisted(r, mc, x, bigBang), x, t);
      assert back.Ok? ==> MasterOf(back.value, x) == ZERO_ADDRESS;
    }
  }

  /** The same for Origins markets: they share removal with the other two kinds, so an
      address that is also one of those does not come back. */
  lemma OriginsThenUnregister(r: State, x: Address)
    requires ListsMatchFlags(r) && Step(r, AddOriginsMarket(x)).Ok?
    ensures Unregister(Step(r, AddOriginsMarket(x)).value, x, ORIGINS) == Ok(r) <==> CutOff(r, x)
  {
    var next := Step(r, AddOriginsMarket(x)).value;
    RemovePushed(r.allOriginsMarkets, x);
    assert r.isOriginRegistered + {x} - {x} == r.isOriginRegistered;
    var back := Unregister(next, x, ORIGINS);
    assert back.Ok? && CutOff(back.value, x);
    if CutOff(r, x) {
      assert r.isMarketRegistered - {x} == r.isMarketRegistered;
      assert Store(r.masterContractOf, x, ZERO_ADDRESS) == r.masterContractOf;
    }
  }

  /** A BigBang market added, removed as if it were a Singularity, and added again. */
  function WrongTypeRun(owner: Address, mc: Address, x: Address): seq<Tx> {
    [Tx(owner, RegisterBigBangMasterContract(mc, 1)), Tx(owner, AddBigBang(mc, x)),
     Tx(owner, UnregisterContract(x, 0)), Tx(owner, AddBigBang(mc, x))]
  }

  /** What a wrong market type does: after that run, in which every call goes through, the
      market stands twice in allBigBangMarkets. */
  lemma WrongTypeRepeatsMarket(owner: Address, mc: Address, x: Address)
    requires mc != ZERO_ADDRESS && x != ZERO_ADDRESS
    ensures var r := Run(Empty(owner), WrongTypeRun(owner, mc, x));
            r.allBigBangMarkets == [x, x] && x in r.isMarketRegistered
  {
    var txs := WrongTypeRun(owner, mc, x);
    var r1 := Apply(Empty(owner), txs[0]);
    var r2 := Apply(r1, txs[1]);
    assert Clones(r2, mc) == [x];
    var r3 := Apply(r2, txs[2]);
    assert r3.allBigBangMarkets == [x];
    var r4 := Apply(r3, txs[3]);
    assert txs[1..][1..] == txs[2..] && txs[2..][1..] == txs[3..] && txs[3..][1..] == [];
    assert Run(Empty(owner), txs) == Run(r2, txs[2..]) == Run(r4, []);
  }
}
