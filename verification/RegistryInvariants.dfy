/** What every call keeps: the weak invariant of all runs, and the exact condition under
    which a call keeps the indexes in one-to-one agreement. */
module RegistryInvariants {
  import opened Evm
  import opened Lists
  import opened Registry

  function Locations(masters: seq<MasterContract>): (s: seq<Address>)
    ensures |s| == |masters|
    ensures forall i :: 0 <= i < |s| ==> s[i] == masters[i].location
  {
    seq(|masters|, i requires 0 <= i < |masters| => masters[i].location)
  }

  /** A list without repetition that holds exactly the flagged addresses. */
  ghost predicate Indexes(list: seq<Address>, flags: set<Address>) {
    NoDup(list) && forall a :: a in list <==> a in flags
  }

  /** The indexes no call can break: master contracts and Origins markets. */
  ghost predicate ListsMatchFlags(r: State) {
    && Indexes(Locations(r.singularityMasterContracts), r.isSingularityMasterContractRegistered)
    && Indexes(Locations(r.bigbangMasterContracts), r.isBigBangMasterContractRegistered)
    && Indexes(r.allOriginsMarkets, r.isOriginRegistered)
  }

  ghost predicate Listed(r: State, x: Address) {
    IsMaster(r, MasterOf(r, x)) && x in Clones(r, MasterOf(r, x))
  }

  /** The invariant of every run, whatever market types were passed. */
  ghost predicate Consistent(r: State) {
    && ListsMatchFlags(r)
    && forall x :: x in r.isMarketRegistered ==> Listed(r, x)
  }

  /** The one call that can break it: a bare deployment at the address of a registered
      market, under a master contract that is not registered. */
  predicate KeepsListed(r: State, call: Call) {
    call.Deploy? && call.created.clone in r.isMarketRegistered ==> IsMaster(r, call.master)
  }

  lemma PushIndexes(list: seq<Address>, flags: set<Address>, x: Address)
    requires Indexes(list, flags) && x !in flags
    ensures Indexes(list + [x], flags + {x})
  {
    PushNoDup(list, x);
  }

  lemma RemoveIndexes(list: seq<Address>, flags: set<Address>, x: Address)
    requires Indexes(list, flags) && x in list
    ensures Indexes(RemoveOne(list, x), flags - {x})
  {
    RemoveOneNoDup(list, x);
  }

  lemma LocationsPush(masters: seq<MasterContract>, m: MasterContract)
    ensures Locations(masters + [m]) == Locations(masters) + [m.location]
  {
  }

  /** The master-contract and Origins indexes are exact after every call, with no
      assumption about the call. */
  lemma StepKeepsListsMatchFlags(r: State, call: Call)
    requires ListsMatchFlags(r) && Step(r, call).Ok?
    ensures ListsMatchFlags(Step(r, call).value)
  {
    match call
    case RegisterSingularityMasterContract(mc, risk) =>
      LocationsPush(r.singularityMasterContracts, MasterContract(mc, risk));
      PushIndexes(Locations(r.singularityMasterContracts), r.isSingularityMasterContractRegistered, mc);
    case RegisterBigBangMasterContract(mc, risk) =>
      LocationsPush(r.bigbangMasterContracts, MasterContract(mc, risk));
      PushIndexes(Locations(r.bigbangMasterContracts), r.isBigBangMasterContractRegistered, mc);
    case AddOriginsMarket(x) =>
      PushIndexes(r.allOriginsMarkets, r.isOriginRegistered, x);
    case UnregisterContract(x, t) =>
      if t == ORIGINS {
        RemoveIndexes(r.allOriginsMarkets, r.isOriginRegistered, x);
      }
    case _ =>
  }

  lemma UnregisterKeepsListed(r: State, x: Address, t: nat, y: Address)
    requires Unregister(r, x, t).Ok? && y != x && Listed(r, y)
    ensures Listed(Unregister(r, x, t).value, y)
  {
    var mc := MasterOf(r, x);
    if t != ORIGINS && MasterOf(r, y) == mc {
      RemoveOneKeepsOthers(Clones(r, mc), x, y);
    }
  }

  /** A successful call keeps the weak invariant if and only if it is not that call. */
  lemma ConsistentExactly(r: State, call: Call)
    requires Consistent(r) && Step(r, call).Ok?
    ensures Consistent(Step(r, call).value) <==> KeepsListed(r, call)
  {
    StepKeepsListsMatchFlags(r, call);
    var next := Step(r, call).value;
    if KeepsListed(r, call) {
      forall y | y in next.isMarketRegistered ensures Listed(next, y) {
        if call.UnregisterContract? {
          UnregisterKeepsListed(r, call.market, call.marketType, y);
        }
      }
    } else {
      assert !Listed(next, call.created.clone);
    }
  }

  predicate ListedRun(r: State, txs: seq<Tx>)
    decreases |txs|
  {
    txs == [] ||
    (&& (Exec(r, txs[0]).Ok? ==> KeepsListed(r, txs[0].call))
     && ListedRun(Apply(r, txs[0]), txs[1..]))
  }

  ghost predicate AlwaysConsistent(r: State, txs: seq<Tx>)
    decreases |txs|
  {
    Consistent(r) && (txs == [] || AlwaysConsistent(Apply(r, txs[0]), txs[1..]))
  }

  /** The weak invariant holds in every state of a run exactly when no such deployment goes
      through, whatever else is called. */
  lemma {:induction false} RunConsistentExactly(r: State, txs: seq<Tx>)
    requires Consistent(r)
    ensures AlwaysConsistent(r, txs) <==> ListedRun(r, txs)
    ensures ListedRun(r, txs) ==> Consistent(Run(r, txs))
    decreases |txs|
  {
    if txs != [] {
      var next := Apply(r, txs[0]);
      if Exec(r, txs[0]).Ok? {
        ConsistentExactly(r, txs[0].call);
      }
      if Consistent(next) {
        RunConsistentExactly(next, txs[1..]);
      } else {
        assert !AlwaysConsistent(next, txs[1..]);
      }
    }
  }

  lemma {:induction false} InFlatten(r: State, masters: seq<MasterContract>, x: Address)
    ensures x in Flatten(r, masters) <==> exists m :: m in Locations(masters) && x in Clones(r, m)
  {
    if masters != [] {
      var init, last := masters[..|masters| - 1], masters[|masters| - 1];
      assert masters == init + [last];
      LocationsPush(init, last);
      InFlatten(r, init, x);
    }
  }

  /** From an empty registry, whatever is called: the three lists match their flags, and
      every registered market shows in one of the two market views. */
  lemma EveryRegisteredMarketIsListed(owner: Address, txs: seq<Tx>, x: Address)
    requires ListedRun(Empty(owner), txs)
    ensures var r := Run(Empty(owner), txs);
            && ListsMatchFlags(r)
            && (x in r.isMarketRegistered ==>
                  && Listed(r, x)
                  && (x in Flatten(r, r.singularityMasterContracts) || x in Flatten(r, r.bigbangMasterContracts)))
  {
    RunConsistentExactly(Empty(owner), txs);
    var r := Run(Empty(owner), txs);
    InFlatten(r, r.singularityMasterContracts, x);
    InFlatten(r, r.bigbangMasterContracts, x);
  }

  /** The master-contract and Origins lists match their flags after any transactions at
      all, clones created anywhere. */
  lemma {:induction false} RunKeepsListsMatchFlags(r: State, txs: seq<Tx>)
    requires ListsMatchFlags(r)
    ensures ListsMatchFlags(Run(r, txs))
    decreases |txs|
  {
    if txs != [] {
      if Exec(r, txs[0]).Ok? {
        StepKeepsListsMatchFlags(r, txs[0].call);
      }
      RunKeepsListsMatchFlags(Apply(r, txs[0]), txs[1..]);
    }
  }

  /** The lists of clones are the inverse of masterContractOf. */
  ghost predicate Inverse(masterContractOf: Words<Address>, clonesOf: Arrays) {
    && (forall mc :: NoDup(LoadArray(clonesOf, mc)))
    && forall mc, x :: x in LoadArray(clonesOf, mc) <==> mc != ZERO_ADDRESS && Load(masterContractOf, x) == mc
  }

  ghost predicate MarketsHaveMasters(r: State) {
    forall x :: x in r.isMarketRegistered ==>
      && MasterOf(r, x) != ZERO_ADDRESS
      && if x in r.allBigBangMarkets then MasterOf(r, x) in r.isBigBangMasterContractRegistered
         else MasterOf(r, x) in r.isSingularityMasterContractRegistered
  }

  /** All indexes agree. */
  ghost predicate Faithful(r: State) {
    && ListsMatchFlags(r)
    && !IsMaster(r, ZERO_ADDRESS)
    && Inverse(r.masterContractOf, r.clonesOf)
    && MarketsHaveMasters(r)
    && NoDup(r.allBigBangMarkets)
    && forall x :: x in r.allBigBangMarkets ==> x in r.isMarketRegistered
  }

  /** What the owner must see to before a call: no zero master contract, no market or clone
      that is listed already, and the market type the market entered with. */
  predicate WellTyped(r: State, call: Call) {
    match call
    case RegisterSingularityMasterContract(mc, _) => mc != ZERO_ADDRESS
    case RegisterBigBangMasterContract(mc, _) => mc != ZERO_ADDRESS
    case Deploy(_, created) => MasterOf(r, created.clone) == ZERO_ADDRESS
    case RegisterSingularity(_, created) => MasterOf(r, created.clone) == ZERO_ADDRESS
    case RegisterBigBang(_, created) => MasterOf(r, created.clone) == ZERO_ADDRESS
    case AddSingularity(_, x) => MasterOf(r, x) == ZERO_ADDRESS
    case AddBigBang(_, x) => MasterOf(r, x) == ZERO_ADDRESS
    case AddOriginsMarket(_) => true
    case UnregisterContract(x, t) =>
      if t == ORIGINS then MasterOf(r, x) == ZERO_ADDRESS
      else t != BIG_BANG ==> x !in r.allBigBangMarkets
  }

  /** Listing an unlisted address keeps the inverse; listing a listed one breaks it. */
  lemma LinkExactly(r: State, mc: Address, x: Address)
    requires Inverse(r.masterContractOf, r.clonesOf) && mc != ZERO_ADDRESS
    ensures var next := Link(r, mc, x);
            Inverse(next.masterContractOf, next.clonesOf) <==> MasterOf(r, x) == ZERO_ADDRESS
  {
    var next, listed := Link(r, mc, x), MasterOf(r, x);
    var list, list' := Clones(r, mc), LoadArray(next.clonesOf, mc);
    assert list' == list + [x];
    if listed == ZERO_ADDRESS {
      PushNoDup(list, x);
    } else if listed == mc {
      assert list'[IndexOf(list, x)] == x == list'[|list|];
    } else {
      assert x in LoadArray(next.clonesOf, listed);
    }
  }

  lemma CreateExactly(r: State, call: Call)
    requires Faithful(r) && Step(r, call).Ok?
    requires call.Deploy? || call.RegisterSingularity? || call.RegisterBigBang?
    ensures Faithful(Step(r, call).value) <==> WellTyped(r, call)
  {
    LinkExactly(r, call.master, call.created.clone);
    StepKeepsListsMatchFlags(r, call);
    if WellTyped(r, call) {
      assert call.created.clone !in r.isMarketRegistered;
      PushNoDup(r.allBigBangMarkets, call.created.clone);
    }
  }

  lemma AddExactly(r: State, call: Call)
    requires Faithful(r) && Step(r, call).Ok?
    requires call.AddSingularity? || call.AddBigBang?
    ensures Faithful(Step(r, call).value) <==> WellTyped(r, call)
  {
    LinkExactly(r, call.master, call.market);
    StepKeepsListsMatchFlags(r, call);
    PushNoDup(r.allBigBangMarkets, call.market);
  }

  lemma UnregisterExactly(r: State, x: Address, t: nat)
    requires Faithful(r) && Unregister(r, x, t).Ok?
    ensures Faithful(Unregister(r, x, t).value) <==> WellTyped(r, UnregisterContract(x, t))
  {
    StepKeepsListsMatchFlags(r, UnregisterContract(x, t));
    var next, mc := Unregister(r, x, t).value, MasterOf(r, x);
    if t == ORIGINS {
      if mc != ZERO_ADDRESS {
        assert x in LoadArray(next.clonesOf, mc);
      }
    } else if t != BIG_BANG && x in r.allBigBangMarkets {
      assert x in next.allBigBangMarkets && x !in next.isMarketRegistered;
    } else {
      RemoveOneNoDup(Clones(r, mc), x);
      if t == BIG_BANG {
        RemoveOneNoDup(r.allBigBangMarkets, x);
      }
    }
  }

  /** A successful call keeps all indexes in agreement if and only if it is well typed. */
  lemma AgreementExactly(r: State, call: Call)
    requires Faithful(r) && Step(r, call).Ok?
    ensures Faithful(Step(r, call).value) <==> WellTyped(r, call)
  {
    match call
    case Deploy(_, _) => CreateExactly(r, call);
    case RegisterSingularity(_, _) => CreateExactly(r, call);
    case RegisterBigBang(_, _) => CreateExactly(r, call);
    case AddSingularity(_, _) => AddExactly(r, call);
    case AddBigBang(_, _) => AddExactly(r, call);
    case UnregisterContract(x, t) => UnregisterExactly(r, x, t);
    case _ => StepKeepsListsMatchFlags(r, call);
  }

  /** A BigBang market that the call would push although it stands in the list already. */
  predicate Relists(r: State, call: Call) {
    match call
    case AddBigBang(_, x) => x in r.allBigBangMarkets
    case RegisterBigBang(_, created) => created.clone in r.allBigBangMarkets
    case _ => false
  }

  /** A successful call keeps allBigBangMarkets free of repetition if and only if it does not
      push a market that stands there. */
  lemma NoRepetitionExactly(r: State, call: Call)
    requires NoDup(r.allBigBangMarkets) && Step(r, call).Ok?
    ensures NoDup(Step(r, call).value.allBigBangMarkets) <==> !Relists(r, call)
  {
    match call
    case AddBigBang(_, x) => PushNoDupExactly(r.allBigBangMarkets, x);
    case RegisterBigBang(_, created) => PushNoDupExactly(r.allBigBangMarkets, created.clone);
    case UnregisterContract(x, t) =>
      if t == BIG_BANG {
        RemoveOneNoDup(r.allBigBangMarkets, x);
      }
    case _ =>
  }

  predicate RelistingRun(r: State, txs: seq<Tx>)
    decreases |txs|
  {
    txs != [] &&
    (|| (Exec(r, txs[0]).Ok? && Relists(r, txs[0].call))
     || RelistingRun(Apply(r, txs[0]), txs[1..]))
  }

  ghost predicate NeverRepeats(r: State, txs: seq<Tx>)
    decreases |txs|
  {
    NoDup(r.allBigBangMarkets) && (txs == [] || NeverRepeats(Apply(r, txs[0]), txs[1..]))
  }

  /** allBigBangMarkets repeats no market in any state of a run exactly when no call that
      goes through pushes a market that stands in the list. */
  lemma {:induction false} RunRepeatsExactly(r: State, txs: seq<Tx>)
    requires NoDup(r.allBigBangMarkets)
    ensures NeverRepeats(r, txs) <==> !RelistingRun(r, txs)
    decreases |txs|
  {
    if txs != [] {
      var next := Apply(r, txs[0]);
      if Exec(r, txs[0]).Ok? {
        NoRepetitionExactly(r, txs[0].call);
      }
      if NoDup(next.allBigBangMarkets) {
        RunRepeatsExactly(next, txs[1..]);
      } else {
        assert !NeverRepeats(next, txs[1..]);
      }
    }
  }
}
