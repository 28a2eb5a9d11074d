/** When each registry call goes through, what it writes, and whose calls count. */
module RegistryOutcomes {
  import opened Evm
  import opened Lists
  import opened Registry
  import opened RegistryInvariants

  /** Removal goes through exactly when x stands in every list it searches: type 1 searches
      allBigBangMarkets, type 2 allOriginsMarkets, and every type but 2 the clone list. */
  lemma RemovalGoesThroughExactly(r: State, x: Address, t: nat)
    ensures Unregister(r, x, t).Ok? <==>
              && (t == 1 ==> x in r.allBigBangMarkets)
              && (t == 2 ==> x in r.allOriginsMarkets)
              && (t != 2 ==> x in Clones(r, MasterOf(r, x)))
    ensures Unregister(r, x, t).Revert? ==> Unregister(r, x, t).error == AddressNotValid
  {
  }

  /** What a removal writes. From each list it searched it takes the first x, the last
      element filling the gap; no other list changes. */
  lemma RemovalWrites(r: State, x: Address, t: nat, next: State)
    requires Unregister(r, x, t) == Ok(next)
    ensures TakesFirst(r.allBigBangMarkets, next.allBigBangMarkets, x, t == 1)
    ensures TakesFirst(r.allOriginsMarkets, next.allOriginsMarkets, x, t == 2)
    ensures forall mc :: TakesFirst(Clones(r, mc), Clones(next, mc), x, t != 2 && mc == MasterOf(r, x))
    ensures next.isMarketRegistered == r.isMarketRegistered - {x}
    ensures next.isOriginRegistered == r.isOriginRegistered - if t == 2 then {x} else {}
    ensures forall y :: MasterOf(next, y) == if y == x then 0 else MasterOf(r, y)
    ensures SameMasterContracts(r, next)
  {
    RemovalGoesThroughExactly(r, x, t);
    assert next.allBigBangMarkets == if t == 1 then RemoveOne(r.allBigBangMarkets, x) else r.allBigBangMarkets;
    assert next.allOriginsMarkets == if t == 2 then RemoveOne(r.allOriginsMarkets, x) else r.allOriginsMarkets;
    if t == 1 {
      RemoveOneTakesFirst(r.allBigBangMarkets, x);
    } else if t == 2 {
      RemoveOneTakesFirst(r.allOriginsMarkets, x);
    }
    if t != 2 {
      RemoveOneTakesFirst(Clones(r, MasterOf(r, x)), x);
    }
  }

  /** Solidity's removal of the first x, position by position. */
  ghost predicate TakesFirst(s: seq<Address>, t: seq<Address>, x: Address, taken: bool) {
    if !taken then t == s
    else exists i :: 0 <= i < |s| && s[i] == x && x !in s[..i] && Filled(s, t, i)
  }

  ghost predicate Filled(s: seq<Address>, t: seq<Address>, i: nat) {
    i < |s| == |t| + 1 && forall k :: 0 <= k < |t| ==> t[k] == if k == i then s[|s| - 1] else s[k]
  }

  lemma RemoveOneTakesFirst(s: seq<Address>, x: Address)
    requires x in s
    ensures TakesFirst(s, RemoveOne(s, x), x, true)
  {
    assert Filled(s, RemoveOne(s, x), IndexOf(s, x));
  }

  ghost predicate SameMasterContracts(r: State, next: State) {
    && next.owner == r.owner
    && next.singularityMasterContracts == r.singularityMasterContracts
    && next.bigbangMasterContracts == r.bigbangMasterContracts
    && next.isSingularityMasterContractRegistered == r.isSingularityMasterContractRegistered
    && next.isBigBangMasterContractRegistered == r.isBigBangMasterContractRegistered
  }

  /** The market or clone that a call lists, if any. */
  function Target(call: Call): set<Address> {
    match call
    case Deploy(_, created) => {created.clone}
    case RegisterSingularity(_, created) => {created.clone}
    case RegisterBigBang(_, created) => {created.clone}
    case AddSingularity(_, x) => {x}
    case AddBigBang(_, x) => {x}
    case _ => {}
  }

  /** What every other call writes, index by index: lists grow at the end, by what the call
      names, and nothing else changes. */
  lemma StepWrites(r: State, call: Call, next: State)
    requires Step(r, call) == Ok(next) && !call.UnregisterContract?
    ensures next.owner == r.owner
    ensures next.singularityMasterContracts == r.singularityMasterContracts +
              if call.RegisterSingularityMasterContract? then [MasterContract(call.master, call.risk)] else []
    ensures next.isSingularityMasterContractRegistered == r.isSingularityMasterContractRegistered +
              if call.RegisterSingularityMasterContract? then {call.master} else {}
    ensures next.bigbangMasterContracts == r.bigbangMasterContracts +
              if call.RegisterBigBangMasterContract? then [MasterContract(call.master, call.risk)] else []
    ensures next.isBigBangMasterContractRegistered == r.isBigBangMasterContractRegistered +
              if call.RegisterBigBangMasterContract? then {call.master} else {}
    ensures next.isMarketRegistered == r.isMarketRegistered + if call.Deploy? then {} else Target(call)
    ensures next.allBigBangMarkets == r.allBigBangMarkets +
              if call.RegisterBigBang? then [call.created.clone] else if call.AddBigBang? then [call.market] else []
    ensures next.allOriginsMarkets == r.allOriginsMarkets + if call.AddOriginsMarket? then [call.market] else []
    ensures next.isOriginRegistered == r.isOriginRegistered + if call.AddOriginsMarket? then {call.market} else {}
    ensures forall x :: MasterOf(next, x) == if x in Target(call) then call.master else MasterOf(r, x)
    ensures forall mc, x :: x in Target(call) ==>
              Clones(next, mc) == Clones(r, mc) + if mc == call.master then [x] else []
    ensures Target(call) == {} ==> next.clonesOf == r.clonesOf
  {
  }

  /** Which calls revert, and with which error. */
  lemma StepRevertsExactly(r: State, call: Call, e: Error)
    ensures var singularity := call.RegisterSingularity? || call.AddSingularity?;
            var bigBang := call.RegisterBigBang? || call.AddBigBang?;
            var unknown := (singularity && call.master !in r.isSingularityMasterContractRegistered)
                           || (bigBang && call.master !in r.isBigBangMasterContractRegistered);
            var creates := call.Deploy? || call.RegisterSingularity? || call.RegisterBigBang?;
            var created := creates && call.created.clone != 0 && call.created.initSucceeds;
            Step(r, call) == Revert(e) <==>
            match e
            case Registered =>
              || (call.RegisterSingularityMasterContract? && call.master in r.isSingularityMasterContractRegistered)
              || (call.RegisterBigBangMasterContract? && call.master in r.isBigBangMasterContractRegistered)
            case NotRegistered => unknown
            case NoMasterContract => !unknown && creates && call.master == 0
            case InitFailed => !unknown && creates && call.master != 0 && !created
            case Failed => !unknown && created && call.master != 0 && !call.Deploy? && !call.created.hasCode
            case AlreadyAdded =>
              || (!unknown && (call.AddSingularity? || call.AddBigBang?) && call.market in r.isMarketRegistered)
              || (call.AddOriginsMarket? && call.market in r.isOriginRegistered)
            case AddressNotValid =>
              && call.UnregisterContract?
              && (|| (call.marketType == 1 && call.market !in r.allBigBangMarkets)
                  || (call.marketType == 2 && call.market !in r.allOriginsMarkets)
                  || (call.marketType != 2 && call.market !in Clones(r, MasterOf(r, call.market))))
            case _ => false
  {
    if call.UnregisterContract? {
      RemovalGoesThroughExactly(r, call.market, call.marketType);
    }
  }

  /** The transactions that one account sent, in their order. */
  function SentBy(txs: seq<Tx>, who: Address): seq<Tx> {
    if txs == [] then []
    else (if txs[0].sender == who then [txs[0]] else []) + SentBy(txs[1..], who)
  }

  /** The calls in order, those that revert leaving no trace. */
  function Calls(r: State, txs: seq<Tx>): State
    decreases |txs|
  {
    if txs == [] then r
    else Calls(if Step(r, txs[0].call).Ok? then Step(r, txs[0].call).value else r, txs[1..])
  }

  /** A run is what the owner's calls make of the registry: whatever others send in between
      changes nothing, and no run changes the owner. */
  lemma {:induction false} OnlyOwnerCounts(r: State, txs: seq<Tx>)
    ensures Run(r, txs) == Calls(r, SentBy(txs, r.owner))
    ensures Run(r, txs).owner == r.owner
    ensures forall tx: Tx :: tx.sender != r.owner ==> Exec(r, tx) == Revert(NotOwner)
    decreases |txs|
  {
    if txs != [] {
      var next := Apply(r, txs[0]);
      StepKeepsOwner(r, txs[0].call);
      OnlyOwnerCounts(next, txs[1..]);
      var rest := SentBy(txs[1..], r.owner);
      assert ([txs[0]] + rest)[1..] == rest && [] + rest == rest;
    }
  }

  lemma StepKeepsOwner(r: State, call: Call)
    ensures Step(r, call).Ok? ==> Step(r, call).value.owner == r.owner
  {
    match call
    case _ =>
  }
}
