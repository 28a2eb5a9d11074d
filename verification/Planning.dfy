/** The post-deployment setup: planners read Penrose once and push the calls that are still
    missing; the batch is executed afterwards, as a whole. */
module Planning {
  import opened Evm
  import opened Lists
  import opened Registry
  import opened RegistryInvariants
  import P = Penrose

  /** The addresses of a deployment. */
  datatype Deployed = Deployed(
    sglMediumRiskMC: Address, bbMediumRiskMC: Address,
    bbMtEthMarket: Address, bbTRethMarket: Address, bbTWstEthMarket: Address, bbTUsdcMockMarket: Address,
    sglSGlpMarket: Address, sglUsdcMockMarket: Address, sglSDaiMarket: Address)

  datatype MarketType = BB | SGL

  datatype MarketSpec = MarketSpec(marketType: MarketType, mc: Address, market: Address)

  /** The risk both planners register master contracts with. */
  const MEDIUM_RISK: nat := 1

  function SingularityMasterCalls(r: State, d: Deployed): seq<Call> {
    if d.sglMediumRiskMC in r.isSingularityMasterContractRegistered then []
    else [RegisterSingularityMasterContract(d.sglMediumRiskMC, MEDIUM_RISK)]
  }

  function BigBangMasterCalls(r: State, d: Deployed, isHostChain: bool): seq<Call> {
    if !isHostChain || d.bbMediumRiskMC in r.isBigBangMasterContractRegistered then []
    else [RegisterBigBangMasterContract(d.bbMediumRiskMC, MEDIUM_RISK)]
  }

  function MasterCalls(r: State, d: Deployed, isHostChain: bool): seq<Call> {
    SingularityMasterCalls(r, d) + BigBangMasterCalls(r, d, isHostChain)
  }

  /** The markets of each chain, in the order they are visited. */
  function MarketSpecs(d: Deployed, isHostChain: bool, isSideChain: bool): seq<MarketSpec> {
    (if isHostChain then
       [MarketSpec(BB, d.bbMediumRiskMC, d.bbMtEthMarket), MarketSpec(BB, d.bbMediumRiskMC, d.bbTRethMarket),
        MarketSpec(BB, d.bbMediumRiskMC, d.bbTWstEthMarket), MarketSpec(BB, d.bbMediumRiskMC, d.bbTUsdcMockMarket),
        MarketSpec(SGL, d.sglMediumRiskMC, d.sglSGlpMarket), MarketSpec(SGL, d.sglMediumRiskMC, d.sglUsdcMockMarket)]
     else [])
    + (if isSideChain then [MarketSpec(SGL, d.sglMediumRiskMC, d.sglSDaiMarket)] else [])
  }

  function AddCall(s: MarketSpec): Call {
    if s.marketType == BB then AddBigBang(s.mc, s.market) else AddSingularity(s.mc, s.market)
  }

  /** The markets that are not registered yet, and the calls that add them. */
  function Missing(r: State, specs: seq<MarketSpec>): seq<MarketSpec> {
    if specs == [] then []
    else
      var last := specs[|specs| - 1];
      Missing(r, specs[..|specs| - 1]) + if last.market in r.isMarketRegistered then [] else [last]
  }

  function AddCalls(specs: seq<MarketSpec>): seq<Call> {
    seq(|specs|, i requires 0 <= i < |specs| => AddCall(specs[i]))
  }

  function Markets(specs: seq<MarketSpec>): seq<Address> {
    seq(|specs|, i requires 0 <= i < |specs| => specs[i].market)
  }

  /** Everything that is planned. */
  function Plan(r: State, d: Deployed, isHostChain: bool, isSideChain: bool): seq<Call> {
    MasterCalls(r, d, isHostChain) + AddCalls(Missing(r, MarketSpecs(d, isHostChain, isSideChain)))
  }

  /** The planners, which share one list of calls. */
  class Setup {
    const deployed: Deployed
    const isHostChain: bool
    const isSideChain: bool
    var calls: seq<Call>

    constructor (deployed: Deployed, isHostChain: bool, isSideChain: bool)
      ensures this.deployed == deployed && this.isHostChain == isHostChain && this.isSideChain == isSideChain
      ensures calls == []
    {
      this.deployed, this.isHostChain, this.isSideChain := deployed, isHostChain, isSideChain;
      calls := [];
    }

    method SetupRegisterMCInPenrose(penrose: P.Penrose)
      modifies this
      ensures calls == old(calls) + MasterCalls(penrose.State(), deployed, isHostChain)
    {
      if deployed.sglMediumRiskMC !in penrose.isSingularityMasterContractRegistered {
        calls := calls + [RegisterSingularityMasterContract(deployed.sglMediumRiskMC, MEDIUM_RISK)];
      }
      if isHostChain {
        if deployed.bbMediumRiskMC !in penrose.isBigBangMasterContractRegistered {
          calls := calls + [RegisterBigBangMasterContract(deployed.bbMediumRiskMC, MEDIUM_RISK)];
        }
      }
    }

    /** Pushes a call unless the market is registered; `visited` is what was seen before. */
    method RegisterMarket(penrose: P.Penrose, marketType: MarketType, mc: Address, market: Address,
                          ghost before: seq<Call>, ghost visited: seq<MarketSpec>)
      returns (ghost now: seq<MarketSpec>)
      requires calls == before + AddCalls(Missing(penrose.State(), visited))
      modifies this
      ensures now == visited + [MarketSpec(marketType, mc, market)]
      ensures calls == before + AddCalls(Missing(penrose.State(), now))
    {
      MissingPush(penrose.State(), visited, MarketSpec(marketType, mc, market));
      if market !in penrose.isMarketRegistered {
        calls := calls + [if marketType == BB then AddBigBang(mc, market) else AddSingularity(mc, market)];
      }
      now := visited + [MarketSpec(marketType, mc, market)];
    }

    method SetupRegisterBBAndSGLMarketsInPenrose(penrose: P.Penrose)
      modifies this
      ensures calls == old(calls)
                       + AddCalls(Missing(penrose.State(), MarketSpecs(deployed, isHostChain, isSideChain)))
    {
      ghost var before, seen := calls, [];
      if isHostChain {
        seen := RegisterHostMarkets(penrose, before);
      }
      if isSideChain {
        seen := RegisterMarket(penrose, SGL, deployed.sglMediumRiskMC, deployed.sglSDaiMarket, before, seen);
      }
      assert seen == MarketSpecs(deployed, isHostChain, isSideChain);
    }

    method RegisterHostMarkets(penrose: P.Penrose, ghost before: seq<Call>) returns (ghost now: seq<MarketSpec>)
      requires calls == before
      modifies this
      ensures now == MarketSpecs(deployed, true, false)
      ensures calls == before + AddCalls(Missing(penrose.State(), now))
    {
      var bb, sgl := deployed.bbMediumRiskMC, deployed.sglMediumRiskMC;
      now := RegisterMarket(penrose, BB, bb, deployed.bbMtEthMarket, before, []);
      now := RegisterMarket(penrose, BB, bb, deployed.bbTRethMarket, before, now);
      now := RegisterMarket(penrose, BB, bb, deployed.bbTWstEthMarket, before, now);
      now := RegisterMarket(penrose, BB, bb, deployed.bbTUsdcMockMarket, before, now);
      now := RegisterMarket(penrose, SGL, sgl, deployed.sglSGlpMarket, before, now);
      now := RegisterMarket(penrose, SGL, sgl, deployed.sglUsdcMockMarket, before, now);
    }

    /** The two planners in their order, both reading the state before any call. */
    method SetupPostLbp1(penrose: P.Penrose)
      modifies this
      ensures calls == old(calls) + Plan(penrose.State(), deployed, isHostChain, isSideChain)
    {
      ghost var before := calls;
      SetupRegisterMCInPenrose(penrose);
      SetupRegisterBBAndSGLMarketsInPenrose(penrose);
      AppendAssociates(before, MasterCalls(penrose.State(), deployed, isHostChain),
                       AddCalls(Missing(penrose.State(), MarketSpecs(deployed, isHostChain, isSideChain))));
    }
  }

  lemma AppendAssociates<T>(a: seq<T>, b: seq<T>, c: seq<T>)
    ensures a + b + c == a + (b + c)
  {
  }

  lemma MissingPush(r: State, specs: seq<MarketSpec>, s: MarketSpec)
    ensures Missing(r, specs + [s]) == Missing(r, specs) + if s.market in r.isMarketRegistered then [] else [s]
    ensures AddCalls(Missing(r, specs + [s]))
            == AddCalls(Missing(r, specs)) + if s.market in r.isMarketRegistered then [] else [AddCall(s)]
  {
    assert (specs + [s])[..|specs|] == specs;
    AddCallsPush(Missing(r, specs), s);
  }

  lemma AddCallsPush(specs: seq<MarketSpec>, s: MarketSpec)
    ensures AddCalls(specs + [s]) == AddCalls(specs) + [AddCall(s)]
    ensures Markets(specs + [s]) == Markets(specs) + [s.market]
  {
  }

  // ---------- Execution ----------

  /** A multicall by the owner in which no call may fail: all calls or none. */
  function Batch(r: State, calls: seq<Call>): Result<State> {
    if calls == [] then Ok(r)
    else
      var before :- Batch(r, calls[..|calls| - 1]);
      Step(before, calls[|calls| - 1])
  }

  lemma {:induction false} BatchConcat(r: State, calls: seq<Call>, more: seq<Call>)
    ensures Batch(r, calls + more) == if Batch(r, calls).Ok? then Batch(Batch(r, calls).value, more) else Batch(r, calls)
  {
    if more == [] {
      assert calls + more == calls;
    } else {
      assert (calls + more)[..|calls + more| - 1] == calls + more[..|more| - 1];
      BatchConcat(r, calls, more[..|more| - 1]);
    }
  }

  /** Every market's master contract is registered in the market's family. */
  ghost predicate MastersReady(r: State, specs: seq<MarketSpec>) {
    forall i :: 0 <= i < |specs| ==>
      if specs[i].marketType == BB then specs[i].mc in r.isBigBangMasterContractRegistered
      else specs[i].mc in r.isSingularityMasterContractRegistered
  }

  lemma AddCallRun(r: State, s: MarketSpec)
    requires MastersReady(r, [s])
    ensures Step(r, AddCall(s)).Ok? <==> s.market !in r.isMarketRegistered
    ensures Step(r, AddCall(s)).Ok? ==>
              var after := Step(r, AddCall(s)).value;
              && after.isMarketRegistered == r.isMarketRegistered + {s.market}
              && after.isSingularityMasterContractRegistered == r.isSingularityMasterContractRegistered
              && after.isBigBangMasterContractRegistered == r.isBigBangMasterContractRegistered
  {
    assert [s][0] == s;
  }

  /** Same master contracts, and these markets more. */
  ghost predicate Grown(r: State, after: State, markets: seq<Address>) {
    && (forall x :: x in after.isMarketRegistered <==> x in r.isMarketRegistered || x in markets)
    && after.isSingularityMasterContractRegistered == r.isSingularityMasterContractRegistered
    && after.isBigBangMasterContractRegistered == r.isBigBangMasterContractRegistered
  }

  lemma BatchNext(r: State, init: seq<MarketSpec>, last: MarketSpec)
    ensures Batch(r, AddCalls(init + [last])) ==
            if Batch(r, AddCalls(init)).Ok? then Step(Batch(r, AddCalls(init)).value, AddCall(last))
            else Batch(r, AddCalls(init))
  {
    AddCallsPush(init, last);
    assert (AddCalls(init) + [AddCall(last)])[..|init|] == AddCalls(init);
  }

  /** Adding unregistered markets one by one succeeds exactly when no market is added twice. */
  lemma {:induction false} AddCallsRun(r: State, specs: seq<MarketSpec>)
    requires MastersReady(r, specs)
    requires forall i :: 0 <= i < |specs| ==> specs[i].market !in r.isMarketRegistered
    ensures Batch(r, AddCalls(specs)).Ok? <==> NoDup(Markets(specs))
    ensures Batch(r, AddCalls(specs)).Ok? ==> Grown(r, Batch(r, AddCalls(specs)).value, Markets(specs))
  {
    if specs != [] {
      var init, last := specs[..|specs| - 1], specs[|specs| - 1];
      assert specs == init + [last];
      AddCallsPush(init, last);
      AddCallsRun(r, init);
      BatchNext(r, init, last);
      PushNoDupExactly(Markets(init), last.market);
      if Batch(r, AddCalls(init)).Ok? {
        AddCallRun(Batch(r, AddCalls(init)).value, last);
      }
    }
  }

  lemma SpecsReady(r: State, d: Deployed, isHostChain: bool, isSideChain: bool)
    requires d.sglMediumRiskMC in r.isSingularityMasterContractRegistered
    requires isHostChain ==> d.bbMediumRiskMC in r.isBigBangMasterContractRegistered
    ensures MastersReady(r, MarketSpecs(d, isHostChain, isSideChain))
  {
    var specs := MarketSpecs(d, isHostChain, isSideChain);
    forall i | 0 <= i < |specs|
      ensures if specs[i].marketType == BB then isHostChain && specs[i].mc == d.bbMediumRiskMC
              else specs[i].mc == d.sglMediumRiskMC
    {
    }
  }

  lemma SingularityMasterCallsRun(r: State, d: Deployed)
    ensures Batch(r, SingularityMasterCalls(r, d)).Ok?
    ensures var after := Batch(r, SingularityMasterCalls(r, d)).value;
            && d.sglMediumRiskMC in after.isSingularityMasterContractRegistered
            && after.isBigBangMasterContractRegistered == r.isBigBangMasterContractRegistered
            && after.isMarketRegistered == r.isMarketRegistered && after.masterContractOf == r.masterContractOf
            && (Faithful(r) && d.sglMediumRiskMC != ZERO_ADDRESS ==> Faithful(after))
  {
    var calls := SingularityMasterCalls(r, d);
    BatchOne(r, calls);
    if calls != [] && Faithful(r) {
      AgreementExactly(r, calls[0]);
    }
  }

  lemma BigBangMasterCallsRun(r: State, d: Deployed, isHostChain: bool)
    ensures Batch(r, BigBangMasterCalls(r, d, isHostChain)).Ok?
    ensures var after := Batch(r, BigBangMasterCalls(r, d, isHostChain)).value;
            && (isHostChain ==> d.bbMediumRiskMC in after.isBigBangMasterContractRegistered)
            && after.isSingularityMasterContractRegistered == r.isSingularityMasterContractRegistered
            && after.isMarketRegistered == r.isMarketRegistered && after.masterContractOf == r.masterContractOf
            && (Faithful(r) && d.bbMediumRiskMC != ZERO_ADDRESS ==> Faithful(after))
  {
    var calls := BigBangMasterCalls(r, d, isHostChain);
    BatchOne(r, calls);
    if calls != [] && Faithful(r) {
      AgreementExactly(r, calls[0]);
    }
  }

  /** After the planned master contracts are registered, all that the markets need are. */
  lemma MasterCallsRun(r: State, d: Deployed, isHostChain: bool)
    ensures Batch(r, MasterCalls(r, d, isHostChain)).Ok?
    ensures var after := Batch(r, MasterCalls(r, d, isHostChain)).value;
            && d.sglMediumRiskMC in after.isSingularityMasterContractRegistered
            && (isHostChain ==> d.bbMediumRiskMC in after.isBigBangMasterContractRegistered)
            && after.isMarketRegistered == r.isMarketRegistered && after.masterContractOf == r.masterContractOf
            && (Faithful(r) && d.sglMediumRiskMC != ZERO_ADDRESS && d.bbMediumRiskMC != ZERO_ADDRESS ==> Faithful(after))
  {
    var sgl, bb := SingularityMasterCalls(r, d), BigBangMasterCalls(r, d, isHostChain);
    SingularityMasterCallsRun(r, d);
    var mid := Batch(r, sgl).value;
    BigBangMasterCallsRun(mid, d, isHostChain);
    assert BigBangMasterCalls(mid, d, isHostChain) == bb;
    BatchConcat(r, sgl, bb);
  }

  lemma BatchOne(r: State, calls: seq<Call>)
    requires |calls| <= 1
    ensures Batch(r, calls) == if calls == [] then Ok(r) else Step(r, calls[0])
  {
    if calls != [] {
      assert calls[..0] == [];
    }
  }

  lemma {:induction false} MissingAre(r: State, specs: seq<MarketSpec>)
    ensures forall s :: s in Missing(r, specs) <==> s in specs && s.market !in r.isMarketRegistered
    ensures Missing(r, specs) == [] <==> forall s :: s in specs ==> s.market in r.isMarketRegistered
  {
    if specs != [] {
      var init, last := specs[..|specs| - 1], specs[|specs| - 1];
      assert specs == init + [last];
      MissingAre(r, init);
      if last.market !in r.isMarketRegistered {
        assert last in Missing(r, specs);
      }
    }
  }

  /** The missing markets stay missing, and become ready, while master contracts are
      registered. */
  lemma ReadyForMissing(r: State, ready: State, specs: seq<MarketSpec>)
    requires MastersReady(ready, specs) && ready.isMarketRegistered == r.isMarketRegistered
    ensures MastersReady(ready, Missing(r, specs))
    ensures forall i :: 0 <= i < |Missing(r, specs)| ==>
              Missing(r, specs)[i].market !in ready.isMarketRegistered && Missing(r, specs)[i] in specs
  {
    var missing := Missing(r, specs);
    MissingAre(r, specs);
    forall i | 0 <= i < |missing| ensures missing[i].market !in ready.isMarketRegistered && missing[i] in specs {
      assert missing[i] in missing;
    }
  }

  lemma NothingMissing(r: State, after: State, specs: seq<MarketSpec>)
    requires Grown(r, after, Markets(Missing(r, specs)))
    ensures Missing(after, specs) == []
  {
    var missing := Missing(r, specs);
    MissingAre(r, specs);
    forall s | s in specs ensures s.market in after.isMarketRegistered {
      if s.market !in r.isMarketRegistered {
        var i :| 0 <= i < |missing| && missing[i] == s;
        assert Markets(missing)[i] == s.market;
      }
    }
    MissingAre(after, specs);
  }

  /** A plan for any list of markets, once its master contracts are registered. */
  lemma MarketPlanConverges(r: State, masters: seq<Call>, ready: State, specs: seq<MarketSpec>)
    requires Batch(r, masters) == Ok(ready) && ready.isMarketRegistered == r.isMarketRegistered
    requires MastersReady(ready, specs)
    ensures var run := Batch(r, masters + AddCalls(Missing(r, specs)));
            && (run.Ok? <==> NoDup(Markets(Missing(r, specs))))
            && (run.Ok? ==> Grown(ready, run.value, Markets(Missing(r, specs))) && Missing(run.value, specs) == [])
  {
    var missing := Missing(r, specs);
    ReadyForMissing(r, ready, specs);
    AddCallsRun(ready, missing);
    BatchConcat(r, masters, AddCalls(missing));
    if NoDup(Markets(missing)) {
      var after := Batch(ready, AddCalls(missing)).value;
      SameMissing(r, ready, specs);
      NothingMissing(ready, after, specs);
    }
  }

  lemma {:induction false} SameMissing(r: State, s: State, specs: seq<MarketSpec>)
    requires r.isMarketRegistered == s.isMarketRegistered
    ensures Missing(r, specs) == Missing(s, specs)
  {
    if specs != [] {
      SameMissing(r, s, specs[..|specs| - 1]);
    }
  }

  /** The plan made from one reading of Penrose executes without a revert exactly when no two
      missing markets share an address; and planning again afterwards plans nothing. */
  lemma PlanConverges(r: State, d: Deployed, isHostChain: bool, isSideChain: bool)
    ensures var specs := MarketSpecs(d, isHostChain, isSideChain);
            Batch(r, Plan(r, d, isHostChain, isSideChain)).Ok? <==> NoDup(Markets(Missing(r, specs)))
    ensures Batch(r, Plan(r, d, isHostChain, isSideChain)).Ok? ==>
              Plan(Batch(r, Plan(r, d, isHostChain, isSideChain)).value, d, isHostChain, isSideChain) == []
  {
    var specs, masters := MarketSpecs(d, isHostChain, isSideChain), MasterCalls(r, d, isHostChain);
    MasterCallsRun(r, d, isHostChain);
    var ready := Batch(r, masters).value;
    SpecsReady(ready, d, isHostChain, isSideChain);
    MarketPlanConverges(r, masters, ready, specs);
    assert AddCalls([]) == [];
  }

  /** What a plan holds: each chain's markets that are not registered, and the two families'
      master contracts, with risk 1, where those are not registered. */
  lemma PlanListsExactly(r: State, d: Deployed, isHostChain: bool, isSideChain: bool, c: Call)
    ensures c in Plan(r, d, isHostChain, isSideChain) <==>
              match c
              case RegisterSingularityMasterContract(mc, risk) =>
                mc == d.sglMediumRiskMC && risk == 1 && mc !in r.isSingularityMasterContractRegistered
              case RegisterBigBangMasterContract(mc, risk) =>
                isHostChain && mc == d.bbMediumRiskMC && risk == 1 && mc !in r.isBigBangMasterContractRegistered
              case AddBigBang(mc, x) =>
                && isHostChain && mc == d.bbMediumRiskMC && x !in r.isMarketRegistered
                && x in {d.bbMtEthMarket, d.bbTRethMarket, d.bbTWstEthMarket, d.bbTUsdcMockMarket}
              case AddSingularity(mc, x) =>
                && mc == d.sglMediumRiskMC && x !in r.isMarketRegistered
                && ((isHostChain && x in {d.sglSGlpMarket, d.sglUsdcMockMarket}) || (isSideChain && x == d.sglSDaiMarket))
              case _ => false
  {
    MasterCallsAre(r, d, isHostChain, c);
    MarketCallsAre(r, d, isHostChain, isSideChain, c);
    InConcat(MasterCalls(r, d, isHostChain), AddCalls(Missing(r, MarketSpecs(d, isHostChain, isSideChain))), c);
  }

  lemma InConcat<T>(s: seq<T>, t: seq<T>, c: T)
    ensures c in s + t <==> c in s || c in t
  {
  }

  lemma MasterCallsAre(r: State, d: Deployed, isHostChain: bool, c: Call)
    ensures c in MasterCalls(r, d, isHostChain) <==>
              || (c == RegisterSingularityMasterContract(d.sglMediumRiskMC, 1)
                  && d.sglMediumRiskMC !in r.isSingularityMasterContractRegistered)
              || (isHostChain && c == RegisterBigBangMasterContract(d.bbMediumRiskMC, 1)
                  && d.bbMediumRiskMC !in r.isBigBangMasterContractRegistered)
  {
  }

  lemma MarketCallsAre(r: State, d: Deployed, isHostChain: bool, isSideChain: bool, c: Call)
    ensures c in AddCalls(Missing(r, MarketSpecs(d, isHostChain, isSideChain))) <==>
              || (c.AddBigBang? && c.market !in r.isMarketRegistered
                  && MarketSpec(BB, c.master, c.market) in MarketSpecs(d, isHostChain, isSideChain))
              || (c.AddSingularity? && c.market !in r.isMarketRegistered
                  && MarketSpec(SGL, c.master, c.market) in MarketSpecs(d, isHostChain, isSideChain))
    ensures c.AddBigBang? ==>
              (MarketSpec(BB, c.master, c.market) in MarketSpecs(d, isHostChain, isSideChain) <==>
                 && isHostChain && c.master == d.bbMediumRiskMC
                 && c.market in {d.bbMtEthMarket, d.bbTRethMarket, d.bbTWstEthMarket, d.bbTUsdcMockMarket})
    ensures c.AddSingularity? ==>
              (MarketSpec(SGL, c.master, c.market) in MarketSpecs(d, isHostChain, isSideChain) <==>
                 && c.master == d.sglMediumRiskMC
                 && ((isHostChain && c.market in {d.sglSGlpMarket, d.sglUsdcMockMarket})
                     || (isSideChain && c.market == d.sglSDaiMarket)))
  {
    var specs := MarketSpecs(d, isHostChain, isSideChain);
    MissingAre(r, specs);
    AddCallsAre(Missing(r, specs), c);
    MarketSpecsAre(d, isHostChain, isSideChain);
  }

  /** The order of a plan, on a registry where nothing is registered: master contracts first. */
  lemma FreshPlan(owner: Address, d: Deployed)
    ensures Plan(Empty(owner), d, true, false) ==
            [RegisterSingularityMasterContract(d.sglMediumRiskMC, 1), RegisterBigBangMasterContract(d.bbMediumRiskMC, 1),
             AddBigBang(d.bbMediumRiskMC, d.bbMtEthMarket), AddBigBang(d.bbMediumRiskMC, d.bbTRethMarket),
             AddBigBang(d.bbMediumRiskMC, d.bbTWstEthMarket), AddBigBang(d.bbMediumRiskMC, d.bbTUsdcMockMarket),
             AddSingularity(d.sglMediumRiskMC, d.sglSGlpMarket), AddSingularity(d.sglMediumRiskMC, d.sglUsdcMockMarket)]
    ensures Plan(Empty(owner), d, false, true) ==
            [RegisterSingularityMasterContract(d.sglMediumRiskMC, 1), AddSingularity(d.sglMediumRiskMC, d.sglSDaiMarket)]
  {
    AllMissing(Empty(owner), MarketSpecs(d, true, false));
    AllMissing(Empty(owner), MarketSpecs(d, false, true));
  }

  lemma {:induction false} AllMissing(r: State, specs: seq<MarketSpec>)
    requires r.isMarketRegistered == {}
    ensures Missing(r, specs) == specs
  {
    if specs != [] {
      AllMissing(r, specs[..|specs| - 1]);
    }
  }

  lemma AddCallsAre(specs: seq<MarketSpec>, c: Call)
    ensures c in AddCalls(specs) <==>
              || (c.AddBigBang? && MarketSpec(BB, c.master, c.market) in specs)
              || (c.AddSingularity? && MarketSpec(SGL, c.master, c.market) in specs)
  {
    var calls := AddCalls(specs);
    if c.AddBigBang? || c.AddSingularity? {
      var s := MarketSpec(if c.AddBigBang? then BB else SGL, c.master, c.market);
      if s in specs {
        var i :| 0 <= i < |specs| && specs[i] == s;
        assert calls[i] == c;
      }
    }
    if c in calls {
      var i :| 0 <= i < |calls| && calls[i] == c;
      assert specs[i] in specs;
    }
  }

  lemma MarketSpecsAre(d: Deployed, isHostChain: bool, isSideChain: bool)
    ensures forall s :: s in MarketSpecs(d, isHostChain, isSideChain) <==>
              if s.marketType == BB then
                && isHostChain && s.mc == d.bbMediumRiskMC
                && s.market in {d.bbMtEthMarket, d.bbTRethMarket, d.bbTWstEthMarket, d.bbTUsdcMockMarket}
              else
                && s.mc == d.sglMediumRiskMC
                && ((isHostChain && s.market in {d.sglSGlpMarket, d.sglUsdcMockMarket})
                    || (isSideChain && s.market == d.sglSDaiMarket))
  {
  }

  lemma AddCallKeepsFaithful(r: State, s: MarketSpec)
    requires Faithful(r) && MastersReady(r, [s])
    requires s.market !in r.isMarketRegistered && MasterOf(r, s.market) == ZERO_ADDRESS
    ensures Step(r, AddCall(s)).Ok? && Faithful(Step(r, AddCall(s)).value)
    ensures forall x :: x != s.market ==> MasterOf(Step(r, AddCall(s)).value, x) == MasterOf(r, x)
  {
    assert [s][0] == s;
    AgreementExactly(r, AddCall(s));
  }

  lemma {:induction false} AddCallsKeepFaithful(r: State, specs: seq<MarketSpec>)
    requires Faithful(r) && MastersReady(r, specs) && NoDup(Markets(specs))
    requires forall i :: 0 <= i < |specs| ==>
               specs[i].market !in r.isMarketRegistered && MasterOf(r, specs[i].market) == ZERO_ADDRESS
    ensures Batch(r, AddCalls(specs)).Ok?
    ensures var after := Batch(r, AddCalls(specs)).value;
            Faithful(after) && forall x :: x !in Markets(specs) ==> MasterOf(after, x) == MasterOf(r, x)
  {
    if specs != [] {
      var init, last := specs[..|specs| - 1], specs[|specs| - 1];
      assert specs == init + [last];
      AddCallsPush(init, last);
      AddCallsRun(r, init);
      assert Markets(init) == Markets(specs)[..|init|];
      AddCallsKeepFaithful(r, init);
      BatchNext(r, init, last);
      var before := Batch(r, AddCalls(init)).value;
      assert last.market !in Markets(init) by {
        assert Markets(specs)[|init|] == last.market;
      }
      assert MastersReady(before, [last]);
      AddCallKeepsFaithful(before, last);
    }
  }

  /** When the missing markets have distinct addresses that Penrose does not list, and the
      master contracts are nonzero, the batch keeps all of Penrose's indexes in agreement. */
  lemma PlanKeepsAgreement(r: State, d: Deployed, isHostChain: bool, isSideChain: bool)
    requires Faithful(r) && d.sglMediumRiskMC != ZERO_ADDRESS && d.bbMediumRiskMC != ZERO_ADDRESS
    requires var missing := Missing(r, MarketSpecs(d, isHostChain, isSideChain));
             NoDup(Markets(missing)) && forall s :: s in missing ==> MasterOf(r, s.market) == ZERO_ADDRESS
    ensures Batch(r, Plan(r, d, isHostChain, isSideChain)).Ok?
    ensures Faithful(Batch(r, Plan(r, d, isHostChain, isSideChain)).value)
  {
    var specs := MarketSpecs(d, isHostChain, isSideChain);
    var masters, missing := MasterCalls(r, d, isHostChain), Missing(r, specs);
    MasterCallsRun(r, d, isHostChain);
    var ready := Batch(r, masters).value;
    SpecsReady(ready, d, isHostChain, isSideChain);
    ReadyForMissing(r, ready, specs);
    forall i | 0 <= i < |missing| ensures MasterOf(ready, missing[i].market) == ZERO_ADDRESS {
      assert missing[i] in missing;
    }
    AddCallsKeepFaithful(ready, missing);
    BatchConcat(r, masters, AddCalls(missing));
  }
}
