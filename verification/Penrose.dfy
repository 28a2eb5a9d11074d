/** The Penrose contract. Its storage variables are fields, its loops are loops, and every
    external function that reverts puts back what it wrote before. */
module Penrose {
  import opened Evm
  import opened Lists
  import opened Registry
  import opened Tokens
  import opened Treasury
  import SafeApprove

  class Penrose {
    const self: Address
    var owner: Address
    var paused: bool
    var usdoToken: Address
    var bigBangEthMarket: Address

    var singularityMasterContracts: seq<MasterContract>
    var bigbangMasterContracts: seq<MasterContract>
    var isSingularityMasterContractRegistered: set<Address>
    var isBigBangMasterContractRegistered: set<Address>
    var isMarketRegistered: set<Address>
    var allBigBangMarkets: seq<Address>
    var isOriginRegistered: set<Address>
    var allOriginsMarkets: seq<Address>
    var masterContractOf: Words<Address>
    var clonesOf: Arrays

    /** The registry part of the storage, as a value. */
    function State(): State
      reads this
    {
      Registry.State(owner, singularityMasterContracts, bigbangMasterContracts,
                     isSingularityMasterContractRegistered, isBigBangMasterContractRegistered,
                     isMarketRegistered, allBigBangMarkets, isOriginRegistered, allOriginsMarkets,
                     masterContractOf, clonesOf)
    }

    /** The rest of the storage. */
    function Settings(): (bool, Address, Address)
      reads this
    {
      (paused, usdoToken, bigBangEthMarket)
    }

    constructor (self: Address, owner: Address)
      ensures State() == Empty(owner)
      ensures Settings() == (false, ZERO_ADDRESS, ZERO_ADDRESS) && this.self == self
    {
      this.self, this.owner := self, owner;
      paused, usdoToken, bigBangEthMarket := false, ZERO_ADDRESS, ZERO_ADDRESS;
      singularityMasterContracts, bigbangMasterContracts := [], [];
      isSingularityMasterContractRegistered, isBigBangMasterContractRegistered := {}, {};
      isMarketRegistered, allBigBangMarkets := {}, [];
      isOriginRegistered, allOriginsMarkets := {}, [];
      masterContractOf, clonesOf := map[], map[];
    }

    /** The EVM's rollback of this contract's storage. */
    method Restore(before: State)
      modifies this
      ensures State() == before && Settings() == old(Settings())
    {
      owner := before.owner;
      singularityMasterContracts := before.singularityMasterContracts;
      bigbangMasterContracts := before.bigbangMasterContracts;
      isSingularityMasterContractRegistered := before.isSingularityMasterContractRegistered;
      isBigBangMasterContractRegistered := before.isBigBangMasterContractRegistered;
      isMarketRegistered := before.isMarketRegistered;
      allBigBangMarkets := before.allBigBangMarkets;
      isOriginRegistered := before.isOriginRegistered;
      allOriginsMarkets := before.allOriginsMarkets;
      masterContractOf := before.masterContractOf;
      clonesOf := before.clonesOf;
    }

    /** The call's answer is the one the transition relation gives. */
    static predicate Answers<T>(r: Result<T>, expected: Result<State>) {
      && (r.Ok? <==> expected.Ok?)
      && (r.Revert? ==> r.error == expected.error)
    }

    // ---------- Master contracts and markets ----------

    method RegisterSingularityMasterContract(sender: Address, mc: Address, risk: nat) returns (r: Result<()>)
      modifies this
      ensures var tx := Tx(sender, Call.RegisterSingularityMasterContract(mc, risk));
              Answers(r, Exec(old(State()), tx)) && State() == Apply(old(State()), tx)
      ensures Settings() == old(Settings())
    {
      if sender != owner {
        return Revert(NotOwner);
      }
      if mc in isSingularityMasterContractRegistered {
        return Revert(Registered);
      }
      singularityMasterContracts := singularityMasterContracts + [MasterContract(mc, risk)];
      isSingularityMasterContractRegistered := isSingularityMasterContractRegistered + {mc};
      return Ok(());
    }

    method RegisterBigBangMasterContract(sender: Address, mc: Address, risk: nat) returns (r: Result<()>)
      modifies this
      ensures var tx := Tx(sender, Call.RegisterBigBangMasterContract(mc, risk));
              Answers(r, Exec(old(State()), tx)) && State() == Apply(old(State()), tx)
      ensures Settings() == old(Settings())
    {
      if sender != owner {
        return Revert(NotOwner);
      }
      if mc in isBigBangMasterContractRegistered {
        return Revert(Registered);
      }
      bigbangMasterContracts := bigbangMasterContracts + [MasterContract(mc, risk)];
      isBigBangMasterContractRegistered := isBigBangMasterContractRegistered + {mc};
      return Ok(());
    }

    /** The clone is listed before its initialiser runs. */
    method Deploy(sender: Address, mc: Address, created: Creation) returns (r: Result<Address>)
      modifies this
      ensures var tx := Tx(sender, Call.Deploy(mc, created));
              Answers(r, Exec(old(State()), tx)) && State() == Apply(old(State()), tx)
      ensures r.Ok? ==> r.value == created.clone != ZERO_ADDRESS
      ensures Settings() == old(Settings())
    {
      if sender != owner {
        return Revert(NotOwner);
      }
      if mc == ZERO_ADDRESS {
        return Revert(NoMasterContract);
      }
      var before := State();
      masterContractOf := Store(masterContractOf, created.clone, mc);
      clonesOf := StoreArray(clonesOf, mc, LoadArray(clonesOf, mc) + [created.clone]);
      // the call of the initialiser; there is nothing to call at address 0
      if created.clone == ZERO_ADDRESS || !created.initSucceeds {
        Restore(before);
        return Revert(InitFailed);
      }
      return Ok(created.clone);
    }

    // A clone that was deployed is never at address 0, so the check for it does not show
    // in the next two methods.

    method RegisterSingularity(sender: Address, mc: Address, created: Creation) returns (r: Result<Address>)
      modifies this
      ensures var tx := Tx(sender, Call.RegisterSingularity(mc, created));
              Answers(r, Exec(old(State()), tx)) && State() == Apply(old(State()), tx)
      ensures r.Ok? ==> r.value == created.clone
      ensures Settings() == old(Settings())
    {
      if sender != owner {
        return Revert(NotOwner);
      }
      if mc !in isSingularityMasterContractRegistered {
        return Revert(NotRegistered);
      }
      var before := State();
      r := Deploy(sender, mc, created);
      if r.Revert? {
        return;
      }
      if !created.hasCode {
        Restore(before);
        return Revert(Failed);
      }
      isMarketRegistered := isMarketRegistered + {r.value};
    }

    method RegisterBigBang(sender: Address, mc: Address, created: Creation) returns (r: Result<Address>)
      modifies this
      ensures var tx := Tx(sender, Call.RegisterBigBang(mc, created));
              Answers(r, Exec(old(State()), tx)) && State() == Apply(old(State()), tx)
      ensures r.Ok? ==> r.value == created.clone
      ensures Settings() == old(Settings())
    {
      if sender != owner {
        return Revert(NotOwner);
      }
      if mc !in isBigBangMasterContractRegistered {
        return Revert(NotRegistered);
      }
      var before := State();
      r := Deploy(sender, mc, created);
      if r.Revert? {
        return;
      }
      if !created.hasCode {
        Restore(before);
        return Revert(Failed);
      }
      isMarketRegistered := isMarketRegistered + {r.value};
      allBigBangMarkets := allBigBangMarkets + [r.value];
    }

    method AddSingularity(sender: Address, mc: Address, market: Address) returns (r: Result<()>)
      modifies this
      ensures var tx := Tx(sender, Call.AddSingularity(mc, market));
              Answers(r, Exec(old(State()), tx)) && State() == Apply(old(State()), tx)
      ensures Settings() == old(Settings())
    {
      if sender != owner {
        return Revert(NotOwner);
      }
      if mc !in isSingularityMasterContractRegistered {
        return Revert(NotRegistered);
      }
      if market in isMarketRegistered {
        return Revert(AlreadyAdded);
      }
      isMarketRegistered := isMarketRegistered + {market};
      clonesOf := StoreArray(clonesOf, mc, LoadArray(clonesOf, mc) + [market]);
      masterContractOf := Store(masterContractOf, market, mc);
      return Ok(());
    }

    method AddBigBang(sender: Address, mc: Address, market: Address) returns (r: Result<()>)
      modifies this
      ensures var tx := Tx(sender, Call.AddBigBang(mc, market));
              Answers(r, Exec(old(State()), tx)) && State() == Apply(old(State()), tx)
      ensures Settings() == old(Settings())
    {
      if sender != owner {
        return Revert(NotOwner);
      }
      if mc !in isBigBangMasterContractRegistered {
        return Revert(NotRegistered);
      }
      if market in isMarketRegistered {
        return Revert(AlreadyAdded);
      }
      isMarketRegistered := isMarketRegistered + {market};
      clonesOf := StoreArray(clonesOf, mc, LoadArray(clonesOf, mc) + [market]);
      masterContractOf := Store(masterContractOf, market, mc);
      allBigBangMarkets := allBigBangMarkets + [market];
      return Ok(());
    }

    method AddOriginsMarket(sender: Address, market: Address) returns (r: Result<()>)
      modifies this
      ensures var tx := Tx(sender, Call.AddOriginsMarket(market));
              Answers(r, Exec(old(State()), tx)) && State() == Apply(old(State()), tx)
      ensures Settings() == old(Settings())
    {
      if sender != owner {
        return Revert(NotOwner);
      }
      if market in isOriginRegistered {
        return Revert(AlreadyAdded);
      }
      isOriginRegistered := isOriginRegistered + {market};
      allOriginsMarkets := allOriginsMarkets + [market];
      return Ok(());
    }

    /** The first position of an address in a list. */
    method FindBigBangIndex(arr: seq<Address>, a: Address) returns (r: Result<nat>)
      ensures a in arr ==> r == Ok(IndexOf(arr, a))
      ensures a !in arr ==> r == Revert(AddressNotValid)
    {
      var i := 0;
      while i < |arr|
        invariant i <= |arr| && a !in arr[..i]
      {
        if arr[i] == a {
          FirstIndex(arr, a, i);
          return Ok(i);
        }
        i := i + 1;
      }
      return Revert(AddressNotValid);
    }

    /** Removal from a list: the last element fills the gap, then the list is shortened. */
    method SwapAndPop(arr: seq<Address>, a: Address) returns (r: Result<seq<Address>>)
      ensures a in arr ==> r == Ok(RemoveOne(arr, a))
      ensures a !in arr ==> r == Revert(AddressNotValid)
    {
      var index := FindBigBangIndex(arr, a);
      if index.Revert? {
        return Revert(index.error);
      }
      var moved := arr[index.value := arr[|arr| - 1]];
      return Ok(moved[..|moved| - 1]);
    }

    /** Removal from allBigBangMarkets or allOriginsMarkets. */
    method RemoveFromIndex(mkt: Address, marketType: nat) returns (r: Result<()>)
      modifies this
      ensures var expected := Registry.RemoveFromIndex(old(State()), mkt, marketType);
              Answers(r, expected) && (r.Ok? ==> State() == expected.value)
      ensures Settings() == old(Settings())
    {
      if marketType == BIG_BANG {
        var rest := SwapAndPop(allBigBangMarkets, mkt);
        if rest.Revert? {
          return Revert(rest.error);
        }
        allBigBangMarkets := rest.value;
      } else if marketType == ORIGINS {
        var rest := SwapAndPop(allOriginsMarkets, mkt);
        if rest.Revert? {
          return Revert(rest.error);
        }
        allOriginsMarkets := rest.value;
        isOriginRegistered := isOriginRegistered - {mkt};
      }
      return Ok(());
    }

    method RemoveFromClones(mc: Address, mkt: Address) returns (r: Result<()>)
      modifies this
      ensures var expected := Registry.RemoveFromClones(old(State()), mc, mkt);
              Answers(r, expected) && (r.Ok? ==> State() == expected.value)
      ensures Settings() == old(Settings())
    {
      var rest := SwapAndPop(LoadArray(clonesOf, mc), mkt);
      if rest.Revert? {
        return Revert(rest.error);
      }
      clonesOf := StoreArray(clonesOf, mc, rest.value);
      return Ok(());
    }

    /** The flags are cleared before the lists are searched; a search that fails undoes it. */
    method UnregisterContract(sender: Address, mkt: Address, marketType: nat) returns (r: Result<()>)
      modifies this
      ensures var tx := Tx(sender, Call.UnregisterContract(mkt, marketType));
              Answers(r, Exec(old(State()), tx)) && State() == Apply(old(State()), tx)
      ensures Settings() == old(Settings())
    {
      if sender != owner {
        return Revert(NotOwner);
      }
      var before := State();
      var mc := Load(masterContractOf, mkt);
      isMarketRegistered := isMarketRegistered - {mkt};
      masterContractOf := Store(masterContractOf, mkt, ZERO_ADDRESS);
      r := RemoveFromIndex(mkt, marketType);
      if r.Ok? && marketType != ORIGINS {
        r := RemoveFromClones(mc, mkt);
      }
      if r.Revert? {
        Restore(before);
      }
    }

    // ---------- Views ----------

    /** Copies a list into an array from a position on; writing past the end panics. */
    static method CopyInto(markets: array<Address>, at: nat, clones: seq<Address>) returns (ok: bool)
      requires at <= markets.Length
      modifies markets
      ensures ok <==> at + |clones| <= markets.Length
      ensures ok ==> markets[..at + |clones|] == old(markets[..at]) + clones
    {
      var j := 0;
      while j < |clones|
        invariant j <= |clones| && at + j <= markets.Length
        invariant markets[..at + j] == old(markets[..at]) + clones[..j]
      {
        if at + j >= markets.Length {
          return false;
        }
        assert clones[..j + 1] == clones[..j] + [clones[j]];
        markets[at + j] := clones[j];
        assert markets[..at + j + 1] == markets[..at + j] + [clones[j]];
        j := j + 1;
      }
      assert clones[..j] == clones;
      return true;
    }

    /** The length of the listing, by arithmetic that wraps. */
    method CountClones(masters: seq<MasterContract>) returns (marketsLength: nat)
      ensures marketsLength == |Flatten(State(), masters)| % WORD
    {
      marketsLength := 0;
      var i := 0;
      while i < |masters|
        invariant i <= |masters|
        invariant marketsLength == |Flatten(State(), masters[..i])| % WORD
      {
        FlattenNext(State(), masters, i);
        var count := |LoadArray(clonesOf, masters[i].location)|;
        WrapAdd(|Flatten(State(), masters[..i])|, count);
        marketsLength := (marketsLength + count) % WORD;
        i := i + 1;
      }
      assert masters[..i] == masters;
    }

    /** Lists the clones of any master contracts: counts them, then fills an array of that
        size. */
    method GetAllMasterContractClones(masters: seq<MasterContract>) returns (r: Result<seq<Address>>)
      ensures r == if |Flatten(State(), masters)| < WORD then Ok(Flatten(State(), masters)) else Revert(Panic)
    {
      var marketsLength := CountClones(masters);
      var markets := new Address[marketsLength];
      var marketIndex: nat, i := 0, 0;
      while i < |masters|
        invariant i <= |masters| && marketIndex <= markets.Length
        invariant markets[..marketIndex] == Flatten(State(), masters[..i])
      {
        FlattenNext(State(), masters, i);
        FlattenPrefix(State(), masters, i + 1);
        var clones := LoadArray(clonesOf, masters[i].location);
        var ok := CopyInto(markets, marketIndex, clones);
        if !ok {
          return Revert(Panic);
        }
        marketIndex := marketIndex + |clones|;
        i := i + 1;
      }
      assert masters[..i] == masters;
      assert markets[..] == markets[..marketIndex];
      return Ok(markets[..]);
    }

    method SingularityMarkets() returns (r: Result<seq<Address>>)
      ensures r == if |Flatten(State(), singularityMasterContracts)| < WORD
                   then Ok(Flatten(State(), singularityMasterContracts)) else Revert(Panic)
    {
      r := GetAllMasterContractClones(singularityMasterContracts);
    }

    method BigBangMarkets() returns (r: Result<seq<Address>>)
      ensures r == if |Flatten(State(), bigbangMasterContracts)| < WORD
                   then Ok(Flatten(State(), bigbangMasterContracts)) else Revert(Panic)
    {
      r := GetAllMasterContractClones(bigbangMasterContracts);
    }

    /** The debt of all live BigBang markets; `debt` holds the answers of the markets. */
    method ViewTotalDebt(debt: map<Address, nat>) returns (r: Result<nat>)
      ensures r.Ok? <==> TotalDebt(State(), debt).Ok?
      ensures r.Ok? ==> r == TotalDebt(State(), debt)
    {
      var total, i := 0, 0;
      var len := |allBigBangMarkets|;
      while i < len
        invariant i <= len
        invariant RunningDebt(allBigBangMarkets[..i], isMarketRegistered, debt) == Ok(total)
      {
        var market := allBigBangMarkets[i];
        RunningDebtNext(State(), i, debt);
        if market in isMarketRegistered {
          if market !in debt {
            return Revert(CallFailed);
          }
          if total + debt[market] >= WORD {
            return Revert(Panic);
          }
          total := total + debt[market];
        }
        i := i + 1;
      }
      assert allBigBangMarkets[..i] == allBigBangMarkets;
      RunningDebtIsTotal(State(), debt);
      return Ok(total);
    }

    // ---------- Money ----------

    /** Approves, lets twTap pull, and takes the approval back. */
    method DistributeOnTwTap(chain: Chain, amount: nat, rewardTokenId: nat, asset: Address, twTap: Address)
      returns (r: Result<()>)
      modifies chain
      ensures r.Ok? <==> Distribute(old(chain.world), self, twTap, rewardTokenId, asset, amount).Ok?
      ensures r.Ok? ==>
                chain.world == Distribute(old(chain.world), self, twTap, rewardTokenId, asset, amount).value
    {
      r := SafeApprove.SafeApprove(chain, self, asset, twTap, amount);
      if r.Revert? {
        return;
      }
      var pulled := DistributeReward(chain.world, self, twTap, rewardTokenId, amount);
      if pulled.Revert? {
        return Revert(pulled.error);
      }
      RewardKeepsTokens(chain.world, self, twTap, rewardTokenId, amount);
      chain.world := pulled.value;
      r := SafeApprove.SafeApprove(chain, self, asset, twTap, 0);
    }

    /** Each live BigBang market hands over its open interest. */
    method ConsumeOpenInterest(chain: Chain) returns (r: Result<nat>)
      modifies chain
      ensures r.Ok? <==> Live(State()) <= old(chain.world).openInterest.Keys
                         && SetSum(Live(State()), old(chain.world).openInterest) < WORD
      ensures r.Ok? ==>
                && r.value == SetSum(Live(State()), old(chain.world).openInterest)
                && chain.world == old(chain.world).(openInterest := Consume(old(chain.world).openInterest, Live(State())))
    {
      ghost var before, interest := chain.world, chain.world.openInterest;
      var sum, i := 0, 0;
      var len := |allBigBangMarkets|;
      ghost var handed: set<Address> := {};
      assert Consume(interest, handed) == interest;
      while i < len
        invariant i <= len
        invariant handed == (set x | x in allBigBangMarkets[..i] && x in isMarketRegistered) <= interest.Keys
        invariant sum == SetSum(handed, interest) < WORD
        invariant chain.world == before.(openInterest := Consume(interest, handed))
      {
        var market := allBigBangMarkets[i];
        assert allBigBangMarkets[..i + 1] == allBigBangMarkets[..i] + [market];
        if market in isMarketRegistered {
          assert market in Live(State());
          // consumeMintableOpenInterestDebt()
          if market !in chain.world.openInterest {
            return Revert(CallFailed);
          }
          var debt := chain.world.openInterest[market];
          chain.world := chain.world.(openInterest := chain.world.openInterest[market := 0]);
          HandOver(interest, handed, market);
          handed := handed + {market};
          if sum + debt >= WORD {
            if Live(State()) <= interest.Keys {
              SetSumMonotone(handed, Live(State()), interest);
            }
            return Revert(Panic);
          }
          sum := sum + debt;
        }
        i := i + 1;
      }
      assert allBigBangMarkets[..i] == allBigBangMarkets;
      assert handed == Live(State());
      return Ok(sum);
    }

    /** The sum that was handed over is minted and sent on. A revert anywhere undoes all of
        it. */
    method MintOpenInterestDebt(sender: Address, chain: Chain, twTap: Address) returns (r: Result<()>)
      modifies chain
      ensures r.Ok? <==> sender == owner && Mint(State(), old(chain.world), usdoToken, self, twTap).Ok?
      ensures chain.world == if r.Ok? then Mint(State(), old(chain.world), usdoToken, self, twTap).value
                             else old(chain.world)
    {
      if sender != owner {
        return Revert(NotOwner);
      }
      var before := chain.world;
      var sum := ConsumeOpenInterest(chain);
      if sum.Revert? {
        chain.world := before;
        return Revert(sum.error);
      }
      if sum.value > 0 {
        var usdo := usdoToken;
        if usdo !in chain.world.tokens || (usdo, self) !in chain.world.minters
           || Supply(chain.world.tokens, usdo) + sum.value >= WORD
        {
          chain.world := before;
          return Revert(CallFailed);
        }
        chain.world := chain.world.(tokens := Issue(chain.world.tokens, usdo, self, sum.value));
        if twTap !in chain.world.twTaps {
          chain.world := before;
          return Revert(CallFailed);
        }
        var rewardTokenId := Load(chain.world.twTaps[twTap].index, usdo);
        r := DistributeOnTwTap(chain, sum.value, rewardTokenId, usdo, twTap);
        if r.Revert? {
          chain.world := before;
        }
        return;
      }
      return Ok(());
    }

    /** Collects one market's fees and sends them to twTap. */
    method DepositFeesToTwTap(chain: Chain, market: Address, twTap: Address) returns (r: Result<()>)
      modifies chain
      ensures r.Ok? <==> FeeStep(chain.quote, State(), old(chain.world), self, twTap, market).Ok?
      ensures r.Ok? ==> chain.world == FeeStep(chain.quote, State(), old(chain.world), self, twTap, market).value
    {
      if market !in isMarketRegistered {
        return Revert(NotValid);
      }
      // feeShares, _asset() and _assetId()
      var refreshed := Refresh(chain.world, self, market);
      if refreshed.Revert? {
        return Revert(refreshed.error);
      }
      var answer := chain.world.fees[market];
      chain.world := refreshed.value;
      if answer.shares == 0 {
        return Ok(());
      }
      // toAmount() of the shares, then withdraw() of the same shares
      var vault := chain.world.vaults[answer.assetId];
      var feeAmount := chain.quote(vault.supply, vault.backing, answer.shares);
      var withdrawn := Withdraw(chain.quote, chain.world, self, answer.assetId, answer.shares);
      if withdrawn.Revert? {
        return Revert(withdrawn.error);
      }
      chain.world := withdrawn.value;
      if twTap !in chain.world.twTaps {
        return Revert(CallFailed);
      }
      var rewardTokenId := Load(chain.world.twTaps[twTap].index, answer.asset);
      r := DistributeOnTwTap(chain, feeAmount, rewardTokenId, answer.asset, twTap);
    }

    method DepositAllFees(chain: Chain, markets: seq<Address>, twTap: Address) returns (r: Result<()>)
      modifies chain
      ensures r.Ok? <==> FeeBatch(chain.quote, State(), old(chain.world), self, twTap, markets).Ok?
      ensures r.Ok? ==> chain.world == FeeBatch(chain.quote, State(), old(chain.world), self, twTap, markets).value
    {
      ghost var before := chain.world;
      var i := 0;
      while i < |markets|
        invariant i <= |markets|
        invariant FeeBatch(chain.quote, State(), before, self, twTap, markets[..i]) == Ok(chain.world)
      {
        assert markets[..i + 1][..i] == markets[..i];
        r := DepositFeesToTwTap(chain, markets[i], twTap);
        if r.Revert? {
          FeeBatchStops(chain.quote, State(), before, self, twTap, markets, i + 1);
          return;
        }
        i := i + 1;
      }
      assert markets[..i] == markets;
      return Ok(());
    }

    method WithdrawAllMarketFees(sender: Address, chain: Chain, markets: seq<Address>, twTap: Address)
      returns (r: Result<()>)
      modifies chain
      ensures r.Ok? <==> sender == owner && !paused && twTap != ZERO_ADDRESS
                         && FeeBatch(chain.quote, State(), old(chain.world), self, twTap, markets).Ok?
      ensures chain.world == if r.Ok? then FeeBatch(chain.quote, State(), old(chain.world), self, twTap, markets).value
                             else old(chain.world)
    {
      if sender != owner {
        return Revert(NotOwner);
      }
      if paused {
        return Revert(Paused);
      }
      if twTap == ZERO_ADDRESS {
        return Revert(ZeroAddress);
      }
      var before := chain.world;
      r := DepositAllFees(chain, markets, twTap);
      if r.Revert? {
        chain.world := before;
      }
    }

    // ---------- Accrual and owner calls ----------

    method ReAccrueMarkets(chain: Chain, includeMainMarket: bool) returns (r: Result<()>)
      modifies chain
      ensures var expected := AccrueAll(old(chain.world), AccrueTargets(State(), bigBangEthMarket, includeMainMarket),
                                        bigBangEthMarket);
              && (r.Ok? <==> expected.Ok?)
              && (r.Ok? ==> chain.world == expected.value)
    {
      var markets, i := allBigBangMarkets, 0;
      ghost var before := chain.world;
      ghost var keep := isMarketRegistered - if includeMainMarket then {} else {bigBangEthMarket};
      NothingAccrued(before, bigBangEthMarket);
      while i < |markets|
        invariant i <= |markets|
        invariant AccrueAll(before, Keep(markets[..i], keep), bigBangEthMarket) == Ok(chain.world)
      {
        var market := markets[i];
        AccrueNext(before, markets, i, keep, bigBangEthMarket);
        if market in isMarketRegistered {
          if includeMainMarket || market != bigBangEthMarket {
            // accrue()
            if market !in chain.world.accruable {
              return Revert(CallFailed);
            }
            chain.world := chain.world.(accrued := chain.world.accrued + [Accrual(market, bigBangEthMarket)]);
          }
        }
        i := i + 1;
      }
      assert markets[..i] == markets;
      return Ok(());
    }

    /** Anyone may call; only the main market's call has an effect. */
    method ReAccrueBigBangMarkets(sender: Address, chain: Chain) returns (r: Result<()>)
      modifies chain
      ensures var expected := AccrueAll(old(chain.world), AccrueTargets(State(), bigBangEthMarket, false),
                                        bigBangEthMarket);
              && (r.Ok? <==> !paused && (sender == bigBangEthMarket ==> expected.Ok?))
              && chain.world == if r.Ok? && sender == bigBangEthMarket then expected.value else old(chain.world)
    {
      if paused {
        return Revert(Paused);
      }
      if sender == bigBangEthMarket {
        var before := chain.world;
        r := ReAccrueMarkets(chain, false);
        if r.Revert? {
          chain.world := before;
        }
        return;
      }
      return Ok(());
    }

    /** Before the main market changes, the others are accrued under the outgoing one, just
        as an accrual without the main market would. */
    method SetBigBangEthMarket(sender: Address, chain: Chain, market: Address) returns (r: Result<()>)
      modifies this, chain
      ensures State() == old(State()) && paused == old(paused) && usdoToken == old(usdoToken)
      ensures var main := old(bigBangEthMarket);
              var expected := if main == ZERO_ADDRESS then Ok(old(chain.world))
                              else AccrueAll(old(chain.world), AccrueTargets(State(), main, false), main);
              && (r.Ok? <==> sender == owner && market != ZERO_ADDRESS && expected.Ok?)
              && chain.world == (if r.Ok? then expected.value else old(chain.world))
              && bigBangEthMarket == if r.Ok? then market else main
    {
      if sender != owner {
        return Revert(NotOwner);
      }
      if market == ZERO_ADDRESS {
        return Revert(ZeroAddress);
      }
      if bigBangEthMarket != ZERO_ADDRESS {
        var before := chain.world;
        var markets, i := allBigBangMarkets, 0;
        ghost var keep := isMarketRegistered - {bigBangEthMarket};
        NothingAccrued(before, bigBangEthMarket);
        while i < |markets|
          invariant i <= |markets|
          invariant AccrueAll(before, Keep(markets[..i], keep), bigBangEthMarket) == Ok(chain.world)
          invariant State() == old(State()) && Settings() == old(Settings())
        {
          var other := markets[i];
          AccrueNext(before, markets, i, keep, bigBangEthMarket);
          if other != bigBangEthMarket && other in isMarketRegistered {
            // accrue()
            if other !in chain.world.accruable {
              chain.world := before;
              return Revert(CallFailed);
            }
            chain.world := chain.world.(accrued := chain.world.accrued + [Accrual(other, bigBangEthMarket)]);
          }
          i := i + 1;
        }
        assert markets[..i] == markets;
      }
      bigBangEthMarket := market;
      return Ok(());
    }

    /** One call of a batch, to a market under a registered master contract and with code. */
    method CallMarket(chain: Chain, target: Address, data: Bytes) returns (r: Result<(bool, Bytes)>)
      modifies chain
      ensures r.Ok? <==> Callable(State(), old(chain.world), target)
      ensures r.Ok? ==>
                && r.value == chain.respond(old(chain.world).executed, target, data)
                && chain.world == old(chain.world).(executed := old(chain.world).executed
                                                                + [Execution(target, data, r.value.0, r.value.1)])
      ensures r.Revert? ==> chain.world == old(chain.world)
    {
      var master := Load(masterContractOf, target);
      if master !in isSingularityMasterContractRegistered && master !in isBigBangMasterContractRegistered {
        return Revert(NotAuthorized);
      }
      if target !in chain.world.code {
        return Revert(NotValid);
      }
      var answer := chain.respond(chain.world.executed, target, data);
      chain.world := chain.world.(executed := chain.world.executed + [Execution(target, data, answer.0, answer.1)]);
      return Ok(answer);
    }

    /** Calls each market in turn, up to the first that stops the batch. */
    method CallMarkets(chain: Chain, mc: seq<Address>, data: seq<Bytes>, forceSuccess: bool)
      returns (r: Result<(seq<bool>, seq<Bytes>)>)
      requires |mc| == |data|
      modifies chain
      ensures r.Ok? <==> ExecuteBatch(chain.respond, State(), old(chain.world), mc, data, forceSuccess).Ok?
      ensures r.Ok? ==>
                var log := CallLog(chain.respond, old(chain.world).executed, mc, data);
                && chain.world == old(chain.world).(executed := old(chain.world).executed + log)
                && LinesUp(log, r.value.0, r.value.1)
    {
      var len := |mc|;
      var success, result := new bool[len], new Bytes[len];
      ghost var before := chain.world;
      ghost var log := CallLog(chain.respond, before.executed, mc, data);
      var i := 0;
      assert before.executed + log[..0] == before.executed;
      while i < len
        invariant i <= len
        invariant chain.world == before.(executed := before.executed + log[..i])
        invariant forall j :: 0 <= j < i ==> Callable(State(), before, mc[j]) && (forceSuccess ==> log[j].success)
        invariant forall j :: 0 <= j < i ==> success[j] == log[j].success && result[j] == log[j].result
      {
        CallLogLinesUp(chain.respond, before.executed, mc, data, i);
        assert log[..i + 1] == log[..i] + [log[i]];
        var answer := CallMarket(chain, mc[i], data[i]);
        if answer.Revert? {
          BadEntryStops(chain.respond, State(), before, mc, data, forceSuccess, i);
          return Revert(answer.error);
        }
        success[i], result[i] := answer.value.0, answer.value.1;
        if forceSuccess && !success[i] {
          BadEntryStops(chain.respond, State(), before, mc, data, forceSuccess, i);
          return Revert(CallFailed);
        }
        i := i + 1;
      }
      assert log[..i] == log;
      return Ok((success[..], result[..]));
    }

    /** Calls every market of the batch, or none of them. */
    method ExecuteMarketFn(sender: Address, chain: Chain, mc: seq<Address>, data: seq<Bytes>, forceSuccess: bool)
      returns (r: Result<(seq<bool>, seq<Bytes>)>)
      modifies chain
      ensures var batch := ExecuteBatch(chain.respond, State(), old(chain.world), mc, data, forceSuccess);
              && (r.Ok? <==> sender == owner && batch.Ok?)
              && (r.Revert? ==> chain.world == old(chain.world))
              && (r.Ok? ==>
                    && chain.world == old(chain.world).(executed := old(chain.world).executed + batch.value)
                    && LinesUp(batch.value, r.value.0, r.value.1))
    {
      if sender != owner {
        return Revert(NotOwner);
      }
      if |mc| != |data| {
        return Revert(LengthMismatch);
      }
      var before := chain.world;
      r := CallMarkets(chain, mc, data, forceSuccess);
      if r.Revert? {
        chain.world := before;
      }
    }
  }

  // ---------- Facts the loops use ----------

  lemma FirstIndex(s: seq<Address>, x: Address, i: nat)
    requires i < |s| && s[i] == x && x !in s[..i]
    ensures IndexOf(s, x) == i
  {
    var k := IndexOf(s, x);
    assert forall j :: 0 <= j < i ==> s[j] == s[..i][j] != x;
    assert forall j :: 0 <= j < k ==> s[j] == s[..k][j] != x;
  }

  lemma FlattenNext(r: State, masters: seq<MasterContract>, i: nat)
    requires i < |masters|
    ensures Flatten(r, masters[..i + 1]) == Flatten(r, masters[..i]) + LoadArray(r.clonesOf, masters[i].location)
  {
    assert masters[..i + 1][..i] == masters[..i];
  }

  lemma {:induction false} FlattenPrefix(r: State, masters: seq<MasterContract>, i: nat)
    requires i <= |masters|
    ensures |Flatten(r, masters[..i])| <= |Flatten(r, masters)|
  {
    var n := |masters|;
    if i < n {
      assert masters[..n - 1][..i] == masters[..i];
      FlattenPrefix(r, masters[..n - 1], i);
    } else {
      assert masters[..i] == masters;
    }
  }

  lemma WrapAdd(a: nat, b: nat)
    ensures (a % WORD + b) % WORD == (a + b) % WORD
  {
    var q := a / WORD;
    assert a == q * WORD + a % WORD;
    var s := a % WORD + b;
    assert s == (s / WORD) * WORD + s % WORD;
    assert a + b == (q + s / WORD) * WORD + s % WORD;
  }

  lemma KeepNext(s: seq<Address>, i: nat, keep: set<Address>)
    requires i < |s|
    ensures Keep(s[..i + 1], keep) == if s[i] in keep then Keep(s[..i], keep) + [s[i]] else Keep(s[..i], keep)
  {
    assert s[..i + 1] == s[..i] + [s[i]];
    KeepPush(s[..i], s[i], keep);
  }

  /** The sum as the loop builds it. */
  function RunningDebt(s: seq<Address>, keep: set<Address>, debt: map<Address, nat>): Result<nat> {
    if s == [] then Ok(0)
    else
      var before :- RunningDebt(s[..|s| - 1], keep, debt);
      var last := s[|s| - 1];
      if last !in keep then Ok(before)
      else if last !in debt then Revert(CallFailed)
      else if before + debt[last] >= WORD then Revert(Panic)
      else Ok(before + debt[last])
  }

  lemma {:induction false} RunningDebtIsSum(s: seq<Address>, keep: set<Address>, debt: map<Address, nat>)
    ensures RunningDebt(s, keep, debt).Ok? ==>
              && (forall x :: x in Keep(s, keep) ==> x in debt)
              && RunningDebt(s, keep, debt).value == ListSum(Keep(s, keep), debt) < WORD
    ensures RunningDebt(s, keep, debt).Revert? ==>
              (forall x :: x in Keep(s, keep) ==> x in debt) ==> ListSum(Keep(s, keep), debt) >= WORD
  {
    if s != [] {
      var init, x := s[..|s| - 1], s[|s| - 1];
      assert s == init + [x];
      RunningDebtIsSum(init, keep, debt);
      KeepPush(init, x, keep);
      if x in keep && forall y :: y in Keep(s, keep) ==> y in debt {
        assert x in Keep(s, keep);
        ListSumPush(Keep(init, keep), x, debt);
      }
    }
  }

  lemma RunningDebtIsTotal(r: State, debt: map<Address, nat>)
    ensures var running := RunningDebt(r.allBigBangMarkets, r.isMarketRegistered, debt);
            && (running.Ok? <==> TotalDebt(r, debt).Ok?)
            && (running.Ok? ==> running == TotalDebt(r, debt))
  {
    RunningDebtIsSum(r.allBigBangMarkets, r.isMarketRegistered, debt);
    LiveListIsLive(r);
    assert forall x :: x in Live(r) <==> x in LiveList(r);
  }

  lemma RunningDebtNext(r: State, i: nat, debt: map<Address, nat>)
    requires i < |r.allBigBangMarkets|
    requires RunningDebt(r.allBigBangMarkets[..i], r.isMarketRegistered, debt).Ok?
    ensures var s, keep := r.allBigBangMarkets, r.isMarketRegistered;
            var total, x := RunningDebt(s[..i], keep, debt).value, s[i];
            if x !in keep then RunningDebt(s[..i + 1], keep, debt) == Ok(total)
            else if x in debt && total + debt[x] < WORD then RunningDebt(s[..i + 1], keep, debt) == Ok(total + debt[x])
            else TotalDebt(r, debt).Revert?
  {
    var s, keep := r.allBigBangMarkets, r.isMarketRegistered;
    assert s[..i + 1][..i] == s[..i];
    if RunningDebt(s[..i + 1], keep, debt).Revert? {
      RunningDebtStops(s, i + 1, keep, debt);
      RunningDebtIsTotal(r, debt);
    }
  }

  lemma {:induction false} RunningDebtStops(s: seq<Address>, i: nat, keep: set<Address>, debt: map<Address, nat>)
    requires i <= |s| && RunningDebt(s[..i], keep, debt).Revert?
    ensures RunningDebt(s, keep, debt).Revert?
  {
    var n := |s|;
    if i < n {
      assert s[..n - 1][..i] == s[..i];
      RunningDebtStops(s[..n - 1], i, keep, debt);
    } else {
      assert s[..i] == s;
    }
  }

  /** One more market hands over its open interest: nothing, if it did before. */
  lemma HandOver(interest: map<Address, nat>, handed: set<Address>, market: Address)
    requires handed <= interest.Keys && market in interest
    ensures Consume(interest, handed)[market := 0] == Consume(interest, handed + {market})
    ensures SetSum(handed + {market}, interest) == SetSum(handed, interest) + Consume(interest, handed)[market]
  {
    if market in handed {
      assert handed + {market} == handed;
    } else {
      assert handed + {market} - {market} == handed;
      SetSumTake(handed + {market}, interest, market);
    }
  }

  lemma {:induction false} FeeBatchStops(quote: Quote, r: State, w: World, self: Address, twTap: Address,
                                         markets: seq<Address>, i: nat)
    requires i <= |markets| && FeeBatch(quote, r, w, self, twTap, markets[..i]).Revert?
    ensures FeeBatch(quote, r, w, self, twTap, markets).Revert?
  {
    var n := |markets|;
    if i < n {
      assert markets[..n - 1][..i] == markets[..i];
      FeeBatchStops(quote, r, w, self, twTap, markets[..n - 1], i);
    } else {
      assert markets[..i] == markets;
    }
  }

  /** The two result arrays, entry by entry, are what the calls answered. */
  predicate LinesUp(log: seq<Execution>, success: seq<bool>, result: seq<Bytes>) {
    && |success| == |result| == |log|
    && forall i :: 0 <= i < |log| ==> success[i] == log[i].success && result[i] == log[i].result
  }

  lemma BadEntryStops(respond: Responder, r: State, w: World, targets: seq<Address>, data: seq<Bytes>, force: bool, i: nat)
    requires i < |targets| == |data|
    requires Callable(r, w, targets[i]) ==> force && !CallLog(respond, w.executed, targets, data)[i].success
    ensures ExecuteBatch(respond, r, w, targets, data, force).Revert?
  {
  }

  lemma RewardKeepsTokens(w: World, self: Address, twTap: Address, id: nat, amount: nat)
    requires DistributeReward(w, self, twTap, id, amount).Ok?
    ensures SameTokens(w.tokens, DistributeReward(w, self, twTap, id, amount).value.tokens)
  {
  }

  lemma NothingAccrued(w: World, mainMarket: Address)
    ensures AccrueAll(w, [], mainMarket) == Ok(w)
  {
    assert w.accrued + Accruals([], mainMarket) == w.accrued;
  }

  lemma AccruePush(w: World, targets: seq<Address>, x: Address, mainMarket: Address)
    requires AccrueAll(w, targets, mainMarket).Ok? && x in w.accruable
    ensures var sofar := AccrueAll(w, targets, mainMarket).value;
            AccrueAll(w, targets + [x], mainMarket)
            == Ok(sofar.(accrued := sofar.accrued + [Accrual(x, mainMarket)]))
  {
    assert Accruals(targets + [x], mainMarket) == Accruals(targets, mainMarket) + [Accrual(x, mainMarket)];
    assert w.accrued + Accruals(targets + [x], mainMarket)
           == w.accrued + Accruals(targets, mainMarket) + [Accrual(x, mainMarket)];
  }

  /** One more element of the list: skipped, accrued, or the end of the accrual. */
  lemma AccrueNext(w: World, s: seq<Address>, i: nat, keep: set<Address>, mainMarket: Address)
    requires i < |s| && AccrueAll(w, Keep(s[..i], keep), mainMarket).Ok?
    ensures var sofar := AccrueAll(w, Keep(s[..i], keep), mainMarket).value;
            && (s[i] !in keep ==> AccrueAll(w, Keep(s[..i + 1], keep), mainMarket) == Ok(sofar))
            && (s[i] in keep && s[i] in w.accruable ==>
                  AccrueAll(w, Keep(s[..i + 1], keep), mainMarket)
                  == Ok(sofar.(accrued := sofar.accrued + [Accrual(s[i], mainMarket)])))
            && (s[i] in keep && s[i] !in w.accruable ==> AccrueAll(w, Keep(s, keep), mainMarket).Revert?)
            && sofar.accruable == w.accruable
  {
    KeepNext(s, i, keep);
    if s[i] in keep {
      assert s[i] in Keep(s, keep);
      if s[i] in w.accruable {
        AccruePush(w, Keep(s[..i], keep), s[i], mainMarket);
      }
    }
  }
}
