/** What the registry's readers see and move: debt, minting, fees, accrual and owner calls. */
module Treasury {
  import opened Evm
  import opened Lists
  import opened Registry
  import opened RegistryInvariants
  import opened RegistryRefinement
  import opened Tokens
  import opened SafeApprove

  /** The BigBang markets that count: listed and registered. */
  function Live(r: State): set<Address> {
    set x | x in r.allBigBangMarkets && x in r.isMarketRegistered
  }

  /** The same as a list, in the order the loops visit it. */
  function LiveList(r: State): seq<Address> {
    Keep(r.allBigBangMarkets, r.isMarketRegistered)
  }

  lemma LiveListIsLive(r: State)
    ensures Elems(LiveList(r)) == Live(r)
    ensures NoDup(r.allBigBangMarkets) ==> NoDup(LiveList(r))
  {
    if NoDup(r.allBigBangMarkets) {
      KeepNoDup(r.allBigBangMarkets, r.isMarketRegistered);
    }
  }

  // ---------- Debt ----------

  /** What the live BigBang markets owe, added up in list order. */
  function LiveSum(r: State, debt: map<Address, nat>): nat
    requires Live(r) <= debt.Keys
  {
    assert forall x :: x in LiveList(r) ==> x in Live(r);
    ListSum(LiveList(r), debt)
  }

  /** Checked arithmetic reverts where a word ends. */
  function Fit(n: nat): Result<nat> {
    if n < WORD then Ok(n) else Revert(Panic)
  }

  /** The total debt, which cannot be computed when a registered BigBang market does not
      answer or the total does not fit a word. */
  function TotalDebt(r: State, debt: map<Address, nat>): (sum: Result<nat>) {
    if Live(r) <= debt.Keys then Fit(LiveSum(r, debt)) else Revert(CallFailed)
  }

  function BigBangsOf(a: Model): set<Address> {
    set x | x in a.markets && a.markets[x].kind == BigBangMarket
  }

  /** The debt of a set of markets, in no particular order. */
  ghost function DebtOf(markets: set<Address>, debt: map<Address, nat>): Result<nat> {
    if markets <= debt.Keys then Fit(SetSum(markets, debt)) else Revert(CallFailed)
  }

  lemma LiveIsBigBangs(r: State)
    requires Faithful(r)
    ensures Live(r) == BigBangsOf(Abs(r))
  {
    forall x ensures x in Live(r) <==> x in BigBangsOf(Abs(r)) {
      ModelReadsIndexes(r, x, ZERO_ADDRESS);
    }
  }

  /** Where the indexes agree, the total is a sum over the set of BigBang markets: the order
      that removals left in the list does not matter. */
  lemma DebtIsASetSum(r: State, debt: map<Address, nat>)
    requires Faithful(r)
    ensures TotalDebt(r, debt) == DebtOf(BigBangsOf(Abs(r)), debt)
  {
    LiveIsBigBangs(r);
    LiveListIsLive(r);
    NoDupMultiset(LiveList(r));
    if Live(r) <= debt.Keys {
      assert forall x :: x in LiveList(r) ==> x in Live(r);
      ListSumIsSetSum(LiveList(r), debt);
    }
  }

  /** After any well-typed run, viewTotalDebt() is the sum over the BigBang markets of the
      abstract map that the same calls build. */
  lemma RunDebt(owner: Address, txs: seq<Tx>, debt: map<Address, nat>)
    requires TypedRun(Empty(owner), txs)
    ensures TotalDebt(Run(Empty(owner), txs), debt) == DebtOf(BigBangsOf(ModelRun(Abs(Empty(owner)), txs)), debt)
  {
    EmptyIsFaithful(owner);
    RunSimulates(Empty(owner), txs);
    DebtIsASetSum(Run(Empty(owner), txs), debt);
  }

  /** In any state, the total is that sum exactly when every market that stands twice in the
      list owes nothing. */
  lemma DebtIsASetSumExactly(r: State, debt: map<Address, nat>)
    requires Live(r) <= debt.Keys && SetSum(Live(r), debt) < WORD
    ensures TotalDebt(r, debt) == Ok(SetSum(Live(r), debt)) <==>
              forall x :: multiset(LiveList(r))[x] > 1 ==> debt[x] == 0
  {
    LiveListIsLive(r);
    assert forall x :: x in LiveList(r) ==> x in Live(r);
    ListSumIsSetSum(LiveList(r), debt);
  }

  /** How often the loops meet a market. */
  function Copies(r: State, x: Address): nat {
    Count(LiveList(r), x)
  }

  lemma CopiesWhereIndexesAgree(r: State, x: Address)
    requires Faithful(r)
    ensures Copies(r, x) == if x in BigBangsOf(Abs(r)) then 1 else 0
  {
    LiveIsBigBangs(r);
    LiveListIsLive(r);
    NoDupMultiset(LiveList(r));
    CountIsMultiset(LiveList(r), x);
    assert x in LiveList(r) <==> multiset(LiveList(r))[x] > 0;
    assert x in LiveList(r) <==> x in Live(r);
  }

  /** The sums of two registries, one of which meets the same markets but no x. */
  lemma LiveSumWithout(r: State, rest: State, x: Address, debt: map<Address, nat>)
    requires Without(LiveList(r), LiveList(rest), x)
    ensures Live(rest) == Live(r) - {x}
    ensures Live(r) <= debt.Keys ==> LiveSum(r, debt) == LiveSum(rest, debt) + Worth(Copies(r, x), x, debt)
  {
    LiveListIsLive(r);
    LiveListIsLive(rest);
    forall y ensures y in Live(rest) <==> y in Live(r) && y != x {
      assert y in LiveList(rest) <==> multiset(LiveList(rest))[y] > 0;
      assert y in LiveList(r) <==> multiset(LiveList(r))[y] > 0;
      assert y in LiveList(r) <==> y in Live(r);
      assert y in LiveList(rest) <==> y in Live(rest);
    }
    if Live(r) <= debt.Keys {
      AllAnswer(r, debt);
      ListSumWithout(LiveList(r), LiveList(rest), x, debt);
    }
  }

  lemma AllAnswer(r: State, debt: map<Address, nat>)
    requires Live(r) <= debt.Keys
    ensures forall y :: y in LiveList(r) ==> y in debt
  {
    LiveListIsLive(r);
    forall y | y in LiveList(r) ensures y in debt { assert y in Live(r); }
  }

  lemma UnregisterLiveList(r: State, x: Address, t: nat)
    requires Unregister(r, x, t).Ok?
    ensures Without(LiveList(r), LiveList(Unregister(r, x, t).value), x)
  {
    var next := Unregister(r, x, t).value;
    KeepMultiset(r.allBigBangMarkets, r.isMarketRegistered);
    KeepMultiset(next.allBigBangMarkets, next.isMarketRegistered);
    if t == BIG_BANG {
      RemoveOneTakesOne(r.allBigBangMarkets, x);
    }
  }

  lemma WithoutLowersDebt(r: State, rest: State, x: Address, debt: map<Address, nat>)
    requires Without(LiveList(r), LiveList(rest), x) && TotalDebt(r, debt).Ok?
    ensures Worth(Copies(r, x), x, debt) <= TotalDebt(r, debt).value
    ensures TotalDebt(rest, debt) == Ok(TotalDebt(r, debt).value - Worth(Copies(r, x), x, debt))
  {
    LiveSumWithout(r, rest, x, debt);
  }

  /** Removing any market with any type, in any state, lowers viewTotalDebt() by what the
      market owes, as often as the loop met it. */
  lemma RemovingLowersDebt(r: State, x: Address, t: nat, next: State, debt: map<Address, nat>)
    requires Unregister(r, x, t) == Ok(next) && TotalDebt(r, debt).Ok?
    ensures Worth(Copies(r, x), x, debt) <= TotalDebt(r, debt).value
    ensures TotalDebt(next, debt) == Ok(TotalDebt(r, debt).value - Worth(Copies(r, x), x, debt))
  {
    UnregisterLiveList(r, x, t);
    WithoutLowersDebt(r, next, x, debt);
  }

  /** What a market of the map adds to the total debt. */
  function DebtOfEntry(a: Model, x: Address, debt: map<Address, nat>): nat {
    if x in BigBangsOf(a) then Value(x, debt) else 0
  }

  lemma MetOnce(r: State, x: Address, debt: map<Address, nat>)
    requires Faithful(r)
    ensures Worth(Copies(r, x), x, debt) == DebtOfEntry(Abs(r), x, debt)
  {
    CopiesWhereIndexesAgree(r, x);
    WorthAtMostOnce(Copies(r, x), x, debt);
  }

  lemma WithoutLowersDebtOnce(r: State, rest: State, x: Address, debt: map<Address, nat>)
    requires Faithful(r) && Without(LiveList(r), LiveList(rest), x) && TotalDebt(r, debt).Ok?
    ensures DebtOfEntry(Abs(r), x, debt) <= TotalDebt(r, debt).value
    ensures TotalDebt(rest, debt) == Ok(TotalDebt(r, debt).value - DebtOfEntry(Abs(r), x, debt))
  {
    MetOnce(r, x, debt);
    WithoutLowersDebt(r, rest, x, debt);
  }

  /** Where the indexes agree that is once for a BigBang market and never for any other. */
  lemma RemovingLowersDebtOnce(r: State, x: Address, t: nat, next: State, debt: map<Address, nat>)
    requires Faithful(r) && Unregister(r, x, t) == Ok(next) && TotalDebt(r, debt).Ok?
    ensures DebtOfEntry(Abs(r), x, debt) <= TotalDebt(r, debt).value
    ensures TotalDebt(next, debt) == Ok(TotalDebt(r, debt).value - DebtOfEntry(Abs(r), x, debt))
  {
    UnregisterLiveList(r, x, t);
    WithoutLowersDebtOnce(r, next, x, debt);
  }

  ghost predicate Enlisted(r: State, next: State, x: Address) {
    && next.allBigBangMarkets == r.allBigBangMarkets + [x]
    && next.isMarketRegistered == r.isMarketRegistered + {x}
  }

  lemma EnlistedLive(r: State, next: State, x: Address)
    requires Enlisted(r, next, x)
    ensures Live(next) == Live(r) + {x}
  {
  }

  /** What registering the BigBang market x makes of a total. */
  function Raised(total: nat, copies: nat, x: Address, debt: map<Address, nat>): Result<nat> {
    if x in debt then Fit(total + Worth(copies, x, debt)) else Revert(CallFailed)
  }

  /** The new entry, and every entry that an earlier removal left behind. */
  function NewCopies(r: State, x: Address): nat {
    1 + if x in r.isMarketRegistered then 0 else Count(r.allBigBangMarkets, x)
  }

  lemma CopiesRise(r: State, next: State, x: Address)
    requires Enlisted(r, next, x)
    ensures Copies(next, x) == Copies(r, x) + NewCopies(r, x)
  {
    CountKept(r.allBigBangMarkets, r.isMarketRegistered, x);
    CountKept(next.allBigBangMarkets, next.isMarketRegistered, x);
    CountPush(r.allBigBangMarkets, x, x);
  }

  lemma LiveSumIsKeptSum(r: State, debt: map<Address, nat>)
    requires Live(r) <= debt.Keys
    ensures LiveSum(r, debt) == KeptSum(r.allBigBangMarkets, r.isMarketRegistered, debt)
  {
    forall x | x in r.allBigBangMarkets && x in r.isMarketRegistered ensures x in debt {
      assert x in Live(r);
    }
    KeptSumIsListSum(r.allBigBangMarkets, r.isMarketRegistered, debt);
  }

  lemma LiveSumRises(r: State, next: State, x: Address, debt: map<Address, nat>)
    requires Enlisted(r, next, x) && Live(r) <= debt.Keys && x in debt
    requires Live(next) <= debt.Keys
    ensures LiveSum(next, debt) == LiveSum(r, debt) + Worth(NewCopies(r, x), x, debt)
  {
    LiveSumIsKeptSum(r, debt);
    LiveSumIsKeptSum(next, debt);
    KeptSumRises(r.allBigBangMarkets, r.isMarketRegistered, x, debt);
  }

  lemma SilentMarket(r: State, x: Address, debt: map<Address, nat>)
    requires x in Live(r) && x !in debt
    ensures TotalDebt(r, debt) == Revert(CallFailed)
  {
  }

  lemma TotalRises(r: State, next: State, more: nat, debt: map<Address, nat>)
    requires Live(r) <= debt.Keys && Live(next) <= debt.Keys && TotalDebt(r, debt).Ok?
    requires LiveSum(next, debt) == LiveSum(r, debt) + more
    ensures TotalDebt(next, debt) == Fit(TotalDebt(r, debt).value + more)
  {
  }

  lemma EnlistingRaisesDebt(r: State, next: State, x: Address, debt: map<Address, nat>)
    requires Enlisted(r, next, x) && TotalDebt(r, debt).Ok?
    ensures TotalDebt(next, debt) == Raised(TotalDebt(r, debt).value, NewCopies(r, x), x, debt)
  {
    EnlistedLive(r, next, x);
    if x in debt {
      LiveSumRises(r, next, x, debt);
      TotalRises(r, next, Worth(NewCopies(r, x), x, debt), debt);
    } else {
      SilentMarket(next, x, debt);
    }
  }

  /** Registering a BigBang market, in any state, raises viewTotalDebt() by what it owes, as
      many times as the loop now meets it more often; the view then reverts exactly when the
      market does not answer or the new total does not fit a word. */
  lemma AddingRaisesDebt(r: State, call: Call, next: State, x: Address, debt: map<Address, nat>)
    requires Enlists(call, x, BIG_BANG) && Step(r, call) == Ok(next) && TotalDebt(r, debt).Ok?
    ensures Copies(next, x) == Copies(r, x) + NewCopies(r, x)
    ensures TotalDebt(next, debt) == Raised(TotalDebt(r, debt).value, NewCopies(r, x), x, debt)
  {
    EnlistsBigBang(r, call, next, x);
    CopiesRise(r, next, x);
    EnlistingRaisesDebt(r, next, x, debt);
  }

  lemma EnlistsBigBang(r: State, call: Call, next: State, x: Address)
    requires Enlists(call, x, BIG_BANG) && Step(r, call) == Ok(next)
    ensures Enlisted(r, next, x)
  {
  }

  lemma RaisedOnce(r: State, total: nat, x: Address, debt: map<Address, nat>)
    requires x !in r.allBigBangMarkets
    ensures Raised(total, NewCopies(r, x), x, debt) == if x !in debt then Revert(CallFailed) else Fit(total + debt[x])
  {
    CountIsMultiset(r.allBigBangMarkets, x);
    WorthAtMostOnce(NewCopies(r, x), x, debt);
  }

  lemma EnlistedOnce(r: State, next: State, x: Address, debt: map<Address, nat>)
    requires Enlisted(r, next, x) && x !in r.allBigBangMarkets && TotalDebt(r, debt).Ok?
    ensures TotalDebt(next, debt) ==
            if x !in debt then Revert(CallFailed) else Fit(TotalDebt(r, debt).value + debt[x])
  {
    RaisedOnce(r, TotalDebt(r, debt).value, x, debt);
    EnlistingRaisesDebt(r, next, x, debt);
  }

  lemma UnlistedIsNoBigBang(r: State, call: Call, x: Address)
    requires Faithful(r) && Enlists(call, x, BIG_BANG) && WellTyped(r, call)
    ensures x !in r.allBigBangMarkets
  {
  }

  /** Where the indexes agree and the call is well typed, that is once. */
  lemma AddingRaisesDebtOnce(r: State, call: Call, next: State, x: Address, debt: map<Address, nat>)
    requires Faithful(r) && Enlists(call, x, BIG_BANG) && WellTyped(r, call) && Step(r, call) == Ok(next)
    requires TotalDebt(r, debt).Ok?
    ensures TotalDebt(next, debt) ==
            if x !in debt then Revert(CallFailed) else Fit(TotalDebt(r, debt).value + debt[x])
  {
    EnlistsBigBang(r, call, next, x);
    UnlistedIsNoBigBang(r, call, x);
    EnlistedOnce(r, next, x, debt);
  }

  lemma RepeatedMarketCountsTwice(r: State, x: Address, owed: nat)
    requires r.allBigBangMarkets == [x, x] && x in r.isMarketRegistered && 2 * owed < WORD
    ensures Live(r) == {x} && TotalDebt(r, map[x := owed]) == Ok(2 * owed)
  {
    var keep, debt := r.isMarketRegistered, map[x := owed];
    assert [x] + [x] == [x, x] && [] + [x] == [x];
    KeepPush([], x, keep);
    KeepPush([x], x, keep);
    ListSumPush([], x, debt);
    ListSumPush([x], x, debt);
  }

  /** The run that a wrong market type spoils counts one market's debt twice. */
  lemma WrongTypeCountsDebtTwice(owner: Address, mc: Address, x: Address, owed: nat)
    requires mc != ZERO_ADDRESS && x != ZERO_ADDRESS && 2 * owed < WORD
    ensures var r := Run(Empty(owner), WrongTypeRun(owner, mc, x));
            Live(r) == {x} && TotalDebt(r, map[x := owed]) == Ok(2 * owed)
  {
    WrongTypeRepeatsMarket(owner, mc, x);
    RepeatedMarketCountsTwice(Run(Empty(owner), WrongTypeRun(owner, mc, x)), x, owed);
  }

  // ---------- Distribution to twTap ----------

  /** `distributeReward`: twTap pulls the token it holds at an index. */
  function DistributeReward(w: World, self: Address, twTap: Address, id: nat, amount: nat): Result<World> {
    if twTap !in w.twTaps || !w.twTaps[twTap].accepting || id !in w.twTaps[twTap].rewards then Revert(CallFailed)
    else
      var g :- TransferFrom(w.tokens, w.twTaps[twTap].rewards[id], twTap, self, twTap, amount);
      Ok(w.(tokens := g))
  }

  /** Approval, payment, approval back to 0. */
  function Distribute(w: World, self: Address, twTap: Address, id: nat, asset: Address, amount: nat): Result<World> {
    if !Approvable(w.tokens, asset) then Revert(ApproveFailed)
    else
      var paid :- DistributeReward(w.(tokens := SetAllowance(w.tokens, asset, self, twTap, amount)),
                                   self, twTap, id, amount);
      Ok(paid.(tokens := SetAllowance(paid.tokens, asset, self, twTap, 0)))
  }

  /** Between calls Penrose grants nothing to any twTap. */
  ghost predicate Settled(w: World, self: Address) {
    forall token, twTap :: twTap in w.twTaps ==> Allowance(w.tokens, token, self, twTap) == 0
  }

  /** The three ledger writes of a distribution, for one spender without any allowance. */
  lemma PullNetEffect(g: Ledger, self: Address, twTap: Address, reward: Address, asset: Address, amount: nat)
    requires Approvable(g, asset) && forall t :: Allowance(g, t, self, twTap) == 0
    ensures var pull := TransferFrom(SetAllowance(g, asset, self, twTap, amount), reward, twTap, self, twTap, amount);
            && (pull.Ok? <==> Works(g, reward) && (amount > 0 ==> reward == asset && amount <= Balance(g, asset, self)))
            && (pull.Ok? ==>
                  && amount <= Balance(g, asset, self)
                  && SetAllowance(pull.value, asset, self, twTap, 0) == Move(g, asset, self, twTap, amount))
  {
    var approved := SetAllowance(g, asset, self, twTap, amount);
    var pull := TransferFrom(approved, reward, twTap, self, twTap, amount);
    assert Allowance(g, asset, self, twTap) == 0 && Allowance(g, reward, self, twTap) == 0;
    if amount == 0 {
      assert approved == g;
    } else if reward == asset {
      if amount <= Balance(g, asset, self) {
        MoveAfterSetAllowance(g, asset, self, twTap, amount, asset, self, twTap, amount);
        var moved := Move(g, asset, self, twTap, amount);
        SetAllowanceTwice(moved, asset, self, twTap, amount, Spent(approved, asset, self, twTap, amount));
        SetAllowanceTwice(moved, asset, self, twTap, Spent(approved, asset, self, twTap, amount), 0);
      }
    }
  }

  /** From a settled world a distribution moves the amount to twTap and leaves every
      allowance as it was, whatever index twTap gave the asset; it never gets stuck on an
      old allowance: it succeeds exactly when the token is approvable, Penrose has the
      amount, and twTap takes it. */
  lemma DistributeNetEffect(w: World, self: Address, twTap: Address, id: nat, asset: Address, amount: nat)
    requires Settled(w, self)
    ensures Distribute(w, self, twTap, id, asset, amount).Ok? <==>
              && Approvable(w.tokens, asset)
              && twTap in w.twTaps && w.twTaps[twTap].accepting && id in w.twTaps[twTap].rewards
              && Works(w.tokens, w.twTaps[twTap].rewards[id])
              && (amount > 0 ==> w.twTaps[twTap].rewards[id] == asset && amount <= Balance(w.tokens, asset, self))
    ensures Distribute(w, self, twTap, id, asset, amount).Ok? ==>
              && amount <= Balance(w.tokens, asset, self)
              && Distribute(w, self, twTap, id, asset, amount).value
                 == w.(tokens := Move(w.tokens, asset, self, twTap, amount))
  {
    if Approvable(w.tokens, asset) && twTap in w.twTaps && id in w.twTaps[twTap].rewards {
      PullNetEffect(w.tokens, self, twTap, w.twTaps[twTap].rewards[id], asset, amount);
    }
  }

  // ---------- Minting ----------

  /** Open interest after the given markets handed theirs over. */
  function Consume(v: map<Address, nat>, markets: set<Address>): map<Address, nat> {
    map x | x in v :: if x in markets then 0 else v[x]
  }

  /** Mints what the live BigBang markets owe and sends it to twTap. */
  ghost function Mint(r: State, w: World, usdo: Address, self: Address, twTap: Address): Result<World> {
    if !(Live(r) <= w.openInterest.Keys) then Revert(CallFailed)
    else
      var sum := SetSum(Live(r), w.openInterest);
      var consumed := w.(openInterest := Consume(w.openInterest, Live(r)));
      if sum >= WORD then Revert(Panic)
      else if sum == 0 then Ok(consumed)
      else if usdo !in w.tokens || (usdo, self) !in w.minters || Supply(w.tokens, usdo) + sum >= WORD
              || twTap !in w.twTaps then Revert(CallFailed)
      else Distribute(consumed.(tokens := Issue(w.tokens, usdo, self, sum)), self, twTap,
                      Load(w.twTaps[twTap].index, usdo), usdo, sum)
  }

  /** What one mint does, in any state of the registry: each live BigBang market hands over
      its open interest once, even if it stands twice in the list; USDO's supply and twTap's
      balance grow by exactly the sum; nothing else moves and no allowance is left. */
  lemma MintConserves(r: State, w: World, usdo: Address, self: Address, twTap: Address)
    requires Settled(w, self) && self !in w.twTaps
    requires Mint(r, w, usdo, self, twTap).Ok?
    ensures Live(r) <= w.openInterest.Keys
    ensures var sum, after := SetSum(Live(r), w.openInterest), Mint(r, w, usdo, self, twTap).value;
            && after == w.(openInterest := after.openInterest, tokens := after.tokens)
            && after.openInterest == Consume(w.openInterest, Live(r))
            && SameAllowances(w.tokens, after.tokens)
            && (forall t :: Supply(after.tokens, t) == Supply(w.tokens, t) + if t == usdo then sum else 0)
            && (forall t, a :: Balance(after.tokens, t, a) ==
                                 Balance(w.tokens, t, a) + if t == usdo && a == twTap then sum else 0)
  {
    var sum := SetSum(Live(r), w.openInterest);
    if sum > 0 {
      var issued := Issue(w.tokens, usdo, self, sum);
      IssueReads(w.tokens, usdo, self, sum);
      var before := w.(openInterest := Consume(w.openInterest, Live(r)), tokens := issued);
      DistributeNetEffect(before, self, twTap, Load(w.twTaps[twTap].index, usdo), usdo, sum);
      MoveReads(issued, usdo, self, twTap, sum);
    }
  }

  /** A second mint right after the first changes nothing at all. */
  lemma SecondMintMintsNothing(r: State, w: World, usdo: Address, self: Address, twTap: Address, other: Address)
    requires Settled(w, self) && self !in w.twTaps
    requires Mint(r, w, usdo, self, twTap).Ok?
    ensures var after := Mint(r, w, usdo, self, twTap).value;
            Mint(r, after, usdo, self, other) == Ok(after)
  {
    MintConserves(r, w, usdo, self, twTap);
    var after := Mint(r, w, usdo, self, twTap).value;
    SetSumZero(Live(r), after.openInterest);
    assert Consume(after.openInterest, Live(r)) == after.openInterest;
  }

  lemma MintHandsOver(r: State, w: World, usdo: Address, self: Address, twTap: Address)
    requires Mint(r, w, usdo, self, twTap).Ok?
    ensures Live(r) <= w.openInterest.Keys
    ensures Mint(r, w, usdo, self, twTap).value.openInterest == Consume(w.openInterest, Live(r))
  {
  }

  /** Right after a mint, in any state at all, viewTotalDebt() is 0: what it adds up is the
      very open interest that was handed over. */
  lemma MintClearsDebt(r: State, w: World, usdo: Address, self: Address, twTap: Address)
    requires Mint(r, w, usdo, self, twTap).Ok?
    ensures TotalDebt(r, Mint(r, w, usdo, self, twTap).value.openInterest) == Ok(0)
  {
    MintHandsOver(r, w, usdo, self, twTap);
    var after := Consume(w.openInterest, Live(r));
    AllAnswer(r, after);
    LiveListIsLive(r);
    forall x | x in LiveList(r) ensures x in after && after[x] == 0 { assert x in Live(r); }
    ListSumZero(LiveList(r), after);
  }

  /** Where the indexes agree, a mint issues exactly what viewTotalDebt() showed before. */
  lemma MintIssuesTotalDebt(r: State, w: World, usdo: Address, self: Address, twTap: Address)
    requires Faithful(r) && Settled(w, self) && self !in w.twTaps
    requires Mint(r, w, usdo, self, twTap).Ok?
    ensures TotalDebt(r, w.openInterest).Ok?
    ensures var after := Mint(r, w, usdo, self, twTap).value;
            Supply(after.tokens, usdo) == Supply(w.tokens, usdo) + TotalDebt(r, w.openInterest).value
  {
    DebtIsASetSum(r, w.openInterest);
    LiveIsBigBangs(r);
    MintConserves(r, w, usdo, self, twTap);
  }

  /** The debt of a market that is not live does not show. */
  lemma DebtIgnores(r: State, x: Address, debt: map<Address, nat>, debt': map<Address, nat>)
    requires x !in Live(r) && debt - {x} == debt' - {x}
    ensures TotalDebt(r, debt) == TotalDebt(r, debt')
  {
    forall y | y != x ensures y in debt <==> y in debt' ensures y in debt ==> debt[y] == debt'[y] {
      assert y in debt <==> y in debt - {x};
      assert y in debt' <==> y in debt' - {x};
      assert y in debt ==> debt[y] == (debt - {x})[y];
      assert y in debt' ==> debt'[y] == (debt' - {x})[y];
    }
    if Live(r) <= debt.Keys {
      AllAnswer(r, debt);
      AllAnswer(r, debt');
      LiveListIsLive(r);
      assert x !in LiveList(r) by { assert x in LiveList(r) <==> x in Live(r); }
      ListSumAgree(LiveList(r), debt, debt');
    }
  }

  lemma DistributeIgnoresInterest(w: World, self: Address, twTap: Address, id: nat, asset: Address, amount: nat,
                                  interest: map<Address, nat>)
    ensures var r, s := Distribute(w, self, twTap, id, asset, amount),
                        Distribute(w.(openInterest := interest), self, twTap, id, asset, amount);
            && (r.Ok? <==> s.Ok?)
            && (r.Ok? ==> s.value == r.value.(openInterest := interest))
  {
  }

  /** The open interest of a market that is not live is neither minted nor touched. */
  lemma MintIgnores(r: State, w: World, usdo: Address, self: Address, twTap: Address, x: Address,
                    interest: map<Address, nat>)
    requires x !in Live(r) && w.openInterest - {x} == interest - {x}
    ensures var m, n := Mint(r, w, usdo, self, twTap), Mint(r, w.(openInterest := interest), usdo, self, twTap);
            && (m.Ok? <==> n.Ok?)
            && (m.Ok? ==> n.value == m.value.(openInterest := Consume(interest, Live(r))))
    ensures x in interest ==> x in Consume(interest, Live(r)) && Consume(interest, Live(r))[x] == interest[x]
  {
    var v := w.openInterest;
    forall y | y != x ensures y in v <==> y in interest ensures y in v ==> v[y] == interest[y] {
      assert y in v <==> y in v - {x};
      assert y in interest <==> y in interest - {x};
      assert y in v ==> v[y] == (v - {x})[y];
      assert y in interest ==> interest[y] == (interest - {x})[y];
    }
    if Live(r) <= v.Keys {
      SetSumAgree(Live(r), v, interest);
      var sum := SetSum(Live(r), v);
      if 0 < sum && usdo in w.tokens && twTap in w.twTaps {
        DistributeIgnoresInterest(w.(openInterest := Consume(v, Live(r)), tokens := Issue(w.tokens, usdo, self, sum)),
                                  self, twTap, Load(w.twTaps[twTap].index, usdo), usdo, sum,
                                  Consume(interest, Live(r)));
      }
    }
  }

  // ---------- Fees ----------

  type Quote = (nat, nat, nat) -> nat

  /** YieldBox's payment for the shares a market will pass on, at this moment; 0 if none. */
  function FeeAmount(quote: Quote, w: World, market: Address): nat {
    if market in w.fees && w.fees[market].shares > 0 && w.fees[market].assetId in w.vaults then
      var v := w.vaults[w.fees[market].assetId];
      quote(v.supply, v.backing, w.fees[market].shares)
    else 0
  }

  /** `refreshPenroseFees`: the market's shares become Penrose's. */
  function Refresh(w: World, self: Address, market: Address): Result<World> {
    if market !in w.fees then Revert(CallFailed)
    else
      var f := w.fees[market];
      if f.shares == 0 then Ok(w)
      else if f.assetId !in w.vaults || Load(w.vaults[f.assetId].shares, market) < f.shares then Revert(CallFailed)
      else
        var v := w.vaults[f.assetId];
        var taken := Store(v.shares, market, Load(v.shares, market) - f.shares);
        Ok(w.(vaults := w.vaults[f.assetId := v.(shares := Store(taken, self, Load(taken, self) + f.shares))],
              fees := w.fees[market := f.(shares := 0)]))
  }

  /** YieldBox's `withdraw` of shares: they are destroyed and paid for. */
  function Withdraw(quote: Quote, w: World, self: Address, assetId: nat, shares: nat): Result<World> {
    if assetId !in w.vaults then Revert(CallFailed)
    else
      var v := w.vaults[assetId];
      var amount := quote(v.supply, v.backing, shares);
      if Load(v.shares, self) < shares || v.supply < shares || v.backing < amount then Revert(CallFailed)
      else
        var g :- Transfer(w.tokens, v.token, w.yieldBox, self, amount);
        Ok(w.(tokens := g,
              vaults := w.vaults[assetId := v.(supply := v.supply - shares, backing := v.backing - amount,
                                               shares := Store(v.shares, self, Load(v.shares, self) - shares))]))
  }

  /** Penrose's part of a market's fees, withdrawn from YieldBox. */
  function Collect(quote: Quote, w: World, self: Address, market: Address): Result<World> {
    var refreshed :- Refresh(w, self, market);
    var f := w.fees[market];
    if f.shares == 0 then Ok(refreshed) else Withdraw(quote, refreshed, self, f.assetId, f.shares)
  }

  /** One market's fees on their way to twTap. */
  function FeeStep(quote: Quote, r: State, w: World, self: Address, twTap: Address, market: Address): Result<World> {
    if market !in r.isMarketRegistered then Revert(NotValid)
    else
      var paid :- Collect(quote, w, self, market);
      var f := w.fees[market];
      if f.shares == 0 then Ok(paid)
      else if twTap !in w.twTaps then Revert(CallFailed)
      else Distribute(paid, self, twTap, Load(w.twTaps[twTap].index, f.asset), f.asset, FeeAmount(quote, w, market))
  }

  function FeeBatch(quote: Quote, r: State, w: World, self: Address, twTap: Address, markets: seq<Address>)
    : Result<World>
  {
    if markets == [] then Ok(w)
    else
      var before :- FeeBatch(quote, r, w, self, twTap, markets[..|markets| - 1]);
      FeeStep(quote, r, before, self, twTap, markets[|markets| - 1])
  }

  /** What a batch owes twTap in one token: each market's amount when its turn comes. */
  function Owed(quote: Quote, r: State, w: World, self: Address, twTap: Address, markets: seq<Address>, token: Address)
    : nat
  {
    if markets == [] then 0
    else
      var init, last := markets[..|markets| - 1], markets[|markets| - 1];
      var before := FeeBatch(quote, r, w, self, twTap, init);
      Owed(quote, r, w, self, twTap, init, token) +
      if before.Ok? && last in before.value.fees && before.value.fees[last].asset == token
      then FeeAmount(quote, before.value, last) else 0
  }

  /** Who is who: Penrose, YieldBox and the staking contracts are different contracts,
      Penrose is not a market, and a market's asset is the token YieldBox keeps under its
      asset number. */
  ghost predicate Wired(w: World, self: Address) {
    && self != w.yieldBox && self !in w.twTaps && w.yieldBox !in w.twTaps
    && self !in w.fees
    && forall m :: m in w.fees && w.fees[m].assetId in w.vaults ==> w.vaults[w.fees[m].assetId].token == w.fees[m].asset
  }

  function Shares(w: World, assetId: nat, who: Address): nat {
    if assetId in w.vaults then Load(w.vaults[assetId].shares, who) else 0
  }

  /** The books after fees moved: YieldBox and the markets wrote theirs, nothing else
      changed, and Penrose holds the shares it held before. */
  ghost predicate BooksKept(w: World, after: World, self: Address) {
    && after == w.(tokens := after.tokens, vaults := after.vaults, fees := after.fees)
    && Wired(after, self)
    && (forall id :: Shares(after, id, self) == Shares(w, id, self))
    && after.fees.Keys == w.fees.Keys && forall m :: m in w.fees ==> after.fees[m].asset == w.fees[m].asset
  }

  /** owed(t) of each token t moved from one account to another, and nothing else did. */
  ghost predicate Moved(g: Ledger, h: Ledger, from: Address, to: Address, owed: Address -> nat) {
    && SameAllowances(g, h)
    && (forall t :: Supply(h, t) == Supply(g, t))
    && forall t, a :: Balance(h, t, a) == Balance(g, t, a) - (if a == from then owed(t) else 0)
                                                           + (if a == to then owed(t) else 0)
  }

  function Only(token: Address, amount: nat): Address -> nat {
    t => if t == token then amount else 0
  }

  lemma CollectNetEffect(quote: Quote, w: World, self: Address, market: Address)
    requires Wired(w, self) && Collect(quote, w, self, market).Ok?
    ensures market in w.fees && BooksKept(w, Collect(quote, w, self, market).value, self)
    ensures var f, amount := w.fees[market], FeeAmount(quote, w, market);
            f.shares > 0 ==>
              && f.asset in w.tokens && amount <= Balance(w.tokens, f.asset, w.yieldBox)
              && Collect(quote, w, self, market).value.tokens == Move(w.tokens, f.asset, w.yieldBox, self, amount)
    ensures w.fees[market].shares == 0 ==> Collect(quote, w, self, market).value == w
  {
  }

  /** In at one account and out again: the middle account's balance is as before. */
  lemma PassThrough(g: Ledger, token: Address, from: Address, via: Address, to: Address, v: nat)
    requires token in g && v <= Balance(g, token, from) && from != via
    ensures var mid := Move(g, token, from, via, v);
            && SameAllowances(g, mid) && v <= Balance(mid, token, via)
            && Moved(g, Move(mid, token, via, to, v), from, to, Only(token, v))
  {
    MoveReads(g, token, from, via, v);
    MoveReads(Move(g, token, from, via, v), token, via, to, v);
  }

  /** After the withdrawal only tokens move, and they move on to twTap. */
  lemma FeeStepNetEffect(quote: Quote, r: State, w: World, self: Address, twTap: Address, market: Address, paid: World)
    requires FeeStep(quote, r, w, self, twTap, market).Ok? && Collect(quote, w, self, market) == Ok(paid)
    requires market in w.fees && w.fees[market].shares > 0 && Settled(paid, self)
    ensures var asset, amount := w.fees[market].asset, FeeAmount(quote, w, market);
            && asset in paid.tokens && amount <= Balance(paid.tokens, asset, self)
            && FeeStep(quote, r, w, self, twTap, market).value
               == paid.(tokens := Move(paid.tokens, asset, self, twTap, amount))
  {
    var f := w.fees[market];
    DistributeNetEffect(paid, self, twTap, Load(w.twTaps[twTap].index, f.asset), f.asset, FeeAmount(quote, w, market));
  }

  lemma BooksIgnoreTokens(w: World, paid: World, self: Address, g: Ledger)
    requires BooksKept(w, paid, self)
    ensures BooksKept(w, paid.(tokens := g), self)
  {
    var after := paid.(tokens := g);
    forall id ensures Shares(after, id, self) == Shares(w, id, self) {
      assert Shares(after, id, self) == Shares(paid, id, self);
    }
  }

  /** One market: everything YieldBox paid Penrose reaches twTap. */
  lemma FeeStepConserves(quote: Quote, r: State, w: World, self: Address, twTap: Address, market: Address)
    requires Settled(w, self) && Wired(w, self)
    requires FeeStep(quote, r, w, self, twTap, market).Ok?
    ensures market in w.fees
    ensures var after := FeeStep(quote, r, w, self, twTap, market).value;
            && BooksKept(w, after, self)
            && Moved(w.tokens, after.tokens, w.yieldBox, twTap, Only(w.fees[market].asset, FeeAmount(quote, w, market)))
  {
    CollectNetEffect(quote, w, self, market);
    var asset, amount, paid := w.fees[market].asset, FeeAmount(quote, w, market), Collect(quote, w, self, market).value;
    if w.fees[market].shares > 0 {
      PassThrough(w.tokens, asset, w.yieldBox, self, twTap, amount);
      assert Settled(paid, self);
      FeeStepNetEffect(quote, r, w, self, twTap, market, paid);
      BooksIgnoreTokens(w, paid, self, Move(paid.tokens, asset, self, twTap, amount));
    }
  }

  lemma MovedTwice(g: Ledger, h: Ledger, k: Ledger, from: Address, to: Address,
                   first: Address -> nat, second: Address -> nat, both: Address -> nat)
    requires Moved(g, h, from, to, first) && Moved(h, k, from, to, second)
    requires forall t :: both(t) == first(t) + second(t)
    ensures Moved(g, k, from, to, both)
  {
  }

  function OwedBy(quote: Quote, r: State, w: World, self: Address, twTap: Address, markets: seq<Address>)
    : Address -> nat
  {
    t => Owed(quote, r, w, self, twTap, markets, t)
  }

  lemma OwedNext(quote: Quote, r: State, w: World, self: Address, twTap: Address, markets: seq<Address>, before: World)
    requires markets != [] && FeeBatch(quote, r, w, self, twTap, markets[..|markets| - 1]) == Ok(before)
    requires markets[|markets| - 1] in before.fees
    ensures forall t :: OwedBy(quote, r, w, self, twTap, markets)(t) ==
                          OwedBy(quote, r, w, self, twTap, markets[..|markets| - 1])(t)
                          + Only(before.fees[markets[|markets| - 1]].asset,
                                 FeeAmount(quote, before, markets[|markets| - 1]))(t)
  {
  }

  /** A whole batch: twTap receives, token by token, the sum of the amounts YieldBox quotes
      as each market's turn comes, YieldBox pays it, and Penrose ends with the balances, the
      YieldBox shares and the allowances it started with. */
  lemma {:induction false} FeeBatchConserves(quote: Quote, r: State, w: World, self: Address, twTap: Address,
                                             markets: seq<Address>)
    requires Settled(w, self) && Wired(w, self)
    requires FeeBatch(quote, r, w, self, twTap, markets).Ok?
    ensures var after := FeeBatch(quote, r, w, self, twTap, markets).value;
            && BooksKept(w, after, self) && Settled(after, self)
            && Moved(w.tokens, after.tokens, w.yieldBox, twTap, OwedBy(quote, r, w, self, twTap, markets))
  {
    if markets != [] {
      var init, last := markets[..|markets| - 1], markets[|markets| - 1];
      FeeBatchConserves(quote, r, w, self, twTap, init);
      var before := FeeBatch(quote, r, w, self, twTap, init).value;
      FeeStepConserves(quote, r, before, self, twTap, last);
      var after := FeeBatch(quote, r, w, self, twTap, markets).value;
      OwedNext(quote, r, w, self, twTap, markets, before);
      MovedTwice(w.tokens, before.tokens, after.tokens, w.yieldBox, twTap,
                 OwedBy(quote, r, w, self, twTap, init),
                 Only(before.fees[last].asset, FeeAmount(quote, before, last)),
                 OwedBy(quote, r, w, self, twTap, markets));
      BooksKeptTwice(w, before, after, self);
    }
  }

  lemma BooksKeptTwice(w: World, mid: World, after: World, self: Address)
    requires BooksKept(w, mid, self) && BooksKept(mid, after, self)
    ensures BooksKept(w, after, self)
  {
    forall id ensures Shares(after, id, self) == Shares(w, id, self) {
      assert Shares(after, id, self) == Shares(mid, id, self);
    }
  }

  /** One unregistered market anywhere stops the whole batch. */
  lemma {:induction false} UnregisteredStopsBatch(quote: Quote, r: State, w: World, self: Address, twTap: Address,
                                                  markets: seq<Address>, x: Address)
    requires x in markets && x !in r.isMarketRegistered
    ensures FeeBatch(quote, r, w, self, twTap, markets).Revert?
  {
    var init, last := markets[..|markets| - 1], markets[|markets| - 1];
    assert markets == init + [last];
    if x in init {
      UnregisteredStopsBatch(quote, r, w, self, twTap, init, x);
    }
  }

  lemma CollectPays(quote: Quote, w: World, self: Address, market: Address)
    requires Collect(quote, w, self, market).Ok? && FeeAmount(quote, w, market) > 0
    ensures market in w.fees && w.fees[market].assetId in w.vaults
    ensures var token, amount := w.vaults[w.fees[market].assetId].token, FeeAmount(quote, w, market);
            var paid := Collect(quote, w, self, market).value;
            && token in w.tokens && amount <= Balance(w.tokens, token, w.yieldBox)
            && paid.tokens == Move(w.tokens, token, w.yieldBox, self, amount) && paid.twTaps == w.twTaps
  {
  }

  lemma TwoMovesBalance(g: Ledger, inward: Address, outward: Address, from: Address, self: Address, to: Address, v: nat)
    requires inward in g && v <= Balance(g, inward, from) && from != self && self != to && v > 0
    requires outward in g && v <= Balance(Move(g, inward, from, self, v), outward, self)
    ensures (forall t :: Balance(Move(Move(g, inward, from, self, v), outward, self, to, v), t, self)
                         == Balance(g, t, self))
            <==> inward == outward
  {
    var mid := Move(g, inward, from, self, v);
    MoveReads(g, inward, from, self, v);
    MoveReads(mid, outward, self, to, v);
    assert Balance(Move(mid, outward, self, to, v), inward, self)
           == Balance(g, inward, self) + v - if inward == outward then v else 0;
  }

  /** Why a market's asset must be the token of its YieldBox asset number: a fee payment
      that goes through keeps Penrose's own balances exactly when it is. */
  lemma FeeStepBalancedExactly(quote: Quote, r: State, w: World, self: Address, twTap: Address, market: Address)
    requires Settled(w, self) && self != w.yieldBox && self !in w.twTaps
    ensures var step := FeeStep(quote, r, w, self, twTap, market);
            step.Ok? && FeeAmount(quote, w, market) > 0 ==>
              && market in w.fees && w.fees[market].assetId in w.vaults
              && ((forall t :: Balance(step.value.tokens, t, self) == Balance(w.tokens, t, self))
                  <==> w.vaults[w.fees[market].assetId].token == w.fees[market].asset)
  {
    if FeeStep(quote, r, w, self, twTap, market).Ok? && FeeAmount(quote, w, market) > 0 {
      CollectPays(quote, w, self, market);
      var amount, paid := FeeAmount(quote, w, market), Collect(quote, w, self, market).value;
      var token := w.vaults[w.fees[market].assetId].token;
      MoveReads(w.tokens, token, w.yieldBox, self, amount);
      assert Settled(paid, self);
      FeeStepNetEffect(quote, r, w, self, twTap, market, paid);
      TwoMovesBalance(w.tokens, token, w.fees[market].asset, w.yieldBox, self, twTap, amount);
    }
  }

  /** Money flows through Penrose in any order, each against the registry of its moment. */
  datatype Flow =
    | MintFlow(registry: State, usdo: Address, twTap: Address)
    | FeeFlow(registry: State, twTap: Address, markets: seq<Address>)

  ghost function RunFlows(quote: Quote, w: World, self: Address, flows: seq<Flow>): World
    decreases |flows|
  {
    if flows == [] then w
    else
      var next := match flows[0]
                  case MintFlow(r, usdo, twTap) => Mint(r, w, usdo, self, twTap)
                  case FeeFlow(r, twTap, markets) => FeeBatch(quote, r, w, self, twTap, markets);
      RunFlows(quote, if next.Ok? then next.value else w, self, flows[1..])
  }

  /** No allowance to a twTap survives any sequence of mints and fee batches, so that none
      of them is ever stopped by an old one. */
  lemma {:induction false} FlowsStaySettled(quote: Quote, w: World, self: Address, flows: seq<Flow>)
    requires Settled(w, self) && Wired(w, self)
    ensures Settled(RunFlows(quote, w, self, flows), self) && Wired(RunFlows(quote, w, self, flows), self)
    decreases |flows|
  {
    if flows != [] {
      match flows[0]
      case MintFlow(r, usdo, twTap) =>
        var next := Mint(r, w, usdo, self, twTap);
        if next.Ok? {
          MintConserves(r, w, usdo, self, twTap);
          FlowsStaySettled(quote, next.value, self, flows[1..]);
        } else {
          FlowsStaySettled(quote, w, self, flows[1..]);
        }
      case FeeFlow(r, twTap, markets) =>
        var next := FeeBatch(quote, r, w, self, twTap, markets);
        if next.Ok? {
          FeeBatchConserves(quote, r, w, self, twTap, markets);
          FlowsStaySettled(quote, next.value, self, flows[1..]);
        } else {
          FlowsStaySettled(quote, w, self, flows[1..]);
        }
    }
  }

  // ---------- Accrual and owner calls ----------

  /** The markets an accrual calls, in list order. */
  function AccrueTargets(r: State, mainMarket: Address, includeMainMarket: bool): seq<Address> {
    Keep(r.allBigBangMarkets, r.isMarketRegistered - if includeMainMarket then {} else {mainMarket})
  }

  function Accruals(targets: seq<Address>, mainMarket: Address): seq<Accrual> {
    seq(|targets|, i requires 0 <= i < |targets| => Accrual(targets[i], mainMarket))
  }

  /** Calls every target in order; one that does not answer reverts all of them. */
  function AccrueAll(w: World, targets: seq<Address>, mainMarket: Address): Result<World> {
    if exists x :: x in targets && x !in w.accruable then Revert(CallFailed)
    else Ok(w.(accrued := w.accrued + Accruals(targets, mainMarket)))
  }

  /** Where the indexes agree, an accrual reaches each BigBang market but the one left out
      exactly once. */
  lemma AccrualReachesEachOnce(r: State, mainMarket: Address, includeMainMarket: bool)
    requires Faithful(r)
    ensures var targets := AccrueTargets(r, mainMarket, includeMainMarket);
            && NoDup(targets)
            && forall x :: x in targets <==>
                 x in Abs(r).markets && Abs(r).markets[x].kind == BigBangMarket
                 && (includeMainMarket || x != mainMarket)
  {
    KeepNoDup(r.allBigBangMarkets, r.isMarketRegistered - if includeMainMarket then {} else {mainMarket});
    forall x ensures x in r.allBigBangMarkets <==> x in Abs(r).markets && Abs(r).markets[x].kind == BigBangMarket {
      ModelReadsIndexes(r, x, ZERO_ADDRESS);
    }
  }

  type Responder = (seq<Execution>, Address, Bytes) -> (bool, Bytes)

  /** Which targets the owner may call. */
  predicate Callable(r: State, w: World, target: Address) {
    IsMaster(r, MasterOf(r, target)) && target in w.code
  }

  /** The calls of a batch made one after another, each answered in the light of those
      before it. */
  function CallLog(respond: Responder, before: seq<Execution>, targets: seq<Address>, data: seq<Bytes>)
    : (log: seq<Execution>)
    requires |targets| == |data|
    ensures |log| == |targets|
  {
    if targets == [] then []
    else
      var n := |targets| - 1;
      var log := CallLog(respond, before, targets[..n], data[..n]);
      var answer := respond(before + log, targets[n], data[n]);
      log + [Execution(targets[n], data[n], answer.0, answer.1)]
  }

  /** A batch of owner calls: all of it or nothing. */
  function ExecuteBatch(respond: Responder, r: State, w: World, targets: seq<Address>, data: seq<Bytes>, force: bool)
    : Result<seq<Execution>>
  {
    if |targets| != |data| then Revert(LengthMismatch)
    else
      var log := CallLog(respond, w.executed, targets, data);
      if (forall i :: 0 <= i < |targets| ==> Callable(r, w, targets[i]) && (force ==> log[i].success))
      then Ok(log)
      else Revert(CallFailed)
  }

  /** The log lines up with the batch: entry i is the call of target i with data i, answered
      in the light of the calls before it. */
  lemma {:induction false} CallLogLinesUp(respond: Responder, before: seq<Execution>, targets: seq<Address>,
                                          data: seq<Bytes>, i: nat)
    requires |targets| == |data| && i < |targets|
    ensures var log := CallLog(respond, before, targets, data);
            && log[i].target == targets[i] && log[i].data == data[i]
            && (log[i].success, log[i].result) == respond(before + log[..i], targets[i], data[i])
  {
    var n := |targets| - 1;
    var log, init := CallLog(respond, before, targets, data), CallLog(respond, before, targets[..n], data[..n]);
    assert log[..n] == init;
    if i < n {
      CallLogLinesUp(respond, before, targets[..n], data[..n], i);
      assert log[..i] == init[..i];
    }
  }

  /** A removed market is used by nothing until it is added or created again: after any later
      transactions what it owes does not show in viewTotalDebt(), and its open interest is
      neither minted nor touched. */
  lemma RemovedOwesNothing(r: State, x: Address, t: nat, txs: seq<Tx>, debt: map<Address, nat>, w: World,
                           usdo: Address, self: Address, twTap: Address, owed: map<Address, nat>)
    requires Unregister(r, x, t).Ok?
    requires forall i :: 0 <= i < |txs| ==> !Introduces(txs[i].call, x)
    ensures var now := Run(Unregister(r, x, t).value, txs);
            && (debt - {x} == owed - {x} ==> TotalDebt(now, debt) == TotalDebt(now, owed))
            && (w.openInterest - {x} == owed - {x} ==>
                  var m, n := Mint(now, w, usdo, self, twTap), Mint(now, w.(openInterest := owed), usdo, self, twTap);
                  && (m.Ok? <==> n.Ok?)
                  && (m.Ok? ==> && n.value.(openInterest := m.value.openInterest) == m.value
                                && (x in owed ==> x in n.value.openInterest && n.value.openInterest[x] == owed[x])))
  {
    RemovalCutsOff(r, x, t, txs);
    var now := Run(Unregister(r, x, t).value, txs);
    if debt - {x} == owed - {x} {
      DebtIgnores(now, x, debt, owed);
    }
    if w.openInterest - {x} == owed - {x} {
      MintIgnores(now, w, usdo, self, twTap, x, owed);
    }
  }

  /** Nor is it accrued, and it stops any batch of fees or owner calls that names it, as long
      as address 0 is no master contract. */
  lemma RemovedIsUnused(quote: Quote, respond: Responder, r: State, x: Address, t: nat, txs: seq<Tx>, w: World,
                        self: Address, mainMarket: Address, twTap: Address, markets: seq<Address>, data: seq<Bytes>,
                        flag: bool)
    requires Unregister(r, x, t).Ok?
    requires forall i :: 0 <= i < |txs| ==> !Introduces(txs[i].call, x)
    ensures var now := Run(Unregister(r, x, t).value, txs);
            && x !in Live(now)
            && x !in AccrueTargets(now, mainMarket, flag)
            && (x in markets ==> FeeBatch(quote, now, w, self, twTap, markets).Revert?)
            && (x in markets && !IsMaster(now, ZERO_ADDRESS) ==>
                  ExecuteBatch(respond, now, w, markets, data, flag).Revert?)
  {
    RemovalCutsOff(r, x, t, txs);
    CutOffIsUnused(quote, respond, Run(Unregister(r, x, t).value, txs), w, self, x, mainMarket, twTap, markets, data, flag);
  }

  /** A market that is cut off is not live, is not accrued, and stops any batch of fees or owner calls that names it. */
  lemma CutOffIsUnused(quote: Quote, respond: Responder, r: State, w: World, self: Address, x: Address,
                       mainMarket: Address, twTap: Address, markets: seq<Address>, data: seq<Bytes>, flag: bool)
    requires CutOff(r, x)
    ensures x !in Live(r) && x !in LiveList(r)
    ensures x !in AccrueTargets(r, mainMarket, flag)
    ensures x in markets ==> FeeBatch(quote, r, w, self, twTap, markets).Revert?
    ensures x in markets && !IsMaster(r, ZERO_ADDRESS) ==>
              ExecuteBatch(respond, r, w, markets, data, flag).Revert?
  {
    if x in markets {
      UnregisteredStopsBatch(quote, r, w, self, twTap, markets, x);
      var i :| 0 <= i < |markets| && markets[i] == x;
      assert !IsMaster(r, ZERO_ADDRESS) ==> !Callable(r, w, markets[i]);
    }
  }
}
