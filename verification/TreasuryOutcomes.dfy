/** Exactly when money flows, accruals and owner calls go through. */
module TreasuryOutcomes {
  import opened Evm
  import opened Lists
  import opened Registry
  import opened RegistryInvariants
  import opened RegistryRefinement
  import opened Tokens
  import opened SafeApprove
  import opened Treasury

  /** A token that Penrose can approve and clear: it has code, answers nothing or true, and
      does not reject a zero approval. */
  ghost predicate Plain(g: Ledger, token: Address) {
    token in g && (g[token].policy.reply.NoData? || g[token].policy.reply.value) && !g[token].policy.rejectsZero
  }

  lemma PlainIsApprovable(g: Ledger, token: Address)
    ensures Plain(g, token) <==> Approvable(g, token)
  {
  }

  /** twTap takes a token: it accepts rewards, and holds that token at the index it gives. */
  ghost predicate Takes(w: World, twTap: Address, token: Address) {
    && twTap in w.twTaps && w.twTaps[twTap].accepting
    && Load(w.twTaps[twTap].index, token) in w.twTaps[twTap].rewards
    && w.twTaps[twTap].rewards[Load(w.twTaps[twTap].index, token)] == token
  }

  // ---------- Debt ----------

  /** In any state, viewTotalDebt() goes through exactly when every live market answers and
      the sum fits a word, and then it is that sum: of all entries of the list whose market
      is registered. */
  lemma TotalDebtGoesThroughExactly(r: State, debt: map<Address, nat>)
    ensures var live := set x | x in r.allBigBangMarkets && x in r.isMarketRegistered;
            var sum := KeptSum(r.allBigBangMarkets, r.isMarketRegistered, debt);
            && (TotalDebt(r, debt).Ok? <==> live <= debt.Keys && sum < TwoTo(256))
            && (TotalDebt(r, debt).Ok? ==> TotalDebt(r, debt).value == sum)
            && (TotalDebt(r, debt) == Revert(Panic) <==> live <= debt.Keys && sum >= TwoTo(256))
  {
    WordHas256Bits();
    if Live(r) <= debt.Keys {
      LiveSumIsKeptSum(r, debt);
    }
  }

  // ---------- Minting ----------

  lemma IssuedPays(w: World, self: Address, twTap: Address, usdo: Address, sum: nat, interest: map<Address, nat>)
    requires Settled(w, self) && usdo in w.tokens && sum > 0
    ensures var issued := w.(openInterest := interest, tokens := Issue(w.tokens, usdo, self, sum));
            twTap in w.twTaps ==>
              (Distribute(issued, self, twTap, Load(w.twTaps[twTap].index, usdo), usdo, sum).Ok? <==>
                 Plain(w.tokens, usdo) && Takes(w, twTap, usdo))
  {
    var issued := w.(openInterest := interest, tokens := Issue(w.tokens, usdo, self, sum));
    IssueReads(w.tokens, usdo, self, sum);
    PlainIsApprovable(w.tokens, usdo);
    if twTap in w.twTaps {
      DistributeNetEffect(issued, self, twTap, Load(w.twTaps[twTap].index, usdo), usdo, sum);
    }
  }

  /** A mint goes through exactly when every live market answers, the sum fits a word, and,
      if there is anything to mint, USDO is a plain token that Penrose may mint without
      overflowing the supply and that twTap takes. */
  lemma MintGoesThroughExactly(r: State, w: World, usdo: Address, self: Address, twTap: Address)
    requires Settled(w, self) && self !in w.twTaps
    ensures var live := set x | x in r.allBigBangMarkets && x in r.isMarketRegistered;
            Mint(r, w, usdo, self, twTap).Ok? <==>
              && live <= w.openInterest.Keys
              && var sum := SetSum(live, w.openInterest);
                 && sum < TwoTo(256)
                 && (sum > 0 ==>
                       && Plain(w.tokens, usdo) && (usdo, self) in w.minters
                       && Supply(w.tokens, usdo) + sum < TwoTo(256)
                       && Takes(w, twTap, usdo))
  {
    WordHas256Bits();
    if Live(r) <= w.openInterest.Keys {
      var sum := SetSum(Live(r), w.openInterest);
      if usdo in w.tokens && sum > 0 {
        IssuedPays(w, self, twTap, usdo, sum, Consume(w.openInterest, Live(r)));
      }
    }
  }

  // ---------- Fees ----------

  /** A market's fees can go to twTap: the market answers, and if it has shares to pass on,
      it holds them, YieldBox can pay for them, and the asset is a plain token that twTap
      takes. Of a payment rounded down to 0 twTap takes any token that works. */
  ghost predicate Payable(quote: Quote, w: World, twTap: Address, market: Address) {
    && market in w.fees
    && var f := w.fees[market];
       f.shares > 0 ==>
         && f.assetId in w.vaults
         && var v := w.vaults[f.assetId];
            var amount := quote(v.supply, v.backing, f.shares);
            && f.shares <= Load(v.shares, market) && f.shares <= v.supply && amount <= v.backing
            && Plain(w.tokens, f.asset) && amount <= Balance(w.tokens, f.asset, w.yieldBox)
            && if amount > 0 then Takes(w, twTap, f.asset) else TakesNothing(w, twTap, f.asset)
  }

  ghost predicate TakesNothing(w: World, twTap: Address, token: Address) {
    && twTap in w.twTaps && w.twTaps[twTap].accepting
    && Load(w.twTaps[twTap].index, token) in w.twTaps[twTap].rewards
    && var held := w.twTaps[twTap].rewards[Load(w.twTaps[twTap].index, token)];
       held in w.tokens && (w.tokens[held].policy.reply.NoData? || w.tokens[held].policy.reply.value)
  }

  /** YieldBox's side: the shares are there, and the payment is covered. */
  lemma CollectGoesThroughExactly(quote: Quote, w: World, self: Address, market: Address)
    requires Wired(w, self)
    ensures Collect(quote, w, self, market).Ok? <==>
              && market in w.fees
              && var f := w.fees[market];
                 f.shares > 0 ==>
                   && f.assetId in w.vaults
                   && var v := w.vaults[f.assetId];
                      var amount := quote(v.supply, v.backing, f.shares);
                      && f.shares <= Load(v.shares, market) && f.shares <= v.supply && amount <= v.backing
                      && Works(w.tokens, f.asset) && amount <= Balance(w.tokens, f.asset, w.yieldBox)
  {
  }

  /** One market: with no shares to pass on, everything stays as it was; otherwise the step
      goes through exactly when the fees can be paid. */
  lemma FeeStepGoesThroughExactly(quote: Quote, r: State, w: World, self: Address, twTap: Address, market: Address)
    requires Settled(w, self) && Wired(w, self)
    ensures FeeStep(quote, r, w, self, twTap, market).Ok? <==>
              market in r.isMarketRegistered && Payable(quote, w, twTap, market)
    ensures market in r.isMarketRegistered && market in w.fees && w.fees[market].shares == 0 ==>
              FeeStep(quote, r, w, self, twTap, market) == Ok(w)
  {
    CollectGoesThroughExactly(quote, w, self, market);
    var paid := Collect(quote, w, self, market);
    if paid.Ok? && w.fees[market].shares > 0 {
      CollectNetEffect(quote, w, self, market);
      var asset, amount := w.fees[market].asset, FeeAmount(quote, w, market);
      PlainIsApprovable(w.tokens, asset);
      MoveReads(w.tokens, asset, w.yieldBox, self, amount);
      DistributionGoesThrough(w, paid.value, self, twTap, asset, amount);
    }
  }

  /** The market's shares are destroyed and paid for out of the asset's backing, and the
      market has none left to pass on. */
  ghost predicate BooksWritten(quote: Quote, w: World, after: World, market: Address)
    requires market in w.fees && w.fees[market].assetId in w.vaults
  {
    var f := w.fees[market];
    && after.fees == w.fees[market := f.(shares := 0)]
    && f.assetId in after.vaults
    && var v, left := w.vaults[f.assetId], after.vaults[f.assetId];
       && after.vaults == w.vaults[f.assetId := left]
       && left.token == v.token
       && left.supply == v.supply - f.shares
       && left.backing == v.backing - quote(v.supply, v.backing, f.shares)
       && forall a :: Load(left.shares, a) == Load(v.shares, a) - if a == market then f.shares else 0
  }

  lemma CollectBooks(quote: Quote, w: World, self: Address, market: Address)
    requires Wired(w, self) && Collect(quote, w, self, market).Ok?
    requires market in w.fees && w.fees[market].shares > 0
    ensures w.fees[market].assetId in w.vaults
    ensures BooksWritten(quote, w, Collect(quote, w, self, market).value, market)
  {
    CollectGoesThroughExactly(quote, w, self, market);
  }

  /** What a step with shares writes outside the tokens. */
  lemma FeeStepBooks(quote: Quote, r: State, w: World, self: Address, twTap: Address, market: Address)
    requires Settled(w, self) && Wired(w, self) && FeeStep(quote, r, w, self, twTap, market).Ok?
    requires market in w.fees && w.fees[market].shares > 0
    ensures w.fees[market].assetId in w.vaults
    ensures BooksWritten(quote, w, FeeStep(quote, r, w, self, twTap, market).value, market)
  {
    assert Collect(quote, w, self, market).Ok?;
    var paid := Collect(quote, w, self, market).value;
    CollectStaysSettled(quote, w, self, market);
    CollectBooks(quote, w, self, market);
    StepAfterCollect(quote, r, w, self, twTap, market, paid);
    BooksAlike(quote, w, paid, FeeStep(quote, r, w, self, twTap, market).value, market);
  }

  lemma BooksAlike(quote: Quote, w: World, paid: World, after: World, market: Address)
    requires market in w.fees && w.fees[market].assetId in w.vaults && BooksWritten(quote, w, paid, market)
    requires after.fees == paid.fees && after.vaults == paid.vaults
    ensures BooksWritten(quote, w, after, market)
  {
  }

  lemma CollectStaysSettled(quote: Quote, w: World, self: Address, market: Address)
    requires Settled(w, self) && Wired(w, self) && Collect(quote, w, self, market).Ok?
    ensures Settled(Collect(quote, w, self, market).value, self)
  {
    CollectNetEffect(quote, w, self, market);
    var asset, amount := w.fees[market].asset, FeeAmount(quote, w, market);
    if w.fees[market].shares > 0 {
      MoveReads(w.tokens, asset, w.yieldBox, self, amount);
    }
  }

  lemma StepAfterCollect(quote: Quote, r: State, w: World, self: Address, twTap: Address, market: Address, paid: World)
    requires Settled(paid, self) && FeeStep(quote, r, w, self, twTap, market).Ok?
    requires Collect(quote, w, self, market) == Ok(paid) && market in w.fees && w.fees[market].shares > 0
    ensures var after := FeeStep(quote, r, w, self, twTap, market).value;
            after.fees == paid.fees && after.vaults == paid.vaults
  {
    FeeStepNetEffect(quote, r, w, self, twTap, market, paid);
  }

  lemma DistributionGoesThrough(w: World, paid: World, self: Address, twTap: Address, asset: Address, amount: nat)
    requires Settled(w, self) && SameAllowances(w.tokens, paid.tokens) && paid.twTaps == w.twTaps
    requires asset in w.tokens && amount <= Balance(paid.tokens, asset, self)
    ensures twTap in w.twTaps ==>
              (Distribute(paid, self, twTap, Load(w.twTaps[twTap].index, asset), asset, amount).Ok? <==>
                 Plain(w.tokens, asset) && if amount > 0 then Takes(w, twTap, asset) else TakesNothing(w, twTap, asset))
  {
    PlainIsApprovable(w.tokens, asset);
    if twTap in w.twTaps {
      var id := Load(w.twTaps[twTap].index, asset);
      DistributeNetEffect(paid, self, twTap, id, asset, amount);
    }
  }

  /** The market at position i is registered and its fees can be paid after those before it. */
  ghost predicate DueAt(quote: Quote, r: State, w: World, self: Address, twTap: Address, markets: seq<Address>, i: nat)
    requires i < |markets|
  {
    && markets[i] in r.isMarketRegistered
    && FeeBatch(quote, r, w, self, twTap, markets[..i]).Ok?
    && Payable(quote, FeeBatch(quote, r, w, self, twTap, markets[..i]).value, twTap, markets[i])
  }

  lemma LastIsDue(quote: Quote, r: State, w: World, self: Address, twTap: Address, markets: seq<Address>)
    requires Settled(w, self) && Wired(w, self) && markets != []
    ensures FeeBatch(quote, r, w, self, twTap, markets).Ok? <==>
              DueAt(quote, r, w, self, twTap, markets, |markets| - 1)
  {
    var n := |markets| - 1;
    var before := FeeBatch(quote, r, w, self, twTap, markets[..n]);
    if before.Ok? {
      FeeBatchConserves(quote, r, w, self, twTap, markets[..n]);
      FeeStepGoesThroughExactly(quote, r, before.value, self, twTap, markets[n]);
    }
  }

  lemma DueInPrefix(quote: Quote, r: State, w: World, self: Address, twTap: Address, markets: seq<Address>, n: nat)
    requires n <= |markets|
    ensures forall i :: 0 <= i < n ==> (DueAt(quote, r, w, self, twTap, markets[..n], i)
                                        <==> DueAt(quote, r, w, self, twTap, markets, i))
  {
    forall i | 0 <= i < n
      ensures DueAt(quote, r, w, self, twTap, markets[..n], i) <==> DueAt(quote, r, w, self, twTap, markets, i)
    {
      assert markets[..n][..i] == markets[..i];
    }
  }

  lemma DueMeansPaidBefore(quote: Quote, r: State, w: World, self: Address, twTap: Address, markets: seq<Address>)
    requires markets != [] && FeeBatch(quote, r, w, self, twTap, markets).Ok?
    ensures FeeBatch(quote, r, w, self, twTap, markets[..|markets| - 1]).Ok?
  {
  }

  /** A batch goes through exactly when every market is registered and its fees can be paid
      as its turn comes. */
  lemma {:induction false} FeeBatchGoesThroughExactly(quote: Quote, r: State, w: World, self: Address, twTap: Address,
                                                      markets: seq<Address>)
    requires Settled(w, self) && Wired(w, self)
    ensures FeeBatch(quote, r, w, self, twTap, markets).Ok? <==>
              forall i :: 0 <= i < |markets| ==> DueAt(quote, r, w, self, twTap, markets, i)
  {
    if markets != [] {
      var n := |markets| - 1;
      FeeBatchGoesThroughExactly(quote, r, w, self, twTap, markets[..n]);
      LastIsDue(quote, r, w, self, twTap, markets);
      DueInPrefix(quote, r, w, self, twTap, markets, n);
      if FeeBatch(quote, r, w, self, twTap, markets).Ok? {
        DueMeansPaidBefore(quote, r, w, self, twTap, markets);
      }
    }
  }

  /** Markets that have no fees to pass on never stop a batch, nor change anything. */
  lemma {:induction false} FeelessMarketsPass(quote: Quote, r: State, w: World, self: Address, twTap: Address,
                                              markets: seq<Address>)
    requires forall x :: x in markets ==> x in r.isMarketRegistered && x in w.fees && w.fees[x].shares == 0
    ensures FeeBatch(quote, r, w, self, twTap, markets) == Ok(w)
  {
    if markets != [] {
      FeelessMarketsPass(quote, r, w, self, twTap, markets[..|markets| - 1]);
      assert markets[|markets| - 1] in markets;
    }
  }

  // ---------- Accrual ----------

  lemma {:induction false} KeepKeepsOrder(s: seq<Address>, keep: set<Address>, i: nat, j: nat)
    requires NoDup(s) && i < j < |Keep(s, keep)|
    ensures IndexOf(s, Keep(s, keep)[i]) < IndexOf(s, Keep(s, keep)[j])
  {
    var n := |s| - 1;
    var init, kept := s[..n], Keep(s, keep);
    assert kept[i] in Keep(init, keep);
    if j < |Keep(init, keep)| {
      KeepKeepsOrder(init, keep, i, j);
      PrefixIndex(s, n, kept[j]);
    } else {
      assert kept[j] == s[n];
    }
    PrefixIndex(s, n, kept[i]);
  }

  lemma PrefixIndex(s: seq<Address>, n: nat, x: Address)
    requires NoDup(s) && n <= |s| && x in s[..n]
    ensures IndexOf(s, x) == IndexOf(s[..n], x)
  {
    var i := IndexOf(s[..n], x);
    assert s[i] == s[IndexOf(s, x)];
  }

  /** A trace that calls each of these markets once, in the order of a list. */
  ghost predicate CallsInOrder(trace: seq<Accrual>, list: seq<Address>, markets: set<Address>, mainMarket: Address) {
    && (forall i :: 0 <= i < |trace| ==> trace[i].market in markets * Elems(list) && trace[i].mainMarket == mainMarket)
    && (forall x :: x in markets ==> exists i :: 0 <= i < |trace| && trace[i].market == x)
    && (forall i, j :: 0 <= i < j < |trace| ==> IndexOf(list, trace[i].market) < IndexOf(list, trace[j].market))
  }

  lemma AccrualsCallInOrder(s: seq<Address>, keep: set<Address>, markets: set<Address>, mainMarket: Address)
    requires NoDup(s) && forall x :: x in Keep(s, keep) <==> x in markets
    ensures CallsInOrder(Accruals(Keep(s, keep), mainMarket), s, markets, mainMarket)
  {
    var targets := Keep(s, keep);
    var trace := Accruals(targets, mainMarket);
    forall x | x in markets ensures exists i :: 0 <= i < |trace| && trace[i].market == x {
      var i :| 0 <= i < |targets| && targets[i] == x;
      assert trace[i].market == x;
    }
    forall i, j | 0 <= i < j < |trace| ensures IndexOf(s, trace[i].market) < IndexOf(s, trace[j].market) {
      KeepKeepsOrder(s, keep, i, j);
    }
  }

  /** Where the indexes agree, an accrual goes through exactly when every BigBang market but
      the one left out answers. It then adds one entry for each of them, under the main
      market of the moment, in the order of allBigBangMarkets. */
  lemma AccrualGoesThroughExactly(r: State, w: World, mainMarket: Address, includeMainMarket: bool)
    requires Faithful(r)
    ensures var after := AccrueAll(w, AccrueTargets(r, mainMarket, includeMainMarket), mainMarket);
            var markets := BigBangsOf(Abs(r)) - if includeMainMarket then {} else {mainMarket};
            && (after.Ok? <==> markets <= w.accruable)
            && (after.Ok? ==>
                  exists trace :: && after.value == w.(accrued := w.accrued + trace)
                                  && CallsInOrder(trace, r.allBigBangMarkets, markets, mainMarket))
  {
    var targets := AccrueTargets(r, mainMarket, includeMainMarket);
    var markets := BigBangsOf(Abs(r)) - if includeMainMarket then {} else {mainMarket};
    AccrualReachesEachOnce(r, mainMarket, includeMainMarket);
    assert forall x :: x in targets <==> x in markets;
    AccrualsCallInOrder(r.allBigBangMarkets, r.isMarketRegistered - if includeMainMarket then {} else {mainMarket},
                        markets, mainMarket);
    assert CallsInOrder(Accruals(targets, mainMarket), r.allBigBangMarkets, markets, mainMarket);
  }

  // ---------- Owner calls ----------

  /** A batch of owner calls goes through exactly when targets and data match in number,
      every target stands under a registered master contract of either family and has code,
      and, if success is forced, every call succeeds, answered in the light of the calls
      before it. */
  lemma ExecutionGoesThroughExactly(respond: Responder, r: State, w: World, targets: seq<Address>, data: seq<Bytes>,
                                    force: bool)
    ensures ExecuteBatch(respond, r, w, targets, data, force).Ok? <==>
              && |targets| == |data|
              && forall i :: 0 <= i < |targets| ==>
                   && (|| Load(r.masterContractOf, targets[i]) in r.isSingularityMasterContractRegistered
                       || Load(r.masterContractOf, targets[i]) in r.isBigBangMasterContractRegistered)
                   && targets[i] in w.code
                   && (force ==> respond(w.executed + CallLog(respond, w.executed, targets, data)[..i],
                                         targets[i], data[i]).0)
    ensures |targets| != |data| ==> ExecuteBatch(respond, r, w, targets, data, force) == Revert(LengthMismatch)
  {
    if |targets| == |data| {
      forall i | 0 <= i < |targets|
        ensures CallLog(respond, w.executed, targets, data)[i].success
                == respond(w.executed + CallLog(respond, w.executed, targets, data)[..i], targets[i], data[i]).0
      {
        CallLogLinesUp(respond, w.executed, targets, data, i);
      }
    }
  }
}
