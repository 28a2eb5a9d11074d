/** Exactly when a liquidation goes through, and what a receiver's settings are after any
    history. */
module LiquidationOutcomes {
  import opened Evm
  import opened Tokens
  import opened Liquidation

  /** An account has an amount of a token after these movements. */
  ghost predicate Has(g: Ledger, moved: seq<Movement>, token: Address, who: Address, v: nat) {
    v <= Balance(g, token, who) + Net(moved, token, who)
  }

  /** A token whose methods work: it has code and answers nothing or true. */
  ghost predicate Good(g: Ledger, token: Address) {
    token in g && (g[token].policy.reply.NoData? || g[token].policy.reply.value)
  }

  /** A swap can be made after these movements: the token sold can be approved and cleared,
      the exchange takes at most the amount and the receiver has it, the exchange's source
      has what it delivers, and the reported amount is at least the minimum. */
  ghost predicate Swappable(g: Ledger, moved: seq<Movement>, self: Address, sell: Address, spender: Address,
                            buy: Address, amount: nat, minOut: nat, fill: Fill)
  {
    && Good(g, sell) && !g[sell].policy.rejectsZero && Good(g, buy)
    && fill.succeeds && fill.spent <= amount
    && Has(g, moved, sell, self, fill.spent)
    && Has(g, moved + [Movement(sell, At(self), At(spender), fill.spent)], buy, fill.source, fill.delivered)
    && minOut <= fill.reported
  }

  lemma GoodWorks(g: Ledger, token: Address)
    ensures Good(g, token) <==> Works(g, token)
  {
  }

  /** Approving from an allowance of 0. */
  lemma ApprovesExactly(g: Ledger, token: Address, owner: Address, spender: Address, v: nat)
    requires v == 0 || Allowance(g, token, owner, spender) == 0
    ensures GuardedApprove(g, token, owner, spender, v).Ok? <==>
              Works(g, token) && !(v == 0 && g[token].policy.rejectsZero)
  {
  }

  lemma SellsExactly(g: Ledger, self: Address, sell: Address, spender: Address, v: nat)
    requires sell in g
    ensures var sold := TransferFrom(g, sell, spender, self, spender, v);
            && (sold.Ok? <==> Works(g, sell) && v <= Balance(g, sell, self) && v <= Allowance(g, sell, self, spender))
            && (sold.Ok? ==>
                  && SameTokens(g, sold.value)
                  && forall t, a :: Balance(sold.value, t, a)
                                    == Balance(g, t, a) + Effect(Movement(sell, At(self), At(spender), v), t, a))
  {
    var sold := TransferFrom(g, sell, spender, self, spender, v);
    if sold.Ok? {
      MoveReads(g, sell, self, spender, v);
      AllowanceOnly(Move(g, sell, self, spender, v), sell, self, spender, Spent(g, sell, self, spender, v));
    }
  }

  /** The exchange's two legs, from whatever the receiver allowed. */
  lemma ExchangesExactly(g: Ledger, self: Address, sell: Address, spender: Address, buy: Address, fill: Fill)
    requires sell in g
    ensures var r := Exchange(g, self, sell, spender, buy, fill);
            && (r.Ok? <==>
                  && fill.succeeds && Works(g, sell) && Works(g, buy)
                  && fill.spent <= Balance(g, sell, self) && fill.spent <= Allowance(g, sell, self, spender)
                  && fill.delivered <= Balance(g, buy, fill.source)
                                       + Effect(Movement(sell, At(self), At(spender), fill.spent), buy, fill.source))
            && (r.Ok? ==> SameTokens(g, r.value))
  {
    SellsExactly(g, self, sell, spender, fill.spent);
    var sold := TransferFrom(g, sell, spender, self, spender, fill.spent);
    if sold.Ok? && Works(g, buy) && fill.delivered <= Balance(sold.value, buy, fill.source) {
      MoveReads(sold.value, buy, fill.source, self, fill.delivered);
    }
  }

  lemma StageInSteps(g: Ledger, self: Address, sell: Address, spender: Address, buy: Address,
                     amount: nat, minOut: nat, fill: Fill, tooLittle: Error)
    ensures Stage(g, self, sell, spender, buy, amount, minOut, fill, tooLittle).Ok? <==>
              && GuardedApprove(g, sell, self, spender, amount).Ok?
              && var exchanged := Exchange(GuardedApprove(g, sell, self, spender, amount).value,
                                           self, sell, spender, buy, fill);
                 && exchanged.Ok? && GuardedApprove(exchanged.value, sell, self, spender, 0).Ok?
                 && minOut <= fill.reported
  {
  }

  /** A stage on the ledger it meets, no allowance being open. */
  lemma StagesExactly(g: Ledger, self: Address, sell: Address, spender: Address, buy: Address,
                      amount: nat, minOut: nat, fill: Fill, tooLittle: Error)
    requires Allowance(g, sell, self, spender) == 0
    ensures Stage(g, self, sell, spender, buy, amount, minOut, fill, tooLittle).Ok? <==>
              && Works(g, sell) && !g[sell].policy.rejectsZero && Works(g, buy)
              && fill.succeeds && fill.spent <= amount && fill.spent <= Balance(g, sell, self)
              && fill.delivered <= Balance(g, buy, fill.source)
                                   + Effect(Movement(sell, At(self), At(spender), fill.spent), buy, fill.source)
              && minOut <= fill.reported
  {
    StageInSteps(g, self, sell, spender, buy, amount, minOut, fill, tooLittle);
    ApprovesExactly(g, sell, self, spender, amount);
    if Works(g, sell) && !(amount == 0 && g[sell].policy.rejectsZero) {
      var approved := SetAllowance(g, sell, self, spender, amount);
      AllowanceOnly(g, sell, self, spender, amount);
      ExchangesExactly(approved, self, sell, spender, buy, fill);
      var exchanged := Exchange(approved, self, sell, spender, buy, fill);
      if exchanged.Ok? {
        ApprovesExactly(exchanged.value, sell, self, spender, 0);
      }
    }
  }

  lemma AllowanceOnly(g: Ledger, token: Address, owner: Address, spender: Address, v: nat)
    requires token in g
    ensures var h := SetAllowance(g, token, owner, spender, v);
            && SameTokens(g, h) && Allowance(h, token, owner, spender) == v
            && forall t, a :: Balance(h, t, a) == Balance(g, t, a)
  {
  }

  lemma HasNow(w0: Ledger, g: Ledger, moved: seq<Movement>, m: Movement, token: Address, who: Address, v: nat)
    requires Changed(w0, g, moved)
    ensures Has(w0, moved, token, who, v) <==> v <= Balance(g, token, who)
    ensures Has(w0, moved + [m], token, who, v) <==> v <= Balance(g, token, who) + Effect(m, token, who)
  {
    NetConcat(moved, [m], token, who);
    NetOne(m, token, who);
    assert Balance(g, token, who) == Balance(w0, token, who) + Net(moved, token, who);
  }

  /** One stage goes through exactly when the swap can be made. */
  lemma StageGoesThroughExactly(w0: Ledger, g: Ledger, moved: seq<Movement>, self: Address, sell: Address,
                                spender: Address, buy: Address, amount: nat, minOut: nat, fill: Fill, tooLittle: Error)
    requires Changed(w0, g, moved) && Allowance(w0, sell, self, spender) == 0
    ensures Stage(g, self, sell, spender, buy, amount, minOut, fill, tooLittle).Ok? <==>
              Swappable(w0, moved, self, sell, spender, buy, amount, minOut, fill)
  {
    GoodWorks(w0, sell);
    GoodWorks(w0, buy);
    var leg := Movement(sell, At(self), At(spender), fill.spent);
    HasNow(w0, g, moved, leg, sell, self, fill.spent);
    HasNow(w0, g, moved, leg, buy, fill.source, fill.delivered);
    assert Allowance(g, sell, self, spender) == 0;
    StagesExactly(g, self, sell, spender, buy, amount, minOut, fill, tooLittle);
  }

  /** The last part of both receivers: the swap can be made, and the receiver then has what
      the exchange reported. */
  lemma PayOutGoesThroughExactly(w0: Ledger, g: Ledger, moved: seq<Movement>, self: Address, sell: Address,
                                 spender: Address, buy: Address, amount: nat, minOut: nat, fill: Fill, market: Address)
    requires Changed(w0, g, moved) && Allowance(w0, sell, self, spender) == 0
    ensures PayOut(g, self, sell, spender, buy, amount, minOut, fill, market).Ok? <==>
              && Swappable(w0, moved, self, sell, spender, buy, amount, minOut, fill)
              && Has(w0, moved + Swapping(self, sell, spender, buy, fill), buy, self, fill.reported)
  {
    StageGoesThroughExactly(w0, g, moved, self, sell, spender, buy, amount, minOut, fill, SwapFailed);
    var swapped := Stage(g, self, sell, spender, buy, amount, minOut, fill, SwapFailed);
    if swapped.Ok? {
      var legs := Swapping(self, sell, spender, buy, fill);
      assert Allowance(g, sell, self, spender) == 0;
      StageChanges(g, self, sell, spender, buy, amount, minOut, fill, SwapFailed);
      ChangedTwice(w0, g, swapped.value, moved, legs);
      HasNow(w0, swapped.value, moved + legs, legs[0], buy, self, fill.reported);
      GoodWorks(w0, buy);
    }
  }

  /** An unwrap goes through exactly when the TOFT answers, the receiver has the collateral,
      and the TOFT holds the underlying that it pays. */
  lemma UnwrapGoesThroughExactly(w: Venue, self: Address, q: Request, u: Unwrapping)
    ensures Unwrap(w, self, q.tokenIn, q.collateralAmount, u).Ok? <==> Unwrappable(w, self, q, u)
  {
    if u.succeeds && q.tokenIn in w.underlying && q.tokenIn in w.tokens
       && q.collateralAmount <= Balance(w.tokens, q.tokenIn, self) && q.collateralAmount <= Supply(w.tokens, q.tokenIn)
    {
      var burned := Burn(w.tokens, q.tokenIn, self, q.collateralAmount);
      var burn := Movement(q.tokenIn, At(self), Nowhere, q.collateralAmount);
      BurnChanges(w.tokens, q.tokenIn, self, q.collateralAmount);
      HasNow(w.tokens, burned, [burn], burn, w.underlying[q.tokenIn], q.tokenIn, u.amount);
      GoodWorks(w.tokens, w.underlying[q.tokenIn]);
    }
  }

  ghost predicate Unwrappable(w: Venue, self: Address, q: Request, u: Unwrapping) {
    && u.succeeds && q.tokenIn in w.tokens && q.tokenIn in w.underlying
    && q.collateralAmount <= Balance(w.tokens, q.tokenIn, self) && q.collateralAmount <= Supply(w.tokens, q.tokenIn)
    && var erc20 := w.underlying[q.tokenIn];
       if erc20 == 0 then u.amount <= Load(w.ether, q.tokenIn)
       else && Good(w.tokens, erc20)
            && Has(w.tokens, [Movement(q.tokenIn, At(self), Nowhere, q.collateralAmount)], erc20, q.tokenIn, u.amount)
  }

  /** The checks on the caller and on the calldata. */
  ghost predicate Welcome(rc: Receiver, w: Venue, q: Request) {
    && q.initiator in rc.allowedParticipants && q.sender in w.whitelisted && rc.self in w.whitelisted
    && if rc.kind.Plain? then q.order.PlainOrder? else q.order.GlpOrder?
  }

  /** The token that an unwrap leaves for sale: WETH for the native coin. */
  ghost function ForSale(rc: Receiver, w: Venue, q: Request): Address
    requires rc.kind.Plain? && q.tokenIn in w.underlying
  {
    if w.underlying[q.tokenIn] == 0 then rc.kind.weth else w.underlying[q.tokenIn]
  }

  /** The collateral can be unwrapped and, if it is the native coin, deposited at WETH. */
  ghost predicate Collectable(rc: Receiver, w: Venue, q: Request, u: Unwrapping)
    requires rc.kind.Plain?
  {
    && Welcome(rc, w, q) && Unwrappable(w, rc.self, q, u)
    && (w.underlying[q.tokenIn] == 0 ==> rc.kind.weth in w.tokens)
  }

  lemma CollectGoesThroughExactly(rc: Receiver, w: Venue, q: Request, u: Unwrapping)
    requires rc.kind.Plain?
    ensures Collect(rc, w, q, u).Ok? <==> Collectable(rc, w, q, u)
    ensures Collect(rc, w, q, u).Ok? ==>
              && Collect(rc, w, q, u).value.1 == ForSale(rc, w, q)
              && Changed(w.tokens, Collect(rc, w, q, u).value.0.tokens,
                         UnwrapMovements(w, rc.self, q, u.amount)
                         + WrapMovements(w, rc.self, rc.kind.weth, q, u.amount))
  {
    AdmitsExactly(rc, w, q);
    UnwrapGoesThroughExactly(w, rc.self, q, u);
    if Admit(rc, w, q).Ok? && Unwrap(w, rc.self, q.tokenIn, q.collateralAmount, u).Ok? {
      WrapsExactly(rc, w, q, u);
      if Collect(rc, w, q, u).Ok? {
        WrappedChanges(w, rc.self, rc.kind.weth, q, u);
      }
    }
  }

  lemma AdmitsExactly(rc: Receiver, w: Venue, q: Request)
    ensures Admit(rc, w, q).Ok? <==>
              Welcome(rc, w, q) && q.tokenIn in w.tokens && q.collateralAmount <= Balance(w.tokens, q.tokenIn, rc.self)
  {
  }

  lemma WrapsExactly(rc: Receiver, w: Venue, q: Request, u: Unwrapping)
    requires rc.kind.Plain? && Unwrap(w, rc.self, q.tokenIn, q.collateralAmount, u).Ok?
    ensures q.tokenIn in w.underlying
    ensures var wrapped := Wrapped(Unwrap(w, rc.self, q.tokenIn, q.collateralAmount, u).value, rc.self, rc.kind.weth,
                                   q.tokenIn, u.amount);
            && (wrapped.Ok? <==> (w.underlying[q.tokenIn] == 0 ==> rc.kind.weth in w.tokens))
            && (wrapped.Ok? ==> wrapped.value.1 == ForSale(rc, w, q))
  {
    UnwrapChanges(w, rc.self, q, u);
    var unwrapped := Unwrap(w, rc.self, q.tokenIn, q.collateralAmount, u).value;
    assert rc.kind.weth in unwrapped.tokens <==> rc.kind.weth in w.tokens;
  }

  /** A liquidation goes through exactly when the caller and the calldata pass the checks,
      the collateral can be unwrapped, the order sells what the unwrap left and buys what the
      market asked for, the swap can be made, and the receiver then has what it must pay. An
      order for any other pair of tokens is refused, after the unwrap, with the error that a
      stranger gets. */
  lemma PlainGoesThroughExactly(rc: Receiver, w: Venue, q: Request, u: Unwrapping, fill: Fill)
    requires rc.kind.Plain? && NoGrants(w.tokens, rc.self)
    ensures var r := LiquidatePlain(rc, w, q, u, fill);
            var moved := UnwrapMovements(w, rc.self, q, u.amount) + WrapMovements(w, rc.self, rc.kind.weth, q, u.amount);
            && (r.Ok? <==>
                  && Collectable(rc, w, q, u)
                  && var swap := q.order.swap;
                     && swap.sellToken == ForSale(rc, w, q) && swap.buyToken == q.tokenOut
                     && Swappable(w.tokens, moved, rc.self, swap.sellToken, rc.swapper, swap.buyToken, u.amount,
                                  swap.minAmountOut, fill)
                     && Has(w.tokens, moved + Swapping(rc.self, swap.sellToken, rc.swapper, swap.buyToken, fill),
                            q.tokenOut, rc.self, fill.reported))
            && (r == Revert(NotAuthorized) <==>
                  || q.initiator !in rc.allowedParticipants
                  || (&& Collectable(rc, w, q, u)
                      && (q.order.swap.sellToken != ForSale(rc, w, q) || q.order.swap.buyToken != q.tokenOut)))
  {
    CollectGoesThroughExactly(rc, w, q, u);
    if q.initiator in rc.allowedParticipants {
      if Collect(rc, w, q, u).Ok? {
        var (ready, erc20) := Collect(rc, w, q, u).value;
        var moved := UnwrapMovements(w, rc.self, q, u.amount) + WrapMovements(w, rc.self, rc.kind.weth, q, u.amount);
        PayOutGoesThroughExactly(w.tokens, ready.tokens, moved, rc.self, erc20, rc.swapper, q.tokenOut, u.amount,
                                 q.order.swap.minAmountOut, fill, q.sender);
        PayOutRaises(ready.tokens, rc.self, erc20, rc.swapper, q.tokenOut, u.amount, q.order.swap.minAmountOut, fill,
                     q.sender);
      } else if Admit(rc, w, q).Ok? {
        CollectRaises(rc, w, q, u);
      }
    }
  }

  /** The collateral can be unwrapped and redeemed for the order's token. */
  ghost predicate Redeemable(rc: Receiver, w: Venue, q: Request, u: Unwrapping, redeem: Fill)
    requires rc.kind.Glp?
  {
    && Welcome(rc, w, q) && Unwrappable(w, rc.self, q, u)
    && Swappable(w.tokens, UnwrapMovements(w, rc.self, q, u.amount), rc.self, w.underlying[q.tokenIn],
                 rc.kind.glpManager, q.order.token, u.amount, q.order.minTokenOut, redeem)
  }

  lemma RedeemGoesThroughExactly(rc: Receiver, w: Venue, q: Request, u: Unwrapping, redeem: Fill)
    requires rc.kind.Glp? && NoGrants(w.tokens, rc.self)
    ensures Redeem(rc, w, q, u, redeem).Ok? <==> Redeemable(rc, w, q, u, redeem)
  {
    AdmitsExactly(rc, w, q);
    UnwrapGoesThroughExactly(w, rc.self, q, u);
    var unwrapped := Unwrap(w, rc.self, q.tokenIn, q.collateralAmount, u);
    if Admit(rc, w, q).Ok? && unwrapped.Ok? {
      UnwrapChanges(w, rc.self, q, u);
      RedeemsInSteps(rc, w, q, u, redeem, unwrapped.value);
      StageGoesThroughExactly(w.tokens, unwrapped.value.tokens, UnwrapMovements(w, rc.self, q, u.amount), rc.self,
                              w.underlying[q.tokenIn], rc.kind.glpManager, q.order.token, u.amount,
                              q.order.minTokenOut, redeem, SellGlpFailed);
    }
  }

  lemma RedeemsInSteps(rc: Receiver, w: Venue, q: Request, u: Unwrapping, redeem: Fill, unwrapped: Venue)
    requires rc.kind.Glp? && Admit(rc, w, q).Ok? && q.tokenIn in w.underlying
    requires Unwrap(w, rc.self, q.tokenIn, q.collateralAmount, u) == Ok(unwrapped)
    ensures q.order.GlpOrder?
    ensures Redeem(rc, w, q, u, redeem).Ok? <==>
              Stage(unwrapped.tokens, rc.self, w.underlying[q.tokenIn], rc.kind.glpManager, q.order.token, u.amount,
                    q.order.minTokenOut, redeem, SellGlpFailed).Ok?
  {
  }

  /** The same for sGLP: the order must sell what the redemption bought. */
  lemma GlpGoesThroughExactly(rc: Receiver, w: Venue, q: Request, u: Unwrapping, redeem: Fill, fill: Fill)
    requires rc.kind.Glp? && NoGrants(w.tokens, rc.self)
    ensures var r := LiquidateGlp(rc, w, q, u, redeem, fill);
            && (r.Ok? <==>
                  && Redeemable(rc, w, q, u, redeem)
                  && var swap := q.order.swap;
                     var moved := UnwrapMovements(w, rc.self, q, u.amount)
                                  + Swapping(rc.self, w.underlying[q.tokenIn], rc.kind.glpManager, q.order.token, redeem);
                     && swap.sellToken == q.order.token && swap.buyToken == q.tokenOut
                     && Swappable(w.tokens, moved, rc.self, swap.sellToken, rc.swapper, swap.buyToken, redeem.reported,
                                  swap.minAmountOut, fill)
                     && Has(w.tokens, moved + Swapping(rc.self, swap.sellToken, rc.swapper, swap.buyToken, fill),
                            q.tokenOut, rc.self, fill.reported))
            && (r == Revert(NotAuthorized) <==>
                  || q.initiator !in rc.allowedParticipants
                  || (&& Redeemable(rc, w, q, u, redeem)
                      && (q.order.swap.sellToken != q.order.token || q.order.swap.buyToken != q.tokenOut)))
  {
    RedeemGoesThroughExactly(rc, w, q, u, redeem);
    if q.initiator in rc.allowedParticipants {
      if Redeem(rc, w, q, u, redeem).Ok? {
        var g := Redeem(rc, w, q, u, redeem).value.tokens;
        RedeemChanges(rc, w, q, u, redeem);
        var moved := UnwrapMovements(w, rc.self, q, u.amount)
                     + Swapping(rc.self, w.underlying[q.tokenIn], rc.kind.glpManager, q.order.token, redeem);
        PayOutGoesThroughExactly(w.tokens, g, moved, rc.self, q.order.token, rc.swapper, q.tokenOut, redeem.reported,
                                 q.order.swap.minAmountOut, fill, q.sender);
        PayOutRaises(g, rc.self, q.order.token, rc.swapper, q.tokenOut, redeem.reported, q.order.swap.minAmountOut,
                     fill, q.sender);
      } else if Admit(rc, w, q).Ok? {
        RedeemRaises(rc, w, q, u, redeem);
      }
    }
  }

  // ---------- Settings ----------

  /** The owner decides whether p may liquidate. */
  predicate Decides(e: Event, owner: Address, p: Address) {
    e.SetAllowedParticipant? && e.sender == owner && e.participant == p
  }

  predicate Appoints(e: Event, owner: Address) {
    e.SetSwapper? && e.sender == owner
  }

  /** After any history, a participant is allowed exactly if the owner's last word on it was
      yes; without such a word it is as it was. No one else's calls count. */
  lemma {:induction false} OwnersLastWordOnParticipants(s: Situation, events: seq<Event>, p: Address)
    ensures var now, owner := History(s, events).receiver.allowedParticipants, s.receiver.owner;
            && (forall i :: 0 <= i < |events| && Decides(events[i], owner, p)
                            && (forall j :: i < j < |events| ==> !Decides(events[j], owner, p)) ==>
                  (p in now <==> events[i].allowed))
            && ((forall i :: 0 <= i < |events| ==> !Decides(events[i], owner, p)) ==>
                  (p in now <==> p in s.receiver.allowedParticipants))
  {
    if events != [] {
      var n := |events| - 1;
      OwnersLastWordOnParticipants(s, events[..n], p);
      OnlySettingsChange(s, events[..n]);
      HappenSets(History(s, events[..n]), events[n], p);
      assert forall j :: 0 <= j < n ==> events[..n][j] == events[j];
    }
  }

  /** The same for the swapper: it is the one the owner named last. */
  lemma {:induction false} OwnersLastWordOnSwapper(s: Situation, events: seq<Event>)
    ensures var now, owner := History(s, events).receiver.swapper, s.receiver.owner;
            && (forall i :: 0 <= i < |events| && Appoints(events[i], owner)
                            && (forall j :: i < j < |events| ==> !Appoints(events[j], owner)) ==>
                  now == events[i].swapper)
            && ((forall i :: 0 <= i < |events| ==> !Appoints(events[i], owner)) ==> now == s.receiver.swapper)
  {
    if events != [] {
      var n := |events| - 1;
      OwnersLastWordOnSwapper(s, events[..n]);
      OnlySettingsChange(s, events[..n]);
      HappenSets(History(s, events[..n]), events[n], 0);
      assert forall j :: 0 <= j < n ==> events[..n][j] == events[j];
    }
  }

  /** Nothing changes the owner, or who the receiver is. */
  lemma {:induction false} OnlySettingsChange(s: Situation, events: seq<Event>)
    ensures var now := History(s, events).receiver;
            now == s.receiver.(swapper := now.swapper, allowedParticipants := now.allowedParticipants)
  {
    if events != [] {
      OnlySettingsChange(s, events[..|events| - 1]);
      HappenSets(History(s, events[..|events| - 1]), events[|events| - 1], 0);
    }
  }

  lemma HappenSets(s: Situation, e: Event, p: Address)
    ensures var now, owner := Happen(s, e).receiver, s.receiver.owner;
            && now == s.receiver.(swapper := now.swapper, allowedParticipants := now.allowedParticipants)
            && (p in now.allowedParticipants <==>
                  if Decides(e, owner, p) then e.allowed else p in s.receiver.allowedParticipants)
            && now.swapper == if Appoints(e, owner) then e.swapper else s.receiver.swapper
  {
  }
}
