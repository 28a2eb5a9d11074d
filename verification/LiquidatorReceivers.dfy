/** The two liquidator receivers. A call that reverts puts the venue back as it was. Neither
    the swapper nor the GLP router calls back into the receiver; its own reentrancy guard and
    owner check see to that. */
module LiquidatorReceivers {
  import opened Evm
  import opened Tokens
  import opened Liquidation

  /** Where a receiver operates. */
  class Site {
    var venue: Venue

    constructor (venue: Venue)
      ensures this.venue == venue
    {
      this.venue := venue;
    }

    /** `safeApprove` of the receiver at this site. */
    method GuardedApprove(token: Address, self: Address, spender: Address, v: nat) returns (r: Result<()>)
      modifies this
      ensures var expected := Liquidation.GuardedApprove(old(venue.tokens), token, self, spender, v);
              && (if expected.Ok? then r == Ok(()) else r == Revert(expected.error))
              && venue == if expected.Ok? then old(venue).(tokens := expected.value) else old(venue)
    {
      if token !in venue.tokens {
        return Revert(NoContract);
      }
      if v != 0 && Allowance(venue.tokens, token, self, spender) != 0 {
        return Revert(ApproveFromNonZero);
      }
      var call := CallApprove(venue.tokens, token, self, spender, v);
      if !Accepted(call) {
        return Revert(ApproveFailed);
      }
      venue := venue.(tokens := call.ledger);
      return Ok(());
    }

    /** Approve, exchange, take the approval back, check the amount. */
    method Swap(self: Address, sell: Address, spender: Address, buy: Address, amount: nat, minOut: nat,
                fill: Fill, tooLittle: Error) returns (r: Result<nat>)
      modifies this
      ensures var expected := Stage(old(venue.tokens), self, sell, spender, buy, amount, minOut, fill, tooLittle);
              && (if expected.Ok? then r == Ok(fill.reported) else r == Revert(expected.error))
              && (expected.Ok? ==> venue == old(venue).(tokens := expected.value))
    {
      var approval := GuardedApprove(sell, self, spender, amount);
      if approval.Revert? {
        return Revert(approval.error);
      }
      var exchanged := Exchange(venue.tokens, self, sell, spender, buy, fill);
      if exchanged.Revert? {
        return Revert(exchanged.error);
      }
      venue := venue.(tokens := exchanged.value);
      var amountOut := fill.reported;
      approval := GuardedApprove(sell, self, spender, 0);
      if approval.Revert? {
        return Revert(approval.error);
      }
      if amountOut < minOut {
        return Revert(tooLittle);
      }
      return Ok(amountOut);
    }
  }

  class MarketLiquidatorReceiver {
    const self: Address
    const weth: Address
    var owner: Address
    var swapper: Address
    var allowedParticipants: set<Address>

    function Value(): Receiver
      reads this
    {
      Receiver(self, owner, Plain(weth), swapper, allowedParticipants)
    }

    constructor (self: Address, weth: Address, swapper: Address, owner: Address)
      ensures Value() == Receiver(self, owner, Plain(weth), swapper, {})
    {
      this.self, this.weth, this.swapper, this.owner := self, weth, swapper, owner;
      allowedParticipants := {};
    }

    method OnCollateralReceiver(site: Site, q: Request, u: Unwrapping, fill: Fill) returns (r: Result<bool>)
      modifies site
      ensures var expected := LiquidatePlain(Value(), old(site.venue), q, u, fill);
              && (if expected.Ok? then r == Ok(true) else r == Revert(expected.error))
              && site.venue == if expected.Ok? then expected.value else old(site.venue)
    {
      var before := site.venue;
      r := Liquidate(site, q, u, fill);
      if r.Revert? {
        site.venue := before;
      }
    }

    /** The caller, the whitelist, the balance and the calldata, in this order. */
    method Check(site: Site, q: Request) returns (r: Result<()>)
      ensures r == Admit(Value(), site.venue, q)
    {
      if q.initiator !in allowedParticipants {
        return Revert(NotAuthorized);
      }
      if q.sender !in site.venue.whitelisted {
        return Revert(WhitelistError);
      }
      if self !in site.venue.whitelisted {
        return Revert(WhitelistError);
      }
      if q.tokenIn !in site.venue.tokens {
        return Revert(CallFailed);
      }
      var collateralBalance := Balance(site.venue.tokens, q.tokenIn, self);
      if collateralBalance < q.collateralAmount {
        return Revert(NotEnough);
      }
      if !q.order.PlainOrder? {
        return Revert(BadData);
      }
      return Ok(());
    }

    method Liquidate(site: Site, q: Request, u: Unwrapping, fill: Fill) returns (r: Result<bool>)
      modifies site
      ensures var expected := LiquidatePlain(Value(), old(site.venue), q, u, fill);
              && (if expected.Ok? then r == Ok(true) else r == Revert(expected.error))
              && (expected.Ok? ==> site.venue == expected.value)
    {
      var checked := Check(site, q);
      if checked.Revert? {
        return Revert(checked.error);
      }
      var swapData := q.order.swap;

      // unwrap the TOFT
      var done := Unwrap(site.venue, self, q.tokenIn, q.collateralAmount, u);
      if done.Revert? {
        return Revert(done.error);
      }
      site.venue := done.value;
      var unwrapped := u.amount;
      var erc20 := site.venue.underlying[q.tokenIn];

      // the native coin becomes WETH
      if erc20 == ZERO_ADDRESS {
        done := DepositEther(site.venue, self, weth, unwrapped);
        if done.Revert? {
          return Revert(done.error);
        }
        site.venue := done.value;
        erc20 := weth;
      }

      if swapData.sellToken != erc20 {
        return Revert(NotAuthorized);
      }
      if swapData.buyToken != q.tokenOut {
        return Revert(NotAuthorized);
      }
      var amountOut := site.Swap(self, erc20, swapper, q.tokenOut, unwrapped, swapData.minAmountOut, fill, SwapFailed);
      if amountOut.Revert? {
        return Revert(amountOut.error);
      }
      var paid := Transfer(site.venue.tokens, q.tokenOut, self, q.sender, amountOut.value);
      if paid.Revert? {
        return Revert(paid.error);
      }
      site.venue := site.venue.(tokens := paid.value);
      return Ok(true);
    }

    method SetSwapper(sender: Address, newSwapper: Address) returns (r: Result<()>)
      modifies this
      ensures r == if sender == old(owner) then Ok(()) else Revert(NotOwner)
      ensures forall w :: Situation(Value(), w) == Happen(Situation(old(Value()), w), Event.SetSwapper(sender, newSwapper))
    {
      if sender != owner {
        return Revert(NotOwner);
      }
      swapper := newSwapper;
      return Ok(());
    }

    method SetAllowedParticipant(sender: Address, participant: Address, val: bool) returns (r: Result<()>)
      modifies this
      ensures r == if sender == old(owner) then Ok(()) else Revert(NotOwner)
      ensures forall w :: Situation(Value(), w)
                          == Happen(Situation(old(Value()), w), Event.SetAllowedParticipant(sender, participant, val))
    {
      if sender != owner {
        return Revert(NotOwner);
      }
      allowedParticipants := if val then allowedParticipants + {participant} else allowedParticipants - {participant};
      return Ok(());
    }
  }

  class SGlpMarketLiquidatorReceiver {
    const self: Address
    const glpManager: Address
    var owner: Address
    var swapper: Address
    var allowedParticipants: set<Address>

    function Value(): Receiver
      reads this
    {
      Receiver(self, owner, Glp(glpManager), swapper, allowedParticipants)
    }

    constructor (self: Address, glpManager: Address, swapper: Address, owner: Address)
      ensures Value() == Receiver(self, owner, Glp(glpManager), swapper, {})
    {
      this.self, this.glpManager, this.swapper, this.owner := self, glpManager, swapper, owner;
      allowedParticipants := {};
    }

    method OnCollateralReceiver(site: Site, q: Request, u: Unwrapping, redeem: Fill, fill: Fill)
      returns (r: Result<bool>)
      modifies site
      ensures var expected := LiquidateGlp(Value(), old(site.venue), q, u, redeem, fill);
              && (if expected.Ok? then r == Ok(true) else r == Revert(expected.error))
              && site.venue == if expected.Ok? then expected.value else old(site.venue)
    {
      var before := site.venue;
      r := Liquidate(site, q, u, redeem, fill);
      if r.Revert? {
        site.venue := before;
      }
    }

    /** Sells GLP for a token, with its own floor. */
    method SellGlp(site: Site, token: Address, minTokenAmountOut: nat, sGLP: Address, glpAmount: nat, redeem: Fill)
      returns (r: Result<nat>)
      modifies site
      ensures var expected := Stage(old(site.venue.tokens), self, sGLP, glpManager, token, glpAmount, minTokenAmountOut,
                                    redeem, SellGlpFailed);
              && (if expected.Ok? then r == Ok(redeem.reported) else r == Revert(expected.error))
              && (expected.Ok? ==> site.venue == old(site.venue).(tokens := expected.value))
    {
      r := site.Swap(self, sGLP, glpManager, token, glpAmount, minTokenAmountOut, redeem, SellGlpFailed);
    }

    /** The caller, the whitelist, the balance and the calldata, in this order. */
    method Check(site: Site, q: Request) returns (r: Result<()>)
      ensures r == Admit(Value(), site.venue, q)
    {
      if q.initiator !in allowedParticipants {
        return Revert(NotAuthorized);
      }
      if q.sender !in site.venue.whitelisted {
        return Revert(WhitelistError);
      }
      if self !in site.venue.whitelisted {
        return Revert(WhitelistError);
      }
      if q.tokenIn !in site.venue.tokens {
        return Revert(CallFailed);
      }
      var collateralBalance := Balance(site.venue.tokens, q.tokenIn, self);
      if collateralBalance < q.collateralAmount {
        return Revert(NotEnough);
      }
      if !q.order.GlpOrder? {
        return Revert(BadData);
      }
      return Ok(());
    }

    method Liquidate(site: Site, q: Request, u: Unwrapping, redeem: Fill, fill: Fill) returns (r: Result<bool>)
      modifies site
      ensures var expected := LiquidateGlp(Value(), old(site.venue), q, u, redeem, fill);
              && (if expected.Ok? then r == Ok(true) else r == Revert(expected.error))
              && (expected.Ok? ==> site.venue == expected.value)
    {
      var checked := Check(site, q);
      if checked.Revert? {
        return Revert(checked.error);
      }
      var swapData, token := q.order.swap, q.order.token;

      // unwrap the TOFT
      var done := Unwrap(site.venue, self, q.tokenIn, q.collateralAmount, u);
      if done.Revert? {
        return Revert(done.error);
      }
      site.venue := done.value;
      var sGLP := site.venue.underlying[q.tokenIn];

      var tokenAmount := SellGlp(site, token, q.order.minTokenOut, sGLP, u.amount, redeem);
      if tokenAmount.Revert? {
        return Revert(tokenAmount.error);
      }
      if swapData.sellToken != token {
        return Revert(NotAuthorized);
      }
      if swapData.buyToken != q.tokenOut {
        return Revert(NotAuthorized);
      }
      var amountOut := site.Swap(self, token, swapper, q.tokenOut, tokenAmount.value, swapData.minAmountOut, fill, SwapFailed);
      if amountOut.Revert? {
        return Revert(amountOut.error);
      }
      var paid := Transfer(site.venue.tokens, q.tokenOut, self, q.sender, amountOut.value);
      if paid.Revert? {
        return Revert(paid.error);
      }
      site.venue := site.venue.(tokens := paid.value);
      return Ok(true);
    }

    method SetSwapper(sender: Address, newSwapper: Address) returns (r: Result<()>)
      modifies this
      ensures r == if sender == old(owner) then Ok(()) else Revert(NotOwner)
      ensures forall w :: Situation(Value(), w) == Happen(Situation(old(Value()), w), Event.SetSwapper(sender, newSwapper))
    {
      if sender != owner {
        return Revert(NotOwner);
      }
      swapper := newSwapper;
      return Ok(());
    }

    method SetAllowedParticipant(sender: Address, participant: Address, val: bool) returns (r: Result<()>)
      modifies this
      ensures r == if sender == old(owner) then Ok(()) else Revert(NotOwner)
      ensures forall w :: Situation(Value(), w)
                          == Happen(Situation(old(Value()), w), Event.SetAllowedParticipant(sender, participant, val))
    {
      if sender != owner {
        return Revert(NotOwner);
      }
      allowedParticipants := if val then allowedParticipants + {participant} else allowedParticipants - {participant};
      return Ok(());
    }
  }
}
