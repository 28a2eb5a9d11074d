/** What a liquidator receiver does with seized collateral, on values: unwrap it, swap it in
    one or two stages, pay the market. */
module Liquidation {
  import opened Evm
  import opened Tokens

  /** The contracts around a receiver: tokens, ether, the token each TOFT wraps (0 for the
      native coin), and the whitelist of the cluster. */
  datatype Venue = Venue(
    tokens: Ledger,
    ether: Words<Address>,
    underlying: map<Address, Address>,
    whitelisted: set<Address>)

  /** What an unwrap answers. */
  datatype Unwrapping = Unwrapping(succeeds: bool, amount: nat)

  /** What an exchange does when it is called: it takes `spent` of the token sold, delivers
      `delivered` of the token bought from its own source, and reports an amount. Neither
      number need match the order. */
  datatype Fill = Fill(succeeds: bool, spent: nat, source: Address, delivered: nat, reported: nat)

  /** An order for the 0x swapper. */
  datatype SwapData = SwapData(minAmountOut: nat, sellToken: Address, buyToken: Address)

  /** The decoded calldata: an order, and for sGLP first a redemption into `token`. */
  datatype Order =
    | PlainOrder(swap: SwapData)
    | GlpOrder(swap: SwapData, token: Address, minTokenOut: nat)
    | Undecodable

  datatype Request = Request(
    sender: Address, initiator: Address,
    tokenIn: Address, tokenOut: Address, collateralAmount: nat, order: Order)

  /** The two receivers: one sells the collateral itself, the other redeems sGLP first. */
  datatype Kind = Plain(weth: Address) | Glp(glpManager: Address)

  datatype Receiver = Receiver(
    self: Address, owner: Address, kind: Kind, swapper: Address, allowedParticipants: set<Address>)

  /** The errors that only the receiver's own checks raise. */
  predicate RaisedByChecks(e: Error) {
    e == NotAuthorized || e == WhitelistError || e == NotEnough || e == BadData
  }

  /** OpenZeppelin's `safeApprove`: it refuses to change one nonzero allowance to another. */
  function GuardedApprove(g: Ledger, token: Address, owner: Address, spender: Address, v: nat): (r: Result<Ledger>)
    ensures r.Revert? ==> !RaisedByChecks(r.error)
    ensures r.Ok? ==> token in g && r.value == SetAllowance(g, token, owner, spender, v)
    ensures r == Revert(ApproveFromNonZero) <==> v != 0 && Allowance(g, token, owner, spender) != 0
  {
    if token !in g then Revert(NoContract)
    else if v != 0 && Allowance(g, token, owner, spender) != 0 then Revert(ApproveFromNonZero)
    else
      var call := CallApprove(g, token, owner, spender, v);
      if Accepted(call) then Ok(call.ledger) else Revert(ApproveFailed)
  }

  /** The exchange's own moves. */
  function Exchange(g: Ledger, self: Address, sell: Address, spender: Address, buy: Address, fill: Fill)
    : Result<Ledger>
  {
    if !fill.succeeds then Revert(CallFailed)
    else
      var sold :- TransferFrom(g, sell, spender, self, spender, fill.spent);
      Transfer(sold, buy, fill.source, self, fill.delivered)
  }

  /** One swap: approve, exchange, take the approval back, check the reported amount. */
  function Stage(g: Ledger, self: Address, sell: Address, spender: Address, buy: Address,
                 amount: nat, minOut: nat, fill: Fill, tooLittle: Error): Result<Ledger>
  {
    var approved :- GuardedApprove(g, sell, self, spender, amount);
    var exchanged :- Exchange(approved, self, sell, spender, buy, fill);
    var cleared :- GuardedApprove(exchanged, sell, self, spender, 0);
    if fill.reported < minOut then Revert(tooLittle) else Ok(cleared)
  }

  /** The last part of both receivers: swap for the market's token and pay the market. */
  function PayOut(g: Ledger, self: Address, sell: Address, spender: Address, buy: Address,
                  amount: nat, minOut: nat, fill: Fill, market: Address): Result<Ledger>
  {
    var swapped :- Stage(g, self, sell, spender, buy, amount, minOut, fill, SwapFailed);
    Transfer(swapped, buy, self, market, fill.reported)
  }

  /** TOFT's `unwrap`: destroys the wrapped tokens and pays the underlying out of the TOFT's
      own holdings. */
  function Unwrap(w: Venue, self: Address, toft: Address, amount: nat, u: Unwrapping): Result<Venue> {
    if !u.succeeds || toft !in w.underlying || toft !in w.tokens
       || Balance(w.tokens, toft, self) < amount || Supply(w.tokens, toft) < amount then Revert(CallFailed)
    else
      var burned := Burn(w.tokens, toft, self, amount);
      if w.underlying[toft] == ZERO_ADDRESS then
        if Load(w.ether, toft) < u.amount then Revert(CallFailed)
        else
          var taken := Store(w.ether, toft, Load(w.ether, toft) - u.amount);
          Ok(w.(tokens := burned, ether := Store(taken, self, Load(taken, self) + u.amount)))
      else
        var paid :- Transfer(burned, w.underlying[toft], toft, self, u.amount);
        Ok(w.(tokens := paid))
  }

  /** WETH's `deposit`. */
  function DepositEther(w: Venue, self: Address, weth: Address, amount: nat): Result<Venue> {
    if weth !in w.tokens || Load(w.ether, self) < amount then Revert(CallFailed)
    else
      var taken := Store(w.ether, self, Load(w.ether, self) - amount);
      Ok(w.(ether := Store(taken, weth, Load(taken, weth) + amount), tokens := Issue(w.tokens, weth, self, amount)))
  }

  /** The checks before anything moves. */
  function Admit(rc: Receiver, w: Venue, q: Request): Result<()> {
    if q.initiator !in rc.allowedParticipants then Revert(NotAuthorized)
    else if q.sender !in w.whitelisted || rc.self !in w.whitelisted then Revert(WhitelistError)
    else if q.tokenIn !in w.tokens then Revert(CallFailed)
    else if Balance(w.tokens, q.tokenIn, rc.self) < q.collateralAmount then Revert(NotEnough)
    else if (if rc.kind.Plain? then !q.order.PlainOrder? else !q.order.GlpOrder?) then Revert(BadData)
    else Ok(())
  }

  /** The unwrapped collateral as an ERC-20 token: native coin becomes WETH. */
  function Wrapped(w: Venue, self: Address, weth: Address, toft: Address, amount: nat): Result<(Venue, Address)> {
    if toft !in w.underlying then Revert(CallFailed)
    else if w.underlying[toft] != ZERO_ADDRESS then Ok((w, w.underlying[toft]))
    else
      var v :- DepositEther(w, self, weth, amount);
      Ok((v, weth))
  }

  /** The collateral, admitted, unwrapped, and as an ERC-20 token. */
  function Collect(rc: Receiver, w: Venue, q: Request, u: Unwrapping): Result<(Venue, Address)>
    requires rc.kind.Plain?
  {
    var _ :- Admit(rc, w, q);
    var unwrapped :- Unwrap(w, rc.self, q.tokenIn, q.collateralAmount, u);
    Wrapped(unwrapped, rc.self, rc.kind.weth, q.tokenIn, u.amount)
  }

  function LiquidatePlain(rc: Receiver, w: Venue, q: Request, u: Unwrapping, fill: Fill): Result<Venue>
    requires rc.kind.Plain?
  {
    var collected :- Collect(rc, w, q, u);
    var (ready, erc20) := collected;
    var swap := q.order.swap;
    if swap.sellToken != erc20 || swap.buyToken != q.tokenOut then Revert(NotAuthorized)
    else
      var paid :- PayOut(ready.tokens, rc.self, erc20, rc.swapper, q.tokenOut, u.amount, swap.minAmountOut, fill,
                         q.sender);
      Ok(ready.(tokens := paid))
  }

  /** The collateral, admitted, unwrapped, and redeemed for the order's token. */
  function Redeem(rc: Receiver, w: Venue, q: Request, u: Unwrapping, redeem: Fill): Result<Venue>
    requires rc.kind.Glp?
  {
    var _ :- Admit(rc, w, q);
    var unwrapped :- Unwrap(w, rc.self, q.tokenIn, q.collateralAmount, u);
    var redeemed :- Stage(unwrapped.tokens, rc.self, w.underlying[q.tokenIn], rc.kind.glpManager, q.order.token,
                          u.amount, q.order.minTokenOut, redeem, SellGlpFailed);
    Ok(unwrapped.(tokens := redeemed))
  }

  function LiquidateGlp(rc: Receiver, w: Venue, q: Request, u: Unwrapping, redeem: Fill, fill: Fill): Result<Venue>
    requires rc.kind.Glp?
  {
    var redeemed :- Redeem(rc, w, q, u, redeem);
    var token, swap := q.order.token, q.order.swap;
    if swap.sellToken != token || swap.buyToken != q.tokenOut then Revert(NotAuthorized)
    else
      var paid :- PayOut(redeemed.tokens, rc.self, token, rc.swapper, q.tokenOut, redeem.reported, swap.minAmountOut,
                         fill, q.sender);
      Ok(redeemed.(tokens := paid))
  }

  function Liquidate(rc: Receiver, w: Venue, q: Request, u: Unwrapping, redeem: Fill, fill: Fill): Result<Venue> {
    if rc.kind.Plain? then LiquidatePlain(rc, w, q, u, fill) else LiquidateGlp(rc, w, q, u, redeem, fill)
  }

  /** A receiver grants nothing to anyone. */
  ghost predicate NoGrants(g: Ledger, self: Address) {
    forall token, spender :: Allowance(g, token, self, spender) == 0
  }

  /** Where tokens come from or go to: an account, or nowhere when they are created or
      destroyed. */
  datatype Place = At(who: Address) | Nowhere

  datatype Movement = Movement(token: Address, source: Place, target: Place, v: nat)

  function Effect(m: Movement, t: Address, a: Address): int {
    if m.token != t then 0
    else (if m.target == At(a) then m.v as int else 0) - (if m.source == At(a) then m.v as int else 0)
  }

  /** What a series of movements does to one balance. */
  function Net(ms: seq<Movement>, t: Address, a: Address): int {
    if ms == [] then 0 else Net(ms[..|ms| - 1], t, a) + Effect(ms[|ms| - 1], t, a)
  }

  /** The balances changed by exactly these movements, the allowances not at all. */
  ghost predicate Changed(g: Ledger, h: Ledger, ms: seq<Movement>) {
    && SameAllowances(g, h)
    && forall t, a :: Balance(h, t, a) == Balance(g, t, a) + Net(ms, t, a)
  }

  lemma {:induction false} NetConcat(ms: seq<Movement>, ns: seq<Movement>, t: Address, a: Address)
    ensures Net(ms + ns, t, a) == Net(ms, t, a) + Net(ns, t, a)
  {
    if ns == [] {
      assert ms + ns == ms;
    } else {
      assert (ms + ns)[..|ms + ns| - 1] == ms + ns[..|ns| - 1];
      NetConcat(ms, ns[..|ns| - 1], t, a);
    }
  }

  lemma ChangedTwice(g: Ledger, h: Ledger, k: Ledger, ms: seq<Movement>, ns: seq<Movement>)
    requires Changed(g, h, ms) && Changed(h, k, ns)
    ensures Changed(g, k, ms + ns)
  {
    forall t, a ensures Balance(k, t, a) == Balance(g, t, a) + Net(ms + ns, t, a) {
      NetConcat(ms, ns, t, a);
      assert Balance(h, t, a) == Balance(g, t, a) + Net(ms, t, a);
    }
  }

  lemma NetOne(m: Movement, t: Address, a: Address)
    ensures Net([m], t, a) == Effect(m, t, a)
  {
    assert [m][..0] == [];
  }

  lemma MoveChanges(g: Ledger, token: Address, from: Address, to: Address, v: nat)
    requires token in g && v <= Balance(g, token, from)
    ensures Changed(g, Move(g, token, from, to, v), [Movement(token, At(from), At(to), v)])
  {
    MoveReads(g, token, from, to, v);
    forall t, a { NetOne(Movement(token, At(from), At(to), v), t, a); }
  }

  lemma IssueChanges(g: Ledger, token: Address, to: Address, v: nat)
    requires token in g
    ensures Changed(g, Issue(g, token, to, v), [Movement(token, Nowhere, At(to), v)])
  {
    IssueReads(g, token, to, v);
    forall t, a { NetOne(Movement(token, Nowhere, At(to), v), t, a); }
  }

  lemma BurnChanges(g: Ledger, token: Address, from: Address, v: nat)
    requires token in g && v <= Balance(g, token, from) && v <= Supply(g, token)
    ensures Changed(g, Burn(g, token, from, v), [Movement(token, At(from), Nowhere, v)])
  {
    BurnReads(g, token, from, v);
    forall t, a { NetOne(Movement(token, At(from), Nowhere, v), t, a); }
  }

  /** A swap without an open allowance never meets the nonzero-allowance guard. */
  lemma StageMeetsNoGuard(g: Ledger, self: Address, sell: Address, spender: Address, buy: Address,
                          amount: nat, minOut: nat, fill: Fill, tooLittle: Error)
    requires Allowance(g, sell, self, spender) == 0 && tooLittle != ApproveFromNonZero
    ensures Stage(g, self, sell, spender, buy, amount, minOut, fill, tooLittle) != Revert(ApproveFromNonZero)
  {
  }

  lemma SoldNetEffect(g: Ledger, sell: Address, self: Address, spender: Address, amount: nat, v: nat)
    requires sell in g
    requires TransferFrom(SetAllowance(g, sell, self, spender, amount), sell, spender, self, spender, v).Ok?
    ensures v <= amount && v <= Balance(g, sell, self)
    ensures exists left: nat ::
              TransferFrom(SetAllowance(g, sell, self, spender, amount), sell, spender, self, spender, v).value
              == SetAllowance(Move(g, sell, self, spender, v), sell, self, spender, left)
  {
    var approved := SetAllowance(g, sell, self, spender, amount);
    assert Allowance(approved, sell, self, spender) == amount;
    var left := Spent(approved, sell, self, spender, v);
    MoveAfterSetAllowance(g, sell, self, spender, v, sell, self, spender, amount);
    SetAllowanceTwice(Move(g, sell, self, spender, v), sell, self, spender, amount, left);
    assert TransferFrom(approved, sell, spender, self, spender, v).value
           == SetAllowance(Move(g, sell, self, spender, v), sell, self, spender, left);
  }

  /** The net effect of a swap is the exchange's two legs: no allowance is left behind. */
  lemma StageNetEffect(g: Ledger, self: Address, sell: Address, spender: Address, buy: Address,
                       amount: nat, minOut: nat, fill: Fill, tooLittle: Error)
    requires Allowance(g, sell, self, spender) == 0
    ensures var r := Stage(g, self, sell, spender, buy, amount, minOut, fill, tooLittle);
            r.Ok? ==>
              && fill.spent <= amount && minOut <= fill.reported
              && sell in g && fill.spent <= Balance(g, sell, self)
              && var sold := Move(g, sell, self, spender, fill.spent);
                 && buy in sold && fill.delivered <= Balance(sold, buy, fill.source)
                 && r.value == Move(sold, buy, fill.source, self, fill.delivered)
  {
    if Stage(g, self, sell, spender, buy, amount, minOut, fill, tooLittle).Ok? {
      SoldNetEffect(g, sell, self, spender, amount, fill.spent);
      var sold := Move(g, sell, self, spender, fill.spent);
      var left: nat :| TransferFrom(SetAllowance(g, sell, self, spender, amount), sell, spender, self, spender, fill.spent)
                       .value == SetAllowance(sold, sell, self, spender, left);
      assert Allowance(sold, sell, self, spender) == 0;
      ClearAfterTransfer(sold, sell, self, spender, left, buy, fill.source, fill.delivered);
    }
  }

  lemma ClearAfterTransfer(sold: Ledger, sell: Address, self: Address, spender: Address, left: nat,
                           buy: Address, source: Address, delivered: nat)
    requires sell in sold && Allowance(sold, sell, self, spender) == 0
    requires var open := SetAllowance(sold, sell, self, spender, left);
             buy in open && delivered <= Balance(open, buy, source)
    ensures buy in sold && delivered <= Balance(sold, buy, source)
    ensures var bought := Move(SetAllowance(sold, sell, self, spender, left), buy, source, self, delivered);
            SetAllowance(bought, sell, self, spender, 0) == Move(sold, buy, source, self, delivered)
  {
    var plain := Move(sold, buy, source, self, delivered);
    var bought := Move(SetAllowance(sold, sell, self, spender, left), buy, source, self, delivered);
    MoveAfterSetAllowance(sold, buy, source, self, delivered, sell, self, spender, left);
    SetAllowanceTwice(plain, sell, self, spender, left, 0);
    assert Allowance(plain, sell, self, spender) == 0;
  }

  /** The wrapped collateral is destroyed, and the token it wraps arrives. */
  function UnwrapMovements(w: Venue, self: Address, q: Request, u: nat): seq<Movement> {
    [Movement(q.tokenIn, At(self), Nowhere, q.collateralAmount)] +
    if q.tokenIn in w.underlying && w.underlying[q.tokenIn] != ZERO_ADDRESS then
      [Movement(w.underlying[q.tokenIn], At(q.tokenIn), At(self), u)]
    else []
  }

  /** The native coin arrives as WETH. */
  function WrapMovements(w: Venue, self: Address, weth: Address, q: Request, u: nat): seq<Movement> {
    if q.tokenIn in w.underlying && w.underlying[q.tokenIn] == ZERO_ADDRESS then
      [Movement(weth, Nowhere, At(self), u)]
    else []
  }

  function Swapping(self: Address, sell: Address, spender: Address, buy: Address, fill: Fill): seq<Movement> {
    [Movement(sell, At(self), At(spender), fill.spent), Movement(buy, At(fill.source), At(self), fill.delivered)]
  }

  lemma UnwrapChanges(w: Venue, self: Address, q: Request, u: Unwrapping)
    requires Unwrap(w, self, q.tokenIn, q.collateralAmount, u).Ok?
    ensures var v := Unwrap(w, self, q.tokenIn, q.collateralAmount, u).value;
            && q.tokenIn in w.underlying && v.underlying == w.underlying
            && Changed(w.tokens, v.tokens, UnwrapMovements(w, self, q, u.amount))
  {
    BurnChanges(w.tokens, q.tokenIn, self, q.collateralAmount);
    var burned := Burn(w.tokens, q.tokenIn, self, q.collateralAmount);
    var first := [Movement(q.tokenIn, At(self), Nowhere, q.collateralAmount)];
    if w.underlying[q.tokenIn] != ZERO_ADDRESS {
      var erc20 := w.underlying[q.tokenIn];
      MoveChanges(burned, erc20, q.tokenIn, self, u.amount);
      ChangedTwice(w.tokens, burned, Move(burned, erc20, q.tokenIn, self, u.amount),
                   first, [Movement(erc20, At(q.tokenIn), At(self), u.amount)]);
    } else {
      assert first + [] == first;
    }
  }

  lemma WrappedChanges(w: Venue, self: Address, weth: Address, q: Request, u: Unwrapping)
    requires Unwrap(w, self, q.tokenIn, q.collateralAmount, u).Ok?
    requires Wrapped(Unwrap(w, self, q.tokenIn, q.collateralAmount, u).value, self, weth, q.tokenIn, u.amount).Ok?
    ensures var ready := Wrapped(Unwrap(w, self, q.tokenIn, q.collateralAmount, u).value, self, weth, q.tokenIn,
                                 u.amount).value.0;
            Changed(w.tokens, ready.tokens, UnwrapMovements(w, self, q, u.amount) + WrapMovements(w, self, weth, q, u.amount))
  {
    UnwrapChanges(w, self, q, u);
    var v, first := Unwrap(w, self, q.tokenIn, q.collateralAmount, u).value, UnwrapMovements(w, self, q, u.amount);
    if w.underlying[q.tokenIn] == ZERO_ADDRESS {
      IssueChanges(v.tokens, weth, self, u.amount);
      ChangedTwice(w.tokens, v.tokens, Issue(v.tokens, weth, self, u.amount),
                   first, [Movement(weth, Nowhere, At(self), u.amount)]);
    } else {
      assert first + [] == first;
    }
  }

  lemma StageChanges(g: Ledger, self: Address, sell: Address, spender: Address, buy: Address,
                     amount: nat, minOut: nat, fill: Fill, tooLittle: Error)
    requires Allowance(g, sell, self, spender) == 0
    requires Stage(g, self, sell, spender, buy, amount, minOut, fill, tooLittle).Ok?
    ensures fill.spent <= amount && minOut <= fill.reported
    ensures Changed(g, Stage(g, self, sell, spender, buy, amount, minOut, fill, tooLittle).value,
                    Swapping(self, sell, spender, buy, fill))
  {
    StageNetEffect(g, self, sell, spender, buy, amount, minOut, fill, tooLittle);
    var sold := Move(g, sell, self, spender, fill.spent);
    MoveChanges(g, sell, self, spender, fill.spent);
    MoveChanges(sold, buy, fill.source, self, fill.delivered);
    var legs := Swapping(self, sell, spender, buy, fill);
    assert legs == [legs[0]] + [legs[1]];
    ChangedTwice(g, sold, Move(sold, buy, fill.source, self, fill.delivered), [legs[0]], [legs[1]]);
  }

  lemma PayOutChanges(w0: Ledger, g: Ledger, before: seq<Movement>, self: Address, sell: Address, spender: Address,
                      buy: Address, amount: nat, minOut: nat, fill: Fill, market: Address)
    requires Changed(w0, g, before) && Allowance(w0, sell, self, spender) == 0
    requires PayOut(g, self, sell, spender, buy, amount, minOut, fill, market).Ok?
    ensures fill.spent <= amount && minOut <= fill.reported
    ensures Changed(w0, PayOut(g, self, sell, spender, buy, amount, minOut, fill, market).value,
                    before + Swapping(self, sell, spender, buy, fill)
                    + [Movement(buy, At(self), At(market), fill.reported)])
  {
    StageChanges(g, self, sell, spender, buy, amount, minOut, fill, SwapFailed);
    var swapped := Stage(g, self, sell, spender, buy, amount, minOut, fill, SwapFailed).value;
    ChangedTwice(w0, g, swapped, before, Swapping(self, sell, spender, buy, fill));
    MoveChanges(swapped, buy, self, market, fill.reported);
    ChangedTwice(w0, swapped, Move(swapped, buy, self, market, fill.reported),
                 before + Swapping(self, sell, spender, buy, fill), [Movement(buy, At(self), At(market), fill.reported)]);
  }

  /** Everything a successful liquidation moves. */
  function PlainMovements(rc: Receiver, w: Venue, q: Request, u: Unwrapping, fill: Fill): seq<Movement>
    requires rc.kind.Plain? && !q.order.Undecodable?
  {
    UnwrapMovements(w, rc.self, q, u.amount) + WrapMovements(w, rc.self, rc.kind.weth, q, u.amount)
    + Swapping(rc.self, q.order.swap.sellToken, rc.swapper, q.tokenOut, fill)
    + [Movement(q.tokenOut, At(rc.self), At(q.sender), fill.reported)]
  }

  /** A successful liquidation pays the market exactly the reported amount, which is at least
      the order's minimum; the other balances change by the collateral's unwrapping and the
      swap and by nothing more; no more than the unwrapped amount is spent; no allowance is
      left. */
  lemma PlainLiquidationPays(rc: Receiver, w: Venue, q: Request, u: Unwrapping, fill: Fill)
    requires rc.kind.Plain? && NoGrants(w.tokens, rc.self)
    ensures var r := LiquidatePlain(rc, w, q, u, fill);
            r.Ok? ==>
              && q.order.PlainOrder? && q.order.swap.minAmountOut <= fill.reported && fill.spent <= u.amount
              && NoGrants(r.value.tokens, rc.self)
              && Changed(w.tokens, r.value.tokens, PlainMovements(rc, w, q, u, fill))
              && q.tokenIn in w.underlying
              && (if w.underlying[q.tokenIn] == ZERO_ADDRESS
                  then EtherMoved(w.ether, r.value.ether, q.tokenIn, rc.kind.weth, u.amount)
                  else r.value.ether == w.ether)
  {
    if LiquidatePlain(rc, w, q, u, fill).Ok? {
      CollectEther(rc, w, q, u);
      WrappedChanges(w, rc.self, rc.kind.weth, q, u);
      var ready := Collect(rc, w, q, u).value.0;
      var first := UnwrapMovements(w, rc.self, q, u.amount) + WrapMovements(w, rc.self, rc.kind.weth, q, u.amount);
      PayOutChanges(w.tokens, ready.tokens, first, rc.self, q.order.swap.sellToken, rc.swapper, q.tokenOut, u.amount,
                    q.order.swap.minAmountOut, fill, q.sender);
    }
  }

  /** v of the native coin moved, and no other did. */
  ghost predicate EtherMoved(before: Words<Address>, after: Words<Address>, from: Address, to: Address, v: nat) {
    forall a :: Load(after, a) == Load(before, a) - (if a == from then v else 0) + (if a == to then v else 0)
  }

  /** On the native branch the coin passes through the receiver on its way to WETH. */
  lemma CollectEther(rc: Receiver, w: Venue, q: Request, u: Unwrapping)
    requires rc.kind.Plain? && Collect(rc, w, q, u).Ok?
    ensures q.tokenIn in w.underlying
    ensures var ready := Collect(rc, w, q, u).value.0;
            if w.underlying[q.tokenIn] == ZERO_ADDRESS
            then EtherMoved(w.ether, ready.ether, q.tokenIn, rc.kind.weth, u.amount)
            else ready.ether == w.ether
  {
  }

  function GlpMovements(rc: Receiver, w: Venue, q: Request, u: Unwrapping, redeem: Fill, fill: Fill): seq<Movement>
    requires rc.kind.Glp? && q.order.GlpOrder? && q.tokenIn in w.underlying
  {
    UnwrapMovements(w, rc.self, q, u.amount)
    + Swapping(rc.self, w.underlying[q.tokenIn], rc.kind.glpManager, q.order.token, redeem)
    + Swapping(rc.self, q.order.token, rc.swapper, q.tokenOut, fill)
    + [Movement(q.tokenOut, At(rc.self), At(q.sender), fill.reported)]
  }

  lemma RedeemChanges(rc: Receiver, w: Venue, q: Request, u: Unwrapping, redeem: Fill)
    requires rc.kind.Glp? && NoGrants(w.tokens, rc.self) && Redeem(rc, w, q, u, redeem).Ok?
    ensures q.order.GlpOrder? && q.tokenIn in w.underlying
    ensures q.order.minTokenOut <= redeem.reported && redeem.spent <= u.amount
    ensures Changed(w.tokens, Redeem(rc, w, q, u, redeem).value.tokens,
                    UnwrapMovements(w, rc.self, q, u.amount)
                    + Swapping(rc.self, w.underlying[q.tokenIn], rc.kind.glpManager, q.order.token, redeem))
  {
    UnwrapChanges(w, rc.self, q, u);
    var g, sGLP := Unwrap(w, rc.self, q.tokenIn, q.collateralAmount, u).value.tokens, w.underlying[q.tokenIn];
    StageChanges(g, rc.self, sGLP, rc.kind.glpManager, q.order.token, u.amount, q.order.minTokenOut, redeem,
                 SellGlpFailed);
    ChangedTwice(w.tokens, g, Redeem(rc, w, q, u, redeem).value.tokens, UnwrapMovements(w, rc.self, q, u.amount),
                 Swapping(rc.self, sGLP, rc.kind.glpManager, q.order.token, redeem));
  }

  lemma RedeemEther(rc: Receiver, w: Venue, q: Request, u: Unwrapping, redeem: Fill)
    requires rc.kind.Glp? && Redeem(rc, w, q, u, redeem).Ok?
    ensures q.tokenIn in w.underlying
    ensures w.underlying[q.tokenIn] != ZERO_ADDRESS ==> Redeem(rc, w, q, u, redeem).value.ether == w.ether
  {
  }

  /** The same with both stages of sGLP: each respects its own minimum. */
  lemma GlpLiquidationPays(rc: Receiver, w: Venue, q: Request, u: Unwrapping, redeem: Fill, fill: Fill)
    requires rc.kind.Glp? && NoGrants(w.tokens, rc.self)
    ensures var r := LiquidateGlp(rc, w, q, u, redeem, fill);
            r.Ok? ==>
              && q.order.GlpOrder? && q.tokenIn in w.underlying
              && q.order.minTokenOut <= redeem.reported && redeem.spent <= u.amount
              && q.order.swap.minAmountOut <= fill.reported && fill.spent <= redeem.reported
              && NoGrants(r.value.tokens, rc.self)
              && Changed(w.tokens, r.value.tokens, GlpMovements(rc, w, q, u, redeem, fill))
              && (w.underlying[q.tokenIn] != ZERO_ADDRESS ==> r.value.ether == w.ether)
  {
    if LiquidateGlp(rc, w, q, u, redeem, fill).Ok? {
      RedeemEther(rc, w, q, u, redeem);
      RedeemChanges(rc, w, q, u, redeem);
      var first := UnwrapMovements(w, rc.self, q, u.amount)
                   + Swapping(rc.self, w.underlying[q.tokenIn], rc.kind.glpManager, q.order.token, redeem);
      PayOutChanges(w.tokens, Redeem(rc, w, q, u, redeem).value.tokens, first, rc.self, q.order.token, rc.swapper,
                    q.tokenOut, redeem.reported, q.order.swap.minAmountOut, fill, q.sender);
    }
  }

  /** The movements leave an account out. */
  ghost predicate Avoid(ms: seq<Movement>, a: Address) {
    forall m :: m in ms ==> m.source != At(a) && m.target != At(a)
  }

  lemma {:induction false} NetElsewhere(ms: seq<Movement>, t: Address, a: Address)
    requires Avoid(ms, a)
    ensures Net(ms, t, a) == 0
  {
    if ms != [] {
      assert ms[|ms| - 1] in ms;
      NetElsewhere(ms[..|ms| - 1], t, a);
    }
  }

  lemma LastMovementPays(g: Ledger, h: Ledger, before: seq<Movement>, token: Address, self: Address, market: Address,
                         amount: nat)
    requires Changed(g, h, before + [Movement(token, At(self), At(market), amount)])
    requires market != self && Avoid(before, market)
    ensures forall t :: Balance(h, t, market) == Balance(g, t, market) + if t == token then amount else 0
  {
    var last := Movement(token, At(self), At(market), amount);
    forall t ensures Balance(h, t, market) == Balance(g, t, market) + if t == token then amount else 0 {
      NetConcat(before, [last], t, market);
      NetOne(last, t, market);
      NetElsewhere(before, t, market);
    }
  }

  lemma PlainMovementsPay(rc: Receiver, w: Venue, h: Ledger, q: Request, u: Unwrapping, fill: Fill)
    requires rc.kind.Plain? && q.order.PlainOrder?
    requires q.sender !in {rc.self, rc.swapper, fill.source, q.tokenIn}
    requires Changed(w.tokens, h, PlainMovements(rc, w, q, u, fill))
    ensures forall t :: Balance(h, t, q.sender) ==
                          Balance(w.tokens, t, q.sender) + if t == q.tokenOut then fill.reported else 0
  {
    var first, second := UnwrapMovements(w, rc.self, q, u.amount), WrapMovements(w, rc.self, rc.kind.weth, q, u.amount);
    var third := Swapping(rc.self, q.order.swap.sellToken, rc.swapper, q.tokenOut, fill);
    assert Avoid(first, q.sender) && Avoid(second, q.sender) && Avoid(third, q.sender);
    LastMovementPays(w.tokens, h, first + second + third, q.tokenOut, rc.self, q.sender, fill.reported);
  }

  lemma GlpMovementsPay(rc: Receiver, w: Venue, h: Ledger, q: Request, u: Unwrapping, redeem: Fill, fill: Fill)
    requires rc.kind.Glp? && q.order.GlpOrder? && q.tokenIn in w.underlying
    requires q.sender !in {rc.self, rc.swapper, rc.kind.glpManager, redeem.source, fill.source, q.tokenIn}
    requires Changed(w.tokens, h, GlpMovements(rc, w, q, u, redeem, fill))
    ensures forall t :: Balance(h, t, q.sender) ==
                          Balance(w.tokens, t, q.sender) + if t == q.tokenOut then fill.reported else 0
  {
    var first := UnwrapMovements(w, rc.self, q, u.amount);
    var second := Swapping(rc.self, w.underlying[q.tokenIn], rc.kind.glpManager, q.order.token, redeem);
    var third := Swapping(rc.self, q.order.token, rc.swapper, q.tokenOut, fill);
    assert Avoid(first, q.sender) && Avoid(second, q.sender) && Avoid(third, q.sender);
    LastMovementPays(w.tokens, h, first + second + third, q.tokenOut, rc.self, q.sender, fill.reported);
  }

  /** A market that is none of the other parties gains exactly the reported amount of its
      token, and nothing of any other token. */
  lemma PlainMarketGains(rc: Receiver, w: Venue, q: Request, u: Unwrapping, fill: Fill)
    requires rc.kind.Plain? && NoGrants(w.tokens, rc.self)
    requires q.sender !in {rc.self, rc.swapper, fill.source, q.tokenIn}
    ensures var r := LiquidatePlain(rc, w, q, u, fill);
            r.Ok? ==> forall t :: Balance(r.value.tokens, t, q.sender) ==
                                    Balance(w.tokens, t, q.sender) + if t == q.tokenOut then fill.reported else 0
  {
    PlainLiquidationPays(rc, w, q, u, fill);
    var r := LiquidatePlain(rc, w, q, u, fill);
    if r.Ok? {
      PlainMovementsPay(rc, w, r.value.tokens, q, u, fill);
    }
  }

  lemma GlpMarketGains(rc: Receiver, w: Venue, q: Request, u: Unwrapping, redeem: Fill, fill: Fill)
    requires rc.kind.Glp? && NoGrants(w.tokens, rc.self)
    requires q.sender !in {rc.self, rc.swapper, rc.kind.glpManager, redeem.source, fill.source, q.tokenIn}
    ensures var r := LiquidateGlp(rc, w, q, u, redeem, fill);
            r.Ok? ==> forall t :: Balance(r.value.tokens, t, q.sender) ==
                                    Balance(w.tokens, t, q.sender) + if t == q.tokenOut then fill.reported else 0
  {
    GlpLiquidationPays(rc, w, q, u, redeem, fill);
    var r := LiquidateGlp(rc, w, q, u, redeem, fill);
    if r.Ok? {
      GlpMovementsPay(rc, w, r.value.tokens, q, u, redeem, fill);
    }
  }

  // ---------- Who may liquidate ----------

  lemma ExchangeRaises(g: Ledger, self: Address, sell: Address, spender: Address, buy: Address, fill: Fill)
    ensures var r := Exchange(g, self, sell, spender, buy, fill); r.Revert? ==> !RaisedByChecks(r.error)
  {
  }

  lemma StageRaises(g: Ledger, self: Address, sell: Address, spender: Address, buy: Address,
                    amount: nat, minOut: nat, fill: Fill, tooLittle: Error)
    requires !RaisedByChecks(tooLittle)
    ensures var r := Stage(g, self, sell, spender, buy, amount, minOut, fill, tooLittle);
            r.Revert? ==> !RaisedByChecks(r.error)
  {
    var approved := GuardedApprove(g, sell, self, spender, amount);
    if approved.Ok? {
      var exchanged := Exchange(approved.value, self, sell, spender, buy, fill);
      ExchangeRaises(approved.value, self, sell, spender, buy, fill);
      if exchanged.Ok? {
        var cleared := GuardedApprove(exchanged.value, sell, self, spender, 0);
        assert cleared.Revert? ==> !RaisedByChecks(cleared.error);
      }
    }
  }

  lemma PayOutRaises(g: Ledger, self: Address, sell: Address, spender: Address, buy: Address,
                     amount: nat, minOut: nat, fill: Fill, market: Address)
    ensures var r := PayOut(g, self, sell, spender, buy, amount, minOut, fill, market);
            r.Revert? ==> !RaisedByChecks(r.error)
  {
    StageRaises(g, self, sell, spender, buy, amount, minOut, fill, SwapFailed);
  }

  lemma CollectRaises(rc: Receiver, w: Venue, q: Request, u: Unwrapping)
    requires rc.kind.Plain? && Admit(rc, w, q).Ok?
    ensures var r := Collect(rc, w, q, u); r.Revert? ==> !RaisedByChecks(r.error)
  {
  }

  lemma RedeemRaises(rc: Receiver, w: Venue, q: Request, u: Unwrapping, redeem: Fill)
    requires rc.kind.Glp? && Admit(rc, w, q).Ok?
    ensures var r := Redeem(rc, w, q, u, redeem); r.Revert? ==> !RaisedByChecks(r.error)
  {
    var unwrapped := Unwrap(w, rc.self, q.tokenIn, q.collateralAmount, u);
    if unwrapped.Ok? {
      StageRaises(unwrapped.value.tokens, rc.self, w.underlying[q.tokenIn], rc.kind.glpManager, q.order.token, u.amount,
                  q.order.minTokenOut, redeem, SellGlpFailed);
    }
  }

  lemma AdmittedRaises(rc: Receiver, w: Venue, q: Request, u: Unwrapping, redeem: Fill, fill: Fill)
    requires Admit(rc, w, q).Ok?
    ensures var r := Liquidate(rc, w, q, u, redeem, fill);
            r.Revert? && r.error != NotAuthorized ==> !RaisedByChecks(r.error)
  {
    if rc.kind.Plain? {
      CollectRaises(rc, w, q, u);
      if Collect(rc, w, q, u).Ok? {
        var (ready, erc20) := Collect(rc, w, q, u).value;
        PayOutRaises(ready.tokens, rc.self, erc20, rc.swapper, q.tokenOut, u.amount, q.order.swap.minAmountOut, fill,
                     q.sender);
      }
    } else {
      RedeemRaises(rc, w, q, u, redeem);
      if Redeem(rc, w, q, u, redeem).Ok? {
        PayOutRaises(Redeem(rc, w, q, u, redeem).value.tokens, rc.self, q.order.token, rc.swapper, q.tokenOut,
                     redeem.reported, q.order.swap.minAmountOut, fill, q.sender);
      }
    }
  }

  /** A liquidation that goes through was started by an allowed participant, called by a
      whitelisted market on a whitelisted receiver that held the collateral, with an order of
      the receiver's kind. Each of the three errors of these checks means, over the whole
      liquidation, that exactly its own check failed and those before it did not. */
  lemma OnlyAdmittedLiquidate(rc: Receiver, w: Venue, q: Request, u: Unwrapping, redeem: Fill, fill: Fill)
    ensures var r := Liquidate(rc, w, q, u, redeem, fill);
            var allowed := q.initiator in rc.allowedParticipants;
            var listed := q.sender in w.whitelisted && rc.self in w.whitelisted;
            var funded := q.collateralAmount <= Balance(w.tokens, q.tokenIn, rc.self);
            var ordered := if rc.kind.Plain? then q.order.PlainOrder? else q.order.GlpOrder?;
            && (r.Ok? ==> allowed && listed && q.tokenIn in w.tokens && funded && ordered)
            && (!allowed ==> r == Revert(NotAuthorized))
            && (r == Revert(WhitelistError) <==> allowed && !listed)
            && (r == Revert(NotEnough) <==> allowed && listed && q.tokenIn in w.tokens && !funded)
            && (r == Revert(BadData) <==> allowed && listed && q.tokenIn in w.tokens && funded && !ordered)
  {
    var admitted := Admit(rc, w, q);
    if admitted.Ok? {
      AdmittedRaises(rc, w, q, u, redeem, fill);
    } else {
      RefusedAtOnce(rc, w, q, u, redeem, fill);
    }
  }

  lemma RefusedAtOnce(rc: Receiver, w: Venue, q: Request, u: Unwrapping, redeem: Fill, fill: Fill)
    requires Admit(rc, w, q).Revert?
    ensures Liquidate(rc, w, q, u, redeem, fill) == Revert(Admit(rc, w, q).error)
  {
  }

  // ---------- Whole runs ----------

  /** What can happen to a receiver. `Outside` is anything other contracts and users do. */
  datatype Event =
    | Liquidation(request: Request, u: Unwrapping, redeem: Fill, fill: Fill)
    | SetSwapper(sender: Address, swapper: Address)
    | SetAllowedParticipant(sender: Address, participant: Address, allowed: bool)
    | Outside(venue: Venue)

  datatype Situation = Situation(receiver: Receiver, venue: Venue)

  function Happen(s: Situation, e: Event): Situation {
    match e
    case Liquidation(q, u, redeem, fill) =>
      var r := Liquidate(s.receiver, s.venue, q, u, redeem, fill);
      if r.Ok? then s.(venue := r.value) else s
    case SetSwapper(sender, swapper) =>
      if sender == s.receiver.owner then s.(receiver := s.receiver.(swapper := swapper)) else s
    case SetAllowedParticipant(sender, p, allowed) =>
      if sender == s.receiver.owner then
        s.(receiver := s.receiver.(allowedParticipants :=
             if allowed then s.receiver.allowedParticipants + {p} else s.receiver.allowedParticipants - {p}))
      else s
    case Outside(venue) => s.(venue := venue)
  }

  function History(s: Situation, events: seq<Event>): Situation {
    if events == [] then s else Happen(History(s, events[..|events| - 1]), events[|events| - 1])
  }

  /** EIP-20: only the receiver itself can raise an allowance it grants. */
  ghost predicate NothingGrantedOutside(s: Situation, events: seq<Event>) {
    forall i :: 0 <= i < |events| && events[i].Outside? ==>
      var before := History(s, events[..i]);
      forall token, spender ::
        Allowance(events[i].venue.tokens, token, before.receiver.self, spender)
        <= Allowance(before.venue.tokens, token, before.receiver.self, spender)
  }

  /** In every reachable state, whatever swappers came and went and however much each of
      them spent, the receiver grants nothing, and so the guard on nonzero allowances cannot
      stop the next liquidation. */
  lemma {:induction false} HistoryLeavesNoGrants(s: Situation, events: seq<Event>)
    requires NoGrants(s.venue.tokens, s.receiver.self) && NothingGrantedOutside(s, events)
    ensures var now := History(s, events);
            && now.receiver.self == s.receiver.self
            && NoGrants(now.venue.tokens, now.receiver.self)
            && forall q, u, redeem, fill ::
                 Liquidate(now.receiver, now.venue, q, u, redeem, fill) != Revert(ApproveFromNonZero)
  {
    if events != [] {
      var n := |events| - 1;
      var init, last := events[..n], events[n];
      forall i | 0 <= i < n ensures init[..i] == events[..i] {}
      HistoryLeavesNoGrants(s, init);
      HappenLeavesNoGrants(History(s, init), last);
    }
    var now := History(s, events);
    forall q, u, redeem, fill
      ensures Liquidate(now.receiver, now.venue, q, u, redeem, fill) != Revert(ApproveFromNonZero)
    {
      NothingBlocks(now.receiver, now.venue, q, u, redeem, fill);
    }
  }

  lemma LiquidationLeavesNoGrants(rc: Receiver, w: Venue, q: Request, u: Unwrapping, redeem: Fill, fill: Fill)
    requires NoGrants(w.tokens, rc.self)
    ensures var r := Liquidate(rc, w, q, u, redeem, fill); r.Ok? ==> NoGrants(r.value.tokens, rc.self)
  {
    if rc.kind.Plain? {
      PlainLiquidationPays(rc, w, q, u, fill);
    } else {
      GlpLiquidationPays(rc, w, q, u, redeem, fill);
    }
  }

  lemma HappenLeavesNoGrants(s: Situation, e: Event)
    requires NoGrants(s.venue.tokens, s.receiver.self)
    requires e.Outside? ==> forall token, spender :: Allowance(e.venue.tokens, token, s.receiver.self, spender)
                                                     <= Allowance(s.venue.tokens, token, s.receiver.self, spender)
    ensures NoGrants(Happen(s, e).venue.tokens, s.receiver.self) && Happen(s, e).receiver.self == s.receiver.self
  {
    match e
    case Liquidation(q, u, redeem, fill) =>
      LiquidationLeavesNoGrants(s.receiver, s.venue, q, u, redeem, fill);
    case _ =>
  }

  lemma NothingBlocks(rc: Receiver, w: Venue, q: Request, u: Unwrapping, redeem: Fill, fill: Fill)
    requires NoGrants(w.tokens, rc.self)
    ensures Liquidate(rc, w, q, u, redeem, fill) != Revert(ApproveFromNonZero)
  {
    if rc.kind.Plain? {
      PlainMeetsNoGuard(rc, w, q, u, fill);
    } else {
      GlpMeetsNoGuard(rc, w, q, u, redeem, fill);
    }
  }

  lemma PlainMeetsNoGuard(rc: Receiver, w: Venue, q: Request, u: Unwrapping, fill: Fill)
    requires rc.kind.Plain? && NoGrants(w.tokens, rc.self)
    ensures LiquidatePlain(rc, w, q, u, fill) != Revert(ApproveFromNonZero)
  {
    if Collect(rc, w, q, u).Ok? {
      WrappedChanges(w, rc.self, rc.kind.weth, q, u);
      var (ready, erc20) := Collect(rc, w, q, u).value;
      StageMeetsNoGuard(ready.tokens, rc.self, erc20, rc.swapper, q.tokenOut, u.amount, q.order.swap.minAmountOut,
                        fill, SwapFailed);
    }
  }

  lemma RedeemMeetsNoGuard(rc: Receiver, w: Venue, q: Request, u: Unwrapping, redeem: Fill)
    requires rc.kind.Glp? && NoGrants(w.tokens, rc.self)
    ensures Redeem(rc, w, q, u, redeem) != Revert(ApproveFromNonZero)
  {
    if Admit(rc, w, q).Ok? && Unwrap(w, rc.self, q.tokenIn, q.collateralAmount, u).Ok? {
      UnwrapChanges(w, rc.self, q, u);
      var g := Unwrap(w, rc.self, q.tokenIn, q.collateralAmount, u).value.tokens;
      StageMeetsNoGuard(g, rc.self, w.underlying[q.tokenIn], rc.kind.glpManager, q.order.token, u.amount,
                        q.order.minTokenOut, redeem, SellGlpFailed);
    }
  }

  lemma GlpMeetsNoGuard(rc: Receiver, w: Venue, q: Request, u: Unwrapping, redeem: Fill, fill: Fill)
    requires rc.kind.Glp? && NoGrants(w.tokens, rc.self)
    ensures LiquidateGlp(rc, w, q, u, redeem, fill) != Revert(ApproveFromNonZero)
  {
    RedeemMeetsNoGuard(rc, w, q, u, redeem);
    if Redeem(rc, w, q, u, redeem).Ok? {
      RedeemChanges(rc, w, q, u, redeem);
      StageMeetsNoGuard(Redeem(rc, w, q, u, redeem).value.tokens, rc.self, q.order.token, rc.swapper, q.tokenOut,
                        redeem.reported, q.order.swap.minAmountOut, fill, SwapFailed);
    }
  }
}
