/** ERC-20 tokens as ledgers (EIP-20, "Methods"), with the deviations met in practice, and
    the rest of the chain that Penrose calls. */
module Tokens {
  import opened Evm

  /** What a call returned: no data, or one boolean. */
  datatype Reply = NoData | Answer(value: bool)

  /** How a token deviates: the reply of its methods (false means that it refuses),
      whether it rejects changing one nonzero allowance to another, whether it rejects a
      zero approval, and whether an allowance of the largest word is never used up. */
  datatype Policy = Policy(reply: Reply, zeroFirst: bool, rejectsZero: bool, endless: bool)

  datatype Token = Token(
    balances: Words<Address>,
    allowances: Words<(Address, Address)>,
    supply: nat,
    policy: Policy)

  /** The addresses that have token code, and their ledgers. */
  type Ledger = map<Address, Token>

  function Balance(g: Ledger, token: Address, who: Address): nat {
    if token in g then Load(g[token].balances, who) else 0
  }

  function Allowance(g: Ledger, token: Address, owner: Address, spender: Address): nat {
    if token in g then Load(g[token].allowances, (owner, spender)) else 0
  }

  function Supply(g: Ledger, token: Address): nat {
    if token in g then g[token].supply else 0
  }

  /** A method of the token took effect: it has code and does not answer false. */
  predicate Works(g: Ledger, token: Address) {
    token in g && g[token].policy.reply != Answer(false)
  }

  function SetAllowance(g: Ledger, token: Address, owner: Address, spender: Address, v: nat): (h: Ledger)
    requires token in g
    ensures v == Allowance(g, token, owner, spender) ==> h == g
  {
    g[token := Allow(g[token], owner, spender, v)]
  }

  function Allow(t: Token, owner: Address, spender: Address, v: nat): Token {
    t.(allowances := Store(t.allowances, (owner, spender), v))
  }

  /** Moves v of a token; the sender must have it. */
  function Move(g: Ledger, token: Address, from: Address, to: Address, v: nat): (h: Ledger)
    requires token in g && v <= Balance(g, token, from)
    ensures v == 0 ==> h == g
  {
    g[token := Shift(g[token], from, to, v)]
  }

  function Shift(t: Token, from: Address, to: Address, v: nat): Token
    requires v <= Load(t.balances, from)
  {
    var b := Store(t.balances, from, Load(t.balances, from) - v);
    t.(balances := Store(b, to, Load(b, to) + v))
  }

  /** Creates v of a token for an account. */
  function Issue(g: Ledger, token: Address, to: Address, v: nat): (h: Ledger)
    requires token in g
  {
    g[token := g[token].(balances := Store(g[token].balances, to, Load(g[token].balances, to) + v),
                         supply := g[token].supply + v)]
  }

  /** Destroys v of a token held by an account. */
  function Burn(g: Ledger, token: Address, from: Address, v: nat): (h: Ledger)
    requires token in g && v <= Balance(g, token, from) && v <= Supply(g, token)
  {
    g[token := g[token].(balances := Store(g[token].balances, from, Load(g[token].balances, from) - v),
                         supply := g[token].supply - v)]
  }

  /** Two ledgers of the same tokens, behaving the same way. */
  ghost predicate SameTokens(g: Ledger, h: Ledger) {
    g.Keys == h.Keys && forall t :: t in g ==> g[t].policy == h[t].policy
  }

  ghost predicate SameAllowances(g: Ledger, h: Ledger) {
    SameTokens(g, h) && forall t, o, s :: Allowance(g, t, o, s) == Allowance(h, t, o, s)
  }

  lemma MoveReads(g: Ledger, token: Address, from: Address, to: Address, v: nat)
    requires token in g && v <= Balance(g, token, from)
    ensures var h := Move(g, token, from, to, v);
            && SameAllowances(g, h)
            && (forall t, a :: Balance(h, t, a) == Balance(g, t, a)
                                                   - (if t == token && a == from then v else 0)
                                                   + (if t == token && a == to then v else 0))
            && (forall t :: Supply(h, t) == Supply(g, t))
  {
  }

  lemma IssueReads(g: Ledger, token: Address, to: Address, v: nat)
    requires token in g
    ensures var h := Issue(g, token, to, v);
            && SameAllowances(g, h)
            && (forall t, a :: Balance(h, t, a) == Balance(g, t, a) + if t == token && a == to then v else 0)
            && (forall t :: Supply(h, t) == Supply(g, t) + if t == token then v else 0)
  {
  }

  lemma BurnReads(g: Ledger, token: Address, from: Address, v: nat)
    requires token in g && v <= Balance(g, token, from) && v <= Supply(g, token)
    ensures var h := Burn(g, token, from, v);
            && SameAllowances(g, h)
            && (forall t, a :: Balance(h, t, a) == Balance(g, t, a) - if t == token && a == from then v else 0)
            && (forall t :: Supply(h, t) == Supply(g, t) - if t == token then v else 0)
  {
  }

  /** Writing one allowance twice. */
  lemma SetAllowanceTwice(g: Ledger, token: Address, owner: Address, spender: Address, v: nat, w: nat)
    requires token in g
    ensures SetAllowance(SetAllowance(g, token, owner, spender, v), token, owner, spender, w)
            == SetAllowance(g, token, owner, spender, w)
  {
    StoreTwice(g[token].allowances, (owner, spender), v, w);
  }

  /** Balances and allowances do not meet. */
  lemma MoveAfterSetAllowance(g: Ledger, token: Address, from: Address, to: Address, v: nat,
                              approved: Address, owner: Address, spender: Address, limit: nat)
    requires token in g && approved in g && v <= Balance(g, token, from)
    ensures v <= Balance(SetAllowance(g, approved, owner, spender, limit), token, from)
    ensures Move(SetAllowance(g, approved, owner, spender, limit), token, from, to, v)
            == SetAllowance(Move(g, token, from, to, v), approved, owner, spender, limit)
  {
    var limited := Allow(g[approved], owner, spender, limit);
    if token == approved {
      AllowShift(g[token], owner, spender, limit, from, to, v);
      assert g[token := limited][token := Shift(limited, from, to, v)]
             == g[token := Shift(g[token], from, to, v)][token := Shift(limited, from, to, v)];
    } else {
      MapUpdatesCommute(g, approved, limited, token, Shift(g[token], from, to, v));
    }
  }

  lemma AllowShift(t: Token, owner: Address, spender: Address, limit: nat, from: Address, to: Address, v: nat)
    requires v <= Load(t.balances, from)
    ensures Shift(Allow(t, owner, spender, limit), from, to, v) == Allow(Shift(t, from, to, v), owner, spender, limit)
  {
  }

  lemma MapUpdatesCommute<K, V>(m: map<K, V>, j: K, v: V, k: K, w: V)
    requires j != k
    ensures m[j := v][k := w] == m[k := w][j := v]
  {
  }

  /** `transfer`, a refusal being a revert. */
  function Transfer(g: Ledger, token: Address, from: Address, to: Address, v: nat): (r: Result<Ledger>)
    ensures r.Ok? <==> Works(g, token) && v <= Balance(g, token, from)
    ensures r.Ok? ==> r.value == Move(g, token, from, to, v)
  {
    if Works(g, token) && v <= Balance(g, token, from) then Ok(Move(g, token, from, to, v))
    else Revert(TransferFailed)
  }

  /** The allowance left after a spender used v of it. */
  function Spent(g: Ledger, token: Address, owner: Address, spender: Address, v: nat): (left: nat)
    requires v <= Allowance(g, token, owner, spender)
    ensures left <= Allowance(g, token, owner, spender)
    ensures left == 0 || left == Allowance(g, token, owner, spender) - v || left == MAX_WORD
  {
    var a := Allowance(g, token, owner, spender);
    if token in g && g[token].policy.endless && a == MAX_WORD then a else a - v
  }

  /** `transferFrom`, a refusal being a revert. */
  function TransferFrom(g: Ledger, token: Address, spender: Address, from: Address, to: Address, v: nat)
    : (r: Result<Ledger>)
    ensures r.Ok? <==> Works(g, token) && v <= Balance(g, token, from) && v <= Allowance(g, token, from, spender)
    ensures r.Ok? ==>
              r.value == SetAllowance(Move(g, token, from, to, v), token, from, spender,
                                      Spent(g, token, from, spender, v))
  {
    if !Works(g, token) || v > Balance(g, token, from) || v > Allowance(g, token, from, spender) then
      Revert(TransferFailed)
    else
      Ok(SetAllowance(Move(g, token, from, to, v), token, from, spender, Spent(g, token, from, spender, v)))
  }

  /** A low-level call of `approve`. An address without code accepts any call and does
      nothing, which is why callers look for code first. */
  datatype LowLevelCall = LowLevelCall(success: bool, reply: Reply, ledger: Ledger)

  function CallApprove(g: Ledger, token: Address, owner: Address, spender: Address, v: nat): LowLevelCall {
    if token !in g then LowLevelCall(true, NoData, g)
    else
      var p := g[token].policy;
      if (v == 0 && p.rejectsZero) || (p.zeroFirst && v != 0 && Allowance(g, token, owner, spender) != 0) then
        LowLevelCall(false, NoData, g)
      else if p.reply == Answer(false) then LowLevelCall(true, p.reply, g)
      else LowLevelCall(true, p.reply, SetAllowance(g, token, owner, spender, v))
  }

  /** The check made on every call of `approve`. */
  predicate Accepted(c: LowLevelCall) {
    c.success && (c.reply == NoData || c.reply.value)
  }

  type Bytes = seq<bv8>

  /** A staking contract that pays out rewards: the index it gives a token (0 for a token it
      does not know) and the token it holds at an index. Nothing says that the two match. */
  datatype TwTap = TwTap(accepting: bool, index: Words<Address>, rewards: map<nat, Address>)

  /** One YieldBox asset: its token, all its shares, what backs them, and who holds them. */
  datatype Vault = Vault(token: Address, supply: nat, backing: nat, shares: Words<Address>)

  /** The fees a market passes on when Penrose refreshes them: shares of a YieldBox asset
      that are on the market's account. */
  datatype MarketFees = MarketFees(asset: Address, assetId: nat, shares: nat)

  /** A call of `accrue`, with the main market at that moment. */
  datatype Accrual = Accrual(market: Address, mainMarket: Address)

  datatype Execution = Execution(target: Address, data: Bytes, success: bool, result: Bytes)

  /** The other contracts. A market that is missing from a map does not answer that call. */
  datatype World = World(
    tokens: Ledger,
    minters: set<(Address, Address)>,
    openInterest: map<Address, nat>,
    accruable: set<Address>,
    accrued: seq<Accrual>,
    code: set<Address>,
    executed: seq<Execution>,
    twTaps: map<Address, TwTap>,
    yieldBox: Address,
    vaults: map<nat, Vault>,
    fees: map<Address, MarketFees>)

  /** The chain around a contract. Its state is one value, so that a revert can put it back.
      Two things about other contracts are left open: the amount YieldBox pays for shares, as
      a function of the asset's shares and backing, and what a market answers to a call, as
      a function of the calls before it. */
  class Chain {
    var world: World
    const quote: (nat, nat, nat) -> nat
    const respond: (seq<Execution>, Address, Bytes) -> (bool, Bytes)

    constructor (world: World, quote: (nat, nat, nat) -> nat,
                 respond: (seq<Execution>, Address, Bytes) -> (bool, Bytes))
      ensures this.world == world && this.quote == quote && this.respond == respond
    {
      this.world := world;
      this.quote := quote;
      this.respond := respond;
    }
  }
}
