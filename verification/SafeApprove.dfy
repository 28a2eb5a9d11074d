/** Zero-first approval. */
module SafeApprove {
  import opened Evm
  import opened Tokens

  /** The tokens on which zero-first approval works: those with code that neither answer
      false nor reject a zero approval. */
  predicate Approvable(g: Ledger, token: Address) {
    Works(g, token) && !g[token].policy.rejectsZero
  }

  /** Why zero first: on a token where zero-first approval works, approving directly fails
      exactly when the token refuses to change one nonzero allowance to another and would
      have to. */
  lemma DirectApproval(g: Ledger, token: Address, owner: Address, spender: Address, value: nat)
    requires Approvable(g, token)
    ensures var call := CallApprove(g, token, owner, spender, value);
            && (Accepted(call) <==>
                  !(g[token].policy.zeroFirst && value != 0 && Allowance(g, token, owner, spender) != 0))
            && (Accepted(call) ==> call.ledger == SetAllowance(g, token, owner, spender, value))
  {
  }

  /** Approves exactly `value` and changes nothing else, whatever the allowance was before
      and whether or not the token refuses to change one nonzero allowance to another. It
      fails only on tokens that are not approvable. */
  method SafeApprove(chain: Chain, self: Address, token: Address, to: Address, value: nat)
    returns (r: Result<()>)
    modifies chain
    ensures var g := old(chain.world.tokens);
            r.Ok? <==> token in g && (g[token].policy.reply.NoData? || g[token].policy.reply.value)
                       && !g[token].policy.rejectsZero
    ensures r.Ok? ==>
              chain.world == old(chain.world).(tokens := SetAllowance(old(chain.world.tokens), token, self, to, value))
    ensures r.Revert? ==> r.error in {NoContract, ApproveFailed}
  {
    if token !in chain.world.tokens {
      return Revert(NoContract);
    }
    ghost var before := chain.world.tokens;
    var call := CallApprove(chain.world.tokens, token, self, to, 0);
    chain.world := chain.world.(tokens := call.ledger);
    if !Accepted(call) {
      return Revert(ApproveFailed);
    }
    if value > 0 {
      SetAllowanceTwice(before, token, self, to, 0, value);
      call := CallApprove(chain.world.tokens, token, self, to, value);
      chain.world := chain.world.(tokens := call.ledger);
      if !Accepted(call) {
        return Revert(ApproveFailed);
      }
    }
    return Ok(());
  }
}
