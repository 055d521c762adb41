/**
 Why the money side refuses a call: for every entry point, the message of its revert, in every state that a run
 reaches. The conditions stand in the order in which a call meets them. No other panic shows: whatever the
 invariants rule out, such as a supply that is too small for a withdrawal, is no reason here.
 */
module VaultRefusals {
  import opened Base
  import opened VaultProtocol
  import opened VaultLedger
  import opened VaultSafety
  import opened PoolWeights

  lemma DepositRefused(w: Wiring, s: System, u: Address, p: PoolId, amount: u256)
    ensures Why(Effect(w, s, BeginDeposit(u, p, amount))) ==
      if u == 0 then "INVALID_CALLER"
      else if amount == 0 then "INVALID_AMOUNT"
      else if TokenOf(s.chain.vault, p) == 0 then "INVALID_POOL"
      else ""
  {
  }

  lemma WithdrawalRefused(w: Wiring, s: System, u: Address, p: PoolId, amount: u256)
    requires Good(w, s)
    ensures Why(Effect(w, s, BeginWithdraw(u, p, amount))) ==
      if u == 0 then "INVALID_CALLER"
      else if amount > Share(s, u, p) then "INSUFFICIENT_BALANCE"
      else if TokenOf(s.chain.vault, p) == 0 then "INVALID_POOL"
      else ""
  {
    ShareIsCovered(w, s, u, p);
  }

  lemma PoolRefused(w: Wiring, s: System, caller: Address, pool: Pool)
    requires Good(w, s)
    ensures Why(Effect(w, s, RegistryAddPool(caller, pool))) ==
      if caller != w.registryGovernance then "UNAUTHORIZED"
      else if pool.token == 0 || pool.strategy == 0 then "INVALID_ADDRESSES"
      else ""
  {
  }

  lemma PoolUpdateRefused(w: Wiring, s: System, caller: Address, p: PoolId, active: bool, minDeposit: u256,
                          maxCapacity: u256)
    requires Good(w, s)
    ensures Why(Effect(w, s, RegistryUpdatePool(caller, p, active, minDeposit, maxCapacity))) ==
      if caller != w.registryGovernance then "UNAUTHORIZED"
      else if p >= s.chain.registry.poolCount then "INVALID_POOL"
      else ""
  {
    PoolUpdatedIff(w, s, caller, p, active, minDeposit, maxCapacity);
  }

  lemma {:induction false} TotalPanic(ws: seq<nat>)
    ensures Why(CheckedTotal(ws)) == if WeightSum(ws) > U256_MAX then "u256_add Overflow" else ""
  {
    CheckedTotalIsSum(ws);
    if ws != [] {
      CheckedTotalIsSum(ws[..|ws| - 1]);
      TotalPanic(ws[..|ws| - 1]);
    }
  }

  lemma RebalanceRefused(w: Wiring, s: System, caller: Address, ws: seq<nat>)
    requires Wired(w)
    ensures Why(Effect(w, s, EngineRebalance(caller, ws))) ==
      if caller != w.engineGovernance then "UNAUTHORIZED"
      else if WeightSum(ws) > U256_MAX then "u256_add Overflow"
      else if WeightSum(ws) != 100_000 then "INVALID_WEIGHTS"
      else ""
  {
    TotalPanic(ws);
    CheckedTotalIsSum(ws);
  }

  lemma SettingRefused(w: Wiring, s: System, caller: Address, a: PoolId, b: PoolId, x: u256)
    ensures Why(Effect(w, s, OracleVolatility(caller, a, x))) == Why(Effect(w, s, OracleYieldRate(caller, a, x)))
         == if caller != w.oracleGovernance then "UNAUTHORIZED" else ""
    ensures Why(Effect(w, s, OracleCorrelation(caller, a, b, x))) ==
      if caller != w.oracleGovernance then "UNAUTHORIZED"
      else if x > 100_000 then "INVALID_CORRELATION"
      else ""
  {
  }

  /** The entry points that the contracts keep for each other. */
  lemma InnerCallRefused(w: Wiring, c: Chain, caller: Address, p: PoolId, token: Address, amount: u256,
                         isDeposit: bool, ws: seq<nat>, now: nat)
    requires Wired(w)
    ensures Why(VaultAddPool(w, c.vault, caller, p, token)) ==
      if caller != w.registry then "UNAUTHORIZED" else if token == 0 then "INVALID_TOKEN" else ""
    ensures Why(ExecuteRebalance(w, c.registry, caller, ws)) == if caller != w.engine then "UNAUTHORIZED" else ""
    ensures Why(UpdatePoolMetrics(w, c.oracle, caller, p, amount, isDeposit, now)) ==
      if caller != w.engine then "UNAUTHORIZED"
      else if isDeposit && MetricsAt(c.oracle, p).tvl + amount > U256_MAX then "u256_add Overflow"
      else if !isDeposit && MetricsAt(c.oracle, p).tvl < amount then "u256_sub Overflow"
      else ""
    ensures Why(OnDeposit(w, c.oracle, caller, p, amount, now)) ==
      if caller != w.vault then "UNAUTHORIZED"
      else if MetricsAt(c.oracle, p).tvl + amount > U256_MAX then "u256_add Overflow"
      else ""
    ensures Why(OnWithdrawal(w, c.oracle, caller, p, amount, now)) ==
      if caller != w.vault then "UNAUTHORIZED"
      else if MetricsAt(c.oracle, p).tvl < amount then "u256_sub Overflow"
      else ""
  {
  }
}
