/**
 The four contracts of the money side as objects whose methods update their storage step by
 step, and the transaction that rolls everything back when one of them reverts. Each method
 is proved against the storage function of the same name in VaultProtocol, so that what is
 proved about runs of that system holds of the objects.

 A method that reverts may leave its storage half written; undoing that is the transaction's job.
 */
module VaultContracts {
  import opened Base
  import opened Sums
  import P = VaultProtocol
  import S = VaultSafety
  import W = PoolWeights

  class CDROracle {
    const yieldEngine: Address
    const governance: Address
    var poolMetrics: map<PoolId, P.PoolMetrics>
    var correlations: map<(PoolId, PoolId), nat>

    constructor (yieldEngineAddress: Address, governanceAddress: Address)
      ensures yieldEngine == yieldEngineAddress && governance == governanceAddress
      ensures Store() == P.OracleStore(map[], map[])
    {
      yieldEngine, governance := yieldEngineAddress, governanceAddress;
      poolMetrics, correlations := map[], map[];
    }

    function Store(): P.OracleStore
      reads this
    {
      P.OracleStore(poolMetrics, correlations)
    }

    predicate Trusts(w: P.Wiring) {
      w.oracleEngine == yieldEngine && w.oracleGovernance == governance
    }

    method UpdatePoolMetrics(ghost w: P.Wiring, caller: Address, p: PoolId, amount: nat, isDeposit: bool, now: nat)
      returns (r: Status)
      requires Trusts(w)
      modifies this
      ensures Follows(P.UpdatePoolMetrics(w, old(Store()), caller, p, amount, isDeposit, now), r, Store())
    {
      if caller != yieldEngine { return Revert("UNAUTHORIZED"); }
      var metrics := if p in poolMetrics then poolMetrics[p] else P.NO_METRICS;
      if isDeposit {
        if metrics.tvl + amount > U256_MAX { return Revert("u256_add Overflow"); }
        metrics := metrics.(tvl := metrics.tvl + amount);
      } else {
        if metrics.tvl < amount { return Revert("u256_sub Overflow"); }
        metrics := metrics.(tvl := metrics.tvl - amount);
      }
      metrics := metrics.(lastUpdate := now);
      poolMetrics := poolMetrics[p := metrics];
      return Ok(());
    }

    method UpdateVolatility(ghost w: P.Wiring, caller: Address, p: PoolId, volatility: nat, now: nat)
      returns (r: Status)
      requires Trusts(w)
      modifies this
      ensures Follows(P.UpdateVolatility(w, old(Store()), caller, p, volatility, now), r, Store())
    {
      if caller != governance { return Revert("UNAUTHORIZED"); }
      var metrics := if p in poolMetrics then poolMetrics[p] else P.NO_METRICS;
      metrics := metrics.(volatility := volatility);
      metrics := metrics.(lastUpdate := now);
      poolMetrics := poolMetrics[p := metrics];
      return Ok(());
    }

    method UpdateYieldRate(ghost w: P.Wiring, caller: Address, p: PoolId, rate: nat, now: nat) returns (r: Status)
      requires Trusts(w)
      modifies this
      ensures Follows(P.UpdateYieldRate(w, old(Store()), caller, p, rate, now), r, Store())
    {
      if caller != governance { return Revert("UNAUTHORIZED"); }
      var metrics := if p in poolMetrics then poolMetrics[p] else P.NO_METRICS;
      metrics := metrics.(yieldRate := rate);
      metrics := metrics.(lastUpdate := now);
      poolMetrics := poolMetrics[p := metrics];
      return Ok(());
    }

    method UpdateCorrelation(ghost w: P.Wiring, caller: Address, a: PoolId, b: PoolId, correlation: nat)
      returns (r: Status)
      requires Trusts(w)
      modifies this
      ensures Follows(P.UpdateCorrelation(w, old(Store()), caller, a, b, correlation), r, Store())
    {
      if caller != governance { return Revert("UNAUTHORIZED"); }
      if correlation > FULL_WEIGHT { return Revert("INVALID_CORRELATION"); }
      correlations := correlations[(a, b) := correlation];
      correlations := correlations[(b, a) := correlation];
      return Ok(());
    }
  }

  class StrategyRegistry {
    const address: Address
    const yieldEngine: Address
    const governance: Address
    var pools: map<PoolId, P.Pool>
    var poolCount: nat
    var executed: seq<P.StrategyCall>

    constructor (address: Address, yieldEngineAddress: Address, governanceAddress: Address)
      ensures this.address == address && yieldEngine == yieldEngineAddress && governance == governanceAddress
      ensures Store() == P.RegistryStore(map[], 0, [])
    {
      this.address, yieldEngine, governance := address, yieldEngineAddress, governanceAddress;
      pools, poolCount, executed := map[], 0, [];
    }

    function Store(): P.RegistryStore
      reads this
    {
      P.RegistryStore(pools, poolCount, executed)
    }

    predicate Trusts(w: P.Wiring) {
      w.registry == address && w.registryEngine == yieldEngine && w.registryGovernance == governance
    }

    method AddPool(ghost w: P.Wiring, vault: VaultManager, caller: Address, pool: P.Pool) returns (r: Status)
      requires Trusts(w) && vault.Trusts(w)
      modifies this, vault
      ensures Follows(P.AddPool(w, old(Store()), old(vault.Store()), caller, pool), r, (Store(), vault.Store()))
    {
      if caller != governance { return Revert("UNAUTHORIZED"); }
      if pool.token == ZERO || pool.strategy == ZERO { return Revert("INVALID_ADDRESSES"); }
      var poolId := poolCount;
      pools := pools[poolId := P.Pool(pool.token, pool.strategy, true, pool.minDeposit, pool.maxCapacity)];
      poolCount := poolId + 1;
      r := vault.AddPool(w, address, poolId, pool.token);
    }

    method UpdatePool(ghost w: P.Wiring, caller: Address, p: PoolId, active: bool, minDeposit: nat, maxCapacity: nat)
      returns (r: Status)
      requires Trusts(w)
      modifies this
      ensures Follows(P.UpdatePool(w, old(Store()), caller, p, active, minDeposit, maxCapacity), r, Store())
    {
      if caller != governance { return Revert("UNAUTHORIZED"); }
      var pool := if p in pools then pools[p] else P.NO_POOL;
      if pool.token == ZERO { return Revert("INVALID_POOL"); }
      pool := pool.(active := active);
      pool := pool.(minDeposit := minDeposit);
      pool := pool.(maxCapacity := maxCapacity);
      pools := pools[p := pool];
      return Ok(());
    }

    method ExecuteRebalance(ghost w: P.Wiring, caller: Address, newWeights: seq<nat>) returns (r: Status)
      requires Trusts(w)
      modifies this
      ensures Follows(P.ExecuteRebalance(w, old(Store()), caller, newWeights), r, Store())
    {
      if caller != yieldEngine { return Revert("UNAUTHORIZED"); }
      var i := 0;
      while i < |newWeights|
        invariant 0 <= i <= |newWeights|
        invariant pools == old(pools) && poolCount == old(poolCount)
        invariant executed == old(executed) + P.Dispatch(old(Store()), newWeights[..i])
      {
        assert newWeights[..i + 1][..i] == newWeights[..i];
        var pool := if i in pools then pools[i] else P.NO_POOL;
        if pool.active {
          executed := executed + [P.StrategyCall(i, pool.strategy, newWeights[i])];
        }
        i := i + 1;
      }
      assert newWeights[..i] == newWeights;
      return Ok(());
    }
  }

  class YieldEngine {
    const address: Address
    const vaultManager: Address
    const governance: Address
    var poolWeights: map<PoolId, nat>
    var totalWeights: nat

    constructor (address: Address, vaultManagerAddress: Address, governanceAddress: Address)
      ensures this.address == address && vaultManager == vaultManagerAddress && governance == governanceAddress
      ensures Store() == P.EngineStore(map[], 0)
    {
      this.address, vaultManager, governance := address, vaultManagerAddress, governanceAddress;
      poolWeights, totalWeights := map[], 0;
    }

    function Store(): P.EngineStore
      reads this
    {
      P.EngineStore(poolWeights, totalWeights)
    }

    predicate Trusts(w: P.Wiring) {
      w.engine == address && w.engineVault == vaultManager && w.engineGovernance == governance
    }

    /** Writes the weights first and validates their sum afterwards. */
    method Rebalance(ghost w: P.Wiring, registry: StrategyRegistry, caller: Address, newWeights: seq<nat>)
      returns (r: Status)
      requires Trusts(w) && registry.Trusts(w)
      modifies this, registry
      ensures Follows(P.Rebalance(w, old(Store()), old(registry.Store()), caller, newWeights), r,
                      (Store(), registry.Store()))
    {
      if caller != governance { return Revert("UNAUTHORIZED"); }
      var total := 0;
      var i := 0;
      while i < |newWeights|
        invariant 0 <= i <= |newWeights|
        invariant P.CheckedTotal(newWeights[..i]) == Ok(total)
        invariant poolWeights == P.WriteWeights(old(poolWeights), newWeights[..i])
        modifies this
      {
        assert newWeights[..i + 1][..i] == newWeights[..i];
        var weight := newWeights[i];
        poolWeights := poolWeights[i := weight];
        if total + weight > U256_MAX {
          W.TotalOverflows(newWeights, i + 1);
          return Revert("u256_add Overflow");
        }
        total := total + weight;
        i := i + 1;
      }
      assert newWeights[..i] == newWeights;
      if total != FULL_WEIGHT { return Revert("INVALID_WEIGHTS"); }
      totalWeights := total;
      r := registry.ExecuteRebalance(w, address, newWeights);
    }

    method OnDeposit(ghost w: P.Wiring, oracle: CDROracle, caller: Address, p: PoolId, amount: nat, now: nat)
      returns (r: Status)
      requires Trusts(w) && oracle.Trusts(w)
      modifies oracle
      ensures Follows(P.OnDeposit(w, old(oracle.Store()), caller, p, amount, now), r, oracle.Store())
    {
      if caller != vaultManager { return Revert("UNAUTHORIZED"); }
      r := oracle.UpdatePoolMetrics(w, address, p, amount, true, now);
    }

    method OnWithdrawal(ghost w: P.Wiring, oracle: CDROracle, caller: Address, p: PoolId, amount: nat, now: nat)
      returns (r: Status)
      requires Trusts(w) && oracle.Trusts(w)
      modifies oracle
      ensures Follows(P.OnWithdrawal(w, old(oracle.Store()), caller, p, amount, now), r, oracle.Store())
    {
      if caller != vaultManager { return Revert("UNAUTHORIZED"); }
      r := oracle.UpdatePoolMetrics(w, address, p, amount, false, now);
    }
  }

  /** All ERC-20 ledgers; a transfer moves the exact amount or reverts. */
  class TokenLedger {
    var balances: map<(Address, Address), nat>
    var gifts: map<Address, nat>

    function Store(): P.TokenStore
      reads this
    {
      P.TokenStore(balances, gifts)
    }

    method Transfer(token: Address, source: Address, target: Address, amount: nat) returns (r: Status)
      modifies this
      ensures Follows(P.TokenTransfer(old(Store()), token, source, target, amount), r, Store())
    {
      var held := Get(balances, (token, source));
      if held < amount { return Revert("u256_sub Overflow"); }
      balances := balances[(token, source) := held - amount];
      var received := Get(balances, (token, target));
      if received + amount > U256_MAX { return Revert("u256_add Overflow"); }
      balances := balances[(token, target) := received + amount];
      return Ok(());
    }

    /** A payment between others, or an unsolicited one to the vault, which is booked as a gift. */
    method Pay(ghost w: P.Wiring, vault: Address, token: Address, source: Address, target: Address, amount: nat)
      returns (r: Status)
      requires vault == w.vault
      modifies this
      ensures match P.TokenTransfer(old(Store()), token, source, target, amount)
              case Ok(t) => r.Ok? && Store() == P.Gift(w, t, token, target, amount)
              case Revert(reason) => r == Revert(reason)
    {
      r := Transfer(token, source, target, amount);
      if r.Ok? && target == vault { gifts := gifts[token := Get(gifts, token) + amount]; }
    }
  }

  /** `deposit` with a token that calls nobody back. */
  ghost function WholeDeposit(w: P.Wiring, v: P.VaultStore, o: P.OracleStore, t: P.TokenStore,
                              caller: Address, p: PoolId, amount: nat, now: nat)
    : Outcome<(P.VaultStore, P.OracleStore, P.TokenStore)>
  {
    var token :- P.DepositChecks(v, caller, p, amount);
    var t' :- P.TokenTransfer(t, token, caller, w.vault, amount);
    var (v', o') :- P.DepositCredit(w, v, o, caller, p, amount, now);
    Ok((v', o', t'))
  }

  /** `withdraw` with a token that calls nobody back. */
  ghost function WholeWithdrawal(w: P.Wiring, v: P.VaultStore, o: P.OracleStore, t: P.TokenStore,
                                 caller: Address, p: PoolId, amount: nat, now: nat)
    : Outcome<(P.VaultStore, P.OracleStore, P.TokenStore)>
  {
    var (v', o') :- P.WithdrawDebit(w, v, o, caller, p, amount, now);
    var t' :- P.TokenTransfer(t, P.TokenOf(v, p), w.vault, caller, amount);
    Ok((v'.(events := v'.events + [P.Withdrawal(caller, p, amount)]), o', t'))
  }

  class VaultManager {
    const address: Address
    const strategyRegistry: Address
    var balances: map<(Address, PoolId), nat>
    var totalSupply: map<PoolId, nat>
    var poolTokens: map<PoolId, Address>
    var events: seq<P.VaultEvent>

    constructor (address: Address, strategyRegistryAddress: Address)
      ensures this.address == address && strategyRegistry == strategyRegistryAddress
      ensures Store() == P.VaultStore(map[], map[], map[], [])
    {
      this.address, strategyRegistry := address, strategyRegistryAddress;
      balances, totalSupply, poolTokens, events := map[], map[], map[], [];
    }

    function Store(): P.VaultStore
      reads this
    {
      P.VaultStore(balances, totalSupply, poolTokens, events)
    }

    predicate Trusts(w: P.Wiring) {
      w.vault == address && w.vaultRegistry == strategyRegistry
    }

    method AddPool(ghost w: P.Wiring, caller: Address, p: PoolId, token: Address) returns (r: Status)
      requires Trusts(w)
      modifies this
      ensures Follows(P.VaultAddPool(w, old(Store()), caller, p, token), r, Store())
    {
      if caller != strategyRegistry { return Revert("UNAUTHORIZED"); }
      if token == ZERO { return Revert("INVALID_TOKEN"); }
      poolTokens := poolTokens[p := token];
      return Ok(());
    }

    /** `deposit` up to the call of `transferFrom`: the token to call. */
    method OpenDeposit(caller: Address, p: PoolId, amount: nat) returns (r: Outcome<Address>)
      ensures r == P.DepositChecks(Store(), caller, p, amount)
    {
      if caller == ZERO { return Revert("INVALID_CALLER"); }
      if amount == 0 { return Revert("INVALID_AMOUNT"); }
      var poolToken := Get(poolTokens, p);
      if poolToken == ZERO { return Revert("INVALID_POOL"); }
      return Ok(poolToken);
    }

    /** `deposit` from the return of `transferFrom` on, in whatever storage the token left behind. */
    method FinishDeposit(ghost w: P.Wiring, engine: YieldEngine, oracle: CDROracle,
                         caller: Address, p: PoolId, amount: nat, now: nat)
      returns (r: Status)
      requires Trusts(w) && engine.Trusts(w) && oracle.Trusts(w)
      modifies this, oracle
      ensures Follows(P.DepositCredit(w, old(Store()), old(oracle.Store()), caller, p, amount, now), r,
                      (Store(), oracle.Store()))
    {
      var userBalance := Get(balances, (caller, p));
      if userBalance + amount > U256_MAX { return Revert("u256_add Overflow"); }
      balances := balances[(caller, p) := userBalance + amount];
      var total := Get(totalSupply, p);
      if total + amount > U256_MAX { return Revert("u256_add Overflow"); }
      totalSupply := totalSupply[p := total + amount];

      r := engine.OnDeposit(w, oracle, address, p, amount, now);
      if r.Revert? { return; }
      events := events + [P.Deposit(caller, p, amount)];
    }

    method Deposit(ghost w: P.Wiring, engine: YieldEngine, oracle: CDROracle, ledger: TokenLedger,
                   caller: Address, p: PoolId, amount: nat, now: nat)
      returns (r: Status)
      requires Trusts(w) && engine.Trusts(w) && oracle.Trusts(w)
      modifies this, oracle, ledger
      ensures Follows(WholeDeposit(w, old(Store()), old(oracle.Store()), old(ledger.Store()),
                                       caller, p, amount, now),
                      r, (Store(), oracle.Store(), ledger.Store()))
    {
      var token := OpenDeposit(caller, p, amount);
      if token.Revert? { return Revert(token.reason); }
      r := ledger.Transfer(token.value, caller, address, amount);
      if r.Revert? { return; }
      r := FinishDeposit(w, engine, oracle, caller, p, amount, now);
    }

    /** `withdraw` up to the call of `transfer`, which is when the token may call anybody. */
    method OpenWithdrawal(ghost w: P.Wiring, engine: YieldEngine, oracle: CDROracle,
                          caller: Address, p: PoolId, amount: nat, now: nat)
      returns (r: Status)
      requires Trusts(w) && engine.Trusts(w) && oracle.Trusts(w)
      modifies this, oracle
      ensures Follows(P.WithdrawDebit(w, old(Store()), old(oracle.Store()), caller, p, amount, now), r,
                      (Store(), oracle.Store()))
    {
      if caller == ZERO { return Revert("INVALID_CALLER"); }
      var userBalance := Get(balances, (caller, p));
      if userBalance < amount { return Revert("INSUFFICIENT_BALANCE"); }
      var poolToken := Get(poolTokens, p);
      if poolToken == ZERO { return Revert("INVALID_POOL"); }

      balances := balances[(caller, p) := userBalance - amount];
      var total := Get(totalSupply, p);
      if total < amount { return Revert("u256_sub Overflow"); }
      totalSupply := totalSupply[p := total - amount];

      r := engine.OnWithdrawal(w, oracle, address, p, amount, now);
    }

    /** `withdraw` from the return of `transfer` on. */
    method FinishWithdrawal(caller: Address, p: PoolId, amount: nat)
      modifies this
      ensures Store() == old(Store()).(events := old(Store()).events + [P.Withdrawal(caller, p, amount)])
    {
      events := events + [P.Withdrawal(caller, p, amount)];
    }

    method Withdraw(ghost w: P.Wiring, engine: YieldEngine, oracle: CDROracle, ledger: TokenLedger,
                    caller: Address, p: PoolId, amount: nat, now: nat)
      returns (r: Status)
      requires Trusts(w) && engine.Trusts(w) && oracle.Trusts(w)
      modifies this, oracle, ledger
      ensures Follows(WholeWithdrawal(w, old(Store()), old(oracle.Store()), old(ledger.Store()),
                                       caller, p, amount, now),
                      r, (Store(), oracle.Store(), ledger.Store()))
    {
      var poolToken := Get(poolTokens, p);
      r := OpenWithdrawal(w, engine, oracle, caller, p, amount, now);
      if r.Revert? { return; }
      r := ledger.Transfer(poolToken, address, caller, amount);
      if r.Revert? { return; }
      FinishWithdrawal(caller, p, amount);
    }
  }

  // ------------------------------------------------------------ transactions

  predicate EntryCall(a: P.Action) {
    || a.BeginDeposit? || a.BeginWithdraw? || a.RegistryAddPool? || a.RegistryUpdatePool? || a.EngineRebalance?
    || a.OracleVolatility? || a.OracleYieldRate? || a.OracleCorrelation?
  }

  predicate IsDirect(a: P.Action) {
    a.DirectVaultAddPool? || a.DirectOnDeposit? || a.DirectOnWithdrawal? || a.DirectUpdateMetrics?
      || a.DirectExecuteRebalance?
  }

  /** The steps of the transition system that one transaction stands for. */
  function Script(a: P.Action): seq<P.Action> {
    if a.BeginDeposit? || a.BeginWithdraw? then [a, P.MoveTokens, P.TokenReturns] else [a]
  }

  /** The deployed contracts behind one another's addresses. */
  class Protocol {
    const vault: VaultManager
    const engine: YieldEngine
    const oracle: CDROracle
    const registry: StrategyRegistry
    const ledger: TokenLedger
    var frames: seq<P.Frame>
    var base: P.Chain
    var now: nat

    /** Between two transactions at the given time. */
    constructor (vault: VaultManager, engine: YieldEngine, oracle: CDROracle, registry: StrategyRegistry,
                 ledger: TokenLedger, time: nat)
      ensures this.vault == vault && this.engine == engine && this.oracle == oracle
      ensures this.registry == registry && this.ledger == ledger
      ensures System() == P.System(Chain(), [], Chain(), time)
    {
      this.vault, this.engine, this.oracle, this.registry, this.ledger := vault, engine, oracle, registry, ledger;
      frames, now := [], time;
      base := P.Chain(vault.Store(), oracle.Store(), engine.Store(), registry.Store(), ledger.Store());
    }

    ghost function Wiring(): P.Wiring {
      P.Wiring(vault.address, engine.address, registry.address, vault.strategyRegistry, engine.vaultManager,
               engine.governance, oracle.yieldEngine, oracle.governance, registry.yieldEngine, registry.governance)
    }

    function Chain(): P.Chain
      reads vault, engine, oracle, registry, ledger
    {
      P.Chain(vault.Store(), oracle.Store(), engine.Store(), registry.Store(), ledger.Store())
    }

    ghost function System(): P.System
      reads this, vault, engine, oracle, registry, ledger
    {
      P.System(Chain(), frames, base, now)
    }

    /** The call of one entry point, with nothing undone. */
    method Call(a: P.Action, now: nat) returns (r: Status)
      requires EntryCall(a)
      modifies vault, engine, oracle, registry, ledger
      ensures Follows(Called(Wiring(), old(Chain()), a, now), r, Chain())
    {
      ghost var w := Wiring();
      match a
      case BeginDeposit(caller, p, amount) => r := vault.Deposit(w, engine, oracle, ledger, caller, p, amount, now);
      case BeginWithdraw(caller, p, amount) => r := vault.Withdraw(w, engine, oracle, ledger, caller, p, amount, now);
      case RegistryAddPool(caller, pool) => r := registry.AddPool(w, vault, caller, pool);
      case RegistryUpdatePool(caller, p, active, minDeposit, maxCapacity) =>
        r := registry.UpdatePool(w, caller, p, active, minDeposit, maxCapacity);
      case EngineRebalance(caller, weights) => r := engine.Rebalance(w, registry, caller, weights);
      case OracleVolatility(caller, p, x) => r := oracle.UpdateVolatility(w, caller, p, x, now);
      case OracleYieldRate(caller, p, x) => r := oracle.UpdateYieldRate(w, caller, p, x, now);
      case OracleCorrelation(caller, p, q, x) => r := oracle.UpdateCorrelation(w, caller, p, q, x);
    }

    /** A transaction on the objects does what the steps it stands for do in the transition system,
        whether it goes through or is undone. */
    method Execute(a: P.Action, now: nat) returns (r: Status)
      requires EntryCall(a)
      modifies vault, engine, oracle, registry, ledger
      ensures Chain() == P.Run(Wiring(), P.System(old(Chain()), [], old(Chain()), now), Script(a)).chain
      ensures r.Ok? <==> Called(Wiring(), old(Chain()), a, now).Ok?
      ensures r.Revert? ==> Chain() == old(Chain())
    {
      var balances, totalSupply, poolTokens, events :=
        vault.balances, vault.totalSupply, vault.poolTokens, vault.events;
      var poolWeights, totalWeights := engine.poolWeights, engine.totalWeights;
      var poolMetrics, correlations := oracle.poolMetrics, oracle.correlations;
      var pools, poolCount, executed := registry.pools, registry.poolCount, registry.executed;
      var tokens := ledger.balances;
      var gifts := ledger.gifts;
      r := Call(a, now);
      if r.Revert? {
        vault.balances, vault.totalSupply, vault.poolTokens, vault.events := balances, totalSupply, poolTokens, events;
        engine.poolWeights, engine.totalWeights := poolWeights, totalWeights;
        oracle.poolMetrics, oracle.correlations := poolMetrics, correlations;
        registry.pools, registry.poolCount, registry.executed := pools, poolCount, executed;
        ledger.balances, ledger.gifts := tokens, gifts;
      }
      CalledIsRun(Wiring(), old(Chain()), a, now);
    }

    // --- the same objects under tokens that call back

    /** The token at the top of the stack moves the funds it was asked to move. */
    method MoveTokens() returns (r: Status)
      modifies this, ledger
      ensures Follows(P.MoveTop(Wiring(), old(System())), r, System())
      ensures base == old(base) && now == old(now)
    {
      if frames == [] || frames[|frames| - 1].moved { return Ok(()); }
      var n := |frames| - 1;
      var f := frames[n];
      if f.direction == P.In {
        r := ledger.Transfer(f.token, f.user, vault.address, f.amount);
      } else {
        r := ledger.Transfer(f.token, vault.address, f.user, f.amount);
      }
      if r.Ok? { frames := frames[n := f.(moved := true)]; }
    }

    /** The token at the top of the stack returns, and the vault finishes its function. */
    method TokenReturns() returns (r: Status)
      modifies this, vault, oracle
      ensures Follows(P.ReturnTop(Wiring(), old(System())), r, System())
      ensures base == old(base) && now == old(now)
    {
      if frames == [] || !frames[|frames| - 1].moved { return Ok(()); }
      var n := |frames| - 1;
      var f := frames[n];
      if f.direction == P.In {
        r := vault.FinishDeposit(Wiring(), engine, oracle, f.user, f.pool, f.amount, now);
      } else {
        vault.FinishWithdrawal(f.user, f.pool, f.amount);
        r := Ok(());
      }
      if r.Ok? { frames := frames[..n]; }
    }

    /** The vault's entry points, up to the call of the token. */
    method OpenCall(a: P.Action) returns (r: Status)
      requires a.BeginDeposit? || a.BeginWithdraw?
      modifies this, vault, oracle
      ensures Follows(P.Effect(Wiring(), old(System()), a), r, System())
      ensures base == old(base) && now == old(now)
    {
      if a.BeginDeposit? {
        var token := vault.OpenDeposit(a.caller, a.pool, a.amount);
        if token.Revert? { return Revert(token.reason); }
        frames := frames + [P.Frame(P.In, a.caller, a.pool, token.value, a.amount, false)];
        return Ok(());
      }
      var token := Get(vault.poolTokens, a.pool);
      r := vault.OpenWithdrawal(Wiring(), engine, oracle, a.caller, a.pool, a.amount, now);
      if r.Ok? { frames := frames + [P.Frame(P.Out, a.caller, a.pool, token, a.amount, false)]; }
    }

    /** The entry points that call no token. */
    method SettingCall(a: P.Action) returns (r: Status)
      requires EntryCall(a) && !a.BeginDeposit? && !a.BeginWithdraw?
      modifies vault, engine, oracle, registry
      ensures Follows(P.Effect(Wiring(), old(System()), a), r, System())
    {
      ghost var w := Wiring();
      match a
      case RegistryAddPool(caller, pool) => r := registry.AddPool(w, vault, caller, pool);
      case RegistryUpdatePool(caller, p, active, minDeposit, maxCapacity) =>
        r := registry.UpdatePool(w, caller, p, active, minDeposit, maxCapacity);
      case EngineRebalance(caller, weights) => r := engine.Rebalance(w, registry, caller, weights);
      case OracleVolatility(caller, p, x) => r := oracle.UpdateVolatility(w, caller, p, x, now);
      case OracleYieldRate(caller, p, x) => r := oracle.UpdateYieldRate(w, caller, p, x, now);
      case OracleCorrelation(caller, p, q, x) => r := oracle.UpdateCorrelation(w, caller, p, q, x);
    }

    /** The entry points that serve one contract only, called by anybody. */
    method DirectCall(a: P.Action) returns (r: Status)
      requires IsDirect(a)
      modifies vault, oracle, registry
      ensures Follows(P.Effect(Wiring(), old(System()), a), r, System())
    {
      ghost var w := Wiring();
      match a
      case DirectVaultAddPool(caller, p, token) => r := vault.AddPool(w, caller, p, token);
      case DirectOnDeposit(caller, p, amount) => r := engine.OnDeposit(w, oracle, caller, p, amount, now);
      case DirectOnWithdrawal(caller, p, amount) => r := engine.OnWithdrawal(w, oracle, caller, p, amount, now);
      case DirectUpdateMetrics(caller, p, amount, isDeposit) =>
        r := oracle.UpdatePoolMetrics(w, caller, p, amount, isDeposit, now);
      case DirectExecuteRebalance(caller, weights) => r := registry.ExecuteRebalance(w, caller, weights);
    }

    /** A payment between others. */
    method Payment(a: P.Action) returns (r: Status)
      requires a.Pay?
      modifies ledger
      ensures Follows(P.Effect(Wiring(), old(System()), a), r, System())
    {
      r := ledger.Pay(Wiring(), vault.address, a.token, a.from, a.to, a.amount);
    }

    /** The failure of the running call, and the end of a transaction. */
    method Ending(a: P.Action) returns (r: Status)
      requires a.Fail? || a.NextBlock?
      modifies this
      ensures Follows(P.Effect(Wiring(), old(System()), a), r, System())
      ensures r.Revert? ==> base == old(base) && now == old(now)
    {
      if a.Fail? { return Revert("the running call fails"); }
      if frames == [] { base, now := Chain(), now + a.elapsed; }
      return Ok(());
    }

    /** Any step of the transition system but the creation of tokens, taken on the objects: calls in any nesting,
        tokens that call back, and the undoing of the whole transaction when a step reverts. */
    method Do(a: P.Action) returns (r: Status)
      requires !a.Mint?
      modifies this, vault, engine, oracle, registry, ledger
      ensures System() == P.Step(Wiring(), old(System()), a)
      ensures r.Ok? <==> P.Effect(Wiring(), old(System()), a).Ok?
    {
      if a.BeginDeposit? || a.BeginWithdraw? {
        r := OpenCall(a);
      } else if a.MoveTokens? {
        r := MoveTokens();
      } else if a.TokenReturns? {
        r := TokenReturns();
      } else if EntryCall(a) {
        r := SettingCall(a);
      } else if IsDirect(a) {
        r := DirectCall(a);
      } else if a.Pay? {
        r := Payment(a);
      } else {
        r := Ending(a);
      }
      if r.Revert? {
        Restore();
        frames := [];
      }
    }

    /** A whole run on the objects. */
    method DoAll(actions: seq<P.Action>)
      requires forall i :: 0 <= i < |actions| ==> !actions[i].Mint?
      modifies this, vault, engine, oracle, registry, ledger
      ensures System() == P.Run(Wiring(), old(System()), actions)
    {
      var i := 0;
      while i < |actions|
        invariant 0 <= i <= |actions|
        invariant P.Run(Wiring(), System(), actions[i..]) == P.Run(Wiring(), old(System()), actions)
      {
        assert actions[i..][0] == actions[i] && actions[i..][1..] == actions[i + 1..];
        var _ := Do(actions[i]);
        i := i + 1;
      }
      assert actions[i..] == [];
    }

    /** Puts the storage of the last finished transaction back. */
    method Restore()
      modifies vault, engine, oracle, registry, ledger
      ensures Chain() == base
    {
      var v, o, e, k, t := base.vault, base.oracle, base.engine, base.registry, base.tokens;
      vault.balances, vault.totalSupply, vault.poolTokens, vault.events :=
        v.balances, v.totalSupply, v.poolTokens, v.events;
      oracle.poolMetrics, oracle.correlations := o.poolMetrics, o.correlations;
      engine.poolWeights, engine.totalWeights := e.poolWeights, e.totalWeights;
      registry.pools, registry.poolCount, registry.executed := k.pools, k.poolCount, k.executed;
      ledger.balances, ledger.gifts := t.balances, t.gifts;
    }
  }

  /** One entry point on the whole storage, with a token that calls nobody back. */
  ghost function Called(w: P.Wiring, c: P.Chain, a: P.Action, now: nat): Outcome<P.Chain>
    requires EntryCall(a)
  {
    match a
    case BeginDeposit(caller, p, amount) =>
      var (v, o, t) :- WholeDeposit(w, c.vault, c.oracle, c.tokens, caller, p, amount, now);
      Ok(c.(vault := v, oracle := o, tokens := t))
    case BeginWithdraw(caller, p, amount) =>
      var (v, o, t) :- WholeWithdrawal(w, c.vault, c.oracle, c.tokens, caller, p, amount, now);
      Ok(c.(vault := v, oracle := o, tokens := t))
    case _ =>
      var s :- P.Effect(w, P.System(c, [], c, now), a);
      Ok(s.chain)
  }

  lemma DepositIsUninterrupted(w: P.Wiring, c: P.Chain, caller: Address, p: PoolId, amount: u256, now: nat)
    ensures var s := S.Uninterrupted(w, P.System(c, [], c, now), P.BeginDeposit(caller, p, amount));
      var r := Called(w, c, P.BeginDeposit(caller, p, amount), now);
      (r.Ok? <==> s.Ok?) && (r.Ok? ==> r.value == s.value.chain)
  {
    var s0 := P.System(c, [], c, now);
    var entry := P.Effect(w, s0, P.BeginDeposit(caller, p, amount));
    if entry.Ok? {
      assert entry.value.frames[0] == P.Frame(P.In, caller, p, P.TokenOf(c.vault, p), amount, false);
    }
  }

  lemma WithdrawalIsUninterrupted(w: P.Wiring, c: P.Chain, caller: Address, p: PoolId, amount: u256, now: nat)
    ensures var s := S.Uninterrupted(w, P.System(c, [], c, now), P.BeginWithdraw(caller, p, amount));
      var r := Called(w, c, P.BeginWithdraw(caller, p, amount), now);
      (r.Ok? <==> s.Ok?) && (r.Ok? ==> r.value == s.value.chain)
  {
    var s0 := P.System(c, [], c, now);
    var entry := P.Effect(w, s0, P.BeginWithdraw(caller, p, amount));
    if entry.Ok? {
      assert entry.value.frames[0] == P.Frame(P.Out, caller, p, P.TokenOf(c.vault, p), amount, false);
    }
  }

  lemma CalledIsRun(w: P.Wiring, c: P.Chain, a: P.Action, now: nat)
    requires EntryCall(a)
    ensures P.Run(w, P.System(c, [], c, now), Script(a)).chain
         == match Called(w, c, a, now) case Ok(c') => c' case Revert(_) => c
  {
    var s := P.System(c, [], c, now);
    if a.BeginDeposit? {
      DepositIsUninterrupted(w, c, a.caller, a.pool, a.amount, now);
      S.UninterruptedIsRun(w, s, a);
    } else if a.BeginWithdraw? {
      WithdrawalIsUninterrupted(w, c, a.caller, a.pool, a.amount, now);
      S.UninterruptedIsRun(w, s, a);
    } else {
      assert [a][1..] == [];
      assert P.Run(w, s, [a]) == P.Step(w, s, a);
    }
  }
}
