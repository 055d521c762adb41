/**
 The money side of the protocol as one transition system: VaultManager, YieldEngine,
 CDROracle and StrategyRegistry over shared storage, with the ERC-20 ledgers they move
 funds on. Each contract function is a function from storage to storage that may revert.

 A token contract is foreign code. While the vault waits for `transferFrom` or `transfer`
 the token may call any entry point of the protocol, so `deposit` and `withdraw` are two
 steps each, the part before and the part after the external call, and a stack of frames
 remembers which calls are still waiting. A revert anywhere undoes the whole transaction.
 */
module VaultProtocol {
  import opened Base
  import opened Sums

  // ---------------------------------------------------------------- storage

  datatype Pool = Pool(token: Address, strategy: Address, active: bool, minDeposit: nat, maxCapacity: nat)

  datatype PoolMetrics = PoolMetrics(tvl: nat, volatility: nat, yieldRate: nat, lastUpdate: nat)

  datatype StrategyCall = StrategyCall(pool: PoolId, strategy: Address, weight: nat)

  datatype VaultEvent =
    | Deposit(user: Address, pool: PoolId, amount: nat)
    | Withdrawal(user: Address, pool: PoolId, amount: nat)

  datatype VaultStore = VaultStore(
    balances: map<(Address, PoolId), nat>,
    totalSupply: map<PoolId, nat>,
    poolTokens: map<PoolId, Address>,
    events: seq<VaultEvent>)

  datatype OracleStore = OracleStore(
    poolMetrics: map<PoolId, PoolMetrics>,
    correlations: map<(PoolId, PoolId), nat>)

  datatype EngineStore = EngineStore(poolWeights: map<PoolId, nat>, totalWeights: nat)

  /** `executed` lists the calls made on strategy contracts, oldest first. */
  datatype RegistryStore = RegistryStore(
    pools: map<PoolId, Pool>,
    poolCount: nat,
    executed: seq<StrategyCall>)

  /** The ERC-20 ledgers, keyed by token and holder; `gifts` adds up, per token, what
      reached the vault by other means than a deposit. */
  datatype TokenStore = TokenStore(balances: map<(Address, Address), nat>, gifts: map<Address, nat>)

  datatype Chain = Chain(
    vault: VaultStore,
    oracle: OracleStore,
    engine: EngineStore,
    registry: RegistryStore,
    tokens: TokenStore)

  /** Where the contracts live, and the addresses their constructors were given to check
      callers against. */
  datatype Wiring = Wiring(
    vault: Address,
    engine: Address,
    registry: Address,
    vaultRegistry: Address,
    engineVault: Address,
    engineGovernance: Address,
    oracleEngine: Address,
    oracleGovernance: Address,
    registryEngine: Address,
    registryGovernance: Address)

  /** The deployment in which every contract trusts the contract that calls it. */
  predicate Wired(w: Wiring) {
    && w.vaultRegistry == w.registry
    && w.engineVault == w.vault
    && w.oracleEngine == w.engine
    && w.registryEngine == w.engine
  }

  /** An address that is none of the calling contracts: accounts, tokens, strategies, governance. */
  predicate External(w: Wiring, a: Address) {
    a != w.vault && a != w.engine && a != w.registry
  }

  const NO_METRICS := PoolMetrics(0, 0, 0, 0)

  const NO_POOL := Pool(ZERO, ZERO, false, 0, 0)

  function MetricsAt(o: OracleStore, p: PoolId): PoolMetrics {
    if p in o.poolMetrics then o.poolMetrics[p] else NO_METRICS
  }

  function PoolAt(r: RegistryStore, p: PoolId): Pool {
    if p in r.pools then r.pools[p] else NO_POOL
  }

  function TokenOf(v: VaultStore, p: PoolId): Address {
    Get(v.poolTokens, p)
  }

  // -------------------------------------------------------------- CDROracle

  function UpdatePoolMetrics(w: Wiring, o: OracleStore, caller: Address, p: PoolId, amount: nat, isDeposit: bool,
                             now: nat)
    : Outcome<OracleStore>
  {
    var _ :- Assert(caller == w.oracleEngine, "UNAUTHORIZED");
    var metrics := MetricsAt(o, p);
    var tvl :- if isDeposit then Add256(metrics.tvl, amount) else Sub256(metrics.tvl, amount);
    Ok(o.(poolMetrics := o.poolMetrics[p := metrics.(tvl := tvl, lastUpdate := now)]))
  }

  function UpdateVolatility(w: Wiring, o: OracleStore, caller: Address, p: PoolId, volatility: nat, now: nat)
    : Outcome<OracleStore>
  {
    var _ :- Assert(caller == w.oracleGovernance, "UNAUTHORIZED");
    Ok(o.(poolMetrics := o.poolMetrics[p := MetricsAt(o, p).(volatility := volatility, lastUpdate := now)]))
  }

  function UpdateYieldRate(w: Wiring, o: OracleStore, caller: Address, p: PoolId, rate: nat, now: nat)
    : Outcome<OracleStore>
  {
    var _ :- Assert(caller == w.oracleGovernance, "UNAUTHORIZED");
    Ok(o.(poolMetrics := o.poolMetrics[p := MetricsAt(o, p).(yieldRate := rate, lastUpdate := now)]))
  }

  function UpdateCorrelation(w: Wiring, o: OracleStore, caller: Address, a: PoolId, b: PoolId, correlation: nat)
    : Outcome<OracleStore>
  {
    var _ :- Assert(caller == w.oracleGovernance, "UNAUTHORIZED");
    var _ :- Assert(correlation <= FULL_WEIGHT, "INVALID_CORRELATION");
    Ok(o.(correlations := o.correlations[(a, b) := correlation][(b, a) := correlation]))
  }

  // ------------------------------------------------------------ YieldEngine

  function OnDeposit(w: Wiring, o: OracleStore, caller: Address, p: PoolId, amount: nat, now: nat)
    : Outcome<OracleStore>
  {
    var _ :- Assert(caller == w.engineVault, "UNAUTHORIZED");
    UpdatePoolMetrics(w, o, w.engine, p, amount, true, now)
  }

  function OnWithdrawal(w: Wiring, o: OracleStore, caller: Address, p: PoolId, amount: nat, now: nat)
    : Outcome<OracleStore>
  {
    var _ :- Assert(caller == w.engineVault, "UNAUTHORIZED");
    UpdatePoolMetrics(w, o, w.engine, p, amount, false, now)
  }

  /** The weights map after the first |ws| pools were written. */
  function WriteWeights(weights: map<PoolId, nat>, ws: seq<nat>): map<PoolId, nat> {
    if ws == [] then weights
    else WriteWeights(weights, ws[..|ws| - 1])[|ws| - 1 := ws[|ws| - 1]]
  }

  /** The running total of the loop, which panics when it leaves u256. */
  function CheckedTotal(ws: seq<nat>): Outcome<nat> {
    if ws == [] then Ok(0)
    else
      var total :- CheckedTotal(ws[..|ws| - 1]);
      Add256(total, ws[|ws| - 1])
  }

  function Rebalance(w: Wiring, e: EngineStore, r: RegistryStore, caller: Address, ws: seq<nat>)
    : Outcome<(EngineStore, RegistryStore)>
  {
    var _ :- Assert(caller == w.engineGovernance, "UNAUTHORIZED");
    var total :- CheckedTotal(ws);
    var _ :- Assert(total == FULL_WEIGHT, "INVALID_WEIGHTS");
    var r' :- ExecuteRebalance(w, r, w.engine, ws);
    Ok((EngineStore(WriteWeights(e.poolWeights, ws), total), r'))
  }

  // ------------------------------------------------------- StrategyRegistry

  /** The strategy calls one dispatch loop makes over the first |ws| pools. */
  function Dispatch(r: RegistryStore, ws: seq<nat>): seq<StrategyCall> {
    if ws == [] then []
    else
      var i := |ws| - 1;
      Dispatch(r, ws[..i]) +
      if PoolAt(r, i).active then [StrategyCall(i, PoolAt(r, i).strategy, ws[i])] else []
  }

  function ExecuteRebalance(w: Wiring, r: RegistryStore, caller: Address, ws: seq<nat>): Outcome<RegistryStore> {
    var _ :- Assert(caller == w.registryEngine, "UNAUTHORIZED");
    Ok(r.(executed := r.executed + Dispatch(r, ws)))
  }

  function AddPool(w: Wiring, r: RegistryStore, v: VaultStore, caller: Address, pool: Pool)
    : Outcome<(RegistryStore, VaultStore)>
  {
    var _ :- Assert(caller == w.registryGovernance, "UNAUTHORIZED");
    var _ :- Assert(pool.token != ZERO && pool.strategy != ZERO, "INVALID_ADDRESSES");
    var id := r.poolCount;
    var v' :- VaultAddPool(w, v, w.registry, id, pool.token);
    Ok((r.(pools := r.pools[id := pool.(active := true)], poolCount := id + 1), v'))
  }

  function UpdatePool(w: Wiring, r: RegistryStore, caller: Address, p: PoolId, active: bool, minDeposit: nat,
                      maxCapacity: nat)
    : Outcome<RegistryStore>
  {
    var _ :- Assert(caller == w.registryGovernance, "UNAUTHORIZED");
    var pool := PoolAt(r, p);
    var _ :- Assert(pool.token != ZERO, "INVALID_POOL");
    Ok(r.(pools := r.pools[p := pool.(active := active, minDeposit := minDeposit, maxCapacity := maxCapacity)]))
  }

  // ----------------------------------------------------------- VaultManager

  function VaultAddPool(w: Wiring, v: VaultStore, caller: Address, p: PoolId, token: Address): Outcome<VaultStore> {
    var _ :- Assert(caller == w.vaultRegistry, "UNAUTHORIZED");
    var _ :- Assert(token != ZERO, "INVALID_TOKEN");
    Ok(v.(poolTokens := v.poolTokens[p := token]))
  }

  /** `deposit` up to the call of `transferFrom`: the token to pull from. */
  function DepositChecks(v: VaultStore, caller: Address, p: PoolId, amount: nat): Outcome<Address> {
    var _ :- Assert(caller != ZERO, "INVALID_CALLER");
    var _ :- Assert(amount > 0, "INVALID_AMOUNT");
    var _ :- Assert(TokenOf(v, p) != ZERO, "INVALID_POOL");
    Ok(TokenOf(v, p))
  }

  /** `deposit` from the return of `transferFrom` on. */
  function DepositCredit(w: Wiring, v: VaultStore, o: OracleStore, caller: Address, p: PoolId, amount: nat, now: nat)
    : Outcome<(VaultStore, OracleStore)>
  {
    var balance :- Add256(Get(v.balances, (caller, p)), amount);
    var total :- Add256(Get(v.totalSupply, p), amount);
    var o' :- OnDeposit(w, o, w.vault, p, amount, now);
    Ok((v.(balances := v.balances[(caller, p) := balance],
           totalSupply := v.totalSupply[p := total],
           events := v.events + [Deposit(caller, p, amount)]),
        o'))
  }

  /** `withdraw` up to the call of `transfer`. */
  function WithdrawDebit(w: Wiring, v: VaultStore, o: OracleStore, caller: Address, p: PoolId, amount: nat, now: nat)
    : Outcome<(VaultStore, OracleStore)>
  {
    var _ :- Assert(caller != ZERO, "INVALID_CALLER");
    var _ :- Assert(amount <= Get(v.balances, (caller, p)), "INSUFFICIENT_BALANCE");
    var _ :- Assert(TokenOf(v, p) != ZERO, "INVALID_POOL");
    var balance :- Sub256(Get(v.balances, (caller, p)), amount);
    var total :- Sub256(Get(v.totalSupply, p), amount);
    var o' :- OnWithdrawal(w, o, w.vault, p, amount, now);
    Ok((v.(balances := v.balances[(caller, p) := balance],
           totalSupply := v.totalSupply[p := total]),
        o'))
  }

  // ---------------------------------------------------------------- ERC-20

  /** `transfer` and `transferFrom` of a conforming token: the exact amount moves, or the call reverts. */
  function TokenTransfer(t: TokenStore, token: Address, from: Address, to: Address, amount: nat): Outcome<TokenStore> {
    var debited :- Sub256(Get(t.balances, (token, from)), amount);
    var after := t.balances[(token, from) := debited];
    var credited :- Add256(Get(after, (token, to)), amount);
    Ok(t.(balances := after[(token, to) := credited]))
  }

  /** What one holder has in each token. */
  ghost function Holdings(t: TokenStore, token: Address): map<(Address, Address), nat> {
    map k | k in t.balances && k.0 == token :: t.balances[k]
  }

  /** New tokens appear, within the 256 bits of the token's own total supply. */
  ghost function TokenMint(t: TokenStore, token: Address, to: Address, amount: nat): Outcome<TokenStore> {
    var _ :- Add256(Sum(Holdings(t, token)), amount);
    Ok(t.(balances := t.balances[(token, to) := Get(t.balances, (token, to)) + amount]))
  }

  /** Tokens that came to the vault outside a deposit. */
  function Gift(w: Wiring, t: TokenStore, token: Address, to: Address, amount: nat): TokenStore {
    if to == w.vault then t.(gifts := t.gifts[token := Get(t.gifts, token) + amount]) else t
  }

  // ----------------------------------------------------- the whole protocol

  datatype Direction = In | Out

  /** A call of the vault into a token that has not returned; `moved` once the token has moved the funds. */
  datatype Frame = Frame(direction: Direction, user: Address, pool: PoolId, token: Address, amount: nat, moved: bool)

  /** `base` is the storage a revert of the running transaction returns to. */
  datatype System = System(chain: Chain, frames: seq<Frame>, base: Chain, now: nat)

  datatype Action =
    | BeginDeposit(caller: Address, pool: PoolId, amount: u256)
    | BeginWithdraw(caller: Address, pool: PoolId, amount: u256)
    | MoveTokens
    | TokenReturns
    | RegistryAddPool(caller: Address, added: Pool)
    | RegistryUpdatePool(caller: Address, pool: PoolId, active: bool, minDeposit: u256, maxCapacity: u256)
    | EngineRebalance(caller: Address, weights: seq<nat>)
    | OracleVolatility(caller: Address, pool: PoolId, volatility: u256)
    | OracleYieldRate(caller: Address, pool: PoolId, rate: u256)
    | OracleCorrelation(caller: Address, pool: PoolId, other: PoolId, correlation: u256)
    | DirectVaultAddPool(caller: Address, pool: PoolId, token: Address)
    | DirectOnDeposit(caller: Address, pool: PoolId, amount: u256)
    | DirectOnWithdrawal(caller: Address, pool: PoolId, amount: u256)
    | DirectUpdateMetrics(caller: Address, pool: PoolId, amount: u256, isDeposit: bool)
    | DirectExecuteRebalance(caller: Address, weights: seq<nat>)
    | Pay(token: Address, from: Address, to: Address, amount: u256)
    | Mint(token: Address, to: Address, amount: u256)
    | Fail
    | NextBlock(elapsed: nat)

  /** The protocol's contracts make only the calls modelled above, and nobody else can spend
      the vault's tokens. */
  predicate Legal(w: Wiring, a: Action) {
    match a
    case Pay(_, from, _, _) => from != w.vault
    case MoveTokens | TokenReturns | Mint(_, _, _) | Fail | NextBlock(_) => true
    case _ => External(w, a.caller)
  }

  const NO_CHAIN := Chain(
    VaultStore(map[], map[], map[], []),
    OracleStore(map[], map[]),
    EngineStore(map[], 0),
    RegistryStore(map[], 0, []),
    TokenStore(map[], map[]))

  /** Freshly deployed contracts. */
  function Genesis(now: nat): System {
    System(NO_CHAIN, [], NO_CHAIN, now)
  }

  /** The token at the top of the stack moves the funds it was asked to move. */
  function MoveTop(w: Wiring, s: System): Outcome<System> {
    if s.frames == [] || s.frames[|s.frames| - 1].moved then Ok(s)
    else
      var n := |s.frames| - 1;
      var f := s.frames[n];
      var tokens :- match f.direction
                    case In => TokenTransfer(s.chain.tokens, f.token, f.user, w.vault, f.amount)
                    case Out => TokenTransfer(s.chain.tokens, f.token, w.vault, f.user, f.amount);
      Ok(s.(chain := s.chain.(tokens := tokens), frames := s.frames[n := f.(moved := true)]))
  }

  /** The token at the top of the stack returns to the vault, which finishes its function. */
  function ReturnTop(w: Wiring, s: System): Outcome<System> {
    if s.frames == [] || !s.frames[|s.frames| - 1].moved then Ok(s)
    else
      var n := |s.frames| - 1;
      var f := s.frames[n];
      match f.direction
      case In =>
        var (v, o) :- DepositCredit(w, s.chain.vault, s.chain.oracle, f.user, f.pool, f.amount, s.now);
        Ok(s.(chain := s.chain.(vault := v, oracle := o), frames := s.frames[..n]))
      case Out =>
        var v := s.chain.vault;
        Ok(s.(chain := s.chain.(vault := v.(events := v.events + [Withdrawal(f.user, f.pool, f.amount)])),
              frames := s.frames[..n]))
  }

  /** What an action does when nothing on the way reverts. */
  ghost function Effect(w: Wiring, s: System, a: Action): Outcome<System> {
    var c := s.chain;
    match a
    case BeginDeposit(caller, p, amount) =>
      var token :- DepositChecks(c.vault, caller, p, amount);
      Ok(s.(frames := s.frames + [Frame(In, caller, p, token, amount, false)]))
    case BeginWithdraw(caller, p, amount) =>
      var (v, o) :- WithdrawDebit(w, c.vault, c.oracle, caller, p, amount, s.now);
      Ok(s.(chain := c.(vault := v, oracle := o),
            frames := s.frames + [Frame(Out, caller, p, TokenOf(c.vault, p), amount, false)]))
    case MoveTokens => MoveTop(w, s)
    case TokenReturns => ReturnTop(w, s)
    case RegistryAddPool(caller, pool) =>
      var (r, v) :- AddPool(w, c.registry, c.vault, caller, pool);
      Ok(s.(chain := c.(registry := r, vault := v)))
    case RegistryUpdatePool(caller, p, active, minDeposit, maxCapacity) =>
      var r :- UpdatePool(w, c.registry, caller, p, active, minDeposit, maxCapacity);
      Ok(s.(chain := c.(registry := r)))
    case EngineRebalance(caller, ws) =>
      var (e, r) :- Rebalance(w, c.engine, c.registry, caller, ws);
      Ok(s.(chain := c.(engine := e, registry := r)))
    case OracleVolatility(caller, p, x) =>
      var o :- UpdateVolatility(w, c.oracle, caller, p, x, s.now);
      Ok(s.(chain := c.(oracle := o)))
    case OracleYieldRate(caller, p, x) =>
      var o :- UpdateYieldRate(w, c.oracle, caller, p, x, s.now);
      Ok(s.(chain := c.(oracle := o)))
    case OracleCorrelation(caller, a, b, x) =>
      var o :- UpdateCorrelation(w, c.oracle, caller, a, b, x);
      Ok(s.(chain := c.(oracle := o)))
    case DirectVaultAddPool(caller, p, token) =>
      var v :- VaultAddPool(w, c.vault, caller, p, token);
      Ok(s.(chain := c.(vault := v)))
    case DirectOnDeposit(caller, p, amount) =>
      var o :- OnDeposit(w, c.oracle, caller, p, amount, s.now);
      Ok(s.(chain := c.(oracle := o)))
    case DirectOnWithdrawal(caller, p, amount) =>
      var o :- OnWithdrawal(w, c.oracle, caller, p, amount, s.now);
      Ok(s.(chain := c.(oracle := o)))
    case DirectUpdateMetrics(caller, p, amount, isDeposit) =>
      var o :- UpdatePoolMetrics(w, c.oracle, caller, p, amount, isDeposit, s.now);
      Ok(s.(chain := c.(oracle := o)))
    case DirectExecuteRebalance(caller, ws) =>
      var r :- ExecuteRebalance(w, c.registry, caller, ws);
      Ok(s.(chain := c.(registry := r)))
    case Pay(token, from, to, amount) =>
      var t :- TokenTransfer(c.tokens, token, from, to, amount);
      Ok(s.(chain := c.(tokens := Gift(w, t, token, to, amount))))
    case Mint(token, to, amount) =>
      var t :- TokenMint(c.tokens, token, to, amount);
      Ok(s.(chain := c.(tokens := Gift(w, t, token, to, amount))))
    case Fail => Revert("the running call fails")
    case NextBlock(elapsed) =>
      if s.frames == [] then Ok(s.(base := c, now := s.now + elapsed)) else Ok(s)
  }

  /** One step: an action, or the undoing of the whole transaction when it reverts. */
  ghost function Step(w: Wiring, s: System, a: Action): System {
    match Effect(w, s, a)
    case Ok(s') => s'
    case Revert(_) => System(s.base, [], s.base, s.now)
  }

  ghost function Run(w: Wiring, s: System, actions: seq<Action>): System
    decreases |actions|
  {
    if actions == [] then s else Run(w, Step(w, s, actions[0]), actions[1..])
  }

  predicate AllLegal(w: Wiring, actions: seq<Action>) {
    forall i :: 0 <= i < |actions| ==> Legal(w, actions[i])
  }
}
