/**
 When a pool's metrics were last updated: the time stamp of the oracle is that of the last
 accepted deposit, withdrawal or setting of the pool, on every run and through every rollback.
 */
module PoolStamps {
  import opened Base
  import opened VaultProtocol
  import opened VaultLedger
  import S = VaultSafety

  function Stamp(o: OracleStore, p: PoolId): nat {
    MetricsAt(o, p).lastUpdate
  }

  /** The action, once it goes through, updates the pool: the end of a deposit, the debit of a withdrawal, or one of
      governance's settings. */
  predicate Touches(s: System, a: Action, p: PoolId) {
    match a
    case BeginWithdraw(_, pool, _) => pool == p
    case TokenReturns =>
      s.frames != [] && var f := s.frames[|s.frames| - 1]; f.moved && f.direction == In && f.pool == p
    case OracleVolatility(_, pool, _) => pool == p
    case OracleYieldRate(_, pool, _) => pool == p
    case _ => false
  }

  lemma FlowStamps(w: Wiring, o: OracleStore, caller: Address, pool: PoolId, amount: nat, isDeposit: bool,
                   now: nat, p: PoolId)
    ensures var r := UpdatePoolMetrics(w, o, caller, pool, amount, isDeposit, now);
      r.Ok? ==> Stamp(r.value, p) == if pool == p then now else Stamp(o, p)
  {
  }

  lemma SettingStamps(w: Wiring, o: OracleStore, caller: Address, a: PoolId, b: PoolId, x: nat, now: nat, p: PoolId)
    ensures var r := UpdateVolatility(w, o, caller, a, x, now);
      r.Ok? ==> Stamp(r.value, p) == if a == p then now else Stamp(o, p)
    ensures var r := UpdateYieldRate(w, o, caller, a, x, now);
      r.Ok? ==> Stamp(r.value, p) == if a == p then now else Stamp(o, p)
    ensures var r := UpdateCorrelation(w, o, caller, a, b, x); r.Ok? ==> Stamp(r.value, p) == Stamp(o, p)
  {
  }

  /** Exactly these actions stamp the pool, with the time at which they happen. */
  lemma EffectStamps(w: Wiring, s: System, a: Action, p: PoolId)
    requires Wired(w) && Legal(w, a)
    ensures var r := Effect(w, s, a);
      r.Ok? ==> Stamp(r.value.chain.oracle, p) == if Touches(s, a, p) then s.now else Stamp(s.chain.oracle, p)
  {
    var o := s.chain.oracle;
    match a
    case BeginWithdraw(_, pool, amount) => FlowStamps(w, o, w.engine, pool, amount, false, s.now, p);
    case TokenReturns =>
      if s.frames != [] {
        var f := s.frames[|s.frames| - 1];
        FlowStamps(w, o, w.engine, f.pool, f.amount, true, s.now, p);
      }
    case OracleVolatility(caller, pool, x) => SettingStamps(w, o, caller, pool, pool, x, s.now, p);
    case OracleYieldRate(caller, pool, x) => SettingStamps(w, o, caller, pool, pool, x, s.now, p);
    case OracleCorrelation(caller, x, y, c) => SettingStamps(w, o, caller, x, y, c, s.now, p);
    case DirectOnDeposit(_, _, _) => DirectCallsRevert(w, s, a);
    case DirectOnWithdrawal(_, _, _) => DirectCallsRevert(w, s, a);
    case DirectUpdateMetrics(_, _, _, _) => DirectCallsRevert(w, s, a);
    case _ => S.EffectKeepsOracle(w, s, a);
  }

  /** The time of the last touch, in the running storage and in the one a revert goes back to. */
  datatype Touched = Touched(current: nat, committed: nat)

  ghost function NextTouch(w: Wiring, s: System, a: Action, p: PoolId, t: Touched): Touched {
    match Effect(w, s, a)
    case Revert(_) => Touched(t.committed, t.committed)
    case Ok(_) =>
      if Touches(s, a, p) then t.(current := s.now)
      else if a.NextBlock? && s.frames == [] then t.(committed := t.current)
      else t
  }

  ghost function LastTouch(w: Wiring, s: System, actions: seq<Action>, p: PoolId, t: Touched): Touched
    decreases |actions|
  {
    if actions == [] then t
    else LastTouch(w, Step(w, s, actions[0]), actions[1..], p, NextTouch(w, s, actions[0], p, t))
  }

  predicate StampedAt(s: System, p: PoolId, t: Touched) {
    && Stamp(s.chain.oracle, p) == t.current <= s.now
    && Stamp(s.base.oracle, p) == t.committed <= s.now
  }

  /** Only a block between transactions moves the committed storage or the time, and the time by as much as it took. */
  lemma BaseAndTime(w: Wiring, s: System, a: Action)
    ensures var r := Effect(w, s, a);
      r.Ok? ==>
        if a.NextBlock? && s.frames == [] then r.value.base == s.chain && r.value.now == s.now + a.elapsed
        else r.value.base == s.base && r.value.now == s.now
  {
    match a
    case MoveTokens =>
    case TokenReturns =>
    case _ =>
  }

  lemma StepStamps(w: Wiring, s: System, a: Action, p: PoolId, t: Touched)
    requires Wired(w) && Legal(w, a) && StampedAt(s, p, t)
    ensures StampedAt(Step(w, s, a), p, NextTouch(w, s, a, p, t))
  {
    EffectStamps(w, s, a, p);
    BaseAndTime(w, s, a);
  }

  lemma {:induction false} RunStamps(w: Wiring, s: System, actions: seq<Action>, p: PoolId, t: Touched)
    requires Wired(w) && AllLegal(w, actions) && StampedAt(s, p, t)
    ensures StampedAt(Run(w, s, actions), p, LastTouch(w, s, actions, p, t))
    decreases |actions|
  {
    if actions != [] {
      StepStamps(w, s, actions[0], p, t);
      RunStamps(w, Step(w, s, actions[0]), actions[1..], p, NextTouch(w, s, actions[0], p, t));
    }
  }

  /** On every run a pool's stamp is the time of its last accepted deposit, withdrawal or setting, and never lies in the
      future. */
  lemma StampIsLastTouch(w: Wiring, now: nat, actions: seq<Action>, p: PoolId)
    requires Wired(w) && AllLegal(w, actions)
    ensures var s := Run(w, Genesis(now), actions);
      Stamp(s.chain.oracle, p) == LastTouch(w, Genesis(now), actions, p, Touched(0, 0)).current <= s.now
  {
    RunStamps(w, Genesis(now), actions, p, Touched(0, 0));
  }

  /** In particular a withdrawal that goes through, and a deposit that does, stamp the pool with their own time. */
  lemma FlowsStampNow(w: Wiring, s: System, u: Address, p: PoolId, amount: u256)
    requires u != w.vault
    ensures var r := S.Uninterrupted(w, s, BeginWithdraw(u, p, amount));
      r.Ok? ==> Stamp(r.value.chain.oracle, p) == s.now
    ensures var r := S.Uninterrupted(w, s, BeginDeposit(u, p, amount));
      r.Ok? ==> Stamp(r.value.chain.oracle, p) == s.now
  {
    S.WithdrawMoves(w, s, u, p, amount);
    S.DepositMoves(w, s, u, p, amount);
  }
}
