/**
 The guarantees the money side gives its users, in every state that any run reaches,
 including the states a token contract sees while the vault waits for it.
 */
module VaultSafety {
  import opened Base
  import opened Sums
  import opened VaultProtocol
  import opened VaultLedger

  function Share(s: System, u: Address, p: PoolId): nat {
    Get(s.chain.vault.balances, (u, p))
  }

  function Wallet(s: System, token: Address, u: Address): nat {
    Get(s.chain.tokens.balances, (token, u))
  }

  /** In every reachable state the shares of a pool add up to its supply and to the oracle's TVL. */
  lemma LedgersAgree(w: Wiring, now: nat, actions: seq<Action>, p: PoolId)
    requires Wired(w) && AllLegal(w, actions)
    ensures var c := Run(w, Genesis(now), actions).chain;
      Sum(Shares(c.vault, p)) == Supply(c.vault, p) == MetricsAt(c.oracle, p).tvl
  {
    GenesisIsGood(w, now);
    RunKeepsLedger(w, Genesis(now), actions);
  }

  /** In every reachable state the vault holds the supply of all pools of a token, and every
      further token it holds is in flight or was given to it. */
  lemma VaultIsSolvent(w: Wiring, now: nat, actions: seq<Action>, token: Address)
    requires Wired(w) && AllLegal(w, actions) && token != ZERO
    ensures var s := Run(w, Genesis(now), actions);
      var held, owed := Custody(w, s.chain.tokens, token), Sum(SuppliesIn(s.chain.vault, token));
      && held >= owed
      && held == owed + InFlight(s.frames, token) + Get(s.chain.tokens.gifts, token)
  {
    GenesisIsGood(w, now);
    RunKeepsLedger(w, Genesis(now), actions);
  }

  // ------------------------------------------------------ pool tokens are fixed

  ghost predicate KeepsTokens(before: VaultStore, after: VaultStore) {
    forall p: PoolId :: TokenOf(before, p) != ZERO ==> TokenOf(after, p) == TokenOf(before, p)
  }

  lemma EffectKeepsTokens(w: Wiring, s: System, a: Action)
    requires Good(w, s) && Legal(w, a)
    ensures var r := Effect(w, s, a); r.Ok? ==> KeepsTokens(s.chain.vault, r.value.chain.vault)
  {
    match a
    case DirectVaultAddPool(_, _, _) => DirectCallsRevert(w, s, a);
    case RegistryAddPool(_, _) => assert TokenOf(s.chain.vault, s.chain.registry.poolCount) == ZERO;
    case BeginWithdraw(_, _, _) =>
    case TokenReturns =>
    case _ => EffectKeepsVault(w, s, a);
  }

  /** Only these actions write the vault's storage. */
  lemma EffectKeepsVault(w: Wiring, s: System, a: Action)
    requires !a.DirectVaultAddPool? && !a.RegistryAddPool? && !a.BeginWithdraw? && !a.TokenReturns?
    ensures var r := Effect(w, s, a); r.Ok? ==> r.value.chain.vault == s.chain.vault
  {
    match a
    case MoveTokens =>
    case _ =>
  }

  lemma StepKeepsTokens(w: Wiring, s: System, a: Action)
    requires Good(w, s) && Legal(w, a) && KeepsTokens(s.base.vault, s.chain.vault)
    ensures var s' := Step(w, s, a);
      KeepsTokens(s.base.vault, s'.base.vault) && KeepsTokens(s'.base.vault, s'.chain.vault)
  {
    var r := Effect(w, s, a);
    if r.Ok? && !a.NextBlock? {
      EffectKeepsTokens(w, s, a);
      assert r.value.base == s.base;
    }
  }

  /** Registry ids are fresh: once a transaction has given a pool its token, no later run changes it. */
  lemma {:induction false} PoolTokenIsFixed(w: Wiring, s: System, actions: seq<Action>)
    requires Good(w, s) && AllLegal(w, actions) && KeepsTokens(s.base.vault, s.chain.vault)
    ensures KeepsTokens(s.base.vault, Run(w, s, actions).base.vault)
    ensures KeepsTokens(Run(w, s, actions).base.vault, Run(w, s, actions).chain.vault)
    decreases |actions|
  {
    if actions != [] {
      var s1 := Step(w, s, actions[0]);
      StepKeepsLedger(w, s, actions[0]);
      StepKeepsTokens(w, s, actions[0]);
      PoolTokenIsFixed(w, s1, actions[1..]);
      TokensStayKept(s.base.vault, s1.base.vault, Run(w, s1, actions[1..]).base.vault);
    }
  }

  lemma TokensStayKept(a: VaultStore, b: VaultStore, c: VaultStore)
    requires KeepsTokens(a, b) && KeepsTokens(b, c)
    ensures KeepsTokens(a, c)
  {
  }

  // --------------------------------------------------------------- withdrawals

  /** A share is only ever held in a registered pool, and never exceeds supply and TVL. */
  lemma ShareIsCovered(w: Wiring, s: System, u: Address, p: PoolId)
    requires Good(w, s)
    ensures Share(s, u, p) <= Supply(s.chain.vault, p) == MetricsAt(s.chain.oracle, p).tvl
    ensures Share(s, u, p) > 0 ==> TokenOf(s.chain.vault, p) != ZERO
  {
    SumAtLeast(Shares(s.chain.vault, p), (u, p));
    assert Get(Shares(s.chain.vault, p), (u, p)) == Share(s, u, p);
    assert Sum(Shares(s.chain.vault, p)) == Supply(s.chain.vault, p);
  }

  /** The call is accepted exactly for a real caller, an amount within the caller's share, and a
      registered pool; only an empty withdrawal can meet an unregistered one. */
  lemma WithdrawAcceptedIff(w: Wiring, s: System, caller: Address, p: PoolId, amount: u256)
    requires Good(w, s)
    ensures Effect(w, s, BeginWithdraw(caller, p, amount)).Ok?
       <==> caller != ZERO && amount <= Share(s, caller, p) && (amount > 0 || TokenOf(s.chain.vault, p) != ZERO)
  {
    ShareIsCovered(w, s, caller, p);
  }

  /** A call of the vault whose token moves the funds and returns without calling anybody. */
  ghost function Uninterrupted(w: Wiring, s: System, a: Action): Outcome<System> {
    var s1 :- Effect(w, s, a);
    var s2 :- MoveTop(w, s1);
    ReturnTop(w, s2)
  }

  lemma RunOfThree(w: Wiring, s: System, a: Action, b: Action, c: Action)
    ensures Run(w, s, [a, b, c]) == Step(w, Step(w, Step(w, s, a), b), c)
  {
    var s1, s2 := Step(w, s, a), Step(w, Step(w, s, a), b);
    assert [a, b, c][1..] == [b, c] && [b, c][1..] == [c] && [c][1..] == [];
    assert Run(w, s2, [c]) == Step(w, s2, c);
    assert Run(w, s1, [b, c]) == Run(w, s2, [c]);
  }

  /** The three steps of an uninterrupted call either all happen or leave the transaction's first state. */
  lemma UninterruptedIsRun(w: Wiring, s: System, a: Action)
    ensures Run(w, s, [a, MoveTokens, TokenReturns])
         == match Uninterrupted(w, s, a)
            case Ok(s') => s'
            case Revert(_) => System(s.base, [], s.base, s.now)
  {
    RunOfThree(w, s, a, MoveTokens, TokenReturns);
    var s1 := Step(w, s, a);
    var s2 := Step(w, s1, MoveTokens);
    assert Effect(w, s1, MoveTokens) == MoveTop(w, s1);
    assert Effect(w, s2, TokenReturns) == ReturnTop(w, s2);
  }

  /** `delta` moved from the wallet of `u` into the pool (out of it when negative), and the waiting calls are as
      before. */
  predicate Moved(w: Wiring, s: System, s': System, u: Address, p: PoolId, delta: int) {
    var token := TokenOf(s.chain.vault, p);
    && s'.frames == s.frames && s'.base == s.base && s'.now == s.now
    && s'.chain.registry == s.chain.registry && s'.chain.engine == s.chain.engine
    && s'.chain.vault.poolTokens == s.chain.vault.poolTokens
    && Share(s', u, p) == Share(s, u, p) + delta
    && Supply(s'.chain.vault, p) == Supply(s.chain.vault, p) + delta
    && MetricsAt(s'.chain.oracle, p).tvl == MetricsAt(s.chain.oracle, p).tvl + delta
    && MetricsAt(s'.chain.oracle, p).lastUpdate == s.now
    && Wallet(s', token, u) == Wallet(s, token, u) - delta
    && Wallet(s', token, w.vault) == Wallet(s, token, w.vault) + delta
  }

  ghost predicate SharesUntouched(a: Chain, b: Chain, u: Address, p: PoolId) {
    && (forall v: Address, q: PoolId :: (v, q) != (u, p) ==>
         Get(b.vault.balances, (v, q)) == Get(a.vault.balances, (v, q)))
    && (forall q: PoolId :: q != p ==>
          Supply(b.vault, q) == Supply(a.vault, q) && MetricsAt(b.oracle, q) == MetricsAt(a.oracle, q))
  }

  ghost predicate WalletsUntouched(a: Chain, b: Chain, token: Address, u: Address, v: Address) {
    forall t: Address, x: Address :: (t != token || (x != u && x != v)) ==>
      Get(b.tokens.balances, (t, x)) == Get(a.tokens.balances, (t, x))
  }

  /** No other share, supply, TVL or wallet is different. */
  ghost predicate OthersUntouched(w: Wiring, s: System, s': System, u: Address, p: PoolId) {
    && SharesUntouched(s.chain, s'.chain, u, p)
    && WalletsUntouched(s.chain, s'.chain, TokenOf(s.chain.vault, p), u, w.vault)
  }

  lemma MoveTouches(w: Wiring, s: System)
    requires s.frames != []
    ensures var r, f := MoveTop(w, s), s.frames[|s.frames| - 1];
      r.Ok? ==>
        && r.value.chain == s.chain.(tokens := r.value.chain.tokens)
        && |r.value.frames| == |s.frames| && r.value.frames[|s.frames| - 1] == f.(moved := true)
        && WalletsUntouched(s.chain, r.value.chain, f.token, f.user, w.vault)
  {
  }

  lemma ReturnTouches(w: Wiring, s: System)
    requires s.frames != [] && s.frames[|s.frames| - 1].moved
    ensures var r, f := ReturnTop(w, s), s.frames[|s.frames| - 1];
      r.Ok? ==> r.value.chain.tokens == s.chain.tokens && SharesUntouched(s.chain, r.value.chain, f.user, f.pool)
  {
  }

  lemma BeginTouches(w: Wiring, s: System, a: Action)
    requires a.BeginDeposit? || a.BeginWithdraw?
    ensures var r := Effect(w, s, a);
      r.Ok? ==>
        && r.value.chain.tokens == s.chain.tokens && SharesUntouched(s.chain, r.value.chain, a.caller, a.pool)
        && r.value.frames != []
        && var f := r.value.frames[|r.value.frames| - 1];
           f.user == a.caller && f.pool == a.pool && f.token == TokenOf(s.chain.vault, a.pool)
  {
  }

  lemma UninterruptedTouchesNobodyElse(w: Wiring, s: System, a: Action)
    requires a.BeginDeposit? || a.BeginWithdraw?
    ensures var r := Uninterrupted(w, s, a); r.Ok? ==> OthersUntouched(w, s, r.value, a.caller, a.pool)
  {
    if Uninterrupted(w, s, a).Ok? {
      BeginTouches(w, s, a);
      var s1 := Effect(w, s, a).value;
      MoveTouches(w, s1);
      var s2 := MoveTop(w, s1).value;
      ReturnTouches(w, s2);
      var s3 := ReturnTop(w, s2).value;
      SharesUntouchedTwice(s.chain, s1.chain, s3.chain, a.caller, a.pool);
    }
  }

  lemma SharesUntouchedTwice(a: Chain, b: Chain, c: Chain, u: Address, p: PoolId)
    requires SharesUntouched(a, b, u, p) && SharesUntouched(b, c, u, p)
    ensures SharesUntouched(a, c, u, p)
  {
  }

  /** After the debit of a withdrawal the transfer cannot fail, for want of custody or of room. */
  lemma PayoutNeverReverts(w: Wiring, s: System)
    requires Good(w, s)
    requires s.frames != [] && s.frames[|s.frames| - 1].direction == Out && !s.frames[|s.frames| - 1].moved
    ensures MoveTop(w, s).Ok?
  {
    var f := s.frames[|s.frames| - 1];
    assert FrameOk(w, s.chain.vault, f);
    assert InFlight(s.frames, f.token) >= f.amount;
    assert Custody(w, s.chain.tokens, f.token)
        == Sum(SuppliesIn(s.chain.vault, f.token)) + InFlight(s.frames, f.token) + Get(s.chain.tokens.gifts, f.token);
    TwoHoldersFit(s.chain, f.token, w.vault, f.user);
  }

  /** What an uninterrupted withdrawal does, once it goes through. */
  lemma WithdrawMoves(w: Wiring, s: System, u: Address, p: PoolId, amount: u256)
    requires u != w.vault
    ensures var r := Uninterrupted(w, s, BeginWithdraw(u, p, amount));
      r.Ok? ==>
        && Moved(w, s, r.value, u, p, -(amount as int))
        && r.value.chain.vault.events == s.chain.vault.events + [Withdrawal(u, p, amount)]
  {
    var entry := Effect(w, s, BeginWithdraw(u, p, amount));
    if entry.Ok? {
      var s1 := entry.value;
      assert s1.frames[|s1.frames| - 1] == Frame(Out, u, p, TokenOf(s.chain.vault, p), amount, false);
      assert s1.frames[..|s1.frames| - 1] == s.frames;
      var moved := MoveTop(w, s1);
      if moved.Ok? {
        assert moved.value.frames[..|s1.frames| - 1] == s.frames;
      }
    }
  }

  lemma WithdrawRuns(w: Wiring, s: System, u: Address, p: PoolId, amount: u256)
    requires Good(w, s) && External(w, u)
    requires Effect(w, s, BeginWithdraw(u, p, amount)).Ok?
    ensures var r := Uninterrupted(w, s, BeginWithdraw(u, p, amount)); r.Ok? && Good(w, r.value)
  {
    var s1 := Effect(w, s, BeginWithdraw(u, p, amount)).value;
    DebitKeeps(w, s, u, p, amount);
    PayoutNeverReverts(w, s1);
    MoveKeeps(w, s1);
    PaidOutKeeps(w, MoveTop(w, s1).value);
  }

  /** In every good state a user can withdraw any positive amount up to the own share: no step of the
      chained call reverts, and exactly that amount leaves the share, the supply, the TVL and the vault. */
  lemma WithdrawalAlwaysPossible(w: Wiring, s: System, u: Address, p: PoolId, amount: u256)
    requires Good(w, s) && External(w, u) && u != ZERO
    requires 0 < amount <= Share(s, u, p)
    ensures var r := Uninterrupted(w, s, BeginWithdraw(u, p, amount));
      && r.Ok? && Good(w, r.value)
      && Moved(w, s, r.value, u, p, -(amount as int))
      && r.value.chain.vault.events == s.chain.vault.events + [Withdrawal(u, p, amount)]
  {
    WithdrawAcceptedIff(w, s, u, p, amount);
    WithdrawRuns(w, s, u, p, amount);
    WithdrawMoves(w, s, u, p, amount);
  }

  // ------------------------------------------------------------------ deposits

  /** Crediting a deposit never overflows: the vault already holds the tokens it is about to credit. */
  lemma CreditNeverReverts(w: Wiring, s: System)
    requires Good(w, s)
    requires s.frames != [] && s.frames[|s.frames| - 1].direction == In && s.frames[|s.frames| - 1].moved
    ensures ReturnTop(w, s).Ok?
  {
    var f := s.frames[|s.frames| - 1];
    var c := s.chain;
    assert FrameOk(w, c.vault, f);
    ShareIsCovered(w, s, f.user, f.pool);
    SumAtLeast(SuppliesIn(c.vault, f.token), f.pool);
    SumAtLeast(Holdings(c.tokens, f.token), (f.token, w.vault));
    assert Custody(w, c.tokens, f.token)
        == Sum(SuppliesIn(c.vault, f.token)) + InFlight(s.frames, f.token) + Get(c.tokens.gifts, f.token);
  }

  /** What an uninterrupted deposit does, once it goes through. */
  lemma DepositMoves(w: Wiring, s: System, u: Address, p: PoolId, amount: u256)
    requires u != w.vault
    ensures var r := Uninterrupted(w, s, BeginDeposit(u, p, amount));
      r.Ok? ==>
        && Moved(w, s, r.value, u, p, amount)
        && r.value.chain.vault.events == s.chain.vault.events + [Deposit(u, p, amount)]
  {
    var entry := Effect(w, s, BeginDeposit(u, p, amount));
    if entry.Ok? {
      var s1 := entry.value;
      assert s1.frames[|s1.frames| - 1] == Frame(In, u, p, TokenOf(s.chain.vault, p), amount, false);
      var moved := MoveTop(w, s1);
      if moved.Ok? {
        assert moved.value.frames[..|s1.frames| - 1] == s.frames;
      }
    }
  }

  /** The token accepts the transfer exactly when the wallet covers it. */
  lemma DepositPullsIff(w: Wiring, s: System, u: Address, p: PoolId, amount: u256)
    requires Good(w, s) && External(w, u) && Effect(w, s, BeginDeposit(u, p, amount)).Ok?
    ensures var s1 := Effect(w, s, BeginDeposit(u, p, amount)).value;
      MoveTop(w, s1).Ok? <==> amount <= Wallet(s, TokenOf(s.chain.vault, p), u)
  {
    var s1 := Effect(w, s, BeginDeposit(u, p, amount)).value;
    assert s1.frames[|s1.frames| - 1] == Frame(In, u, p, TokenOf(s.chain.vault, p), amount, false);
    TwoHoldersFit(s.chain, TokenOf(s.chain.vault, p), w.vault, u);
  }

  /** Once the token has moved the funds the rest of the deposit goes through. */
  lemma DepositCompletes(w: Wiring, s: System, u: Address, p: PoolId, amount: u256)
    requires Good(w, s) && External(w, u) && Effect(w, s, BeginDeposit(u, p, amount)).Ok?
    ensures var s1 := Effect(w, s, BeginDeposit(u, p, amount)).value;
      var r := Uninterrupted(w, s, BeginDeposit(u, p, amount));
      (MoveTop(w, s1).Ok? <==> r.Ok?) && (r.Ok? ==> Good(w, r.value))
  {
    var s1 := Effect(w, s, BeginDeposit(u, p, amount)).value;
    assert s1.frames[|s1.frames| - 1] == Frame(In, u, p, TokenOf(s.chain.vault, p), amount, false);
    DepositOpensKeeps(w, s, u, p, amount);
    MoveKeeps(w, s1);
    if MoveTop(w, s1).Ok? {
      CreditNeverReverts(w, MoveTop(w, s1).value);
      CreditKeeps(w, MoveTop(w, s1).value);
    }
  }

  /** A deposit with a well-behaved token goes through exactly for a real caller, a positive amount,
      a registered pool and enough tokens in the caller's wallet. */
  lemma DepositSucceedsIff(w: Wiring, s: System, u: Address, p: PoolId, amount: u256)
    requires Good(w, s) && External(w, u)
    ensures var r := Uninterrupted(w, s, BeginDeposit(u, p, amount));
      var token := TokenOf(s.chain.vault, p);
      && (r.Ok? <==> u != ZERO && amount > 0 && token != ZERO && amount <= Wallet(s, token, u))
      && (r.Ok? ==>
            && Good(w, r.value)
            && Moved(w, s, r.value, u, p, amount)
            && r.value.chain.vault.events == s.chain.vault.events + [Deposit(u, p, amount)])
  {
    DepositMoves(w, s, u, p, amount);
    if Effect(w, s, BeginDeposit(u, p, amount)).Ok? {
      DepositPullsIff(w, s, u, p, amount);
      DepositCompletes(w, s, u, p, amount);
    }
  }

  /** Depositing and withdrawing the same amount gives every ledger its old values back. */
  lemma DepositThenWithdraw(w: Wiring, s: System, u: Address, p: PoolId, amount: u256)
    requires Good(w, s) && External(w, u)
    requires Uninterrupted(w, s, BeginDeposit(u, p, amount)).Ok?
    ensures var s1 := Uninterrupted(w, s, BeginDeposit(u, p, amount)).value;
      var r := Uninterrupted(w, s1, BeginWithdraw(u, p, amount));
      r.Ok? && Moved(w, s, r.value, u, p, 0) && OthersUntouched(w, s, r.value, u, p)
  {
    DepositSucceedsIff(w, s, u, p, amount);
    var s1 := Uninterrupted(w, s, BeginDeposit(u, p, amount)).value;
    WithdrawalAlwaysPossible(w, s1, u, p, amount);
    UninterruptedTouchesNobodyElse(w, s, BeginDeposit(u, p, amount));
    UninterruptedTouchesNobodyElse(w, s1, BeginWithdraw(u, p, amount));
    var s2 := Uninterrupted(w, s1, BeginWithdraw(u, p, amount)).value;
    MovedTwice(w, s, s1, s2, u, p, amount, -(amount as int));
    UntouchedTwice(w, s, s1, s2, u, p);
  }

  lemma UntouchedTwice(w: Wiring, a: System, b: System, c: System, u: Address, p: PoolId)
    requires OthersUntouched(w, a, b, u, p) && OthersUntouched(w, b, c, u, p)
    requires TokenOf(b.chain.vault, p) == TokenOf(a.chain.vault, p)
    ensures OthersUntouched(w, a, c, u, p)
  {
    SharesUntouchedTwice(a.chain, b.chain, c.chain, u, p);
  }

  lemma MovedTwice(w: Wiring, a: System, b: System, c: System, u: Address, p: PoolId, x: int, y: int)
    requires Moved(w, a, b, u, p, x) && Moved(w, b, c, u, p, y)
    ensures Moved(w, a, c, u, p, x + y)
  {
  }

  // ------------------------------------------------------------- everybody leaves

  /** A holder withdraws the whole share, if there is one. */
  ghost function Leave(w: Wiring, s: System, u: Address, p: PoolId): Outcome<System> {
    var share := Share(s, u, p);
    if share == 0 then Ok(s)
    else if share > U256_MAX then Revert("not an amount")
    else Uninterrupted(w, s, BeginWithdraw(u, p, share))
  }

  ghost function Exodus(w: Wiring, s: System, holders: seq<(Address, PoolId)>): Outcome<System>
    decreases |holders|
  {
    if holders == [] then Ok(s)
    else
      var s1 :- Leave(w, s, holders[0].0, holders[0].1);
      Exodus(w, s1, holders[1..])
  }

  lemma ShareIsAnAmount(w: Wiring, s: System, u: Address, p: PoolId)
    requires Good(w, s)
    ensures Share(s, u, p) <= U256_MAX
  {
    ShareIsCovered(w, s, u, p);
    var token := TokenOf(s.chain.vault, p);
    if token != ZERO {
      SumAtLeast(SuppliesIn(s.chain.vault, token), p);
      SumAtLeast(Holdings(s.chain.tokens, token), (token, w.vault));
      assert Custody(w, s.chain.tokens, token)
          == Sum(SuppliesIn(s.chain.vault, token)) + InFlight(s.frames, token) + Get(s.chain.tokens.gifts, token);
    }
  }

  /** Whoever has no share gets none. */
  ghost predicate NobodyGains(s: System, s': System) {
    forall v: Address, q: PoolId :: Share(s, v, q) == 0 ==> Share(s', v, q) == 0
  }

  lemma OneCanLeave(w: Wiring, s: System, u: Address, p: PoolId)
    requires Good(w, s) && External(w, u) && u != ZERO
    ensures Leave(w, s, u, p).Ok? && Good(w, Leave(w, s, u, p).value)
    ensures Share(Leave(w, s, u, p).value, u, p) == 0 && NobodyGains(s, Leave(w, s, u, p).value)
  {
    var share := Share(s, u, p);
    ShareIsAnAmount(w, s, u, p);
    if share > 0 {
      WithdrawalAlwaysPossible(w, s, u, p, share);
      UninterruptedTouchesNobodyElse(w, s, BeginWithdraw(u, p, share));
    }
  }

  /** From every good state all holders can leave, in any order, until none of them has a share left:
      nobody's withdrawal takes what another one is owed. */
  lemma {:induction false} EverybodyCanLeave(w: Wiring, s: System, holders: seq<(Address, PoolId)>)
    requires Good(w, s)
    requires forall i :: 0 <= i < |holders| ==> External(w, holders[i].0) && holders[i].0 != ZERO
    ensures Exodus(w, s, holders).Ok? && NobodyGains(s, Exodus(w, s, holders).value)
    ensures forall i :: 0 <= i < |holders| ==> Share(Exodus(w, s, holders).value, holders[i].0, holders[i].1) == 0
    decreases |holders|
  {
    if holders != [] {
      var (u, p) := holders[0];
      OneCanLeave(w, s, u, p);
      var s1 := Leave(w, s, u, p).value;
      EverybodyCanLeave(w, s1, holders[1..]);
      forall i | 0 <= i < |holders| ensures Share(Exodus(w, s, holders).value, holders[i].0, holders[i].1) == 0 {
        if i > 0 { assert holders[i] == holders[1..][i - 1]; }
      }
    }
  }

  /** In every state a run reaches, also inside a transaction, every positive amount of every share can be withdrawn. */
  lemma ReachableSharesCanLeave(w: Wiring, now: nat, actions: seq<Action>, u: Address, p: PoolId, amount: u256)
    requires Wired(w) && AllLegal(w, actions) && External(w, u) && u != ZERO
    requires 0 < amount <= Share(Run(w, Genesis(now), actions), u, p)
    ensures var s := Run(w, Genesis(now), actions);
      var s' := Run(w, s, [BeginWithdraw(u, p, amount), MoveTokens, TokenReturns]);
      Moved(w, s, s', u, p, -(amount as int)) && OthersUntouched(w, s, s', u, p)
  {
    GenesisIsGood(w, now);
    RunKeepsLedger(w, Genesis(now), actions);
    var s := Run(w, Genesis(now), actions);
    WithdrawalAlwaysPossible(w, s, u, p, amount);
    UninterruptedTouchesNobodyElse(w, s, BeginWithdraw(u, p, amount));
    UninterruptedIsRun(w, s, BeginWithdraw(u, p, amount));
  }

  // ------------------------------------------------ nobody touches your share

  /** The actions that may change the share of `u` in a pool. */
  predicate ActsFor(s: System, a: Action, u: Address) {
    match a
    case BeginWithdraw(caller, _, _) => caller == u
    case TokenReturns =>
      s.frames != [] && s.frames[|s.frames| - 1].direction == In && s.frames[|s.frames| - 1].user == u
    case _ => false
  }

  /** Shares change only on their owner's withdrawal or on the completion of their owner's deposit. */
  lemma OthersKeepYourShare(w: Wiring, s: System, a: Action, u: Address, p: PoolId)
    requires Good(w, s) && Legal(w, a) && !ActsFor(s, a, u)
    ensures var r := Effect(w, s, a); r.Ok? ==> Share(r.value, u, p) == Share(s, u, p)
  {
    match a
    case DirectVaultAddPool(_, _, _) => DirectCallsRevert(w, s, a);
    case RegistryAddPool(_, _) =>
    case BeginWithdraw(_, _, _) =>
    case TokenReturns =>
    case _ => EffectKeepsVault(w, s, a);
  }

  // ------------------------------------------------------------- administration

  /** A pool is added exactly by governance and with a token and a strategy; it gets the next id, which had no token,
      and its token in the registry and in the vault. */
  lemma PoolAddedIff(w: Wiring, s: System, caller: Address, pool: Pool)
    requires Good(w, s)
    ensures var r, id := Effect(w, s, RegistryAddPool(caller, pool)), s.chain.registry.poolCount;
      && (r.Ok? <==> caller == w.registryGovernance && pool.token != ZERO && pool.strategy != ZERO)
      && TokenOf(s.chain.vault, id) == ZERO
      && (r.Ok? ==>
            && r.value.chain.registry.poolCount == id + 1
            && PoolAt(r.value.chain.registry, id) == pool.(active := true)
            && TokenOf(r.value.chain.vault, id) == pool.token
            && forall q: PoolId :: q != id ==> PoolAt(r.value.chain.registry, q) == PoolAt(s.chain.registry, q))
  {
  }

  /** A pool's settings are changed exactly by governance and for a registered pool; token and strategy stay. */
  lemma PoolUpdatedIff(w: Wiring, s: System, caller: Address, p: PoolId, active: bool, minDeposit: u256,
                       maxCapacity: u256)
    requires Good(w, s)
    ensures var r := Effect(w, s, RegistryUpdatePool(caller, p, active, minDeposit, maxCapacity));
      && (r.Ok? <==> caller == w.registryGovernance && p < s.chain.registry.poolCount)
      && (r.Ok? ==>
            var before, after := PoolAt(s.chain.registry, p), PoolAt(r.value.chain.registry, p);
            && after == Pool(before.token, before.strategy, active, minDeposit, maxCapacity)
            && forall q: PoolId :: q != p ==> PoolAt(r.value.chain.registry, q) == PoolAt(s.chain.registry, q))
  {
    assert p < s.chain.registry.poolCount <==> TokenOf(s.chain.vault, p) != ZERO;
  }

  function Correlation(s: System, a: PoolId, b: PoolId): nat {
    Get(s.chain.oracle.correlations, (a, b))
  }

  /** A correlation is set exactly by governance and up to 100000; it reads the same in both orders,
      and no other pair changes. */
  lemma CorrelationSetIff(w: Wiring, s: System, caller: Address, a: PoolId, b: PoolId, x: u256)
    requires Good(w, s)
    ensures var r := Effect(w, s, OracleCorrelation(caller, a, b, x));
      && (r.Ok? <==> caller == w.oracleGovernance && x <= 100_000)
      && (r.Ok? ==>
            && Correlation(r.value, a, b) == Correlation(r.value, b, a) == x
            && forall c: PoolId, d: PoolId :: (c, d) != (a, b) && (c, d) != (b, a) ==>
                 Correlation(r.value, c, d) == Correlation(s, c, d))
  {
  }

  /** Governance sets a pool's volatility or yield rate; its TVL, the other figure and the other pools stay. */
  lemma MetricsSetIff(w: Wiring, s: System, caller: Address, p: PoolId, x: u256)
    requires Good(w, s)
    ensures var v, y := Effect(w, s, OracleVolatility(caller, p, x)), Effect(w, s, OracleYieldRate(caller, p, x));
      var m := MetricsAt(s.chain.oracle, p);
      && (v.Ok? <==> caller == w.oracleGovernance) && (y.Ok? <==> caller == w.oracleGovernance)
      && (v.Ok? ==> MetricsAt(v.value.chain.oracle, p) == PoolMetrics(m.tvl, x, m.yieldRate, s.now))
      && (y.Ok? ==> MetricsAt(y.value.chain.oracle, p) == PoolMetrics(m.tvl, m.volatility, x, s.now))
      && (v.Ok? ==> forall q: PoolId :: q != p ==> MetricsAt(v.value.chain.oracle, q) == MetricsAt(s.chain.oracle, q))
      && (y.Ok? ==> forall q: PoolId :: q != p ==> MetricsAt(y.value.chain.oracle, q) == MetricsAt(s.chain.oracle, q))
  {
  }

  /** What governance has set for a pool and for a pair of pools. */
  function Settings(o: OracleStore, p: PoolId, q: PoolId): (nat, nat, nat, nat) {
    (MetricsAt(o, p).volatility, MetricsAt(o, p).yieldRate, Get(o.correlations, (p, q)), Get(o.correlations, (q, p)))
  }

  /** Oracle governance sets one of them. */
  predicate Sets(w: Wiring, a: Action, p: PoolId, q: PoolId) {
    match a
    case OracleVolatility(caller, pool, _) => caller == w.oracleGovernance && pool == p
    case OracleYieldRate(caller, pool, _) => caller == w.oracleGovernance && pool == p
    case OracleCorrelation(caller, x, y, _) => caller == w.oracleGovernance && ((x, y) == (p, q) || (x, y) == (q, p))
    case _ => false
  }

  lemma FlowKeepsSettings(w: Wiring, o: OracleStore, caller: Address, pool: PoolId, amount: nat, isDeposit: bool,
                          now: nat, p: PoolId, q: PoolId)
    ensures var r := UpdatePoolMetrics(w, o, caller, pool, amount, isDeposit, now);
      r.Ok? ==> Settings(r.value, p, q) == Settings(o, p, q)
  {
  }

  lemma OthersKeepSettings(w: Wiring, o: OracleStore, caller: Address, a: PoolId, b: PoolId, x: nat, now: nat,
                           p: PoolId, q: PoolId)
    ensures var r := UpdateVolatility(w, o, caller, a, x, now); r.Ok? && a != p ==>
      Settings(r.value, p, q) == Settings(o, p, q)
    ensures var r := UpdateYieldRate(w, o, caller, a, x, now); r.Ok? && a != p ==>
      Settings(r.value, p, q) == Settings(o, p, q)
    ensures var r := UpdateCorrelation(w, o, caller, a, b, x);
      r.Ok? && (a, b) != (p, q) && (a, b) != (q, p) ==> Settings(r.value, p, q) == Settings(o, p, q)
  {
  }

  /** Only these actions write the oracle's storage. */
  predicate WritesOracle(a: Action) {
    || a.BeginWithdraw? || a.TokenReturns? || a.OracleVolatility? || a.OracleYieldRate? || a.OracleCorrelation?
    || a.DirectOnDeposit? || a.DirectOnWithdrawal? || a.DirectUpdateMetrics?
  }

  lemma EffectKeepsOracle(w: Wiring, s: System, a: Action)
    requires !WritesOracle(a)
    ensures var r := Effect(w, s, a); r.Ok? ==> r.value.chain.oracle == s.chain.oracle
  {
    match a
    case MoveTokens =>
    case _ =>
  }

  lemma EffectKeepsSettings(w: Wiring, s: System, a: Action, p: PoolId, q: PoolId)
    requires !Sets(w, a, p, q)
    ensures var r := Effect(w, s, a); r.Ok? ==> Settings(r.value.chain.oracle, p, q) == Settings(s.chain.oracle, p, q)
  {
    var o := s.chain.oracle;
    match a
    case BeginWithdraw(_, pool, amount) => FlowKeepsSettings(w, o, w.engine, pool, amount, false, s.now, p, q);
    case TokenReturns =>
      if s.frames != [] {
        var f := s.frames[|s.frames| - 1];
        FlowKeepsSettings(w, o, w.engine, f.pool, f.amount, true, s.now, p, q);
      }
    case OracleVolatility(caller, pool, x) => OthersKeepSettings(w, o, caller, pool, pool, x, s.now, p, q);
    case OracleYieldRate(caller, pool, x) => OthersKeepSettings(w, o, caller, pool, pool, x, s.now, p, q);
    case OracleCorrelation(caller, x, y, c) => OthersKeepSettings(w, o, caller, x, y, c, s.now, p, q);
    case DirectOnDeposit(_, pool, amount) => FlowKeepsSettings(w, o, w.engine, pool, amount, true, s.now, p, q);
    case DirectOnWithdrawal(_, pool, amount) => FlowKeepsSettings(w, o, w.engine, pool, amount, false, s.now, p, q);
    case DirectUpdateMetrics(caller, pool, amount, isDeposit) =>
      FlowKeepsSettings(w, o, caller, pool, amount, isDeposit, s.now, p, q);
    case _ => EffectKeepsOracle(w, s, a);
  }

  /** Deposits, withdrawals and everybody else leave governance's settings alone, on every run. */
  lemma {:induction false} SettingsAreGovernances(w: Wiring, s: System, actions: seq<Action>, p: PoolId, q: PoolId)
    requires Settings(s.chain.oracle, p, q) == Settings(s.base.oracle, p, q)
    requires forall i :: 0 <= i < |actions| ==> !Sets(w, actions[i], p, q)
    ensures var s' := Run(w, s, actions);
      Settings(s'.chain.oracle, p, q) == Settings(s'.base.oracle, p, q) == Settings(s.base.oracle, p, q)
    decreases |actions|
  {
    if actions != [] {
      EffectKeepsSettings(w, s, actions[0], p, q);
      var s1 := Step(w, s, actions[0]);
      assert s1.base == s.base || s1.base == s.chain;
      SettingsAreGovernances(w, s1, actions[1..], p, q);
    }
  }
}
