/**
 What every step of the money side keeps: shares, supply and the oracle's TVL agree in
 every pool, and the vault holds exactly the tokens it owes.
 */
module VaultLedger {
  import opened Base
  import opened Sums
  import opened VaultProtocol

  // ------------------------------------------------------------ the invariant

  ghost function Shares(v: VaultStore, p: PoolId): map<(Address, PoolId), nat> {
    map k | k in v.balances && k.1 == p :: v.balances[k]
  }

  function Supply(v: VaultStore, p: PoolId): nat {
    Get(v.totalSupply, p)
  }

  /** The supplies of the pools that use one token. */
  ghost function SuppliesIn(v: VaultStore, token: Address): map<PoolId, nat> {
    map p | p in v.totalSupply && TokenOf(v, p) == token :: v.totalSupply[p]
  }

  function Custody(w: Wiring, t: TokenStore, token: Address): nat {
    Get(t.balances, (token, w.vault))
  }

  /** Funds in the vault that belong to no share: paid in but not credited yet, or debited but not paid out yet. */
  function InFlight(frames: seq<Frame>, token: Address): nat {
    if frames == [] then 0
    else
      var f := frames[|frames| - 1];
      InFlight(frames[..|frames| - 1], token) +
      if f.token == token && (f.direction == In <==> f.moved) then f.amount else 0
  }

  /** Sum of shares == total supply == oracle TVL, pool by pool. */
  ghost predicate Balanced(c: Chain) {
    forall p: PoolId :: Sum(Shares(c.vault, p)) == Supply(c.vault, p) == MetricsAt(c.oracle, p).tvl
  }

  /** Pool ids are dense, registry and vault name the same token, and only registered pools hold shares or run
      strategies. */
  ghost predicate Registered(c: Chain) {
    forall p: PoolId ::
      && (p < c.registry.poolCount <==> TokenOf(c.vault, p) != ZERO)
      && PoolAt(c.registry, p).token == TokenOf(c.vault, p)
      && (TokenOf(c.vault, p) == ZERO ==> Supply(c.vault, p) == 0 && !PoolAt(c.registry, p).active)
  }

  /** The vault's balance in a token is the supply of the token's pools, plus what is in flight, plus gifts. */
  ghost predicate Backed(w: Wiring, c: Chain, frames: seq<Frame>) {
    forall t | t != ZERO ::
      Custody(w, c.tokens, t) == Sum(SuppliesIn(c.vault, t)) + InFlight(frames, t) + Get(c.tokens.gifts, t)
  }

  ghost predicate TokensFit(c: Chain) {
    forall t :: Sum(Holdings(c.tokens, t)) <= U256_MAX
  }

  predicate FrameOk(w: Wiring, v: VaultStore, f: Frame) {
    && External(w, f.user) && f.user != ZERO
    && f.token == TokenOf(v, f.pool) != ZERO
  }

  predicate FramesOk(w: Wiring, v: VaultStore, frames: seq<Frame>) {
    forall i :: 0 <= i < |frames| ==> FrameOk(w, v, frames[i])
  }

  ghost predicate Symmetric(o: OracleStore) {
    forall a, b :: Get(o.correlations, (a, b)) == Get(o.correlations, (b, a)) <= 100_000
  }

  ghost predicate Ledger(w: Wiring, c: Chain, frames: seq<Frame>) {
    && Balanced(c)
    && Registered(c)
    && Backed(w, c, frames)
    && TokensFit(c)
    && FramesOk(w, c.vault, frames)
    && Symmetric(c.oracle)
  }

  /** Between transactions and inside them, and also in the storage a revert goes back to. */
  ghost predicate Good(w: Wiring, s: System) {
    && Wired(w)
    && Ledger(w, s.chain, s.frames)
    && Ledger(w, s.base, [])
  }

  // --------------------------------------------- how writes change the sums

  lemma SharesPut(v: VaultStore, v': VaultStore, u: Address, p: PoolId, b: nat, q: PoolId)
    requires v'.balances == v.balances[(u, p) := b]
    ensures Sum(Shares(v', q)) + (if q == p then Get(v.balances, (u, p)) else 0)
         == Sum(Shares(v, q)) + (if q == p then b else 0)
  {
    if q == p {
      assert Shares(v', q) == Shares(v, q)[(u, p) := b];
      SumPut(Shares(v, q), (u, p), b);
      assert Get(Shares(v, q), (u, p)) == Get(v.balances, (u, p));
    } else {
      assert Shares(v', q) == Shares(v, q);
    }
  }

  lemma SuppliesPut(v: VaultStore, v': VaultStore, p: PoolId, n: nat, token: Address)
    requires v'.totalSupply == v.totalSupply[p := n] && v'.poolTokens == v.poolTokens
    ensures Sum(SuppliesIn(v', token)) + (if TokenOf(v, p) == token then Supply(v, p) else 0)
         == Sum(SuppliesIn(v, token)) + (if TokenOf(v, p) == token then n else 0)
  {
    if TokenOf(v, p) == token {
      assert SuppliesIn(v', token) == SuppliesIn(v, token)[p := n];
      SumPut(SuppliesIn(v, token), p, n);
    } else {
      assert SuppliesIn(v', token) == SuppliesIn(v, token);
    }
  }

  /** Giving a token to a pool without shares moves no supply. */
  lemma SuppliesRegister(v: VaultStore, v': VaultStore, p: PoolId, given: Address, token: Address)
    requires v'.totalSupply == v.totalSupply && v'.poolTokens == v.poolTokens[p := given]
    requires TokenOf(v, p) == ZERO && Supply(v, p) == 0 && token != ZERO
    ensures Sum(SuppliesIn(v', token)) == Sum(SuppliesIn(v, token))
  {
    if given == token && p in v.totalSupply {
      assert SuppliesIn(v', token) == SuppliesIn(v, token)[p := 0];
      SumPut(SuppliesIn(v, token), p, 0);
    } else {
      assert SuppliesIn(v', token) == SuppliesIn(v, token);
    }
  }

  lemma HoldingsPut(t: TokenStore, t': TokenStore, token: Address, holder: Address, b: nat, other: Address)
    requires t'.balances == t.balances[(token, holder) := b]
    ensures Sum(Holdings(t', other)) + (if other == token then Get(t.balances, (token, holder)) else 0)
         == Sum(Holdings(t, other)) + (if other == token then b else 0)
  {
    if other == token {
      assert Holdings(t', other) == Holdings(t, other)[(token, holder) := b];
      SumPut(Holdings(t, other), (token, holder), b);
    } else {
      assert Holdings(t', other) == Holdings(t, other);
    }
  }

  /** A transfer conserves every token. */
  lemma TransferConserves(t: TokenStore, token: Address, from: Address, to: Address, amount: nat, other: Address)
    ensures var r := TokenTransfer(t, token, from, to, amount);
      r.Ok? ==> Sum(Holdings(r.value, other)) == Sum(Holdings(t, other))
  {
    var r := TokenTransfer(t, token, from, to, amount);
    if r.Ok? {
      var mid := t.(balances := t.balances[(token, from) := Get(t.balances, (token, from)) - amount]);
      HoldingsPut(t, mid, token, from, Get(t.balances, (token, from)) - amount, other);
      HoldingsPut(mid, r.value, token, to, Get(mid.balances, (token, to)) + amount, other);
    }
  }

  /** Two holders of a token never have more than a u256 between them. */
  lemma TwoHoldersFit(c: Chain, token: Address, a: Address, b: Address)
    requires TokensFit(c) && a != b
    ensures Get(c.tokens.balances, (token, a)) + Get(c.tokens.balances, (token, b)) <= U256_MAX
  {
    SumAtLeastTwo(Holdings(c.tokens, token), (token, a), (token, b));
  }

  // ----------------------------------------------------- what each step keeps

  lemma CreditBalances(w: Wiring, c: Chain, u: Address, p: PoolId, amount: nat, now: nat)
    requires Balanced(c)
    ensures var r := DepositCredit(w, c.vault, c.oracle, u, p, amount, now);
      r.Ok? ==> Balanced(c.(vault := r.value.0, oracle := r.value.1))
  {
    var r := DepositCredit(w, c.vault, c.oracle, u, p, amount, now);
    if r.Ok? {
      var (v, o) := r.value;
      forall q: PoolId ensures Sum(Shares(v, q)) == Supply(v, q) == MetricsAt(o, q).tvl {
        SharesPut(c.vault, v, u, p, Get(c.vault.balances, (u, p)) + amount, q);
      }
    }
  }

  lemma DebitBalances(w: Wiring, c: Chain, u: Address, p: PoolId, amount: nat, now: nat)
    requires Balanced(c)
    ensures var r := WithdrawDebit(w, c.vault, c.oracle, u, p, amount, now);
      r.Ok? ==> Balanced(c.(vault := r.value.0, oracle := r.value.1))
  {
    var r := WithdrawDebit(w, c.vault, c.oracle, u, p, amount, now);
    if r.Ok? {
      var (v, o) := r.value;
      forall q: PoolId ensures Sum(Shares(v, q)) == Supply(v, q) == MetricsAt(o, q).tvl {
        SharesPut(c.vault, v, u, p, Get(c.vault.balances, (u, p)) - amount, q);
      }
    }
  }

  /** A supply that changes together with the funds in flight leaves the token backed. */
  lemma SupplyMovesBacking(w: Wiring, c: Chain, v: VaultStore, frames: seq<Frame>, frames': seq<Frame>, p: PoolId,
                           n: nat)
    requires Backed(w, c, frames)
    requires v.totalSupply == c.vault.totalSupply[p := n] && v.poolTokens == c.vault.poolTokens
    requires forall t :: InFlight(frames', t) + (if t == TokenOf(v, p) then n else 0)
                      == InFlight(frames, t) + (if t == TokenOf(v, p) then Supply(c.vault, p) else 0)
    ensures Backed(w, c.(vault := v), frames')
  {
    forall t | t != ZERO
      ensures Custody(w, c.tokens, t) == Sum(SuppliesIn(v, t)) + InFlight(frames', t) + Get(c.tokens.gifts, t)
    {
      SuppliesPut(c.vault, v, p, n, t);
    }
  }

  lemma CreditRegistered(w: Wiring, c: Chain, u: Address, p: PoolId, amount: nat, now: nat)
    requires Registered(c) && TokenOf(c.vault, p) != ZERO
    ensures var r := DepositCredit(w, c.vault, c.oracle, u, p, amount, now);
      r.Ok? ==> Registered(c.(vault := r.value.0)) && r.value.1.correlations == c.oracle.correlations
  {
    var r := DepositCredit(w, c.vault, c.oracle, u, p, amount, now);
    if r.Ok? {
      forall q: PoolId
        ensures TokenOf(r.value.0, q) == TokenOf(c.vault, q) && (q != p ==> Supply(r.value.0, q) == Supply(c.vault, q))
      {
      }
    }
  }

  lemma CreditBacks(w: Wiring, c: Chain, frames: seq<Frame>, now: nat)
    requires Backed(w, c, frames) && frames != []
    requires var f := frames[|frames| - 1]; f.direction == In && f.moved && f.token == TokenOf(c.vault, f.pool)
    ensures var n := |frames| - 1;
      var f := frames[n];
      var r := DepositCredit(w, c.vault, c.oracle, f.user, f.pool, f.amount, now);
      r.Ok? ==> Backed(w, c.(vault := r.value.0), frames[..n])
  {
    var n := |frames| - 1;
    var f := frames[n];
    var r := DepositCredit(w, c.vault, c.oracle, f.user, f.pool, f.amount, now);
    if r.Ok? {
      SupplyMovesBacking(w, c, r.value.0, frames, frames[..n], f.pool, Supply(c.vault, f.pool) + f.amount);
    }
  }

  lemma CreditKeeps(w: Wiring, s: System)
    requires Good(w, s)
    requires s.frames != [] && s.frames[|s.frames| - 1].direction == In && s.frames[|s.frames| - 1].moved
    ensures var r := ReturnTop(w, s); r.Ok? ==> Good(w, r.value)
  {
    var r := ReturnTop(w, s);
    if r.Ok? {
      var n := |s.frames| - 1;
      var f, c, c' := s.frames[n], s.chain, r.value.chain;
      assert FrameOk(w, c.vault, f);
      CreditBalances(w, c, f.user, f.pool, f.amount, s.now);
      CreditBacks(w, c, s.frames, s.now);
      CreditRegistered(w, c, f.user, f.pool, f.amount, s.now);
      forall i | 0 <= i < n ensures FrameOk(w, c'.vault, s.frames[..n][i]) {
        assert FrameOk(w, c.vault, s.frames[i]);
      }
      assert Balanced(c') && Registered(c') && Backed(w, c', s.frames[..n]) && TokensFit(c') && Symmetric(c'.oracle);
    }
  }

  /** The end of a withdrawal writes the log only, and nothing of it is in flight any more. */
  lemma PaidOutBacks(w: Wiring, c: Chain, v: VaultStore, frames: seq<Frame>)
    requires Backed(w, c, frames) && frames != []
    requires frames[|frames| - 1].direction == Out && frames[|frames| - 1].moved
    requires v == c.vault.(events := v.events)
    ensures Backed(w, c.(vault := v), frames[..|frames| - 1])
  {
    var n := |frames| - 1;
    forall t | t != ZERO
      ensures Custody(w, c.tokens, t) == Sum(SuppliesIn(v, t)) + InFlight(frames[..n], t) + Get(c.tokens.gifts, t)
    {
      assert SuppliesIn(v, t) == SuppliesIn(c.vault, t);
      assert InFlight(frames[..n], t) == InFlight(frames, t);
    }
  }

  lemma LogKeepsBooks(c: Chain, v: VaultStore)
    requires Balanced(c) && Registered(c) && v == c.vault.(events := v.events)
    ensures Balanced(c.(vault := v)) && Registered(c.(vault := v))
  {
    forall q: PoolId
      ensures Shares(v, q) == Shares(c.vault, q) && Supply(v, q) == Supply(c.vault, q)
        && TokenOf(v, q) == TokenOf(c.vault, q)
    {
    }
  }

  lemma PaidOutKeeps(w: Wiring, s: System)
    requires Good(w, s)
    requires s.frames != [] && s.frames[|s.frames| - 1].direction == Out && s.frames[|s.frames| - 1].moved
    ensures var r := ReturnTop(w, s); r.Ok? && Good(w, r.value)
  {
    var n := |s.frames| - 1;
    var c, c' := s.chain, ReturnTop(w, s).value.chain;
    LogKeepsBooks(c, c'.vault);
    PaidOutBacks(w, c, c'.vault, s.frames);
    forall i | 0 <= i < n ensures FrameOk(w, c'.vault, s.frames[..n][i]) {
      assert FrameOk(w, c.vault, s.frames[i]);
    }
  }

  lemma PushFlow(frames: seq<Frame>, f: Frame, t: Address)
    ensures InFlight(frames + [f], t)
         == InFlight(frames, t) + if f.token == t && (f.direction == In <==> f.moved) then f.amount else 0
  {
    assert (frames + [f])[..|frames|] == frames;
  }

  lemma DebitBacks(w: Wiring, c: Chain, frames: seq<Frame>, u: Address, p: PoolId, amount: nat, now: nat)
    requires Backed(w, c, frames)
    ensures var r := WithdrawDebit(w, c.vault, c.oracle, u, p, amount, now);
      r.Ok? ==> Backed(w, c.(vault := r.value.0), frames + [Frame(Out, u, p, TokenOf(c.vault, p), amount, false)])
  {
    var r := WithdrawDebit(w, c.vault, c.oracle, u, p, amount, now);
    if r.Ok? {
      var f := Frame(Out, u, p, TokenOf(c.vault, p), amount, false);
      forall t
        ensures InFlight(frames + [f], t) == InFlight(frames, t) + if t == TokenOf(c.vault, p) then amount else 0
      {
        PushFlow(frames, f, t);
      }
      SupplyMovesBacking(w, c, r.value.0, frames, frames + [f], p, Supply(c.vault, p) - amount);
    }
  }

  lemma DebitRegistered(w: Wiring, c: Chain, u: Address, p: PoolId, amount: nat, now: nat)
    requires Registered(c)
    ensures var r := WithdrawDebit(w, c.vault, c.oracle, u, p, amount, now);
      r.Ok? ==> Registered(c.(vault := r.value.0)) && r.value.1.correlations == c.oracle.correlations
  {
    var r := WithdrawDebit(w, c.vault, c.oracle, u, p, amount, now);
    if r.Ok? {
      forall q: PoolId
        ensures TokenOf(r.value.0, q) == TokenOf(c.vault, q) && (q != p ==> Supply(r.value.0, q) == Supply(c.vault, q))
      {
      }
    }
  }

  lemma DebitKeeps(w: Wiring, s: System, caller: Address, p: PoolId, amount: u256)
    requires Good(w, s) && External(w, caller)
    ensures var r := Effect(w, s, BeginWithdraw(caller, p, amount)); r.Ok? ==> Good(w, r.value)
  {
    var r := Effect(w, s, BeginWithdraw(caller, p, amount));
    if r.Ok? {
      var c, c', frames' := s.chain, r.value.chain, r.value.frames;
      DebitBalances(w, c, caller, p, amount, s.now);
      DebitBacks(w, c, s.frames, caller, p, amount, s.now);
      DebitRegistered(w, c, caller, p, amount, s.now);
      forall i | 0 <= i < |frames'| ensures FrameOk(w, c'.vault, frames'[i]) {
        if i < |s.frames| { assert FrameOk(w, c.vault, s.frames[i]); }
      }
      assert Balanced(c') && Registered(c') && Backed(w, c', frames') && TokensFit(c') && Symmetric(c'.oracle);
    }
  }

  lemma DepositOpensKeeps(w: Wiring, s: System, caller: Address, p: PoolId, amount: u256)
    requires Good(w, s) && External(w, caller)
    ensures var r := Effect(w, s, BeginDeposit(caller, p, amount)); r.Ok? ==> Good(w, r.value)
  {
    var r := Effect(w, s, BeginDeposit(caller, p, amount));
    if r.Ok? {
      var frames' := r.value.frames;
      assert frames'[..|frames'| - 1] == s.frames;
      assert forall t :: InFlight(frames', t) == InFlight(s.frames, t);
    }
  }

  /** Moving the funds changes custody and what is in flight by the same amount. */
  lemma MoveMovesCustody(w: Wiring, s: System, t: Address)
    requires s.frames != [] && !s.frames[|s.frames| - 1].moved && s.frames[|s.frames| - 1].user != w.vault
    ensures var r := MoveTop(w, s);
      r.Ok? ==>
        Custody(w, r.value.chain.tokens, t) + InFlight(s.frames, t) ==
          Custody(w, s.chain.tokens, t) + InFlight(r.value.frames, t)
  {
    var r := MoveTop(w, s);
    if r.Ok? {
      var n := |s.frames| - 1;
      assert r.value.frames[..n] == s.frames[..n];
    }
  }

  lemma MoveConserves(w: Wiring, s: System, t: Address)
    requires s.frames != []
    ensures var r := MoveTop(w, s); r.Ok? ==> Sum(Holdings(r.value.chain.tokens, t)) == Sum(Holdings(s.chain.tokens, t))
  {
    var f := s.frames[|s.frames| - 1];
    if f.direction == In {
      TransferConserves(s.chain.tokens, f.token, f.user, w.vault, f.amount, t);
    } else {
      TransferConserves(s.chain.tokens, f.token, w.vault, f.user, f.amount, t);
    }
  }

  lemma MoveKeeps(w: Wiring, s: System)
    requires Good(w, s)
    ensures var r := MoveTop(w, s); r.Ok? ==> Good(w, r.value)
  {
    var r := MoveTop(w, s);
    if r.Ok? && r.value != s {
      var n := |s.frames| - 1;
      var c, c', frames' := s.chain, r.value.chain, r.value.frames;
      assert FrameOk(w, c.vault, s.frames[n]);
      forall t ensures Sum(Holdings(c'.tokens, t)) <= U256_MAX {
        MoveConserves(w, s, t);
      }
      forall t | t != ZERO
        ensures Custody(w, c'.tokens, t)
             == Sum(SuppliesIn(c'.vault, t)) + InFlight(frames', t) + Get(c'.tokens.gifts, t)
      {
        MoveMovesCustody(w, s, t);
      }
      forall i | 0 <= i < |frames'| ensures FrameOk(w, c'.vault, frames'[i]) {
        assert FrameOk(w, c.vault, s.frames[i]);
      }
    }
  }

  /** A payment from elsewhere raises the vault's balance by what it books as a gift. */
  lemma PayMovesCustody(w: Wiring, k: TokenStore, token: Address, from: Address, to: Address, amount: nat, t: Address)
    requires from != w.vault && TokenTransfer(k, token, from, to, amount).Ok?
    ensures var k' := Gift(w, TokenTransfer(k, token, from, to, amount).value, token, to, amount);
      Custody(w, k', t) + Get(k.gifts, t) == Custody(w, k, t) + Get(k'.gifts, t)
  {
  }

  lemma PayKeeps(w: Wiring, s: System, token: Address, from: Address, to: Address, amount: u256)
    requires Good(w, s) && from != w.vault
    ensures var r := Effect(w, s, Pay(token, from, to, amount)); r.Ok? ==> Good(w, r.value)
  {
    var r := Effect(w, s, Pay(token, from, to, amount));
    if r.Ok? {
      var c, k' := s.chain, r.value.chain.tokens;
      forall t ensures Sum(Holdings(k', t)) <= U256_MAX {
        TransferConserves(c.tokens, token, from, to, amount, t);
        assert Holdings(k', t) == Holdings(TokenTransfer(c.tokens, token, from, to, amount).value, t);
      }
      forall t | t != ZERO
        ensures Custody(w, k', t) == Sum(SuppliesIn(c.vault, t)) + InFlight(s.frames, t) + Get(k'.gifts, t)
      {
        PayMovesCustody(w, c.tokens, token, from, to, amount, t);
      }
    }
  }

  lemma MintMovesCustody(w: Wiring, k: TokenStore, token: Address, to: Address, amount: nat, t: Address)
    requires TokenMint(k, token, to, amount).Ok?
    ensures var k' := Gift(w, TokenMint(k, token, to, amount).value, token, to, amount);
      && Custody(w, k', t) + Get(k.gifts, t) == Custody(w, k, t) + Get(k'.gifts, t)
      && Sum(Holdings(k', t)) == Sum(Holdings(k, t)) + if t == token then amount else 0
  {
    var k' := Gift(w, TokenMint(k, token, to, amount).value, token, to, amount);
    HoldingsPut(k, k', token, to, Get(k.balances, (token, to)) + amount, t);
  }

  lemma MintKeeps(w: Wiring, s: System, token: Address, to: Address, amount: u256)
    requires Good(w, s)
    ensures var r := Effect(w, s, Mint(token, to, amount)); r.Ok? ==> Good(w, r.value)
  {
    var r := Effect(w, s, Mint(token, to, amount));
    if r.Ok? {
      var c, k' := s.chain, r.value.chain.tokens;
      forall t ensures Sum(Holdings(k', t)) <= U256_MAX {
        MintMovesCustody(w, c.tokens, token, to, amount, t);
      }
      forall t | t != ZERO
        ensures Custody(w, k', t) == Sum(SuppliesIn(c.vault, t)) + InFlight(s.frames, t) + Get(k'.gifts, t)
      {
        MintMovesCustody(w, c.tokens, token, to, amount, t);
      }
    }
  }

  lemma AddPoolKeeps(w: Wiring, s: System, caller: Address, pool: Pool)
    requires Good(w, s)
    ensures var r := Effect(w, s, RegistryAddPool(caller, pool)); r.Ok? ==> Good(w, r.value)
  {
    var r := Effect(w, s, RegistryAddPool(caller, pool));
    if r.Ok? {
      var c, c' := s.chain, r.value.chain;
      assert TokenOf(c.vault, c.registry.poolCount) == ZERO;
      forall q: PoolId
        ensures q < c'.registry.poolCount <==> TokenOf(c'.vault, q) != ZERO
        ensures PoolAt(c'.registry, q).token == TokenOf(c'.vault, q)
        ensures TokenOf(c'.vault, q) == ZERO ==> Supply(c'.vault, q) == 0 && !PoolAt(c'.registry, q).active
      {
        assert q < c.registry.poolCount <==> TokenOf(c.vault, q) != ZERO;
      }
      assert forall q: PoolId :: Shares(c'.vault, q) == Shares(c.vault, q);
      forall t | t != ZERO
        ensures Custody(w, c'.tokens, t)
             == Sum(SuppliesIn(c'.vault, t)) + InFlight(s.frames, t) + Get(c'.tokens.gifts, t)
      {
        SuppliesRegister(c.vault, c'.vault, c.registry.poolCount, pool.token, t);
      }
      forall i | 0 <= i < |s.frames| ensures FrameOk(w, c'.vault, s.frames[i]) {
        assert FrameOk(w, c.vault, s.frames[i]);
      }
    }
  }

  lemma CorrelationStaysSymmetric(w: Wiring, o: OracleStore, caller: Address, a: PoolId, b: PoolId, x: nat)
    requires Symmetric(o)
    ensures var r := UpdateCorrelation(w, o, caller, a, b, x);
      r.Ok? ==> Symmetric(r.value) && r.value.poolMetrics == o.poolMetrics
  {
  }

  lemma CorrelationKeeps(w: Wiring, s: System, caller: Address, a: PoolId, b: PoolId, x: u256)
    requires Good(w, s)
    ensures var r := Effect(w, s, OracleCorrelation(caller, a, b, x)); r.Ok? ==> Good(w, r.value)
  {
    var r := Effect(w, s, OracleCorrelation(caller, a, b, x));
    if r.Ok? {
      CorrelationStaysSymmetric(w, s.chain.oracle, caller, a, b, x);
      assert Balanced(r.value.chain) by {
        assert forall q: PoolId :: MetricsAt(r.value.chain.oracle, q) == MetricsAt(s.chain.oracle, q);
      }
    }
  }

  /** Nothing but settings is different. */
  ghost predicate OnlySettings(c: Chain, c': Chain) {
    && c'.vault == c.vault && c'.tokens == c.tokens && c'.oracle.correlations == c.oracle.correlations
    && c'.registry.poolCount == c.registry.poolCount
    && forall q: PoolId ::
      && MetricsAt(c'.oracle, q).tvl == MetricsAt(c.oracle, q).tvl
      && PoolAt(c'.registry, q).token == PoolAt(c.registry, q).token
      && (PoolAt(c'.registry, q).active ==> PoolAt(c.registry, q).active || PoolAt(c.registry, q).token != ZERO)
  }

  lemma SettingsKeepLedger(w: Wiring, c: Chain, c': Chain, frames: seq<Frame>)
    requires Ledger(w, c, frames) && OnlySettings(c, c')
    ensures Ledger(w, c', frames)
  {
  }

  /** Governance's settings touch neither shares nor tokens. */
  lemma SettingsChange(w: Wiring, s: System, a: Action)
    requires a.RegistryUpdatePool? || a.OracleVolatility? || a.OracleYieldRate? || a.EngineRebalance?
    ensures var r := Effect(w, s, a); r.Ok? ==>
      r.value == s.(chain := r.value.chain) && OnlySettings(s.chain, r.value.chain)
  {
  }

  lemma SettingsKeep(w: Wiring, s: System, a: Action)
    requires Good(w, s)
    requires a.RegistryUpdatePool? || a.OracleVolatility? || a.OracleYieldRate? || a.EngineRebalance?
    ensures var r := Effect(w, s, a); r.Ok? ==> Good(w, r.value)
  {
    SettingsChange(w, s, a);
    if Effect(w, s, a).Ok? {
      SettingsKeepLedger(w, s.chain, Effect(w, s, a).value.chain, s.frames);
    }
  }

  /** The entry points that serve one contract only refuse everybody else. */
  lemma DirectCallsRevert(w: Wiring, s: System, a: Action)
    requires Wired(w) && Legal(w, a)
    requires a.DirectVaultAddPool? || a.DirectOnDeposit? || a.DirectOnWithdrawal? || a.DirectUpdateMetrics?
      || a.DirectExecuteRebalance?
    ensures Effect(w, s, a) == Revert("UNAUTHORIZED")
  {
  }

  /** Every legal step keeps the ledger, also the ones a token takes while the vault waits for it. */
  lemma StepKeepsLedger(w: Wiring, s: System, a: Action)
    requires Good(w, s) && Legal(w, a)
    ensures Good(w, Step(w, s, a))
  {
    EffectKeepsLedger(w, s, a);
  }

  lemma EffectKeepsLedger(w: Wiring, s: System, a: Action)
    requires Good(w, s) && Legal(w, a)
    ensures Effect(w, s, a).Ok? ==> Good(w, Effect(w, s, a).value)
  {
    match a
    case BeginDeposit(caller, p, amount) => DepositOpensKeeps(w, s, caller, p, amount);
    case BeginWithdraw(caller, p, amount) => DebitKeeps(w, s, caller, p, amount);
    case MoveTokens => MoveKeeps(w, s);
    case RegistryUpdatePool(_, _, _, _, _) => SettingsKeep(w, s, a);
    case OracleVolatility(_, _, _) => SettingsKeep(w, s, a);
    case OracleYieldRate(_, _, _) => SettingsKeep(w, s, a);
    case EngineRebalance(_, _) => SettingsKeep(w, s, a);
    case TokenReturns =>
      if s.frames != [] && s.frames[|s.frames| - 1].moved {
        if s.frames[|s.frames| - 1].direction == In { CreditKeeps(w, s); } else { PaidOutKeeps(w, s); }
      }
    case RegistryAddPool(caller, pool) => AddPoolKeeps(w, s, caller, pool);
    case OracleCorrelation(caller, p, q, x) => CorrelationKeeps(w, s, caller, p, q, x);
    case Pay(token, from, to, amount) => PayKeeps(w, s, token, from, to, amount);
    case Mint(token, to, amount) => MintKeeps(w, s, token, to, amount);
    case Fail =>
    case NextBlock(_) =>
    case _ => DirectCallsRevert(w, s, a);
  }

  lemma GenesisIsGood(w: Wiring, now: nat)
    requires Wired(w)
    ensures Good(w, Genesis(now))
  {
    var c := NO_CHAIN;
    assert forall p: PoolId :: Shares(c.vault, p) == map[];
    assert forall t :: SuppliesIn(c.vault, t) == map[];
    assert forall t :: Holdings(c.tokens, t) == map[];
  }

  lemma {:induction false} RunKeepsLedger(w: Wiring, s: System, actions: seq<Action>)
    requires Good(w, s) && AllLegal(w, actions)
    ensures Good(w, Run(w, s, actions))
    decreases |actions|
  {
    if actions != [] {
      StepKeepsLedger(w, s, actions[0]);
      RunKeepsLedger(w, Step(w, s, actions[0]), actions[1..]);
    }
  }
}
