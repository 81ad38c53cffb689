/** The ledger's accounting invariant and its preservation by every handler. */
module Invariants {
  import opened Wrappers
  import opened Sums
  import opened Ledger

  /** The stakes of the bets in market `id` on `option`, keyed as in the ledger. */
  function OptionStakes(bets: map<BetKey, Bet>, id: nat, option: string): map<BetKey, nat>
  {
    map k | k in bets && k.0 == id && bets[k].option == option :: bets[k].amount
  }

  /** The rewards fixed for the bets in market `id`, keyed as in the ledger. */
  function MarketRewards(bets: map<BetKey, Bet>, id: nat): map<BetKey, nat>
  {
    map k | k in bets && k.0 == id :: bets[k].rewardAmount
  }

  /** A market is consistent with its id, its lifecycle and the bets placed in it. */
  ghost predicate MarketValid(s: State, id: nat)
    requires id in s.markets
  {
    var m := s.markets[id];
    && m.id == id
    && id < s.nextMarketId
    && m.status != Locked
    && (m.status == Resolved <==> m.correctAnswer.Some?)
    && (m.correctAnswer.Some? ==> m.correctAnswer.value in m.options)
    // the pool is the sum of the per-option totals
    && m.totalPool == Sum(m.bets)
    // each per-option total is the sum of the bets on that option
    && (forall o :: Staked(m, o) == Sum(OptionStakes(s.userBets, id, o)))
    // the rewards of a resolved market do not exceed its pool
    && (m.status == Resolved ==> Sum(MarketRewards(s.userBets, id)) <= m.totalPool)
  }

  /** A bet belongs to an existing market, is on one of its options, and carries a reward
      only if it won; only a bet with a reward can have been claimed. */
  ghost predicate BetValid(s: State, k: BetKey)
    requires k in s.userBets
  {
    var b := s.userBets[k];
    && k.0 in s.markets
    && b.marketId == k.0
    && b.user == k.1
    && b.amount > 0
    && b.option in s.markets[k.0].options
    && b.rewardAmount <= s.markets[k.0].maxReward
    && (b.rewardAmount > 0 ==> s.markets[k.0].correctAnswer == Some(b.option))
    && (b.claimed ==> b.rewardAmount > 0)
  }

  ghost predicate Valid(s: State)
  {
    && s.nextMarketId >= 1
    && (forall id :: id in s.markets ==> MarketValid(s, id))
    && (forall k :: k in s.userBets ==> BetValid(s, k))
  }

  lemma InitValid()
    ensures Valid(Init())
  {
  }

  // ---------------------------------------------------------------------------------------
  // Facts about the stake and reward maps under the updates the handlers make.

  /** Changing a bet without touching its amount, option or reward leaves every stake and
      reward map as it was. */
  lemma SameAccounts(bets: map<BetKey, Bet>, key: BetKey, b: Bet)
    requires key in bets
    requires b.amount == bets[key].amount && b.option == bets[key].option
    requires b.rewardAmount == bets[key].rewardAmount
    ensures forall id, o :: OptionStakes(bets[key := b], id, o) == OptionStakes(bets, id, o)
    ensures forall id :: MarketRewards(bets[key := b], id) == MarketRewards(bets, id)
  {
    forall id, o ensures OptionStakes(bets[key := b], id, o) == OptionStakes(bets, id, o) {
    }
    forall id ensures MarketRewards(bets[key := b], id) == MarketRewards(bets, id) {
    }
  }

  /** Settling rewards changes no stake, and no reward outside the settled market. */
  lemma SettleAccounts(bets: map<BetKey, Bet>, id: nat, answer: string, pool: Amount,
                       winning: Amount, cap: Amount)
    ensures forall i, o :: OptionStakes(Settle(bets, id, answer, pool, winning, cap), i, o)
                           == OptionStakes(bets, i, o)
    ensures forall i :: i != id ==>
              MarketRewards(Settle(bets, id, answer, pool, winning, cap), i) == MarketRewards(bets, i)
  {
    var bets' := Settle(bets, id, answer, pool, winning, cap);
    forall i, o ensures OptionStakes(bets', i, o) == OptionStakes(bets, i, o) {
    }
    forall i | i != id ensures MarketRewards(bets', i) == MarketRewards(bets, i) {
    }
  }

  /** Adding a new bet adds its amount to the stake of its market and option only, and
      changes no reward outside its market. */
  lemma AddBetAccounts(bets: map<BetKey, Bet>, key: BetKey, b: Bet)
    requires key !in bets
    ensures forall i, o :: Sum(OptionStakes(bets[key := b], i, o))
                           == Sum(OptionStakes(bets, i, o))
                              + (if i == key.0 && o == b.option then b.amount else 0)
    ensures forall i :: i != key.0 ==> MarketRewards(bets[key := b], i) == MarketRewards(bets, i)
  {
    var bets' := bets[key := b];
    forall i, o
      ensures Sum(OptionStakes(bets', i, o))
              == Sum(OptionStakes(bets, i, o)) + (if i == key.0 && o == b.option then b.amount else 0)
    {
      if i == key.0 && o == b.option {
        assert OptionStakes(bets', i, o) == OptionStakes(bets, i, o)[key := b.amount];
        SumUpdate(OptionStakes(bets, i, o), key, b.amount);
      } else {
        assert OptionStakes(bets', i, o) == OptionStakes(bets, i, o);
      }
    }
    forall i | i != key.0 ensures MarketRewards(bets', i) == MarketRewards(bets, i) {
    }
  }

  /** Cancelling a positive factor on both sides of a bound. */
  lemma CancelFactor(w: nat, x: nat, p: nat)
    requires w > 0 && w * x <= w * p
    ensures x <= p
  {
  }

  // ---------------------------------------------------------------------------------------
  // Preservation, handler by handler.

  lemma CreatePreservesValid(s: State, ctx: Context, question: string, description: string,
                             durationMinutes: nat, options: seq<string>, maxReward: Amount)
    requires Valid(s)
    requires DoCreateMarket(s, ctx, question, description, durationMinutes, options, maxReward).Success?
    ensures Valid(DoCreateMarket(s, ctx, question, description, durationMinutes, options,
                                 maxReward).value.state)
  {
    var s' := DoCreateMarket(s, ctx, question, description, durationMinutes, options,
                             maxReward).value.state;
    var id := s.nextMarketId;
    forall i | i in s'.markets
      ensures MarketValid(s', i)
    {
      if i == id {
        forall o ensures Staked(s'.markets[i], o) == Sum(OptionStakes(s'.userBets, i, o)) {
          forall k | k in s.userBets ensures k.0 != id {
            assert BetValid(s, k);
            assert MarketValid(s, k.0);
          }
          assert OptionStakes(s'.userBets, i, o) == map[];
        }
      } else {
        assert MarketValid(s, i);
      }
    }
    forall k | k in s'.userBets
      ensures BetValid(s', k)
    {
      assert BetValid(s, k);
      assert MarketValid(s, k.0);
    }
  }

  /** Recording a new bet of `amount` on `option` in market `m` and adding the amount to
      that option's total and to the pool keeps the pool equal to the sum of the totals and
      each total equal to the sum of the bets on its option. */
  lemma StakesAfterBet(bets: map<BetKey, Bet>, m: Market, key: BetKey, b: Bet)
    requires key !in bets
    requires m.totalPool == Sum(m.bets)
    requires forall o :: Staked(m, o) == Sum(OptionStakes(bets, key.0, o))
    ensures var m' := m.(bets := m.bets[b.option := Staked(m, b.option) + b.amount],
                         totalPool := m.totalPool + b.amount);
      && m'.totalPool == Sum(m'.bets)
      && forall o :: Staked(m', o) == Sum(OptionStakes(bets[key := b], key.0, o))
  {
    var m' := m.(bets := m.bets[b.option := Staked(m, b.option) + b.amount],
                 totalPool := m.totalPool + b.amount);
    SumUpdate(m.bets, b.option, Staked(m, b.option) + b.amount);
    AddBetAccounts(bets, key, b);
    forall o ensures Staked(m', o) == Sum(OptionStakes(bets[key := b], key.0, o)) {
      if o == b.option {
        assert Staked(m', o) == Staked(m, o) + b.amount;
      } else {
        assert Staked(m', o) == Staked(m, o);
      }
    }
  }

  /** The state after a successful bet, in closed form. */
  lemma PlaceBetState(s: State, ctx: Context, id: nat, option: string, amount: Amount)
    requires DoPlaceBet(s, ctx, id, option, amount).Success?
    ensures var m := s.markets[id];
      DoPlaceBet(s, ctx, id, option, amount).value.state
      == s.(markets := s.markets[id := m.(bets := m.bets[option := Staked(m, option) + amount],
                                          totalPool := m.totalPool + amount)],
            userBets := s.userBets[(id, ctx.signer.value) :=
                                   Bet(id, ctx.signer.value, option, amount, ctx.now, false, 0)])
  {
  }

  /** The market that receives the bet stays consistent. */
  lemma PlaceBetKeepsTarget(s: State, ctx: Context, id: nat, option: string, amount: Amount)
    requires DoPlaceBet(s, ctx, id, option, amount).Success?
    requires MarketValid(s, id)
    ensures MarketValid(DoPlaceBet(s, ctx, id, option, amount).value.state, id)
  {
    var key := (id, ctx.signer.value);
    var bet := Bet(id, ctx.signer.value, option, amount, ctx.now, false, 0);
    StakesAfterBet(s.userBets, s.markets[id], key, bet);
    PlaceBetState(s, ctx, id, option, amount);
  }

  /** Every other market is unchanged, and so are its stake and reward sums. */
  lemma PlaceBetKeepsOthers(s: State, ctx: Context, id: nat, option: string, amount: Amount, i: nat)
    requires Valid(s)
    requires DoPlaceBet(s, ctx, id, option, amount).Success?
    requires i in s.markets && i != id
    ensures MarketValid(DoPlaceBet(s, ctx, id, option, amount).value.state, i)
  {
    var key := (id, ctx.signer.value);
    PlaceBetState(s, ctx, id, option, amount);
    AddBetAccounts(s.userBets, key, Bet(id, ctx.signer.value, option, amount, ctx.now, false, 0));
    assert MarketValid(s, i);
  }

  lemma PlaceBetPreservesValid(s: State, ctx: Context, id: nat, option: string, amount: Amount)
    requires Valid(s)
    requires DoPlaceBet(s, ctx, id, option, amount).Success?
    ensures Valid(DoPlaceBet(s, ctx, id, option, amount).value.state)
  {
    var s' := DoPlaceBet(s, ctx, id, option, amount).value.state;
    var key := (id, ctx.signer.value);
    forall i | i in s'.markets
      ensures MarketValid(s', i)
    {
      if i == id {
        assert MarketValid(s, id);
        PlaceBetKeepsTarget(s, ctx, id, option, amount);
      } else {
        PlaceBetKeepsOthers(s, ctx, id, option, amount, i);
      }
    }
    forall k | k in s'.userBets
      ensures BetValid(s', k)
    {
      if k != key {
        assert BetValid(s, k);
      }
    }
  }

  /** The rewards a resolution fixes never add up to more than the market's pool: each
      winner gets at most its stake's share of the pool, rounded down. */
  lemma ResolveWithinPool(s: State, ctx: Context, id: nat, answer: string)
    requires Valid(s)
    requires DoResolveMarket(s, ctx, id, answer).Success?
    ensures Sum(MarketRewards(DoResolveMarket(s, ctx, id, answer).value.state.userBets, id))
            <= s.markets[id].totalPool
  {
    var s' := DoResolveMarket(s, ctx, id, answer).value.state;
    var m := s.markets[id];
    var winning := Staked(m, answer);
    var f := MarketRewards(s'.userBets, id);
    assert MarketValid(s, id);
    forall k | k in f && s.userBets[k].option != answer ensures f[k] == 0 {
      assert BetValid(s, k);
    }
    if winning == 0 {
      SumOfZeros(f);
    } else {
      var g := OptionStakes(s.userBets, id, answer);
      assert Sum(g) == winning;
      forall k | k in g ensures winning * f[k] <= m.totalPool * g[k] {
        var b := s.userBets[k];
        assert f[k] == Payout(b.amount, m.totalPool, winning, m.maxReward);
        assert f[k] * winning <= b.amount * m.totalPool;
      }
      SumScaledBound(f, g, winning, m.totalPool);
      CancelFactor(winning, Sum(f), m.totalPool);
    }
  }

  lemma ResolveKeepsMarket(s: State, ctx: Context, id: nat, answer: string, i: nat)
    requires Valid(s)
    requires DoResolveMarket(s, ctx, id, answer).Success?
    requires i in DoResolveMarket(s, ctx, id, answer).value.state.markets
    ensures MarketValid(DoResolveMarket(s, ctx, id, answer).value.state, i)
  {
    var m := s.markets[id];
    SettleAccounts(s.userBets, id, answer, m.totalPool, Staked(m, answer), m.maxReward);
    assert MarketValid(s, i);
    if i == id {
      ResolveWithinPool(s, ctx, id, answer);
    }
  }

  lemma ResolveKeepsBet(s: State, ctx: Context, id: nat, answer: string, k: BetKey)
    requires Valid(s)
    requires DoResolveMarket(s, ctx, id, answer).Success?
    requires k in DoResolveMarket(s, ctx, id, answer).value.state.userBets
    ensures BetValid(DoResolveMarket(s, ctx, id, answer).value.state, k)
  {
    assert MarketValid(s, id);
    assert BetValid(s, k);
  }

  lemma ResolvePreservesValid(s: State, ctx: Context, id: nat, answer: string)
    requires Valid(s)
    requires DoResolveMarket(s, ctx, id, answer).Success?
    ensures Valid(DoResolveMarket(s, ctx, id, answer).value.state)
  {
    var s' := DoResolveMarket(s, ctx, id, answer).value.state;
    forall i | i in s'.markets
      ensures MarketValid(s', i)
    {
      ResolveKeepsMarket(s, ctx, id, answer, i);
    }
    forall k | k in s'.userBets
      ensures BetValid(s', k)
    {
      ResolveKeepsBet(s, ctx, id, answer, k);
    }
  }

  lemma ClaimPreservesValid(s: State, ctx: Context, id: nat)
    requires Valid(s)
    requires DoClaimReward(s, ctx, id).Success?
    ensures Valid(DoClaimReward(s, ctx, id).value.state)
  {
    var s' := DoClaimReward(s, ctx, id).value.state;
    var key := (id, ctx.signer.value);
    assert s'.userBets == s.userBets[key := s'.userBets[key]];
    SameAccounts(s.userBets, key, s'.userBets[key]);
    forall i | i in s'.markets
      ensures MarketValid(s', i)
    {
      assert MarketValid(s, i);
    }
    forall k | k in s'.userBets
      ensures BetValid(s', k)
    {
      assert BetValid(s, k);
    }
  }

  /** Every message, successful or not, leaves a valid ledger valid. */
  lemma ApplyPreservesValid(s: State, c: Call)
    requires Valid(s)
    ensures Valid(Apply(s, c))
  {
    if Execute(s, c.ctx, c.msg).Success? {
      match c.msg
      case CreateMarket(q, d, dur, opts, mr) => CreatePreservesValid(s, c.ctx, q, d, dur, opts, mr);
      case PlaceBet(id, o, a) => PlaceBetPreservesValid(s, c.ctx, id, o, a);
      case ResolveMarket(id, a) => ResolvePreservesValid(s, c.ctx, id, a);
      case ClaimReward(id) => ClaimPreservesValid(s, c.ctx, id);
    }
  }

  lemma {:induction false} RunPreservesValid(s: State, calls: seq<Call>)
    requires Valid(s)
    ensures Valid(Run(s, calls))
    decreases |calls|
  {
    if calls != [] {
      ApplyPreservesValid(s, calls[0]);
      RunPreservesValid(Apply(s, calls[0]), calls[1..]);
    }
  }
}
