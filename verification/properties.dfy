/** Lifecycle properties of the ledger over whole runs: status and answers never regress,
    claims and resolutions happen at most once, a user bets at most once per market, and
    the accounting invariant holds in every reachable state. */
module Properties {
  import opened Wrappers
  import opened Sums
  import opened Ledger
  import opened Invariants

  /** Position of a status in the lifecycle `Active`, `Locked`, `Resolved`. */
  function Rank(st: MarketStatus): nat
  {
    match st
    case Active => 0
    case Locked => 1
    case Resolved => 2
  }

  /** How a market may change: its fixed fields stay, its status only moves forward, its
      pool only grows, and once resolved nothing about it changes. */
  ghost predicate MarketEvolves(m: Market, m': Market)
  {
    && m' == m.(status := m'.status, correctAnswer := m'.correctAnswer, bets := m'.bets,
                totalPool := m'.totalPool)
    && Rank(m.status) <= Rank(m'.status)
    && m.totalPool <= m'.totalPool
    && (m.correctAnswer.Some? ==> m'.correctAnswer == m.correctAnswer)
    && (m.status == Resolved ==> m' == m)
  }

  /** How a bet may change: only its claim flag and reward, the flag never reverts and a
      reward once fixed never changes. */
  ghost predicate BetEvolves(b: Bet, b': Bet)
  {
    && b' == b.(claimed := b'.claimed, rewardAmount := b'.rewardAmount)
    && (b.claimed ==> b'.claimed)
    && (b.rewardAmount > 0 ==> b'.rewardAmount == b.rewardAmount)
  }

  /** `s'` is a possible later version of `s`: nothing is removed and every market and
      bet evolves as allowed. */
  ghost predicate Evolves(s: State, s': State)
  {
    && s.nextMarketId <= s'.nextMarketId
    && (forall id :: id in s.markets ==>
          id in s'.markets && MarketEvolves(s.markets[id], s'.markets[id]))
    && (forall k :: k in s.userBets ==>
          k in s'.userBets && BetEvolves(s.userBets[k], s'.userBets[k]))
  }

  lemma EvolvesTransitive(s1: State, s2: State, s3: State)
    requires Evolves(s1, s2) && Evolves(s2, s3)
    ensures Evolves(s1, s3)
  {
    forall id | id in s1.markets
      ensures id in s3.markets && MarketEvolves(s1.markets[id], s3.markets[id])
    {
      assert MarketEvolves(s2.markets[id], s3.markets[id]);
    }
    forall k | k in s1.userBets
      ensures k in s3.userBets && BetEvolves(s1.userBets[k], s3.userBets[k])
    {
      assert BetEvolves(s2.userBets[k], s3.userBets[k]);
    }
  }

  /** Creating a market overwrites nothing: the new id is above every id in use, so every
      existing market and every bet stays exactly as it was. */
  lemma CreateEvolves(s: State, ctx: Context, question: string, description: string,
                      durationMinutes: nat, options: seq<string>, maxReward: Amount)
    requires Valid(s)
    requires DoCreateMarket(s, ctx, question, description, durationMinutes, options, maxReward).Success?
    ensures Evolves(s, DoCreateMarket(s, ctx, question, description, durationMinutes, options,
                                      maxReward).value.state)
    ensures var s' := DoCreateMarket(s, ctx, question, description, durationMinutes, options,
                                     maxReward).value.state;
      && (forall i :: i in s.markets ==> i in s'.markets && s'.markets[i] == s.markets[i])
      && s'.userBets == s.userBets
  {
    forall id | id in s.markets ensures id != s.nextMarketId {
      assert MarketValid(s, id);
    }
  }

  /** A bet removes nothing and changes no existing bet; in every market only the stakes
      and the pool may change, and the target market's pool grows by the amount. */
  lemma PlaceBetEvolves(s: State, ctx: Context, id: nat, option: string, amount: Amount)
    requires DoPlaceBet(s, ctx, id, option, amount).Success?
    ensures Evolves(s, DoPlaceBet(s, ctx, id, option, amount).value.state)
    ensures var s' := DoPlaceBet(s, ctx, id, option, amount).value.state;
      && (forall k :: k in s.userBets ==> k in s'.userBets && s'.userBets[k] == s.userBets[k])
      && (forall i :: i in s.markets ==>
            && i in s'.markets
            && s'.markets[i] == s.markets[i].(bets := s'.markets[i].bets,
                                              totalPool := s'.markets[i].totalPool)
            && s'.markets[i].status == s.markets[i].status)
      && s'.markets[id].totalPool == s.markets[id].totalPool + amount
  {
  }

  /** Resolving sets an answer that was unset and moves only that market's status forward;
      no other market changes, and no bet loses its reward or its claim. */
  lemma ResolveEvolves(s: State, ctx: Context, id: nat, answer: string)
    requires Valid(s)
    requires DoResolveMarket(s, ctx, id, answer).Success?
    ensures Evolves(s, DoResolveMarket(s, ctx, id, answer).value.state)
    ensures var s' := DoResolveMarket(s, ctx, id, answer).value.state;
      && id in s.markets
      && s.markets[id].correctAnswer.None?
      && s.markets[id].status == Active
      && s'.markets == s.markets[id := s.markets[id].(status := Resolved,
                                                      correctAnswer := Some(answer))]
      && s'.userBets.Keys == s.userBets.Keys
  {
    var s' := DoResolveMarket(s, ctx, id, answer).value.state;
    assert MarketValid(s, id);
    forall k | k in s.userBets
      ensures k in s'.userBets && BetEvolves(s.userBets[k], s'.userBets[k])
    {
      assert BetValid(s, k);
    }
  }

  /** A claim changes no market and no other bet; the caller's bet only has its claim flag
      turned on, from off. */
  lemma ClaimEvolves(s: State, ctx: Context, id: nat)
    requires DoClaimReward(s, ctx, id).Success?
    ensures Evolves(s, DoClaimReward(s, ctx, id).value.state)
    ensures var s' := DoClaimReward(s, ctx, id).value.state;
      && s'.markets == s.markets
      && ctx.signer.Some?
      && s'.userBets.Keys == s.userBets.Keys
      && (id, ctx.signer.value) in s.userBets
      && !s.userBets[(id, ctx.signer.value)].claimed
      && s'.userBets[(id, ctx.signer.value)] == s.userBets[(id, ctx.signer.value)].(claimed := true)
      && (forall k :: k in s.userBets && k != (id, ctx.signer.value) ==>
            s'.userBets[k] == s.userBets[k])
  {
  }

  /** One call, successful or not, only moves a valid ledger forward. */
  lemma ApplyEvolves(s: State, c: Call)
    requires Valid(s)
    ensures Evolves(s, Apply(s, c))
  {
    if Execute(s, c.ctx, c.msg).Success? {
      match c.msg
      case CreateMarket(q, d, dur, opts, mr) => CreateEvolves(s, c.ctx, q, d, dur, opts, mr);
      case PlaceBet(id, o, a) => PlaceBetEvolves(s, c.ctx, id, o, a);
      case ResolveMarket(id, a) => ResolveEvolves(s, c.ctx, id, a);
      case ClaimReward(id) => ClaimEvolves(s, c.ctx, id);
    }
  }

  lemma {:induction false} RunEvolves(s: State, calls: seq<Call>)
    requires Valid(s)
    ensures Evolves(s, Run(s, calls))
    decreases |calls|
  {
    if calls != [] {
      var s1 := Apply(s, calls[0]);
      ApplyEvolves(s, calls[0]);
      ApplyPreservesValid(s, calls[0]);
      RunEvolves(s1, calls[1..]);
      EvolvesTransitive(s, s1, Run(s1, calls[1..]));
    }
  }

  /** A reward is paid at most once: after a successful claim, whatever happens next, the
      same user's next claim on that market is refused as already claimed. */
  lemma ClaimAtMostOnce(s: State, ctx: Context, id: nat, calls: seq<Call>, ctx2: Context)
    requires Valid(s)
    requires DoClaimReward(s, ctx, id).Success?
    requires ctx2.signer == ctx.signer
    ensures DoClaimReward(Run(DoClaimReward(s, ctx, id).value.state, calls), ctx2, id)
            == Failure(AlreadyClaimed)
  {
    var s1 := DoClaimReward(s, ctx, id).value.state;
    ClaimPreservesValid(s, ctx, id);
    RunEvolves(s1, calls);
    var s2 := Run(s1, calls);
    var key := (id, ctx.signer.value);
    assert MarketEvolves(s1.markets[id], s2.markets[id]);
    assert BetEvolves(s1.userBets[key], s2.userBets[key]);
  }

  /** A market is resolved at most once: after a successful resolution, whatever happens
      next, every further resolution of it fails, and its creator is told it is already
      resolved; the answer stays the one first given. */
  lemma ResolveAtMostOnce(s: State, ctx: Context, id: nat, answer: string, calls: seq<Call>,
                          ctx2: Context, answer2: string)
    requires Valid(s)
    requires DoResolveMarket(s, ctx, id, answer).Success?
    ensures var s2 := Run(DoResolveMarket(s, ctx, id, answer).value.state, calls);
      && id in s2.markets
      && s2.markets[id].correctAnswer == Some(answer)
      && DoResolveMarket(s2, ctx2, id, answer2).Failure?
      && (ctx2.signer == ctx.signer ==> DoResolveMarket(s2, ctx2, id, answer2) == Failure(AlreadyResolved))
  {
    var s1 := DoResolveMarket(s, ctx, id, answer).value.state;
    ResolvePreservesValid(s, ctx, id, answer);
    RunEvolves(s1, calls);
    assert MarketEvolves(s1.markets[id], Run(s1, calls).markets[id]);
  }

  /** A user holds at most one bet per market: after a successful bet, whatever happens
      next, the same user's further bets on that market all fail. */
  lemma OneBetPerUser(s: State, ctx: Context, id: nat, option: string, amount: Amount,
                      calls: seq<Call>, ctx2: Context, option2: string, amount2: Amount)
    requires Valid(s)
    requires DoPlaceBet(s, ctx, id, option, amount).Success?
    requires ctx2.signer == ctx.signer
    ensures DoPlaceBet(Run(DoPlaceBet(s, ctx, id, option, amount).value.state, calls),
                       ctx2, id, option2, amount2).Failure?
  {
    var s1 := DoPlaceBet(s, ctx, id, option, amount).value.state;
    PlaceBetPreservesValid(s, ctx, id, option, amount);
    RunEvolves(s1, calls);
    assert (id, ctx.signer.value) in s1.userBets;
  }

  // ---------------------------------------------------------------------------------------
  // Every state reachable from a fresh application.

  lemma ReachableValid(calls: seq<Call>)
    ensures Valid(Run(Init(), calls))
  {
    InitValid();
    RunPreservesValid(Init(), calls);
  }

  /** `Locked` is never assigned: no reachable market is locked, and each is resolved
      exactly when it carries a correct answer. */
  lemma LockedNeverAssigned(calls: seq<Call>, id: nat)
    requires id in Run(Init(), calls).markets
    ensures Run(Init(), calls).markets[id].status != Locked
    ensures Run(Init(), calls).markets[id].status == Resolved
            <==> Run(Init(), calls).markets[id].correctAnswer.Some?
  {
    ReachableValid(calls);
    assert MarketValid(Run(Init(), calls), id);
  }

  /** In every reachable state a market's pool is the sum of its per-option totals, and
      each per-option total is the sum of the amounts of the bets on that option. */
  lemma PoolMatchesBets(calls: seq<Call>, id: nat, option: string)
    requires id in Run(Init(), calls).markets
    ensures var s := Run(Init(), calls);
      && s.markets[id].totalPool == Sum(s.markets[id].bets)
      && Staked(s.markets[id], option) == Sum(OptionStakes(s.userBets, id, option))
  {
    ReachableValid(calls);
    assert MarketValid(Run(Init(), calls), id);
  }

  /** In every reachable state the rewards fixed in a resolved market add up to at most its
      pool, and no single reward exceeds the market's cap. */
  lemma RewardsWithinPool(calls: seq<Call>, id: nat)
    requires id in Run(Init(), calls).markets
    requires Run(Init(), calls).markets[id].status == Resolved
    ensures Sum(MarketRewards(Run(Init(), calls).userBets, id))
            <= Run(Init(), calls).markets[id].totalPool
    ensures forall k :: k in Run(Init(), calls).userBets && k.0 == id ==>
              Run(Init(), calls).userBets[k].rewardAmount <= Run(Init(), calls).markets[id].maxReward
  {
    var s := Run(Init(), calls);
    ReachableValid(calls);
    assert MarketValid(s, id);
    forall k | k in s.userBets && k.0 == id
      ensures s.userBets[k].rewardAmount <= s.markets[id].maxReward
    {
      assert BetValid(s, k);
    }
  }

  /** The unchecked `unwrap` of the correct answer in `claim_reward` never aborts in a
      reachable state, and only a winning bet with a reward is ever marked claimed. */
  lemma ClaimNeverAborts(calls: seq<Call>, ctx: Context, id: nat)
    ensures DoClaimReward(Run(Init(), calls), ctx, id) != Failure(UnwrapOfNone)
    ensures forall k :: k in Run(Init(), calls).userBets && Run(Init(), calls).userBets[k].claimed ==>
              && Run(Init(), calls).userBets[k].rewardAmount > 0
              && k.0 in Run(Init(), calls).markets
              && Run(Init(), calls).markets[k.0].correctAnswer
                 == Some(Run(Init(), calls).userBets[k].option)
  {
    var s := Run(Init(), calls);
    ReachableValid(calls);
    if id in s.markets {
      assert MarketValid(s, id);
    }
    forall k | k in s.userBets && s.userBets[k].claimed
      ensures s.userBets[k].rewardAmount > 0 && k.0 in s.markets
              && s.markets[k.0].correctAnswer == Some(s.userBets[k].option)
    {
      assert BetValid(s, k);
    }
  }

  // ---------------------------------------------------------------------------------------
  // A worked example.

  /** Options "Yes" and "No", one hour, a cap of 10. User 2 stakes 5 on "Yes", user 3
      stakes 3 on "No", and after the end the creator resolves "Yes". The winner's reward is
      its share of the pool, 5 * 8 / 5 = 8, not twice its stake; the loser's claim is refused
      as not winning, and the winner's second claim as already claimed. */
  lemma PayoutExample()
    ensures var creator := Context(Some(Owner(1)), 0);
      var s1 := DoCreateMarket(Init(), creator, "Rain?", "", 60, ["Yes", "No"], 10).value.state;
      var s2 := DoPlaceBet(s1, Context(Some(Owner(2)), 1000), 1, "Yes", 5).value.state;
      var s3 := DoPlaceBet(s2, Context(Some(Owner(3)), 2000), 1, "No", 3).value.state;
      var r4 := DoResolveMarket(s3, Context(Some(Owner(1)), 3600000), 1, "Yes");
      && r4.Success?
      && r4.value.state.userBets[(1, Owner(2))].rewardAmount == 8
      && r4.value.state.userBets[(1, Owner(3))].rewardAmount == 0
      && DoClaimReward(r4.value.state, Context(Some(Owner(3)), 3600001), 1) == Failure(NotWinner)
      && var r5 := DoClaimReward(r4.value.state, Context(Some(Owner(2)), 3600001), 1);
      && r5 == Success(Outcome(r5.value.state, [RewardClaimed(1, Owner(2), 8)]))
      && DoClaimReward(r5.value.state, Context(Some(Owner(2)), 3600002), 1) == Failure(AlreadyClaimed)
  {
    var s1 := DoCreateMarket(Init(), Context(Some(Owner(1)), 0), "Rain?", "", 60, ["Yes", "No"], 10).value.state;
    assert s1.markets[1].endTime == 3600000;
    var s2 := DoPlaceBet(s1, Context(Some(Owner(2)), 1000), 1, "Yes", 5).value.state;
    assert s2.markets[1].bets == map["Yes" := 5] && s2.markets[1].totalPool == 5;
    var s3 := DoPlaceBet(s2, Context(Some(Owner(3)), 2000), 1, "No", 3).value.state;
    assert Staked(s3.markets[1], "Yes") == 5 && s3.markets[1].totalPool == 8;
    assert Payout(5, 8, 5, 10) == 8;
    var s4 := DoResolveMarket(s3, Context(Some(Owner(1)), 3600000), 1, "Yes").value.state;
    assert s4.userBets[(1, Owner(2))].rewardAmount == 8;
    var s5 := DoClaimReward(s4, Context(Some(Owner(2)), 3600001), 1).value.state;
    assert s5.userBets[(1, Owner(2))].claimed;
  }
}
