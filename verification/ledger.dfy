/** The prediction-market ledger: two ordered maps (markets by id, bets by market and user)
    plus an id counter, and the four message handlers that check their preconditions and
    then update the maps. Caller identity and the current time are parameters. */
module Ledger {
  import opened Wrappers

  /** Token amounts, unbounded (the SDK's fixed-width amount is not modelled). */
  type Amount = nat

  /** Milliseconds since the epoch. */
  type Timestamp = nat

  /** An account identity; the ledger only ever compares identities for equality. */
  datatype Owner = Owner(key: nat)

  /** `Locked` exists in the status type but no handler ever assigns it. */
  datatype MarketStatus = Active | Locked | Resolved

  datatype Market = Market(
    id: nat,
    creator: Owner,
    question: string,
    description: string,
    endTime: Timestamp,
    status: MarketStatus,
    options: seq<string>,
    correctAnswer: Option<string>,
    /** Total staked per option; an option nobody bet on has no entry. */
    bets: map<string, Amount>,
    totalPool: Amount,
    maxReward: Amount,
    createdAt: Timestamp
  )

  datatype Bet = Bet(
    marketId: nat,
    user: Owner,
    option: string,
    amount: Amount,
    timestamp: Timestamp,
    claimed: bool,
    rewardAmount: Amount
  )

  /** A bet is stored under the market it belongs to and the user who placed it. */
  type BetKey = (nat, Owner)

  datatype State = State(
    nextMarketId: nat,
    markets: map<nat, Market>,
    userBets: map<BetKey, Bet>
  )

  datatype Message =
    | CreateMarket(question: string, description: string, durationMinutes: nat,
                   options: seq<string>, maxReward: Amount)
    | PlaceBet(marketId: nat, option: string, amount: Amount)
    | ResolveMarket(marketId: nat, correctAnswer: string)
    | ClaimReward(marketId: nat)

  datatype Effect =
    | MarketCreated(marketId: nat, creator: Owner)
    | BetPlaced(marketId: nat, user: Owner, option: string, amount: Amount)
    | MarketResolved(marketId: nat, correctAnswer: string)
    | RewardClaimed(marketId: nat, user: Owner, amount: Amount)

  /** What the runtime supplies to a handler: the authenticated signer, if any, and the
      system time. */
  datatype Context = Context(signer: Option<Owner>, now: Timestamp)

  /** One constructor per error the handlers return. `UnwrapOfNone` stands for the abort of
      `correct_answer.unwrap()` on a resolved market without an answer. */
  datatype Error =
    | EmptyQuestion
    | TooFewOptions
    | ZeroMaxReward
    | NoSigner
    | ZeroAmount
    | MarketNotFound
    | MarketNotActive
    | MarketEnded
    | InvalidOption
    | AlreadyBet
    | NotCreator
    | AlreadyResolved
    | MarketNotEnded
    | InvalidAnswer
    | MarketNotResolved
    | NoBet
    | UnwrapOfNone
    | NotWinner
    | AlreadyClaimed
    | NoReward

  /** A successful handler call: the new state and the effects it emits. */
  datatype Outcome = Outcome(state: State, effects: seq<Effect>)

  const MillisPerMinute: nat := 60 * 1000

  /** The state a fresh application starts from. */
  function Init(): (s: State)
    ensures s.markets == map[] && s.userBets == map[]
    ensures s.nextMarketId == 1
  {
    State(1, map[], map[])
  }

  /** The amount staked on `option` in `m`, zero when the option has no entry. */
  function Staked(m: Market, option: string): Amount
  {
    if option in m.bets then m.bets[option] else 0
  }

  /** The reward of a winning bet: its proportional share of the pool, rounded down,
      capped at `cap`. It is zero when the pool or the winning stake is zero. */
  function Payout(amount: Amount, pool: Amount, winning: Amount, cap: Amount): (r: Amount)
    ensures r <= cap
    ensures r * winning <= amount * pool
    ensures pool > 0 && winning > 0 ==> r == cap || (r + 1) * winning > amount * pool
    ensures pool == 0 || winning == 0 ==> r == 0
  {
    if pool > 0 && winning > 0 then
      var share := amount * pool / winning;
      FloorDivision(amount * pool, winning);
      if share > cap then
        ScaleBound(cap, share, winning);
        cap
      else share
    else 0
  }

  /** Rounding down: `x / w` is the largest multiple count of `w` not above `x`. */
  lemma FloorDivision(x: nat, w: nat)
    requires w > 0
    ensures (x / w) * w <= x < (x / w + 1) * w
  {
  }

  lemma ScaleBound(a: nat, b: nat, w: nat)
    requires a <= b
    ensures a * w <= b * w
  {
  }

  // ---------------------------------------------------------------------------------------
  // create_market

  /** All validations of `create_market` pass. */
  predicate CanCreate(ctx: Context, question: string, options: seq<string>, maxReward: Amount)
  {
    question != [] && |options| >= 2 && maxReward > 0 && ctx.signer.Some?
  }

  function DoCreateMarket(s: State, ctx: Context, question: string, description: string,
                          durationMinutes: nat, options: seq<string>, maxReward: Amount)
    : (r: Result<Outcome, Error>)
    ensures question == [] ==> r == Failure(EmptyQuestion)
    ensures question != [] && |options| < 2 ==> r == Failure(TooFewOptions)
    ensures question != [] && |options| >= 2 && maxReward == 0 ==> r == Failure(ZeroMaxReward)
    ensures question != [] && |options| >= 2 && maxReward > 0 && ctx.signer.None? ==>
              r == Failure(NoSigner)
    ensures r.Success? <==> CanCreate(ctx, question, options, maxReward)
    ensures r.Success? ==>
      var id := s.nextMarketId;
      var s' := r.value.state;
      && s'.nextMarketId == id + 1
      && s'.markets.Keys == s.markets.Keys + {id}
      && s'.markets[id] == Market(id, ctx.signer.value, question, description,
                                  ctx.now + durationMinutes * MillisPerMinute, Active, options,
                                  None, map[], 0, maxReward, ctx.now)
      && (forall k :: k in s.markets && k != id ==> s'.markets[k] == s.markets[k])
      && s'.userBets == s.userBets
      && r.value.effects == [MarketCreated(id, ctx.signer.value)]
  {
    if question == [] then Failure(EmptyQuestion)
    else if |options| < 2 then Failure(TooFewOptions)
    else if maxReward == 0 then Failure(ZeroMaxReward)
    else if ctx.signer.None? then Failure(NoSigner)
    else
      var creator := ctx.signer.value;
      var id := s.nextMarketId;
      var market := Market(id, creator, question, description,
                           ctx.now + durationMinutes * MillisPerMinute, Active, options,
                           None, map[], 0, maxReward, ctx.now);
      var s' := s.(markets := s.markets[id := market], nextMarketId := id + 1);
      Success(Outcome(s', [MarketCreated(id, creator)]))
  }

  // ---------------------------------------------------------------------------------------
  // place_bet

  /** All validations of `place_bet` pass. */
  predicate CanBet(s: State, ctx: Context, marketId: nat, option: string, amount: Amount)
  {
    && amount > 0
    && ctx.signer.Some?
    && marketId in s.markets
    && s.markets[marketId].status == Active
    && ctx.now < s.markets[marketId].endTime
    && option in s.markets[marketId].options
    && (marketId, ctx.signer.value) !in s.userBets
  }

  function DoPlaceBet(s: State, ctx: Context, marketId: nat, option: string, amount: Amount)
    : (r: Result<Outcome, Error>)
    ensures amount == 0 ==> r == Failure(ZeroAmount)
    ensures amount > 0 && ctx.signer.None? ==> r == Failure(NoSigner)
    ensures amount > 0 && ctx.signer.Some? && marketId !in s.markets ==>
              r == Failure(MarketNotFound)
    ensures amount > 0 && ctx.signer.Some? && marketId in s.markets ==>
      var m := s.markets[marketId];
      && (m.status != Active ==> r == Failure(MarketNotActive))
      && (m.status == Active && ctx.now >= m.endTime ==> r == Failure(MarketEnded))
      && (m.status == Active && ctx.now < m.endTime && option !in m.options ==>
            r == Failure(InvalidOption))
      && ((m.status == Active && ctx.now < m.endTime && option in m.options
           && (marketId, ctx.signer.value) in s.userBets) ==> r == Failure(AlreadyBet))
    ensures r.Success? <==> CanBet(s, ctx, marketId, option, amount)
    ensures r.Success? ==>
      var user := ctx.signer.value;
      var m := s.markets[marketId];
      var s' := r.value.state;
      && s'.nextMarketId == s.nextMarketId
      && s'.markets.Keys == s.markets.Keys
      && var m' := s'.markets[marketId];
      && (forall k :: k in s.markets && k != marketId ==> s'.markets[k] == s.markets[k])
      && m' == m.(bets := m'.bets, totalPool := m'.totalPool)
      && Staked(m', option) == Staked(m, option) + amount
      && (forall o :: o != option ==> Staked(m', o) == Staked(m, o))
      && m'.bets.Keys == m.bets.Keys + {option}
      && m'.totalPool == m.totalPool + amount
      && s'.userBets.Keys == s.userBets.Keys + {(marketId, user)}
      && s'.userBets[(marketId, user)] == Bet(marketId, user, option, amount, ctx.now, false, 0)
      && (forall k :: k in s.userBets ==> s'.userBets[k] == s.userBets[k])
      && r.value.effects == [BetPlaced(marketId, user, option, amount)]
  {
    if amount == 0 then Failure(ZeroAmount)
    else if ctx.signer.None? then Failure(NoSigner)
    else if marketId !in s.markets then Failure(MarketNotFound)
    else
      var user := ctx.signer.value;
      var m := s.markets[marketId];
      if m.status != Active then Failure(MarketNotActive)
      else if ctx.now >= m.endTime then Failure(MarketEnded)
      else if option !in m.options then Failure(InvalidOption)
      else if (marketId, user) in s.userBets then Failure(AlreadyBet)
      else
        var bet := Bet(marketId, user, option, amount, ctx.now, false, 0);
        var m' := m.(bets := m.bets[option := Staked(m, option) + amount],
                     totalPool := m.totalPool + amount);
        var s' := s.(markets := s.markets[marketId := m'],
                     userBets := s.userBets[(marketId, user) := bet]);
        Success(Outcome(s', [BetPlaced(marketId, user, option, amount)]))
  }

  // ---------------------------------------------------------------------------------------
  // resolve_market

  /** All validations of `resolve_market` pass. Only `Resolved` blocks a second resolution. */
  predicate CanResolve(s: State, ctx: Context, marketId: nat, answer: string)
  {
    && ctx.signer.Some?
    && marketId in s.markets
    && s.markets[marketId].creator == ctx.signer.value
    && s.markets[marketId].status != Resolved
    && ctx.now >= s.markets[marketId].endTime
    && answer in s.markets[marketId].options
  }

  /** The pass over all bets that fixes the reward of every bet in `marketId` on `answer`:
      such a bet gets the capped, rounded-down share of `pool` in proportion to its part of
      `winning`; every other bet is left as it was. */
  function Settle(bets: map<BetKey, Bet>, marketId: nat, answer: string, pool: Amount,
                  winning: Amount, cap: Amount): (r: map<BetKey, Bet>)
    ensures r.Keys == bets.Keys
    ensures forall k :: k in bets ==>
      var b := bets[k];
      var b' := r[k];
      && b' == b.(rewardAmount := b'.rewardAmount)
      && (k.0 == marketId && b.option == answer ==>
            b'.rewardAmount <= cap
            && b'.rewardAmount * winning <= b.amount * pool
            && (pool > 0 && winning > 0 ==>
                  b'.rewardAmount == cap || (b'.rewardAmount + 1) * winning > b.amount * pool)
            && (pool == 0 || winning == 0 ==> b'.rewardAmount == 0))
      && (k.0 != marketId || b.option != answer ==> b' == b)
  {
    map k | k in bets ::
      if k.0 == marketId && bets[k].option == answer
      then bets[k].(rewardAmount := Payout(bets[k].amount, pool, winning, cap))
      else bets[k]
  }

  function DoResolveMarket(s: State, ctx: Context, marketId: nat, answer: string)
    : (r: Result<Outcome, Error>)
    ensures ctx.signer.None? ==> r == Failure(NoSigner)
    ensures ctx.signer.Some? && marketId !in s.markets ==> r == Failure(MarketNotFound)
    ensures ctx.signer.Some? && marketId in s.markets ==>
      var m := s.markets[marketId];
      && (m.creator != ctx.signer.value ==> r == Failure(NotCreator))
      && (m.creator == ctx.signer.value && m.status == Resolved ==> r == Failure(AlreadyResolved))
      && (m.creator == ctx.signer.value && m.status != Resolved && ctx.now < m.endTime ==>
            r == Failure(MarketNotEnded))
      && ((m.creator == ctx.signer.value && m.status != Resolved && ctx.now >= m.endTime
           && answer !in m.options) ==> r == Failure(InvalidAnswer))
    ensures r.Success? <==> CanResolve(s, ctx, marketId, answer)
    ensures r.Success? ==>
      var m := s.markets[marketId];
      var winning := Staked(m, answer);
      var s' := r.value.state;
      && s'.nextMarketId == s.nextMarketId
      && s'.markets == s.markets[marketId := m.(status := Resolved, correctAnswer := Some(answer))]
      && s'.userBets.Keys == s.userBets.Keys
      && (forall k :: k in s.userBets ==>
            var b := s.userBets[k];
            var b' := s'.userBets[k];
            && b' == b.(rewardAmount := b'.rewardAmount)
            && (k.0 == marketId && b.option == answer && winning > 0 ==>
                  b'.rewardAmount <= m.maxReward
                  && b'.rewardAmount * winning <= b.amount * m.totalPool
                  && (b'.rewardAmount == m.maxReward
                      || (b'.rewardAmount + 1) * winning > b.amount * m.totalPool))
            && (k.0 != marketId || b.option != answer || winning == 0 ==> b' == b))
      && r.value.effects == [MarketResolved(marketId, answer)]
  {
    if ctx.signer.None? then Failure(NoSigner)
    else if marketId !in s.markets then Failure(MarketNotFound)
    else
      var m := s.markets[marketId];
      if m.creator != ctx.signer.value then Failure(NotCreator)
      else if m.status == Resolved then Failure(AlreadyResolved)
      else if ctx.now < m.endTime then Failure(MarketNotEnded)
      else if answer !in m.options then Failure(InvalidAnswer)
      else
        var m' := m.(status := Resolved, correctAnswer := Some(answer));
        var winning := Staked(m, answer);
        var bets' := if winning > 0
                     then Settle(s.userBets, marketId, answer, m.totalPool, winning, m.maxReward)
                     else s.userBets;
        var s' := s.(markets := s.markets[marketId := m'], userBets := bets');
        Success(Outcome(s', [MarketResolved(marketId, answer)]))
  }

  // ---------------------------------------------------------------------------------------
  // claim_reward

  /** All validations of `claim_reward` pass. */
  predicate CanClaim(s: State, ctx: Context, marketId: nat)
  {
    && ctx.signer.Some?
    && marketId in s.markets
    && s.markets[marketId].status == Resolved
    && (marketId, ctx.signer.value) in s.userBets
    && s.markets[marketId].correctAnswer == Some(s.userBets[(marketId, ctx.signer.value)].option)
    && !s.userBets[(marketId, ctx.signer.value)].claimed
    && s.userBets[(marketId, ctx.signer.value)].rewardAmount > 0
  }

  function DoClaimReward(s: State, ctx: Context, marketId: nat): (r: Result<Outcome, Error>)
    ensures ctx.signer.None? ==> r == Failure(NoSigner)
    ensures ctx.signer.Some? && marketId !in s.markets ==> r == Failure(MarketNotFound)
    ensures ctx.signer.Some? && marketId in s.markets ==>
      var m := s.markets[marketId];
      var key := (marketId, ctx.signer.value);
      && (m.status != Resolved ==> r == Failure(MarketNotResolved))
      && (m.status == Resolved && key !in s.userBets ==> r == Failure(NoBet))
      && (m.status == Resolved && key in s.userBets ==>
            var b := s.userBets[key];
            && (m.correctAnswer.None? ==> r == Failure(UnwrapOfNone))
            && (m.correctAnswer.Some? && b.option != m.correctAnswer.value ==>
                  r == Failure(NotWinner))
            && (m.correctAnswer == Some(b.option) && b.claimed ==> r == Failure(AlreadyClaimed))
            && (m.correctAnswer == Some(b.option) && !b.claimed && b.rewardAmount == 0 ==>
                  r == Failure(NoReward)))
    ensures r.Success? <==> CanClaim(s, ctx, marketId)
    ensures r.Success? ==>
      var key := (marketId, ctx.signer.value);
      var b := s.userBets[key];
      var s' := r.value.state;
      && s'.nextMarketId == s.nextMarketId
      && s'.markets == s.markets
      && s'.userBets.Keys == s.userBets.Keys
      && s'.userBets[key] == b.(claimed := true)
      && (forall k :: k in s.userBets && k != key ==> s'.userBets[k] == s.userBets[k])
      && r.value.effects == [RewardClaimed(marketId, ctx.signer.value, b.rewardAmount)]
  {
    if ctx.signer.None? then Failure(NoSigner)
    else if marketId !in s.markets then Failure(MarketNotFound)
    else
      var user := ctx.signer.value;
      var m := s.markets[marketId];
      if m.status != Resolved then Failure(MarketNotResolved)
      else if (marketId, user) !in s.userBets then Failure(NoBet)
      else
        var b := s.userBets[(marketId, user)];
        if m.correctAnswer.None? then Failure(UnwrapOfNone)
        else if b.option != m.correctAnswer.value then Failure(NotWinner)
        else if b.claimed then Failure(AlreadyClaimed)
        else if b.rewardAmount == 0 then Failure(NoReward)
        else
          var s' := s.(userBets := s.userBets[(marketId, user) := b.(claimed := true)]);
          Success(Outcome(s', [RewardClaimed(marketId, user, b.rewardAmount)]))
  }

  // ---------------------------------------------------------------------------------------
  // execute_message

  /** The id of the market a message is about; a new market gets the next id. */
  function TargetMarket(s: State, msg: Message): nat
  {
    match msg
    case CreateMarket(_, _, _, _, _) => s.nextMarketId
    case PlaceBet(id, _, _) => id
    case ResolveMarket(id, _) => id
    case ClaimReward(id) => id
  }

  /** The effect kind each message emits on success, about the market it targets. */
  predicate Reports(s: State, msg: Message, e: Effect)
  {
    match msg
    case CreateMarket(_, _, _, _, _) => e.MarketCreated? && e.marketId == TargetMarket(s, msg)
    case PlaceBet(_, _, _) => e.BetPlaced? && e.marketId == TargetMarket(s, msg)
    case ResolveMarket(_, _) => e.MarketResolved? && e.marketId == TargetMarket(s, msg)
    case ClaimReward(_) => e.RewardClaimed? && e.marketId == TargetMarket(s, msg)
  }

  /** Dispatches a message to its handler. */
  function Execute(s: State, ctx: Context, msg: Message): (r: Result<Outcome, Error>)
    ensures r.Success? ==> |r.value.effects| == 1 && Reports(s, msg, r.value.effects[0])
    ensures r.Success? ==>
      r.value.state.nextMarketId == s.nextMarketId + (if msg.CreateMarket? then 1 else 0)
    ensures r.Success? && !msg.CreateMarket? ==>
      r.value.state.markets.Keys == s.markets.Keys && TargetMarket(s, msg) in s.markets
    ensures r.Success? && !msg.PlaceBet? ==> r.value.state.userBets.Keys == s.userBets.Keys
  {
    match msg
    case CreateMarket(question, description, duration, options, maxReward) =>
      DoCreateMarket(s, ctx, question, description, duration, options, maxReward)
    case PlaceBet(id, option, amount) => DoPlaceBet(s, ctx, id, option, amount)
    case ResolveMarket(id, answer) => DoResolveMarket(s, ctx, id, answer)
    case ClaimReward(id) => DoClaimReward(s, ctx, id)
  }

  /** A message as the runtime delivers it, with its context. */
  datatype Call = Call(ctx: Context, msg: Message)

  /** The state after one call: a failed call leaves the state as it was. */
  function Apply(s: State, c: Call): State
  {
    var r := Execute(s, c.ctx, c.msg);
    if r.Success? then r.value.state else s
  }

  /** The state after a sequence of calls, in order. */
  function Run(s: State, calls: seq<Call>): State
    decreases |calls|
  {
    if calls == [] then s else Run(Apply(s, calls[0]), calls[1..])
  }
}
