# Prediction-market ledger, modelled in Dafny

This project models the settlement core of a prediction-market contract: the ledger in
`contract/src/lib.rs`. The ledger state is an id counter plus two ordered maps:

- markets by id;
- bets by `(market id, user)`.

Four message handlers change that state. Each one checks its preconditions in a fixed order
and then updates the maps:

- `create_market` validates its inputs and stores a new `Active` market under the next id.
- `place_bet` records one bet per user per market. It adds the stake to the option's total
  and to the pool.
- `resolve_market` may only be called by the creator, and only after the end time. It fixes
  the correct answer. Each winning bet gets its proportional share of the pool, rounded down
  and capped at the market's maximum reward.
- `claim_reward` marks a winning bet with a reward as claimed, once.

The model is functional:

- every handler is a pure function from the old state to either an error or a new state
  together with the effects it emits;
- the authenticated signer and the system time are passed in as a `Context`;
- a failed call produces no new state. This matches the Rust code, where every check comes
  before the first mutation.

Files:

- `wrappers.dfy`: `Option` and `Result`.
- `sums.dfy`: the sum of a finite map's values, with an order-independence lemma and the
  bounds the accounting needs.
- `ledger.dfy`: the data model, the payout rule, the four handlers, the `execute_message`
  dispatch (`Execute`), and runs of calls (`Apply`, `Run`).
- `invariants.dfy`: the accounting invariant `Valid` and its preservation by every handler.
  `Valid` requires that:
  - a market's pool is the sum of its per-option totals;
  - each option's total is the sum of the bets on it;
  - no reward exceeds the cap;
  - only a winning bet in a resolved market has a reward;
  - only a bet with a reward is claimed;
  - the rewards of a resolved market add up to at most its pool.
- `properties.dfy`: properties of whole runs:
  - statuses and answers never regress, and claims never revert;
  - claims and resolutions happen at most once, and a user bets at most once per market;
  - the invariant holds in every state reachable from `Default`;
  - a worked example.

Where the repository's design notes and the code disagree, the model follows the code:

- The payout is `min(amount * total_pool / winning_total, max_reward)`, not a fixed 2× of
  the stake. In the worked example (`Properties.PayoutExample`), a winner who staked 5 out
  of a pool of 8 gets 8, not 10.
- A second bet by the same user on the same market is rejected. Stakes do not accumulate.
- `description` may be empty, options need not be distinct, and a zero duration is accepted.
- `Locked` is declared but never assigned. `resolve_market` only refuses `Resolved`, so it
  would accept a `Locked` market. The model keeps that check as written.
- A claim on a losing bet fails with "did not win" (`NotWinner`), before the reward is
  checked (`NoReward`).
- Nothing caps the sum of rewards explicitly. Because each share is rounded down, the
  rewards of a market still never exceed its pool (`Invariants.ResolveWithinPool`).

## Model

| member | source | states |
|---|---|---|
| `Ledger.Payout` | contract/src/lib.rs:391-403 | the reward is at most the cap, at most the bet's exact share `amount * pool / winning`, and the largest such value (either the cap or one more would exceed the share); it is zero when the pool or the winning stake is zero |
| `Ledger.DoCreateMarket` | contract/src/lib.rs:210-265 | fails exactly on an empty question, fewer than 2 options, a zero cap or no signer, with that error in that order; on success the new market sits under the old counter value, the counter grows by one, the market is `Active` with no answer, no stakes, pool 0 and end time `now + minutes * 60000`, other markets and all bets are untouched, and `MarketCreated` is emitted |
| `Ledger.DoPlaceBet` | contract/src/lib.rs:268-341 | fails exactly on a zero amount, no signer, a missing market, a non-`Active` market, `now >= end_time`, an unknown option or an existing bet of that user, with that error in that order; on success only that option's total and the pool grow by the amount, the new bet is unclaimed with reward 0, every other market and bet is unchanged, and `BetPlaced` is emitted |
| `Ledger.DoResolveMarket` | contract/src/lib.rs:344-413 | fails exactly on no signer, a missing market, a non-creator caller, an already `Resolved` market, `now < end_time` or an answer outside the options, in that order; on success the market becomes `Resolved` with that answer, each bet of that market on the answer (when the answer has stakes) gets the capped proportional share, every other bet is unchanged, and `MarketResolved` is emitted |
| `Ledger.DoClaimReward` | contract/src/lib.rs:416-470 | fails exactly on no signer, a missing market, an unresolved market, no bet, a resolved market without an answer (the abort of the `unwrap`, `UnwrapOfNone`), a losing bet, an already claimed bet or a zero reward, in that order; on success only that bet's `claimed` flips from false to true and `RewardClaimed` carries its reward |
| `Ledger.Settle` | contract/src/lib.rs:389-405 | the reward pass keeps every bet key and changes only reward amounts; a bet of the market on the answer gets at most the cap, at most its exact share `amount * pool / winning`, the largest such value when pool and winning stake are nonzero, and zero otherwise; every other bet is unchanged |
| `Ledger.Execute` | contract/src/lib.rs:172-196 | every successful message emits exactly one effect, of the kind matching the message and about the market it targets; only a market creation grows the id counter and the market set, only a bet adds a bet record |
| `Ledger.Init` | contract/src/lib.rs:147-155 | the application starts with no markets, no bets and market ids counting from 1 |
| `Invariants.InitValid` | contract/src/lib.rs:147-155 | the initial state (counter 1, no markets, no bets) satisfies the accounting invariant |
| `Invariants.AddBetAccounts` | contract/src/lib.rs:326-332 | storing a new bet raises the stake sum of its market and option by its amount and changes no other stake sum and no reward of another market |
| `Invariants.SettleAccounts` | contract/src/lib.rs:389-405 | the reward pass changes no stake sum and no reward outside the resolved market |
| `Invariants.CreatePreservesValid` | contract/src/lib.rs:236-258 | creating a market keeps the invariant: the new id is fresh and the new market has no bets |
| `Invariants.PlaceBetPreservesValid` | contract/src/lib.rs:316-332 | placing a bet keeps `total_pool == Σ bets` and `bets[o] ==` the sum of the amounts bet on `o` in that market, and the rest of the invariant |
| `Invariants.ResolveWithinPool` | contract/src/lib.rs:384-405 | after a resolution the rewards fixed in that market add up to at most its pool |
| `Invariants.ResolvePreservesValid` | contract/src/lib.rs:380-405 | resolving keeps the invariant: rewards stay within the cap, only winning bets get one, the stake sums are untouched |
| `Invariants.ClaimPreservesValid` | contract/src/lib.rs:447-458 | claiming keeps the invariant; a claimed bet always has a nonzero reward |
| `Invariants.ApplyPreservesValid` | contract/src/lib.rs:172-196 | any message, successful or not, keeps the invariant |
| `Invariants.RunPreservesValid` | contract/src/lib.rs:172-196 | any sequence of messages keeps the invariant |
| `Properties.CreateEvolves` | contract/src/lib.rs:256-258 | in a valid ledger, creating a market moves the ledger forward and keeps every existing market and every bet exactly as it was: the new id is fresh, so nothing is overwritten |
| `Properties.PlaceBetEvolves` | contract/src/lib.rs:326-332 | placing a bet moves the ledger forward; it removes nothing, keeps every existing bet as it was, changes no market field other than the stakes and the pool (so no status), and grows the target market's pool by the amount |
| `Properties.ResolveEvolves` | contract/src/lib.rs:380-405 | in a valid ledger, resolving moves the ledger forward: the market was `Active` with no answer, and it becomes `Resolved` with the given answer; no other market changes, no bet is added or removed, no reward that was already nonzero changes, and no claim reverts |
| `Properties.ClaimEvolves` | contract/src/lib.rs:457-458 | claiming moves the ledger forward; it changes no market and no other bet, and the caller's bet differs only in its claim flag, turned on from off |
| `Properties.ApplyEvolves` | contract/src/lib.rs:172-196 | each message moves the ledger forward: status rank never decreases, fixed market fields never change, the answer is set at most once, a resolved market never changes, `claimed` never reverts, a nonzero reward never changes |
| `Properties.RunEvolves` | contract/src/lib.rs:172-196 | the same forward-only evolution holds across any sequence of messages |
| `Properties.ClaimAtMostOnce` | contract/src/lib.rs:447-458 | after a successful claim, whatever happens next, the same user's claim on that market fails with "already claimed" |
| `Properties.ResolveAtMostOnce` | contract/src/lib.rs:365-368 | after a successful resolution, whatever happens next, the answer is unchanged, every further resolution fails, and the creator's fails with "already resolved" |
| `Properties.OneBetPerUser` | contract/src/lib.rs:305-309 | after a successful bet, whatever happens next, the same user's bets on that market all fail |
| `Properties.LockedNeverAssigned` | contract/src/lib.rs:61-70 | no reachable market is `Locked`, and a reachable market is `Resolved` exactly when it has a correct answer |
| `Properties.PoolMatchesBets` | contract/src/lib.rs:329-332 | in every reachable state a market's pool is the sum of its per-option totals, and each per-option total is the sum of the bets on that option |
| `Properties.RewardsWithinPool` | contract/src/lib.rs:384-405 | in every reachable state the rewards of a resolved market add up to at most its pool, and none exceeds the cap |
| `Properties.ClaimNeverAborts` | contract/src/lib.rs:442-445 | in a reachable state the `unwrap` of the correct answer never aborts, and every claimed bet is a winning bet with a nonzero reward |
| `Properties.PayoutExample` | contract/src/lib.rs:391-403 | a 5-of-8 winning stake under a cap of 10 is paid 8; the loser's claim fails as not winning; a second claim fails as already claimed |

## Left out

- `service/src/lib.rs` is not part of this model. It holds GraphQL query resolvers over a
  JSON copy of the state, mutation stubs that return "Not implemented", empty
  subscriptions, and string converters.
- The JSON serialization in `handle_query` and the serde derives are foreign library code.
- `instantiate` only builds the default state, which is modelled as `Ledger.Init`.
- `execute_effect` is a no-op.
- The authenticated signer and the system time come from the runtime. They are passed in
  as `Context`.
- Token transfers are absent from the code, which only has comments where they would go.
- Amounts, timestamps and ids are unbounded naturals. The model does not cover:
  - overflow of `duration_minutes * 60 * 1000`;
  - overflow of `next_market_id += 1`;
  - overflow of the SDK's `Amount` arithmetic.
- Error messages are an enumerated `Error`, not text. The abort of
  `correct_answer.unwrap()` is the error `UnwrapOfNone`, which is proved unreachable.
- The reward pass runs over the bets in map order. Each bet's update depends only on that
  bet, so the model applies it to all bets at once.
