# Referral bot conversation engine in Dafny

This project models the decision logic of a chat bot that rewards referrals.
A user starts the bot, possibly through a referral link. The bot then asks
them to join two sponsor channels. After that it offers a menu with periodic
bonus claims and withdrawal requests against a points ledger.

The bot's event handlers are taken out of their chat-platform and database
calls. They are modelled as one pure state machine, `Engine.Step`. The state
has two parts:

- the ledger (`Store.Ledger`): the `users` rows keyed by user id, plus the
  `referrals` rows in insertion order;
- the process-local session map (`Sessions.SessionMap`): `Idle`,
  `AwaitingJoinCheck` or `AwaitingWithdrawalAmount` per user.

Each event maps a state to a new state and an abstract reply kind
(`Engine.Reply`). The events are `/start` with its optional parameter, the
"Check" button with the two channel statuses, Withdraw, a free-text amount,
and Bonus with the current time in milliseconds. `Engine.Run` feeds a
sequence of events one at a time.

Modules:

- `Options`: the optional value.
- `Store`: the ledger and the atomic `increment_balance` procedure.
- `Sessions`: the session map.
- `Cooldown`: bonus eligibility and the hours/minutes arithmetic.
- `Engine`: the handlers and `Step`.
- `Invariants`: what every reachable state satisfies.
- `Traces`: properties of whole runs.
- `Scenarios`: concrete runs.

Conventions:

- Points and amounts are exact `real`s. The amount a user types may be
  fractional, so after a withdrawal balances may be too.
- Times are integer milliseconds.
- `Math.floor` and JavaScript's `%` are written out explicitly
  (`Cooldown.FloorDiv`, `Cooldown.JsRem`).
- The `username` column is written only when the row is created, as in the
  code.
- `AwaitingJoinCheck` is set as in the code, which never reads it back.

## Where the code departs from the evident intent

The model follows the code in `index.js`, including these points where the
intended rule might be expected to differ:

- A new user whose `/start` parameter is not numeric still gets 20 points,
  and `referred_by` holds the raw text (index.js:98-101). A user with an
  invalid referrer might be expected to start at 0. After that the handler
  returns with no reply and no join prompt (index.js:116-118).
- An amount above the balance is refused, but the withdrawal prompt stays
  armed (index.js:275-277). One might expect the prompt to be cleared.
- A bonus claim needs strictly more than twelve hours since the last one
  (index.js:340). One might expect "at least twelve hours". At exactly
  twelve hours the reply is a wait of 0h 0m (`Scenarios.CooldownBoundaryScenario`).
- A self-referral (`/start <own id>` by a new user) credits the new row
  itself, which then holds 40 points (`Engine.OnStart`).

## Model

| member | source | states |
|---|---|---|
| Engine.OnStart | index.js:95-149 | An existing user's ledger is untouched. A new user gets exactly one row: 20 points and `referredBy` set to the raw parameter when any non-empty parameter is given, else 0 and none. A referral record (referrer → new user) is appended, and the referrer gains exactly 20 with nothing else changed, iff the parameter parses as an integer. A non-numeric parameter yields no reply and no session change. Otherwise the join prompt is armed iff the user has not joined, and the menu is shown with sessions untouched if they have. |
| Engine.OnCheckJoin | index.js:157-179 | The session map is never changed. Only the caller's `joinedChannels` can change, and it is raised iff both statuses are member, administrator or creator. Otherwise the ledger is unchanged. The menu is shown iff both checks pass. A failed membership query gives the error alert, and two known statuses that do not both count give the "not joined all channels" alert. |
| Engine.OnWithdraw | index.js:233-249 | The ledger is unchanged. The amount prompt is armed iff the user exists with balance ≥ 1000. Otherwise the sessions are unchanged and the reply reports the balance, or the fetch failure for an unknown user. |
| Engine.OnAmount | index.js:257-298 | Without an armed prompt nothing changes. A missing or non-positive amount changes nothing. An amount above the balance changes nothing and keeps the prompt armed. A missing row clears the prompt only. An accepted amount lowers the balance by the amount, raises the pending total (null read as 0) by the same amount and clears the prompt. So the balance never goes negative and balance plus pending is conserved. No other user or session changes. |
| Engine.OnBonus | index.js:325-363 | The claim is accepted iff the user exists and has no earlier claim, or more than 12 h (strict) have passed. Acceptance adds exactly 5 points and stamps `lastBonusClaim := now`, with nothing else changed. Otherwise the ledger is unchanged, and the reported wait is within a minute below the time left. |
| Cooldown.Remaining | index.js:358-360 | The hours and minutes reported: minutes in 0..59, and hours·1h + minutes·1min ≤ time left < that + 1 min. Hours ≤ 12 (and 12 only with 0 minutes) when the last claim is not in the future. Exactly 12 h elapsed gives 0h 0m. |
| Cooldown.RemainingIsUnique | index.js:358-360 | Those bounds determine the reported hours and minutes uniquely. |
| Sessions.Set | index.js:245 | Writes one user's session (`userState[userId] = …`); every other user's session reads as before. |
| Store.IncrementBalance | index.js:124 | The `increment_balance` procedure raises exactly one existing user's balance by the amount. No other row, field or referral changes. An unknown id changes nothing. |
| Store.RepeatedIncrements | index.js:123-124 | n successive credits of A raise the balance by exactly n·A and change nothing else. |
| Store.IncrementsCommute | index.js:342 | Two atomic increments commute, so the order in which concurrent credits land does not matter. |
| Invariants.StepPreservesInv | index.js:244-296 | Every handler preserves the invariant. No balance or pending total is negative. Every referral's referred user is registered, and no user is referred twice. An armed withdrawal prompt belongs to a registered user with balance ≥ 1000. |
| Invariants.RunPreservesInv | index.js:82-364 | The invariant holds after any sequence of events. |
| Invariants.ReachableSatisfiesInv | index.js:82-364 | Every state reachable from the empty ledger satisfies the invariant. |
| Invariants.ArmedAmountFindsUser | index.js:270-273 | In such a state, an amount message never reaches the "could not verify your balance" branch. |
| Traces.StepKeepsHistory | index.js:165-168 | No event removes a user or un-joins one. Referrals are only appended. |
| Traces.JoinOnlyByVerifiedCheck | index.js:162-168 | A user becomes joined only through their own "Check" with both statuses verified. |
| Traces.RunKeepsHistory | index.js:121 | Over any run, users persist, joined users stay joined, and the referral table only grows at its end. |
| Traces.StepLastClaim | index.js:349-352 | Only an accepted claim moves the claim stamp, to that claim's time, and it was eligible against the previous stamp. |
| Traces.ClaimsAreSpaced | index.js:336-354 | Over any run, a user's accepted claims are each more than 12 h after the previous one, and the stamp holds the last of them. |
| Scenarios.ReferralScenario | index.js:97-129 | `/start 555` by a new user 777: 777 has 20 points, referred by "555", and a referral 555→777 is recorded. 555 gains 20. 777 is prompted to join. |
| Scenarios.NonNumericReferrerScenario | index.js:114-119 | `/start abc`: 20 points and referred by "abc", but no referral, no credit, no prompt and no reply. |
| Scenarios.WithdrawalScenario | index.js:244-297 | 1000 points, withdraw 500: balance 500 and pending 500. A following "2000" is ignored, and Withdraw is then refused at 500. |
| Scenarios.OverBalanceKeepsPromptScenario | index.js:275-277 | An over-balance amount is refused with the prompt still armed. A following valid amount is accepted. |
| Scenarios.OneChannelScenario | index.js:162-175 | One channel joined and one left: an alert, still not joined, state unchanged. |
| Scenarios.CooldownBoundaryScenario | index.js:336-360 | At exactly 12 h the claim is refused with 0h 0m to wait. At 12 h + 1 ms it is accepted. |

## Left out

- The web server, webhook route, webhook registration, keep-alive ping and
  signal handlers (index.js:31-78, 366-379). These are I/O and process
  lifecycle.
- All chat-platform calls: sending messages, answering callbacks, deleting
  the prompt, keyboards and texts. Replies are abstract tags, and the main
  menu (index.js:183-196) is the `MainMenu` tag. Membership statuses come in
  as event inputs.
- The Balance, Refer, Contact and Earn More handlers (index.js:198-227,
  301-319). They only read the ledger or send fixed text, and change no
  state.
- Database failures: insert, RPC, fetch and update errors (index.js:106-109,
  126-128, 130-133, 290-294, 331-334, 344-347). The ledger is an in-memory
  map that is always available. A missing row is still modelled wherever the
  code handles it.
- The body of the `increment_balance` procedure is not part of this model.
  It is taken to touch no row when the id is unknown.
- The re-read of a newly created user (index.js:111-112) is taken to return
  the inserted row, so the crash when it returns nothing is left out.
- The generic message handler also sees commands and menu labels
  (index.js:252). Only free-text amounts are modelled as `AmountText`.
- Text parsing: the `/start` regex, `split`, `parseInt` prefix semantics,
  `parseFloat`. Their results are event inputs.
- IEEE floating point. Amounts and balances are exact reals.
- ISO timestamp strings. Times are integer milliseconds.
- Concurrency, including the read-then-write double spend on withdrawals
  (index.js:264-288). `Engine.Run` handles events one at a time.
