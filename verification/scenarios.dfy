/** Concrete runs of the bot, each stated for every ledger that fits its
    setting. */
module Scenarios {
  import opened Options
  import opened Store
  import opened Sessions
  import opened Cooldown
  import opened Engine

  /** `/start 555` by a new user 777 while 555 exists: 777 starts with 20
      points referred by "555", one referral 555 -> 777 is recorded, 555
      gains 20, and 777 is prompted to join the channels. */
  lemma ReferralScenario(st: State)
    requires 555 in st.ledger.users && 777 !in st.ledger.users
    ensures var r := Step(st, Start(777, None, Some("555"), Some(555)));
            && r.state.ledger.users[777].balance == 20.0
            && r.state.ledger.users[777].referredBy == Some("555")
            && r.state.ledger.referrals == st.ledger.referrals + [Referral(555, 777)]
            && r.state.ledger.users[555].balance == st.ledger.users[555].balance + 20.0
            && r.reply == JoinPrompt
            && Get(r.state.sessions, 777) == AwaitingJoinCheck
  {
  }

  /** `/start abc` by a new user: 20 points and `referredBy` "abc" all the
      same, but no referral, nobody credited, no prompt and no reply. */
  lemma NonNumericReferrerScenario(st: State)
    requires 777 !in st.ledger.users
    ensures var r := Step(st, Start(777, None, Some("abc"), None));
            && r.state.ledger.users[777].balance == 20.0
            && r.state.ledger.users[777].referredBy == Some("abc")
            && r.state.ledger.referrals == st.ledger.referrals
            && r.state.sessions == st.sessions
            && r.reply == Silent
  {
  }

  /** A user with 1000 points withdraws 500: balance 500, pending 500, prompt
      cleared. A following "2000" is then not read as an amount at all, and
      pressing Withdraw again is refused at 500 points. */
  lemma WithdrawalScenario(st: State)
    requires 1 in st.ledger.users
    requires st.ledger.users[1].balance == 1000.0 && st.ledger.users[1].withdrawalRequest.None?
    ensures var s1 := Step(st, Withdraw(1));
            var s2 := Step(s1.state, AmountText(1, Some(500.0)));
            var s3 := Step(s2.state, AmountText(1, Some(2000.0)));
            var s4 := Step(s3.state, Withdraw(1));
            && s1.reply == AskAmount
            && s2.reply == WithdrawalSubmitted(500.0, 500.0)
            && s2.state.ledger.users[1].balance == 500.0
            && Pending(s2.state.ledger.users[1]) == 500.0
            && s3.reply == Silent && s3.state == s2.state
            && s4.reply == BelowThreshold(500.0) && s4.state == s2.state
  {
  }

  /** An amount above the balance is refused but the prompt stays armed, so
      the next valid amount is accepted without pressing Withdraw again. */
  lemma OverBalanceKeepsPromptScenario(st: State)
    requires 1 in st.ledger.users && st.ledger.users[1].balance == 1000.0
    requires Get(st.sessions, 1) == AwaitingWithdrawalAmount
    ensures var s1 := Step(st, AmountText(1, Some(2000.0)));
            var s2 := Step(s1.state, AmountText(1, Some(400.0)));
            && s1 == Outcome(st, ExceedsBalance(1000.0))
            && s2.reply.WithdrawalSubmitted?
            && s2.state.ledger.users[1].balance == 600.0
  {
  }

  /** Joined one channel but left the other: an alert, still not joined, no menu. */
  lemma OneChannelScenario(st: State)
    requires 1 in st.ledger.users && !st.ledger.users[1].joinedChannels
    ensures var r := Step(st, CheckJoin(1, Some(Member), Some(Left)));
            && r.reply == NotJoinedAlert
            && !r.state.ledger.users[1].joinedChannels
            && r.state == st
  {
  }

  /** A claim exactly twelve hours after the last one is still refused, with
      "0h and 0m" to wait; one millisecond later it is accepted. */
  lemma CooldownBoundaryScenario(st: State, last: int)
    requires 1 in st.ledger.users && st.ledger.users[1].lastBonusClaim == Some(last)
    ensures var r := Step(st, Bonus(1, last + CooldownMs));
            r.reply == BonusWait(Wait(0, 0)) && r.state == st
    ensures var r := Step(st, Bonus(1, last + CooldownMs + 1));
            && r.reply == BonusClaimed
            && r.state.ledger.users[1].balance == st.ledger.users[1].balance + 5.0
            && r.state.ledger.users[1].lastBonusClaim == Some(last + CooldownMs + 1)
  {
  }
}
