/** The conversation engine: the decisions of the bot's event handlers with
    the chat platform and the database taken out. Each inbound event maps the
    ledger and the session map to new ones plus the kind of reply sent. */
module Engine {
  import opened Options
  import opened Store
  import opened Sessions
  import opened Cooldown

  const ReferralBonus: real := 20.0
  const BonusAmount: real := 5.0
  const MinWithdrawal: real := 1000.0

  /** A user's status in a channel as the platform's membership query reports it. */
  datatype ChatStatus = Creator | Administrator | Member | Restricted | Left | Kicked

  predicate CountsAsJoined(s: ChatStatus) {
    s == Member || s == Administrator || s == Creator
  }

  /** Inbound events. The platform calls and the text parsing happen outside:
      `param` is the second space-separated word of the `/start` text and
      `paramAsInt` what `parseInt` makes of it; a channel status is `None`
      when the membership query failed; `amount` is what `parseFloat` makes
      of a free-text message, `None` for NaN; `now` is the clock in ms. */
  datatype Event =
    | Start(user: UserId, username: Option<string>, param: Option<string>, paramAsInt: Option<int>)
    | CheckJoin(user: UserId, channel1: Option<ChatStatus>, channel2: Option<ChatStatus>)
    | Withdraw(user: UserId)
    | AmountText(user: UserId, amount: Option<real>)
    | Bonus(user: UserId, now: int)

  /** The kind of reply sent; `Silent` when the handler sends nothing. */
  datatype Reply =
    | Silent
    | JoinPrompt
    | MainMenu
    | NotJoinedAlert
    | CheckFailedAlert
    | AskAmount
    | BelowThreshold(balance: real)
    | FetchFailed
    | InvalidAmount
    | ExceedsBalance(balance: real)
    | WithdrawalSubmitted(amount: real, pending: real)
    | BonusClaimed
    | BonusWait(wait: Wait)

  datatype State = State(ledger: Ledger, sessions: SessionMap)

  datatype Outcome = Outcome(state: State, reply: Reply)

  const Init: State := State(Empty, map[])

  /** A `/start` parameter counts when it is a non-empty word. */
  predicate HasParam(param: Option<string>) {
    param.Some? && param.value != []
  }

  /** The id a `/start` links as referrer and credits: only for a user seen
      for the first time, with a parameter that parses as an integer. */
  function CreditedReferrer(st: State, e: Event): Option<UserId>
    requires e.Start?
  {
    if e.user !in st.ledger.users && HasParam(e.param) && e.paramAsInt.Some? then e.paramAsInt
    else None
  }

  /** After the user row is known: prompt to join the channels (arming the
      join check) unless the user already joined, else show the main menu. */
  function Gate(st: State, id: UserId, u: User): Outcome {
    if !u.joinedChannels then
      Outcome(st.(sessions := Set(st.sessions, id, AwaitingJoinCheck)), JoinPrompt)
    else
      Outcome(st, MainMenu)
  }

  /** `/start`. A new user gets 20 points and `referredBy` for any non-empty
      parameter; the referral record and the referrer's credit follow only
      when the parameter parses as an integer, and otherwise the handler
      stops there without prompting. */
  function OnStart(st: State, e: Event): (r: Outcome)
    requires e.Start?
    // an existing user: the ledger is untouched
    ensures e.user in st.ledger.users ==> r.state.ledger == st.ledger
    // a new user: one row added, holding the starting balance and the raw parameter
    ensures e.user !in st.ledger.users ==>
              && r.state.ledger.users.Keys == st.ledger.users.Keys + {e.user}
              && var u := r.state.ledger.users[e.user];
                 && u.username == e.username
                 && u.referredBy == (if HasParam(e.param) then e.param else None)
                 && !u.joinedChannels && u.lastBonusClaim.None? && u.withdrawalRequest.None?
                 && u.balance == (if HasParam(e.param) then ReferralBonus else 0.0)
                                 + (if CreditedReferrer(st, e) == Some(e.user) then ReferralBonus else 0.0)
    // exactly one referral record, exactly when a referrer is credited
    ensures r.state.ledger.referrals
            == st.ledger.referrals
               + (if CreditedReferrer(st, e).Some? then [Referral(CreditedReferrer(st, e).value, e.user)] else [])
    // existing users change only by the referrer's 20-point credit
    ensures forall other :: other in st.ledger.users ==>
              && other in r.state.ledger.users
              && r.state.ledger.users[other].balance
                 == st.ledger.users[other].balance
                    + (if CreditedReferrer(st, e) == Some(other) then ReferralBonus else 0.0)
              && r.state.ledger.users[other]
                 == st.ledger.users[other].(balance := r.state.ledger.users[other].balance)
    // a non-numeric parameter ends the handler: no reply, no session change
    ensures r.reply == Silent <==>
              e.user !in st.ledger.users && HasParam(e.param) && e.paramAsInt.None?
    ensures r.reply == Silent ==> r.state.sessions == st.sessions
    // otherwise the join prompt is armed iff the user has not joined
    ensures r.reply != Silent ==>
              var joined := e.user in st.ledger.users && st.ledger.users[e.user].joinedChannels;
              && (joined ==> r.reply == MainMenu && r.state.sessions == st.sessions)
              && (!joined ==> r.reply == JoinPrompt
                              && Get(r.state.sessions, e.user) == AwaitingJoinCheck
                              && forall other :: other != e.user ==>
                                   Get(r.state.sessions, other) == Get(st.sessions, other))
  {
    var users := st.ledger.users;
    if e.user in users then
      Gate(st, e.user, users[e.user])
    else
      var linked := HasParam(e.param);
      var u := NewUser(e.username, if linked then ReferralBonus else 0.0, if linked then e.param else None);
      var created := Insert(st.ledger, e.user, u);
      if !linked then
        Gate(st.(ledger := created), e.user, u)
      else if e.paramAsInt.None? then
        Outcome(st.(ledger := created), Silent)
      else
        var referrer := e.paramAsInt.value;
        var credited := IncrementBalance(AddReferral(created, Referral(referrer, e.user)), referrer, ReferralBonus);
        Gate(st.(ledger := credited), e.user, u)
  }

  /** Both statuses must be member, administrator or creator. */
  predicate Verified(e: Event)
    requires e.CheckJoin?
  {
    && e.channel1.Some? && CountsAsJoined(e.channel1.value)
    && e.channel2.Some? && CountsAsJoined(e.channel2.value)
  }

  /** The "Check" button: record the join when both memberships are
      verified; the session map is never touched. */
  function OnCheckJoin(st: State, e: Event): (r: Outcome)
    requires e.CheckJoin?
    ensures r.state.sessions == st.sessions
    ensures r.state.ledger.referrals == st.ledger.referrals
    ensures r.state.ledger.users.Keys == st.ledger.users.Keys
    // only the caller's join flag can change, and it is raised iff both checks pass
    ensures forall id :: id in st.ledger.users ==>
              && r.state.ledger.users[id].joinedChannels
                 == (st.ledger.users[id].joinedChannels || (id == e.user && Verified(e)))
              && r.state.ledger.users[id]
                 == st.ledger.users[id].(joinedChannels := r.state.ledger.users[id].joinedChannels)
    ensures !Verified(e) ==> r.state.ledger == st.ledger
    ensures r.reply == MainMenu <==> Verified(e)
    ensures r.reply == CheckFailedAlert <==> e.channel1.None? || e.channel2.None?
    ensures e.channel1.Some? && e.channel2.Some? && !Verified(e) ==> r.reply == NotJoinedAlert
  {
    if e.channel1.None? || e.channel2.None? then
      Outcome(st, CheckFailedAlert)
    else if Verified(e) then
      var l := st.ledger;
      var l' := if e.user in l.users then Update(l, e.user, l.users[e.user].(joinedChannels := true)) else l;
      Outcome(st.(ledger := l'), MainMenu)
    else
      Outcome(st, NotJoinedAlert)
  }

  /** The Withdraw button: arm the amount prompt iff the balance reaches the
      1000-point minimum. */
  function OnWithdraw(st: State, e: Event): (r: Outcome)
    requires e.Withdraw?
    ensures r.state.ledger == st.ledger
    ensures var eligible := e.user in st.ledger.users && st.ledger.users[e.user].balance >= MinWithdrawal;
            && (eligible ==> Get(r.state.sessions, e.user) == AwaitingWithdrawalAmount && r.reply == AskAmount)
            && (!eligible ==> r.state.sessions == st.sessions)
            && (forall other :: other != e.user ==> Get(r.state.sessions, other) == Get(st.sessions, other))
    ensures e.user !in st.ledger.users ==> r.reply == FetchFailed
    ensures e.user in st.ledger.users && st.ledger.users[e.user].balance < MinWithdrawal ==>
              r.reply == BelowThreshold(st.ledger.users[e.user].balance)
  {
    if e.user !in st.ledger.users then
      Outcome(st, FetchFailed)
    else if st.ledger.users[e.user].balance >= MinWithdrawal then
      Outcome(st.(sessions := Set(st.sessions, e.user, AwaitingWithdrawalAmount)), AskAmount)
    else
      Outcome(st, BelowThreshold(st.ledger.users[e.user].balance))
  }

  /** A free-text message, read as a withdrawal amount only while the amount
      prompt is armed. A valid amount moves from the balance to the pending
      withdrawal total and disarms the prompt; an over-balance amount is
      refused and leaves the prompt armed. */
  function OnAmount(st: State, e: Event): (r: Outcome)
    requires e.AmountText?
    ensures r.state.ledger.referrals == st.ledger.referrals
    ensures r.state.ledger.users.Keys == st.ledger.users.Keys
    ensures forall other :: other in st.ledger.users && other != e.user ==>
              r.state.ledger.users[other] == st.ledger.users[other]
    ensures forall other :: other != e.user ==> Get(r.state.sessions, other) == Get(st.sessions, other)
    // not armed, or not a positive number: nothing changes
    ensures Get(st.sessions, e.user) != AwaitingWithdrawalAmount ==> r == Outcome(st, Silent)
    ensures Get(st.sessions, e.user) == AwaitingWithdrawalAmount && (e.amount.None? || e.amount.value <= 0.0) ==>
              r == Outcome(st, InvalidAmount)
    // more than the balance: refused, prompt still armed
    ensures Get(st.sessions, e.user) == AwaitingWithdrawalAmount && e.amount.Some? && e.amount.value > 0.0
            && e.user in st.ledger.users && e.amount.value > st.ledger.users[e.user].balance ==>
              r == Outcome(st, ExceedsBalance(st.ledger.users[e.user].balance))
    // the row is gone: prompt cleared, ledger untouched
    ensures Get(st.sessions, e.user) == AwaitingWithdrawalAmount && e.amount.Some? && e.amount.value > 0.0
            && e.user !in st.ledger.users ==>
              r.state.ledger == st.ledger && Get(r.state.sessions, e.user) == Idle && r.reply == FetchFailed
    // accepted: balance and pending total move in lockstep, prompt cleared
    ensures r.reply.WithdrawalSubmitted? <==>
              && Get(st.sessions, e.user) == AwaitingWithdrawalAmount
              && e.amount.Some? && e.amount.value > 0.0
              && e.user in st.ledger.users && e.amount.value <= st.ledger.users[e.user].balance
    ensures r.reply.WithdrawalSubmitted? ==>
              var u, u' := st.ledger.users[e.user], r.state.ledger.users[e.user];
              && u'.balance == u.balance - e.amount.value
              && Pending(u') == Pending(u) + e.amount.value
              && r.reply == WithdrawalSubmitted(e.amount.value, Pending(u'))
              && u' == u.(balance := u'.balance, withdrawalRequest := u'.withdrawalRequest)
              && Get(r.state.sessions, e.user) == Idle
    // for the caller: no negative balance is produced, and balance plus pending is conserved
    ensures e.user in st.ledger.users ==>
              var u, u' := st.ledger.users[e.user], r.state.ledger.users[e.user];
              && (u'.balance >= 0.0 || u' == u)
              && u'.balance + Pending(u') == u.balance + Pending(u)
  {
    if Get(st.sessions, e.user) != AwaitingWithdrawalAmount then
      Outcome(st, Silent)
    else if e.amount.None? || e.amount.value <= 0.0 then
      Outcome(st, InvalidAmount)
    else if e.user !in st.ledger.users then
      Outcome(st.(sessions := Set(st.sessions, e.user, Idle)), FetchFailed)
    else
      var u := st.ledger.users[e.user];
      var amount := e.amount.value;
      if amount > u.balance then
        Outcome(st, ExceedsBalance(u.balance))
      else
        var total := Pending(u) + amount;
        var l := Update(st.ledger, e.user, u.(balance := u.balance - amount, withdrawalRequest := Some(total)));
        Outcome(State(l, Set(st.sessions, e.user, Idle)), WithdrawalSubmitted(amount, total))
  }

  /** The Bonus button: credit 5 points and stamp the claim time when
      eligible; otherwise report the remaining wait. */
  function OnBonus(st: State, e: Event): (r: Outcome)
    requires e.Bonus?
    ensures r.state.sessions == st.sessions
    ensures r.state.ledger.referrals == st.ledger.referrals
    ensures r.state.ledger.users.Keys == st.ledger.users.Keys
    ensures forall other :: other in st.ledger.users && other != e.user ==>
              r.state.ledger.users[other] == st.ledger.users[other]
    ensures r.reply == BonusClaimed <==>
              e.user in st.ledger.users && Eligible(st.ledger.users[e.user].lastBonusClaim, e.now)
    ensures r.reply == BonusClaimed ==>
              var u, u' := st.ledger.users[e.user], r.state.ledger.users[e.user];
              && u'.balance == u.balance + BonusAmount
              && u'.lastBonusClaim == Some(e.now)
              && u' == u.(balance := u'.balance, lastBonusClaim := u'.lastBonusClaim)
    ensures r.reply != BonusClaimed ==> r.state.ledger == st.ledger
    ensures e.user !in st.ledger.users ==> r.reply == FetchFailed
    ensures e.user in st.ledger.users && !Eligible(st.ledger.users[e.user].lastBonusClaim, e.now) ==>
              var elapsed := e.now - st.ledger.users[e.user].lastBonusClaim.value;
              && r.reply.BonusWait?
              && Span(r.reply.wait) <= CooldownMs - elapsed < Span(r.reply.wait) + MinuteMs
              && 0 <= r.reply.wait.minutes < 60
  {
    if e.user !in st.ledger.users then
      Outcome(st, FetchFailed)
    else
      var u := st.ledger.users[e.user];
      if Eligible(u.lastBonusClaim, e.now) then
        var l := IncrementBalance(st.ledger, e.user, BonusAmount);
        var l' := Update(l, e.user, l.users[e.user].(lastBonusClaim := Some(e.now)));
        Outcome(st.(ledger := l'), BonusClaimed)
      else
        Outcome(st, BonusWait(Remaining(e.now - u.lastBonusClaim.value)))
  }

  /** One inbound event, dispatched to its handler. */
  function Step(st: State, e: Event): Outcome {
    match e
    case Start(_, _, _, _) => OnStart(st, e)
    case CheckJoin(_, _, _) => OnCheckJoin(st, e)
    case Withdraw(_) => OnWithdraw(st, e)
    case AmountText(_, _) => OnAmount(st, e)
    case Bonus(_, _) => OnBonus(st, e)
  }

  /** Events handled one after another, as a single process would. */
  function Run(st: State, events: seq<Event>): State
    decreases |events|
  {
    if events == [] then st else Run(Step(st, events[0]).state, events[1..])
  }
}
