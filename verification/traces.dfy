/** Properties of whole runs of the bot: users are never removed, a joined
    user stays joined and only a verified membership check makes a user
    joined, referral records are only ever appended, and a user's accepted
    bonus claims are always more than twelve hours apart. */
module Traces {
  import opened Options
  import opened Store
  import opened Sessions
  import opened Cooldown
  import opened Engine

  predicate Joined(st: State, id: UserId) {
    id in st.ledger.users && st.ledger.users[id].joinedChannels
  }

  /** One event never removes a user, never un-joins one, and only appends referrals. */
  lemma StepKeepsHistory(st: State, e: Event)
    ensures st.ledger.users.Keys <= Step(st, e).state.ledger.users.Keys
    ensures forall id :: Joined(st, id) ==> Joined(Step(st, e).state, id)
    ensures st.ledger.referrals <= Step(st, e).state.ledger.referrals
  {
  }

  /** A user becomes joined only through a "Check" by that user whose two
      membership statuses both count. */
  lemma JoinOnlyByVerifiedCheck(st: State, e: Event, id: UserId)
    requires !Joined(st, id) && Joined(Step(st, e).state, id)
    ensures e.CheckJoin? && e.user == id && Verified(e)
  {
  }

  /** Over a whole run: users persist, joined users stay joined, and the
      referral table only grows at its end. */
  lemma {:induction false} RunKeepsHistory(st: State, events: seq<Event>)
    ensures st.ledger.users.Keys <= Run(st, events).ledger.users.Keys
    ensures forall id :: Joined(st, id) ==> Joined(Run(st, events), id)
    ensures st.ledger.referrals <= Run(st, events).ledger.referrals
    decreases |events|
  {
    if events != [] {
      var next := Step(st, events[0]).state;
      StepKeepsHistory(st, events[0]);
      RunKeepsHistory(next, events[1..]);
    }
  }

  /** The time of `id`'s last accepted claim, `None` for an unknown user. */
  function LastClaim(st: State, id: UserId): Option<int> {
    if id in st.ledger.users then st.ledger.users[id].lastBonusClaim else None
  }

  /** Does event `e` in state `st` make `id` a bonus claim that is accepted? */
  predicate ClaimAccepted(st: State, e: Event, id: UserId) {
    e.Bonus? && e.user == id && Step(st, e).reply == BonusClaimed
  }

  /** The times of the claims of `id` accepted during a run, in order. */
  function ClaimTimes(st: State, events: seq<Event>, id: UserId): seq<int>
    decreases |events|
  {
    if events == [] then []
    else
      (if ClaimAccepted(st, events[0], id) then [events[0].now] else [])
      + ClaimTimes(Step(st, events[0]).state, events[1..], id)
  }

  /** Each claim time comes more than twelve hours after the one before it,
      the first after `last` when there is one. */
  predicate Spaced(last: Option<int>, times: seq<int>) {
    && (|times| > 0 && last.Some? ==> times[0] - last.value > CooldownMs)
    && forall i :: 0 <= i < |times| - 1 ==> times[i + 1] - times[i] > CooldownMs
  }

  /** Only an accepted claim moves a user's claim stamp, and it moves it to
      the claim's own time. */
  lemma StepLastClaim(st: State, e: Event, id: UserId)
    ensures LastClaim(Step(st, e).state, id)
            == if ClaimAccepted(st, e, id) then Some(e.now) else LastClaim(st, id)
    ensures ClaimAccepted(st, e, id) ==> Eligible(LastClaim(st, id), e.now)
  {
  }

  /** Across any run, the stamp is the last accepted claim, and accepted
      claims are spaced by more than the cooldown. */
  lemma {:induction false} ClaimsAreSpaced(st: State, events: seq<Event>, id: UserId)
    ensures var times := ClaimTimes(st, events, id);
            && Spaced(LastClaim(st, id), times)
            && LastClaim(Run(st, events), id)
               == if times == [] then LastClaim(st, id) else Some(times[|times| - 1])
    decreases |events|
  {
    if events != [] {
      var e := events[0];
      var next := Step(st, e).state;
      StepLastClaim(st, e, id);
      ClaimsAreSpaced(next, events[1..], id);
      var rest := ClaimTimes(next, events[1..], id);
      if ClaimAccepted(st, e, id) {
        var times := [e.now] + rest;
        assert ClaimTimes(st, events, id) == times;
        forall i | 0 <= i < |times| - 1
          ensures times[i + 1] - times[i] > CooldownMs
        {
          if i > 0 {
            assert times[i] == rest[i - 1] && times[i + 1] == rest[i];
          }
        }
      } else {
        assert ClaimTimes(st, events, id) == rest;
      }
    }
  }
}
