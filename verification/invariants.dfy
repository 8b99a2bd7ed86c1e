/** What every state reachable from the empty ledger satisfies: balances and
    pending totals are never negative, every referral's referred user is
    registered (the referrer may be any id) and no user is referred twice,
    and an armed withdrawal prompt always belongs to a registered user whose
    balance meets the minimum. */
module Invariants {
  import opened Options
  import opened Store
  import opened Sessions
  import opened Engine

  predicate NonNegative(l: Ledger) {
    forall id :: id in l.users ==> l.users[id].balance >= 0.0 && Pending(l.users[id]) >= 0.0
  }

  /** The referred end of each referral is a registered user, once only;
      the referrer end is whatever id the parameter parsed to. */
  predicate ReferralsWellFormed(l: Ledger) {
    && (forall i :: 0 <= i < |l.referrals| ==> l.referrals[i].referred in l.users)
    && (forall i, j :: 0 <= i < j < |l.referrals| ==> l.referrals[i].referred != l.referrals[j].referred)
  }

  predicate ArmedAboveMinimum(st: State) {
    forall id :: id in st.sessions && st.sessions[id] == AwaitingWithdrawalAmount ==>
      id in st.ledger.users && st.ledger.users[id].balance >= MinWithdrawal
  }

  predicate Inv(st: State) {
    NonNegative(st.ledger) && ReferralsWellFormed(st.ledger) && ArmedAboveMinimum(st)
  }

  lemma InitSatisfiesInv()
    ensures Inv(Init)
  {
  }

  /** Every handler keeps the invariant. */
  lemma StepPreservesInv(st: State, e: Event)
    requires Inv(st)
    ensures Inv(Step(st, e).state)
  {
  }

  /** The invariant holds after any sequence of events from a state that has it. */
  lemma {:induction false} RunPreservesInv(st: State, events: seq<Event>)
    requires Inv(st)
    ensures Inv(Run(st, events))
    decreases |events|
  {
    if events != [] {
      StepPreservesInv(st, events[0]);
      RunPreservesInv(Step(st, events[0]).state, events[1..]);
    }
  }

  /** So every state the bot can reach from an empty ledger has it. */
  lemma ReachableSatisfiesInv(events: seq<Event>)
    ensures Inv(Run(Init, events))
  {
    InitSatisfiesInv();
    RunPreservesInv(Init, events);
  }

  /** In a reachable state the amount handler's "could not verify your
      balance" branch never fires: an armed prompt always finds the row. */
  lemma ArmedAmountFindsUser(st: State, id: UserId, amount: Option<real>)
    requires Inv(st)
    ensures Step(st, AmountText(id, amount)).reply != FetchFailed
  {
  }
}
