/** The ledger kept in the hosted database, modelled as an in-memory value:
    the `users` table keyed by platform user id, the `referrals` table in
    insertion order, and the one remote procedure, `increment_balance`,
    which adds to a balance atomically. */
module Store {
  import opened Options

  type UserId = int

  /** A row of `users`. Balances and withdrawal totals are numeric columns
      that may hold fractional points (a withdrawal amount is whatever the
      user typed), so they are exact reals here. `lastBonusClaim` is a
      timestamp in milliseconds; `withdrawalRequest` is null until the first
      withdrawal. */
  datatype User = User(
    username: Option<string>,
    balance: real,
    referredBy: Option<string>,
    joinedChannels: bool,
    lastBonusClaim: Option<int>,
    withdrawalRequest: Option<real>)

  /** A row of `referrals`. */
  datatype Referral = Referral(referrer: UserId, referred: UserId)

  datatype Ledger = Ledger(users: map<UserId, User>, referrals: seq<Referral>)

  const Empty: Ledger := Ledger(map[], [])

  /** The pending withdrawal total as the bot reads it: a null column counts as 0. */
  function Pending(u: User): real {
    if u.withdrawalRequest.Some? then u.withdrawalRequest.value else 0.0
  }

  /** The row `/start` inserts; the columns it does not name keep their
      defaults (not joined, never claimed, no withdrawal). */
  function NewUser(username: Option<string>, balance: real, referredBy: Option<string>): User {
    User(username, balance, referredBy, false, None, None)
  }

  function Insert(l: Ledger, id: UserId, u: User): Ledger
    requires id !in l.users
  {
    l.(users := l.users[id := u])
  }

  function AddReferral(l: Ledger, r: Referral): Ledger {
    l.(referrals := l.referrals + [r])
  }

  /** An `update ... eq('id', id)`: rewrites the row if it exists and
      touches nothing otherwise. */
  function Update(l: Ledger, id: UserId, u: User): Ledger {
    if id in l.users then l.(users := l.users[id := u]) else l
  }

  /** The remote procedure `increment_balance(user_id, amount)`: one
      server-side addition, so concurrent credits cannot lose each other. */
  function IncrementBalance(l: Ledger, id: UserId, amount: real): (r: Ledger)
    ensures r.referrals == l.referrals && r.users.Keys == l.users.Keys
    ensures forall other :: other in l.users && other != id ==> r.users[other] == l.users[other]
    ensures id in l.users ==>
              && r.users[id].balance == l.users[id].balance + amount
              && r.users[id] == l.users[id].(balance := r.users[id].balance)
  {
    if id in l.users then
      var u := l.users[id];
      l.(users := l.users[id := u.(balance := u.balance + amount)])
    else
      l
  }

  /** Applying `increment_balance` to `id` `n` times in a row. */
  function Repeat(l: Ledger, id: UserId, amount: real, n: nat): Ledger {
    if n == 0 then l else IncrementBalance(Repeat(l, id, amount, n - 1), id, amount)
  }

  /** Credits to a user add up: `n` increments of `amount` raise the balance
      by exactly `n * amount` and change nothing else. */
  lemma {:induction false} RepeatedIncrements(l: Ledger, id: UserId, amount: real, n: nat)
    requires id in l.users
    ensures var r := Repeat(l, id, amount, n);
            && r.users.Keys == l.users.Keys
            && r.referrals == l.referrals
            && r.users[id] == l.users[id].(balance := l.users[id].balance + (n as real) * amount)
            && forall other :: other in l.users && other != id ==> r.users[other] == l.users[other]
  {
    if n > 0 {
      RepeatedIncrements(l, id, amount, n - 1);
    }
  }

  /** Two increments commute, whichever users they target: the order in
      which concurrent credits arrive does not change the final ledger. */
  lemma IncrementsCommute(l: Ledger, a: UserId, x: real, b: UserId, y: real)
    ensures IncrementBalance(IncrementBalance(l, a, x), b, y)
         == IncrementBalance(IncrementBalance(l, b, y), a, x)
  {
  }
}
