/** The process-local session map: which two-step interaction, if any, a
    user is in the middle of. An id that was never set reads as `Idle`, and
    so does one that was cleared (the bot writes null). */
module Sessions {
  import opened Store

  datatype Session = Idle | AwaitingJoinCheck | AwaitingWithdrawalAmount

  type SessionMap = map<UserId, Session>

  function Get(s: SessionMap, id: UserId): Session {
    if id in s then s[id] else Idle
  }

  function Set(s: SessionMap, id: UserId, v: Session): (r: SessionMap)
    ensures Get(r, id) == v
    ensures forall other :: other != id ==> Get(r, other) == Get(s, other)
  {
    s[id := v]
  }
}
