/** The session table in place: three request handlers over one array of slots. */
module SessionTable {
  import opened SessionModel

  class SessionTable {
    const sessions: array<Session>

    constructor (maxUsers: nat)
      ensures fresh(sessions) && sessions[..] == AllCleared(maxUsers)
    {
      sessions := new Session[maxUsers](_ => CLEARED);
    }

    /** Scans for an active slot with the token; refreshes it, or ends it if it is too old. */
    method ValidateToken(token: string, now: nat) returns (valid: bool)
      modifies sessions
      ensures valid == Accepts(old(sessions[..]), token, now)
      ensures sessions[..] == Validated(old(sessions[..]), token, now)
    {
      if token == "" {
        return false;
      }
      var i := 0;
      while i < sessions.Length
        invariant 0 <= i <= sessions.Length
        invariant sessions[..] == old(sessions[..])
        invariant i <= Find(sessions[..], token)
      {
        if sessions[i].active && sessions[i].token == token {
          assert sessions[..][i] == sessions[i];
          if Gap(now, sessions[i].lastActivity) > LIMIT {
            sessions[i] := sessions[i].(active := false);
            return false;
          }
          sessions[i] := sessions[i].(lastActivity := now);
          return true;
        }
        i := i + 1;
      }
      return false;
    }

    /** After the credentials matched: saves the token in the first free slot, if there is one. */
    method SaveToken(token: string, now: nat)
      modifies sessions
      ensures sessions[..] == Saved(old(sessions[..]), token, now)
    {
      var i := 0;
      while i < sessions.Length
        invariant 0 <= i <= sessions.Length
        invariant sessions[..] == old(sessions[..])
        invariant i <= FreeSlot(sessions[..])
      {
        if !sessions[i].active {
          assert sessions[..][i] == sessions[i];
          sessions[i] := Session(true, token, now);
          break;
        }
        i := i + 1;
      }
    }

    /** Logs everybody out if the token is valid. */
    method LogOut(token: string, ticks: nat, period: nat) returns (loggedOut: bool)
      modifies sessions
      ensures loggedOut == Accepts(old(sessions[..]), token, Stamp(ticks, period))
      ensures sessions[..] == Served(old(sessions[..]), Logout(token, ticks), period)
    {
      loggedOut := ValidateToken(token, Stamp(ticks, period));
      if loggedOut {
        var i := 0;
        while i < sessions.Length
          invariant 0 <= i <= sessions.Length
          invariant forall j :: 0 <= j < i ==> sessions[j] == CLEARED
        {
          sessions[i] := CLEARED;
          i := i + 1;
        }
        assert sessions[..] == AllCleared(sessions.Length);
      }
    }
  }
}
