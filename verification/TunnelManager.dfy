/** The supervisor as it runs: each method performs the critical section of the same name in Tunnel. */
module TunnelManager {
  import opened Wrappers
  import opened Tunnel

  class Manager {
    const cfg: Settings
    var process: Option<Child>
    var closed: bool
    var status: Status
    var lastError: string
    var restartToken: nat
    var restartCount: nat

    ghost function Abs(): State
      reads this
    {
      State(cfg, process, closed, status, lastError, restartToken, restartCount)
    }

    constructor (settings: Settings)
      ensures Abs() == Initial(settings)
    {
      cfg := settings;
      process, closed, status, lastError, restartToken, restartCount := None, false, Idle(settings), "", 0, 0;
    }

    method ConfiguredSnapshot(state: Status, error: string)
      modifies this`status, this`lastError
      ensures status == state && lastError == error
    {
      status, lastError := state, error;
    }

    /** The attempt says whether the profile can be written and the child started; id is the new child's. */
    method LaunchLocked(a: Attempt, id: nat, now: int) returns (ok: bool)
      modifies this
      ensures ok == a.Starts? && Abs() == Launch(old(Abs()), a, id, now)
    {
      if a.ProfileFails? {
        ConfiguredSnapshot(Failed, "OPENAI_TUNNEL_PROFILE_WRITE_FAILED");
        return false;
      }
      if a.StartFails? {
        ConfiguredSnapshot(Failed, "OPENAI_TUNNEL_START_FAILED");
        return false;
      }
      process := Some(Child(id, now));
      ConfiguredSnapshot(Running, "");
      return true;
    }

    method ScheduleRestartLocked(error: string) returns (timer: Option<Timer>)
      modifies this
      ensures (Abs(), timer) == ScheduleRestart(old(Abs()), error)
    {
      if closed { return None; }
      if restartCount >= cfg.maxRestarts {
        ConfiguredSnapshot(Failed, error);
        return None;
      }
      restartCount := restartCount + 1;
      var delay := Backoff(restartCount);
      restartToken := restartToken + 1;
      ConfiguredSnapshot(Restarting, error);
      return Some(Timer(restartToken, delay));
    }

    /** The delay before the n-th restart, doubled for each one before it. */
    method Backoff(n: nat) returns (delay: int)
      requires 1 <= n
      ensures delay == cfg.restartDelay * Pow2(n - 1)
    {
      delay := cfg.restartDelay;
      for attempt := 1 to n
        invariant delay == cfg.restartDelay * Pow2(attempt - 1)
      {
        delay := delay * 2;
      }
    }

    /** error is what Start returns; timer is the restart it schedules. */
    method Start(executable: bool, a: Attempt, id: nat, now: int) returns (error: Option<string>, timer: Option<Timer>)
      modifies this
      ensures (Abs(), timer) == Tunnel.Start(old(Abs()), executable, a, id, now)
      ensures error == None ==> !old(closed) && (!cfg.enabled || process.Some?)
    {
      if closed { return Some("OPENAI_TUNNEL_CLOSED"), None; }
      if !cfg.enabled {
        ConfiguredSnapshot(Disabled, "");
        return None, None;
      }
      ConfiguredSnapshot(Starting, "");
      if cfg.key.NoKey? {
        ConfiguredSnapshot(Blocked, "OPENAI_TUNNEL_API_KEY_MISSING");
        return Some("OPENAI_TUNNEL_API_KEY_MISSING"), None;
      }
      if cfg.key.BadKey? {
        ConfiguredSnapshot(Blocked, "OPENAI_TUNNEL_API_KEY_INVALID");
        return Some("OPENAI_TUNNEL_API_KEY_INVALID"), None;
      }
      if !executable {
        ConfiguredSnapshot(Failed, "OPENAI_TUNNEL_RUNTIME_MISSING");
        return Some("OPENAI_TUNNEL_RUNTIME_MISSING"), None;
      }
      if process.Some? {
        ConfiguredSnapshot(Running, "");
        return None, None;
      }
      restartToken := restartToken + 1;
      restartCount := 0;
      var ok := LaunchLocked(a, id, now);
      if !ok {
        timer := ScheduleRestartLocked("OPENAI_TUNNEL_START_FAILED");
        return Some(if a.ProfileFails? then "OPENAI_TUNNEL_PROFILE_WRITE_FAILED" else "OPENAI_TUNNEL_START_FAILED"), timer;
      }
      return None, None;
    }

    /** What wait does once its child has exited. */
    method Wait(id: nat, now: int) returns (timer: Option<Timer>)
      modifies this
      ensures (Abs(), timer) == Exited(old(Abs()), id, now)
    {
      if process.None? || process.value.id != id { return None; }
      var startedAt := process.value.startedAt;
      process := None;
      if closed {
        ConfiguredSnapshot(Idle(cfg), "");
        return None;
      }
      if now - startedAt >= cfg.stableRuntime { restartCount := 0; }
      timer := ScheduleRestartLocked("OPENAI_TUNNEL_EXITED");
    }

    /** What restartAfter does once its timer has fired. */
    method RestartAfter(token: nat, a: Attempt, id: nat, now: int) returns (timer: Option<Timer>)
      modifies this
      ensures (Abs(), timer) == Fires(old(Abs()), token, a, id, now)
    {
      if closed || process.Some? || token != restartToken { return None; }
      ConfiguredSnapshot(Starting, "OPENAI_TUNNEL_EXITED");
      var ok := LaunchLocked(a, id, now);
      if !ok {
        timer := ScheduleRestartLocked("OPENAI_TUNNEL_RESTART_FAILED");
        return;
      }
      return None;
    }

    /** The critical section of Close; the child it gives up is then killed and waited for. */
    method Close() returns (run: Option<Child>)
      modifies this
      ensures Abs() == Tunnel.Close(old(Abs())) && run == if old(closed) then None else old(process)
    {
      if closed { return None; }
      closed := true;
      restartToken := restartToken + 1;
      run := process;
      process := None;
      ConfiguredSnapshot(Idle(cfg), "");
    }
  }

}
