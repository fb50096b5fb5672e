/** The coding service as it runs: its maps and its session records, updated in place. */
module CodingService {
  import opened Wrappers
  import opened Coding
  import Text
  import Workspace

  /** sameTargetRef: with or without the prefix, the same branch. */
  predicate SameTargetRef(left: string, right: string) {
    || Text.Trim(left) == Text.Trim(right)
    || Text.TrimPrefix(Text.Trim(left), Workspace.HEADS_PREFIX) == Text.TrimPrefix(Text.Trim(right), Workspace.HEADS_PREFIX)
  }

  /** An expected commit is compared without regard to case, and not at all when blank. */
  predicate SameCommit(expected: string, commit: string) {
    Text.Trim(expected) == "" || Workspace.Lower(Text.Trim(expected)) == Workspace.Lower(commit)
  }

  class Record {
    const repository: string
    const targetRef: string
    const resolvedCommit: string
    var busy: bool
    var closing: bool
    var cancel: Option<nat>
    var done: Option<nat>

    ghost function Value(): Session
      reads this
    {
      Session(repository, busy, closing, cancel, done)
    }

    constructor (repo: string, target: string, commit: string)
      ensures Value() == NewSession(repo) && targetRef == target && resolvedCommit == commit
    {
      repository, targetRef, resolvedCommit := repo, target, commit;
      busy, closing, cancel, done := false, false, None, None;
    }

    method BeginOperation(op: nat) returns (error: Option<string>)
      modifies this
      ensures error == BeginError(old(Value()))
      ensures Value() == if error.None? then Begun(old(Value()), op) else old(Value())
    {
      if closing { return Some("CODING_SESSION_CLOSING"); }
      if busy { return Some("CODING_COMMAND_ACTIVE"); }
      busy, cancel, done := true, Some(op), Some(op);
      return None;
    }

    method EndOperation(op: nat)
      modifies this
      ensures Value() == Ended(old(Value()), op)
    {
      if done == Some(op) { busy, cancel, done := false, None, None; }
    }
  }

  /** What beginOperation hands out: an operation that can be finished any number of times. */
  class Operation {
    const record: Record
    const op: nat
    var over: bool

    constructor (of: Record, name: nat)
      ensures record == of && op == name && !over
    {
      record, op, over := of, name, false;
    }

    /** closes says whether this call closed the done channel; at most one call does. */
    method Finish() returns (closes: bool)
      modifies this, record
      ensures closes == !old(over) && over
      ensures record.Value() == if closes then Ended(old(record.Value()), op) else old(record.Value())
    {
      if over { return false; }
      over := true;
      record.EndOperation(op);
      return true;
    }
  }

  datatype Closure = Failed(code: string) | NothingActive | AwaitOpening(opener: nat) | ClosingNow(id: string, record: Record, awaits: Option<nat>)

  class Service {
    var sessions: map<string, Record>
    var active: map<string, string>
    var opening: map<string, nat>
    var closed: bool

    ghost function Abs(): Books<Record>
      reads this
    {
      Books(sessions, active, opening, closed)
    }

    constructor ()
      ensures Abs() == Books(map[], map[], map[], false)
    {
      sessions, active, opening, closed := map[], map[], map[], false;
    }

    method OwnerLocked(repo: string) returns (id: string)
      ensures id == Owner(Abs(), repo)
    {
      return if repo in active then active[repo] else "";
    }

    /** The first critical section of Open. */
    method ClaimRepository(repo: string, resume: bool, opener: nat) returns (claim: Claim)
      modifies this
      ensures claim == ClaimFor(old(Abs()), repo, resume)
      ensures Abs() == if claim.Claimed? then Mark(old(Abs()), repo, opener) else old(Abs())
    {
      if closed { return Refused("CODING_SERVICE_CLOSED"); }
      var owner := OwnerLocked(repo);
      if owner != "" {
        if !resume || owner == MARKER { return Refused("CODING_WORKSPACE_BUSY"); }
        return ResumeOf(owner);
      }
      active := active[repo := MARKER];
      opening := opening[repo := opener];
      return Claimed;
    }

    /** The state shown to an Open that resumes an active session: whether it is busy. */
    method ResumeActiveLocked(id: string, targetRef: string, expected: string) returns (busy: Result<bool>)
      ensures id !in sessions <==> busy == Err(SESSION_MISSING)
      ensures busy.Ok? <==> id in sessions && !sessions[id].closing && SameTargetRef(targetRef, sessions[id].targetRef)
                            && SameCommit(expected, sessions[id].resolvedCommit)
      ensures busy.Ok? ==> busy.value == sessions[id].busy
    {
      if id !in sessions { return Err(SESSION_MISSING); }
      var record := sessions[id];
      if record.closing { return Err("CODING_SESSION_CLOSING"); }
      if !SameTargetRef(targetRef, record.targetRef) { return Err("CODING_RESUME_TARGET_MISMATCH"); }
      if !SameCommit(expected, record.resolvedCommit) { return Err("CODING_RESUME_COMMIT_MISMATCH"); }
      return Ok(record.busy);
    }

    /** The second critical section of Open; id is drawn anew until no session has it. */
    method InstallSession(repo: string, id: string, record: Record) returns (error: Option<string>)
      requires id !in sessions
      modifies this
      ensures error == if old(closed) then Some("CODING_SERVICE_CLOSED") else None
      ensures Abs() == Install(old(Abs()), repo, id, record)
    {
      if closed { return Some("CODING_SERVICE_CLOSED"); }
      sessions := sessions[id := record];
      active := active[repo := id];
      return None;
    }

    /** The deferred clean-up of Open. */
    method CleanUpOpening(repo: string, opener: nat)
      modifies this
      ensures Abs() == CleanUp(old(Abs()), repo, opener)
    {
      if repo in opening && opening[repo] == opener { opening := opening - {repo}; }
      if repo in active && active[repo] == MARKER { active := active - {repo}; }
    }

    method LookupRepository(repo: string) returns (r: Result<Record>)
      ensures Lookup(Abs(), repo).Err? ==> r == Err(Lookup(Abs(), repo).code)
      ensures Lookup(Abs(), repo).Ok? ==>
                r == if Lookup(Abs(), repo).value.closing then Err("CODING_SESSION_CLOSING") else Ok(Lookup(Abs(), repo).value)
    {
      if closed { return Err("CODING_SERVICE_CLOSED"); }
      var id := OwnerLocked(repo);
      if id == "" { return Err("CODING_SESSION_NOT_ACTIVE"); }
      if id == MARKER { return Err("CODING_SESSION_OPENING"); }
      if id !in sessions { return Err(SESSION_MISSING); }
      if sessions[id].closing { return Err("CODING_SESSION_CLOSING"); }
      return Ok(sessions[id]);
    }

    /** The critical section of Close. Only the session found is marked, and only a stray marker is taken away. */
    method CloseRepository(repo: string) returns (closure: Closure)
      modifies this, sessions.Values
      ensures sessions == old(sessions) && opening == old(opening) && closed == old(closed)
      ensures closure.ClosingNow? ==>
                && old(Lookup(Abs(), repo)).Ok? && closure.record == old(Lookup(Abs(), repo).value)
                && closure.id == Owner(old(Abs()), repo) && !old(Lookup(Abs(), repo).value.closing)
                && closure.awaits == old(Lookup(Abs(), repo).value.done)
                && closure.record.Value() == old(Lookup(Abs(), repo).value.Value()).(closing := true)
      ensures forall r | r in old(sessions.Values) && !(closure.ClosingNow? && r == closure.record) :: r.Value() == old(r.Value())
      ensures active == if closure.NothingActive? && Owner(old(Abs()), repo) == MARKER then old(active) - {repo} else old(active)
      ensures closure.AwaitOpening? ==> repo in opening && opening[repo] == closure.opener && Owner(Abs(), repo) == MARKER
      ensures closure == Failed(SESSION_MISSING) <==> Lookup(old(Abs()), repo) == Err(SESSION_MISSING)
    {
      if closed { return Failed("CODING_SERVICE_CLOSED"); }
      var id := OwnerLocked(repo);
      if id == "" { return NothingActive; }
      if id == MARKER {
        if repo !in opening {
          active := active - {repo};
          return NothingActive;
        }
        return AwaitOpening(opening[repo]);
      }
      if id !in sessions { return Failed(SESSION_MISSING); }
      var record := sessions[id];
      assert record in sessions.Values;
      if record.closing { return Failed("CODING_SESSION_CLOSING"); }
      record.closing := true;
      return ClosingNow(id, record, record.done);
    }

    method FinalizeClose(id: string, record: Record)
      modifies this
      ensures Abs() == Finalize(old(Abs()), id, record, record.repository)
    {
      if id in sessions && sessions[id] == record {
        sessions := sessions - {id};
        if record.repository in active && active[record.repository] == id { active := active - {record.repository}; }
      }
    }

    /** The critical section of CloseAll: every session is marked and forgotten; what to wait for is returned. */
    method CloseAll() returns (records: set<Record>, openers: set<nat>)
      modifies this, sessions.Values
      ensures Abs() == if old(closed) then old(Abs()) else Books(map[], map[], map[], true)
      ensures records == (if old(closed) then {} else old(sessions.Values))
      ensures openers == (if old(closed) then {} else old(opening.Values))
      ensures forall r | r in records :: r.Value() == old(r.Value()).(closing := true)
    {
      if closed { return {}, {}; }
      closed := true;
      openers := opening.Values;
      records := sessions.Values;
      var rest := records;
      while rest != {}
        invariant rest <= records == old(sessions.Values)
        invariant closed && openers == old(opening.Values)
        invariant forall r | r in rest :: r.Value() == old(r.Value())
        invariant forall r | r in records - rest :: r.Value() == old(r.Value()).(closing := true)
        decreases |rest|
        modifies records
      {
        var r :| r in rest;
        r.closing := true;
        rest := rest - {r};
      }
      sessions, active, opening := map[], map[], map[];
    }
  }
}
