/** Coding sessions: who owns a repository, and who runs an operation, when calls interleave. */
module Coding {
  import opened Wrappers

  // ---------- One session's operation ----------

  /** cancel and done name the operation whose context and channel they belong to. */
  datatype Session = Session(repository: string, busy: bool, closing: bool, cancel: Option<nat>, done: Option<nat>)

  function NewSession(repository: string): Session {
    Session(repository, false, false, None, None)
  }

  function BeginError(r: Session): Option<string> {
    if r.closing then Some("CODING_SESSION_CLOSING")
    else if r.busy then Some("CODING_COMMAND_ACTIVE")
    else None
  }

  function Begun(r: Session, op: nat): Session {
    r.(busy := true, cancel := Some(op), done := Some(op))
  }

  function Ended(r: Session, op: nat): Session {
    if r.done == Some(op) then r.(busy := false, cancel := None, done := None) else r
  }

  // ---------- Who owns which repository ----------

  /** What an active entry says while a session is being opened. */
  const MARKER := "<opening>"

  /** The service's maps; K stands for session records. */
  datatype Books<K> = Books(sessions: map<string, K>, active: map<string, string>, opening: map<string, nat>, closed: bool)

  function Owner<K>(b: Books<K>, repo: string): string {
    if repo in b.active then b.active[repo] else ""
  }

  datatype Claim = Refused(code: string) | ResumeOf(id: string) | Claimed

  /** The first critical section of Open. */
  function ClaimFor<K>(b: Books<K>, repo: string, resume: bool): Claim {
    if b.closed then Refused("CODING_SERVICE_CLOSED")
    else if Owner(b, repo) == "" then Claimed
    else if !resume || Owner(b, repo) == MARKER then Refused("CODING_WORKSPACE_BUSY")
    else ResumeOf(Owner(b, repo))
  }

  function Mark<K>(b: Books<K>, repo: string, opener: nat): Books<K> {
    b.(active := b.active[repo := MARKER], opening := b.opening[repo := opener])
  }

  /** The second: the new session, unless the service was closed meanwhile. */
  function Install<K>(b: Books<K>, repo: string, id: string, record: K): Books<K> {
    if b.closed then b else b.(sessions := b.sessions[id := record], active := b.active[repo := id])
  }

  /** The deferred third. */
  function CleanUp<K>(b: Books<K>, repo: string, opener: nat): Books<K> {
    b.(opening := if repo in b.opening && b.opening[repo] == opener then b.opening - {repo} else b.opening,
       active := if Owner(b, repo) == MARKER then b.active - {repo} else b.active)
  }

  const SESSION_MISSING := "CODING_ACTIVE_SESSION_MISSING"

  /** The record a repository's calls are for. */
  function Lookup<K>(b: Books<K>, repo: string): Result<K> {
    var id := Owner(b, repo);
    if b.closed then Err("CODING_SERVICE_CLOSED")
    else if id == "" then Err("CODING_SESSION_NOT_ACTIVE")
    else if id == MARKER then Err("CODING_SESSION_OPENING")
    else if id !in b.sessions then Err(SESSION_MISSING)
    else Ok(b.sessions[id])
  }

  function Finalize<K(==)>(b: Books<K>, id: string, record: K, repo: string): Books<K> {
    if id in b.sessions && b.sessions[id] == record then
      b.(sessions := b.sessions - {id}, active := if Owner(b, repo) == id then b.active - {repo} else b.active)
    else b
  }

  // ---------- Calls in flight ----------

  datatype Opening = Preparing(repo: string) | Leaving(repo: string)

  /** An Exec that has the record, has found it open, runs its operation, or has yet to close the done channel. */
  datatype Executing = Looked(record: nat) | Found(record: nat) | Running(record: nat, op: nat) | Ending(op: nat)

  /** A Close that waits for its session's operation, if there is one, and then finalizes. */
  datatype Closing = Closing(id: string, record: nat, awaits: Option<nat>)

  /** records are all that were ever made; closes counts the closings of each operation's done channel. */
  datatype System = System(books: Books<nat>, records: map<nat, Session>, opens: map<nat, Opening>,
                           execs: map<nat, Executing>, closers: map<nat, Closing>, begun: set<nat>, closes: multiset<nat>)

  datatype Event =
    | OpenCalled(opener: nat, repo: string, resume: bool)
    | PrepareFails(opener: nat)
    | PrepareDone(opener: nat, id: string, record: nat)
    | OpenReturns(opener: nat)
    | ExecLooks(key: nat, repo: string)
    | ExecTests(key: nat)
    | ExecBegins(key: nat, op: nat)
    | ExecEnds(key: nat)
    | ExecCloses(key: nat)
    | CloseCalled(key: nat, repo: string)
    | CloseFinalizes(key: nat)
    | CloseAllCalled

  const NO_BOOKS: Books<nat> := Books(map[], map[], map[], false)

  const EMPTY_SYSTEM := System(NO_BOOKS, map[], map[], map[], map[], {}, multiset{})

  /** Names of calls, operations, records and sessions are new; a session's name is neither empty nor the marker. */
  predicate Enabled(sys: System, e: Event) {
    match e
    case OpenCalled(opener, _, _) => opener !in sys.opens
    case PrepareFails(opener) => opener in sys.opens && sys.opens[opener].Preparing?
    case PrepareDone(opener, id, record) =>
      opener in sys.opens && sys.opens[opener].Preparing? && id !in sys.books.sessions && id != "" && id != MARKER
      && record !in sys.records
    case OpenReturns(opener) => opener in sys.opens && sys.opens[opener].Leaving?
    case ExecLooks(key, _) => key !in sys.execs
    case ExecBegins(key, op) => key in sys.execs && sys.execs[key].Found? && op !in sys.begun
    case ExecTests(key) => key in sys.execs && sys.execs[key].Looked?
    case ExecEnds(key) => key in sys.execs && sys.execs[key].Running?
    case ExecCloses(key) => key in sys.execs && sys.execs[key].Ending?
    case CloseCalled(key, _) => key !in sys.closers
    case CloseFinalizes(key) => key in sys.closers && (sys.closers[key].awaits.Some? ==> sys.closers[key].awaits.value in sys.closes)
    case CloseAllCalled => true
  }

  function AfterOpen(sys: System, e: Event): System
    requires e.OpenCalled?
  {
    if ClaimFor(sys.books, e.repo, e.resume).Claimed? then
      sys.(books := Mark(sys.books, e.repo, e.opener), opens := sys.opens[e.opener := Preparing(e.repo)])
    else sys
  }

  function AfterPrepare(sys: System, e: Event): System
    requires e.PrepareDone? && e.opener in sys.opens
  {
    var repo := sys.opens[e.opener].repo;
    var left := sys.(opens := sys.opens[e.opener := Leaving(repo)]);
    if sys.books.closed then left
    else left.(books := Install(sys.books, repo, e.id, e.record), records := sys.records[e.record := NewSession(repo)])
  }

  function AfterLook(sys: System, e: Event): System
    requires e.ExecLooks?
  {
    match Lookup(sys.books, e.repo)
    case Ok(record) => sys.(execs := sys.execs[e.key := Looked(record)])
    case Err(_) => sys
  }

  function AfterTest(sys: System, e: Event): System
    requires e.ExecTests? && e.key in sys.execs && sys.execs[e.key].Looked?
  {
    var record := sys.execs[e.key].record;
    if record in sys.records && !sys.records[record].closing then sys.(execs := sys.execs[e.key := Found(record)])
    else sys.(execs := sys.execs - {e.key})
  }

  function AfterBegin(sys: System, e: Event): System
    requires e.ExecBegins? && e.key in sys.execs && sys.execs[e.key].Found?
  {
    var record := sys.execs[e.key].record;
    if record in sys.records && BeginError(sys.records[record]).None? then
      sys.(records := sys.records[record := Begun(sys.records[record], e.op)],
           execs := sys.execs[e.key := Running(record, e.op)], begun := sys.begun + {e.op})
    else sys.(execs := sys.execs - {e.key})
  }

  function AfterEnd(sys: System, e: Event): System
    requires e.ExecEnds? && e.key in sys.execs && sys.execs[e.key].Running?
  {
    var x := sys.execs[e.key];
    var left := sys.(execs := sys.execs[e.key := Ending(x.op)]);
    if x.record in sys.records then left.(records := sys.records[x.record := Ended(sys.records[x.record], x.op)]) else left
  }

  function AfterClose(sys: System, e: Event): System
    requires e.CloseCalled?
  {
    var id := Owner(sys.books, e.repo);
    if sys.books.closed || id == "" then sys
    else if id == MARKER then
      if e.repo in sys.books.opening then sys else sys.(books := sys.books.(active := sys.books.active - {e.repo}))
    else if id !in sys.books.sessions || sys.books.sessions[id] !in sys.records then sys
    else
      var record := sys.books.sessions[id];
      if sys.records[record].closing then sys
      else sys.(records := sys.records[record := sys.records[record].(closing := true)],
                closers := sys.closers[e.key := Closing(id, record, sys.records[record].done)])
  }

  function AfterCloseAll(sys: System): System {
    if sys.books.closed then sys
    else sys.(books := Books(map[], map[], map[], true),
              records := map r | r in sys.records ::
                if r in sys.books.sessions.Values then sys.records[r].(closing := true) else sys.records[r])
  }

  function Step(sys: System, e: Event): System
    requires Enabled(sys, e)
  {
    match e
    case OpenCalled(_, _, _) => AfterOpen(sys, e)
    case PrepareFails(opener) => sys.(opens := sys.opens[opener := Leaving(sys.opens[opener].repo)])
    case PrepareDone(_, _, _) => AfterPrepare(sys, e)
    case OpenReturns(opener) =>
      sys.(books := CleanUp(sys.books, sys.opens[opener].repo, opener), opens := sys.opens - {opener})
    case ExecLooks(_, _) => AfterLook(sys, e)
    case ExecBegins(_, _) => AfterBegin(sys, e)
    case ExecTests(_) => AfterTest(sys, e)
    case ExecEnds(_) => AfterEnd(sys, e)
    case ExecCloses(key) => sys.(execs := sys.execs - {key}, closes := sys.closes + multiset{sys.execs[key].op})
    case CloseCalled(_, _) => AfterClose(sys, e)
    case CloseFinalizes(key) =>
      var c := sys.closers[key];
      sys.(books := if c.record in sys.records then Finalize(sys.books, c.id, c.record, sys.records[c.record].repository) else sys.books,
           closers := sys.closers - {key})
    case CloseAllCalled => AfterCloseAll(sys)
  }

  predicate Legal(sys: System, es: seq<Event>)
    decreases |es|
  {
    es == [] || (Enabled(sys, es[0]) && Legal(Step(sys, es[0]), es[1..]))
  }

  function Run(sys: System, es: seq<Event>): System
    requires Legal(sys, es)
    decreases |es|
  {
    if es == [] then sys else Run(Step(sys, es[0]), es[1..])
  }

  // ---------- What every step keeps ----------

  /** busy, cancel and done change together. */
  ghost predicate Together(r: Session) {
    (r.busy <==> r.done.Some?) && r.cancel == r.done
  }

  /** A running operation is its session's, and its channel is still open. */
  ghost predicate RunsAlone(x: Executing, records: map<nat, Session>, begun: set<nat>, closes: multiset<nat>) {
    match x
    case Running(record, op) => record in records && records[record].done == Some(op) && op in begun && op !in closes
    case Ending(op) => op in begun && op !in closes && forall r | r in records :: records[r].done != Some(op)
    case _ => true
  }

  predicate HasOperation(x: Executing) {
    x.Running? || x.Ending?
  }

  ghost predicate OpsOk(records: map<nat, Session>, execs: map<nat, Executing>, begun: set<nat>, closes: multiset<nat>) {
    && (forall r | r in records :: Together(records[r]))
    && (forall key | key in execs :: RunsAlone(execs[key], records, begun, closes))
    && (forall j, k | j in execs && k in execs && j != k && HasOperation(execs[j]) && HasOperation(execs[k]) ::
          execs[j].op != execs[k].op)
    && (forall op :: closes[op] <= 1) && (forall op | op in closes :: op in begun)
    && (forall r | r in records && records[r].done.Some? :: records[r].done.value in begun && records[r].done.value !in closes)
    && (forall q, r | q in records && r in records && q != r && records[q].done.Some? :: records[q].done != records[r].done)
  }

  ghost predicate BooksOk(b: Books<nat>, records: map<nat, Session>, opens: map<nat, Opening>) {
    && (forall id | id in b.sessions :: b.sessions[id] in records && id != "" && id != MARKER)
    && (forall repo | repo in b.active && b.active[repo] != MARKER ::
          b.active[repo] in b.sessions && records[b.sessions[b.active[repo]]].repository == repo)
    && (forall repo | repo in b.opening :: b.opening[repo] in opens && opens[b.opening[repo]].repo == repo)
    && (b.closed ==> b.sessions == map[] && b.active == map[] && b.opening == map[])
  }

  ghost predicate SystemOk(sys: System) {
    OpsOk(sys.records, sys.execs, sys.begun, sys.closes) && BooksOk(sys.books, sys.records, sys.opens)
  }

  /** Operations are unaffected by closing sessions and by new ones. */
  lemma OpsStill(sys: System, next: System)
    requires OpsOk(sys.records, sys.execs, sys.begun, sys.closes)
    requires sys.records.Keys <= next.records.Keys && next.execs == sys.execs && next.begun == sys.begun && next.closes == sys.closes
    requires forall r | r in sys.records :: next.records[r] == sys.records[r] || next.records[r] == sys.records[r].(closing := true)
    requires forall r | r in next.records && r !in sys.records :: next.records[r].done.None? && Together(next.records[r])
    ensures OpsOk(next.records, next.execs, next.begun, next.closes)
  {}

  /** Execs that have no operation come and go. */
  lemma OpsWithout(records: map<nat, Session>, execs: map<nat, Executing>, next: map<nat, Executing>, begun: set<nat>,
                   closes: multiset<nat>)
    requires OpsOk(records, execs, begun, closes)
    requires forall k | k in next :: (k in execs && next[k] == execs[k]) || !HasOperation(next[k])
    ensures OpsOk(records, next, begun, closes)
  {
    forall k | k in next ensures RunsAlone(next[k], records, begun, closes) {
      if HasOperation(next[k]) { assert RunsAlone(execs[k], records, begun, closes); }
    }
  }

  lemma OpsBegun(records: map<nat, Session>, execs: map<nat, Executing>, begun: set<nat>, closes: multiset<nat>, key: nat,
                 record: nat, op: nat)
    requires OpsOk(records, execs, begun, closes) && op !in begun
    requires key in execs && !HasOperation(execs[key]) && record in records && !records[record].busy
    ensures OpsOk(records[record := Begun(records[record], op)], execs[key := Running(record, op)], begun + {op}, closes)
  {
    var after, next := records[record := Begun(records[record], op)], execs[key := Running(record, op)];
    assert Together(records[record]);
    forall k | k in next ensures RunsAlone(next[k], after, begun + {op}, closes) {
      if k != key { assert RunsAlone(execs[k], records, begun, closes); }
    }
  }

  lemma BeginKeepsOps(sys: System, e: Event)
    requires SystemOk(sys) && e.ExecBegins? && Enabled(sys, e)
    ensures var next := AfterBegin(sys, e); OpsOk(next.records, next.execs, next.begun, next.closes)
  {
    var record := sys.execs[e.key].record;
    if record in sys.records && BeginError(sys.records[record]).None? {
      OpsBegun(sys.records, sys.execs, sys.begun, sys.closes, e.key, record, e.op);
    } else {
      OpsWithout(sys.records, sys.execs, sys.execs - {e.key}, sys.begun, sys.closes);
    }
  }

  lemma EndKeepsOps(sys: System, e: Event)
    requires SystemOk(sys) && e.ExecEnds? && Enabled(sys, e)
    ensures var next := AfterEnd(sys, e); OpsOk(next.records, next.execs, next.begun, next.closes)
  {
    var x := sys.execs[e.key];
    assert RunsAlone(x, sys.records, sys.begun, sys.closes);
    var next := AfterEnd(sys, e);
    assert forall r | r in next.records :: next.records[r].done != Some(x.op);
    forall k | k in next.execs ensures RunsAlone(next.execs[k], next.records, next.begun, next.closes) {
      assert RunsAlone(sys.execs[k], sys.records, sys.begun, sys.closes);
      if k != e.key && sys.execs[k].Running? { assert sys.execs[k].op != x.op; }
    }
  }

  lemma CloseKeepsOps(sys: System, e: Event)
    requires SystemOk(sys) && e.ExecCloses? && Enabled(sys, e)
    ensures var next := Step(sys, e); OpsOk(next.records, next.execs, next.begun, next.closes)
  {
    var x := sys.execs[e.key];
    assert RunsAlone(x, sys.records, sys.begun, sys.closes);
    var next := Step(sys, e);
    forall k | k in next.execs ensures RunsAlone(next.execs[k], next.records, next.begun, next.closes) {
      assert RunsAlone(sys.execs[k], sys.records, sys.begun, sys.closes);
    }
  }

  lemma TestKeepsOps(sys: System, e: Event)
    requires SystemOk(sys) && e.ExecTests? && Enabled(sys, e)
    ensures var next := AfterTest(sys, e); OpsOk(next.records, next.execs, next.begun, next.closes)
  {
    OpsWithout(sys.records, sys.execs, AfterTest(sys, e).execs, sys.begun, sys.closes);
  }

  predicate OfExec(e: Event) {
    e.ExecLooks? || e.ExecTests? || e.ExecBegins? || e.ExecEnds? || e.ExecCloses?
  }

  predicate OfOpen(e: Event) {
    e.OpenCalled? || e.PrepareFails? || e.PrepareDone? || e.OpenReturns?
  }

  lemma OpenKeepsOps(sys: System, e: Event)
    requires SystemOk(sys) && Enabled(sys, e) && OfOpen(e)
    ensures var next := Step(sys, e); OpsOk(next.records, next.execs, next.begun, next.closes)
  {
    OpsStill(sys, Step(sys, e));
  }

  lemma OpsClosing(records: map<nat, Session>, execs: map<nat, Executing>, begun: set<nat>, closes: multiset<nat>, record: nat)
    requires OpsOk(records, execs, begun, closes) && record in records
    ensures OpsOk(records[record := records[record].(closing := true)], execs, begun, closes)
  {
    var after := records[record := records[record].(closing := true)];
    forall k | k in execs ensures RunsAlone(execs[k], after, begun, closes) {
      assert RunsAlone(execs[k], records, begun, closes);
    }
  }

  lemma CloseCallKeepsOps(sys: System, e: Event)
    requires SystemOk(sys) && Enabled(sys, e) && e.CloseCalled?
    ensures var next := AfterClose(sys, e); OpsOk(next.records, next.execs, next.begun, next.closes)
  {
    var id := Owner(sys.books, e.repo);
    if id in sys.books.sessions && sys.books.sessions[id] in sys.records {
      OpsClosing(sys.records, sys.execs, sys.begun, sys.closes, sys.books.sessions[id]);
    }
  }

  lemma CloseAllKeepsOps(sys: System)
    requires SystemOk(sys)
    ensures var next := AfterCloseAll(sys); OpsOk(next.records, next.execs, next.begun, next.closes)
  {
    OpsStill(sys, AfterCloseAll(sys));
  }

  lemma StepKeepsOps(sys: System, e: Event)
    requires SystemOk(sys) && Enabled(sys, e)
    ensures var next := Step(sys, e); OpsOk(next.records, next.execs, next.begun, next.closes)
  {
    match e
    case ExecBegins(_, _) => BeginKeepsOps(sys, e);
    case ExecEnds(_) => EndKeepsOps(sys, e);
    case ExecCloses(_) => CloseKeepsOps(sys, e);
    case ExecLooks(_, _) =>
    case ExecTests(_) => TestKeepsOps(sys, e);
    case CloseCalled(_, _) => CloseCallKeepsOps(sys, e);
    case CloseAllCalled => CloseAllKeepsOps(sys);
    case CloseFinalizes(_) =>
    case _ => OpenKeepsOps(sys, e);
  }

  lemma OpenKeepsBooks(sys: System, e: Event)
    requires SystemOk(sys) && Enabled(sys, e) && OfOpen(e)
    ensures var next := Step(sys, e); BooksOk(next.books, next.records, next.opens)
  {}

  /** An Exec changes nothing of who owns what. */
  lemma ExecTouches(sys: System, e: Event)
    requires Enabled(sys, e) && OfExec(e)
    ensures var next := Step(sys, e);
            && next.books == sys.books && next.opens == sys.opens && next.records.Keys == sys.records.Keys
            && forall r | r in sys.records ::
                 next.records[r].repository == sys.records[r].repository && next.records[r].closing == sys.records[r].closing
  {}

  lemma ExecKeepsBooks(sys: System, e: Event)
    requires SystemOk(sys) && Enabled(sys, e) && OfExec(e)
    ensures var next := Step(sys, e); BooksOk(next.books, next.records, next.opens)
  {
    ExecTouches(sys, e);
  }

  lemma CloseCallKeepsBooks(sys: System, e: Event)
    requires SystemOk(sys) && Enabled(sys, e) && e.CloseCalled?
    ensures var next := AfterClose(sys, e); BooksOk(next.books, next.records, next.opens)
  {}

  lemma StepOk(sys: System, e: Event)
    requires SystemOk(sys) && Enabled(sys, e)
    ensures SystemOk(Step(sys, e))
  {
    StepKeepsOps(sys, e);
    if OfExec(e) {
      ExecKeepsBooks(sys, e);
    } else if e.CloseCalled? {
      CloseCallKeepsBooks(sys, e);
    } else if e.CloseFinalizes? {
    } else if e.CloseAllCalled? {
    } else {
      OpenKeepsBooks(sys, e);
    }
  }

  lemma {:induction false} RunOk(sys: System, es: seq<Event>)
    requires SystemOk(sys) && Legal(sys, es)
    ensures SystemOk(Run(sys, es))
    decreases |es|
  {
    if es != [] {
      StepOk(sys, es[0]);
      RunOk(Step(sys, es[0]), es[1..]);
    }
  }

  /**
   * In every run a session has at most one operation; busy, cancel and done agree; no done channel is closed
   * twice, and none of a running operation is closed.
   */
  lemma OneOperationEach(es: seq<Event>, j: nat, k: nat)
    requires Legal(EMPTY_SYSTEM, es)
    requires var sys := Run(EMPTY_SYSTEM, es);
             j in sys.execs && k in sys.execs && sys.execs[j].Running? && sys.execs[k].Running?
             && sys.execs[j].record == sys.execs[k].record
    ensures var sys := Run(EMPTY_SYSTEM, es);
            && j == k && sys.execs[k].record in sys.records
            && sys.records[sys.execs[k].record] ==
                 sys.records[sys.execs[k].record].(busy := true, cancel := Some(sys.execs[k].op), done := Some(sys.execs[k].op))
            && sys.execs[k].op !in sys.closes && forall op :: sys.closes[op] <= 1
  {
    RunOk(EMPTY_SYSTEM, es);
    var sys := Run(EMPTY_SYSTEM, es);
    assert RunsAlone(sys.execs[j], sys.records, sys.begun, sys.closes);
    assert RunsAlone(sys.execs[k], sys.records, sys.begun, sys.closes);
    assert Together(sys.records[sys.execs[k].record]);
  }

  lemma StaysClosing(sys: System, e: Event, record: nat)
    requires Enabled(sys, e) && record in sys.records && record in Step(sys, e).records && sys.records[record].closing
    ensures Step(sys, e).records[record].closing
    ensures Step(sys, e).records[record].done == sys.records[record].done || Step(sys, e).records[record].done == None
  {}

  /** A session once closing stays so, and nothing begins on it. */
  lemma NothingBeginsWhenClosing(sys: System, e: Event, record: nat)
    requires SystemOk(sys) && Enabled(sys, e) && record in sys.records && sys.records[record].closing
    ensures record in Step(sys, e).records && Step(sys, e).records[record].closing
    ensures Step(sys, e).records[record].done == sys.records[record].done || Step(sys, e).records[record].done == None
    ensures e.ExecBegins? && sys.execs[e.key].record == record ==> e.key !in Step(sys, e).execs && Step(sys, e).begun == sys.begun
  {
    assert record in Step(sys, e).records;
    StaysClosing(sys, e, record);
  }

  lemma {:induction false} ClosingForGood(sys: System, es: seq<Event>, record: nat)
    requires SystemOk(sys) && Legal(sys, es) && record in sys.records && sys.records[record].closing
    ensures record in Run(sys, es).records && Run(sys, es).records[record].closing
    ensures Run(sys, es).records[record].done == sys.records[record].done || Run(sys, es).records[record].done == None
    decreases |es|
  {
    if es != [] {
      NothingBeginsWhenClosing(sys, es[0], record);
      StepOk(sys, es[0]);
      ClosingForGood(Step(sys, es[0]), es[1..], record);
    }
  }

  /**
   * The error of an active entry without its session is never reported: whatever is active and not being opened
   * is a session of that very repository, to Exec, to Close and to a resuming Open alike.
   */
  lemma SessionNeverMissing(es: seq<Event>, repo: string, resume: bool)
    requires Legal(EMPTY_SYSTEM, es)
    ensures var sys := Run(EMPTY_SYSTEM, es);
            && Lookup(sys.books, repo) != Err(SESSION_MISSING)
            && (ClaimFor(sys.books, repo, resume).ResumeOf? ==>
                  var id := ClaimFor(sys.books, repo, resume).id;
                  id in sys.books.sessions && sys.books.sessions[id] in sys.records
                  && sys.records[sys.books.sessions[id]].repository == repo)
  {
    RunOk(EMPTY_SYSTEM, es);
  }

  // ---------- One session per repository ----------

  /** Every session owns its repository, and so does every open that is preparing. */
  ghost predicate Exclusive(sys: System) {
    && (forall id | id in sys.books.sessions ::
          sys.books.sessions[id] in sys.records && Owner(sys.books, sys.records[sys.books.sessions[id]].repository) == id)
    && (!sys.books.closed ==>
          forall o | o in sys.opens && sys.opens[o].Preparing? ::
            Owner(sys.books, sys.opens[o].repo) == MARKER && sys.opens[o].repo in sys.books.opening
            && sys.books.opening[sys.opens[o].repo] == o)
  }

  /** No other open of the repository is preparing as this one returns. */
  ghost predicate ReturnsAlone(sys: System, e: Event)
    requires Enabled(sys, e)
  {
    e.OpenReturns? && !sys.books.closed ==>
      forall o | o in sys.opens && sys.opens[o].Preparing? :: sys.opens[o].repo != sys.opens[e.opener].repo
  }

  lemma OpenExclusive(sys: System, e: Event)
    requires SystemOk(sys) && Exclusive(sys) && Enabled(sys, e) && (e.OpenCalled? || e.PrepareFails? || e.PrepareDone?)
    ensures Exclusive(Step(sys, e))
  {}

  lemma CloseCallExclusive(sys: System, e: Event)
    requires SystemOk(sys) && Exclusive(sys) && Enabled(sys, e) && e.CloseCalled?
    ensures Exclusive(AfterClose(sys, e))
  {}

  lemma ExecExclusive(sys: System, e: Event)
    requires SystemOk(sys) && Exclusive(sys) && Enabled(sys, e) && OfExec(e)
    ensures Exclusive(Step(sys, e))
  {
    ExecTouches(sys, e);
  }

  lemma ReturnExclusive(sys: System, e: Event)
    requires SystemOk(sys) && Exclusive(sys) && Enabled(sys, e) && e.OpenReturns? && ReturnsAlone(sys, e)
    ensures Exclusive(Step(sys, e))
  {}

  lemma ReturnNotExclusive(sys: System, e: Event, o: nat)
    requires Enabled(sys, e) && e.OpenReturns? && !sys.books.closed
    requires o in sys.opens && sys.opens[o].Preparing? && sys.opens[o].repo == sys.opens[e.opener].repo
    ensures !Exclusive(Step(sys, e))
  {
    var next := Step(sys, e);
    assert o in next.opens && next.opens[o] == sys.opens[o] && !next.books.closed;
  }

  /** The deferred clean-up keeps this exactly when no other open of the repository is preparing. */
  lemma ReturnExclusiveIff(sys: System, e: Event)
    requires SystemOk(sys) && Exclusive(sys) && Enabled(sys, e) && e.OpenReturns?
    ensures Exclusive(Step(sys, e)) <==> ReturnsAlone(sys, e)
  {
    if ReturnsAlone(sys, e) {
      ReturnExclusive(sys, e);
    } else {
      var o :| o in sys.opens && sys.opens[o].Preparing? && sys.opens[o].repo == sys.opens[e.opener].repo;
      ReturnNotExclusive(sys, e, o);
    }
  }

  ghost predicate AloneRun(sys: System, es: seq<Event>)
    requires Legal(sys, es)
    decreases |es|
  {
    es == [] || (ReturnsAlone(sys, es[0]) && AloneRun(Step(sys, es[0]), es[1..]))
  }

  lemma StepExclusive(sys: System, e: Event)
    requires SystemOk(sys) && Exclusive(sys) && Enabled(sys, e) && ReturnsAlone(sys, e)
    ensures Exclusive(Step(sys, e))
  {
    if e.OpenReturns? {
      ReturnExclusiveIff(sys, e);
    } else if OfExec(e) {
      ExecExclusive(sys, e);
    } else if e.CloseCalled? {
      CloseCallExclusive(sys, e);
    } else if e.CloseFinalizes? {
    } else if e.CloseAllCalled? {
      assert AfterCloseAll(sys).books.closed;
    } else {
      OpenExclusive(sys, e);
    }
  }

  lemma {:induction false} RunExclusive(sys: System, es: seq<Event>)
    requires SystemOk(sys) && Exclusive(sys) && Legal(sys, es) && AloneRun(sys, es)
    ensures Exclusive(Run(sys, es))
    decreases |es|
  {
    if es != [] {
      StepOk(sys, es[0]);
      StepExclusive(sys, es[0]);
      RunExclusive(Step(sys, es[0]), es[1..]);
    }
  }

  /** As long as no open returns while another of its repository is preparing, a repository has one session. */
  lemma OneSessionPerRepository(es: seq<Event>, a: string, b: string)
    requires Legal(EMPTY_SYSTEM, es) && AloneRun(EMPTY_SYSTEM, es)
    requires var sys := Run(EMPTY_SYSTEM, es);
             a in sys.books.sessions && b in sys.books.sessions
             && sys.books.sessions[a] in sys.records && sys.books.sessions[b] in sys.records
             && sys.records[sys.books.sessions[a]].repository == sys.records[sys.books.sessions[b]].repository
    ensures a == b
  {
    RunExclusive(EMPTY_SYSTEM, es);
  }

  // ---------- How a repository gets two sessions ----------

  lemma {:induction false} OneMoreEvent(sys: System, es: seq<Event>, e: Event)
    requires Legal(sys, es) && Enabled(Run(sys, es), e)
    ensures Legal(sys, es + [e]) && Run(sys, es + [e]) == Step(Run(sys, es), e)
    decreases |es|
  {
    if es == [] {
      assert es + [e] == [e] && [e][1..] == [];
    } else {
      assert (es + [e])[0] == es[0] && (es + [e])[1..] == es[1..] + [e];
      OneMoreEvent(Step(sys, es[0]), es[1..], e);
    }
  }

  ghost predicate Reached(es: seq<Event>, sys: System) {
    Legal(EMPTY_SYSTEM, es) && Run(EMPTY_SYSTEM, es) == sys
  }

  lemma GoOn(es: seq<Event>, sys: System, e: Event, next: System) returns (longer: seq<Event>)
    requires Reached(es, sys) && Enabled(sys, e) && next == Step(sys, e)
    ensures Reached(longer, next)
  {
    OneMoreEvent(EMPTY_SYSTEM, es, e);
    longer := es + [e];
  }

  const FRESH := NewSession("r")

  lemma OneOpened() returns (es: seq<Event>, sys: System)
    ensures Reached(es, sys)
    ensures sys == EMPTY_SYSTEM.(books := Books(map["a" := 1], map["r" := "a"], map["r" := 1], false),
                                 opens := map[1 := Leaving("r")], records := map[1 := FRESH])
  {
    var marked := EMPTY_SYSTEM.(books := NO_BOOKS.(active := map["r" := MARKER], opening := map["r" := 1]),
                                 opens := map[1 := Preparing("r")]);
    es := GoOn([], EMPTY_SYSTEM, OpenCalled(1, "r", false), marked);
    sys := EMPTY_SYSTEM.(books := Books(map["a" := 1], map["r" := "a"], map["r" := 1], false),
                         opens := map[1 := Leaving("r")], records := map[1 := FRESH]);
    es := GoOn(es, marked, PrepareDone(1, "a", 1), sys);
  }

  /** The first session is closed before its Open has returned. */
  lemma ClosedBeforeReturn() returns (es: seq<Event>, sys: System)
    ensures Reached(es, sys)
    ensures sys.books == NO_BOOKS.(opening := map["r" := 1]) && sys.opens == map[1 := Leaving("r")]
    ensures sys.records.Keys == {1}
  {
    var first;
    es, first := OneOpened();
    var marked := first.(records := map[1 := FRESH.(closing := true)], closers := map[0 := Closing("a", 1, None)]);
    es := GoOn(es, first, CloseCalled(0, "r"), marked);
    sys := marked.(books := NO_BOOKS.(opening := map["r" := 1]), closers := map[]);
    es := GoOn(es, marked, CloseFinalizes(0), sys);
  }

  /** It returns while a second open prepares, takes away that one's marker, and so lets a third in. */
  lemma ThirdOpenLetIn() returns (es: seq<Event>, sys: System)
    ensures Reached(es, sys)
    ensures sys.books == NO_BOOKS.(active := map["r" := MARKER], opening := map["r" := 3])
    ensures sys.opens == map[2 := Preparing("r"), 3 := Preparing("r")] && sys.records.Keys == {1}
  {
    es, sys := ClosedBeforeReturn();
    var next := sys.(books := NO_BOOKS.(active := map["r" := MARKER], opening := map["r" := 2]),
                     opens := map[1 := Leaving("r"), 2 := Preparing("r")]);
    es := GoOn(es, sys, OpenCalled(2, "r", false), next);
    sys := next;
    next := sys.(books := NO_BOOKS.(opening := map["r" := 2]), opens := map[2 := Preparing("r")]);
    es := GoOn(es, sys, OpenReturns(1), next);
    sys := next;
    next := sys.(books := NO_BOOKS.(active := map["r" := MARKER], opening := map["r" := 3]),
                 opens := map[2 := Preparing("r"), 3 := Preparing("r")]);
    es := GoOn(es, sys, OpenCalled(3, "r", false), next);
    sys := next;
  }

  /** Both then install a session for the one repository. */
  lemma TwoSessionsForOneRepository() returns (es: seq<Event>)
    ensures Legal(EMPTY_SYSTEM, es)
    ensures var sys := Run(EMPTY_SYSTEM, es);
            && "b" in sys.books.sessions && "c" in sys.books.sessions
            && sys.books.sessions["b"] in sys.records && sys.books.sessions["c"] in sys.records
            && sys.records[sys.books.sessions["b"]].repository == sys.records[sys.books.sessions["c"]].repository == "r"
  {
    var sys;
    es, sys := ThirdOpenLetIn();
    var next := Step(sys, PrepareDone(2, "b", 2));
    es := GoOn(es, sys, PrepareDone(2, "b", 2), next);
    es := GoOn(es, next, PrepareDone(3, "c", 3), Step(next, PrepareDone(3, "c", 3)));
  }
}
