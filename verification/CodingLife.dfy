/** A repository's sessions from claim to release: who is let in, what a call finds, and when the repository is free again. */
module CodingLife {
  import opened Wrappers
  import opened Coding

  lemma Reached(es: seq<Event>)
    requires Legal(EMPTY_SYSTEM, es)
    ensures SystemOk(Run(EMPTY_SYSTEM, es))
  {
    RunOk(EMPTY_SYSTEM, es);
  }

  /**
   * Who is let in, in any run. An Open claims a repository exactly when the service is open and nobody holds it; it is
   * handed the running session exactly when it asks to resume and there is one, and that one is the repository's; any
   * other Open is refused, and told why.
   */
  lemma OpenServes(es: seq<Event>, repo: string, resume: bool)
    requires Legal(EMPTY_SYSTEM, es)
    ensures var b, records := Run(EMPTY_SYSTEM, es).books, Run(EMPTY_SYSTEM, es).records;
            var claim := ClaimFor(b, repo, resume);
            && (claim == Claimed <==> !b.closed && repo !in b.active)
            && (claim.ResumeOf? <==> !b.closed && resume && repo in b.active && b.active[repo] in b.sessions)
            && (claim.ResumeOf? ==>
                  && claim.id == b.active[repo] && b.sessions[claim.id] in records
                  && records[b.sessions[claim.id]].repository == repo)
            && (claim.Refused? ==> claim.code == if b.closed then "CODING_SERVICE_CLOSED" else "CODING_WORKSPACE_BUSY")
  {
    Reached(es);
    var b := Run(EMPTY_SYSTEM, es).books;
    if repo in b.active && b.active[repo] != MARKER { assert b.active[repo] in b.sessions; }
  }

  /** Whoever marked a repository as being opened is noted beside it. */
  ghost predicate MarksNoted(b: Books<nat>) {
    forall repo | repo in b.active && b.active[repo] == MARKER :: repo in b.opening
  }

  lemma {:induction false} RunMarksNoted(sys: System, es: seq<Event>)
    requires SystemOk(sys) && Legal(sys, es) && MarksNoted(sys.books)
    ensures MarksNoted(Run(sys, es).books)
    decreases |es|
  {
    if es != [] {
      StepOk(sys, es[0]);
      StepMarksNoted(sys, es[0]);
      RunMarksNoted(Step(sys, es[0]), es[1..]);
    }
  }

  lemma StepMarksNoted(sys: System, e: Event)
    requires SystemOk(sys) && Enabled(sys, e) && MarksNoted(sys.books)
    ensures MarksNoted(Step(sys, e).books)
  {}

  /**
   * What Close does, in any run: it marks the repository's session, once, and notes what to wait for; while the
   * repository is being opened, free or already closing, and once the service is closed, it changes nothing. A marker
   * that nobody is opening under, which Close would take away, is never there.
   */
  lemma CloseMarks(es: seq<Event>, e: Event)
    requires Legal(EMPTY_SYSTEM, es) && Enabled(Run(EMPTY_SYSTEM, es), e) && e.CloseCalled?
    ensures var sys := Run(EMPTY_SYSTEM, es); var next := Step(sys, e);
            match Lookup(sys.books, e.repo)
            case Err(_) => next == sys
            case Ok(record) =>
              && record in sys.records
              && if sys.records[record].closing then next == sys else
                && next == sys.(records := next.records, closers := next.closers)
                && next.records == sys.records[record := sys.records[record].(closing := true)]
                && next.closers == sys.closers[e.key := Closing(sys.books.active[e.repo], record, sys.records[record].done)]
  {
    Reached(es);
    RunMarksNoted(EMPTY_SYSTEM, es);
  }

  /** What a call on a repository finds, in any run: its session's record, or that there is none, and why. */
  lemma CallFinds(es: seq<Event>, repo: string)
    requires Legal(EMPTY_SYSTEM, es)
    ensures var b, records := Run(EMPTY_SYSTEM, es).books, Run(EMPTY_SYSTEM, es).records;
            match Lookup(b, repo)
            case Ok(record) =>
              && !b.closed && repo in b.active && b.active[repo] in b.sessions && b.sessions[b.active[repo]] == record
              && record in records && records[record].repository == repo
            case Err(code) =>
              code == if b.closed then "CODING_SERVICE_CLOSED"
                      else if repo in b.active then "CODING_SESSION_OPENING" else "CODING_SESSION_NOT_ACTIVE"
  {
    Reached(es);
  }

  /** A session that was prepared while the service stayed open is what calls find from then on, idle and open. */
  lemma OpenInstalls(es: seq<Event>, e: Event)
    requires Legal(EMPTY_SYSTEM, es) && Enabled(Run(EMPTY_SYSTEM, es), e) && e.PrepareDone?
    requires !Run(EMPTY_SYSTEM, es).books.closed
    ensures var sys := Run(EMPTY_SYSTEM, es); var next := Step(sys, e);
            var repo := sys.opens[e.opener].repo;
            && Lookup(next.books, repo) == Ok(e.record)
            && BeginError(next.records[e.record]).None? && next.records[e.record].repository == repo
            && forall other | other != repo :: Owner(next.books, other) == Owner(sys.books, other)
  {}

  /** An Open that returns leaves no claim of its own behind: only a session keeps the repository. */
  lemma ReturnReleases(sys: System, e: Event)
    requires e.OpenReturns? && Enabled(sys, e)
    ensures var repo := sys.opens[e.opener].repo; var next := Step(sys, e).books;
            && Owner(next, repo) != MARKER && (Owner(sys.books, repo) != MARKER ==> Owner(next, repo) == Owner(sys.books, repo))
            && (repo in next.opening ==> next.opening[repo] != e.opener)
            && forall other | other != repo :: Owner(next, other) == Owner(sys.books, other)
  {}

  /** A failed Open frees the repository it claimed, where no session was put in its place meanwhile. */
  lemma FailedOpenFrees(es: seq<Event>, e: Event, resume: bool)
    requires Legal(EMPTY_SYSTEM, es) && Enabled(Run(EMPTY_SYSTEM, es), e) && e.OpenReturns?
    requires var sys := Run(EMPTY_SYSTEM, es);
             !sys.books.closed && Owner(sys.books, sys.opens[e.opener].repo) in {"", MARKER}
    ensures var sys := Run(EMPTY_SYSTEM, es);
            ClaimFor(Step(sys, e).books, sys.opens[e.opener].repo, resume) == Claimed
  {
    ReturnReleases(Run(EMPTY_SYSTEM, es), e);
  }

  /** A close that ends takes away the session it closed, and with it the claim on the repository: the next Open is let in. */
  lemma CloseFrees(es: seq<Event>, e: Event, resume: bool)
    requires Legal(EMPTY_SYSTEM, es) && Enabled(Run(EMPTY_SYSTEM, es), e) && e.CloseFinalizes?
    requires var sys := Run(EMPTY_SYSTEM, es); var c := sys.closers[e.key];
             !sys.books.closed && c.id in sys.books.sessions && sys.books.sessions[c.id] == c.record
    ensures var sys := Run(EMPTY_SYSTEM, es); var c := sys.closers[e.key]; var next := Step(sys, e).books;
            && c.record in sys.records && c.id !in next.sessions
            && (Owner(sys.books, sys.records[c.record].repository) == c.id ==>
                  ClaimFor(next, sys.records[c.record].repository, resume) == Claimed)
            && (forall id | id in sys.books.sessions && id != c.id :: id in next.sessions && next.sessions[id] == sys.books.sessions[id])
            && (forall repo | Owner(sys.books, repo) != c.id :: Owner(next, repo) == Owner(sys.books, repo))
  {
    Reached(es);
  }

  /** A session under way refuses a second operation and a closing one refuses any, each with its own error. */
  lemma BeginErrorIff(r: Session)
    ensures BeginError(r) == None <==> !r.closing && !r.busy
    ensures r.closing ==> BeginError(r) == Some("CODING_SESSION_CLOSING")
    ensures r.busy && !r.closing ==> BeginError(r) == Some("CODING_COMMAND_ACTIVE")
  {}
}
