/** Preparing a Git clone without losing local work. */
module Workspace {
  import opened Wrappers
  import opened Commits
  import Text

  // ---------- Refs ----------

  datatype Head = OnBranch(name: string) | DetachedAt(commit: string)

  datatype RefState = RefState(head: Head, branches: map<string, string>, tracking: map<string, string>)

  /** The branch HEAD is on, if any. */
  function BranchOf(head: Head): Option<string> {
    match head
    case OnBranch(name) => Some(name)
    case DetachedAt(_) => None
  }

  /** The commit at HEAD, or nothing on a branch not yet born. */
  function HeadCommit(s: RefState): string {
    match s.head
    case OnBranch(name) => if name in s.branches then s.branches[name] else ""
    case DetachedAt(commit) => commit
  }

  ghost predicate Known(g: Dag, refs: map<string, string>) {
    forall name | name in refs :: refs[name] in g.parents
  }

  ghost predicate RefsOk(g: Dag, s: RefState) {
    && Known(g, s.branches) && Known(g, s.tracking)
    && (s.head.DetachedAt? ==> s.head.commit in g.parents)
  }

  /** Local branches stay, and move to descendants only. */
  ghost predicate Advances(g: Dag, before: map<string, string>, after: map<string, string>)
    requires Known(g, after)
  {
    forall name | name in before :: name in after && Ancestor(g, before[name], after[name])
  }

  ghost predicate FromSome(g: Dag, refs: map<string, string>, commit: string)
    requires Known(g, refs)
  {
    exists name :: name in refs && Ancestor(g, commit, refs[name])
  }

  /** From HEAD, a local branch or a remote-tracking ref. */
  ghost predicate Reachable(g: Dag, s: RefState, commit: string)
    requires RefsOk(g, s)
  {
    || (HeadCommit(s) != "" && Ancestor(g, commit, HeadCommit(s)))
    || FromSome(g, s.branches, commit)
    || FromSome(g, s.tracking, commit)
  }

  ghost predicate HeadKept(g: Dag, before: RefState, after: RefState)
    requires RefsOk(g, after)
  {
    HeadCommit(before) != "" ==> Reachable(g, after, HeadCommit(before))
  }

  lemma AdvancesSelf(g: Dag, refs: map<string, string>)
    requires Known(g, refs)
    ensures Advances(g, refs, refs)
  {}

  /** With HEAD where it was and branches only advanced, nothing at HEAD is lost. */
  lemma SameHeadKeeps(g: Dag, before: RefState, after: RefState)
    requires RefsOk(g, after) && after.head == before.head && Advances(g, before.branches, after.branches)
    ensures HeadKept(g, before, after)
  {}

  // ---------- Git ----------

  const HEADS_PREFIX := "refs/heads/"

  /** The notes as the loader sees them: whatever it does not accept is broken. */
  datatype Notes = Missing | Broken | Saved(repository: string, targetRef: string, commit: string)

  predicate Readable(notes: Notes) {
    notes.Saved? ==> notes.repository != "" && notes.targetRef != "" && FullCommit(notes.commit)
  }

  predicate IsHex(c: char) { '0' <= c <= '9' || 'a' <= c <= 'f' || 'A' <= c <= 'F' }

  predicate FullCommit(s: string) { |s| == 40 && forall c | c in s :: IsHex(c) }

  function Lower(s: string): string {
    if s == "" then "" else [if 'A' <= s[0] <= 'Z' then ((s[0] as int) + 32) as char else s[0]] + Lower(s[1..])
  }

  const UNAVAILABLE := "WORKSPACE_GIT_FAILED"

  datatype PrepareInput = PrepareInput(targetRef: string, expected: string, resume: bool)

  datatype Outcome = Outcome(targetRef: string, resolved: string, head: string, branch: Option<string>, dirty: bool, resumed: bool)

  function Target(input: PrepareInput): string {
    Text.TrimPrefix(Text.Trim(input.targetRef), HEADS_PREFIX)
  }

  const EXPECTED_MISMATCH := "WORKSPACE_EXPECTED_COMMIT_MISMATCH"

  /** Notes that name another target which is the same branch: only possible when they lack the prefix. */
  predicate SelfSwitch(notes: Notes, branch: string) {
    Switches(notes, branch) && PreviousBranch(notes) == branch
  }

  predicate Prefixed(notes: Notes) {
    notes.Saved? ==> HEADS_PREFIX <= notes.targetRef
  }

  /** Notes as Prepare writes them never do. */
  lemma PrefixedNeverSwitchesToItself(notes: Notes, branch: string)
    requires Prefixed(notes)
    ensures !SelfSwitch(notes, branch)
  {
    if notes.Saved? { assert notes.targetRef == HEADS_PREFIX + notes.targetRef[|HEADS_PREFIX|..]; }
  }

  // ---------- What a successful preparation does to the refs ----------

  function Fetched(s: RefState, branch: string, tip: string): RefState {
    s.(tracking := s.tracking[branch := tip])
  }

  /** Whether the commit at HEAD is first held against the target noted before. */
  predicate Switches(notes: Notes, branch: string) {
    notes.Saved? && notes.targetRef != HEADS_PREFIX + branch
  }

  function PreviousBranch(notes: Notes): string
    requires notes.Saved?
  {
    Text.TrimPrefix(notes.targetRef, HEADS_PREFIX)
  }

  /** The fetches, given the tips they find. */
  function Approached(s: RefState, notes: Notes, branch: string, first: string, tip: string): RefState {
    Fetched(if Switches(notes, branch) then Fetched(s, PreviousBranch(notes), first) else s, branch, tip)
  }

  function Prepared(s: RefState, notes: Notes, branch: string, first: string, tip: string): RefState {
    Approached(s, notes, branch, first, tip).(head := OnBranch(branch), branches := s.branches[branch := tip])
  }

  /** The tests that have to pass: of the commit at HEAD, and of the branch if it is there. */
  ghost predicate HeadPasses(g: Dag, s: RefState, notes: Notes, branch: string, first: string, tip: string) {
    && first in g.parents && tip in g.parents && HeadCommit(s) in g.parents
    && FullCommit(first) && FullCommit(tip) && FullCommit(HeadCommit(s))
    && Ancestor(g, HeadCommit(s), if Switches(notes, branch) then first else tip)
  }

  ghost predicate BranchPasses(g: Dag, s: RefState, branch: string, tip: string)
    requires tip in g.parents
  {
    branch in s.branches ==> FullCommit(s.branches[branch]) && Ancestor(g, s.branches[branch], tip)
  }

  ghost predicate Passes(g: Dag, s: RefState, notes: Notes, branch: string, first: string, tip: string)
    requires RefsOk(g, s)
  {
    HeadPasses(g, s, notes, branch, first, tip) && BranchPasses(g, s, branch, tip)
  }

  /** A successful preparation keeps the commit at HEAD unless the notes switch the branch to itself. */
  lemma PreparedKeepsHead(g: Dag, s: RefState, notes: Notes, branch: string, first: string, tip: string)
    requires RefsOk(g, s) && Passes(g, s, notes, branch, first, tip) && !SelfSwitch(notes, branch)
    ensures RefsOk(g, Prepared(s, notes, branch, first, tip)) && HeadKept(g, s, Prepared(s, notes, branch, first, tip))
  {
    var after := Prepared(s, notes, branch, first, tip);
    var name := if Switches(notes, branch) then PreviousBranch(notes) else branch;
    assert name in after.tracking && Ancestor(g, HeadCommit(s), after.tracking[name]);
  }

  /** The commit is at a detached HEAD, and nothing but the tracking ref of the target may hold it. */
  ghost predicate OnlyAtHead(g: Dag, s: RefState, branch: string)
    requires RefsOk(g, s)
  {
    && s.head.DetachedAt?
    && (forall name | name in s.branches :: !Ancestor(g, s.head.commit, s.branches[name]))
    && (forall name | name in s.tracking && name != branch :: !Ancestor(g, s.head.commit, s.tracking[name]))
  }

  /** The target can be rewound to a commit that does not hold the one at HEAD, and that passes all the same. */
  ghost predicate CanRewind(g: Dag, s: RefState, branch: string, rewound: string) {
    && s.head.DetachedAt? && FullCommit(s.head.commit)
    && rewound in g.parents && FullCommit(rewound) && !Ancestor(g, s.head.commit, rewound)
    && BranchPasses(g, s, branch, rewound)
  }

  lemma SelfSwitchLoses(g: Dag, s: RefState, notes: Notes, branch: string, tip: string)
    requires RefsOk(g, s) && OnlyAtHead(g, s, branch) && SelfSwitch(notes, branch) && CanRewind(g, s, branch, tip)
    ensures Passes(g, s, notes, branch, s.head.commit, tip)
    ensures RefsOk(g, Prepared(s, notes, branch, s.head.commit, tip))
    ensures !HeadKept(g, s, Prepared(s, notes, branch, s.head.commit, tip))
  {
    var after := Prepared(s, notes, branch, s.head.commit, tip);
    assert forall name | name in after.branches :: !Ancestor(g, s.head.commit, after.branches[name]);
    assert forall name | name in after.tracking :: !Ancestor(g, s.head.commit, after.tracking[name]);
  }

  ghost predicate AlwaysKept(g: Dag, s: RefState, notes: Notes, branch: string)
    requires RefsOk(g, s)
  {
    forall first, tip | Passes(g, s, notes, branch, first, tip) ::
      RefsOk(g, Prepared(s, notes, branch, first, tip)) && HeadKept(g, s, Prepared(s, notes, branch, first, tip))
  }

  /**
   * Exactly when a commit held by nothing but a detached HEAD survives whatever the remote answers: when the notes
   * do not switch the branch to itself, or the remote cannot be rewound. They switch it to itself if they name the
   * same branch without the prefix; the remote may then be rewound between the two fetches of that branch.
   */
  lemma DetachedHeadKeptIff(g: Dag, s: RefState, notes: Notes, branch: string)
    requires RefsOk(g, s) && OnlyAtHead(g, s, branch)
    ensures AlwaysKept(g, s, notes, branch)
            <==> !SelfSwitch(notes, branch) || forall rewound :: !CanRewind(g, s, branch, rewound)
  {
    if rewound :| SelfSwitch(notes, branch) && CanRewind(g, s, branch, rewound) {
      SelfSwitchLoses(g, s, notes, branch, rewound);
      assert Passes(g, s, notes, branch, s.head.commit, rewound);
    } else {
      forall first, tip | Passes(g, s, notes, branch, first, tip)
        ensures RefsOk(g, Prepared(s, notes, branch, first, tip)) && HeadKept(g, s, Prepared(s, notes, branch, first, tip))
      {
        if SelfSwitch(notes, branch) {
          assert !CanRewind(g, s, branch, tip);
        } else {
          PreparedKeepsHead(g, s, notes, branch, first, tip);
        }
      }
    }
  }

  const SOME_COMMIT := "1111111111111111111111111111111111111111"

  const OTHER_COMMIT := "2222222222222222222222222222222222222222"

  /** Such a clone, such notes and such a remote exist, with names that Git could give them. */
  lemma DetachedHeadCanBeLost() returns (g: Dag, s: RefState, notes: Notes, first: string, tip: string)
    ensures RefsOk(g, s) && Readable(notes) && Passes(g, s, notes, "main", first, tip)
    ensures RefsOk(g, Prepared(s, notes, "main", first, tip)) && !HeadKept(g, s, Prepared(s, notes, "main", first, tip))
  {
    g := Graph(map[SOME_COMMIT := {}, OTHER_COMMIT := {}], map[SOME_COMMIT := 0, OTHER_COMMIT := 0]);
    s := RefState(DetachedAt(SOME_COMMIT), map[], map[]);
    notes := Saved("r", "main", SOME_COMMIT);
    assert |notes.targetRef| < |HEADS_PREFIX|;
    assert !(HEADS_PREFIX <= notes.targetRef);
    first, tip := SOME_COMMIT, OTHER_COMMIT;
    assert SOME_COMMIT[0] != OTHER_COMMIT[0] && g.parents[tip] == {};
    SelfSwitchLoses(g, s, notes, "main", tip);
  }

  // ---------- The clone ----------

  /**
   * A clone on disk. Each method but Prepare and its parts is one Git command or one file operation. It may fail
   * at any time, before, amid or after taking effect, as when it is killed or a hook fails; it answers truthfully
   * when it does not. Asterisks stand for what the remote and the working tree decide.
   */
  class Repository {
    const graph: Dag
    var cloned: bool
    var head: Head
    var branches: map<string, string>
    var tracking: map<string, string>
    var dirty: bool
    var notes: Notes

    ghost function Refs(): RefState
      reads this
    {
      RefState(head, branches, tracking)
    }

    ghost predicate Valid()
      reads this
    {
      RefsOk(graph, Refs()) && Readable(notes)
    }

    constructor (everything: Dag, found: Notes)
      requires Readable(found)
      ensures Valid() && !cloned && graph == everything && notes == found
    {
      graph := everything;
      cloned, head, branches, tracking, dirty, notes := false, OnBranch(""), map[], map[], false, found;
    }

    method GitSucceeds() returns (ok: bool)
    {
      ok := *;
    }

    /**
     * clone --no-checkout: the remote decides on the refs, and every branch starts where it is tracked. A clone that
     * is killed can leave its directory behind, with as many of the refs.
     */
    method Clone() returns (ok: bool)
      requires Valid()
      modifies this`cloned, this`head, this`branches, this`tracking, this`dirty
      ensures Valid() && (ok ==> cloned)
      ensures !cloned ==> cloned == old(cloned) && Refs() == old(Refs())
    {
      var at: Head, remote: map<string, string>, local: set<string>, begun: bool := *, *, *, *;
      ok := *;
      if !(forall name | name in remote :: remote[name] in graph.parents.Keys) || (at.DetachedAt? && at.commit !in graph.parents) {
        return false;
      }
      if ok || begun {
        cloned, head, tracking, dirty := true, at, remote, *;
        branches := map name | name in local && name in remote :: remote[name];
      }
    }

    /** fetch --prune origin +refs/heads/b:refs/remotes/origin/b: a failure may come after the ref was moved. */
    method Fetch(branch: string) returns (ok: bool)
      requires Valid()
      modifies this`tracking
      ensures Valid() && (ok ==> branch in tracking)
      ensures tracking == old(tracking) || (branch in tracking && tracking == old(tracking)[branch := tracking[branch]])
    {
      var tip: string, moved: bool := *, *;
      ok := *;
      if tip in graph.parents && (ok || moved) {
        tracking := tracking[branch := tip];
      } else {
        ok := false;
      }
    }

    /** rev-parse --verify on a tracking ref. */
    method ResolveTracking(branch: string) returns (r: Result<string>)
      requires branch in tracking
      ensures r.Ok? ==> r.value == tracking[branch]
    {
      var ok := GitSucceeds();
      return if ok then Ok(tracking[branch]) else Err("WORKSPACE_TARGET_COMMIT_NOT_FOUND");
    }

    /** rev-parse --verify --quiet on a local branch: nothing when there is none. */
    method ResolveBranch(branch: string) returns (r: Result<string>)
      ensures r.Ok? ==> r.value == if branch in branches then branches[branch] else ""
    {
      var ok := GitSucceeds();
      return if !ok then Err("WORKSPACE_LOCAL_BRANCH_READ_FAILED") else Ok(if branch in branches then branches[branch] else "");
    }

    method ResolveHead() returns (r: Result<string>)
      ensures r.Ok? ==> r.value == HeadCommit(Refs())
    {
      var ok := GitSucceeds();
      if !ok { return Err("WORKSPACE_HEAD_READ_FAILED"); }
      match head
      case OnBranch(name) => return Ok(if name in branches then branches[name] else "");
      case DetachedAt(commit) => return Ok(commit);
    }

    /** symbolic-ref --quiet --short HEAD: nothing when detached. */
    method CurrentBranch() returns (r: Result<Option<string>>)
      ensures r.Ok? ==> r.value == BranchOf(head)
    {
      var ok := GitSucceeds();
      if !ok { return Err("WORKSPACE_BRANCH_READ_FAILED"); }
      if head.DetachedAt? { return Ok(None); }
      return Ok(Some(head.name));
    }

    method TrackedDirty() returns (r: Result<bool>)
      ensures r.Ok? ==> r.value == dirty
    {
      var ok := GitSucceeds();
      return if ok then Ok(dirty) else Err("WORKSPACE_STATUS_FAILED");
    }

    /** merge-base --is-ancestor. */
    method IsAncestor(a: string, d: string) returns (r: Result<bool>)
      requires a in graph.parents && d in graph.parents
      ensures r.Ok? ==> r.value == Ancestor(graph, a, d)
      ensures r.Err? ==> r.code == "WORKSPACE_ANCESTRY_CHECK_FAILED"
    {
      var ok := GitSucceeds();
      if !ok { return Err("WORKSPACE_ANCESTRY_CHECK_FAILED"); }
      var found := SearchBack(a, d);
      return Ok(found);
    }

    /** Looking for a among d and its ancestors. */
    method SearchBack(a: string, d: string) returns (found: bool)
      requires d in graph.parents
      ensures found == Ancestor(graph, a, d)
      decreases graph.age[d]
    {
      if a == d { return true; }
      var rest := graph.parents[d];
      while rest != {}
        invariant rest <= graph.parents[d] && forall p | p in graph.parents[d] - rest :: !Ancestor(graph, a, p)
        decreases |rest|
      {
        var p :| p in rest;
        rest := rest - {p};
        var here := SearchBack(a, p);
        if here { return true; }
      }
      return false;
    }

    /** checkout of an existing branch. */
    method Checkout(branch: string) returns (ok: bool)
      requires Valid()
      modifies this`head, this`dirty
      ensures Valid()
      ensures if ok then branch in branches && head == OnBranch(branch) else head == old(head) || head == OnBranch(branch)
    {
      var moved: bool := *;
      ok := *;
      if branch !in branches { ok, moved := false, false; }
      if ok || moved { head := OnBranch(branch); }
      dirty := *;
    }

    /** checkout -b branch --track: refused when the branch exists. The branch is made before HEAD moves to it. */
    method CheckoutNew(branch: string) returns (ok: bool)
      requires Valid() && branch in tracking
      modifies this`head, this`branches, this`dirty
      ensures Valid()
      ensures ok ==> branch !in old(branches) && branches == old(branches)[branch := tracking[branch]] && head == OnBranch(branch)
      ensures branches == old(branches) || (branch !in old(branches) && branches == old(branches)[branch := tracking[branch]])
      ensures head == old(head) || (head == OnBranch(branch) && branch !in old(branches) && branch in branches)
    {
      var made: bool, moved: bool := *, *;
      ok := *;
      if branch in branches { return false; }
      if ok || made {
        branches := branches[branch := tracking[branch]];
        if ok || moved { head := OnBranch(branch); }
      }
      dirty := *;
    }

    /** merge --ff-only of the tracking ref into the branch at HEAD: it moves forward, or stays, or is refused. */
    method FastForward(branch: string) returns (ok: bool)
      requires Valid() && head == OnBranch(branch) && branch in branches && branch in tracking
      modifies this`branches, this`dirty
      ensures Valid() && branch in branches && branches == old(branches)[branch := branches[branch]]
      ensures branches[branch] == old(branches[branch])
              || (branches[branch] == tracking[branch] && Ancestor(graph, old(branches[branch]), tracking[branch]))
      ensures ok && Ancestor(graph, old(branches[branch]), tracking[branch]) ==> branches[branch] == tracking[branch]
    {
      var moved: bool := *;
      ok := *;
      var ahead := SearchBack(branches[branch], tracking[branch]);
      var behind := SearchBack(tracking[branch], branches[branch]);
      if !ahead && !behind { ok := false; }
      if ahead && (ok || moved) { branches := branches[branch := tracking[branch]]; }
      dirty := *;
    }

    method LoadNotes() returns (r: Result<Notes>)
      ensures r.Ok? ==> r.value == notes
    {
      var ok := GitSucceeds();
      return if ok then Ok(notes) else Err("WORKSPACE_METADATA_READ_FAILED");
    }

    /** Writing is not atomic: a failure can leave a broken file, or come when all is written. */
    method SaveNotes(value: Notes) returns (ok: bool)
      requires Valid() && Readable(value)
      modifies this`notes
      ensures Valid() && if ok then notes == value else notes in {old(notes), Broken, value}
    {
      ok := *;
      var written: bool, torn: bool := *, *;
      if ok || written { notes := value; } else if torn { notes := Broken; }
    }

    // ---------- The manager ----------

    method EnsureNoLocalCommits(current: string, remote: string) returns (error: Option<string>)
      requires (current != "" ==> current in graph.parents) && remote in graph.parents
      ensures error == None ==> current == "" || Ancestor(graph, current, remote)
      ensures error.Some? && error.value in {LOCAL_COMMITS, DIVERGED} ==> error == NoLocalCommits(graph, current, remote)
    {
      if current == "" || current == remote { return None; }
      var currentBehind := IsAncestor(current, remote);
      if currentBehind.Err? { return Some(currentBehind.code); }
      if currentBehind.value { return None; }
      var remoteBehind := IsAncestor(remote, current);
      if remoteBehind.Err? { return Some(remoteBehind.code); }
      if remoteBehind.value { return Some(LOCAL_COMMITS); }
      return Some(DIVERGED);
    }

    method FetchAndResolve(branch: string) returns (r: Result<string>)
      requires Valid()
      modifies this`tracking
      ensures Valid()
      ensures tracking == old(tracking) || (branch in tracking && tracking == old(tracking)[branch := tracking[branch]])
      ensures r.Ok? ==> branch in tracking && r.value == tracking[branch] && FullCommit(r.value)
    {
      var ok := Fetch(branch);
      if !ok { return Err("WORKSPACE_FETCH_FAILED"); }
      var resolved := ResolveTracking(branch);
      if resolved.Err? { return resolved; }
      if !FullCommit(resolved.value) { return Err("WORKSPACE_TARGET_COMMIT_INVALID"); }
      return resolved;
    }

    /** Every exit leaves the branches advanced; HEAD stays or is on the branch, which the last exit has at the target. */
    method CheckoutTrackingBranch(branch: string, resolved: string) returns (error: Option<string>)
      requires Valid() && branch in tracking && tracking[branch] == resolved && resolved != ""
      modifies this`head, this`branches, this`dirty
      ensures Valid() && Advances(graph, old(branches), branches)
      ensures head == old(head) || head == OnBranch(branch)
      ensures error == None ==> head == OnBranch(branch) && branches == old(branches)[branch := resolved]
      ensures error == None && branch in old(branches) ==>
                FullCommit(old(branches)[branch]) && Ancestor(graph, old(branches)[branch], resolved)
    {
      var localHead := ResolveBranch(branch);
      if localHead.Err? { return Some(localHead.code); }
      if localHead.value != "" {
        if !FullCommit(localHead.value) { return Some("WORKSPACE_LOCAL_BRANCH_INVALID"); }
        var local := EnsureNoLocalCommits(localHead.value, resolved);
        if local.Some? { return local; }
        var ok := Checkout(branch);
        if !ok { return Some(UNAVAILABLE); }
        if localHead.value != resolved {
          var forwarded := FastForward(branch);
          if !forwarded { return Some(UNAVAILABLE); }
        }
      } else {
        var ok := CheckoutNew(branch);
        if !ok { return Some(UNAVAILABLE); }
      }
      var ok := GitSucceeds();
      return if ok then None else Some(UNAVAILABLE);
    }

    /** The branch a target names, once check-ref-format has passed it. */
    method CanonicalTargetRef(raw: string) returns (r: Result<string>)
      ensures r.Ok? ==> r.value != "" && r.value == Text.TrimPrefix(Text.Trim(raw), HEADS_PREFIX)
    {
      var branch := Text.TrimPrefix(Text.Trim(raw), HEADS_PREFIX);
      if branch == "" { return Err("WORKSPACE_TARGET_REF_REQUIRED"); }
      var ok := GitSucceeds();
      return if ok then Ok(branch) else Err("WORKSPACE_TARGET_REF_INVALID");
    }

    method VerifyRepository() returns (error: Option<string>)
    {
      var ok := GitSucceeds();
      return if ok then None else Some("WORKSPACE_GIT_METADATA_INVALID");
    }

    /** Prepare with resume: it looks and changes nothing. */
    method Resume(identity: string, branch: string, expected: string) returns (r: Result<Outcome>)
      ensures !cloned ==> r == Err("WORKSPACE_RESUME_NOT_FOUND")
      ensures r.Ok? ==> notes.Saved? && notes.repository == identity && notes.targetRef == HEADS_PREFIX + branch
                        && (expected != "" ==> expected == notes.commit) && HeadCommit(Refs()) != ""
                        && r.value == Outcome(notes.targetRef, notes.commit, HeadCommit(Refs()), BranchOf(head), dirty, true)
    {
      if !cloned { return Err("WORKSPACE_RESUME_NOT_FOUND"); }
      var verified := VerifyRepository();
      if verified.Some? { return Err(verified.value); }
      var loaded := LoadNotes();
      if loaded.Err? { return Err(loaded.code); }
      match loaded.value
      case Missing => return Err("WORKSPACE_METADATA_NOT_FOUND");
      case Broken => return Err("WORKSPACE_METADATA_INVALID");
      case Saved(repository, targetRef, commit) =>
        if repository != identity || targetRef != HEADS_PREFIX + branch { return Err("WORKSPACE_RESUME_CONTEXT_MISMATCH"); }
        if expected != "" && expected != commit { return Err(EXPECTED_MISMATCH); }
        var at := ResolveHead();
        if at.Err? || at.value == "" { return Err("WORKSPACE_HEAD_UNAVAILABLE"); }
        var changed := TrackedDirty();
        if changed.Err? { return Err(changed.code); }
        var current := CurrentBranch();
        if current.Err? { return Err(current.code); }
        return Ok(Outcome(HEADS_PREFIX + branch, commit, at.value, current.value, changed.value, true));
    }

    /** Up to the fetch of the target: HEAD and the branches stay, and HEAD's commit is held by a tracking ref. */
    method Approach(existed: bool, branch: string, expected: string, known: Notes)
      returns (r: Result<string>, ghost first: string)
      requires Valid()
      modifies this`tracking
      ensures Valid()
      ensures r.Ok? ==> branch in tracking && r.value == tracking[branch] && FullCommit(r.value)
                        && (expected != "" ==> expected == r.value)
      ensures r.Ok? && existed && HeadCommit(Refs()) != "" ==>
                && HeadPasses(graph, old(Refs()), known, branch, first, r.value)
                && Refs() == Approached(old(Refs()), known, branch, first, r.value)
    {
      first := "";
      var at := ResolveHead();
      if at.Err? { return at, first; }
      if at.value != "" && !FullCommit(at.value) { return Err("WORKSPACE_HEAD_INVALID"), first; }
      if existed && at.value != "" && known.Saved? && known.targetRef != HEADS_PREFIX + branch {
        var previousBranch := Text.TrimPrefix(known.targetRef, HEADS_PREFIX);
        var previousRemote := FetchAndResolve(previousBranch);
        if previousRemote.Err? { return Err("WORKSPACE_PREVIOUS_TARGET_UNAVAILABLE"), first; }
        var local := EnsureNoLocalCommits(at.value, previousRemote.value);
        if local.Some? { return Err(local.value), first; }
        first := previousRemote.value;
      }
      var resolved := FetchAndResolve(branch);
      if resolved.Err? { return resolved, first; }
      if expected != "" && expected != resolved.value { return Err(EXPECTED_MISMATCH), first; }
      if existed && at.value != "" && (!known.Saved? || known.targetRef == HEADS_PREFIX + branch) {
        var local := EnsureNoLocalCommits(at.value, resolved.value);
        if local.Some? { return Err(local.value), first; }
        first := resolved.value;
      }
      return resolved, first;
    }

    /** After the target is fetched: check it out, look again, and note it down. */
    method Settle(identity: string, branch: string, resolved: string) returns (r: Result<Outcome>)
      requires Valid() && branch in tracking && tracking[branch] == resolved && FullCommit(resolved)
      requires identity != "" && branch != ""
      modifies this`head, this`branches, this`dirty, this`notes
      ensures Valid() && Advances(graph, old(branches), branches)
      ensures head == old(head) || head == OnBranch(branch)
      ensures r.Ok? ==> head == OnBranch(branch) && branches == old(branches)[branch := resolved] && !dirty
                        && notes == Saved(identity, HEADS_PREFIX + branch, resolved)
                        && r.value == Outcome(HEADS_PREFIX + branch, resolved, resolved, Some(branch), false, false)
      ensures r.Ok? && branch in old(branches) ==>
                FullCommit(old(branches)[branch]) && Ancestor(graph, old(branches)[branch], resolved)
      ensures notes in {old(notes), Broken, Saved(identity, HEADS_PREFIX + branch, resolved)}
    {
      var synced := CheckoutTrackingBranch(branch, resolved);
      if synced.Some? { return Err(synced.value); }
      var at := ResolveHead();
      if at.Err? { return Err(at.code); }
      if at.value != resolved { return Err("WORKSPACE_COMMIT_MISMATCH"); }
      var changed := TrackedDirty();
      if changed.Err? { return Err(changed.code); }
      if changed.value { return Err("WORKSPACE_DIRTY_AFTER_SYNC"); }
      var current := CurrentBranch();
      if current.Err? { return Err(current.code); }
      if current.value != Some(branch) { return Err("WORKSPACE_BRANCH_STATE_INVALID"); }
      var saved := SaveNotes(Saved(identity, HEADS_PREFIX + branch, resolved));
      if !saved { return Err("WORKSPACE_METADATA_WRITE_FAILED"); }
      return Ok(Outcome(HEADS_PREFIX + branch, resolved, at.value, current.value, false, false));
    }

    /**
     * Preparing never loses local work. At every exit, whatever fails on the way, local branches have only
     * moved to descendants, and the commit that was at HEAD is still reachable from HEAD, a local branch or a
     * remote-tracking ref, unless the notes it found switch the branch to itself, which notes of its own never do.
     * On success HEAD is the target branch at the fetched tip, which is the expected commit if one was given.
     * identity is the repository that the URL names.
     */
    method Prepare(identity: string, input: PrepareInput) returns (r: Result<Outcome>, ghost first: string)
      requires Valid() && identity != ""
      modifies this
      ensures Valid()
      ensures input.resume ==> Refs() == old(Refs()) && notes == old(notes) && dirty == old(dirty) && cloned == old(cloned)
      ensures input.resume && r.Ok? ==>
                && cloned && notes.Saved? && notes.repository == identity && notes.targetRef == HEADS_PREFIX + Target(input)
                && (Text.Trim(input.expected) != "" ==> Lower(Text.Trim(input.expected)) == notes.commit)
                && r.value == Outcome(notes.targetRef, notes.commit, HeadCommit(Refs()), BranchOf(head), dirty, true)
      ensures old(cloned) ==> cloned && Advances(graph, old(branches), branches)
      ensures old(cloned) && !SelfSwitch(old(notes), Target(input)) ==> HeadKept(graph, old(Refs()), Refs())
      ensures old(cloned) && old(dirty) && !input.resume ==> r.Err? && Refs() == old(Refs())
      ensures r.Ok? && !input.resume ==>
                && head == OnBranch(Target(input)) && Target(input) in branches && Target(input) in tracking
                && branches[Target(input)] == tracking[Target(input)] == r.value.resolved == HeadCommit(Refs())
                && (Text.Trim(input.expected) != "" ==> r.value.resolved == Lower(Text.Trim(input.expected))) && !dirty
                && notes == Saved(identity, HEADS_PREFIX + Target(input), r.value.resolved)
                && r.value == Outcome(notes.targetRef, notes.commit, HeadCommit(Refs()), BranchOf(head), false, false)
      ensures r.Ok? && !input.resume && old(cloned) && HeadCommit(old(Refs())) != "" ==>
                && Passes(graph, old(Refs()), old(notes), Target(input), first, r.value.resolved)
                && Refs() == Prepared(old(Refs()), old(notes), Target(input), first, r.value.resolved)
      ensures Prefixed(old(notes)) ==> Prefixed(notes) && (old(cloned) ==> HeadKept(graph, old(Refs()), Refs()))
    {
      if Prefixed(notes) { PrefixedNeverSwitchesToItself(notes, Target(input)); }
      AdvancesSelf(graph, branches);
      SameHeadKeeps(graph, Refs(), Refs());
      var target := CanonicalTargetRef(input.targetRef);
      if target.Err? { return Err(target.code), ""; }
      var branch := target.value;
      var expected := Lower(Text.Trim(input.expected));
      if expected != "" && !FullCommit(expected) { return Err("WORKSPACE_EXPECTED_COMMIT_INVALID"), ""; }
      if input.resume {
        r := Resume(identity, branch, expected);
        return r, "";
      }
      var existed := cloned;
      if !cloned {
        var ok := Clone();
        if !ok { return Err("WORKSPACE_CLONE_FAILED"), ""; }
        var verified := VerifyRepository();
        if verified.Some? { return Err(verified.value), ""; }
      } else {
        var verified := VerifyRepository();
        if verified.Some? { return Err(verified.value), ""; }
        var changed := TrackedDirty();
        if changed.Err? { return Err(changed.code), ""; }
        if changed.value { return Err("WORKSPACE_DIRTY"), ""; }
      }
      var loaded := LoadNotes();
      if loaded.Err? { return Err(loaded.code), ""; }
      ghost var before := Refs();
      var resolved;
      resolved, first := Approach(existed, branch, expected, loaded.value);
      SameHeadKeeps(graph, before, Refs());
      if resolved.Err? { return Err(resolved.code), first; }
      ghost var fetched := Refs();
      r := Settle(identity, branch, resolved.value);
      if existed { SettledKeeps(graph, before, fetched, Refs(), loaded.value, branch, first, resolved.value); }
    }
  }

  /** However far the checkout got, the commit at HEAD is kept. */
  lemma SettledKeeps(g: Dag, before: RefState, fetched: RefState, after: RefState, notes: Notes, branch: string,
                     first: string, tip: string)
    requires RefsOk(g, before) && RefsOk(g, after)
    requires fetched.head == before.head && fetched.branches == before.branches && after.tracking == fetched.tracking
    requires Advances(g, before.branches, after.branches) && (after.head == before.head || after.head == OnBranch(branch))
    requires HeadCommit(before) != "" ==>
               HeadPasses(g, before, notes, branch, first, tip) && fetched == Approached(before, notes, branch, first, tip)
    ensures !SelfSwitch(notes, branch) ==> HeadKept(g, before, after)
  {
    if HeadCommit(before) != "" && !SelfSwitch(notes, branch) {
      var name := if Switches(notes, branch) then PreviousBranch(notes) else branch;
      assert name in after.tracking && Ancestor(g, HeadCommit(before), after.tracking[name]);
    }
  }
}
