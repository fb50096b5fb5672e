/** Commits and their ancestry, and the two ways the workspace manager compares a head with a remote one. */
module Commits {
  import opened Wrappers

  /** Every commit there is, on either side, with its parents; age makes the relation acyclic. */
  datatype Graph = Graph(parents: map<string, set<string>>, age: map<string, nat>)

  ghost predicate Acyclic(g: Graph) {
    && g.age.Keys == g.parents.Keys && "" !in g.parents
    && forall c, p | c in g.parents && p in g.parents[c] :: p in g.parents && g.age[p] < g.age[c]
  }

  type Dag = g: Graph | Acyclic(g) witness Graph(map[], map[])

  ghost predicate Ancestor(g: Dag, a: string, d: string)
    requires d in g.parents
    decreases g.age[d]
  {
    a == d || exists p | p in g.parents[d] :: Ancestor(g, a, p)
  }

  lemma {:induction false} AncestorOlder(g: Dag, a: string, d: string)
    requires d in g.parents && Ancestor(g, a, d) && a != d
    ensures a in g.parents && g.age[a] < g.age[d]
    decreases g.age[d]
  {
    var p :| p in g.parents[d] && Ancestor(g, a, p);
    if a != p { AncestorOlder(g, a, p); }
  }

  lemma {:induction false} AncestorTransitive(g: Dag, a: string, b: string, c: string)
    requires b in g.parents && c in g.parents && Ancestor(g, a, b) && Ancestor(g, b, c)
    ensures Ancestor(g, a, c)
    decreases g.age[c]
  {
    if b != c {
      var p :| p in g.parents[c] && Ancestor(g, b, p);
      AncestorTransitive(g, a, b, p);
    }
  }

  lemma AncestorAntisymmetric(g: Dag, a: string, b: string)
    requires a in g.parents && b in g.parents && Ancestor(g, a, b) && Ancestor(g, b, a)
    ensures a == b
  {
    if a != b {
      AncestorOlder(g, a, b);
      AncestorOlder(g, b, a);
    }
  }

  const LOCAL_COMMITS := "WORKSPACE_LOCAL_COMMITS"
  const DIVERGED := "WORKSPACE_DIVERGED"

  /** ensureNoLocalCommits when every ancestry test answers: the error, if any. */
  ghost function NoLocalCommits(g: Dag, current: string, remote: string): Option<string>
    requires (current != "" ==> current in g.parents) && remote in g.parents
  {
    if current == "" || current == remote || Ancestor(g, current, remote) then None
    else if Ancestor(g, remote, current) then Some(LOCAL_COMMITS)
    else Some(DIVERGED)
  }

  datatype Relation = Unknown | Aligned | Ahead | Behind | Apart

  /** localDivergence when every ancestry test answers. */
  ghost function Divergence(g: Dag, current: string, tracking: string): Relation
    requires (tracking != "" ==> tracking in g.parents) && current in g.parents
  {
    if tracking == "" then Unknown
    else if current == tracking then Aligned
    else if Ancestor(g, tracking, current) then Ahead
    else if Ancestor(g, current, tracking) then Behind
    else Apart
  }

  /** The two tests ask in opposite orders, and yet agree on every pair of commits. */
  lemma DivergenceAgrees(g: Dag, current: string, remote: string)
    requires current in g.parents && remote in g.parents
    ensures NoLocalCommits(g, current, remote) == None <==> Divergence(g, current, remote) in {Aligned, Behind}
    ensures NoLocalCommits(g, current, remote) == Some(LOCAL_COMMITS) <==> Divergence(g, current, remote) == Ahead
    ensures NoLocalCommits(g, current, remote) == Some(DIVERGED) <==> Divergence(g, current, remote) == Apart
  {
    if Ancestor(g, current, remote) && Ancestor(g, remote, current) { AncestorAntisymmetric(g, current, remote); }
  }
}
