/**
  The static state hierarchy: what the compiler emits once and the run-time never changes
  (chsm.h, classes state, parent, cluster and set).

  States are numbered from 0, the root; the source keeps the root outside its state table and
  gives it the identifier -1, so a source identifier i is number i + 1 here.
 */
module StateTree {

  datatype Kind = Plain | Cluster | Set

  const ROOT: nat := 0

  /** `parent[ROOT]` is not used.  `rank` is the distance from the root: it is not in the source, and
      only records that parent chains end at the root. */
  datatype Tree = Tree(
    kind: seq<Kind>,
    parent: seq<nat>,
    children: seq<seq<nat>>,
    history: seq<bool>,
    rank: seq<nat>)

  ghost predicate Valid(g: Tree) {
    && 0 < |g.kind| == |g.parent| == |g.children| == |g.history| == |g.rank|
    && g.kind[ROOT] == Cluster && g.rank[ROOT] == 0
    && (forall s {:trigger g.parent[s]} :: 0 < s < |g.kind| ==>
          && g.parent[s] < |g.kind|
          && g.kind[g.parent[s]] != Plain
          && g.rank[s] == g.rank[g.parent[s]] + 1
          && s in g.children[g.parent[s]])
    && (forall s {:trigger g.rank[s]} :: 0 <= s < |g.kind| ==> g.rank[s] < |g.kind|)
    && (forall p, c {:trigger c in g.children[p]} :: 0 <= p < |g.kind| && c in g.children[p] ==>
          0 < c < |g.kind| && g.parent[c] == p)
    && (forall p, i, j {:trigger g.children[p][i], g.children[p][j]} ::
          0 <= p < |g.kind| && 0 <= i < j < |g.children[p]| ==> g.children[p][i] != g.children[p][j])
    && (forall p {:trigger g.children[p]} :: 0 <= p < |g.kind| && g.kind[p] == Plain ==> g.children[p] == [])
  }

  predicate IsState(g: Tree, s: nat) {
    s < |g.kind|
  }

  /** Levels of the tree that can still lie below `s`: the measure of every downward recursion. */
  function Height(g: Tree, s: nat): nat
    requires Valid(g) && IsState(g, s)
  {
    |g.kind| - g.rank[s]
  }

  /** `x` is `a` or one of its descendants. */
  predicate Within(g: Tree, x: nat, a: nat)
    requires Valid(g) && IsState(g, x)
    decreases g.rank[x]
  {
    x == a || (x != ROOT && Within(g, g.parent[x], a))
  }

  predicate Below(g: Tree, x: nat, a: nat)
    requires Valid(g) && IsState(g, x)
  {
    x != a && Within(g, x, a)
  }

  lemma {:induction false} WithinRank(g: Tree, x: nat, a: nat)
    requires Valid(g) && IsState(g, x) && Within(g, x, a)
    ensures IsState(g, a) && g.rank[a] <= g.rank[x]
    ensures g.rank[a] == g.rank[x] ==> a == x
    decreases g.rank[x]
  {
    if x != a {
      WithinRank(g, g.parent[x], a);
    }
  }

  lemma {:induction false} WithinTrans(g: Tree, x: nat, b: nat, a: nat)
    requires Valid(g) && IsState(g, x) && Within(g, x, b) && IsState(g, b) && Within(g, b, a)
    ensures Within(g, x, a)
    decreases g.rank[x]
  {
    if x != b {
      WithinTrans(g, g.parent[x], b, a);
    }
  }

  /** The ancestors of a state form a chain. */
  lemma {:induction false} AncestorsChain(g: Tree, x: nat, a: nat, b: nat)
    requires Valid(g) && IsState(g, x) && IsState(g, a) && IsState(g, b)
    requires Within(g, x, a) && Within(g, x, b)
    ensures Within(g, a, b) || Within(g, b, a)
    decreases g.rank[x]
  {
    if x != a && x != b {
      AncestorsChain(g, g.parent[x], a, b);
    }
  }

  lemma {:induction false} RootHoldsAll(g: Tree, x: nat)
    requires Valid(g) && IsState(g, x)
    ensures Within(g, x, ROOT)
    decreases g.rank[x]
  {
    if x != ROOT {
      RootHoldsAll(g, g.parent[x]);
    }
  }

  /** The child of `a` whose subtree holds `x`. */
  function Toward(g: Tree, x: nat, a: nat): (c: nat)
    requires Valid(g) && IsState(g, x) && Below(g, x, a)
    ensures IsState(g, a) && IsState(g, c) && c != ROOT && g.parent[c] == a && Within(g, x, c)
    ensures c in g.children[a]
    decreases g.rank[x]
  {
    if g.parent[x] == a then x else Toward(g, g.parent[x], a)
  }

  /** Subtrees of different children of a state do not meet. */
  lemma SiblingsApart(g: Tree, x: nat, b: nat, c: nat)
    requires Valid(g) && IsState(g, x) && IsState(g, b) && IsState(g, c)
    requires b != ROOT && c != ROOT && g.parent[b] == g.parent[c] && b != c
    ensures !(Within(g, x, b) && Within(g, x, c))
  {
    if Within(g, x, b) && Within(g, x, c) {
      AncestorsChain(g, x, b, c);
      if Within(g, b, c) {
        WithinRank(g, b, c);
      } else {
        WithinRank(g, c, b);
      }
    }
  }

  /** A child is inside its parent's subtree, and nothing is below itself. */
  lemma ChildWithin(g: Tree, c: nat, p: nat)
    requires Valid(g) && IsState(g, c) && c != ROOT && g.parent[c] == p
    ensures Within(g, c, p) && !Within(g, p, c)
  {
    assert Within(g, p, p);
    if Within(g, p, c) {
      WithinRank(g, p, c);
    }
  }

  /** What lies below a child lies below the parent. */
  lemma ChildSubtree(g: Tree, c: nat, p: nat)
    requires Valid(g) && IsState(g, c) && c != ROOT && g.parent[c] == p
    ensures forall x :: IsState(g, x) && Within(g, x, c) ==> Within(g, x, p) && x != p
  {
    forall x | IsState(g, x) && Within(g, x, c)
      ensures Within(g, x, p) && x != p
    {
      ChildWithin(g, c, p);
      WithinTrans(g, x, c, p);
    }
  }
}
