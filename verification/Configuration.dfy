/**
  What entering and exiting do to a configuration: which states are active, what each cluster
  remembers, and in which order states were entered and exited.

  `Open` and `Quit` follow the source's virtual calls (state.cpp, cluster.cpp, set.cpp) branch by
  branch; the class `Engine.Machine` is proved to do exactly this whatever its callbacks broadcast.
 */
module Configuration {
  import opened Wrappers
  import opened StateTree

  datatype Step = Entered(s: nat) | Exited(s: nat)

  /** `child` is active_child_ and `last` is last_child_, both meaningful for clusters only. */
  datatype Config = Config(
    on: set<nat>,
    child: seq<Option<nat>>,
    last: seq<Option<nat>>,
    log: seq<Step>)

  ghost predicate Shaped(g: Tree, c: Config)
    requires Valid(g)
  {
    && |c.child| == |c.last| == |g.kind|
    && (forall s :: s in c.on ==> IsState(g, s))
    && (forall p {:trigger c.child[p]} :: 0 <= p < |g.kind| && c.child[p].Some? ==> c.child[p].value in g.children[p])
    && (forall p {:trigger c.last[p]} :: 0 <= p < |g.kind| && c.last[p].Some? ==> c.last[p].value in g.children[p])
  }

  /** An active cluster with children, other than `s`, has an active_child_ pointer to follow. */
  ghost predicate TypedBut(g: Tree, c: Config, s: nat)
    requires Valid(g)
  {
    && Shaped(g, c)
    && forall p {:trigger c.child[p]} ::
         p in c.on && p != s && g.kind[p] == Cluster && g.children[p] != [] ==> c.child[p].Some?
  }

  ghost predicate Typed(g: Tree, c: Config)
    requires Valid(g)
  {
    && Shaped(g, c)
    && forall p {:trigger c.child[p]} ::
         p in c.on && g.kind[p] == Cluster && g.children[p] != [] ==> c.child[p].Some?
  }

  /** Exiting an empty cluster dereferences a null active child, so exits are modelled without them. */
  ghost predicate NoEmptyClusters(g: Tree)
    requires Valid(g)
  {
    forall p {:trigger g.children[p]} :: 0 <= p < |g.kind| && g.kind[p] == Cluster ==> g.children[p] != []
  }

  function Mark(c: Config, s: nat): Config {
    c.(on := c.on + {s}, log := c.log + [Entered(s)])
  }

  function Unmark(c: Config, s: nat): Config {
    c.(on := c.on - {s}, log := c.log + [Exited(s)])
  }

  function Record(c: Config, p: nat, x: nat): Config
    requires p < |c.child| && p < |c.last|
  {
    c.(child := c.child[p := Some(x)], last := c.last[p := Some(x)])
  }

  // ---------------------------------------------------------------- entering

  /** The child a cluster enters by itself: the last active one under history, else the first. */
  function Pick(g: Tree, last: seq<Option<nat>>, s: nat): (d: nat)
    requires Valid(g) && IsState(g, s) && g.children[s] != [] && |last| == |g.kind|
    requires last[s].Some? ==> last[s].value in g.children[s]
    ensures d in g.children[s]
  {
    if last[s].None? || !g.history[s] then g.children[s][0] else last[s].value
  }

  /** Entering a state whose parent has just been entered. */
  function Descend(g: Tree, c: Config, s: nat): (r: Config)
    requires Valid(g) && Typed(g, c) && IsState(g, s)
    ensures Typed(g, r) && c.on + {s} <= r.on
    ensures forall y :: y in r.on && y !in c.on ==> Within(g, y, s)
    decreases Height(g, s), 3, 0
  {
    if s in c.on then c else Fill(g, Mark(c, s), s)
  }

  /** What an active state does next: a cluster enters one child, a set enters all of them. */
  function Fill(g: Tree, c: Config, s: nat): (r: Config)
    requires Valid(g) && TypedBut(g, c, s) && s in c.on
    ensures Typed(g, r) && c.on <= r.on
    ensures forall y :: y in r.on && y !in c.on ==> Within(g, y, s)
    decreases Height(g, s), 2, 0
  {
    match g.kind[s]
    case Plain => c
    case Cluster =>
      if g.children[s] == [] then c
      else
        var d := Pick(g, c.last, s);
        ChildSubtree(g, d, s);
        Descend(g, Record(c, s, d), d)
    case Set => FillAll(g, c, s, 0)
  }

  function FillAll(g: Tree, c: Config, p: nat, i: nat): (r: Config)
    requires Valid(g) && Typed(g, c) && IsState(g, p) && i <= |g.children[p]|
    ensures Typed(g, r) && c.on <= r.on
    ensures forall y :: y in r.on && y !in c.on ==> Within(g, y, p)
    decreases Height(g, p), 1, |g.children[p]| - i
  {
    if i == |g.children[p]| then c
    else
      var d := g.children[p][i];
      assert d in g.children[p];
      ChildSubtree(g, d, p);
      FillAll(g, Descend(g, c, d), p, i + 1)
  }

  /** state::enter: ask or enter the parent, then become active.  The flag says whether it did. */
  function Admit(g: Tree, c: Config, s: nat): (r: (Config, bool))
    requires Valid(g) && Typed(g, c) && IsState(g, s)
    ensures if r.1 then TypedBut(g, r.0, s) && s in r.0.on && s !in c.on else Typed(g, r.0)
    ensures c.on <= r.0.on
    decreases g.rank[s], 0
  {
    if s in c.on then (c, false)
    else if s == ROOT then (Mark(c, s), true)
    else
      var p := g.parent[s];
      if p !in c.on then
        var c1 := Open(g, c, p, Some(s)).0;
        if s in c1.on then (c1, false) else (Mark(c1, s), true)
      else if g.kind[p] == Cluster then
        if c.child[p].value in c.on then (c, false) else (Mark(Record(c, p, s), s), true)
      else (Mark(c, s), true)
  }

  /** The virtual enter(): `from` is the child being entered directly, if any. */
  function Open(g: Tree, c: Config, s: nat, from: Option<nat>): (r: (Config, bool))
    requires Valid(g) && Typed(g, c) && IsState(g, s)
    requires from.Some? ==> from.value in g.children[s]
    ensures Typed(g, r.0) && c.on <= r.0.on
    decreases g.rank[s], 1
  {
    var (c1, ok) := Admit(g, c, s);
    if !ok then (c1, false)
    else if g.kind[s] == Cluster && from.Some? then (Record(c1, s, from.value), true)
    else (Fill(g, c1, s), true)
  }

  // ---------------------------------------------------------------- exiting

  /** Exiting a state together with everything active under it, without climbing. */
  function Drop(g: Tree, c: Config, s: nat): (r: Config)
    requires Valid(g) && NoEmptyClusters(g) && Typed(g, c) && IsState(g, s)
    ensures Typed(g, r) && r.on <= c.on - {s} && r.child == c.child && r.last == c.last
    ensures forall y :: y in c.on && y !in r.on ==> Within(g, y, s)
    decreases Height(g, s), 1, 0
  {
    if s !in c.on then c
    else match g.kind[s]
      case Plain => Unmark(c, s)
      case Cluster =>
        var d := c.child[s].value;
        ChildSubtree(g, d, s);
        Unmark(Drop(g, c, d), s)
      case Set => Unmark(DropAll(g, c, s, 0), s)
  }

  function DropAll(g: Tree, c: Config, p: nat, i: nat): (r: Config)
    requires Valid(g) && NoEmptyClusters(g) && Typed(g, c) && IsState(g, p) && i <= |g.children[p]|
    ensures Typed(g, r) && r.on <= c.on && r.child == c.child && r.last == c.last
    ensures forall y :: y in c.on && y !in r.on ==> Within(g, y, p) && y != p
    decreases Height(g, p), 0, |g.children[p]| - i
  {
    if i == |g.children[p]| then c
    else
      var d := g.children[p][i];
      assert d in g.children[p];
      ChildSubtree(g, d, p);
      DropAll(g, Drop(g, c, d), p, i + 1)
  }

  /** The virtual exit(): with a destination, climb until the parent is a proper ancestor of it. */
  function Quit(g: Tree, c: Config, s: nat, to: Option<nat>): (r: Config)
    requires Valid(g) && NoEmptyClusters(g) && Typed(g, c) && IsState(g, s)
    requires to.Some? ==> IsState(g, to.value)
    ensures Typed(g, r) && r.on <= c.on - {s} && r.child == c.child && r.last == c.last
    decreases g.rank[s]
  {
    if s !in c.on then c
    else
      var c1 := Drop(g, c, s);
      if to.None? || s == ROOT || Below(g, to.value, g.parent[s]) then c1
      else Quit(g, c1, g.parent[s], to)
  }

  // ---------------------------------------------------------------- legal configurations

  ghost predicate UpClosed(g: Tree, c: Config)
    requires Valid(g) && Shaped(g, c)
  {
    forall s {:trigger g.parent[s]} :: s in c.on && s != ROOT ==> g.parent[s] in c.on
  }

  /** A cluster has no active child except the one it points to. */
  ghost predicate AtMostOne(g: Tree, c: Config, p: nat)
    requires Valid(g) && Shaped(g, c) && IsState(g, p)
  {
    g.kind[p] == Cluster ==> forall x :: x in g.children[p] && x in c.on ==> c.child[p] == Some(x)
  }

  /** No state is active under an inactive parent and no active cluster has two active children. */
  ghost predicate Sound(g: Tree, c: Config)
    requires Valid(g)
  {
    && Typed(g, c)
    && UpClosed(g, c)
    && forall p {:trigger c.child[p]} :: p in c.on ==> AtMostOne(g, c, p)
  }

  /** An active cluster has its active child active; an active set has every child active. */
  ghost predicate Full(g: Tree, c: Config, p: nat)
    requires Valid(g) && Shaped(g, c) && IsState(g, p)
  {
    && (g.kind[p] == Cluster && g.children[p] != [] ==> c.child[p].Some? && c.child[p].value in c.on)
    && (g.kind[p] == Set ==> forall x :: x in g.children[p] ==> x in c.on)
  }

  /** A legal statechart configuration. */
  ghost predicate Complete(g: Tree, c: Config)
    requires Valid(g)
  {
    && Sound(g, c)
    && ROOT in c.on
    && forall p {:trigger c.child[p]} :: p in c.on ==> Full(g, c, p)
  }
}
