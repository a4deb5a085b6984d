/**
  Entering a target through its inactive ancestors: the exact effect when the entry works out, and a
  caller-checkable condition, `EntryOk`, that says exactly when it does.
 */
module NestedEntry {
  import opened Wrappers
  import opened StateTree
  import opened Configuration
  import opened Entering
  import opened Leaving

  // ---------------------------------------------------------------- the condition

  /** The topmost inactive ancestor-or-self of an inactive state. */
  function Top(g: Tree, on: set<nat>, t: nat): (v: nat)
    requires Valid(g) && IsState(g, t) && t !in on
    ensures IsState(g, v) && v !in on && Within(g, t, v) && (v == ROOT || g.parent[v] in on)
    decreases g.rank[t]
  {
    if t == ROOT || g.parent[t] in on then t else Top(g, on, g.parent[t])
  }

  /** Where default entry takes over on the way to `t`: the topmost set among its inactive proper
      ancestors, or `t` itself when there is none. */
  function Base(g: Tree, on: set<nat>, t: nat): (b: nat)
    requires Valid(g) && IsState(g, t) && t !in on
    ensures IsState(g, b) && b !in on && Within(g, t, b)
    ensures b != t ==> g.kind[b] == Set
    decreases g.rank[t]
  {
    if t == ROOT || g.parent[t] in on then t
    else
      var b := Base(g, on, g.parent[t]);
      if g.kind[b] == Set then b else t
  }

  /** Does the parent of `v` let it in?  A cluster refuses while its active child is active. */
  predicate Accepts(g: Tree, c: Config, v: nat)
    requires Valid(g) && Typed(g, c) && IsState(g, v) && (v == ROOT || g.parent[v] in c.on)
  {
    v == ROOT || g.kind[g.parent[v]] == Set || c.child[g.parent[v]].value !in c.on
  }

  /** What a caller can look at before entering `t`. */
  predicate EntryOk(g: Tree, c: Config, t: nat)
    requires Valid(g) && Typed(g, c) && IsState(g, t)
  {
    || t in c.on
    || t == ROOT
    || g.parent[t] in c.on
    || (Accepts(g, c, Top(g, c.on, t)) && Default(g, c.last, t, Base(g, c.on, t)))
  }

  // ---------------------------------------------------------------- the way in

  /** Activates the inactive proper ancestors of `b`, each cluster remembering the way down. */
  function Route(g: Tree, c: Config, b: nat): (r: Config)
    requires Valid(g) && Typed(g, c) && IsState(g, b) && b !in c.on
    ensures Typed(g, r) && c.on <= r.on
    ensures forall y :: y in r.on && y !in c.on ==> Below(g, b, y)
    ensures b == ROOT || g.parent[b] in r.on
    decreases g.rank[b]
  {
    if b == ROOT then c
    else
      var p := g.parent[b];
      ChildWithin(g, b, p);
      if p in c.on then
        if g.kind[p] == Cluster then Record(c, p, b) else c
      else
        var e := Mark(Route(g, c, p), p);
        RouteAbove(g, c, b, p);
        if g.kind[p] == Cluster then Record(e, p, b) else e
  }

  lemma RouteAbove(g: Tree, c: Config, b: nat, p: nat)
    requires Valid(g) && IsState(g, b) && b != ROOT && p == g.parent[b]
    ensures forall y: nat {:trigger Below(g, b, y)} :: IsState(g, y) && Within(g, p, y) ==> Below(g, b, y)
  {
    forall y: nat | IsState(g, y) && Within(g, p, y) ensures Below(g, b, y) {
      ChildWithin(g, b, p);
    }
  }

  /** The inactive proper ancestors of `b`. */
  ghost function PathSet(g: Tree, on: set<nat>, b: nat): set<nat>
    requires Valid(g) && IsState(g, b)
  {
    set y | 0 <= y < |g.kind| && y !in on && Below(g, b, y)
  }

  /** Is `p` a cluster that is told which child is being entered on the way to `b`? */
  ghost predicate OnRoute(g: Tree, on: set<nat>, b: nat, p: nat)
    requires Valid(g) && IsState(g, p) && IsState(g, b) && b !in on
  {
    Below(g, b, p) && g.kind[p] == Cluster && (p !in on || g.parent[Top(g, on, b)] == p)
  }

  /** Which child each cluster on the way is left pointing to. */
  ghost predicate Routed(g: Tree, c: Config, r: Config, b: nat)
    requires Valid(g) && Shaped(g, c) && IsState(g, b) && b !in c.on
  {
    && |r.child| == |r.last| == |g.kind|
    && forall p: nat {:trigger r.child[p]} {:trigger r.last[p]} :: p < |g.kind| ==>
         if OnRoute(g, c.on, b, p)
         then r.child[p] == r.last[p] == Some(Toward(g, b, p))
         else r.child[p] == c.child[p] && r.last[p] == c.last[p]
  }

  lemma {:induction false} RouteOn(g: Tree, c: Config, b: nat)
    requires Valid(g) && Typed(g, c) && UpClosed(g, c) && IsState(g, b) && b !in c.on
    ensures Route(g, c, b).on == c.on + PathSet(g, c.on, b)
    ensures EnterRun(g, c, Route(g, c, b))
    decreases g.rank[b]
  {
    assert EnterRun(g, c, c);
    if b == ROOT {
      assert PathSet(g, c.on, b) == {};
    } else {
      var p := g.parent[b];
      PathStep(g, c, b);
      if p !in c.on {
        var d := Route(g, c, p);
        RouteOn(g, c, p);
        MarkRun(g, d, p);
        EnterRunTrans(g, c, d, Mark(d, p));
      }
    }
  }

  lemma {:induction false} RouteMemory(g: Tree, c: Config, b: nat)
    requires Valid(g) && Typed(g, c) && UpClosed(g, c) && IsState(g, b) && b !in c.on
    ensures Routed(g, c, Route(g, c, b), b)
    decreases g.rank[b]
  {
    if b != ROOT {
      var p := g.parent[b];
      forall q: nat | IsState(g, q)
        ensures if q == p then OnRoute(g, c.on, b, q) == (g.kind[p] == Cluster) && Toward(g, b, q) == b
                else if p in c.on then !OnRoute(g, c.on, b, q)
                else OnRoute(g, c.on, b, q) == OnRoute(g, c.on, p, q) &&
                     (OnRoute(g, c.on, b, q) ==> Toward(g, b, q) == Toward(g, p, q))
      {
        OnRouteStep(g, c, b, q);
      }
      if p !in c.on {
        RouteMemory(g, c, p);
        ChildWithin(g, b, p);
        assert !OnRoute(g, c.on, p, p);
      }
    }
  }

  lemma OnRouteStep(g: Tree, c: Config, b: nat, q: nat)
    requires Valid(g) && Typed(g, c) && UpClosed(g, c) && IsState(g, b) && b !in c.on && b != ROOT && IsState(g, q)
    ensures var p := g.parent[b];
            if q == p then OnRoute(g, c.on, b, q) == (g.kind[p] == Cluster) && Below(g, b, q) && Toward(g, b, q) == b
            else if p in c.on then !OnRoute(g, c.on, b, q)
            else OnRoute(g, c.on, b, q) == OnRoute(g, c.on, p, q) &&
                 (OnRoute(g, c.on, b, q) ==> Toward(g, b, q) == Toward(g, p, q))
  {
    var p := g.parent[b];
    ChildWithin(g, b, p);
    if q != p && p in c.on {
      if Below(g, b, q) {
        OnUpward(g, c, p, q);
      }
    } else if q == b {
      assert !Below(g, b, q) && !Below(g, p, q);
    }
  }

  lemma RouteExact(g: Tree, c: Config, b: nat)
    requires Valid(g) && Typed(g, c) && UpClosed(g, c) && IsState(g, b) && b !in c.on
    ensures Route(g, c, b).on == c.on + PathSet(g, c.on, b)
    ensures Routed(g, c, Route(g, c, b), b)
    ensures EnterRun(g, c, Route(g, c, b))
  {
    RouteOn(g, c, b);
    RouteMemory(g, c, b);
  }

  lemma PathStep(g: Tree, c: Config, b: nat)
    requires Valid(g) && Shaped(g, c) && UpClosed(g, c) && IsState(g, b) && b != ROOT
    ensures PathSet(g, c.on, b) ==
            if g.parent[b] in c.on then {} else PathSet(g, c.on, g.parent[b]) + {g.parent[b]}
  {
    var p := g.parent[b];
    ChildWithin(g, b, p);
    forall y: nat | IsState(g, y)
      ensures y in PathSet(g, c.on, b) <==> p !in c.on && (y in PathSet(g, c.on, p) || y == p)
    {
      if Below(g, b, y) && p in c.on {
        OnUpward(g, c, p, y);
      }
    }
  }

  lemma {:induction false} OnUpward(g: Tree, c: Config, x: nat, y: nat)
    requires Valid(g) && Shaped(g, c) && UpClosed(g, c) && x in c.on && Within(g, x, y)
    ensures y in c.on
    decreases g.rank[x]
  {
    if x != y {
      OnUpward(g, c, g.parent[x], y);
    }
  }

  // ---------------------------------------------------------------- Open follows the route

  /** With no set on the way, the state is let in after its ancestors. */
  lemma {:induction false} AdmitRoute(g: Tree, c: Config, b: nat)
    requires Valid(g) && Typed(g, c) && IsState(g, b) && b !in c.on
    requires Base(g, c.on, b) == b && Accepts(g, c, Top(g, c.on, b))
    ensures Admit(g, c, b) == (Mark(Route(g, c, b), b), true)
    decreases g.rank[b]
  {
    if b != ROOT && g.parent[b] !in c.on {
      var p := g.parent[b];
      ChildWithin(g, b, p);
      NoSetAbove(g, c, b);
      AdmitRoute(g, c, p);
      var e := Mark(Route(g, c, p), p);
      assert Open(g, c, p, Some(b)).0 == Record(e, p, b);
      assert b !in Route(g, c, p).on;
    }
  }

  lemma NoSetAbove(g: Tree, c: Config, b: nat)
    requires Valid(g) && Typed(g, c) && IsState(g, b) && b !in c.on && b != ROOT && g.parent[b] !in c.on
    requires Base(g, c.on, b) == b
    ensures Base(g, c.on, g.parent[b]) == g.parent[b] && g.kind[g.parent[b]] == Cluster
  {
    var p := g.parent[b];
    var d := Base(g, c.on, p);
    if g.kind[d] == Set {
      WithinRank(g, p, d);
    }
  }

  /** The good entry: walk in to the base, then enter it by default. */
  ghost function Arrive(g: Tree, c: Config, t: nat): Config
    requires Valid(g) && Typed(g, c) && IsState(g, t) && t !in c.on
  {
    Descend(g, Route(g, c, Base(g, c.on, t)), Base(g, c.on, t))
  }

  lemma RouteKeepsClosure(g: Tree, c: Config, b: nat)
    requires Valid(g) && Typed(g, c) && UpClosed(g, c) && IsState(g, b) && b !in c.on
    ensures Fresh(g, Route(g, c, b), b)
    ensures forall x: nat :: IsState(g, x) ==> (Default(g, Route(g, c, b).last, x, b) <==> Default(g, c.last, x, b))
    ensures forall p: nat :: IsState(g, p) && Within(g, p, b) ==> Route(g, c, b).last[p] == c.last[p]
  {
    var r := Route(g, c, b);
    RouteExact(g, c, b);
    forall y | y in r.on ensures !Within(g, y, b) {
      if y in c.on {
        InactiveSubtree(g, c, b, y);
      } else {
        NotBothWays(g, y, b);
      }
    }
    forall p: nat | IsState(g, p) && Within(g, p, b) ensures r.last[p] == c.last[p] {
      NotBothWays(g, p, b);
    }
    forall x: nat | IsState(g, x) ensures Default(g, r.last, x, b) <==> Default(g, c.last, x, b) {
      DefaultFrame(g, r.last, c.last, x, b);
    }
  }

  lemma NotBothWays(g: Tree, y: nat, b: nat)
    requires Valid(g) && IsState(g, y) && IsState(g, b)
    ensures !(Below(g, b, y) && Within(g, y, b))
  {
    if Below(g, b, y) && Within(g, y, b) {
      WithinRank(g, b, y);
      WithinRank(g, y, b);
    }
  }

  lemma {:induction false} OpenGood(g: Tree, c: Config, t: nat, from: Option<nat>)
    requires Valid(g) && Typed(g, c) && UpClosed(g, c) && IsState(g, t) && t !in c.on
    requires from.Some? ==> from.value in g.children[t]
    requires Accepts(g, c, Top(g, c.on, t)) && Default(g, c.last, t, Base(g, c.on, t))
    ensures Base(g, c.on, t) != t || g.kind[t] == Set || from.None? ==> Open(g, c, t, from).0 == Arrive(g, c, t)
    decreases g.rank[t]
  {
    var b := Base(g, c.on, t);
    if b == t {
      AdmitRoute(g, c, t);
      RouteKeepsClosure(g, c, t);
    } else {
      var p := g.parent[t];
      DefaultWithin(g, c.last, t, b);
      assert p !in c.on && Base(g, c.on, p) == b;
      OpenGood(g, c, p, Some(t));
      var route := Route(g, c, b);
      RouteKeepsClosure(g, c, b);
      DescendExact(g, route, b);
      assert t in DefaultSet(g, route.last, b);
    }
  }

  // ---------------------------------------------------------------- a good entry is exact

  ghost function EntrySet(g: Tree, c: Config, t: nat): set<nat>
    requires Valid(g) && Typed(g, c) && IsState(g, t) && t !in c.on
  {
    PathSet(g, c.on, Base(g, c.on, t)) + DefaultSet(g, c.last, Base(g, c.on, t))
  }

  /** Entry is exact: the inactive ancestors of the base, and the base's closure, become active, each
      once and after its parent; entered clusters point to the child entered with them, and so does the
      active parent of the topmost entered state; no other cluster's memory moves. */
  lemma EntryExact(g: Tree, c: Config, t: nat)
    requires Valid(g) && Sound(g, c) && IsState(g, t) && t !in c.on
    requires Accepts(g, c, Top(g, c.on, t)) && Default(g, c.last, t, Base(g, c.on, t))
    ensures Open(g, c, t, None).0.on == c.on + EntrySet(g, c, t)
    ensures t in EntrySet(g, c, t)
    ensures EntryMemory(g, c, Open(g, c, t, None).0, Base(g, c.on, t))
    ensures EnterRun(g, c, Open(g, c, t, None).0)
  {
    hide RootFirst;
    var b := Base(g, c.on, t);
    var route := Route(g, c, b);
    OpenGood(g, c, t, None);
    RouteExact(g, c, b);
    RouteKeepsClosure(g, c, b);
    DescendExact(g, route, b);
    EnterRunTrans(g, c, route, Arrive(g, c, t));
    assert DefaultSet(g, route.last, b) == DefaultSet(g, c.last, b);
    ArriveMemory(g, c, route, Arrive(g, c, t), b);
  }

  lemma ArriveMemory(g: Tree, c: Config, route: Config, r: Config, b: nat)
    requires Valid(g) && Typed(g, c) && Typed(g, route) && IsState(g, b) && b !in c.on && Routed(g, c, route, b)
    requires Grew(g, route, r, DefaultSet(g, c.last, b))
    ensures EntryMemory(g, c, r, b)
  {
    forall p: nat | IsState(g, p) && p in DefaultSet(g, c.last, b)
      ensures !OnRoute(g, c.on, b, p) && route.last[p] == c.last[p]
    {
      DefaultWithin(g, c.last, p, b);
      NotBothWays(g, p, b);
    }
  }

  ghost predicate EntryMemory(g: Tree, c: Config, r: Config, b: nat)
    requires Valid(g) && Shaped(g, c) && IsState(g, b) && b !in c.on
  {
    && |r.child| == |r.last| == |g.kind|
    && forall p: nat {:trigger r.child[p]} {:trigger r.last[p]} :: p < |g.kind| ==>
         if p in DefaultSet(g, c.last, b) && g.kind[p] == Cluster && g.children[p] != []
         then r.child[p] == r.last[p] == Some(Pick(g, c.last, p))
         else if OnRoute(g, c.on, b, p) then r.child[p] == r.last[p] == Some(Toward(g, b, p))
         else r.child[p] == c.child[p] && r.last[p] == c.last[p]
  }

  // ---------------------------------------------------------------- a refused entry

  lemma OpenRefused(g: Tree, c: Config, t: nat, from: Option<nat>)
    requires Valid(g) && Typed(g, c) && IsState(g, t)
    requires from.Some? ==> from.value in g.children[t]
    requires t in c.on || (t != ROOT && g.parent[t] in c.on && !Accepts(g, c, t))
    ensures Open(g, c, t, from) == (c, false)
  {
  }
}
