/**
  The boundary of nested entry: `EntryOk`, evaluated before the call, holds exactly when the call keeps a
  sound configuration sound.
 */
module EntrySoundness {
  import opened Wrappers
  import opened StateTree
  import opened Configuration
  import opened Entering
  import opened Leaving
  import opened NestedEntry

  // ---------------------------------------------------------------- a good entry keeps soundness

  lemma {:induction false} BaseClear(g: Tree, c: Config, b: nat, p: nat)
    requires Valid(g) && Typed(g, c) && UpClosed(g, c) && IsState(g, b) && b !in c.on && Base(g, c.on, b) == b
    requires p in PathSet(g, c.on, b)
    ensures g.kind[p] == Cluster
    decreases g.rank[b]
  {
    PathStep(g, c, b);
    NoSetAbove(g, c, b);
    if p != g.parent[b] {
      BaseClear(g, c, g.parent[b], p);
    }
  }

  lemma {:induction false} BaseIsBase(g: Tree, on: set<nat>, t: nat)
    requires Valid(g) && IsState(g, t) && t !in on
    ensures Base(g, on, Base(g, on, t)) == Base(g, on, t)
    ensures Top(g, on, Base(g, on, t)) == Top(g, on, t)
    decreases g.rank[t]
  {
    if t != ROOT && g.parent[t] !in on {
      BaseIsBase(g, on, g.parent[t]);
    }
  }

  /** Where a newly entered state sits: its parent is active or newly entered too. */
  lemma NewParent(g: Tree, c: Config, b: nat, x: nat)
    requires Valid(g) && Sound(g, c) && IsState(g, b) && b !in c.on && IsState(g, x) && x != ROOT
    requires x in PathSet(g, c.on, b) + DefaultSet(g, c.last, b)
    ensures if g.parent[x] in c.on then x == Top(g, c.on, b)
            else g.parent[x] in PathSet(g, c.on, b) + DefaultSet(g, c.last, b)
  {
    var p := g.parent[x];
    if x in DefaultSet(g, c.last, b) {
      DefaultWithin(g, c.last, x, b);
      if x != b {
        DefaultWithin(g, c.last, p, b);
        if p in c.on { InactiveSubtree(g, c, b, p); }
      } else {
        PathStep(g, c, b);
        if p in c.on { assert Top(g, c.on, b) == b; }
      }
    } else {
      ChildWithin(g, x, p);
      WithinTrans(g, b, x, p);
      NotBothWays(g, x, b);
      if p in c.on {
        TopIs(g, c, b, x);
      }
    }
  }

  lemma {:induction false} TopIs(g: Tree, c: Config, b: nat, x: nat)
    requires Valid(g) && Sound(g, c) && IsState(g, b) && b !in c.on && IsState(g, x) && x != ROOT
    requires Within(g, b, x) && x !in c.on && g.parent[x] in c.on
    ensures Top(g, c.on, b) == x
    decreases g.rank[b]
  {
    if b != x {
      if g.parent[b] in c.on {
        OnUpward(g, c, g.parent[b], x);
      } else {
        TopIs(g, c, g.parent[b], x);
      }
    }
  }

  /** Below a routed cluster only the way to the base is entered. */
  lemma NewChild(g: Tree, c: Config, b: nat, p: nat, x: nat)
    requires Valid(g) && Sound(g, c) && IsState(g, b) && b !in c.on && IsState(g, x) && x != ROOT && g.parent[x] == p
    requires x in PathSet(g, c.on, b) + DefaultSet(g, c.last, b) && p !in DefaultSet(g, c.last, b)
    ensures Below(g, b, p) && Toward(g, b, p) == x
  {
    if x in DefaultSet(g, c.last, b) {
      assert x == b;
    }
    ToChild(g, b, p, x);
  }

  lemma EntryAtMostOne(g: Tree, c: Config, r: Config, b: nat, p: nat)
    requires Valid(g) && Sound(g, c) && Typed(g, r) && IsState(g, b) && b !in c.on
    requires Accepts(g, c, Top(g, c.on, b))
    requires r.on == c.on + (PathSet(g, c.on, b) + DefaultSet(g, c.last, b)) && EntryMemory(g, c, r, b)
    requires p in r.on
    ensures AtMostOne(g, r, p)
  {
    if g.kind[p] == Cluster {
      forall x | x in g.children[p] && x in r.on ensures r.child[p] == Some(x) {
        if p in DefaultSet(g, c.last, b) {
          ClusterTakesOne(g, c, b, p, x);
        } else if x in c.on {
          OldChildStays(g, c, b, p, x);
        } else {
          NewChild(g, c, b, p, x);
          NewParent(g, c, b, x);
        }
      }
    }
  }

  lemma OldChildStays(g: Tree, c: Config, b: nat, p: nat, x: nat)
    requires Valid(g) && Sound(g, c) && IsState(g, b) && b !in c.on && IsState(g, p)
    requires Accepts(g, c, Top(g, c.on, b))
    requires g.kind[p] == Cluster && x in g.children[p] && x in c.on
    ensures !OnRoute(g, c.on, b, p) && c.child[p] == Some(x)
  {
    assert g.parent[x] == p && p in c.on;
    assert AtMostOne(g, c, p);
    RootHoldsAll(g, p);
    OnUpward(g, c, p, ROOT);
  }

  lemma ClusterTakesOne(g: Tree, c: Config, b: nat, p: nat, x: nat)
    requires Valid(g) && Sound(g, c) && IsState(g, b) && b !in c.on && p in DefaultSet(g, c.last, b)
    requires g.kind[p] == Cluster && x in g.children[p]
    requires x in c.on + (PathSet(g, c.on, b) + DefaultSet(g, c.last, b))
    ensures g.children[p] != [] && Pick(g, c.last, p) == x
  {
    DefaultWithin(g, c.last, p, b);
    assert Within(g, x, b);
    NotBothWays(g, x, b);
    if x in c.on { InactiveSubtree(g, c, b, x); }
    if x == b {
      WithinRank(g, p, b);
    }
  }

  lemma EntryFull(g: Tree, c: Config, r: Config, b: nat, p: nat)
    requires Valid(g) && Sound(g, c) && Typed(g, r) && IsState(g, b) && b !in c.on && Base(g, c.on, b) == b
    requires r.on == c.on + (PathSet(g, c.on, b) + DefaultSet(g, c.last, b)) && EntryMemory(g, c, r, b)
    requires p in PathSet(g, c.on, b) + DefaultSet(g, c.last, b) || (p in c.on && OnRoute(g, c.on, b, p))
    ensures Full(g, r, p)
  {
    if p in DefaultSet(g, c.last, b) {
      forall x | x in g.children[p] && (g.kind[p] == Set || Pick(g, c.last, p) == x)
        ensures x in DefaultSet(g, c.last, b)
      {
        assert g.parent[x] == p;
      }
    } else {
      RoutedChildOn(g, c, b, p);
    }
  }

  lemma RoutedChildOn(g: Tree, c: Config, b: nat, p: nat)
    requires Valid(g) && Sound(g, c) && IsState(g, b) && b !in c.on && Base(g, c.on, b) == b
    requires p in PathSet(g, c.on, b) || (p in c.on && OnRoute(g, c.on, b, p))
    ensures OnRoute(g, c.on, b, p)
    ensures Toward(g, b, p) in PathSet(g, c.on, b) + DefaultSet(g, c.last, b)
  {
    var x := Toward(g, b, p);
    if p in c.on {
      TowardTop(g, c, b, p);
    } else {
      BaseClear(g, c, b, p);
      assert g.parent[x] == p;
    }
    assert x == b || x in PathSet(g, c.on, b);
  }

  lemma TowardTop(g: Tree, c: Config, b: nat, p: nat)
    requires Valid(g) && Sound(g, c) && IsState(g, b) && b !in c.on && p in c.on && OnRoute(g, c.on, b, p)
    ensures Toward(g, b, p) == Top(g, c.on, b)
  {
    var v := Top(g, c.on, b);
    if v == ROOT {
      RootHoldsAll(g, p);
      OnUpward(g, c, p, ROOT);
    } else {
      ToChild(g, b, p, v);
    }
  }

  /** Everything that is full stays full. */
  lemma FullStays(g: Tree, c: Config, r: Config, b: nat, p: nat)
    requires Valid(g) && Sound(g, c) && Typed(g, r) && IsState(g, b) && b !in c.on && Base(g, c.on, b) == b
    requires r.on == c.on + (PathSet(g, c.on, b) + DefaultSet(g, c.last, b)) && EntryMemory(g, c, r, b)
    requires p in c.on && Full(g, c, p)
    ensures Full(g, r, p)
  {
    if OnRoute(g, c.on, b, p) {
      EntryFull(g, c, r, b, p);
    } else if p in DefaultSet(g, c.last, b) {
      DefaultWithin(g, c.last, p, b);
      InactiveSubtree(g, c, b, p);
    }
  }

  lemma EntryKeepsSound(g: Tree, c: Config, t: nat)
    requires Valid(g) && Sound(g, c) && IsState(g, t) && t !in c.on
    requires Accepts(g, c, Top(g, c.on, t)) && Default(g, c.last, t, Base(g, c.on, t))
    ensures Sound(g, Open(g, c, t, None).0)
    ensures forall p :: p in EntrySet(g, c, t) ==> Full(g, Open(g, c, t, None).0, p)
    ensures forall p :: p in c.on && (Full(g, c, p) || OnRoute(g, c.on, Base(g, c.on, t), p)) ==>
              Full(g, Open(g, c, t, None).0, p)
  {
    var b := Base(g, c.on, t);
    var r := Open(g, c, t, None).0;
    EntryExact(g, c, t);
    BaseIsBase(g, c.on, t);
    forall x | x in r.on && x != ROOT ensures g.parent[x] in r.on {
      if x !in c.on { NewParent(g, c, b, x); }
    }
    forall p | p in r.on ensures AtMostOne(g, r, p) {
      EntryAtMostOne(g, c, r, b, p);
    }
    forall p | p in EntrySet(g, c, t) ensures Full(g, r, p) {
      EntryFull(g, c, r, b, p);
    }
    forall p | p in c.on && (Full(g, c, p) || OnRoute(g, c.on, b, p)) ensures Full(g, r, p) {
      if Full(g, c, p) { FullStays(g, c, r, b, p); } else { EntryFull(g, c, r, b, p); }
    }
  }

  // ---------------------------------------------------------------- a bad entry breaks soundness

  /** Damage that no later entry repairs: a cluster with two active children, or an active state whose
      parent is inactive and shut out by an active sibling. */
  ghost predicate Broken(g: Tree, c: Config)
    requires Valid(g) && Shaped(g, c)
  {
    || (exists x: nat, y: nat :: TwoActive(g, c, x, y))
    || (exists w: nat :: Orphan(g, c, w))
  }

  ghost predicate TwoActive(g: Tree, c: Config, x: nat, y: nat)
    requires Valid(g) && Shaped(g, c)
  {
    && x in c.on && y in c.on && x != y && x != ROOT && y != ROOT
    && g.parent[x] == g.parent[y] && g.kind[g.parent[x]] == Cluster
  }

  ghost predicate Orphan(g: Tree, c: Config, w: nat)
    requires Valid(g) && Shaped(g, c)
  {
    && w in c.on && w != ROOT && g.parent[w] !in c.on
    && g.parent[w] != ROOT && Shuts(g, c, g.parent[w])
  }

  /** The parent of `v` is an active cluster with an active child. */
  ghost predicate Shuts(g: Tree, c: Config, v: nat)
    requires Valid(g) && Shaped(g, c) && IsState(g, v) && v != ROOT
  {
    var p := g.parent[v];
    p in c.on && g.kind[p] == Cluster && c.child[p].Some? && c.child[p].value in c.on
  }

  lemma BrokenIsUnsound(g: Tree, c: Config)
    requires Valid(g) && Shaped(g, c) && Broken(g, c)
    ensures !Sound(g, c)
  {
    if exists x: nat, y: nat :: TwoActive(g, c, x, y) {
      var x: nat, y: nat :| TwoActive(g, c, x, y);
      assert x in g.children[g.parent[x]] && y in g.children[g.parent[y]];
      assert !AtMostOne(g, c, g.parent[x]);
    }
  }

  /** While a cluster has an active child, entering elsewhere neither moves its pointer nor enters any of
      its children. */
  ghost predicate Holds(g: Tree, c: Config, r: Config, p: nat)
    requires Valid(g) && Shaped(g, c) && Shaped(g, r) && IsState(g, p)
  {
    && r.child[p] == c.child[p]
    && forall x :: x in g.children[p] && x in r.on ==> x in c.on
  }

  lemma {:induction false} DescendHolds(g: Tree, c: Config, s: nat, p: nat)
    requires Valid(g) && Typed(g, c) && IsState(g, s) && p in c.on && (s == ROOT || g.parent[s] != p)
    ensures Holds(g, c, Descend(g, c, s), p)
    decreases Height(g, s), 3, 0
  {
    if s !in c.on {
      var m := Mark(c, s);
      assert s !in g.children[p];
      match g.kind[s] {
        case Plain =>
        case Cluster =>
          if g.children[s] != [] {
            var d := Pick(g, m.last, s);
            DescendHolds(g, Record(m, s, d), d, p);
          }
        case Set => FillAllHolds(g, m, s, 0, p);
      }
    }
  }

  lemma {:induction false} FillAllHolds(g: Tree, c: Config, s: nat, i: nat, p: nat)
    requires Valid(g) && Typed(g, c) && IsState(g, s) && i <= |g.children[s]| && p in c.on && s != p
    ensures Holds(g, c, FillAll(g, c, s, i), p)
    decreases Height(g, s), 1, |g.children[s]| - i
  {
    if i < |g.children[s]| {
      var d := g.children[s][i];
      assert d in g.children[s];
      DescendHolds(g, c, d, p);
      FillAllHolds(g, Descend(g, c, d), s, i + 1, p);
    }
  }

  lemma FillHolds(g: Tree, c: Config, s: nat, p: nat)
    requires Valid(g) && TypedBut(g, c, s) && s in c.on && p in c.on && s != p
    ensures Holds(g, c, Fill(g, c, s), p)
  {
    match g.kind[s] {
      case Plain =>
      case Cluster =>
        if g.children[s] != [] {
          var d := Pick(g, c.last, s);
          DescendHolds(g, Record(c, s, d), d, p);
        }
      case Set => FillAllHolds(g, c, s, 0, p);
    }
  }

  lemma {:induction false} OpenHolds(g: Tree, c: Config, s: nat, from: Option<nat>, p: nat)
    requires Valid(g) && Typed(g, c) && IsState(g, s) && (from.Some? ==> from.value in g.children[s])
    requires p in c.on && g.kind[p] == Cluster && c.child[p].Some? && c.child[p].value in c.on
    ensures Holds(g, c, Open(g, c, s, from).0, p)
    decreases g.rank[s]
  {
    if s !in c.on {
      if s != ROOT && g.parent[s] !in c.on {
        OpenHolds(g, c, g.parent[s], Some(s), p);
      }
      var (m, ok) := Admit(g, c, s);
      if ok {
        assert s !in g.children[p];
        assert Holds(g, c, m, p);
        if !(g.kind[s] == Cluster && from.Some?) {
          FillHolds(g, m, s, p);
        }
      }
    }
  }

  lemma BrokenStays(g: Tree, c: Config, t: nat)
    requires Valid(g) && Typed(g, c) && IsState(g, t) && Broken(g, c)
    ensures Broken(g, Open(g, c, t, None).0)
  {
    var r := Open(g, c, t, None).0;
    if exists x: nat, y: nat :: TwoActive(g, c, x, y) {
      var x: nat, y: nat :| TwoActive(g, c, x, y);
      TwoActiveStays(g, c, r, x, y);
    } else {
      var w: nat :| Orphan(g, c, w);
      OrphanStays(g, c, t, None, w);
    }
  }

  lemma TwoActiveStays(g: Tree, c: Config, r: Config, x: nat, y: nat)
    requires Valid(g) && Shaped(g, c) && Shaped(g, r) && c.on <= r.on && TwoActive(g, c, x, y)
    ensures TwoActive(g, r, x, y)
  {
  }

  lemma OrphanStays(g: Tree, c: Config, t: nat, from: Option<nat>, w: nat)
    requires Valid(g) && Typed(g, c) && IsState(g, t) && (from.Some? ==> from.value in g.children[t])
    requires Orphan(g, c, w)
    ensures Orphan(g, Open(g, c, t, from).0, w)
  {
    var v := g.parent[w];
    OpenHolds(g, c, t, from, g.parent[v]);
    assert v in g.children[g.parent[v]];
  }

  /** A state under an inactive parent goes active whatever became of the parent. */
  lemma EntersAnyway(g: Tree, c: Config, t: nat, from: Option<nat>)
    requires Valid(g) && Typed(g, c) && IsState(g, t) && (from.Some? ==> from.value in g.children[t])
    requires t != ROOT && t !in c.on && g.parent[t] !in c.on
    ensures Open(g, c, g.parent[t], Some(t)).0.on + {t} <= Open(g, c, t, from).0.on
  {
  }

  /** An ancestor was shut out, yet the states below it go active one by one. */
  lemma {:induction false} ShutOut(g: Tree, c: Config, t: nat, from: Option<nat>)
    requires Valid(g) && Sound(g, c) && IsState(g, t) && t !in c.on && (from.Some? ==> from.value in g.children[t])
    requires Top(g, c.on, t) != t && !Accepts(g, c, Top(g, c.on, t))
    ensures Orphan(g, Open(g, c, t, from).0, Toward(g, t, Top(g, c.on, t)))
    decreases g.rank[t]
  {
    var v := Top(g, c.on, t);
    var p := g.parent[t];
    var r := Open(g, c, t, from).0;
    EntersAnyway(g, c, t, from);
    OpenHolds(g, c, t, from, g.parent[v]);
    assert v in g.children[g.parent[v]] && v !in r.on;
    if p == v {
      OpenRefused(g, c, v, Some(t));
      assert Toward(g, t, v) == t;
    } else {
      ShutOut(g, c, p, Some(t));
      assert Toward(g, p, v) == Toward(g, t, v);
    }
  }

  /** A set's default choice went elsewhere: the target becomes a second active child of a cluster. */
  lemma {:induction false} OffDefault(g: Tree, c: Config, t: nat, from: Option<nat>)
    requires Valid(g) && Sound(g, c) && IsState(g, t) && t !in c.on && (from.Some? ==> from.value in g.children[t])
    requires Accepts(g, c, Top(g, c.on, t)) && !Default(g, c.last, t, Base(g, c.on, t))
    ensures exists x: nat, y: nat :: TwoActive(g, Open(g, c, t, from).0, x, y)
    decreases g.rank[t]
  {
    var p := g.parent[t];
    var b := Base(g, c.on, t);
    assert t != b && p !in c.on && Base(g, c.on, p) == b && Top(g, c.on, p) == Top(g, c.on, t);
    var e := Open(g, c, p, Some(t)).0;
    var r := Open(g, c, t, from).0;
    EntersAnyway(g, c, t, from);
    if Default(g, c.last, p, b) {
      OtherChildOn(g, c, t);
      TwoActiveStays(g, Mark(e, t), r, Pick(g, c.last, p), t);
    } else {
      OffDefault(g, c, p, Some(t));
      var x: nat, y: nat :| TwoActive(g, e, x, y);
      TwoActiveStays(g, e, r, x, y);
    }
  }

  lemma OtherChildOn(g: Tree, c: Config, t: nat)
    requires Valid(g) && Sound(g, c) && IsState(g, t) && t != ROOT && t !in c.on && g.parent[t] !in c.on
    requires var p := g.parent[t]; var b := Base(g, c.on, t);
             && Base(g, c.on, p) == b && Default(g, c.last, p, b) && !Default(g, c.last, t, b)
             && b != t && Accepts(g, c, Top(g, c.on, p))
    ensures var p := g.parent[t];
            g.kind[p] == Cluster && TwoActive(g, Mark(Open(g, c, p, Some(t)).0, t), Pick(g, c.last, p), t)
  {
    hide EnterRun, Fresh, UpClosed;
    var p := g.parent[t];
    var b := Base(g, c.on, t);
    var d := Pick(g, c.last, p);
    assert t in g.children[p];
    OpenGood(g, c, p, Some(t));
    var route := Route(g, c, b);
    RouteKeepsClosure(g, c, b);
    DescendExact(g, route, b);
    assert Default(g, c.last, d, b);
    assert d in DefaultSet(g, route.last, b);
  }

  /** Main result: entering `t` keeps a sound configuration sound exactly when `EntryOk` held before;
      otherwise it does damage that no later entry undoes. */
  lemma EntryBoundary(g: Tree, c: Config, t: nat)
    requires Valid(g) && Sound(g, c) && IsState(g, t)
    ensures Sound(g, Open(g, c, t, None).0) <==> EntryOk(g, c, t)
    ensures !EntryOk(g, c, t) ==> Broken(g, Open(g, c, t, None).0)
  {
    if t in c.on || (t != ROOT && g.parent[t] in c.on && !Accepts(g, c, t)) {
      OpenRefused(g, c, t, None);
    } else if Accepts(g, c, Top(g, c.on, t)) && Default(g, c.last, t, Base(g, c.on, t)) {
      EntryKeepsSound(g, c, t);
    } else {
      if Accepts(g, c, Top(g, c.on, t)) {
        OffDefault(g, c, t, None);
      } else {
        ShutOut(g, c, t, None);
      }
      BrokenIsUnsound(g, Open(g, c, t, None).0);
    }
  }

  /** Starting the machine: entering the root of an inactive machine gives a legal configuration. */
  lemma StartIsComplete(g: Tree, c: Config)
    requires Valid(g) && Sound(g, c) && ROOT !in c.on
    ensures Complete(g, Open(g, c, ROOT, None).0)
  {
    forall x | x in c.on ensures false {
      RootHoldsAll(g, x);
      OnUpward(g, c, x, ROOT);
    }
    EntryExact(g, c, ROOT);
    EntryKeepsSound(g, c, ROOT);
  }
}
