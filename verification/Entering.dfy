/**
  What entering does: the default closure of a state, entry of a nested target through its inactive
  ancestors, and exactly when that entry keeps a configuration sound.
 */
module Entering {
  import opened Wrappers
  import opened StateTree
  import opened Configuration

  ghost predicate LastOk(g: Tree, last: seq<Option<nat>>)
    requires Valid(g)
  {
    && |last| == |g.kind|
    && forall p {:trigger last[p]} :: 0 <= p < |g.kind| && last[p].Some? ==> last[p].value in g.children[p]
  }

  /** `x` is entered when `s` is entered by default: every set on the way takes all its children and
      every cluster the child it picks. */
  predicate Default(g: Tree, last: seq<Option<nat>>, x: nat, s: nat)
    requires Valid(g) && LastOk(g, last) && IsState(g, x)
    decreases g.rank[x]
  {
    || x == s
    || (&& x != ROOT
        && Default(g, last, g.parent[x], s)
        && (g.kind[g.parent[x]] == Set || Pick(g, last, g.parent[x]) == x))
  }

  /** The default (or history) closure of `s`. */
  ghost function DefaultSet(g: Tree, last: seq<Option<nat>>, s: nat): set<nat>
    requires Valid(g) && LastOk(g, last)
  {
    set x | 0 <= x < |g.kind| && Default(g, last, x, s)
  }

  lemma {:induction false} DefaultWithin(g: Tree, last: seq<Option<nat>>, x: nat, s: nat)
    requires Valid(g) && LastOk(g, last) && IsState(g, x) && Default(g, last, x, s)
    ensures Within(g, x, s)
    decreases g.rank[x]
  {
    if x != s {
      DefaultWithin(g, last, g.parent[x], s);
    }
  }

  /** The closure only looks at memories of states inside the subtree. */
  lemma {:induction false} DefaultFrame(g: Tree, a: seq<Option<nat>>, b: seq<Option<nat>>, x: nat, s: nat)
    requires Valid(g) && LastOk(g, a) && LastOk(g, b) && IsState(g, x) && IsState(g, s)
    requires forall p: nat :: IsState(g, p) && Within(g, p, s) ==> a[p] == b[p]
    ensures Default(g, a, x, s) <==> Default(g, b, x, s)
    decreases g.rank[x]
  {
    if x != s && x != ROOT {
      DefaultFrame(g, a, b, g.parent[x], s);
      if Default(g, a, g.parent[x], s) {
        DefaultWithin(g, a, g.parent[x], s);
      }
    }
  }

  /** The closure of a state, one level down. */
  lemma {:induction false} DefaultStep(g: Tree, last: seq<Option<nat>>, x: nat, s: nat)
    requires Valid(g) && LastOk(g, last) && IsState(g, x) && Below(g, x, s)
    ensures Default(g, last, x, s) <==>
              && Default(g, last, x, Toward(g, x, s))
              && (g.kind[s] == Set || Pick(g, last, s) == Toward(g, x, s))
    decreases g.rank[x]
  {
    var d := Toward(g, x, s);
    if g.parent[x] == s {
      ChildWithin(g, x, s);
      if Default(g, last, s, d) {
        DefaultWithin(g, last, s, d);
      }
    } else {
      DefaultStep(g, last, g.parent[x], s);
      ChildWithin(g, d, s);
    }
  }

  // ---------------------------------------------------------------- entry runs

  /** `steps` enters inactive states one at a time, each after its parent. */
  ghost predicate RootFirst(g: Tree, on0: set<nat>, steps: seq<Step>, on1: set<nat>)
    requires Valid(g)
    decreases |steps|
  {
    if steps == [] then on0 == on1
    else
      && steps[0].Entered?
      && IsState(g, steps[0].s)
      && steps[0].s !in on0
      && (steps[0].s == ROOT || g.parent[steps[0].s] in on0)
      && RootFirst(g, on0 + {steps[0].s}, steps[1..], on1)
  }

  ghost predicate EnterRun(g: Tree, c: Config, r: Config)
    requires Valid(g)
  {
    c.log <= r.log && RootFirst(g, c.on, r.log[|c.log|..], r.on)
  }

  lemma {:induction false} RootFirstAppend(g: Tree, a: set<nat>, xs: seq<Step>, b: set<nat>, ys: seq<Step>, d: set<nat>)
    requires Valid(g) && RootFirst(g, a, xs, b) && RootFirst(g, b, ys, d)
    ensures RootFirst(g, a, xs + ys, d)
    decreases |xs|
  {
    if xs == [] {
      assert xs + ys == ys;
    } else {
      RootFirstAppend(g, a + {xs[0].s}, xs[1..], b, ys, d);
      assert (xs + ys)[1..] == xs[1..] + ys;
    }
  }

  lemma EnterRunTrans(g: Tree, c: Config, d: Config, r: Config)
    requires Valid(g) && EnterRun(g, c, d) && EnterRun(g, d, r)
    ensures EnterRun(g, c, r)
  {
    RootFirstAppend(g, c.on, d.log[|c.log|..], d.on, r.log[|d.log|..], r.on);
    assert r.log[|c.log|..] == d.log[|c.log|..] + r.log[|d.log|..];
  }

  lemma MarkRun(g: Tree, c: Config, s: nat)
    requires Valid(g) && IsState(g, s) && s !in c.on && (s == ROOT || g.parent[s] in c.on)
    ensures EnterRun(g, c, Mark(c, s))
  {
    var steps := Mark(c, s).log[|c.log|..];
    assert steps == [Entered(s)] && steps[1..] == [];
    assert RootFirst(g, c.on + {s}, steps[1..], Mark(c, s).on);
  }

  /** Every logged entry is of a state inactive before the run and active after it, once. */
  lemma {:induction false} RootFirstMeaning(g: Tree, on0: set<nat>, steps: seq<Step>, on1: set<nat>, i: nat)
    requires Valid(g) && RootFirst(g, on0, steps, on1) && i < |steps|
    ensures steps[i].Entered? && steps[i].s !in on0 && steps[i].s in on1
    ensures forall j :: i < j < |steps| ==> steps[j].s != steps[i].s
    decreases |steps|
  {
    var rest := steps[1..];
    if i == 0 {
      RootFirstGrows(g, on0 + {steps[0].s}, rest, on1);
      forall j | 0 < j < |steps| ensures steps[j].s != steps[0].s {
        RootFirstMeaning(g, on0 + {steps[0].s}, rest, on1, j - 1);
        assert rest[j - 1] == steps[j];
      }
    } else {
      RootFirstMeaning(g, on0 + {steps[0].s}, rest, on1, i - 1);
      forall j | i < j < |steps| ensures steps[j].s != steps[i].s {
        assert rest[j - 1] == steps[j] && rest[i - 1] == steps[i];
      }
    }
  }

  lemma {:induction false} RootFirstGrows(g: Tree, on0: set<nat>, steps: seq<Step>, on1: set<nat>)
    requires Valid(g) && RootFirst(g, on0, steps, on1)
    ensures on0 <= on1
    decreases |steps|
  {
    if steps != [] {
      RootFirstGrows(g, on0 + {steps[0].s}, steps[1..], on1);
    }
  }

  // ---------------------------------------------------------------- default entry is exact

  /** `r` is `c` with the states of `more` added; each cluster among them points to the child it
      picked, and every other memory is as before. */
  ghost predicate Grew(g: Tree, c: Config, r: Config, more: set<nat>)
    requires Valid(g) && Shaped(g, c)
  {
    && |r.child| == |r.last| == |g.kind|
    && r.on == c.on + more
    && forall p {:trigger r.child[p]} {:trigger r.last[p]} :: 0 <= p < |g.kind| ==>
         if p in more && g.kind[p] == Cluster && g.children[p] != []
         then r.child[p] == r.last[p] == Some(Pick(g, c.last, p))
         else r.child[p] == c.child[p] && r.last[p] == c.last[p]
  }

  lemma GrewTrans(g: Tree, c: Config, e: Config, r: Config, a: set<nat>, b: set<nat>)
    requires Valid(g) && Shaped(g, c) && Shaped(g, e) && a !! b
    requires Grew(g, c, e, a) && Grew(g, e, r, b)
    ensures Grew(g, c, r, a + b)
  {
    forall p | 0 <= p < |g.kind|
      ensures if p in a + b && g.kind[p] == Cluster && g.children[p] != []
              then r.child[p] == r.last[p] == Some(Pick(g, c.last, p))
              else r.child[p] == c.child[p] && r.last[p] == c.last[p]
    {
      if p in b {
        assert e.last[p] == c.last[p];
      }
    }
  }

  ghost predicate Fresh(g: Tree, c: Config, s: nat)
    requires Valid(g) && Shaped(g, c)
  {
    forall y :: y in c.on ==> !Within(g, y, s)
  }

  /** The part of the closure of `p` under its children from number `i` on. */
  ghost function RestSet(g: Tree, last: seq<Option<nat>>, p: nat, i: nat): set<nat>
    requires Valid(g) && LastOk(g, last) && IsState(g, p) && i <= |g.children[p]|
  {
    set x | && 0 <= x < |g.kind|
            && Below(g, x, p)
            && Toward(g, x, p) in g.children[p][i..]
            && Default(g, last, x, Toward(g, x, p))
  }

  lemma {:induction false} DescendExact(g: Tree, c: Config, s: nat)
    requires Valid(g) && Typed(g, c) && IsState(g, s) && Fresh(g, c, s)
    requires s == ROOT || g.parent[s] in c.on
    ensures Grew(g, c, Descend(g, c, s), DefaultSet(g, c.last, s))
    ensures EnterRun(g, c, Descend(g, c, s))
    decreases Height(g, s), 3, 0
  {
    var m := Mark(c, s);
    var r := Descend(g, c, s);
    MarkRun(g, c, s);
    match g.kind[s] {
      case Plain =>
        PlainClosure(g, c.last, s);
      case Cluster =>
        if g.children[s] == [] {
          PlainClosure(g, c.last, s);
        } else {
          ClusterDescend(g, c, s);
        }
      case Set =>
        FillAllExact(g, m, s, 0);
        SetClosure(g, c.last, s);
        GrewTrans(g, c, m, r, {s}, RestSet(g, m.last, s, 0));
        EnterRunTrans(g, c, m, r);
    }
  }

  lemma PlainClosure(g: Tree, last: seq<Option<nat>>, s: nat)
    requires Valid(g) && LastOk(g, last) && IsState(g, s) && g.children[s] == []
    ensures DefaultSet(g, last, s) == {s}
  {
    forall x | x in DefaultSet(g, last, s) ensures x == s {
      DefaultWithin(g, last, x, s);
      if x != s {
        var d := Toward(g, x, s);
        assert false;
      }
    }
  }

  lemma {:induction false} ClusterDescend(g: Tree, c: Config, s: nat)
    requires Valid(g) && Typed(g, c) && IsState(g, s) && Fresh(g, c, s)
    requires s == ROOT || g.parent[s] in c.on
    requires g.kind[s] == Cluster && g.children[s] != []
    ensures Grew(g, c, Descend(g, c, s), DefaultSet(g, c.last, s))
    ensures EnterRun(g, c, Descend(g, c, s))
    decreases Height(g, s), 2, 0
  {
    var m := Mark(c, s);
    var d := Pick(g, c.last, s);
    var e := Record(m, s, d);
    var r := Descend(g, e, d);
    ChildSubtree(g, d, s);
    assert !Within(g, s, d);
    DescendExact(g, e, d);
    MarkRun(g, c, s);
    assert EnterRun(g, c, e);
    EnterRunTrans(g, c, e, r);
    ClusterClosure(g, c.last, e.last, s);
    var more := DefaultSet(g, e.last, d);
    forall p | p in more ensures p != s && e.last[p] == c.last[p] {
      DefaultWithin(g, e.last, p, d);
    }
  }

  lemma ClusterClosure(g: Tree, a: seq<Option<nat>>, b: seq<Option<nat>>, s: nat)
    requires Valid(g) && LastOk(g, a) && LastOk(g, b) && IsState(g, s)
    requires g.kind[s] == Cluster && g.children[s] != []
    requires forall p :: 0 <= p < |g.kind| && p != s ==> a[p] == b[p]
    ensures DefaultSet(g, a, s) == {s} + DefaultSet(g, b, Pick(g, a, s))
  {
    var d := Pick(g, a, s);
    ChildSubtree(g, d, s);
    assert !Within(g, s, d);
    forall x | IsState(g, x)
      ensures x in DefaultSet(g, a, s) <==> x == s || x in DefaultSet(g, b, d)
    {
      forall p: nat | IsState(g, p) && Within(g, p, d) ensures a[p] == b[p] {
        assert p != s;
      }
      DefaultFrame(g, a, b, x, d);
      if Default(g, a, x, s) {
        DefaultWithin(g, a, x, s);
      }
      if Default(g, a, x, d) {
        DefaultWithin(g, a, x, d);
      }
      if Below(g, x, s) {
        DefaultStep(g, a, x, s);
        if Toward(g, x, s) != d && Within(g, x, d) {
          SiblingsApart(g, x, d, Toward(g, x, s));
        }
      }
    }
  }

  lemma SetClosure(g: Tree, last: seq<Option<nat>>, s: nat)
    requires Valid(g) && LastOk(g, last) && IsState(g, s) && g.kind[s] == Set
    ensures DefaultSet(g, last, s) == {s} + RestSet(g, last, s, 0)
  {
    assert g.children[s][0..] == g.children[s];
    forall x | IsState(g, x)
      ensures x in DefaultSet(g, last, s) <==> x == s || x in RestSet(g, last, s, 0)
    {
      if Default(g, last, x, s) {
        DefaultWithin(g, last, x, s);
      }
      if Below(g, x, s) {
        DefaultStep(g, last, x, s);
      }
    }
  }

  lemma {:induction false} FillAllExact(g: Tree, c: Config, p: nat, i: nat)
    requires Valid(g) && Typed(g, c) && p in c.on && i <= |g.children[p]|
    requires forall y :: y in c.on && Below(g, y, p) ==> Toward(g, y, p) !in g.children[p][i..]
    ensures Grew(g, c, FillAll(g, c, p, i), RestSet(g, c.last, p, i))
    ensures EnterRun(g, c, FillAll(g, c, p, i))
    decreases Height(g, p), 1, |g.children[p]| - i
  {
    if i == |g.children[p]| {
      assert RestSet(g, c.last, p, i) == {};
    } else {
      var d := g.children[p][i];
      assert d in g.children[p] && d in g.children[p][i..];
      FreshChild(g, c, p, d);
      var e := Descend(g, c, d);
      var r := FillAll(g, e, p, i + 1);
      DescendExact(g, c, d);
      RestStep(g, c, e, p, i);
      FillAllExact(g, e, p, i + 1);
      EnterRunTrans(g, c, e, r);
      GrewTrans(g, c, e, r, DefaultSet(g, c.last, d), RestSet(g, e.last, p, i + 1));
    }
  }

  lemma FreshChild(g: Tree, c: Config, p: nat, d: nat)
    requires Valid(g) && Shaped(g, c) && IsState(g, p) && d in g.children[p]
    requires forall y :: y in c.on && Below(g, y, p) ==> Toward(g, y, p) != d
    ensures Fresh(g, c, d)
  {
    forall y | y in c.on ensures !Within(g, y, d) {
      if Within(g, y, d) {
        ChildSubtree(g, d, p);
        SiblingsApart(g, y, d, Toward(g, y, p));
      }
    }
  }

  /** One child's closure and the rest of its siblings' do not interfere. */
  lemma RestStep(g: Tree, c: Config, e: Config, p: nat, i: nat)
    requires Valid(g) && Typed(g, c) && Typed(g, e) && p in c.on && i < |g.children[p]|
    requires forall y :: y in c.on && Below(g, y, p) ==> Toward(g, y, p) !in g.children[p][i..]
    requires g.children[p][i] in g.children[p]
    requires Grew(g, c, e, DefaultSet(g, c.last, g.children[p][i]))
    ensures forall y :: y in e.on && Below(g, y, p) ==> Toward(g, y, p) !in g.children[p][i + 1..]
    ensures DefaultSet(g, c.last, g.children[p][i]) !! RestSet(g, e.last, p, i + 1)
    ensures RestSet(g, c.last, p, i) == DefaultSet(g, c.last, g.children[p][i]) + RestSet(g, e.last, p, i + 1)
  {
    var d := g.children[p][i];
    var mine := DefaultSet(g, c.last, d);
    var rest := g.children[p][i + 1..];
    assert g.children[p][i..] == [d] + rest;
    assert d !in rest;
    forall y | y in mine ensures Below(g, y, p) && Toward(g, y, p) == d {
      DefaultWithin(g, c.last, y, d);
      ToChild(g, y, p, d);
    }
    forall y | IsState(g, y) && Below(g, y, p) && Toward(g, y, p) in rest
      ensures Default(g, c.last, y, Toward(g, y, p)) <==> Default(g, e.last, y, Toward(g, y, p))
    {
      SiblingFrame(g, c, e, p, d, y);
    }
  }

  lemma ToChild(g: Tree, y: nat, p: nat, d: nat)
    requires Valid(g) && IsState(g, y) && IsState(g, d) && d != ROOT && g.parent[d] == p && Within(g, y, d)
    ensures Below(g, y, p) && Toward(g, y, p) == d
  {
    ChildSubtree(g, d, p);
    if d != Toward(g, y, p) {
      SiblingsApart(g, y, d, Toward(g, y, p));
    }
  }

  lemma SiblingFrame(g: Tree, c: Config, e: Config, p: nat, d: nat, y: nat)
    requires Valid(g) && Typed(g, c) && Typed(g, e) && IsState(g, p) && d in g.children[p]
    requires Grew(g, c, e, DefaultSet(g, c.last, d))
    requires IsState(g, y) && Below(g, y, p) && Toward(g, y, p) != d
    ensures Default(g, c.last, y, Toward(g, y, p)) <==> Default(g, e.last, y, Toward(g, y, p))
  {
    var x := Toward(g, y, p);
    forall q: nat | IsState(g, q) && Within(g, q, x) ensures c.last[q] == e.last[q] {
      if Default(g, c.last, q, d) {
        DefaultWithin(g, c.last, q, d);
        SiblingsApart(g, q, d, x);
      }
    }
    DefaultFrame(g, c.last, e.last, y, x);
  }
}
