/**
  Exiting is exact: from a sound configuration `Quit` removes precisely one subtree, leaves first.
 */
module Leaving {
  import opened Wrappers
  import opened StateTree
  import opened Configuration

  /** The state whose subtree a transition leaves: the first one upward from `s` whose parent is a
      proper ancestor of the destination. */
  function ExitTop(g: Tree, s: nat, to: Option<nat>): (z: nat)
    requires Valid(g) && IsState(g, s) && (to.Some? ==> IsState(g, to.value))
    ensures IsState(g, z) && Within(g, s, z)
    ensures to.None? ==> z == s
    ensures to.Some? && z != ROOT ==> Below(g, to.value, g.parent[z])
    decreases g.rank[s]
  {
    if to.None? || s == ROOT || Below(g, to.value, g.parent[s]) then s else ExitTop(g, g.parent[s], to)
  }

  /** Nothing on the way up before it would have done: climbing stops at the first chance. */
  lemma {:induction false} ExitTopFirst(g: Tree, s: nat, to: nat, z: nat)
    requires Valid(g) && IsState(g, s) && IsState(g, to) && IsState(g, z)
    requires Within(g, s, z) && Below(g, z, ExitTop(g, s, Some(to)))
    ensures z != ROOT && !Below(g, to, g.parent[z])
    decreases g.rank[s]
  {
    var top := ExitTop(g, s, Some(to));
    WithinRank(g, z, top);
    if s == ROOT || Below(g, to, g.parent[s]) {
      WithinRank(g, s, z);
    } else if z != s {
      ExitTopFirst(g, g.parent[s], to, z);
    }
  }

  /** `steps` exits states one at a time from `on0` down to `on1`, each while nothing below it is
      active.  Every exited state is active just before, so it exits once. */
  ghost predicate LeafFirst(g: Tree, on0: set<nat>, steps: seq<Step>, on1: set<nat>)
    requires Valid(g) && forall x :: x in on0 ==> IsState(g, x)
    decreases |steps|
  {
    if steps == [] then on0 == on1
    else
      && steps[0].Exited?
      && steps[0].s in on0
      && (forall y :: y in on0 ==> !Below(g, y, steps[0].s))
      && LeafFirst(g, on0 - {steps[0].s}, steps[1..], on1)
  }

  ghost predicate ExitRun(g: Tree, c: Config, r: Config)
    requires Valid(g) && Shaped(g, c)
  {
    c.log <= r.log && LeafFirst(g, c.on, r.log[|c.log|..], r.on)
  }

  lemma {:induction false} LeafFirstAppend(g: Tree, a: set<nat>, xs: seq<Step>, b: set<nat>, ys: seq<Step>, d: set<nat>)
    requires Valid(g) && (forall x :: x in a ==> IsState(g, x)) && (forall x :: x in b ==> IsState(g, x))
    requires LeafFirst(g, a, xs, b) && LeafFirst(g, b, ys, d)
    ensures LeafFirst(g, a, xs + ys, d)
    decreases |xs|
  {
    if xs == [] {
      assert xs + ys == ys;
    } else {
      LeafFirstAppend(g, a - {xs[0].s}, xs[1..], b, ys, d);
      assert (xs + ys)[1..] == xs[1..] + ys;
    }
  }

  lemma ExitRunTrans(g: Tree, c: Config, d: Config, r: Config)
    requires Valid(g) && Shaped(g, c) && Shaped(g, d) && ExitRun(g, c, d) && ExitRun(g, d, r)
    ensures ExitRun(g, c, r)
  {
    LeafFirstAppend(g, c.on, d.log[|c.log|..], d.on, r.log[|d.log|..], r.on);
    assert r.log[|c.log|..] == d.log[|c.log|..] + r.log[|d.log|..];
  }

  /** Each logged exit is of a state that was active, and no state is logged after its ancestor. */
  lemma {:induction false} LeafFirstMeaning(g: Tree, on0: set<nat>, steps: seq<Step>, on1: set<nat>, i: nat, j: nat)
    requires Valid(g) && (forall x :: x in on0 ==> IsState(g, x))
    requires LeafFirst(g, on0, steps, on1) && i < j < |steps|
    ensures steps[i].Exited? && steps[j].Exited? && steps[i].s in on0 && steps[j].s in on0
    ensures !Within(g, steps[j].s, steps[i].s)
    decreases |steps|
  {
    var rest := steps[1..];
    if i == 0 {
      LeafFirstMember(g, on0 - {steps[0].s}, rest, on1, j - 1);
      assert rest[j - 1] == steps[j];
    } else {
      LeafFirstMeaning(g, on0 - {steps[0].s}, rest, on1, i - 1, j - 1);
    }
  }

  lemma {:induction false} LeafFirstMember(g: Tree, on0: set<nat>, steps: seq<Step>, on1: set<nat>, j: nat)
    requires Valid(g) && (forall x :: x in on0 ==> IsState(g, x))
    requires LeafFirst(g, on0, steps, on1) && j < |steps|
    ensures steps[j].Exited? && steps[j].s in on0 && steps[j].s !in on1
    decreases |steps|
  {
    LeafFirstShrinks(g, on0 - {steps[0].s}, steps[1..], on1);
    if j > 0 {
      LeafFirstMember(g, on0 - {steps[0].s}, steps[1..], on1, j - 1);
    }
  }

  lemma {:induction false} LeafFirstShrinks(g: Tree, on0: set<nat>, steps: seq<Step>, on1: set<nat>)
    requires Valid(g) && (forall x :: x in on0 ==> IsState(g, x))
    requires LeafFirst(g, on0, steps, on1)
    ensures on1 <= on0
    decreases |steps|
  {
    if steps != [] {
      LeafFirstShrinks(g, on0 - {steps[0].s}, steps[1..], on1);
    }
  }

  // ---------------------------------------------------------------- helpers on the tree

  lemma {:induction false} InactiveSubtree(g: Tree, c: Config, s: nat, y: nat)
    requires Valid(g) && Shaped(g, c) && UpClosed(g, c) && IsState(g, s) && s !in c.on && y in c.on
    ensures !Within(g, y, s)
    decreases g.rank[y]
  {
    if y != ROOT {
      InactiveSubtree(g, c, s, g.parent[y]);
    }
  }

  lemma TowardIs(g: Tree, y: nat, p: nat, d: nat)
    requires Valid(g) && IsState(g, y) && IsState(g, d) && d != ROOT && g.parent[d] == p
    ensures Within(g, y, d) <==> Below(g, y, p) && Toward(g, y, p) == d
  {
    if Within(g, y, d) {
      ChildSubtree(g, d, p);
      if d != Toward(g, y, p) {
        SiblingsApart(g, y, d, Toward(g, y, p));
      }
    }
  }

  /** `r` is `c` without the subtree of `s`. */
  ghost predicate Cut(g: Tree, c: Config, r: Config, s: nat)
    requires Valid(g) && Shaped(g, c)
  {
    && r.child == c.child && r.last == c.last
    && forall y :: y in r.on <==> y in c.on && !Within(g, y, s)
  }

  /** Removing a whole subtree keeps a configuration sound. */
  lemma CutSound(g: Tree, c: Config, r: Config, s: nat)
    requires Valid(g) && Sound(g, c) && IsState(g, s) && Cut(g, c, r, s)
    ensures Sound(g, r)
  {
    forall y | y in r.on && y != ROOT
      ensures g.parent[y] in r.on
    {
      assert g.parent[y] in c.on;
    }
    forall p | p in r.on ensures AtMostOne(g, r, p) {
      assert AtMostOne(g, c, p);
    }
  }

  // ---------------------------------------------------------------- exactness

  lemma {:induction false} DropExact(g: Tree, c: Config, s: nat)
    requires Valid(g) && NoEmptyClusters(g) && Sound(g, c) && IsState(g, s)
    ensures Cut(g, c, Drop(g, c, s), s) && ExitRun(g, c, Drop(g, c, s))
    decreases Height(g, s), 1, 0
  {
    if s !in c.on {
      forall y | y in c.on ensures !Within(g, y, s) { InactiveSubtree(g, c, s, y); }
    } else {
      match g.kind[s] {
        case Plain =>
          PlainAlone(g, c, s);
          LastExit(g, c, c, s);
        case Cluster =>
          var d := c.child[s].value;
          ChildSubtree(g, d, s);
          DropExact(g, c, d);
          OnlyChild(g, c, Drop(g, c, d), s);
          LastExit(g, c, Drop(g, c, d), s);
        case Set =>
          DropAllExact(g, c, s, 0);
          assert g.children[s][0..] == g.children[s];
          LastExit(g, c, DropAll(g, c, s, 0), s);
      }
    }
  }

  lemma PlainAlone(g: Tree, c: Config, s: nat)
    requires Valid(g) && Shaped(g, c) && IsState(g, s) && g.kind[s] == Plain
    ensures forall y :: y in c.on ==> !Below(g, y, s)
  {
    forall y | y in c.on ensures !Below(g, y, s) {
      if Below(g, y, s) { BelowHasChildren(g, y, s); }
    }
  }

  lemma BelowHasChildren(g: Tree, y: nat, s: nat)
    requires Valid(g) && IsState(g, y) && Below(g, y, s)
    ensures IsState(g, s) && g.children[s] != []
  {
    var d := Toward(g, y, s);
    assert d in g.children[s];
  }

  lemma OnlyChild(g: Tree, c: Config, e: Config, s: nat)
    requires Valid(g) && Sound(g, c) && s in c.on && g.kind[s] == Cluster && c.child[s].Some?
    requires Cut(g, c, e, c.child[s].value)
    ensures forall y :: y in e.on ==> !Below(g, y, s)
  {
    assert AtMostOne(g, c, s);
    forall y | y in e.on ensures !Below(g, y, s) {
      if Below(g, y, s) {
        var x := Toward(g, y, s);
        if x !in c.on { InactiveSubtree(g, c, x, y); }
      }
    }
  }

  /** The exit of `s` itself, once everything below it is inactive. */
  lemma LastExit(g: Tree, c: Config, e: Config, s: nat)
    requires Valid(g) && Shaped(g, c) && Shaped(g, e) && s in e.on && e.on <= c.on
    requires e.child == c.child && e.last == c.last
    requires forall y :: y in c.on && y !in e.on ==> Within(g, y, s)
    requires forall y :: y in e.on ==> !Below(g, y, s)
    requires e == c || ExitRun(g, c, e)
    ensures Cut(g, c, Unmark(e, s), s) && ExitRun(g, c, Unmark(e, s))
  {
    var r := Unmark(e, s);
    var steps := r.log[|e.log|..];
    assert steps == [Exited(s)] && steps[1..] == [];
    assert LeafFirst(g, e.on - {s}, steps[1..], r.on);
    assert ExitRun(g, e, r);
    if e != c {
      ExitRunTrans(g, c, e, r);
    }
  }

  lemma {:induction false} DropAllExact(g: Tree, c: Config, p: nat, i: nat)
    requires Valid(g) && NoEmptyClusters(g) && Sound(g, c) && IsState(g, p) && i <= |g.children[p]|
    ensures forall y :: y in DropAll(g, c, p, i).on <==>
                          y in c.on && !(Below(g, y, p) && Toward(g, y, p) in g.children[p][i..])
    ensures ExitRun(g, c, DropAll(g, c, p, i))
    decreases Height(g, p), 0, |g.children[p]| - i
  {
    if i < |g.children[p]| {
      var d := g.children[p][i];
      assert d in g.children[p];
      var e := Drop(g, c, d);
      DropExact(g, c, d);
      CutSound(g, c, e, d);
      DropAllExact(g, e, p, i + 1);
      ExitRunTrans(g, c, e, DropAll(g, e, p, i + 1));
      NextSubtree(g, c, e, p, i);
    }
  }

  lemma NextSubtree(g: Tree, c: Config, e: Config, p: nat, i: nat)
    requires Valid(g) && Shaped(g, c) && IsState(g, p) && i < |g.children[p]|
    requires g.children[p][i] in g.children[p] && Cut(g, c, e, g.children[p][i])
    ensures forall y :: y in c.on ==>
              ((y in e.on && !(Below(g, y, p) && Toward(g, y, p) in g.children[p][i + 1..])) <==>
               !(Below(g, y, p) && Toward(g, y, p) in g.children[p][i..]))
  {
    var d := g.children[p][i];
    assert g.children[p][i..] == [d] + g.children[p][i + 1..];
    forall y | y in c.on
      ensures Within(g, y, d) <==> Below(g, y, p) && Toward(g, y, p) == d
    {
      TowardIs(g, y, p, d);
    }
  }

  /** state::exit: exactly the subtree of `ExitTop` goes, each state once and after everything below it;
      which children clusters remember is untouched. */
  lemma {:induction false} QuitExact(g: Tree, c: Config, s: nat, to: Option<nat>)
    requires Valid(g) && NoEmptyClusters(g) && Sound(g, c) && s in c.on
    requires to.Some? ==> IsState(g, to.value)
    ensures Cut(g, c, Quit(g, c, s, to), ExitTop(g, s, to))
    ensures Sound(g, Quit(g, c, s, to)) && ExitRun(g, c, Quit(g, c, s, to))
    decreases g.rank[s]
  {
    var e := Drop(g, c, s);
    DropExact(g, c, s);
    CutSound(g, c, e, s);
    if !(to.None? || s == ROOT || Below(g, to.value, g.parent[s])) {
      var p := g.parent[s];
      var z := ExitTop(g, p, to);
      ChildWithin(g, s, p);
      assert p in e.on;
      QuitExact(g, e, p, to);
      ExitRunTrans(g, c, e, Quit(g, e, p, to));
      forall y | y in c.on && Within(g, y, s) ensures Within(g, y, z) {
        WithinTrans(g, y, s, p);
        WithinTrans(g, y, p, z);
      }
    }
  }

  /** A transition never makes the root exit. */
  lemma {:induction false} ExitTopNotRoot(g: Tree, s: nat, to: nat)
    requires Valid(g) && IsState(g, s) && IsState(g, to) && s != ROOT && to != ROOT
    ensures ExitTop(g, s, Some(to)) != ROOT
    decreases g.rank[s]
  {
    RootHoldsAll(g, to);
    if !Below(g, to, g.parent[s]) {
      assert g.parent[s] != ROOT;
      ExitTopNotRoot(g, g.parent[s], to);
    }
  }
}
