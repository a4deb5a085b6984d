/**
  In one micro-step, from any configuration at all, no state exits twice and none is entered twice: Phase I
  only deactivates and Phase II only activates, whether or not the entries turn out legal.
 */
module OncePerStep {
  import opened Wrappers
  import opened StateTree
  import opened Configuration
  import opened MicroStep

  /** `steps` takes `on0` to `on1` by entering inactive states only, or by exiting active ones only. */
  ghost predicate OneWay(on0: set<nat>, steps: seq<Step>, on1: set<nat>, entering: bool)
    decreases |steps|
  {
    if steps == [] then on0 == on1
    else
      var x := steps[0].s;
      && steps[0].Entered? == entering
      && (x in on0) == !entering
      && OneWay(if entering then on0 + {x} else on0 - {x}, steps[1..], on1, entering)
  }

  ghost predicate Went(c: Config, r: Config, entering: bool) {
    c.log <= r.log && OneWay(c.on, r.log[|c.log|..], r.on, entering)
  }

  lemma {:induction false} OneWayAppend(
    a: set<nat>, xs: seq<Step>, b: set<nat>, ys: seq<Step>, d: set<nat>, entering: bool)
    requires OneWay(a, xs, b, entering) && OneWay(b, ys, d, entering)
    ensures OneWay(a, xs + ys, d, entering)
    decreases |xs|
  {
    if xs == [] {
      assert xs + ys == ys;
    } else {
      var x := xs[0].s;
      OneWayAppend(if entering then a + {x} else a - {x}, xs[1..], b, ys, d, entering);
      assert (xs + ys)[1..] == xs[1..] + ys;
    }
  }

  lemma WentTrans(c: Config, d: Config, r: Config, entering: bool)
    requires Went(c, d, entering) && Went(d, r, entering)
    ensures Went(c, r, entering)
  {
    OneWayAppend(c.on, d.log[|c.log|..], d.on, r.log[|d.log|..], r.on, entering);
    assert r.log[|c.log|..] == d.log[|c.log|..] + r.log[|d.log|..];
  }

  lemma MarkWent(c: Config, s: nat)
    ensures s !in c.on ==> Went(c, Mark(c, s), true)
    ensures s in c.on ==> Went(c, Unmark(c, s), false)
  {
    var r := if s in c.on then Unmark(c, s) else Mark(c, s);
    var steps := r.log[|c.log|..];
    assert |steps| == 1 && steps[1..] == [];
    assert OneWay(r.on, steps[1..], r.on, s !in c.on);
  }

  /** Each state of a one-way run occurs once. */
  lemma {:induction false} OneWayOnce(on0: set<nat>, steps: seq<Step>, on1: set<nat>, entering: bool, i: nat)
    requires OneWay(on0, steps, on1, entering) && i < |steps|
    ensures steps[i].Entered? == entering
    ensures (steps[i].s in on0) == !entering && (steps[i].s in on1) == entering
    ensures forall j :: i < j < |steps| ==> steps[j].s != steps[i].s
    decreases |steps|
  {
    var x, rest := steps[0].s, steps[1..];
    var on := if entering then on0 + {x} else on0 - {x};
    if i == 0 {
      OneWayMonotone(on, rest, on1, entering);
      forall j | 0 < j < |steps| ensures steps[j].s != x {
        OneWayOnce(on, rest, on1, entering, j - 1);
        assert rest[j - 1] == steps[j];
      }
    } else {
      OneWayOnce(on, rest, on1, entering, i - 1);
      forall j | i < j < |steps| ensures steps[j].s != steps[i].s {
        assert rest[j - 1] == steps[j] && rest[i - 1] == steps[i];
      }
    }
  }

  lemma {:induction false} OneWayMonotone(on0: set<nat>, steps: seq<Step>, on1: set<nat>, entering: bool)
    requires OneWay(on0, steps, on1, entering)
    ensures if entering then on0 <= on1 else on1 <= on0
    decreases |steps|
  {
    if steps != [] {
      var x := steps[0].s;
      OneWayMonotone(if entering then on0 + {x} else on0 - {x}, steps[1..], on1, entering);
    }
  }

  // ---------------------------------------------------------------- entering

  lemma {:induction false} DescendWent(g: Tree, c: Config, s: nat)
    requires Valid(g) && Typed(g, c) && IsState(g, s)
    ensures Went(c, Descend(g, c, s), true)
    decreases Height(g, s), 3, 0
  {
    if s !in c.on {
      var m := Mark(c, s);
      MarkWent(c, s);
      FillWent(g, m, s);
      WentTrans(c, m, Fill(g, m, s), true);
    }
  }

  lemma {:induction false} FillWent(g: Tree, c: Config, s: nat)
    requires Valid(g) && TypedBut(g, c, s) && s in c.on
    ensures Went(c, Fill(g, c, s), true)
    decreases Height(g, s), 2, 0
  {
    match g.kind[s] {
      case Plain =>
      case Cluster =>
        if g.children[s] != [] {
          var d := Pick(g, c.last, s);
          DescendWent(g, Record(c, s, d), d);
        }
      case Set => FillAllWent(g, c, s, 0);
    }
  }

  lemma {:induction false} FillAllWent(g: Tree, c: Config, p: nat, i: nat)
    requires Valid(g) && Typed(g, c) && IsState(g, p) && i <= |g.children[p]|
    ensures Went(c, FillAll(g, c, p, i), true)
    decreases Height(g, p), 1, |g.children[p]| - i
  {
    if i < |g.children[p]| {
      var d := g.children[p][i];
      assert d in g.children[p];
      var e := Descend(g, c, d);
      DescendWent(g, c, d);
      FillAllWent(g, e, p, i + 1);
      WentTrans(c, e, FillAll(g, e, p, i + 1), true);
    }
  }

  lemma {:induction false} AdmitWent(g: Tree, c: Config, s: nat)
    requires Valid(g) && Typed(g, c) && IsState(g, s)
    ensures Went(c, Admit(g, c, s).0, true)
    decreases g.rank[s], 0
  {
    if s !in c.on {
      MarkWent(c, s);
      if s != ROOT && g.parent[s] !in c.on {
        var d := Open(g, c, g.parent[s], Some(s)).0;
        OpenWent(g, c, g.parent[s], Some(s));
        if s !in d.on {
          MarkWent(d, s);
          WentTrans(c, d, Mark(d, s), true);
        }
      }
    }
  }

  lemma {:induction false} OpenWent(g: Tree, c: Config, s: nat, from: Option<nat>)
    requires Valid(g) && Typed(g, c) && IsState(g, s) && (from.Some? ==> from.value in g.children[s])
    ensures Went(c, Open(g, c, s, from).0, true)
    decreases g.rank[s], 1
  {
    AdmitWent(g, c, s);
    var (m, ok) := Admit(g, c, s);
    if ok && !(g.kind[s] == Cluster && from.Some?) {
      FillWent(g, m, s);
      WentTrans(c, m, Fill(g, m, s), true);
    }
  }

  // ---------------------------------------------------------------- exiting

  lemma {:induction false} DropWent(g: Tree, c: Config, s: nat)
    requires Valid(g) && NoEmptyClusters(g) && Typed(g, c) && IsState(g, s)
    ensures Went(c, Drop(g, c, s), false)
    decreases Height(g, s), 1, 0
  {
    if s in c.on {
      match g.kind[s] {
        case Plain => MarkWent(c, s);
        case Cluster =>
          var d := c.child[s].value;
          ChildSubtree(g, d, s);
          DropWent(g, c, d);
          ThenExit(g, c, Drop(g, c, d), s);
        case Set =>
          DropAllWent(g, c, s, 0);
          ThenExit(g, c, DropAll(g, c, s, 0), s);
      }
    }
  }

  lemma ThenExit(g: Tree, c: Config, d: Config, s: nat)
    requires s in d.on && Went(c, d, false)
    ensures Went(c, Unmark(d, s), false)
  {
    MarkWent(d, s);
    WentTrans(c, d, Unmark(d, s), false);
  }

  lemma {:induction false} DropAllWent(g: Tree, c: Config, p: nat, i: nat)
    requires Valid(g) && NoEmptyClusters(g) && Typed(g, c) && IsState(g, p) && i <= |g.children[p]|
    ensures Went(c, DropAll(g, c, p, i), false)
    decreases Height(g, p), 0, |g.children[p]| - i
  {
    if i < |g.children[p]| {
      var d := g.children[p][i];
      assert d in g.children[p];
      var e := Drop(g, c, d);
      DropWent(g, c, d);
      DropAllWent(g, e, p, i + 1);
      WentTrans(c, e, DropAll(g, e, p, i + 1), false);
    }
  }

  lemma {:induction false} QuitWent(g: Tree, c: Config, s: nat, to: Option<nat>)
    requires Valid(g) && NoEmptyClusters(g) && Typed(g, c) && IsState(g, s) && (to.Some? ==> IsState(g, to.value))
    ensures Went(c, Quit(g, c, s, to), false)
    decreases g.rank[s]
  {
    if s in c.on {
      var e := Drop(g, c, s);
      DropWent(g, c, s);
      if !(to.None? || s == ROOT || Below(g, to.value, g.parent[s])) {
        QuitWent(g, e, g.parent[s], to);
        WentTrans(c, e, Quit(g, e, g.parent[s], to), false);
      }
    }
  }

  // ---------------------------------------------------------------- a step

  lemma {:induction false} LeaveAllWent(g: Tree, c: Config, ms: seq<Move>)
    requires Valid(g) && NoEmptyClusters(g) && Typed(g, c) && MovesOk(g, ms)
    ensures Went(c, LeaveAll(g, c, ms), false)
    decreases |ms|
  {
    if ms != [] {
      var d := Quit(g, c, ms[0].from, Some(ms[0].to));
      QuitWent(g, c, ms[0].from, Some(ms[0].to));
      LeaveAllWent(g, d, ms[1..]);
      WentTrans(c, d, LeaveAll(g, d, ms[1..]), false);
    }
  }

  lemma {:induction false} EnterAllWent(g: Tree, c: Config, ms: seq<Move>)
    requires Valid(g) && Typed(g, c) && MovesOk(g, ms)
    ensures Went(c, EnterAll(g, c, ms), true)
    decreases |ms|
  {
    if ms != [] {
      var d := Open(g, c, ms[0].to, None).0;
      OpenWent(g, c, ms[0].to, None);
      EnterAllWent(g, d, ms[1..]);
      WentTrans(c, d, EnterAll(g, d, ms[1..]), true);
    }
  }

  /** Main result: what a step logs is exits of different states, then entries of different states. */
  lemma StepOnce(g: Tree, c: Config, ms: seq<Move>)
    requires Valid(g) && NoEmptyClusters(g) && Typed(g, c) && MovesOk(g, ms)
    ensures var e, r := LeaveAll(g, c, ms), Perform(g, c, ms);
            && c.log <= e.log <= r.log && e.on <= c.on && e.on <= r.on
            && (forall i :: |c.log| <= i < |e.log| ==> e.log[i].Exited? && e.log[i].s in c.on && e.log[i].s !in e.on)
            && (forall i :: |e.log| <= i < |r.log| ==> r.log[i].Entered? && r.log[i].s !in e.on && r.log[i].s in r.on)
            && (forall i, j :: |c.log| <= i < j < |e.log| ==> e.log[i].s != e.log[j].s)
            && (forall i, j :: |e.log| <= i < j < |r.log| ==> r.log[i].s != r.log[j].s)
  {
    var e, r := LeaveAll(g, c, ms), Perform(g, c, ms);
    LeaveAllWent(g, c, ms);
    EnterAllWent(g, e, ms);
    Distinct(c, e, false);
    Distinct(e, r, true);
  }

  lemma Distinct(c: Config, r: Config, entering: bool)
    requires Went(c, r, entering)
    ensures forall i :: |c.log| <= i < |r.log| ==>
              r.log[i].Entered? == entering && (r.log[i].s in c.on) == !entering && (r.log[i].s in r.on) == entering
    ensures forall i, j :: |c.log| <= i < j < |r.log| ==> r.log[i].s != r.log[j].s
    ensures if entering then c.on <= r.on else r.on <= c.on
  {
    var n := |c.log|;
    var steps := r.log[n..];
    OneWayMonotone(c.on, steps, r.on, entering);
    forall i | n <= i < |r.log|
      ensures r.log[i].Entered? == entering && (r.log[i].s in c.on) == !entering && (r.log[i].s in r.on) == entering
      ensures forall j :: i < j < |r.log| ==> r.log[i].s != r.log[j].s
    {
      OneWayOnce(c.on, steps, r.on, entering, i - n);
      assert steps[i - n] == r.log[i];
      forall j | i < j < |r.log| ensures r.log[i].s != r.log[j].s {
        assert steps[j - n] == r.log[j];
      }
    }
  }

  // ---------------------------------------------------------------- the children of a set, in order

  /** Step `s` is of a state that is, or lies below, the child at place `i`. */
  ghost predicate At(g: Tree, s: Step, kids: seq<nat>, i: nat)
    requires Valid(g)
  {
    i < |kids| && IsState(g, s.s) && Within(g, s.s, kids[i])
  }

  /** Every state logged since `c` is, or lies below, the child at the place named for it, and the places never
      go back. */
  ghost predicate InOrder(g: Tree, c: Config, r: Config, kids: seq<nat>, places: seq<nat>)
    requires Valid(g)
  {
    && c.log <= r.log && |places| == |r.log| - |c.log|
    && (forall a :: 0 <= a < |places| ==> At(g, r.log[|c.log| + a], kids, places[a]))
    && (forall a, b :: 0 <= a < b < |places| ==> places[a] <= places[b])
  }

  lemma Inside(g: Tree, c: Config, e: Config, d: nat, entering: bool)
    requires Valid(g) && Went(c, e, entering) && IsState(g, d)
    requires Shaped(g, c) && Shaped(g, e)
    requires forall y :: y in c.on + e.on && (y in c.on) != (y in e.on) ==> Within(g, y, d)
    ensures forall a :: |c.log| <= a < |e.log| ==> At(g, e.log[a], [d], 0)
  {
    Distinct(c, e, entering);
  }

  /** One child more. */
  lemma OneChild(g: Tree, c: Config, e: Config, r: Config, kids: seq<nat>, i: nat, later: seq<nat>)
    returns (places: seq<nat>)
    requires Valid(g) && i < |kids| && c.log <= e.log
    requires forall a :: |c.log| <= a < |e.log| ==> At(g, e.log[a], [kids[i]], 0)
    requires InOrder(g, e, r, kids, later) && forall a :: 0 <= a < |later| ==> later[a] > i
    ensures InOrder(g, c, r, kids, places) && forall a :: 0 <= a < |places| ==> places[a] >= i
  {
    hide Valid;
    var n := |e.log| - |c.log|;
    places := seq(n, _ => i) + later;
    forall a | 0 <= a < |places|
      ensures At(g, r.log[|c.log| + a], kids, places[a])
    {
      if a < n {
        assert r.log[|c.log| + a] == e.log[|c.log| + a];
      } else {
        assert places[a] == later[a - n] && r.log[|c.log| + a] == r.log[|e.log| + (a - n)];
      }
    }
  }

  /** A set enters its children in their order, each with all that comes with it before the next. */
  lemma {:induction false} FillAllInOrder(g: Tree, c: Config, p: nat, i: nat) returns (places: seq<nat>)
    requires Valid(g) && Typed(g, c) && IsState(g, p) && i <= |g.children[p]|
    ensures InOrder(g, c, FillAll(g, c, p, i), g.children[p], places)
    ensures forall a :: 0 <= a < |places| ==> places[a] >= i
    decreases |g.children[p]| - i
  {
    if i < |g.children[p]| {
      var d := g.children[p][i];
      assert d in g.children[p];
      var e := Descend(g, c, d);
      DescendWent(g, c, d);
      Inside(g, c, e, d, true);
      places := FillAllInOrder(g, e, p, i + 1);
      places := OneChild(g, c, e, FillAll(g, e, p, i + 1), g.children[p], i, places);
    } else {
      places := [];
    }
  }

  /** And exits them in their order. */
  lemma {:induction false} DropAllInOrder(g: Tree, c: Config, p: nat, i: nat) returns (places: seq<nat>)
    requires Valid(g) && NoEmptyClusters(g) && Typed(g, c) && IsState(g, p) && i <= |g.children[p]|
    ensures InOrder(g, c, DropAll(g, c, p, i), g.children[p], places)
    ensures forall a :: 0 <= a < |places| ==> places[a] >= i
    decreases |g.children[p]| - i
  {
    if i < |g.children[p]| {
      var d := g.children[p][i];
      assert d in g.children[p];
      var e := Drop(g, c, d);
      DropWent(g, c, d);
      Inside(g, c, e, d, false);
      places := DropAllInOrder(g, e, p, i + 1);
      places := OneChild(g, c, e, DropAll(g, e, p, i + 1), g.children[p], i, places);
    } else {
      places := [];
    }
  }
}
