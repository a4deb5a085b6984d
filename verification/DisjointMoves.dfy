/**
  What the moves of one micro-step can do to each other: a performed transition's source never lies in
  a subtree already left (dominance), and moves that leave disjoint subtrees and enter cleanly always
  keep the configuration legal.
 */
module DisjointMoves {
  import opened Wrappers
  import opened StateTree
  import opened Configuration
  import opened Entering
  import opened Leaving
  import opened NestedEntry
  import opened EntrySoundness
  import opened MicroStep

  ghost predicate Spared(g: Tree, ms: seq<Move>, y: nat)
    requires Valid(g) && MovesOk(g, ms) && IsState(g, y)
  {
    forall i :: 0 <= i < |ms| ==> !Within(g, y, Left(g, ms[i]))
  }

  lemma SparedStep(g: Tree, ms: seq<Move>, y: nat)
    requires Valid(g) && MovesOk(g, ms) && IsState(g, y) && ms != []
    ensures Spared(g, ms, y) <==> !Within(g, y, Left(g, ms[0])) && Spared(g, ms[1..], y)
  {
    assert forall i :: 0 < i < |ms| ==> ms[i] == ms[1..][i - 1];
    assert forall i :: 0 <= i < |ms| - 1 ==> ms[1..][i] == ms[i + 1];
  }

  /** The exits of a step remove exactly the union of the subtrees left, each state once and leaves first. */
  lemma {:induction false} LeaveAllExact(g: Tree, c: Config, ms: seq<Move>)
    requires Valid(g) && NoEmptyClusters(g) && Sound(g, c) && MovesOk(g, ms) && Performable(g, c, ms)
    ensures forall y :: y in LeaveAll(g, c, ms).on <==> y in c.on && Spared(g, ms, y)
    ensures Sound(g, LeaveAll(g, c, ms)) && ExitRun(g, c, LeaveAll(g, c, ms))
    decreases |ms|
  {
    if ms == [] {
      assert LeafFirst(g, c.on, c.log[|c.log|..], c.on);
    } else {
      var d := Quit(g, c, ms[0].from, Some(ms[0].to));
      QuitExact(g, c, ms[0].from, Some(ms[0].to));
      LeaveAllExact(g, d, ms[1..]);
      ExitRunTrans(g, c, d, LeaveAll(g, d, ms[1..]));
      forall y | y in c.on
        ensures Spared(g, ms, y) <==> !Within(g, y, Left(g, ms[0])) && Spared(g, ms[1..], y)
      {
        SparedStep(g, ms, y);
      }
    }
  }

  lemma {:induction false} AfterSome(g: Tree, c: Config, ms: seq<Move>, i: nat) returns (d: Config)
    requires Valid(g) && NoEmptyClusters(g) && Sound(g, c) && MovesOk(g, ms) && Performable(g, c, ms) && i <= |ms|
    ensures Sound(g, d) && d.on <= c.on && MovesOk(g, ms[i..]) && Performable(g, d, ms[i..])
    decreases i
  {
    if i == 0 {
      d := c;
      assert ms[i..] == ms;
    } else {
      d := AfterSome(g, c, ms, i - 1);
      var m := ms[i - 1];
      assert ms[i - 1..][0] == m && ms[i - 1..][1..] == ms[i..];
      QuitExact(g, d, m.from, Some(m.to));
      d := Quit(g, d, m.from, Some(m.to));
    }
  }

  /** Every performed transition left something active. */
  lemma LeftWasActive(g: Tree, c: Config, ms: seq<Move>, i: nat)
    requires Valid(g) && NoEmptyClusters(g) && Sound(g, c) && MovesOk(g, ms) && Performable(g, c, ms) && i < |ms|
    ensures ms[i].from in c.on && Left(g, ms[i]) in c.on
  {
    var d := AfterSome(g, c, ms, i);
    assert ms[i..][0] == ms[i];
    OnUpward(g, d, ms[i].from, Left(g, ms[i]));
  }

  /** `n` neither starts in, nor leaves a subtree inside, what `m` left. */
  ghost predicate OutOf(g: Tree, n: Move, m: Move)
    requires Valid(g) && MoveOk(g, m) && MoveOk(g, n)
  {
    !Within(g, n.from, Left(g, m)) && !Within(g, Left(g, n), Left(g, m))
  }

  lemma DominanceFirst(g: Tree, c: Config, m: Move, rest: seq<Move>, j: nat)
    requires Valid(g) && NoEmptyClusters(g) && Sound(g, c) && MoveOk(g, m) && MovesOk(g, rest) && j < |rest|
    requires m.from in c.on && Performable(g, Quit(g, c, m.from, Some(m.to)), rest)
    ensures OutOf(g, rest[j], m)
  {
    QuitExact(g, c, m.from, Some(m.to));
    LeftWasActive(g, Quit(g, c, m.from, Some(m.to)), rest, j);
  }

  /** Dominance: no performed transition has its source in a subtree an earlier one of the step left. */
  lemma Dominance(g: Tree, c: Config, ms: seq<Move>, i: nat, j: nat)
    requires Valid(g) && NoEmptyClusters(g) && Sound(g, c) && MovesOk(g, ms) && Performable(g, c, ms)
    requires i < j < |ms|
    ensures OutOf(g, ms[j], ms[i])
  {
    hide Valid, NoEmptyClusters, Quit, Within;
    var d := AfterSome(g, c, ms, i);
    var now := ms[i..];
    assert now[0] == ms[i] && now[1..][j - i - 1] == ms[j];
    DominanceFirst(g, d, now[0], now[1..], j - i - 1);
  }

  /** No inactive cluster on the way to `t` lies below an inactive set. */
  ghost predicate Clean(g: Tree, on: set<nat>, t: nat)
    requires Valid(g) && IsState(g, t)
  {
    forall a: nat, s: nat {:trigger Below(g, t, a), Below(g, a, s)} ::
      (&& IsState(g, a) && IsState(g, s) && a !in on && s !in on
       && Below(g, t, a) && Below(g, a, s) && g.kind[s] == Set) ==> g.kind[a] != Cluster
  }

  /** On a clean way every default choice leads to the target. */
  lemma {:induction false} CleanDefault(g: Tree, on: set<nat>, last: seq<Option<nat>>, t: nat)
    requires Valid(g) && LastOk(g, last) && IsState(g, t) && t !in on && Clean(g, on, t)
    ensures Default(g, last, t, Base(g, on, t))
    decreases g.rank[t]
  {
    var b := Base(g, on, t);
    if b != t {
      var p := g.parent[t];
      ChildWithin(g, t, p);
      assert Base(g, on, p) == b;
      forall a: nat | IsState(g, a) && Below(g, p, a) ensures Below(g, t, a) {
        RouteAbove(g, Config({}, [], [], []), t, p);
      }
      CleanDefault(g, on, last, p);
      if p != b {
        assert Below(g, t, p) && Below(g, p, b);
      }
      assert t in g.children[p];
    }
  }

  ghost predicate Disjoint(g: Tree, ms: seq<Move>)
    requires Valid(g) && MovesOk(g, ms)
  {
    forall i, j :: 0 <= i < |ms| && 0 <= j < |ms| && i != j ==> !Within(g, Left(g, ms[i]), Left(g, ms[j]))
  }

  /** The child of the active parent through which `m` re-enters. */
  function Way(g: Tree, m: Move): (v: nat)
    requires Valid(g) && MoveOk(g, m)
    ensures 0 < v < |g.kind| && g.parent[v] == g.parent[Left(g, m)] && Within(g, m.to, v)
  {
    Toward(g, m.to, g.parent[Left(g, m)])
  }

  /** The place a move will enter is still free. */
  ghost predicate Free(g: Tree, on: set<nat>, m: Move)
    requires Valid(g) && MoveOk(g, m)
  {
    var p := g.parent[Left(g, m)];
    && p in on
    && Way(g, m) !in on
    && (g.kind[p] == Cluster ==> forall x :: x in g.children[p] ==> x !in on)
    && Clean(g, on, m.to)
  }

  /** Different moves re-enter through different states, and never share a cluster. */
  ghost predicate Apart(g: Tree, m: Move, n: Move)
    requires Valid(g) && MoveOk(g, m) && MoveOk(g, n)
  {
    && Way(g, m) != Way(g, n)
    && (g.kind[g.parent[Way(g, m)]] == Cluster ==> g.parent[Way(g, m)] != g.parent[Way(g, n)])
  }

  lemma FreeEntry(g: Tree, c: Config, m: Move)
    requires Valid(g) && Sound(g, c) && MoveOk(g, m) && Free(g, c.on, m)
    ensures m.to !in c.on && Top(g, c.on, m.to) == Way(g, m) && Accepts(g, c, Way(g, m))
    ensures Default(g, c.last, m.to, Base(g, c.on, m.to)) && EntryOk(g, c, m.to)
  {
    var v := Way(g, m);
    if m.to in c.on { OnUpward(g, c, m.to, v); }
    TopIs(g, c, m.to, v);
    CleanDefault(g, c.on, c.last, m.to);
    assert v in g.children[g.parent[v]];
  }

  lemma FreeStays(g: Tree, c: Config, m: Move, n: Move)
    requires Valid(g) && Sound(g, c) && MoveOk(g, m) && MoveOk(g, n)
    requires Free(g, c.on, m) && Free(g, c.on, n) && Apart(g, m, n)
    ensures Free(g, Open(g, c, m.to, None).0.on, n)
  {
    FreeEntry(g, c, m);
    EntryExact(g, c, m.to);
    var b := Base(g, c.on, m.to);
    BaseIsBase(g, c.on, m.to);
    var v := Way(g, n);
    var p := g.parent[v];
    forall x | x in EntrySet(g, c, m.to) && x != ROOT && g.parent[x] == p
      ensures x == Way(g, m)
    {
      NewParent(g, c, b, x);
    }
  }

  lemma {:induction false} FreeAll(g: Tree, c: Config, ms: seq<Move>)
    requires Valid(g) && Sound(g, c) && MovesOk(g, ms)
    requires forall i :: 0 <= i < |ms| ==> Free(g, c.on, ms[i])
    requires forall i, j :: 0 <= i < j < |ms| ==> Apart(g, ms[i], ms[j])
    ensures EntriesOk(g, c, ms)
    decreases |ms|
  {
    if ms != [] {
      var r := Open(g, c, ms[0].to, None).0;
      FreeEntry(g, c, ms[0]);
      EntryBoundary(g, c, ms[0].to);
      forall i | 0 < i < |ms| ensures Free(g, r.on, ms[i]) {
        FreeStays(g, c, ms[0], ms[i]);
      }
      FreeAll(g, r, ms[1..]);
    }
  }

  /** After the exits, the place of each legal move is free. */
  lemma FreeAfterExits(g: Tree, c: Config, ms: seq<Move>, i: nat)
    requires Valid(g) && NoEmptyClusters(g) && Sound(g, c) && MovesOk(g, ms) && Performable(g, c, ms) && i < |ms|
    requires Disjoint(g, ms) && Legal(g, ms[i].from, ms[i].to)
    requires Clean(g, LeaveAll(g, c, ms).on, ms[i].to)
    ensures Free(g, LeaveAll(g, c, ms).on, ms[i])
  {
    var e := LeaveAll(g, c, ms);
    var z := Left(g, ms[i]);
    var p := g.parent[z];
    LeaveAllExact(g, c, ms);
    LeftWasActive(g, c, ms, i);
    forall j | 0 <= j < |ms| ensures !Within(g, p, Left(g, ms[j])) {
      if j == i {
        ChildWithin(g, z, p);
      }
    }
    assert Spared(g, ms, p) && !Spared(g, ms, z);
    if g.kind[p] == Cluster {
      assert AtMostOne(g, c, p);
      assert z in g.children[p];
    } else {
      LegalReturns(g, ms[i]);
      ToChild(g, ms[i].to, p, z);
    }
    assert Way(g, ms[i]) in g.children[p];
  }

  lemma MovesApart(g: Tree, c: Config, ms: seq<Move>, i: nat, j: nat)
    requires Valid(g) && NoEmptyClusters(g) && Sound(g, c) && MovesOk(g, ms) && Performable(g, c, ms)
    requires i < |ms| && j < |ms| && i != j && Disjoint(g, ms)
    requires Legal(g, ms[i].from, ms[i].to) && Legal(g, ms[j].from, ms[j].to)
    ensures Apart(g, ms[i], ms[j])
  {
    var y, z := Left(g, ms[i]), Left(g, ms[j]);
    var p := g.parent[y];
    LeftWasActive(g, c, ms, i);
    LeftWasActive(g, c, ms, j);
    assert y != z;
    if g.parent[z] == p {
      assert AtMostOne(g, c, p);
      assert y in g.children[p] && z in g.children[p];
      LegalReturns(g, ms[i]);
      LegalReturns(g, ms[j]);
      ToChild(g, ms[i].to, p, y);
      ToChild(g, ms[j].to, p, z);
    }
  }

  /** Main result: legal transitions that leave pairwise disjoint subtrees and enter cleanly keep the
      configuration legal. */
  lemma DisjointStepSafe(g: Tree, c: Config, ms: seq<Move>)
    requires Valid(g) && NoEmptyClusters(g) && Complete(g, c) && MovesOk(g, ms) && Performable(g, c, ms)
    requires forall i :: 0 <= i < |ms| ==> Legal(g, ms[i].from, ms[i].to)
    requires Disjoint(g, ms)
    requires forall i :: 0 <= i < |ms| ==> Clean(g, LeaveAll(g, c, ms).on, ms[i].to)
    ensures Complete(g, Perform(g, c, ms))
  {
    LeaveAllExact(g, c, ms);
    forall i | 0 <= i < |ms| ensures Free(g, LeaveAll(g, c, ms).on, ms[i]) {
      FreeAfterExits(g, c, ms, i);
    }
    forall i, j | 0 <= i < j < |ms| ensures Apart(g, ms[i], ms[j]) {
      MovesApart(g, c, ms, i, j);
    }
    FreeAll(g, LeaveAll(g, c, ms), ms);
    StepBoundary(g, c, ms);
  }

  /** A target whose way in has no cluster under a set at all is clean in every configuration. */
  lemma StaticallyClean(g: Tree, on: set<nat>, t: nat)
    requires Valid(g) && IsState(g, t)
    requires Clean(g, {}, t)
    ensures Clean(g, on, t)
  {
  }
}
