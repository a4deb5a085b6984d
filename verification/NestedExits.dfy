/**
  Why moves of one micro-step must leave disjoint subtrees: two legal transitions, performed in the order
  the engine allows, of which the second leaves a set around the first.
 */
module NestedExits {
  import opened Wrappers
  import opened StateTree
  import opened Configuration
  import opened Leaving
  import opened NestedEntry
  import opened MicroStep
  import opened DisjointMoves
  import opened Charts

  /** The root 0 holds the set 1 and the plain state 2; the set holds the cluster 3 of states 4 and 5. */
  function Example(): Tree {
    Tree([Cluster, Set, Plain, Cluster, Plain, Plain],
         [0, 0, 0, 1, 3, 3],
         [[1, 2], [3], [], [4, 5], [], []],
         [false, false, false, false, false, false],
         [0, 1, 1, 2, 3, 3])
  }

  lemma ChildrenOf(p: nat)
    requires p < 6
    ensures |Example().children| == 6
    ensures Example().children[p] == (if p == 0 then [1, 2] else if p == 1 then [3] else if p == 3 then [4, 5] else [])
    ensures |Example().kind| == 6
    ensures Example().kind[p] == (if p == 0 || p == 3 then Cluster else if p == 1 then Set else Plain)
  {
  }

  lemma ParentOf(s: nat)
    requires 0 < s < 6
    ensures |Example().parent| == |Example().rank| == 6
    ensures Example().parent[s] == (if s < 3 then 0 else if s == 3 then 1 else 3)
    ensures Example().rank[s] == (if s < 3 then 1 else if s == 3 then 2 else 3)
  {
  }

  lemma ExampleValid()
    ensures Valid(Example()) && NoEmptyClusters(Example())
  {
    var g := Example();
    assert |g.kind| == |g.parent| == |g.children| == |g.history| == |g.rank| == 6;
    forall s: nat | 0 < s < 6
      ensures g.parent[s] < 6 && g.kind[g.parent[s]] != Plain && g.rank[s] == g.rank[g.parent[s]] + 1
              && s in g.children[g.parent[s]] && g.rank[s] < 6
    {
      ParentOf(s);
      ChildrenOf(g.parent[s]);
    }
    forall p: nat, c: nat | p < 6 && c in g.children[p] ensures 0 < c < 6 && g.parent[c] == p {
      ChildrenOf(p);
    }
    forall p: nat | p < 6
      ensures forall i, j :: 0 <= i < j < |g.children[p]| ==> g.children[p][i] != g.children[p][j]
      ensures g.kind[p] == Plain ==> g.children[p] == []
      ensures g.kind[p] == Cluster ==> g.children[p] != []
    {
      ChildrenOf(p);
    }
  }

  /** State 4 is active. */
  function Start(): Config {
    var ac := [Some(1), None, None, Some(4), None, None];
    Config({0, 1, 3, 4}, ac, ac, [])
  }

  lemma StartComplete()
    requires Valid(Example())
    ensures Complete(Example(), Start())
  {
    hide Valid, Example;
    var g, c := Example(), Start();
    forall p: nat | p < 6
      ensures |g.kind| == |g.children| == 6 && (p in c.on ==> IsState(g, p))
      ensures c.child[p].Some? ==> c.child[p].value in g.children[p]
      ensures p in c.on && g.kind[p] == Cluster ==> c.child[p].Some?
    {
      ChildrenOf(p);
    }
    assert Shaped(g, c) && Typed(g, c);
    forall s: nat | s in c.on && s != ROOT ensures s < |g.parent| && g.parent[s] in c.on {
      ParentOf(s);
    }
    assert UpClosed(g, c);
    forall p | p in c.on ensures AtMostOne(g, c, p) && Full(g, c, p) {
      ChildrenOf(p);
    }
  }

  /** First 4 -> 5 inside the set, then 1 -> 2 out of it. */
  function TwoMoves(): seq<Move> {
    [Move(4, 5), Move(1, 2)]
  }

  lemma Ancestry()
    requires Valid(Example())
    ensures var g := Example();
            && Within(g, 5, 3) && Within(g, 5, 1) && Within(g, 3, 1) && Within(g, 4, 3) && Within(g, 4, 1)
            && !Within(g, 1, 4) && !Within(g, 0, 4) && !Within(g, 0, 1) && !Within(g, 5, 4) && !Within(g, 2, 1)
            && !Within(g, 5, 2) && Below(g, 2, 0) && Below(g, 5, 3)
  {
    var g := Example();
    assert Within(g, 3, 3) && Within(g, 1, 1) && Within(g, 0, 0);
    assert Within(g, 3, 1) && Within(g, 2, 0);
  }

  lemma Moving()
    requires Valid(Example())
    ensures var g := Example();
            && MovesOk(g, TwoMoves()) && Left(g, Move(4, 5)) == 4 && Left(g, Move(1, 2)) == 1
            && Legal(g, 4, 5) && Legal(g, 1, 2)
  {
    var g := Example();
    Ancestry();
    ChildrenOf(3);
    ChildrenOf(0);
    assert Meet(g, 4, 5) == 3 && Meet(g, 1, 2) == 0;
  }

  lemma FirstLeaves()
    requires Valid(Example()) && NoEmptyClusters(Example()) && Complete(Example(), Start())
    requires Left(Example(), Move(4, 5)) == 4
    ensures 1 in Quit(Example(), Start(), 4, Some(5)).on
  {
    hide Valid, Example, Quit, ExitRun;
    Ancestry();
    QuitExact(Example(), Start(), 4, Some(5));
  }

  lemma PerformTwo(g: Tree, c: Config, m: Move, n: Move)
    requires Valid(g) && NoEmptyClusters(g) && Typed(g, c) && MoveOk(g, m) && MoveOk(g, n)
    requires m.from in c.on && n.from in Quit(g, c, m.from, Some(m.to)).on
    ensures Performable(g, c, [m, n])
  {
    var d := Quit(g, c, m.from, Some(m.to));
    assert [m] + [n] == [m, n] && [n] + [] == [n];
    LeaveCons(g, d, n, []);
    LeaveCons(g, c, m, [n]);
  }

  lemma BothPerform()
    requires Valid(Example()) && NoEmptyClusters(Example()) && MovesOk(Example(), TwoMoves())
    requires Complete(Example(), Start()) && Left(Example(), Move(4, 5)) == 4
    ensures Performable(Example(), Start(), TwoMoves())
  {
    hide Valid, Example, Quit, Typed, NoEmptyClusters, Performable, Within;
    FirstLeaves();
    assert MoveOk(Example(), TwoMoves()[0]) && MoveOk(Example(), TwoMoves()[1]);
    PerformTwo(Example(), Start(), TwoMoves()[0], TwoMoves()[1]);
  }

  lemma EntryFails(e: Config)
    requires Valid(Example()) && Typed(Example(), e) && e.on == {0} && e.last == Start().last
    ensures !EntryOk(Example(), e, 5)
  {
    var g := Example();
    Ancestry();
    assert Top(g, e.on, 1) == 1 && Top(g, e.on, 3) == 1 && Top(g, e.on, 5) == 1;
    assert Base(g, e.on, 1) == 1 && Base(g, e.on, 3) == 1 && Base(g, e.on, 5) == 1;
    assert g.children[3] == [4, 5];
    assert Pick(g, e.last, 3) == 4;
  }

  /** Both transitions are legal and both find their source active, but the configuration they end in is not
      legal. */
  lemma NestedExitsBreak()
    ensures Valid(Example()) && NoEmptyClusters(Example()) && Complete(Example(), Start())
    ensures MovesOk(Example(), TwoMoves()) && Performable(Example(), Start(), TwoMoves())
    ensures forall i :: 0 <= i < 2 ==> Legal(Example(), TwoMoves()[i].from, TwoMoves()[i].to)
    ensures !Disjoint(Example(), TwoMoves())
    ensures !Complete(Example(), Perform(Example(), Start(), TwoMoves()))
  {
    var g := Example();
    var ms := TwoMoves();
    ExampleValid();
    StartComplete();
    Moving();
    BothPerform();
    Ancestry();
    assert Within(g, Left(g, ms[0]), Left(g, ms[1]));
    OnlyRootLeft();
    EntryFails(LeaveAll(g, Start(), ms));
    StepBoundary(g, Start(), ms);
  }

  lemma OnlyRootLeft()
    requires Valid(Example()) && NoEmptyClusters(Example()) && MovesOk(Example(), TwoMoves())
    requires Left(Example(), Move(4, 5)) == 4 && Left(Example(), Move(1, 2)) == 1 && Complete(Example(), Start())
    requires Performable(Example(), Start(), TwoMoves())
    ensures LeaveAll(Example(), Start(), TwoMoves()).on == {0}
  {
    hide Valid, Example, Performable, LeaveAll;
    var g, ms := Example(), TwoMoves();
    Ancestry();
    LeaveAllExact(g, Start(), ms);
    assert ms[0] == Move(4, 5) && ms[1] == Move(1, 2);
    assert Spared(g, ms, 0) && !Spared(g, ms, 1) && !Spared(g, ms, 3) && !Spared(g, ms, 4);
  }
}
