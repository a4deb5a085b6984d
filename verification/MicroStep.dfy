/**
  A whole micro-step on configurations: first every performed transition leaves, then every target is
  entered.  Main result: from a legal configuration, with legal transitions, the step ends in a legal
  configuration exactly when each entry meets `EntryOk` at its turn.
 */
module MicroStep {
  import opened Wrappers
  import opened StateTree
  import opened Configuration
  import opened Leaving
  import opened NestedEntry
  import opened EntrySoundness

  datatype Move = Move(from: nat, to: nat)

  /** Sources and targets are never the root. */
  predicate MoveOk(g: Tree, m: Move)
    requires Valid(g)
  {
    0 < m.from < |g.kind| && 0 < m.to < |g.kind|
  }

  predicate MovesOk(g: Tree, ms: seq<Move>)
    requires Valid(g)
  {
    forall i :: 0 <= i < |ms| ==> MoveOk(g, ms[i])
  }

  /** The deepest common ancestor-or-self. */
  function Meet(g: Tree, a: nat, b: nat): (m: nat)
    requires Valid(g) && IsState(g, a) && IsState(g, b)
    ensures IsState(g, m) && Within(g, a, m) && Within(g, b, m)
    decreases g.rank[a]
  {
    if Within(g, b, a) then a
    else if a == ROOT then RootHoldsAll(g, b); ROOT
    else Meet(g, g.parent[a], b)
  }

  lemma {:induction false} MeetIsDeepest(g: Tree, a: nat, b: nat, x: nat)
    requires Valid(g) && IsState(g, a) && IsState(g, b) && Within(g, a, x) && Within(g, b, x)
    ensures Within(g, Meet(g, a, b), x)
    decreases g.rank[a]
  {
    if !Within(g, b, a) {
      RootHoldsAll(g, b);
      MeetIsDeepest(g, g.parent[a], b, x);
    }
  }

  predicate Legal(g: Tree, a: nat, b: nat)
    requires Valid(g) && IsState(g, a) && IsState(g, b)
  {
    g.kind[Meet(g, a, b)] != Set
  }

  // ---------------------------------------------------------------- the two phases

  /** Every move finds its source active at its turn. */
  predicate Performable(g: Tree, c: Config, ms: seq<Move>)
    requires Valid(g) && NoEmptyClusters(g) && Typed(g, c) && MovesOk(g, ms)
    decreases |ms|
  {
    ms == [] || (ms[0].from in c.on && Performable(g, Quit(g, c, ms[0].from, Some(ms[0].to)), ms[1..]))
  }

  function LeaveAll(g: Tree, c: Config, ms: seq<Move>): (r: Config)
    requires Valid(g) && NoEmptyClusters(g) && Typed(g, c) && MovesOk(g, ms)
    ensures Typed(g, r) && r.on <= c.on && r.child == c.child && r.last == c.last
    decreases |ms|
  {
    if ms == [] then c else LeaveAll(g, Quit(g, c, ms[0].from, Some(ms[0].to)), ms[1..])
  }

  function EnterAll(g: Tree, c: Config, ms: seq<Move>): (r: Config)
    requires Valid(g) && Typed(g, c) && MovesOk(g, ms)
    ensures Typed(g, r) && c.on <= r.on
    decreases |ms|
  {
    if ms == [] then c else EnterAll(g, Open(g, c, ms[0].to, None).0, ms[1..])
  }

  function Perform(g: Tree, c: Config, ms: seq<Move>): (r: Config)
    requires Valid(g) && NoEmptyClusters(g) && Typed(g, c) && MovesOk(g, ms)
    ensures Typed(g, r)
  {
    EnterAll(g, LeaveAll(g, c, ms), ms)
  }

  /** `EntryOk` for each target at its turn. */
  predicate EntriesOk(g: Tree, c: Config, ms: seq<Move>)
    requires Valid(g) && Typed(g, c) && MovesOk(g, ms)
    decreases |ms|
  {
    ms == [] || (EntryOk(g, c, ms[0].to) && EntriesOk(g, Open(g, c, ms[0].to, None).0, ms[1..]))
  }

  // ---------------------------------------------------------------- what is owed after the exits

  function Left(g: Tree, m: Move): (z: nat)
    requires Valid(g) && MoveOk(g, m)
    ensures 0 < z < |g.kind| && Within(g, m.from, z) && Below(g, m.to, g.parent[z])
  {
    ExitTopNotRoot(g, m.from, m.to);
    ExitTop(g, m.from, Some(m.to))
  }

  /** `p` is full except for children that some move still to be entered took out. */
  ghost predicate Due(g: Tree, c: Config, ms: seq<Move>, p: nat)
    requires Valid(g) && Shaped(g, c) && MovesOk(g, ms) && IsState(g, p)
  {
    && (g.kind[p] == Cluster && g.children[p] != [] ==>
          || (c.child[p].Some? && c.child[p].value in c.on)
          || exists i :: 0 <= i < |ms| && g.parent[Left(g, ms[i])] == p)
    && (g.kind[p] == Set ==> forall x :: x in g.children[p] ==>
          || x in c.on
          || exists i :: 0 <= i < |ms| && Left(g, ms[i]) == x)
  }

  ghost predicate AllDue(g: Tree, c: Config, ms: seq<Move>)
    requires Valid(g) && Shaped(g, c) && MovesOk(g, ms)
  {
    forall p {:trigger Due(g, c, ms, p)} :: p in c.on ==> Due(g, c, ms, p)
  }

  lemma LeaveOne(g: Tree, c: Config, done: seq<Move>, m: Move)
    requires Valid(g) && NoEmptyClusters(g) && Sound(g, c) && MovesOk(g, done) && MoveOk(g, m)
    requires ROOT in c.on && m.from in c.on && AllDue(g, c, done)
    ensures var r := Quit(g, c, m.from, Some(m.to));
            Sound(g, r) && ROOT in r.on && MovesOk(g, done + [m]) && AllDue(g, r, done + [m])
  {
    var r := Quit(g, c, m.from, Some(m.to));
    var z := Left(g, m);
    QuitExact(g, c, m.from, Some(m.to));
    WithinRootIsRoot(g, z);
    forall p | p in r.on ensures Due(g, r, done + [m], p) {
      assert Due(g, c, done, p);
      LeaveOneDue(g, c, r, done, m, p);
    }
  }

  lemma WithinRootIsRoot(g: Tree, z: nat)
    requires Valid(g) && IsState(g, z)
    ensures Within(g, ROOT, z) ==> z == ROOT
  {
  }

  lemma LeaveOneDue(g: Tree, c: Config, r: Config, done: seq<Move>, m: Move, p: nat)
    requires Valid(g) && Shaped(g, c) && MovesOk(g, done) && MoveOk(g, m) && Shaped(g, r)
    requires Cut(g, c, r, Left(g, m)) && p in r.on && Due(g, c, done, p)
    ensures MovesOk(g, done + [m]) && Due(g, r, done + [m], p)
  {
    var all := done + [m];
    var z := Left(g, m);
    assert all[|done|] == m;
    forall x: nat | IsState(g, x) && x != ROOT && g.parent[x] == p && Within(g, x, z) ensures x == z {
    }
    forall i | 0 <= i < |done| ensures Left(g, all[i]) == Left(g, done[i]) {
      assert all[i] == done[i];
    }
  }

  lemma {:induction false} LeaveAllDue(g: Tree, c: Config, done: seq<Move>, ms: seq<Move>)
    requires Valid(g) && NoEmptyClusters(g) && Sound(g, c) && MovesOk(g, done) && MovesOk(g, ms)
    requires ROOT in c.on && AllDue(g, c, done) && Performable(g, c, ms)
    ensures var r := LeaveAll(g, c, ms);
            Sound(g, r) && ROOT in r.on && MovesOk(g, done + ms) && AllDue(g, r, done + ms)
    decreases |ms|
  {
    hide Valid, NoEmptyClusters, AllDue, Quit;
    if ms == [] {
      assert done + ms == done;
    } else {
      LeaveOne(g, c, done, ms[0]);
      LeaveAllDue(g, Quit(g, c, ms[0].from, Some(ms[0].to)), done + [ms[0]], ms[1..]);
      assert done + [ms[0]] + ms[1..] == done + ms;
    }
  }

  // ---------------------------------------------------------------- the entries pay it back

  /** A legal move out of a set's child comes back under that child. */
  lemma LegalReturns(g: Tree, m: Move)
    requires Valid(g) && MoveOk(g, m) && Legal(g, m.from, m.to) && g.kind[g.parent[Left(g, m)]] == Set
    ensures Within(g, m.to, Left(g, m))
  {
    var z := Left(g, m);
    var p := g.parent[z];
    var n := Meet(g, m.from, m.to);
    WithinTrans(g, m.from, z, p);
    MeetIsDeepest(g, m.from, m.to, p);
    if n != p {
      var d := Toward(g, n, p);
      WithinTrans(g, m.from, n, d);
      WithinTrans(g, m.to, n, d);
      if d != z {
        SiblingsApart(g, m.from, d, z);
      }
    }
  }

  lemma EnterOneDue(g: Tree, c: Config, m: Move, rest: seq<Move>, p: nat)
    requires Valid(g) && Sound(g, c) && ROOT in c.on && MoveOk(g, m) && MovesOk(g, rest) && MovesOk(g, [m] + rest)
    requires Legal(g, m.from, m.to) && EntryOk(g, c, m.to)
    requires p in c.on && Due(g, c, [m] + rest, p)
    ensures Due(g, Open(g, c, m.to, None).0, rest, p)
  {
    hide Open, EntryOk, Legal, Broken, Left, Within;
    var all := [m] + rest;
    var r := Open(g, c, m.to, None).0;
    var z := Left(g, m);
    assert all[0] == m && forall i :: 0 < i < |all| ==> all[i] == rest[i - 1];
    EntryBoundary(g, c, m.to);
    if g.kind[p] == Cluster && g.children[p] != [] {
      if Full(g, c, p) {
        FullKept(g, c, m.to, p);
      } else if g.parent[z] == p {
        ClusterRefilled(g, c, m.to, p);
      } else {
        var i :| 0 <= i < |all| && g.parent[Left(g, all[i])] == p;
        assert rest[i - 1] == all[i];
      }
    }
    if g.kind[p] == Set {
      forall x | x in g.children[p] && x !in r.on
        ensures exists i :: 0 <= i < |rest| && Left(g, rest[i]) == x
      {
        if z == x {
          LegalReturns(g, m);
          SetChildBack(g, c, m.to, x);
        }
        var i :| 0 <= i < |all| && Left(g, all[i]) == x;
        assert rest[i - 1] == all[i];
      }
    }
  }

  lemma FullKept(g: Tree, c: Config, t: nat, p: nat)
    requires Valid(g) && Sound(g, c) && IsState(g, t) && t != ROOT && EntryOk(g, c, t) && p in c.on && Full(g, c, p)
    ensures Full(g, Open(g, c, t, None).0, p)
  {
    if t in c.on || (g.parent[t] in c.on && !Accepts(g, c, t)) {
      OpenRefused(g, c, t, None);
    } else {
      EntryKeepsSound(g, c, t);
    }
  }

  /** Entering below an active cluster that has lost its child gives it a new one. */
  lemma ClusterRefilled(g: Tree, c: Config, t: nat, p: nat)
    requires Valid(g) && Sound(g, c) && IsState(g, t) && EntryOk(g, c, t)
    requires p in c.on && g.kind[p] == Cluster && Below(g, t, p) && !Full(g, c, p)
    ensures Full(g, Open(g, c, t, None).0, p)
  {
    var v := Toward(g, t, p);
    assert v !in c.on by {
      assert AtMostOne(g, c, p);
    }
    if t in c.on {
      OnUpward(g, c, t, v);
    } else {
      TopIs(g, c, t, v);
      EntryKeepsSound(g, c, t);
      var b := Base(g, c.on, t);
      BaseIsBase(g, c.on, t);
      ChildSubtree(g, v, p);
      assert OnRoute(g, c.on, b, p);
    }
  }

  lemma SetChildBack(g: Tree, c: Config, t: nat, x: nat)
    requires Valid(g) && Sound(g, c) && IsState(g, t) && IsState(g, x) && x != ROOT && EntryOk(g, c, t)
    requires g.parent[x] in c.on && g.kind[g.parent[x]] == Set && Within(g, t, x)
    ensures x in Open(g, c, t, None).0.on
  {
    var r := Open(g, c, t, None).0;
    EntryBoundary(g, c, t);
    if t in c.on {
      OnUpward(g, c, t, x);
    } else if g.parent[t] in c.on && t != x {
      OnUpward(g, c, g.parent[t], x);
    } else {
      EntryExact(g, c, t);
      OnUpward(g, r, t, x);
    }
  }

  lemma EnterOneAllDue(g: Tree, c: Config, m: Move, rest: seq<Move>)
    requires Valid(g) && Sound(g, c) && ROOT in c.on && MoveOk(g, m) && MovesOk(g, rest) && MovesOk(g, [m] + rest)
    requires Legal(g, m.from, m.to) && EntryOk(g, c, m.to) && AllDue(g, c, [m] + rest)
    ensures AllDue(g, Open(g, c, m.to, None).0, rest)
  {
    var r := Open(g, c, m.to, None).0;
    var t := m.to;
    forall p | p in r.on ensures Due(g, r, rest, p) {
      if p in c.on {
        EnterOneDue(g, c, m, rest, p);
      } else {
        assert t !in c.on && !(g.parent[t] in c.on && !Accepts(g, c, t)) by {
          if t in c.on || (g.parent[t] in c.on && !Accepts(g, c, t)) { OpenRefused(g, c, t, None); }
        }
        EntryExact(g, c, t);
        EntryKeepsSound(g, c, t);
        assert Full(g, r, p);
      }
    }
  }

  lemma {:induction false} EnterAllDue(g: Tree, c: Config, ms: seq<Move>)
    requires Valid(g) && Sound(g, c) && ROOT in c.on && MovesOk(g, ms) && AllDue(g, c, ms) && EntriesOk(g, c, ms)
    requires forall i :: 0 <= i < |ms| ==> Legal(g, ms[i].from, ms[i].to)
    ensures Complete(g, EnterAll(g, c, ms))
    decreases |ms|
  {
    if ms == [] {
      forall p | p in c.on ensures Full(g, c, p) {
        assert Due(g, c, ms, p);
      }
    } else {
      assert [ms[0]] + ms[1..] == ms;
      EntryBoundary(g, c, ms[0].to);
      EnterOneAllDue(g, c, ms[0], ms[1..]);
      EnterAllDue(g, Open(g, c, ms[0].to, None).0, ms[1..]);
    }
  }

  /** Soundness through all the entries is decided entry by entry. */
  lemma {:induction false} EntriesBoundary(g: Tree, c: Config, ms: seq<Move>)
    requires Valid(g) && Sound(g, c) && MovesOk(g, ms)
    ensures Sound(g, EnterAll(g, c, ms)) <==> EntriesOk(g, c, ms)
    decreases |ms|
  {
    if ms != [] {
      var r := Open(g, c, ms[0].to, None).0;
      EntryBoundary(g, c, ms[0].to);
      if EntryOk(g, c, ms[0].to) {
        EntriesBoundary(g, r, ms[1..]);
      } else {
        BrokenForGood(g, r, ms[1..]);
      }
    }
  }

  lemma {:induction false} BrokenForGood(g: Tree, c: Config, ms: seq<Move>)
    requires Valid(g) && Typed(g, c) && Broken(g, c) && MovesOk(g, ms)
    ensures !Sound(g, EnterAll(g, c, ms))
    decreases |ms|
  {
    if ms == [] {
      BrokenIsUnsound(g, c);
    } else {
      BrokenStays(g, c, ms[0].to);
      BrokenForGood(g, Open(g, c, ms[0].to, None).0, ms[1..]);
    }
  }

  /** Main result: a micro-step of legal transitions takes a legal configuration to a legal one exactly
      when every entry is acceptable at its turn. */
  lemma StepBoundary(g: Tree, c: Config, ms: seq<Move>)
    requires Valid(g) && NoEmptyClusters(g) && Complete(g, c) && MovesOk(g, ms) && Performable(g, c, ms)
    requires forall i :: 0 <= i < |ms| ==> Legal(g, ms[i].from, ms[i].to)
    ensures Complete(g, Perform(g, c, ms)) <==> EntriesOk(g, LeaveAll(g, c, ms), ms)
  {
    var e := LeaveAll(g, c, ms);
    forall p | p in c.on ensures Due(g, c, [], p) {
      var child := c.child[p];
      assert Full(g, c, p);
    }
    LeaveAllDue(g, c, [], ms);
    assert [] + ms == ms;
    EntriesBoundary(g, e, ms);
    if EntriesOk(g, e, ms) {
      EnterAllDue(g, e, ms);
    }
  }
}
