/**
  History: what a cluster remembers brings back exactly the states that were active, and what is
  forgotten brings back the first children.
 */
module History {
  import opened Wrappers
  import opened StateTree
  import opened Configuration
  import opened Entering
  import opened Leaving

  /** Every active cluster under `s` has a history and remembers its active child, which is the case unless it
      was cleared while active. */
  ghost predicate Remembering(g: Tree, c: Config, s: nat)
    requires Valid(g) && Shaped(g, c)
  {
    forall p: nat {:trigger c.last[p]} :: p in c.on && Within(g, p, s) && g.kind[p] == Cluster ==>
      g.history[p] && c.last[p] == c.child[p]
  }

  /** Every active cluster under `s` would pick its active child if it were entered afresh. */
  ghost predicate Recalls(g: Tree, c: Config, s: nat)
    requires Valid(g) && Shaped(g, c)
  {
    forall p {:trigger c.child[p]} :: p in c.on && Within(g, p, s) && g.kind[p] == Cluster && g.children[p] != [] ==>
      c.child[p] == Some(Pick(g, c.last, p))
  }

  ghost predicate FullUnder(g: Tree, c: Config, s: nat)
    requires Valid(g) && Shaped(g, c)
  {
    forall p {:trigger c.child[p]} :: p in c.on && Within(g, p, s) ==> Full(g, c, p)
  }

  lemma {:induction false} ClosureIsActive(g: Tree, c: Config, s: nat, y: nat)
    requires Valid(g) && Sound(g, c) && s in c.on && FullUnder(g, c, s) && Recalls(g, c, s)
    requires IsState(g, y) && Within(g, y, s)
    ensures Default(g, c.last, y, s) <==> y in c.on
    decreases g.rank[y]
  {
    if y != s {
      var p := g.parent[y];
      ClosureIsActive(g, c, s, p);
      assert y in g.children[p];
      if p in c.on {
        assert Full(g, c, p) && AtMostOne(g, c, p);
      }
    }
  }

  /** The states of the subtree are exactly its default closure just when every cluster recalls its child. */
  lemma ActiveIsClosure(g: Tree, c: Config, s: nat)
    requires Valid(g) && NoEmptyClusters(g) && Sound(g, c) && s in c.on && FullUnder(g, c, s)
    ensures Recalls(g, c, s) <==> forall y: nat :: y in DefaultSet(g, c.last, s) <==> y in c.on && Within(g, y, s)
  {
    if Recalls(g, c, s) {
      forall y: nat | IsState(g, y)
        ensures y in DefaultSet(g, c.last, s) <==> y in c.on && Within(g, y, s)
      {
        if Within(g, y, s) {
          ClosureIsActive(g, c, s, y);
        } else if Default(g, c.last, y, s) {
          DefaultWithin(g, c.last, y, s);
        }
      }
    } else {
      var p :| p in c.on && Within(g, p, s) && g.kind[p] == Cluster && g.children[p] != []
               && c.child[p] != Some(Pick(g, c.last, p));
      OtherChildPicked(g, c, s, p);
    }
  }

  lemma OtherChildPicked(g: Tree, c: Config, s: nat, p: nat)
    requires Valid(g) && NoEmptyClusters(g) && Sound(g, c) && s in c.on
    requires p in c.on && Within(g, p, s) && g.kind[p] == Cluster && c.child[p] != Some(Pick(g, c.last, p))
    ensures exists y: nat :: !(y in DefaultSet(g, c.last, s) <==> y in c.on && Within(g, y, s))
  {
    var y := Pick(g, c.last, p);
    assert AtMostOne(g, c, p) && g.parent[y] == p;
    if p in DefaultSet(g, c.last, s) {
      assert y in DefaultSet(g, c.last, s) && y !in c.on;
    }
  }

  /** `e` is `c` without the subtree of `s`, whatever its clusters remember. */
  ghost predicate Pruned(g: Tree, c: Config, e: Config, s: nat)
    requires Valid(g) && Shaped(g, c)
  {
    e.child == c.child && forall y :: y in e.on <==> y in c.on && !Within(g, y, s)
  }

  /** `d` remembers what `last` did, except that a cluster around `s` points to its active child. */
  ghost predicate Reminded(g: Tree, c: Config, last: seq<Option<nat>>, d: Config, s: nat)
    requires Valid(g) && Shaped(g, c) && IsState(g, s) && |last| == |g.kind|
  {
    && |d.last| == |g.kind|
    && forall q: nat {:trigger d.last[q]} :: q < |g.kind| ==>
         if s != ROOT && q == g.parent[s] && g.kind[q] == Cluster
         then d.last[q] == c.child[q]
         else d.last[q] == last[q]
  }

  /** The parent of an exited state takes it back; at most the parent's own memory moves, to the state. */
  lemma BackIn(g: Tree, c: Config, e: Config, s: nat) returns (d: Config)
    requires Valid(g) && Sound(g, c) && s in c.on && Typed(g, e) && Pruned(g, c, e, s)
    ensures d == e.(last := d.last) && Typed(g, d) && Fresh(g, d, s) && (s == ROOT || g.parent[s] in d.on)
    ensures Reminded(g, c, e.last, d, s)
    ensures Open(g, e, s, None).0 == Descend(g, d, s)
  {
    if s == ROOT {
      d := e;
    } else {
      var p := g.parent[s];
      ChildWithin(g, s, p);
      assert AtMostOne(g, c, p) && s in g.children[p];
      d := if g.kind[p] == Cluster then Record(e, p, s) else e;
      assert d.child == e.child;
    }
  }

  /** The closure of `s` does not depend on memories outside its subtree. */
  lemma SameClosure(g: Tree, a: seq<Option<nat>>, b: seq<Option<nat>>, s: nat)
    requires Valid(g) && LastOk(g, a) && LastOk(g, b) && IsState(g, s)
    requires forall q: nat :: IsState(g, q) && Within(g, q, s) ==> a[q] == b[q]
    ensures DefaultSet(g, a, s) == DefaultSet(g, b, s)
  {
    forall x: nat | IsState(g, x) ensures Default(g, a, x, s) <==> Default(g, b, x, s) {
      DefaultFrame(g, a, b, x, s);
    }
  }

  lemma ParentOutside(g: Tree, s: nat)
    requires Valid(g) && IsState(g, s)
    ensures s != ROOT ==> !Within(g, g.parent[s], s)
  {
    if s != ROOT {
      ChildWithin(g, s, g.parent[s]);
    }
  }

  /** Out and back in, with memories changed in between or not: the subtree goes, and its closure comes. */
  lemma BackInExact(g: Tree, c: Config, e: Config, s: nat) returns (d: Config)
    requires Valid(g) && Sound(g, c) && s in c.on && Typed(g, e) && Pruned(g, c, e, s)
    ensures d == e.(last := d.last) && Shaped(g, d)
    ensures Reminded(g, c, e.last, d, s)
    ensures Grew(g, d, Open(g, e, s, None).0, DefaultSet(g, e.last, s))
  {
    hide EnterRun;
    d := BackIn(g, c, e, s);
    DescendExact(g, d, s);
    ParentOutside(g, s);
    SameClosure(g, d.last, e.last, s);
  }

  lemma ThereAndBack(g: Tree, c: Config, s: nat) returns (e: Config, d: Config)
    requires Valid(g) && NoEmptyClusters(g) && Sound(g, c) && s in c.on
    ensures Shaped(g, e) && Shaped(g, d) && Cut(g, c, e, s) && d == e.(last := d.last)
    ensures Reminded(g, c, c.last, d, s)
    ensures Grew(g, d, Open(g, Quit(g, c, s, None), s, None).0, DefaultSet(g, c.last, s))
  {
    hide ExitRun;
    e := Quit(g, c, s, None);
    QuitExact(g, c, s, None);
    d := BackInExact(g, c, e, s);
  }

  /** Exiting a state and entering it again by default restores the same active states exactly when every
      active cluster of the subtree would pick its active child. */
  lemma RoundTripBoundary(g: Tree, c: Config, s: nat)
    requires Valid(g) && NoEmptyClusters(g) && Sound(g, c) && s in c.on && FullUnder(g, c, s)
    ensures Open(g, Quit(g, c, s, None), s, None).0.on == c.on <==> Recalls(g, c, s)
  {
    hide Open, Quit, FullUnder, Recalls;
    var e, d := ThereAndBack(g, c, s);
    ActiveIsClosure(g, c, s);
    forall y: nat | y in DefaultSet(g, c.last, s) ensures Within(g, y, s) {
      DefaultWithin(g, c.last, y, s);
    }
  }

  /** Deep history round trip: with histories everywhere and nothing cleared while active, the whole
      configuration comes back, memories included. */
  lemma HistoryRoundTrip(g: Tree, c: Config, s: nat)
    requires Valid(g) && NoEmptyClusters(g) && Sound(g, c) && s in c.on
    requires FullUnder(g, c, s) && Remembering(g, c, s)
    requires s != ROOT && g.kind[g.parent[s]] == Cluster ==> c.last[g.parent[s]] == c.child[g.parent[s]]
    ensures var r := Open(g, Quit(g, c, s, None), s, None).0;
            r.on == c.on && r.child == c.child && r.last == c.last
  {
    hide Open, Quit, FullUnder, Remembering, Recalls;
    var e, d := ThereAndBack(g, c, s);
    RememberingRecalls(g, c, s);
    ActiveIsClosure(g, c, s);
    SameMemory(g, c, d, Open(g, Quit(g, c, s, None), s, None).0, s);
  }

  lemma RememberingRecalls(g: Tree, c: Config, s: nat)
    requires Valid(g) && Sound(g, c) && FullUnder(g, c, s) && Remembering(g, c, s)
    ensures Recalls(g, c, s)
  {
    forall p | p in c.on && Within(g, p, s) && g.kind[p] == Cluster && g.children[p] != []
      ensures c.child[p] == Some(Pick(g, c.last, p))
    {
      assert Full(g, c, p);
    }
  }

  lemma SameMemory(g: Tree, c: Config, e: Config, r: Config, s: nat)
    requires Valid(g) && Sound(g, c) && s in c.on && FullUnder(g, c, s) && Remembering(g, c, s)
    requires Shaped(g, e) && Cut(g, c, e, s) && Grew(g, e, r, DefaultSet(g, c.last, s))
    requires forall y: nat :: y in DefaultSet(g, c.last, s) <==> y in c.on && Within(g, y, s)
    ensures r.on == c.on && r.child == c.child && r.last == c.last
  {
    forall q: nat | q < |g.kind| ensures r.child[q] == c.child[q] && r.last[q] == c.last[q] {
      if q in DefaultSet(g, c.last, s) && g.kind[q] == Cluster && g.children[q] != [] {
        assert Full(g, c, q);
        assert c.last[q] == c.child[q];
      }
    }
  }

  // ---------------------------------------------------------------- forgetting

  /** `x` is entered when `s` is entered and every cluster takes its first child. */
  predicate Frontal(g: Tree, x: nat, s: nat)
    requires Valid(g) && IsState(g, x)
    decreases g.rank[x]
  {
    || x == s
    || (&& x != ROOT
        && Frontal(g, g.parent[x], s)
        && (g.kind[g.parent[x]] == Set || (g.children[g.parent[x]] != [] && g.children[g.parent[x]][0] == x)))
  }

  /** No cluster under `s` would pick anything but its first child. */
  ghost predicate Forgetful(g: Tree, last: seq<Option<nat>>, s: nat)
    requires Valid(g) && LastOk(g, last)
  {
    forall p: nat {:trigger last[p]} ::
      IsState(g, p) && Within(g, p, s) && g.kind[p] == Cluster && g.children[p] != [] ==>
        !g.history[p] || last[p] == None || last[p] == Some(g.children[p][0])
  }

  lemma {:induction false} ForgetfulClosure(g: Tree, last: seq<Option<nat>>, x: nat, s: nat)
    requires Valid(g) && LastOk(g, last) && IsState(g, x) && IsState(g, s) && Forgetful(g, last, s)
    ensures Default(g, last, x, s) <==> Frontal(g, x, s)
    decreases g.rank[x]
  {
    if x != s && x != ROOT {
      var p := g.parent[x];
      ForgetfulClosure(g, last, p, s);
      assert x in g.children[p];
      if Default(g, last, p, s) {
        DefaultWithin(g, last, p, s);
      }
    }
  }

  /** Entering `s` afresh with nothing remembered gives the configuration of first children. */
  lemma ForgottenEntry(g: Tree, c: Config, s: nat)
    requires Valid(g) && Typed(g, c) && IsState(g, s) && Fresh(g, c, s) && (s == ROOT || g.parent[s] in c.on)
    requires Forgetful(g, c.last, s)
    ensures forall x: nat :: IsState(g, x) ==>
              (x in Descend(g, c, s).on <==> x in c.on || Frontal(g, x, s))
  {
    DescendExact(g, c, s);
    forall x: nat | IsState(g, x) ensures Default(g, c.last, x, s) <==> Frontal(g, x, s) {
      ForgetfulClosure(g, c.last, x, s);
    }
  }

  /** The memories `now` are those of `last`, except that every cluster within `s` is back at its first child. */
  ghost predicate Reset(g: Tree, last: seq<Option<nat>>, now: seq<Option<nat>>, s: nat)
    requires Valid(g) && NoEmptyClusters(g) && |last| == |now| == |g.kind|
  {
    && (forall p: nat :: IsState(g, p) && Within(g, p, s) && g.kind[p] == Cluster ==>
                           now[p] == Some(g.children[p][0]))
    && (forall p: nat :: IsState(g, p) && !(Within(g, p, s) && g.kind[p] == Cluster) ==> now[p] == last[p])
  }

  /** deep_clear of the subtree of `s` makes it forget everything. */
  lemma ClearedForgets(g: Tree, last: seq<Option<nat>>, now: seq<Option<nat>>, s: nat)
    requires Valid(g) && NoEmptyClusters(g) && LastOk(g, last) && IsState(g, s) && |now| == |g.kind|
    requires Reset(g, last, now, s)
    ensures LastOk(g, now) && Forgetful(g, now, s)
  {
    forall p | 0 <= p < |g.kind| && now[p].Some? ensures now[p].value in g.children[p] {
      assert last[p].Some? ==> last[p].value in g.children[p];
      assert g.kind[p] == Cluster ==> g.children[p][0] in g.children[p];
    }
  }

  /** Exiting a state, clearing it and entering it again gives what is left of the configuration, and the state
      with first children only. */
  lemma ClearedReentry(g: Tree, c: Config, now: seq<Option<nat>>, s: nat)
    requires Valid(g) && NoEmptyClusters(g) && Sound(g, c) && s in c.on && |now| == |g.kind|
    requires Reset(g, c.last, now, s)
    ensures var e := Quit(g, c, s, None).(last := now);
            && Typed(g, e)
            && forall x: nat :: IsState(g, x) ==>
                 (x in Open(g, e, s, None).0.on <==> (x in c.on && !Within(g, x, s)) || Frontal(g, x, s))
  {
    hide ExitRun, Quit, Open;
    QuitExact(g, c, s, None);
    ClearedForgets(g, c.last, now, s);
    var e := Quit(g, c, s, None).(last := now);
    var d := BackInExact(g, c, e, s);
    forall x: nat | IsState(g, x) ensures Default(g, now, x, s) <==> Frontal(g, x, s) {
      ForgetfulClosure(g, now, x, s);
    }
  }

  /** Every active cluster under `z`, but outside `s`, would pick its active child if it were entered afresh. */
  ghost predicate RecallsOutside(g: Tree, c: Config, z: nat, s: nat)
    requires Valid(g) && Shaped(g, c)
  {
    forall p {:trigger c.child[p]} ::
      (p in c.on && Within(g, p, z) && !Within(g, p, s) && g.kind[p] == Cluster && g.children[p] != []) ==>
        c.child[p] == Some(Pick(g, c.last, p))
  }

  lemma {:induction false} ClosureAround(
    g: Tree, c: Config, now: seq<Option<nat>>, z: nat, s: nat, x: nat)
    requires Valid(g) && NoEmptyClusters(g) && Sound(g, c) && z in c.on && FullUnder(g, c, z) && LastOk(g, now)
    requires IsState(g, s) && Within(g, s, z) && RecallsOutside(g, c, z, s)
    requires Reset(g, c.last, now, s)
    requires IsState(g, x) && Within(g, x, z)
    ensures Default(g, now, x, z) <==> if Within(g, x, s) then s in c.on && Frontal(g, x, s) else x in c.on
    decreases g.rank[x]
  {
    if x == z {
      if Within(g, z, s) {
        WithinRank(g, z, s);
        WithinRank(g, s, z);
      }
    } else {
      var p := g.parent[x];
      ClosureAround(g, c, now, z, s, p);
      assert x in g.children[p];
      ChildWithin(g, x, p);
      if Within(g, p, s) {
        if x == s {
          NotBothWays(g, x, p);
        }
        assert g.kind[p] == Cluster ==> Pick(g, now, p) == g.children[p][0];
      } else if p in c.on {
        assert Full(g, c, p) && AtMostOne(g, c, p);
      }
    }
  }

  lemma NotBothWays(g: Tree, x: nat, p: nat)
    requires Valid(g) && IsState(g, x) && x != ROOT && g.parent[x] == p
    ensures !Within(g, p, x)
  {
    ChildWithin(g, x, p);
  }

  lemma Elsewhere(g: Tree, now: seq<Option<nat>>, x: nat, z: nat, s: nat)
    requires Valid(g) && NoEmptyClusters(g) && LastOk(g, now) && IsState(g, x) && IsState(g, z) && !Within(g, x, z)
    requires IsState(g, s) && Within(g, s, z)
    ensures !Default(g, now, x, z) && !Within(g, x, s)
  {
    if Default(g, now, x, z) { DefaultWithin(g, now, x, z); }
    if Within(g, x, s) { WithinTrans(g, x, s, z); }
  }

  lemma ClearedStates(g: Tree, c: Config, now: seq<Option<nat>>, z: nat, s: nat)
    requires Valid(g) && NoEmptyClusters(g) && Sound(g, c) && z in c.on && FullUnder(g, c, z) && LastOk(g, now)
    requires IsState(g, s) && Within(g, s, z) && RecallsOutside(g, c, z, s) && Reset(g, c.last, now, s)
    ensures forall x: nat :: IsState(g, x) ==>
              ((x in c.on && !Within(g, x, z)) || x in DefaultSet(g, now, z)
               <==> if Within(g, x, s) then s in c.on && Frontal(g, x, s) else x in c.on)
  {
    forall x: nat | IsState(g, x)
      ensures (x in c.on && !Within(g, x, z)) || Default(g, now, x, z)
              <==> if Within(g, x, s) then s in c.on && Frontal(g, x, s) else x in c.on
    {
      if Within(g, x, z) {
        ClosureAround(g, c, now, z, s, x);
      } else {
        Elsewhere(g, now, x, z, s);
      }
    }
  }

  /** The clusters outside `s` have the child they had. */
  lemma ClearedChildren(g: Tree, c: Config, now: seq<Option<nat>>, z: nat, s: nat, d: Config, r: Config)
    requires Valid(g) && NoEmptyClusters(g) && Sound(g, c) && z in c.on && FullUnder(g, c, z) && LastOk(g, now)
    requires IsState(g, s) && Within(g, s, z) && RecallsOutside(g, c, z, s) && Reset(g, c.last, now, s)
    requires Shaped(g, d) && Reminded(g, c, now, d, z) && Grew(g, d, r, DefaultSet(g, now, z))
    ensures forall p: nat :: p in c.on && Within(g, p, z) && !Within(g, p, s) && g.kind[p] == Cluster ==>
              r.child[p] == c.child[p]
  {
    forall p: nat | p in c.on && Within(g, p, z) && !Within(g, p, s) && g.kind[p] == Cluster
      ensures r.child[p] == c.child[p]
    {
      ClosureAround(g, c, now, z, s, p);
      assert p in DefaultSet(g, now, z);
      if z != ROOT && p == g.parent[z] {
        ChildWithin(g, z, p);
      }
      assert d.last[p] == now[p] == c.last[p];
    }
  }

  /** Clearing a part of a state's subtree touches nothing else: after the state is exited, the part below `s` is
      cleared and the state is entered again, what lies outside comes back as it was, and inside `s`, if it was
      active, the first children are. */
  lemma ClearedInside(g: Tree, c: Config, now: seq<Option<nat>>, z: nat, s: nat)
    requires Valid(g) && NoEmptyClusters(g) && Sound(g, c) && z in c.on && FullUnder(g, c, z) && |now| == |g.kind|
    requires IsState(g, s) && Within(g, s, z) && RecallsOutside(g, c, z, s) && Reset(g, c.last, now, s)
    ensures var e := Quit(g, c, z, None).(last := now);
            && Typed(g, e)
            && var r := Open(g, e, z, None).0;
            && (forall x: nat :: IsState(g, x) ==>
                  (x in r.on <==> if Within(g, x, s) then s in c.on && Frontal(g, x, s) else x in c.on))
            && (forall p: nat :: p in c.on && Within(g, p, z) && !Within(g, p, s) && g.kind[p] == Cluster ==>
                  r.child[p] == c.child[p])
  {
    hide ExitRun, Quit, Open, FullUnder, RecallsOutside, Frontal, AtMostOne, UpClosed;
    QuitExact(g, c, z, None);
    ClearedForgets(g, c.last, now, s);
    var e := Quit(g, c, z, None).(last := now);
    var d := BackInExact(g, c, e, z);
    ClearedStates(g, c, now, z, s);
    ClearedChildren(g, c, now, z, s, d, Open(g, e, z, None).0);
    hide Within, DefaultSet, Reset, Reminded, NoEmptyClusters;
  }
}
