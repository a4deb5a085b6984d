/**
  The loops of the transition algorithm over the queue, on snapshots of the machine: after each turn,
  what has been done is the specification applied to the part of the agenda already visited, and the
  marks of the other events in the step are untouched.
 */
module Phases {
  import opened Wrappers
  import opened StateTree
  import opened Configuration
  import opened Charts
  import opened Stranding

  datatype Snap = Snap(
    cfg: Config,
    queue: seq<nat>,
    taken: seq<Option<nat>>,
    performed: set<nat>,
    hits: set<nat>)

  ghost predicate SnapOk(h: Chart, s: Snap) {
    && ValidChart(h) && Typed(h.tree, s.cfg)
    && |s.taken| == |h.transition|
    && (forall e :: e in s.queue ==> IsEvent(h, e))
    && (forall i, j :: 0 <= i < j < |s.queue| ==> s.queue[i] != s.queue[j])
    && (forall t :: 0 <= t < |s.taken| && s.taken[t].Some? ==>
          IsEvent(h, s.taken[t].value) && t in Chain(h, s.taken[t].value))
  }

  /** `a` and `b` mark the same transitions for `f`. */
  ghost predicate SameFor(a: seq<Option<nat>>, b: seq<Option<nat>>, f: nat) {
    |a| == |b| && forall t :: 0 <= t < |a| ==> (a[t] == Some(f) <==> b[t] == Some(f))
  }

  lemma {:induction false} MarkedHas(taken: seq<Option<nat>>, e: nat, ids: seq<nat>, t: nat)
    requires (forall i :: 0 <= i < |ids| ==> ids[i] < |taken|) && t in ids && t < |taken| && taken[t] == Some(e)
    ensures t in Marked(taken, e, ids)
    decreases |ids|
  {
    if ids[0] != t {
      MarkedHas(taken, e, ids[1..], t);
    }
  }

  // ---------------------------------------------------------------- Phase I, one event

  ghost predicate ExitedSoFar(h: Chart, e: nat, j: nat, done: seq<nat>, s0: Snap, s: Snap)
    requires SnapOk(h, s0) && SnapOk(h, s) && IsEvent(h, e)
  {
    var ids := Chain(h, e);
    && j <= |ids| && TidsOk(h, ids) && s0.queue <= s.queue
    && (s.cfg, done) == Exits(h, s0.cfg, Marked(s0.taken, e, ids[..j]))
    && Marked(s.taken, e, ids[..j]) == done
    && (forall i :: j <= i < |ids| ==> (s.taken[ids[i]] == Some(e) <==> s0.taken[ids[i]] == Some(e)))
    && (forall f :: f in s0.queue && f != e ==> SameFor(s0.taken, s.taken, f))
    && (forall t: nat :: t in s.performed <==> t in s0.performed || t in done)
  }

  lemma ExitingStart(h: Chart, e: nat, s: Snap)
    requires SnapOk(h, s) && IsEvent(h, e)
    ensures ExitedSoFar(h, e, 0, [], s, s)
  {
    ChainOk(h, e);
    assert Chain(h, e)[..0] == [];
  }

  /** The place just visited carried no mark of `e`. */
  lemma ExitSkip(h: Chart, e: nat, j: nat, done: seq<nat>, s0: Snap, s: Snap)
    requires SnapOk(h, s0) && SnapOk(h, s) && IsEvent(h, e) && j < |Chain(h, e)|
    requires ExitedSoFar(h, e, j, done, s0, s) && s.taken[Chain(h, e)[j]] != Some(e)
    ensures ExitedSoFar(h, e, j + 1, done, s0, s)
  {
    hide Valid, EventsOk, TransitionsOk, Typed, Chain, Exits, Enters, Hits, Marked, Agenda;
    var ids := Chain(h, e);
    assert ids[..j + 1] == ids[..j] + [ids[j]];
    MarkedAppend(s0.taken, e, ids[..j], ids[j]);
    MarkedAppend(s.taken, e, ids[..j], ids[j]);
    assert Marked(s0.taken, e, ids[..j]) + [] == Marked(s0.taken, e, ids[..j]) && done + [] == done;
  }

  /** The place just visited was marked: it was performed, or dismissed because its source had gone. */
  lemma ExitStep(h: Chart, e: nat, j: nat, done: seq<nat>, s0: Snap, s: Snap, performs: bool, r: Snap)
    requires SnapOk(h, s0) && SnapOk(h, s) && SnapOk(h, r) && IsEvent(h, e) && e in s.queue && j < |Chain(h, e)|
    requires ExitedSoFar(h, e, j, done, s0, s) && s.taken[Chain(h, e)[j]] == Some(e)
    requires Exits(h, s.cfg, [Chain(h, e)[j]]) == (r.cfg, if performs then [Chain(h, e)[j]] else [])
    requires performs ==> Grown(s.queue, s.taken, r.queue, r.taken) && r.performed == s.performed + {Chain(h, e)[j]}
    requires !performs ==>
               r.queue == s.queue && r.taken == s.taken[Chain(h, e)[j] := None] && r.performed == s.performed
    ensures ExitedSoFar(h, e, j + 1, done + if performs then [Chain(h, e)[j]] else [], s0, r)
  {
    hide Valid, EventsOk, TransitionsOk, Typed, Chain, Exits, Enters, Hits, Marked, Agenda;
    var ids := Chain(h, e);
    var t := ids[j];
    ChainOk(h, e);
    var a, b := Marked(s0.taken, e, ids[..j]), Marked(r.taken, e, ids[..j]);
    assert ids[..j + 1] == ids[..j] + [t];
    MarkedAppend(s0.taken, e, ids[..j], t);
    MarkedAppend(r.taken, e, ids[..j], t);
    MarkedSame(s.taken, r.taken, e, ids[..j]);
    assert TidsOk(h, a) && TidsOk(h, [t]) && TidsOk(h, a + [t]);
    ExitsAppend(h, s0.cfg, a, [t]);
    forall f | f in s0.queue && f != e ensures SameFor(s0.taken, r.taken, f) {
      assert SameFor(s0.taken, s.taken, f);
    }
  }

  /** A mark about to be looked at has not been performed in this pass. */
  lemma FreshHere(h: Chart, e: nat, j: nat, done: seq<nat>, s0: Snap, s: Snap)
    requires SnapOk(h, s0) && SnapOk(h, s) && IsEvent(h, e) && j < |Chain(h, e)|
    requires ExitedSoFar(h, e, j, done, s0, s) && s.taken[Chain(h, e)[j]] == Some(e)
    requires forall t :: t in s0.performed ==> t < |s0.taken| && s0.taken[t] != Some(e)
    ensures Chain(h, e)[j] !in s.performed
  {
    ChainOk(h, e);
  }

  // ---------------------------------------------------------------- Phase I, whole step

  ghost predicate PhaseOne(h: Chart, i: nat, done: seq<nat>, s0: Snap, s: Snap)
    requires SnapOk(h, s0) && SnapOk(h, s)
  {
    && i <= |s0.queue| && s0.queue <= s.queue
    && (s.cfg, done) == Exits(h, s0.cfg, Agenda(h, s0.taken, s0.queue[..i]))
    && Agenda(h, s.taken, s0.queue[..i]) == done
    && (forall f :: f in s0.queue[i..] ==> SameFor(s0.taken, s.taken, f))
    && (forall t: nat :: t in s.performed <==> t < |s.taken| && s.taken[t].Some? && s.taken[t].value in s0.queue[..i])
  }

  lemma PhaseOneStart(h: Chart, s: Snap)
    requires SnapOk(h, s) && s.performed == {}
    ensures PhaseOne(h, 0, [], s, s)
  {
    assert s.queue[..0] == [];
  }

  lemma PhaseOneMarks(h: Chart, i: nat, done: seq<nat>, d: seq<nat>, s0: Snap, s: Snap, r: Snap)
    requires SnapOk(h, s0) && SnapOk(h, s) && SnapOk(h, r) && i < |s0.queue| && PhaseOne(h, i, done, s0, s)
    requires ExitedSoFar(h, s0.queue[i], |Chain(h, s0.queue[i])|, d, s, r)
    ensures forall f :: f in s0.queue && f != s0.queue[i] ==> SameFor(s.taken, r.taken, f)
    ensures Agenda(h, r.taken, s0.queue[..i]) == done
    ensures forall f :: f in s0.queue[i + 1..] ==> SameFor(s0.taken, r.taken, f)
  {
    forall f | f in s0.queue && f != s0.queue[i] ensures SameFor(s.taken, r.taken, f) {
      assert f in s.queue;
    }
    forall f | f in s0.queue[..i] ensures SameFor(s.taken, r.taken, f) {
    }
    forall f | f in s0.queue[i + 1..] ensures SameFor(s0.taken, r.taken, f) {
      assert f in s0.queue[i..] && f != s0.queue[i];
      assert SameFor(s.taken, r.taken, f);
    }
    AgendaSame(h, s.taken, r.taken, s0.queue[..i]);
  }

  lemma PhaseOneStep(h: Chart, i: nat, done: seq<nat>, d: seq<nat>, s0: Snap, s: Snap, r: Snap)
    requires SnapOk(h, s0) && SnapOk(h, s) && SnapOk(h, r) && i < |s0.queue| && PhaseOne(h, i, done, s0, s)
    requires ExitedSoFar(h, s0.queue[i], |Chain(h, s0.queue[i])|, d, s, r)
    ensures PhaseOne(h, i + 1, done + d, s0, r)
  {
    hide Valid, EventsOk, TransitionsOk, Typed, Chain, Exits, Enters, Hits, Marked, Agenda;
    var e := s0.queue[i];
    var ids := Chain(h, e);
    ChainOk(h, e);
    assert ids[..|ids|] == ids && s0.queue[..i + 1] == s0.queue[..i] + [e];
    PhaseOneMarks(h, i, done, d, s0, s, r);
    assert e in s0.queue[i..];
    MarkedSame(s0.taken, s.taken, e, ids);
    AgendaAppend(h, s0.taken, s0.queue[..i], e);
    AgendaAppend(h, r.taken, s0.queue[..i], e);
    ExitsAppend(h, s0.cfg, Agenda(h, s0.taken, s0.queue[..i]), Marked(s0.taken, e, ids));
    forall t: nat
      ensures t in r.performed <==> t < |r.taken| && r.taken[t].Some? && r.taken[t].value in s0.queue[..i + 1]
    {
      PhaseOnePerformed(h, i, done, d, s0, s, r, t);
    }
  }

  lemma PhaseOnePerformed(h: Chart, i: nat, done: seq<nat>, d: seq<nat>, s0: Snap, s: Snap, r: Snap, t: nat)
    requires SnapOk(h, s0) && SnapOk(h, s) && SnapOk(h, r) && i < |s0.queue| && PhaseOne(h, i, done, s0, s)
    requires ExitedSoFar(h, s0.queue[i], |Chain(h, s0.queue[i])|, d, s, r)
    ensures t in r.performed <==> t < |r.taken| && r.taken[t].Some? && r.taken[t].value in s0.queue[..i + 1]
  {
    hide Valid, EventsOk, TransitionsOk, Typed, Chain, Exits, Enters, Hits, Marked, Agenda;
    var e := s0.queue[i];
    var ids := Chain(h, e);
    ChainOk(h, e);
    assert ids[..|ids|] == ids && s0.queue[..i + 1] == s0.queue[..i] + [e];
    PhaseOneMarks(h, i, done, d, s0, s, r);
    assert e !in s0.queue[..i];
    if t in d {
      assert r.taken[t] == Some(e);
    }
    if t in s.performed {
      assert SameFor(s.taken, r.taken, s.taken[t].value);
    }
    if t < |r.taken| && r.taken[t].Some? && r.taken[t].value in s0.queue[..i + 1] {
      if r.taken[t].value == e {
        MarkedHas(r.taken, e, ids, t);
      } else {
        assert SameFor(s.taken, r.taken, r.taken[t].value);
      }
    }
  }

  // ---------------------------------------------------------------- Phase II, one event

  ghost predicate EnteredSoFar(h: Chart, e: nat, j: nat, s0: Snap, s: Snap)
    requires SnapOk(h, s0) && SnapOk(h, s) && IsEvent(h, e)
  {
    var ids := Chain(h, e);
    && j <= |ids| && TidsOk(h, ids) && s0.queue <= s.queue
    && s.cfg == Enters(h, s0.cfg, Marked(s0.taken, e, ids[..j]))
    && s.hits == s0.hits + Hits(h, s0.cfg, Marked(s0.taken, e, ids[..j]))
    && (forall i :: 0 <= i < j ==> s.taken[ids[i]] != Some(e))
    && (forall i :: j <= i < |ids| ==> (s.taken[ids[i]] == Some(e) <==> s0.taken[ids[i]] == Some(e)))
    && (forall f :: f in s0.queue && f != e ==> SameFor(s0.taken, s.taken, f))
    && (forall t: nat :: t in s.performed <==> t in s0.performed && t !in Marked(s0.taken, e, ids[..j]))
  }

  lemma EnteringStart(h: Chart, e: nat, s: Snap)
    requires SnapOk(h, s) && IsEvent(h, e)
    ensures EnteredSoFar(h, e, 0, s, s)
  {
    ChainOk(h, e);
    assert Chain(h, e)[..0] == [];
  }

  lemma EnterSkip(h: Chart, e: nat, j: nat, s0: Snap, s: Snap)
    requires SnapOk(h, s0) && SnapOk(h, s) && IsEvent(h, e) && j < |Chain(h, e)|
    requires EnteredSoFar(h, e, j, s0, s) && s.taken[Chain(h, e)[j]] != Some(e)
    ensures EnteredSoFar(h, e, j + 1, s0, s)
  {
    hide Valid, EventsOk, TransitionsOk, Typed, Chain, Exits, Enters, Hits, Marked, Agenda;
    var ids := Chain(h, e);
    assert ids[..j + 1] == ids[..j] + [ids[j]];
    MarkedAppend(s0.taken, e, ids[..j], ids[j]);
    assert Marked(s0.taken, e, ids[..j]) + [] == Marked(s0.taken, e, ids[..j]);
  }

  lemma EnterStep(h: Chart, e: nat, j: nat, s0: Snap, s: Snap, mid: seq<Option<nat>>, r: Snap)
    requires SnapOk(h, s0) && SnapOk(h, s) && SnapOk(h, r) && IsEvent(h, e) && e in s.queue && j < |Chain(h, e)|
    requires EnteredSoFar(h, e, j, s0, s) && s.taken[Chain(h, e)[j]] == Some(e) && TidsOk(h, [Chain(h, e)[j]])
    requires r.cfg == Enters(h, s.cfg, [Chain(h, e)[j]])
    requires r.hits == s.hits + Hits(h, s.cfg, [Chain(h, e)[j]])
    requires Grown(s.queue, s.taken, r.queue, mid) && r.taken == mid[Chain(h, e)[j] := None]
    requires r.performed == s.performed - {Chain(h, e)[j]}
    ensures EnteredSoFar(h, e, j + 1, s0, r)
  {
    hide Valid, EventsOk, TransitionsOk, Typed, Chain, Exits, Enters, Hits, Marked, Agenda;
    var ids := Chain(h, e);
    var t := ids[j];
    ChainOk(h, e);
    assert ids[..j + 1] == ids[..j] + [t];
    MarkedAppend(s0.taken, e, ids[..j], t);
    EnterStepMoves(h, Marked(s0.taken, e, ids[..j]), t, s0, s, r);
    forall f | f in s0.queue && f != e ensures SameFor(s0.taken, r.taken, f) {
      assert SameFor(s0.taken, s.taken, f);
    }
  }

  lemma EnterStepMoves(h: Chart, a: seq<nat>, t: nat, s0: Snap, s: Snap, r: Snap)
    requires SnapOk(h, s0) && SnapOk(h, s) && TidsOk(h, a) && IsTransition(h, t)
    requires s.cfg == Enters(h, s0.cfg, a) && s.hits == s0.hits + Hits(h, s0.cfg, a)
    requires TidsOk(h, [t]) && r.cfg == Enters(h, s.cfg, [t]) && r.hits == s.hits + Hits(h, s.cfg, [t])
    ensures TidsOk(h, a + [t])
    ensures r.cfg == Enters(h, s0.cfg, a + [t]) && r.hits == s0.hits + Hits(h, s0.cfg, a + [t])
  {
    hide Valid, EventsOk, TransitionsOk, Typed, Enters, Hits;
    EntersAppend(h, s0.cfg, a, [t]);
    HitsAppend(h, s0.cfg, a, [t]);
  }

  /** A mark about to be looked at was performed in Phase I. */
  lemma StillPerformed(h: Chart, e: nat, j: nat, s0: Snap, s: Snap)
    requires SnapOk(h, s0) && SnapOk(h, s) && IsEvent(h, e) && j < |Chain(h, e)|
    requires EnteredSoFar(h, e, j, s0, s) && s.taken[Chain(h, e)[j]] == Some(e)
    requires forall t :: 0 <= t < |s0.taken| && s0.taken[t] == Some(e) ==> t in s0.performed
    ensures Chain(h, e)[j] in s.performed
  {
    ChainOk(h, e);
  }

  // ---------------------------------------------------------------- Phase II, whole step

  ghost predicate PhaseTwo(h: Chart, q0: seq<nat>, i: nat, s0: Snap, s: Snap)
    requires SnapOk(h, s0) && SnapOk(h, s)
  {
    && i <= |q0| && q0 <= s0.queue <= s.queue
    && s.cfg == Enters(h, s0.cfg, Agenda(h, s0.taken, q0[..i]))
    && s.hits == s0.hits + Hits(h, s0.cfg, Agenda(h, s0.taken, q0[..i]))
    && (forall f :: f in q0[i..] ==> SameFor(s0.taken, s.taken, f))
    && (forall t :: 0 <= t < |s.taken| && s.taken[t].Some? ==> s.taken[t].value !in q0[..i])
    && (forall t: nat :: t in s.performed <==> t < |s.taken| && s.taken[t].Some? && s.taken[t].value in q0[i..])
  }

  lemma PhaseTwoStart(h: Chart, done: seq<nat>, s0: Snap, s: Snap)
    requires SnapOk(h, s0) && SnapOk(h, s) && PhaseOne(h, |s0.queue|, done, s0, s)
    ensures PhaseTwo(h, s0.queue, 0, s, s) && Agenda(h, s.taken, s0.queue) == done
    ensures (s.cfg, done) == Exits(h, s0.cfg, Agenda(h, s0.taken, s0.queue))
  {
    assert s0.queue[..|s0.queue|] == s0.queue && s0.queue[0..] == s0.queue && s0.queue[..0] == [];
  }

  lemma PhaseTwoStep(h: Chart, q0: seq<nat>, i: nat, s0: Snap, s: Snap, r: Snap)
    requires SnapOk(h, s0) && SnapOk(h, s) && SnapOk(h, r) && i < |q0| && PhaseTwo(h, q0, i, s0, s)
    requires IsEvent(h, q0[i]) && EnteredSoFar(h, q0[i], |Chain(h, q0[i])|, s, r)
    ensures PhaseTwo(h, q0, i + 1, s0, r)
  {
    hide Valid, EventsOk, TransitionsOk, Typed, Chain, Exits, Enters, Hits, Marked, Agenda;
    var e := q0[i];
    var ids := Chain(h, e);
    ChainOk(h, e);
    assert ids[..|ids|] == ids && q0[..i + 1] == q0[..i] + [e] && q0[i..] == [e] + q0[i + 1..];
    forall f | f in q0 && f != e ensures SameFor(s.taken, r.taken, f) {
      assert f in s.queue;
    }
    assert e in q0[i..];
    forall f | f in q0[i + 1..] ensures SameFor(s0.taken, r.taken, f) {
      assert f in q0[i..] && f in q0 && f != e;
      assert SameFor(s.taken, r.taken, f);
    }
    MarkedSame(s0.taken, s.taken, e, ids);
    AgendaAppend(h, s0.taken, q0[..i], e);
    EntersAppend(h, s0.cfg, Agenda(h, s0.taken, q0[..i]), Marked(s0.taken, e, ids));
    HitsAppend(h, s0.cfg, Agenda(h, s0.taken, q0[..i]), Marked(s0.taken, e, ids));
    forall f, t | f in q0[..i + 1] && 0 <= t < |r.taken| ensures r.taken[t] != Some(f) {
      if f != e {
        assert SameFor(s.taken, r.taken, f);
      }
    }
    forall t: nat
      ensures t in r.performed <==> t < |r.taken| && r.taken[t].Some? && r.taken[t].value in q0[i + 1..]
    {
      PhaseTwoPerformed(h, q0, i, s0, s, r, t);
    }
  }

  lemma PhaseTwoPerformed(h: Chart, q0: seq<nat>, i: nat, s0: Snap, s: Snap, r: Snap, t: nat)
    requires SnapOk(h, s0) && SnapOk(h, s) && SnapOk(h, r) && i < |q0| && PhaseTwo(h, q0, i, s0, s)
    requires IsEvent(h, q0[i]) && EnteredSoFar(h, q0[i], |Chain(h, q0[i])|, s, r)
    requires forall f :: f in q0 && f != q0[i] ==> SameFor(s.taken, r.taken, f)
    ensures t in r.performed <==> t < |r.taken| && r.taken[t].Some? && r.taken[t].value in q0[i + 1..]
  {
    hide Valid, EventsOk, TransitionsOk, Typed, Chain, Exits, Enters, Hits, Marked, Agenda;
    var e := q0[i];
    var ids := Chain(h, e);
    ChainOk(h, e);
    assert ids[..|ids|] == ids && q0[i..] == [e] + q0[i + 1..];
    assert e !in q0[i + 1..];
    if t in s.performed && t !in Marked(s.taken, e, ids) {
      if s.taken[t].value == e {
        MarkedHas(s.taken, e, ids, t);
      }
      assert SameFor(s.taken, r.taken, s.taken[t].value);
    }
    if t < |r.taken| && r.taken[t].Some? && r.taken[t].value in q0[i + 1..] {
      assert SameFor(s.taken, r.taken, r.taken[t].value);
      assert s.taken[t] == r.taken[t];
    }
  }

  lemma StepEnds(h: Chart, q0: seq<nat>, s0: Snap, s: Snap)
    requires SnapOk(h, s0) && SnapOk(h, s) && PhaseTwo(h, q0, |q0|, s0, s)
    ensures s.performed == {} && q0 <= s.queue && s.cfg == Enters(h, s0.cfg, Agenda(h, s0.taken, q0))
    ensures s.hits == s0.hits + Hits(h, s0.cfg, Agenda(h, s0.taken, q0))
    ensures forall t :: 0 <= t < |s.taken| && s.taken[t].Some? ==> s.taken[t].value !in s.queue[..|q0|]
    ensures forall f :: f in s.queue[|q0|..] ==> f !in q0
  {
    assert q0[..|q0|] == q0 && s.queue[..|q0|] == q0;
  }
}
