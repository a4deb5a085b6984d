/**
  When a state can be left disabled.  A transition performed in Phase I keeps its mark until Phase II has
  entered its target; if its source is active again by then, another event that can trigger it disables the
  source, although nothing is left to perform.  This module says exactly for which transitions of a micro-step
  that can happen, and what it adds up to over a run.
 */
module Stranding {
  import opened Wrappers
  import opened StateTree
  import opened Configuration
  import opened MicroStep
  import opened Charts
  import opened Accounts

  // ---------------------------------------------------------------- the test on one micro-step

  ghost predicate LiveOk(h: Chart, q: seq<nat>) {
    forall e :: e in q ==> IsEvent(h, e)
  }

  /** An event that can trigger `t` could be accepted while the events `q` are in progress. */
  ghost predicate Shared(h: Chart, t: nat, q: seq<nat>)
    requires EventsOk(h) && LiveOk(h, q)
  {
    exists e: nat :: IsEvent(h, e) && t in Chain(h, e) && Load(h, q, e) == 0
  }

  /** Of the performed transitions `ps`, those whose source is active again just after their target is entered
      in Phase II. */
  function Hits(h: Chart, c: Config, ps: seq<nat>): (r: set<nat>)
    requires ValidChart(h) && Typed(h.tree, c) && TidsOk(h, ps)
    ensures forall t :: t in r ==> t in ps && External(h, t)
    decreases |ps|
  {
    if ps == [] then {}
    else
      var tr := h.transition[ps[0]];
      if tr.to.None? then Hits(h, c, ps[1..])
      else
        var d := Open(h.tree, c, tr.to.value, None).0;
        (if tr.from in d.on then {ps[0]} else {}) + Hits(h, d, ps[1..])
  }

  lemma {:induction false} HitsAppend(h: Chart, c: Config, a: seq<nat>, b: seq<nat>)
    requires ValidChart(h) && Typed(h.tree, c) && TidsOk(h, a) && TidsOk(h, b) && TidsOk(h, a + b)
    ensures Hits(h, c, a + b) == Hits(h, c, a) + Hits(h, Enters(h, c, a), b)
    decreases |a|
  {
    if a == [] {
      assert a + b == b;
    } else {
      assert (a + b)[1..] == a[1..] + b;
      var to := h.transition[a[0]].to;
      HitsAppend(h, if to.None? then c else Open(h.tree, c, to.value, None).0, a[1..], b);
    }
  }

  /** The transition at place `i` is external and has its source active once the targets up to its own are
      entered. */
  ghost predicate HitAt(h: Chart, c: Config, ps: seq<nat>, i: nat)
    requires ValidChart(h) && Typed(h.tree, c) && TidsOk(h, ps)
  {
    i < |ps| && External(h, ps[i]) && h.transition[ps[i]].from in Enters(h, c, ps[..i + 1]).on
  }

  lemma HitAtPrefix(h: Chart, c: Config, ps: seq<nat>, n: nat, i: nat)
    requires ValidChart(h) && Typed(h.tree, c) && TidsOk(h, ps) && i < n <= |ps|
    ensures HitAt(h, c, ps[..n], i) <==> HitAt(h, c, ps, i)
  {
    assert ps[..n][..i + 1] == ps[..i + 1];
  }

  /** The same, place by place. */
  lemma {:induction false} HitsMeaning(h: Chart, c: Config, ps: seq<nat>, t: nat)
    requires ValidChart(h) && Typed(h.tree, c) && TidsOk(h, ps)
    ensures t in Hits(h, c, ps) <==> exists i: nat :: HitAt(h, c, ps, i) && ps[i] == t
    decreases |ps|
  {
    if ps != [] {
      var n := |ps| - 1;
      var x := ps[n];
      HitsSnoc(h, c, ps[..n], x);
      assert ps == ps[..n] + [x] && ps[..n + 1] == ps;
      HitsMeaning(h, c, ps[..n], t);
      hide Hits, Enters, ValidChart;
      if i: nat :| HitAt(h, c, ps[..n], i) && ps[..n][i] == t {
        HitAtPrefix(h, c, ps, n, i);
      }
      if i: nat :| HitAt(h, c, ps, i) && ps[i] == t && i != n {
        HitAtPrefix(h, c, ps, n, i);
        assert ps[..n][i] == t;
      }
      assert HitAt(h, c, ps, n) <==> External(h, x) && h.transition[x].from in Enters(h, c, ps).on;
    }
  }

  lemma HitsSnoc(h: Chart, c: Config, a: seq<nat>, x: nat)
    requires ValidChart(h) && Typed(h.tree, c) && TidsOk(h, a) && IsTransition(h, x) && TidsOk(h, a + [x])
    ensures Hits(h, c, a + [x])
            == Hits(h, c, a) + (if External(h, x) && h.transition[x].from in Enters(h, c, a + [x]).on then {x} else {})
  {
    HitsAppend(h, c, a, [x]);
    EntersAppend(h, c, a, [x]);
    OneHit(h, Enters(h, c, a), x);
  }

  lemma OneHit(h: Chart, c: Config, x: nat)
    requires ValidChart(h) && Typed(h.tree, c) && IsTransition(h, x)
    ensures Hits(h, c, [x]) == if External(h, x) && h.transition[x].from in Enters(h, c, [x]).on then {x} else {}
    ensures Enters(h, c, [x])
            == if External(h, x) then Open(h.tree, c, h.transition[x].to.value, None).0 else c
  {
    assert [x][1..] == [];
    hide Typed, Valid, EventsOk, TransitionsOk;
    assert forall d | Typed(h.tree, d) :: Hits(h, d, []) == {} && Enters(h, d, []) == d;
  }

  /** The sources of those transitions of `ts` that another event can still select. */
  ghost function Sources(h: Chart, ts: set<nat>, q: seq<nat>): set<nat>
    requires EventsOk(h) && LiveOk(h, q)
  {
    set t | t in ts && IsTransition(h, t) && Shared(h, t, q) :: h.transition[t].from
  }

  /** The states a micro-step can leave disabled: it is performing `ps` for the events `q`, the exits are done
      and `c` is the configuration. */
  ghost function Hazards(h: Chart, c: Config, ps: seq<nat>, q: seq<nat>): set<nat>
    requires ValidChart(h) && Typed(h.tree, c) && TidsOk(h, ps) && LiveOk(h, q)
  {
    Sources(h, Hits(h, c, ps), q)
  }

  /** What is exposed right now: the active sources of transitions whose mark Phase II has yet to clear. */
  ghost function Exposed(h: Chart, on: set<nat>, performed: set<nat>, q: seq<nat>): set<nat>
    requires EventsOk(h) && LiveOk(h, q)
  {
    var open := set t | t in performed && IsTransition(h, t) && External(h, t) && h.transition[t].from in on;
    Sources(h, open, q)
  }

  lemma ExposedGrows(h: Chart, a: set<nat>, b: set<nat>, performed: set<nat>, q: seq<nat>)
    requires EventsOk(h) && LiveOk(h, q) && a <= b
    ensures Exposed(h, a, performed, q) <= Exposed(h, b, performed, q)
  {
  }

  lemma SourcesGrow(h: Chart, a: set<nat>, b: set<nat>, q: seq<nat>)
    requires EventsOk(h) && LiveOk(h, q) && a <= b
    ensures Sources(h, a, q) <= Sources(h, b, q)
  {
  }

  /** A transition is cleared: it stays in the account when its source is active. */
  lemma ExposedClears(h: Chart, on: set<nat>, performed: set<nat>, t: nat, hits: set<nat>, q: seq<nat>)
    requires EventsOk(h) && LiveOk(h, q) && IsTransition(h, t)
    requires External(h, t) && h.transition[t].from in on ==> t in hits
    ensures Exposed(h, on, performed, q) <= Exposed(h, on, performed - {t}, q) + Sources(h, hits, q)
  {
  }

  // ---------------------------------------------------------------- what broadcasts do

  /** What broadcasts made by user code may do to queue and marks: queue events at the end, and mark
      transitions that carried no mark, for those new events only. */
  ghost predicate Grown(q0: seq<nat>, t0: seq<Option<nat>>, q1: seq<nat>, t1: seq<Option<nat>>) {
    && |t0| == |t1| && q0 <= q1
    && forall t {:trigger t1[t]} :: 0 <= t < |t0| ==>
         t1[t] == t0[t] || (t0[t] == None && t1[t].Some? && t1[t].value !in q0)
  }

  lemma GrownTrans(
    q0: seq<nat>, t0: seq<Option<nat>>, q1: seq<nat>, t1: seq<Option<nat>>, q2: seq<nat>, t2: seq<Option<nat>>)
    requires Grown(q0, t0, q1, t1) && Grown(q1, t1, q2, t2)
    ensures Grown(q0, t0, q2, t2)
  {
    forall t | 0 <= t < |t0|
      ensures t2[t] == t0[t] || (t0[t] == None && t2[t].Some? && t2[t].value !in q0)
    {
      assert t1[t] == t0[t] || t0[t] == None;
    }
  }

  /** `stuck` are the disabled states that no marked transition still to be performed leaves. */
  datatype View = View(
    queue: seq<nat>,
    taken: seq<Option<nat>>,
    on: set<nat>,
    stuck: set<nat>,
    deeds: seq<Deed>)

  /** From `a` to `b` the queue and the marks have grown; stuck states stay so unless they exit, and only
      exposed ones are new.  Further acts are on record, none of them of a transition. */
  ghost predicate Later(h: Chart, performed: set<nat>, q: seq<nat>, a: View, b: View)
    requires EventsOk(h) && LiveOk(h, q)
  {
    && a.stuck <= a.on && b.stuck <= b.on
    && Grown(a.queue, a.taken, b.queue, b.taken)
    && a.deeds <= b.deeds && Performed(b.deeds) == Performed(a.deeds)
    && a.stuck * b.on <= b.stuck <= a.stuck * b.on + Exposed(h, a.on + b.on, performed, q)
  }

  lemma LaterSame(h: Chart, performed: set<nat>, q: seq<nat>, a: View)
    requires EventsOk(h) && LiveOk(h, q) && a.stuck <= a.on
    ensures Later(h, performed, q, a, a)
  {
  }

  /** States come on or go off, but not both, between `a` and `c`. */
  lemma LaterTrans(h: Chart, performed: set<nat>, q: seq<nat>, a: View, b: View, c: View)
    requires EventsOk(h) && LiveOk(h, q)
    requires (a.on <= b.on <= c.on) || (c.on <= b.on <= a.on)
    requires Later(h, performed, q, a, b) && Later(h, performed, q, b, c)
    ensures Later(h, performed, q, a, c)
  {
    GrownTrans(a.queue, a.taken, b.queue, b.taken, c.queue, c.taken);
    hide Grown, Exposed;
    ExposedGrows(h, a.on + b.on, a.on + c.on, performed, q);
    ExposedGrows(h, b.on + c.on, a.on + c.on, performed, q);
  }

  /** An act goes on record. */
  lemma LaterDeed(h: Chart, performed: set<nat>, q: seq<nat>, a: View, b: View, d: Deed)
    requires EventsOk(h) && LiveOk(h, q) && Later(h, performed, q, a, b) && !d.act.Acting?
    ensures Later(h, performed, q, a, b.(deeds := b.deeds + [d]))
  {
    OneDeed(b.deeds, d);
  }

  // ---------------------------------------------------------------- user code that strands a state

  /** When the source `s` of the performed transition `t` is entered again, its enter action broadcasts `e`; at
      the time this is decided, user code has been called `calls` times and has seen `seen` entries and exits. */
  datatype Bait = Bait(s: nat, t: nat, e: nat, calls: nat, seen: nat)

  predicate Back(b: Bait, log: seq<Step>) {
    b.seen <= |log| && Entered(b.s) in log[b.seen..]
  }

  /** From then on nothing else is broadcast, and no other transition's condition holds. */
  ghost predicate Provokes(w: World, b: Bait) {
    && (forall x, p: Past :: p.calls >= b.calls ==> w.enterAction(x, p) == if x == b.s then [Call(b.e, true)] else [])
    && (forall x, p: Past :: p.calls >= b.calls ==> w.exitAction(x, p) == [])
    && (forall t, p: Past :: p.calls >= b.calls ==> w.action(t, p) == [])
    && (forall t, e, p: Past :: p.calls >= b.calls ==>
          (w.condition(t, e, p) <==> t == b.t && e == b.e && Back(b, p.log)))
  }

  /** The two behave alike as long as user code has been called less than `calls` times. */
  ghost predicate Agree(a: World, b: World, calls: nat) {
    && (forall x, p: Past :: p.calls < calls ==> a.enterAction(x, p) == b.enterAction(x, p))
    && (forall x, p: Past :: p.calls < calls ==> a.exitAction(x, p) == b.exitAction(x, p))
    && (forall t, p: Past :: p.calls < calls ==> a.action(t, p) == b.action(t, p))
    && (forall t, e, p: Past :: p.calls < calls ==> a.condition(t, e, p) == b.condition(t, e, p))
  }

  /** Whatever user code did so far, it may go on to provoke. */
  function Provoking(w: World, b: Bait): World {
    World(
      (x: nat, p: Past) =>
        if p.calls < b.calls then w.enterAction(x, p) else if x == b.s then [Call(b.e, true)] else [],
      (x: nat, p: Past) => if p.calls < b.calls then w.exitAction(x, p) else [],
      (t: nat, p: Past) => if p.calls < b.calls then w.action(t, p) else [],
      (t: nat, e: nat, p: Past) =>
        if p.calls < b.calls then w.condition(t, e, p) else t == b.t && e == b.e && Back(b, p.log))
  }

  lemma ProvokingIs(h: Chart, w: World, b: Bait)
    requires WorldOk(h, w) && IsEvent(h, b.e)
    ensures WorldOk(h, Provoking(w, b)) && Provokes(Provoking(w, b), b) && Agree(Provoking(w, b), w, b.calls)
  {
  }

  /** For every hazard there is user code that can make it come true. */
  ghost function Temptation(h: Chart, hits: set<nat>, q: seq<nat>, s: nat, calls: nat, seen: nat): (b: Bait)
    requires EventsOk(h) && LiveOk(h, q) && s in Sources(h, hits, q)
    ensures b.s == s && b.t in hits && IsTransition(h, b.t) && h.transition[b.t].from == s
    ensures IsEvent(h, b.e) && b.t in Chain(h, b.e) && Load(h, q, b.e) == 0
    ensures b.calls == calls && b.seen == seen
  {
    var t :| t in hits && IsTransition(h, t) && Shared(h, t, q) && h.transition[t].from == s;
    var e: nat :| IsEvent(h, e) && t in Chain(h, e) && Load(h, q, e) == 0;
    Bait(s, t, e, calls, seen)
  }

  // ---------------------------------------------------------------- runs

  /** One micro-step of a run: the events it handled, the transitions they had marked, those of them it performed,
      and everything that was done and broadcast meanwhile. */
  datatype Turn = Turn(queue: seq<nat>, agenda: seq<nat>, performed: seq<nat>, deeds: seq<Deed>)

  /** Everything done during a run, in order. */
  function Doings(trail: seq<Turn>): seq<Deed> {
    if trail == [] then [] else Doings(trail[..|trail| - 1]) + trail[|trail| - 1].deeds
  }

  lemma {:induction false} AgendaTriggered(h: Chart, taken: seq<Option<nat>>, q: seq<nat>)
    requires EventsOk(h) && |taken| == |h.transition| && LiveOk(h, q)
    ensures forall t :: t in Agenda(h, taken, q) ==> exists f :: f in q && t in Chain(h, f)
  {
    if q != [] {
      ChainOk(h, q[0]);
      AgendaTriggered(h, taken, q[1..]);
      forall t | t in Agenda(h, taken, q) ensures exists f :: f in q && t in Chain(h, f) {
        if t in Agenda(h, taken, q[1..]) {
          var f :| f in q[1..] && t in Chain(h, f);
          assert f in q;
        } else {
          assert t in Chain(h, q[0]);
        }
      }
    }
  }

  /** What a turn performs was triggered by one of its events, and is on record in that order. */
  ghost predicate TurnOk(h: Chart, u: Turn)
    requires EventsOk(h)
  {
    && LiveOk(h, u.queue) && TidsOk(h, u.agenda) && TidsOk(h, u.performed)
    && Performed(u.deeds) == u.performed
    && forall t :: t in u.performed ==> exists f :: f in u.queue && t in Chain(h, f)
  }

  ghost predicate TrailOk(h: Chart, trail: seq<Turn>)
    requires EventsOk(h)
  {
    forall i :: 0 <= i < |trail| ==> TurnOk(h, trail[i])
  }

  /** The moves of each turn. */
  ghost function Motion(h: Chart, trail: seq<Turn>): (steps: seq<seq<Move>>)
    requires ValidChart(h) && TrailOk(h, trail)
    ensures |steps| == |trail| && forall i :: 0 <= i < |steps| ==> steps[i] == Moves(h, trail[i].performed)
  {
    seq(|trail|, i requires 0 <= i < |trail| => Moves(h, trail[i].performed))
  }

  /** Where the turns lead from `c`. */
  ghost function After(h: Chart, c: Config, trail: seq<Turn>): (r: Config)
    requires ValidChart(h) && Typed(h.tree, c) && TrailOk(h, trail)
    ensures Typed(h.tree, r)
    decreases |trail|
  {
    if trail == [] then c
    else
      var n := |trail| - 1;
      Perform(h.tree, After(h, c, trail[..n]), Moves(h, trail[n].performed))
  }

  /** The states that can be stuck after the turns: those stuck before stay so until they exit, and every turn
      adds its hazards. */
  ghost function Remaining(h: Chart, c: Config, stuck: set<nat>, trail: seq<Turn>): set<nat>
    requires ValidChart(h) && Typed(h.tree, c) && TrailOk(h, trail)
    decreases |trail|
  {
    if trail == [] then stuck
    else
      var n := |trail| - 1;
      var left := LeaveAll(h.tree, After(h, c, trail[..n]), Moves(h, trail[n].performed));
      Remaining(h, c, stuck, trail[..n]) * left.on + Hazards(h, left, trail[n].performed, trail[n].queue)
  }

  lemma RemainingStep(h: Chart, c: Config, stuck: set<nat>, trail: seq<Turn>, u: Turn)
    requires ValidChart(h) && Typed(h.tree, c) && TrailOk(h, trail) && TurnOk(h, u)
    ensures TrailOk(h, trail + [u])
    ensures var d := After(h, c, trail); var left := LeaveAll(h.tree, d, Moves(h, u.performed));
            && After(h, c, trail + [u]) == Perform(h.tree, d, Moves(h, u.performed))
            && Remaining(h, c, stuck, trail + [u])
               == Remaining(h, c, stuck, trail) * left.on + Hazards(h, left, u.performed, u.queue)
  {
    assert (trail + [u])[..|trail|] == trail;
  }

  lemma {:induction false} AfterConcat(h: Chart, c: Config, xs: seq<Turn>, ys: seq<Turn>)
    requires ValidChart(h) && Typed(h.tree, c) && TrailOk(h, xs) && TrailOk(h, ys)
    ensures TrailOk(h, xs + ys) && After(h, c, xs + ys) == After(h, After(h, c, xs), ys)
    decreases |ys|
  {
    hide Valid, EventsOk, TransitionsOk, NoEmptyClusters, Typed, Perform, LeaveAll, Hazards, TurnOk;
    if ys == [] {
      assert xs + ys == xs;
    } else {
      var n := |ys| - 1;
      AfterConcat(h, c, xs, ys[..n]);
      assert (xs + ys)[..|xs + ys| - 1] == xs + ys[..n];
    }
  }

  /** What remains after two runs is what remains of the first after the second; and less stuck before means
      no more stuck after. */
  lemma {:induction false} RemainingConcat(h: Chart, c: Config, k: set<nat>, xs: seq<Turn>, l: set<nat>, ys: seq<Turn>)
    requires ValidChart(h) && Typed(h.tree, c) && TrailOk(h, xs) && TrailOk(h, ys)
    requires l <= Remaining(h, c, k, xs)
    ensures TrailOk(h, xs + ys) && Remaining(h, After(h, c, xs), l, ys) <= Remaining(h, c, k, xs + ys)
    decreases |ys|
  {
    hide Valid, EventsOk, TransitionsOk, NoEmptyClusters, Typed, Perform, LeaveAll, Hazards, TurnOk;
    AfterConcat(h, c, xs, ys);
    if ys == [] {
      assert xs + ys == xs;
    } else {
      var n := |ys| - 1;
      RemainingConcat(h, c, k, xs, l, ys[..n]);
      AfterConcat(h, c, xs, ys[..n]);
      assert (xs + ys)[..|xs + ys| - 1] == xs + ys[..n];
    }
  }

  /** Place `i` of a run: the turn performs exactly the transitions on its agenda that find their source active, its
      record has the states exited and entered in order and every broadcast they and the actions had to make, and
      its events and its agenda are what was queued and marked during the turn before. */
  ghost predicate LinkOk(h: Chart, w: World, c: Config, trail: seq<Turn>, i: nat)
    requires ValidChart(h) && Typed(h.tree, c) && TrailOk(h, trail) && i < |trail|
  {
    var u := trail[i];
    && u.performed == Exits(h, After(h, c, trail[..i]), u.agenda).1
    && After(h, c, trail[..i + 1]).log == After(h, c, trail[..i]).log + StepsOf(u.deeds)
    && (forall d :: d in u.deeds ==> Right(h, w, d))
    && (i > 0 ==> u.queue == Accepted(Offers(trail[i - 1].deeds)) && u.agenda == MarksOf(Offers(trail[i - 1].deeds)))
  }

  ghost predicate Linked(h: Chart, w: World, c: Config, trail: seq<Turn>)
    requires ValidChart(h) && Typed(h.tree, c) && TrailOk(h, trail)
  {
    forall i :: 0 <= i < |trail| ==> LinkOk(h, w, c, trail, i)
  }

  lemma LinkedMore(h: Chart, w: World, c: Config, trail: seq<Turn>, u: Turn)
    requires ValidChart(h) && Typed(h.tree, c) && TrailOk(h, trail) && TurnOk(h, u) && Linked(h, w, c, trail)
    requires var d := After(h, c, trail);
             && u.performed == Exits(h, d, u.agenda).1
             && Perform(h.tree, d, Moves(h, u.performed)).log == d.log + StepsOf(u.deeds)
    requires forall d :: d in u.deeds ==> Right(h, w, d)
    requires trail != [] ==>
               var said := Offers(trail[|trail| - 1].deeds); u.queue == Accepted(said) && u.agenda == MarksOf(said)
    ensures TrailOk(h, trail + [u]) && Linked(h, w, c, trail + [u])
  {
    hide After, Exits, Perform, ValidChart, EventsOk, Typed, TurnOk, Hazards, Remaining, LeaveAll, Right;
    var more := trail + [u];
    RemainingStep(h, c, {}, trail, u);
    assert more[..|trail|] == trail && more[..|trail| + 1] == more;
    forall i | 0 <= i < |trail| ensures LinkOk(h, w, c, more, i) {
      LinkPrefix(h, w, c, trail, u, i);
    }
    assert LinkOk(h, w, c, more, |trail|);
  }

  lemma LinkPrefix(h: Chart, w: World, c: Config, trail: seq<Turn>, u: Turn, i: nat)
    requires ValidChart(h) && Typed(h.tree, c) && TrailOk(h, trail) && TrailOk(h, trail + [u])
    requires i < |trail| && LinkOk(h, w, c, trail, i)
    ensures LinkOk(h, w, c, trail + [u], i)
  {
    hide After, Exits, ValidChart, EventsOk, Typed, TurnOk, Right;
    var more := trail + [u];
    assert more[..i] == trail[..i] && more[..i + 1] == trail[..i + 1];
  }

  /** No turn has a hazard. */
  ghost predicate Harmless(h: Chart, c: Config, trail: seq<Turn>)
    requires ValidChart(h) && Typed(h.tree, c) && TrailOk(h, trail)
  {
    forall i :: 0 <= i < |trail| ==>
      var left := LeaveAll(h.tree, After(h, c, trail[..i]), Moves(h, trail[i].performed));
      Hazards(h, left, trail[i].performed, trail[i].queue) == {}
  }

  lemma {:induction false} HarmlessStrandsNothing(h: Chart, c: Config, stuck: set<nat>, trail: seq<Turn>)
    requires ValidChart(h) && Typed(h.tree, c) && TrailOk(h, trail) && Harmless(h, c, trail)
    ensures Remaining(h, c, stuck, trail) <= stuck
    decreases |trail|
  {
    hide Valid, EventsOk, TransitionsOk, NoEmptyClusters, Typed, Perform, LeaveAll, Hazards, TurnOk;
    if trail != [] {
      var n := |trail| - 1;
      assert forall i :: 0 <= i < n ==> trail[..n][i] == trail[i] && trail[..n][..i] == trail[..i];
      HarmlessStrandsNothing(h, c, stuck, trail[..n]);
    }
  }

  /** No two events can trigger the same external transition: derived events add nothing to a base event with
      external transitions. */
  ghost predicate Flat(h: Chart)
    requires EventsOk(h)
  {
    forall e, f, t ::
      (&& 0 <= e < |h.base| && 0 <= f < |h.base| && IsTransition(h, t) && External(h, t)
       && t in Chain(h, e) && t in Chain(h, f)) ==> e == f
  }

  lemma FlatHasNoHazards(h: Chart, c: Config, u: Turn)
    requires ValidChart(h) && Typed(h.tree, c) && TurnOk(h, u) && Flat(h)
    ensures Hazards(h, c, u.performed, u.queue) == {}
  {
    forall t | t in Hits(h, c, u.performed) ensures !Shared(h, t, u.queue) {
      var f :| f in u.queue && t in Chain(h, f);
      LoadMember(h, u.queue, f, f);
    }
  }

  /** In a flat chart no run leaves a state disabled. */
  lemma FlatIsHarmless(h: Chart, c: Config, trail: seq<Turn>)
    requires ValidChart(h) && Typed(h.tree, c) && TrailOk(h, trail) && Flat(h)
    ensures Harmless(h, c, trail)
  {
    forall i | 0 <= i < |trail|
      ensures var left := LeaveAll(h.tree, After(h, c, trail[..i]), Moves(h, trail[i].performed));
              Hazards(h, left, trail[i].performed, trail[i].queue) == {}
    {
      var left := LeaveAll(h.tree, After(h, c, trail[..i]), Moves(h, trail[i].performed));
      FlatHasNoHazards(h, left, trail[i]);
    }
  }
}
