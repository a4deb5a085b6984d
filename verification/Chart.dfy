/**
  The rest of the tables the compiler emits: transitions and events, with event derivation.
 */
module Charts {
  import opened Wrappers
  import opened StateTree
  import opened Configuration
  import opened MicroStep

  /** A transition to a fixed state, or an internal one, which has no destination. */
  datatype Transition = Transition(from: nat, to: Option<nat>)

  /** `base` is an event's base event, `list` the transitions declared on the event itself.  `level` is
      not in the source: it records that base chains end. */
  datatype Chart = Chart(
    tree: Tree,
    transition: seq<Transition>,
    base: seq<Option<nat>>,
    list: seq<seq<nat>>,
    level: seq<nat>,
    enterEvent: seq<Option<nat>>,
    exitEvent: seq<Option<nat>>)

  predicate IsEvent(h: Chart, e: nat) {
    e < |h.base|
  }

  predicate IsTransition(h: Chart, t: nat) {
    t < |h.transition|
  }

  ghost predicate EventsOk(h: Chart) {
    && |h.base| == |h.list| == |h.level|
    && (forall e {:trigger h.base[e]} :: 0 <= e < |h.base| && h.base[e].Some? ==>
          IsEvent(h, h.base[e].value) && h.level[h.base[e].value] < h.level[e])
    && (forall e, i {:trigger h.list[e][i]} :: 0 <= e < |h.list| && 0 <= i < |h.list[e]| ==>
          IsTransition(h, h.list[e][i]))
    && (forall e, i, f, j {:trigger h.list[e][i], h.list[f][j]} ::
          (&& 0 <= e < |h.list| && 0 <= i < |h.list[e]| && 0 <= f < |h.list| && 0 <= j < |h.list[f]|
           && h.list[e][i] == h.list[f][j]) ==> e == f && i == j)
  }

  /** Sources and targets are states other than the root. */
  ghost predicate TransitionsOk(h: Chart)
    requires Valid(h.tree)
  {
    forall t {:trigger h.transition[t]} :: 0 <= t < |h.transition| ==>
      && 0 < h.transition[t].from < |h.tree.kind|
      && (h.transition[t].to.Some? ==> 0 < h.transition[t].to.value < |h.tree.kind|)
  }

  ghost predicate ValidChart(h: Chart) {
    && Valid(h.tree) && NoEmptyClusters(h.tree)
    && EventsOk(h) && TransitionsOk(h)
    && |h.enterEvent| == |h.exitEvent| == |h.tree.kind|
    && (forall s {:trigger h.enterEvent[s]} :: 0 <= s < |h.tree.kind| && h.enterEvent[s].Some? ==>
          IsEvent(h, h.enterEvent[s].value))
    && (forall s {:trigger h.exitEvent[s]} :: 0 <= s < |h.tree.kind| && h.exitEvent[s].Some? ==>
          IsEvent(h, h.exitEvent[s].value))
  }

  predicate External(h: Chart, t: nat)
    requires IsTransition(h, t)
  {
    h.transition[t].to.Some?
  }

  /** `x` is on the base chain of `e`. */
  predicate Derives(h: Chart, e: nat, x: nat)
    requires EventsOk(h) && IsEvent(h, e)
    decreases h.level[e]
  {
    e == x || (h.base[e].Some? && Derives(h, h.base[e].value, x))
  }

  /** The transitions an event can trigger: its own, then its base's, and so on. */
  function Chain(h: Chart, e: nat): seq<nat>
    requires EventsOk(h) && IsEvent(h, e)
    decreases h.level[e]
  {
    h.list[e] + if h.base[e].Some? then Chain(h, h.base[e].value) else []
  }

  lemma {:induction false} DerivesLevel(h: Chart, e: nat, x: nat)
    requires EventsOk(h) && IsEvent(h, e) && Derives(h, e, x)
    ensures IsEvent(h, x) && h.level[x] <= h.level[e]
    ensures h.level[x] == h.level[e] ==> x == e
    decreases h.level[e]
  {
    if e != x {
      DerivesLevel(h, h.base[e].value, x);
    }
  }

  lemma {:induction false} DerivesTrans(h: Chart, e: nat, x: nat, y: nat)
    requires EventsOk(h) && IsEvent(h, e) && Derives(h, e, x) && IsEvent(h, x) && Derives(h, x, y)
    ensures Derives(h, e, y)
    decreases h.level[e]
  {
    if e != x {
      DerivesTrans(h, h.base[e].value, x, y);
    }
  }

  lemma {:induction false} ChainMember(h: Chart, e: nat, i: nat) returns (x: nat, j: nat)
    requires EventsOk(h) && IsEvent(h, e) && i < |Chain(h, e)|
    ensures Derives(h, e, x) && IsEvent(h, x) && j < |h.list[x]| && h.list[x][j] == Chain(h, e)[i]
    ensures IsTransition(h, Chain(h, e)[i])
    ensures i < |h.list[e]| ==> x == e && j == i
    ensures i >= |h.list[e]| ==> h.level[x] < h.level[e]
    decreases h.level[e]
  {
    if i < |h.list[e]| {
      x, j := e, i;
    } else {
      x, j := ChainMember(h, h.base[e].value, i - |h.list[e]|);
      DerivesLevel(h, h.base[e].value, x);
    }
  }

  /** No transition occurs twice on a chain. */
  lemma {:induction false} ChainDistinct(h: Chart, e: nat, i: nat, k: nat)
    requires EventsOk(h) && IsEvent(h, e) && i < k < |Chain(h, e)|
    ensures Chain(h, e)[i] != Chain(h, e)[k]
    decreases h.level[e]
  {
    var n := |h.list[e]|;
    if n <= i {
      ChainDistinct(h, h.base[e].value, i - n, k - n);
    } else {
      var x, j := ChainMember(h, e, i);
      var y, l := ChainMember(h, e, k);
    }
  }

  lemma ChainOk(h: Chart, e: nat)
    requires EventsOk(h) && IsEvent(h, e)
    ensures forall i :: 0 <= i < |Chain(h, e)| ==> IsTransition(h, Chain(h, e)[i])
    ensures forall i, k :: 0 <= i < k < |Chain(h, e)| ==> Chain(h, e)[i] != Chain(h, e)[k]
  {
    forall i | 0 <= i < |Chain(h, e)| ensures IsTransition(h, Chain(h, e)[i]) {
      var x, j := ChainMember(h, e, i);
    }
    forall i, k | 0 <= i < k < |Chain(h, e)| ensures Chain(h, e)[i] != Chain(h, e)[k] {
      ChainDistinct(h, e, i, k);
    }
  }

  /** The base chain is what following base pointers reaches: the event itself, and with any event its base. */
  lemma {:induction false} DerivesClosed(h: Chart, e: nat, x: nat)
    requires EventsOk(h) && IsEvent(h, e)
    ensures Derives(h, e, e)
    ensures IsEvent(h, x) && Derives(h, e, x) && h.base[x].Some? ==> Derives(h, e, h.base[x].value)
    decreases h.level[e]
  {
    if h.base[e].Some? && e != x {
      DerivesClosed(h, h.base[e].value, x);
    }
  }

  /** And nothing else. */
  lemma {:induction false} DerivesOnly(h: Chart, e: nat, x: nat) returns (z: nat)
    requires EventsOk(h) && IsEvent(h, e) && Derives(h, e, x) && x != e
    ensures IsEvent(h, z) && Derives(h, e, z) && h.base[z] == Some(x)
    decreases h.level[e]
  {
    if h.base[e] == Some(x) {
      z := e;
    } else {
      z := DerivesOnly(h, h.base[e].value, x);
    }
  }

  /** The chain of each event on the base chain of `e` ends the chain of `e`. */
  lemma {:induction false} ChainSuffix(h: Chart, e: nat, x: nat) returns (n: nat)
    requires EventsOk(h) && IsEvent(h, e) && Derives(h, e, x) && IsEvent(h, x)
    ensures n <= |Chain(h, e)| && Chain(h, e)[n..] == Chain(h, x) && (x == e ==> n == 0)
    ensures x != e ==> n >= |h.list[e]|
    decreases h.level[e]
  {
    if x == e {
      n := 0;
    } else {
      var m := ChainSuffix(h, h.base[e].value, x);
      n := |h.list[e]| + m;
      assert Chain(h, e)[n..] == Chain(h, h.base[e].value)[m..];
    }
  }

  /** Every transition of every event on the base chain is on the chain of `e`. */
  lemma ChainHolds(h: Chart, e: nat, x: nat, j: nat) returns (i: nat)
    requires EventsOk(h) && IsEvent(h, e) && Derives(h, e, x) && IsEvent(h, x) && j < |h.list[x]|
    ensures i < |Chain(h, e)| && Chain(h, e)[i] == h.list[x][j]
  {
    hide Chain, EventsOk, Derives;
    var n := ChainSuffix(h, e, x);
    OwnFirst(h, x);
    InSuffix(Chain(h, e), Chain(h, x), n, j);
    i := n + j;
  }

  lemma OwnFirst(h: Chart, x: nat)
    requires EventsOk(h) && IsEvent(h, x)
    ensures h.list[x] <= Chain(h, x)
  {
  }

  lemma InSuffix(u: seq<nat>, v: seq<nat>, n: nat, i: nat)
    requires n <= |u| && u[n..] == v && i < |v|
    ensures n + i < |u| && u[n + i] == v[i]
  {
  }

  /** The transitions of an event come in order, and before those of its bases. */
  lemma ChainInOrder(h: Chart, e: nat, x: nat, y: nat, j: nat, k: nat) returns (a: nat, b: nat)
    requires EventsOk(h) && IsEvent(h, e) && Derives(h, e, x) && IsEvent(h, x) && Derives(h, x, y) && IsEvent(h, y)
    requires j < |h.list[x]| && k < |h.list[y]| && (x != y || j < k)
    ensures a < b < |Chain(h, e)| && Chain(h, e)[a] == h.list[x][j] && Chain(h, e)[b] == h.list[y][k]
  {
    hide Chain, EventsOk, Derives;
    var n := ChainSuffix(h, e, x);
    var m := ChainSuffix(h, x, y);
    OwnFirst(h, x);
    OwnFirst(h, y);
    a, b := n + j, n + (m + k);
    InSuffix(Chain(h, e), Chain(h, x), n, j);
    InSuffix(Chain(h, x), Chain(h, y), m, k);
    InSuffix(Chain(h, e), Chain(h, x), n, m + k);
  }

  // ---------------------------------------------------------------- broadcast accounting

  function Once(b: bool): nat {
    if b then 1 else 0
  }

  /** How many of the events in `q` have `x` on their base chain. */
  function Load(h: Chart, q: seq<nat>, x: nat): nat
    requires EventsOk(h) && forall e :: e in q ==> IsEvent(h, e)
  {
    if q == [] then 0 else Once(Derives(h, q[0], x)) + Load(h, q[1..], x)
  }

  lemma {:induction false} LoadAppend(h: Chart, q: seq<nat>, e: nat, x: nat)
    requires EventsOk(h) && (forall f :: f in q ==> IsEvent(h, f)) && IsEvent(h, e)
    ensures Load(h, q + [e], x) == Load(h, q, x) + Once(Derives(h, e, x))
  {
    if q == [] {
      assert q + [e] == [e] && [e][1..] == [];
    } else {
      LoadAppend(h, q[1..], e, x);
      assert (q + [e])[1..] == q[1..] + [e];
    }
  }

  lemma {:induction false} LoadPrefix(h: Chart, p: seq<nat>, q: seq<nat>, x: nat)
    requires EventsOk(h) && (forall f :: f in q ==> IsEvent(h, f)) && p <= q
    ensures (forall f :: f in p ==> IsEvent(h, f)) && Load(h, p, x) <= Load(h, q, x)
    decreases |p|
  {
    if p != [] {
      LoadPrefix(h, p[1..], q[1..], x);
    }
  }

  lemma {:induction false} LoadMember(h: Chart, q: seq<nat>, e: nat, x: nat)
    requires EventsOk(h) && (forall f :: f in q ==> IsEvent(h, f)) && e in q && Derives(h, e, x)
    ensures Load(h, q, x) > 0
  {
    if q[0] != e {
      LoadMember(h, q[1..], e, x);
    }
  }

  // ---------------------------------------------------------------- user code

  /** One broadcast made by user code; `pre` is the outcome of the event's precondition, if any. */
  datatype Call = Call(event: nat, pre: bool)

  /** What user code can have seen: how often it was called or a transition looked for, and every state
      entered or exited, in order. */
  datatype Past = Past(calls: nat, log: seq<Step>)

  /** User code the engine calls: what an action broadcasts and what a condition answers may depend on
      everything that happened before. */
  datatype World = World(
    enterAction: (nat, Past) -> seq<Call>,
    exitAction: (nat, Past) -> seq<Call>,
    action: (nat, Past) -> seq<Call>,
    condition: (nat, nat, Past) -> bool)

  ghost predicate CallsOk(h: Chart, calls: seq<Call>) {
    forall i :: 0 <= i < |calls| ==> IsEvent(h, calls[i].event)
  }

  ghost predicate WorldOk(h: Chart, w: World) {
    && (forall s, k :: CallsOk(h, w.enterAction(s, k)))
    && (forall s, k :: CallsOk(h, w.exitAction(s, k)))
    && (forall t, k :: CallsOk(h, w.action(t, k)))
  }

  // ---------------------------------------------------------------- selection

  datatype Activity = Inactive | Active | Disabled

  /** The transition at place `i` of the chain of `e` could fire: its source is plainly active and its
      condition holds. */
  predicate Enabled(h: Chart, w: World, state: seq<Activity>, e: nat, k: Past, i: nat)
    requires ValidChart(h) && IsEvent(h, e) && |state| == |h.tree.kind|
    requires i < |Chain(h, e)| && IsTransition(h, Chain(h, e)[i])
  {
    var t := Chain(h, e)[i];
    state[h.transition[t].from] == Active && w.condition(t, e, k)
  }

  /** It fires unless an earlier external transition on the chain takes the same source. */
  ghost predicate Selected(h: Chart, w: World, state: seq<Activity>, e: nat, k: Past, i: nat)
    requires ValidChart(h) && IsEvent(h, e) && |state| == |h.tree.kind|
  {
    var ids := Chain(h, e);
    && i < |ids|
    && (forall j :: 0 <= j < |ids| ==> IsTransition(h, ids[j]))
    && Enabled(h, w, state, e, k, i)
    && forall j :: 0 <= j < i && External(h, ids[j]) && Enabled(h, w, state, e, k, j) ==>
         h.transition[ids[j]].from != h.transition[ids[i]].from
  }

  // ---------------------------------------------------------------- a micro-step on transitions

  /** The transitions of `ids` marked by `e`, in order. */
  function Marked(taken: seq<Option<nat>>, e: nat, ids: seq<nat>): (r: seq<nat>)
    requires forall i :: 0 <= i < |ids| ==> ids[i] < |taken|
    ensures forall i :: 0 <= i < |r| ==> r[i] in ids && r[i] < |taken| && taken[r[i]] == Some(e)
  {
    if ids == [] then []
    else (if taken[ids[0]] == Some(e) then [ids[0]] else []) + Marked(taken, e, ids[1..])
  }

  ghost predicate TidsOk(h: Chart, ts: seq<nat>) {
    forall i :: 0 <= i < |ts| ==> IsTransition(h, ts[i])
  }

  /** All marked transitions of the events `q`, event by event. */
  function Agenda(h: Chart, taken: seq<Option<nat>>, q: seq<nat>): (r: seq<nat>)
    requires EventsOk(h) && |taken| == |h.transition| && forall e :: e in q ==> IsEvent(h, e)
    ensures TidsOk(h, r)
  {
    if q == [] then []
    else
      ChainOk(h, q[0]);
      var now := Marked(taken, q[0], Chain(h, q[0]));
      assert forall i :: 0 <= i < |now| ==> IsTransition(h, now[i]);
      now + Agenda(h, taken, q[1..])
  }

  /** Phase I: of the marked transitions `ts`, those whose source is still active are performed; the
      external ones exit it. */
  function Exits(h: Chart, c: Config, ts: seq<nat>): (r: (Config, seq<nat>))
    requires ValidChart(h) && Typed(h.tree, c) && TidsOk(h, ts)
    ensures Typed(h.tree, r.0) && TidsOk(h, r.1) && (forall t :: t in r.1 ==> t in ts) && r.0.on <= c.on
    decreases |ts|
  {
    if ts == [] then (c, [])
    else
      var tr := h.transition[ts[0]];
      if tr.from !in c.on then Exits(h, c, ts[1..])
      else
        var d := if tr.to.None? then c else Quit(h.tree, c, tr.from, tr.to);
        var (e, ps) := Exits(h, d, ts[1..]);
        (e, [ts[0]] + ps)
  }

  /** Phase II: the performed external transitions enter their targets. */
  function Enters(h: Chart, c: Config, ps: seq<nat>): (r: Config)
    requires ValidChart(h) && Typed(h.tree, c) && TidsOk(h, ps)
    ensures Typed(h.tree, r) && c.on <= r.on
    decreases |ps|
  {
    if ps == [] then c
    else
      var to := h.transition[ps[0]].to;
      Enters(h, if to.None? then c else Open(h.tree, c, to.value, None).0, ps[1..])
  }

  /** The moves of the external transitions among `ps`. */
  function Moves(h: Chart, ps: seq<nat>): (ms: seq<Move>)
    requires ValidChart(h) && TidsOk(h, ps)
    ensures MovesOk(h.tree, ms)
    decreases |ps|
  {
    if ps == [] then []
    else
      var tr := h.transition[ps[0]];
      (if tr.to.Some? then [Move(tr.from, tr.to.value)] else []) + Moves(h, ps[1..])
  }

  /** Each move comes from one of the transitions. */
  lemma {:induction false} MoveSource(h: Chart, ps: seq<nat>, i: nat) returns (t: nat)
    requires ValidChart(h) && TidsOk(h, ps) && i < |Moves(h, ps)|
    ensures t in ps && IsTransition(h, t) && External(h, t)
    ensures Moves(h, ps)[i] == Move(h.transition[t].from, h.transition[t].to.value)
    decreases |ps|
  {
    var tr := h.transition[ps[0]];
    if tr.to.Some? && i == 0 {
      t := ps[0];
    } else {
      t := MoveSource(h, ps[1..], if tr.to.Some? then i - 1 else i);
    }
  }

  lemma MovesCons(h: Chart, t: nat, ps: seq<nat>)
    requires ValidChart(h) && TidsOk(h, ps) && IsTransition(h, t) && TidsOk(h, [t] + ps)
    ensures Moves(h, [t] + ps) ==
            if External(h, t) then [Move(h.transition[t].from, h.transition[t].to.value)] + Moves(h, ps)
            else Moves(h, ps)
  {
    assert ([t] + ps)[1..] == ps;
  }

  lemma LeaveCons(g: Tree, c: Config, m: Move, ms: seq<Move>)
    requires Valid(g) && NoEmptyClusters(g) && Typed(g, c) && MoveOk(g, m) && MovesOk(g, ms) && MovesOk(g, [m] + ms)
    requires m.from in c.on && Performable(g, Quit(g, c, m.from, Some(m.to)), ms)
    ensures Performable(g, c, [m] + ms)
    ensures LeaveAll(g, c, [m] + ms) == LeaveAll(g, Quit(g, c, m.from, Some(m.to)), ms)
  {
    assert ([m] + ms)[1..] == ms;
  }

  /** Phase I is `LeaveAll`, and every move finds its source active. */
  lemma {:induction false} ExitsAreMoves(h: Chart, c: Config, ts: seq<nat>)
    requires ValidChart(h) && Typed(h.tree, c) && TidsOk(h, ts)
    ensures Performable(h.tree, c, Moves(h, Exits(h, c, ts).1))
    ensures Exits(h, c, ts).0 == LeaveAll(h.tree, c, Moves(h, Exits(h, c, ts).1))
    decreases |ts|
  {
    if ts != [] {
      var tr := h.transition[ts[0]];
      if tr.from !in c.on {
        ExitsAreMoves(h, c, ts[1..]);
      } else {
        var d := if tr.to.None? then c else Quit(h.tree, c, tr.from, tr.to);
        ExitsAreMoves(h, d, ts[1..]);
        var ps := Exits(h, d, ts[1..]).1;
        MovesCons(h, ts[0], ps);
        if tr.to.Some? {
          LeaveCons(h.tree, c, Move(tr.from, tr.to.value), Moves(h, ps));
        }
      }
    }
  }

  lemma {:induction false} EntersAreMoves(h: Chart, c: Config, ps: seq<nat>)
    requires ValidChart(h) && Typed(h.tree, c) && TidsOk(h, ps)
    ensures Enters(h, c, ps) == EnterAll(h.tree, c, Moves(h, ps))
    decreases |ps|
  {
    if ps != [] {
      var tr := h.transition[ps[0]];
      EntersAreMoves(h, if tr.to.None? then c else Open(h.tree, c, tr.to.value, None).0, ps[1..]);
      var ms := Moves(h, ps);
      if tr.to.Some? {
        assert ms[1..] == Moves(h, ps[1..]);
      } else {
        assert ms == Moves(h, ps[1..]);
      }
    }
  }

  lemma {:induction false} ExitsAppend(h: Chart, c: Config, a: seq<nat>, b: seq<nat>)
    requires ValidChart(h) && Typed(h.tree, c) && TidsOk(h, a) && TidsOk(h, b) && TidsOk(h, a + b)
    ensures var (d, ps) := Exits(h, c, a); var (e, qs) := Exits(h, d, b);
            Exits(h, c, a + b) == (e, ps + qs)
    decreases |a|
  {
    if a == [] {
      assert a + b == b;
      assert [] + Exits(h, c, b).1 == Exits(h, c, b).1;
    } else {
      assert (a + b)[1..] == a[1..] + b;
      var tr := h.transition[a[0]];
      var d := if tr.from !in c.on || tr.to.None? then c else Quit(h.tree, c, tr.from, tr.to);
      ExitsAppend(h, d, a[1..], b);
      var (d1, ps) := Exits(h, d, a[1..]);
      var qs := Exits(h, d1, b).1;
      assert [a[0]] + (ps + qs) == ([a[0]] + ps) + qs;
    }
  }

  lemma ExitsOne(h: Chart, c: Config, t: nat)
    requires ValidChart(h) && Typed(h.tree, c) && IsTransition(h, t)
    ensures Exits(h, c, [t]) ==
            var tr := h.transition[t];
            if tr.from !in c.on then (c, []) else (if tr.to.None? then c else Quit(h.tree, c, tr.from, tr.to), [t])
  {
    assert [t][1..] == [] && [t] + [] == [t];
    assert forall d | Typed(h.tree, d) :: Exits(h, d, []) == (d, []);
  }

  lemma {:induction false} EntersAppend(h: Chart, c: Config, a: seq<nat>, b: seq<nat>)
    requires ValidChart(h) && Typed(h.tree, c) && TidsOk(h, a) && TidsOk(h, b) && TidsOk(h, a + b)
    ensures Enters(h, c, a + b) == Enters(h, Enters(h, c, a), b)
    decreases |a|
  {
    if a == [] {
      assert a + b == b;
    } else {
      assert (a + b)[1..] == a[1..] + b;
      var to := h.transition[a[0]].to;
      EntersAppend(h, if to.None? then c else Open(h.tree, c, to.value, None).0, a[1..], b);
    }
  }

  lemma {:induction false} MarkedAppend(taken: seq<Option<nat>>, e: nat, ids: seq<nat>, t: nat)
    requires (forall i :: 0 <= i < |ids| ==> ids[i] < |taken|) && t < |taken|
    ensures Marked(taken, e, ids + [t]) == Marked(taken, e, ids) + if taken[t] == Some(e) then [t] else []
    decreases |ids|
  {
    if ids == [] {
      assert ids + [t] == [t] && [t][1..] == [];
    } else {
      MarkedAppend(taken, e, ids[1..], t);
      assert (ids + [t])[1..] == ids[1..] + [t];
    }
  }

  /** Only which transitions carry the mark matters. */
  lemma {:induction false} MarkedSame(a: seq<Option<nat>>, b: seq<Option<nat>>, e: nat, ids: seq<nat>)
    requires |a| == |b|
    requires forall i :: 0 <= i < |ids| ==> ids[i] < |a| && (a[ids[i]] == Some(e) <==> b[ids[i]] == Some(e))
    ensures Marked(a, e, ids) == Marked(b, e, ids)
    decreases |ids|
  {
    if ids != [] {
      MarkedSame(a, b, e, ids[1..]);
    }
  }

  lemma {:induction false} AgendaSame(h: Chart, a: seq<Option<nat>>, b: seq<Option<nat>>, q: seq<nat>)
    requires EventsOk(h) && |a| == |b| == |h.transition| && forall e :: e in q ==> IsEvent(h, e)
    requires forall t, e :: 0 <= t < |a| && e in q ==> (a[t] == Some(e) <==> b[t] == Some(e))
    ensures Agenda(h, a, q) == Agenda(h, b, q)
    decreases |q|
  {
    if q != [] {
      ChainOk(h, q[0]);
      MarkedSame(a, b, q[0], Chain(h, q[0]));
      AgendaSame(h, a, b, q[1..]);
    }
  }

  lemma {:induction false} AgendaAppend(h: Chart, taken: seq<Option<nat>>, q: seq<nat>, e: nat)
    requires EventsOk(h) && |taken| == |h.transition| && (forall f :: f in q ==> IsEvent(h, f)) && IsEvent(h, e)
    ensures (forall i :: 0 <= i < |Chain(h, e)| ==> Chain(h, e)[i] < |taken|) &&
            Agenda(h, taken, q + [e]) == Agenda(h, taken, q) + Marked(taken, e, Chain(h, e))
    decreases |q|
  {
    hide EventsOk, Chain, Marked;
    ChainOk(h, e);
    var last := Marked(taken, e, Chain(h, e));
    if q == [] {
      assert q + [e] == [e] && [e][1..] == [];
      assert Agenda(h, taken, [e]) == last + [] == last;
    } else {
      AgendaAppend(h, taken, q[1..], e);
      assert (q + [e])[1..] == q[1..] + [e];
    }
  }

  /** One event, all of whose marks are on its chain. */
  lemma OneOnAgenda(h: Chart, taken: seq<Option<nat>>, e: nat)
    requires EventsOk(h) && |taken| == |h.transition| && IsEvent(h, e)
    ensures (forall i :: 0 <= i < |Chain(h, e)| ==> Chain(h, e)[i] < |taken|) &&
            Agenda(h, taken, [e]) == Marked(taken, e, Chain(h, e))
  {
    AgendaAppend(h, taken, [], e);
    assert [] + [e] == [e] && Agenda(h, taken, []) == [];
  }

  /** Place by place: a transition is performed exactly when its source is still active once the transitions before
      it are done with; an external one then exits it. */
  lemma ExitsPlace(h: Chart, c: Config, ts: seq<nat>, i: nat)
    requires ValidChart(h) && Typed(h.tree, c) && TidsOk(h, ts) && i < |ts|
    ensures TidsOk(h, ts[..i]) && TidsOk(h, ts[..i + 1])
    ensures var (d, ps) := Exits(h, c, ts[..i]);
            var tr := h.transition[ts[i]];
            Exits(h, c, ts[..i + 1]) ==
              if tr.from !in d.on then (d, ps)
              else (if tr.to.None? then d else Quit(h.tree, d, tr.from, tr.to), ps + [ts[i]])
  {
    hide Exits, Valid, EventsOk, TransitionsOk, Typed;
    assert ts[..i + 1] == ts[..i] + [ts[i]];
    ExitsAppend(h, c, ts[..i], [ts[i]]);
    ExitsOne(h, Exits(h, c, ts[..i]).0, ts[i]);
    assert Exits(h, c, ts[..i]).1 + [] == Exits(h, c, ts[..i]).1;
  }

  /** The agenda holds exactly the transitions marked for one of the events, that are on its chain. */
  lemma {:induction false} AgendaMeaning(h: Chart, taken: seq<Option<nat>>, q: seq<nat>, t: nat)
    requires EventsOk(h) && |taken| == |h.transition| && forall e :: e in q ==> IsEvent(h, e)
    ensures t in Agenda(h, taken, q) <==> exists f :: f in q && t in Chain(h, f) && t < |taken| && taken[t] == Some(f)
  {
    hide EventsOk, Chain, Marked;
    if q != [] {
      ChainOk(h, q[0]);
      MarkedMeaning(taken, q[0], Chain(h, q[0]), t);
      AgendaMeaning(h, taken, q[1..], t);
      AgendaStep(h, taken, q);
      hide Agenda;
      assert q == [q[0]] + q[1..];
    }
  }

  lemma AgendaStep(h: Chart, taken: seq<Option<nat>>, q: seq<nat>)
    requires EventsOk(h) && |taken| == |h.transition| && q != [] && forall e :: e in q ==> IsEvent(h, e)
    ensures (forall i :: 0 <= i < |Chain(h, q[0])| ==> Chain(h, q[0])[i] < |taken|) &&
            Agenda(h, taken, q) == Marked(taken, q[0], Chain(h, q[0])) + Agenda(h, taken, q[1..])
  {
    ChainOk(h, q[0]);
  }

  lemma {:induction false} MarkedMeaning(taken: seq<Option<nat>>, e: nat, ids: seq<nat>, t: nat)
    requires forall i :: 0 <= i < |ids| ==> ids[i] < |taken|
    ensures t in Marked(taken, e, ids) <==> t in ids && taken[t] == Some(e)
    decreases |ids|
  {
    if ids != [] {
      MarkedMeaning(taken, e, ids[1..], t);
      assert ids == [ids[0]] + ids[1..];
    }
  }
}
