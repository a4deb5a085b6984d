/**
  Where the source of a performed transition can come back from in the same micro-step: some target lies inside
  it, or its parent was left as well.  Transitions for which neither can happen are never a hazard, however many
  events share them.
 */
module Returns {
  import opened Wrappers
  import opened StateTree
  import opened Configuration
  import opened Leaving
  import opened EntrySoundness
  import opened MicroStep
  import opened DisjointMoves
  import opened Charts
  import opened Stranding

  /** Entering a state elsewhere does not enter a child of a state that is active already. */
  lemma {:induction false} OpenElsewhere(g: Tree, c: Config, x: nat, from: Option<nat>, s: nat)
    requires Valid(g) && Typed(g, c) && IsState(g, x) && (from.Some? ==> from.value in g.children[x])
    requires 0 < s < |g.kind| && s !in c.on && g.parent[s] in c.on && !Within(g, x, s)
    ensures s !in Open(g, c, x, from).0.on
    decreases g.rank[x]
  {
    var p := g.parent[s];
    if x !in c.on {
      if x != ROOT && g.parent[x] !in c.on {
        OpenElsewhere(g, c, g.parent[x], Some(x), s);
      }
      var (m, ok) := Admit(g, c, x);
      assert s !in m.on;
      if ok && !(g.kind[x] == Cluster && from.Some?) {
        FillHolds(g, m, x, p);
      }
    }
  }

  /** Some external transition of `ps` enters `s` or a state inside it. */
  ghost predicate Returning(h: Chart, ps: seq<nat>, s: nat)
    requires ValidChart(h) && TidsOk(h, ps)
  {
    exists u: nat :: u in ps && IsTransition(h, u) && External(h, u) && Within(h.tree, h.transition[u].to.value, s)
  }

  lemma {:induction false} StaysOut(h: Chart, c: Config, ps: seq<nat>, s: nat)
    requires ValidChart(h) && Typed(h.tree, c) && TidsOk(h, ps) && !Returning(h, ps, s)
    requires 0 < s < |h.tree.kind| && s !in c.on && h.tree.parent[s] in c.on
    ensures s !in Enters(h, c, ps).on
    ensures forall t :: t in Hits(h, c, ps) ==> h.transition[t].from != s
    decreases |ps|
  {
    if ps != [] {
      var u := ps[0];
      assert u in ps;
      var to := h.transition[u].to;
      if to.Some? {
        OpenElsewhere(h.tree, c, to.value, None, s);
      }
      var d := if to.None? then c else Open(h.tree, c, to.value, None).0;
      assert forall v :: v in ps[1..] ==> v in ps;
      StaysOut(h, d, ps[1..], s);
    }
  }

  /** A micro-step can only leave the source of one of its transitions disabled if a target of the step lies
      inside that source, or the source's parent was left too. */
  lemma HazardReturns(h: Chart, c: Config, u: Turn, s: nat)
    requires ValidChart(h) && Sound(h.tree, c) && TurnOk(h, u) && Performable(h.tree, c, Moves(h, u.performed))
    requires var left := LeaveAll(h.tree, c, Moves(h, u.performed));
             s in Hazards(h, left, u.performed, u.queue)
    ensures Returning(h, u.performed, s)
            || h.tree.parent[s] !in LeaveAll(h.tree, c, Moves(h, u.performed)).on
  {
    hide EventsOk, NoEmptyClusters, Performable, LeaveAll, Moves, ExitRun, Hits, Shared;
    var ps := u.performed;
    var ms := Moves(h, ps);
    var left := LeaveAll(h.tree, c, ms);
    var t :| t in Hits(h, left, ps) && IsTransition(h, t) && Shared(h, t, u.queue) && h.transition[t].from == s;
    var i := MoveOf(h, ps, t);
    LeaveAllExact(h.tree, c, ms);
    assert !Spared(h.tree, ms, s);
    if !Returning(h, ps, s) && h.tree.parent[s] in left.on {
      StaysOut(h, left, ps, s);
    }
  }

  /** The move of an external transition. */
  lemma {:induction false} MoveOf(h: Chart, ps: seq<nat>, t: nat) returns (i: nat)
    requires ValidChart(h) && TidsOk(h, ps) && t in ps && External(h, t)
    ensures i < |Moves(h, ps)| && Moves(h, ps)[i] == Move(h.transition[t].from, h.transition[t].to.value)
    decreases |ps|
  {
    if ps[0] == t {
      i := 0;
    } else {
      i := MoveOf(h, ps[1..], t);
      i := if h.transition[ps[0]].to.Some? then i + 1 else i;
    }
  }

  /** A transition that leaves a child of the root for a state outside it, when no other transition of the chart
      leads into that child, strands nothing, although events derived from its own may share it. */
  lemma LeavingForGood(h: Chart, c: Config, u: Turn, s: nat)
    requires ValidChart(h) && Sound(h.tree, c) && ROOT in c.on && TurnOk(h, u)
    requires Performable(h.tree, c, Moves(h, u.performed))
    requires 0 < s < |h.tree.kind| && h.tree.parent[s] == ROOT
    requires forall t {:trigger h.transition[t]} :: 0 <= t < |h.transition| && External(h, t) ==>
               !Within(h.tree, h.transition[t].to.value, s)
    ensures s !in Hazards(h, LeaveAll(h.tree, c, Moves(h, u.performed)), u.performed, u.queue)
  {
    var ms := Moves(h, u.performed);
    LeaveAllExact(h.tree, c, ms);
    assert Spared(h.tree, ms, ROOT);
    if s in Hazards(h, LeaveAll(h.tree, c, ms), u.performed, u.queue) {
      HazardReturns(h, c, u, s);
    }
  }
}
