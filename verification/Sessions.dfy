/**
  A caller's view of the whole machine: start from any legal quiescent machine, broadcast any events one after
  another, with whatever their actions broadcast in turn.
 */
module Sessions {
  import opened Wrappers
  import opened StateTree
  import opened Configuration
  import opened MicroStep
  import opened DisjointMoves
  import opened Charts
  import opened Accounts
  import opened Stranding
  import opened Runs
  import opened Engine

  /** Every external transition is between states whose deepest common ancestor is not a set. */
  ghost predicate LegalChart(h: Chart)
    requires ValidChart(h)
  {
    forall t {:trigger h.transition[t]} :: 0 <= t < |h.transition| && External(h, t) ==>
      Legal(h.tree, h.transition[t].from, h.transition[t].to.value)
  }

  /** No cluster lies below a set on the way to any target. */
  ghost predicate CleanChart(h: Chart)
    requires ValidChart(h)
  {
    forall t {:trigger h.transition[t]} :: 0 <= t < |h.transition| && External(h, t) ==>
      Clean(h.tree, {}, h.transition[t].to.value)
  }

  lemma TargetsAreClean(h: Chart, trail: seq<Turn>)
    requires ValidChart(h) && CleanChart(h) && TrailOk(h, trail)
    ensures var steps := Motion(h, trail);
            forall i, j :: 0 <= i < |steps| && 0 <= j < |steps[i]| ==>
              IsState(h.tree, steps[i][j].to) && Clean(h.tree, {}, steps[i][j].to)
  {
    var steps: seq<seq<Move>> := Motion(h, trail);
    forall i: nat, j: nat | i < |steps| && j < |steps[i]|
      ensures IsState(h.tree, steps[i][j].to) && Clean(h.tree, {}, steps[i][j].to)
    {
      var t := MoveSource(h, trail[i].performed, j);
    }
  }

  lemma MovesAreLegal(h: Chart, trail: seq<Turn>)
    requires ValidChart(h) && LegalChart(h) && TrailOk(h, trail)
    ensures AllLegal(h.tree, Motion(h, trail))
  {
    var steps: seq<seq<Move>> := Motion(h, trail);
    forall i, j | 0 <= i < |steps| && 0 <= j < |steps[i]|
      ensures MoveOk(h.tree, steps[i][j]) && Legal(h.tree, steps[i][j].from, steps[i][j].to)
    {
      var t := MoveSource(h, trail[i].performed, j);
    }
  }

  /** The two halves of a run make one. */
  lemma ReachedConcat(m: Machine, c: Config, k: set<nat>, xs: seq<Turn>, l: set<nat>, ys: seq<Turn>)
    requires ValidChart(m.h) && Typed(m.h.tree, c) && TrailOk(m.h, xs) && Run(m.h.tree, c, Motion(m.h, xs))
    requires Replay(m.h.tree, c, Motion(m.h, xs)) == After(m.h, c, xs)
    requires l <= Remaining(m.h, c, k, xs) && m.Reached(After(m.h, c, xs), l, ys)
    ensures m.Reached(c, k, xs + ys)
  {
    hide Valid, NoEmptyClusters, EventsOk, TransitionsOk, Remaining, After, Run, Replay, Typed;
    RunConcat(m.h.tree, c, Motion(m.h, xs), Motion(m.h, ys));
    AfterConcat(m.h, c, xs, ys);
    RemainingConcat(m.h, c, k, xs, l, ys);
    assert Motion(m.h, xs + ys) == Motion(m.h, xs) + Motion(m.h, ys);
  }

  /** What the machine is like when a broadcast is made: what its states are, what user code has seen, and all that
      is on record. */
  datatype Opening = Opening(state: seq<Activity>, past: Past, deeds: seq<Deed>)

  ghost function OpeningOf(m: Machine): Opening
    reads m
  {
    Opening(m.state, m.Seen(), m.deeds)
  }

  function NoMarks(h: Chart): (r: seq<Option<nat>>)
    ensures |r| == |h.transition| && forall t :: 0 <= t < |r| ==> r[t] == None
  {
    seq(|h.transition|, _ => None)
  }

  /** The turns `trail` answer one broadcast: there are none if it is refused; otherwise the first one has just this
      event, and on its agenda exactly the transitions the event selects, in the order of its chain. */
  ghost predicate Answers(h: Chart, w: World, call: Call, o: Opening, fuel: nat, trail: seq<Turn>)
    requires ValidChart(h) && IsEvent(h, call.event)
  {
    && |o.state| == |h.tree.kind|
    && if call.pre && exists i :: Selected(h, w, o.state, call.event, o.past, i)
       then
         && (fuel > 0 ==> trail != [])
         && (trail != [] ==>
               && trail[0].queue == [call.event]
               && trail[0].agenda
                  == Chosen(h, w, o.state, NoMarks(h), call.event, o.past, |Chain(h, call.event)|))
       else trail == []
  }

  /** A call goes on record: whether its event was queued, and what it marked. */
  ghost function CallMade(h: Chart, w: World, call: Call, o: Opening): Deed
    requires ValidChart(h) && IsEvent(h, call.event) && |o.state| == |h.tree.kind|
  {
    var queued := call.pre && exists i :: Selected(h, w, o.state, call.event, o.past, i);
    Deed(Outside, o.past, [Offer(call, queued,
                             if queued
                             then Chosen(h, w, o.state, NoMarks(h), call.event, o.past, |Chain(h, call.event)|)
                             else [])])
  }

  /** What is on record after a call and its answer. */
  ghost function Onward(h: Chart, w: World, call: Call, o: Opening, trail: seq<Turn>): seq<Deed>
    requires ValidChart(h) && IsEvent(h, call.event) && |o.state| == |h.tree.kind|
  {
    o.deeds + [CallMade(h, w, call, o)] + Doings(trail)
  }

  /** All turns, one answer after another. */
  function Join(trails: seq<seq<Turn>>): seq<Turn> {
    if trails == [] then []
    else
      var n := |trails| - 1;
      Join(trails[..n]) + trails[n]
  }

  /** The machine as it is between two broadcasts: in the configuration that `before` leads to, with what has
      become of user code's past, and nothing disabled that the hazards of those turns do not account for. */
  ghost predicate OpeningOk(h: Chart, w: World, c: Config, k: set<nat>, before: seq<Turn>, o: Opening)
    requires ValidChart(h) && Typed(h.tree, c) && TrailOk(h, before)
  {
    && |o.state| == |h.tree.kind|
    && (forall s :: 0 <= s < |o.state| ==> (o.state[s] != Inactive <==> s in After(h, c, before).on))
    && (forall s :: 0 <= s < |o.state| && o.state[s] == Disabled ==> s in Remaining(h, c, k, before))
    && Chronicled(h, w, o.deeds) && o.past == Past(Ticks(o.deeds), StepsOf(o.deeds))
    && o.past.log == After(h, c, before).log
  }

  /** The answers so far, each to the call in its place: each starts from the configuration and the record that the
      ones before it led to, answers its call, and goes on by itself until it is over. */
  ghost predicate AnswerOk(
    m: Machine, c: Config, k: set<nat>, calls: seq<Call>, fuel: nat, openings: seq<Opening>, trails: seq<seq<Turn>>,
    i: nat)
    requires i < |trails| == |openings| <= |calls| && CallsOk(m.h, calls)
  {
    var before := Join(trails[..i]);
    && ValidChart(m.h) && Typed(m.h.tree, c) && TrailOk(m.h, before)
    && OpeningOk(m.h, m.w, c, k, before, openings[i])
    && m.Continuous(After(m.h, c, before), trails[i])
    && Answers(m.h, m.w, calls[i], openings[i], fuel, trails[i])
    && (i > 0 ==>
          && |openings[i - 1].state| == |m.h.tree.kind|
          && openings[i].deeds == Onward(m.h, m.w, calls[i - 1], openings[i - 1], trails[i - 1]))
  }

  ghost predicate AllAnswered(
    m: Machine, c: Config, k: set<nat>, calls: seq<Call>, fuel: nat, openings: seq<Opening>, trails: seq<seq<Turn>>)
    requires |trails| == |openings| <= |calls| && CallsOk(m.h, calls)
  {
    forall i :: 0 <= i < |trails| ==> AnswerOk(m, c, k, calls, fuel, openings, trails, i)
  }

  /** What is on record is what the last call and its answer have led to. */
  ghost predicate UpToDate(m: Machine, calls: seq<Call>, openings: seq<Opening>, trails: seq<seq<Turn>>)
    requires |trails| == |openings| <= |calls| && CallsOk(m.h, calls)
    reads m
  {
    ValidChart(m.h) &&
    (trails != [] ==>
       var n := |trails| - 1;
       && |openings[n].state| == |m.h.tree.kind|
       && m.deeds == Onward(m.h, m.w, calls[n], openings[n], trails[n]))
  }

  /** Broadcasts `calls` in turn, giving up when one does not come to rest within `fuel` micro-steps.  Each call is
      answered in its turn, and all the micro-steps together form one run of the chart's own moves, which stays
      legal exactly when every entry is acceptable at its turn; only the hazards of its turns can be left
      disabled. */
  method Session(m: Machine, calls: seq<Call>, fuel: nat)
    returns (finished: bool, ghost openings: seq<Opening>, ghost trails: seq<seq<Turn>>)
    requires m.Ready() && m.Quiescent() && Complete(m.h.tree, m.Cfg()) && CallsOk(m.h, calls)
    modifies m
    ensures m.Ready() && |trails| == |openings| <= |calls|
    ensures if finished then m.Quiescent() && |trails| == |calls|
            else trails != [] && m.running && m.queue != [] && |trails[|trails| - 1]| == fuel
    ensures AllAnswered(m, old(m.Cfg()), old(m.Stuck()), calls, fuel, openings, trails)
    ensures UpToDate(m, calls, openings, trails)
    ensures trails != [] ==> openings[0] == old(OpeningOf(m))
    ensures m.Reached(old(m.Cfg()), old(m.Stuck()), Join(trails))
    ensures LegalChart(m.h) ==>
              (LegalThroughout(m.h.tree, old(m.Cfg()), Motion(m.h, Join(trails)))
               <==> RunEntriesOk(m.h.tree, old(m.Cfg()), Motion(m.h, Join(trails))))
    ensures LegalChart(m.h) && CleanChart(m.h) && AllDisjoint(m.h.tree, Motion(m.h, Join(trails))) ==>
              LegalThroughout(m.h.tree, old(m.Cfg()), Motion(m.h, Join(trails)))
    ensures finished ==>
              forall s :: 0 <= s < |m.state| && m.state[s] == Disabled ==>
                s in Remaining(m.h, old(m.Cfg()), old(m.Stuck()), Join(trails))
    ensures finished && old(m.Stuck()) == {} && (Harmless(m.h, old(m.Cfg()), Join(trails)) || Flat(m.h)) ==>
              forall s :: 0 <= s < |m.state| ==> m.state[s] != Disabled
  {
    hide Machine.Balanced, ValidChart, Typed, WorldOk, Complete, Flat, Machine.Quiescent, Machine.Reached;
    hide Machine.Stuck, Harmless, Remaining, Join, AllAnswered, UpToDate;
    ghost var c, k := m.Cfg(), m.Stuck();
    finished, openings, trails := true, [], [];
    NothingAnswered(m, calls, fuel);
    var n := 0;
    while finished && n < |calls|
      invariant n == |trails| == |openings| <= |calls| && m.Ready()
      invariant if finished then m.Quiescent()
                else n > 0 && m.running && m.queue != [] && |trails[n - 1]| == fuel
      invariant UpToDate(m, calls, openings, trails)
      invariant m.Reached(c, k, Join(trails)) && AllAnswered(m, c, k, calls, fuel, openings, trails)
      invariant if trails == [] then OpeningOf(m) == old(OpeningOf(m)) else openings[0] == old(OpeningOf(m))
      decreases |calls| - n
    {
      finished, openings, trails := Next(m, c, k, calls, n, fuel, openings, trails);
      n := n + 1;
    }
    Legally(m, c, k, Join(trails));
    if finished {
      AtRest(m, c, k, Join(trails));
    }
  }

  lemma NothingAnswered(m: Machine, calls: seq<Call>, fuel: nat)
    requires m.Ready() && CallsOk(m.h, calls)
    ensures m.Reached(m.Cfg(), m.Stuck(), Join([])) && UpToDate(m, calls, [], [])
    ensures AllAnswered(m, m.Cfg(), m.Stuck(), calls, fuel, [], [])
  {
    m.NothingReached();
  }

  /** One broadcast of a session. */
  method Next(
    m: Machine, ghost c: Config, ghost k: set<nat>, calls: seq<Call>, n: nat, fuel: nat,
    ghost openings: seq<Opening>, ghost trails: seq<seq<Turn>>)
    returns (finished: bool, ghost openings': seq<Opening>, ghost trails': seq<seq<Turn>>)
    requires m.Ready() && m.Quiescent() && n == |trails| == |openings| < |calls| && CallsOk(m.h, calls)
    requires m.Reached(c, k, Join(trails)) && AllAnswered(m, c, k, calls, fuel, openings, trails)
    requires UpToDate(m, calls, openings, trails)
    modifies m
    ensures m.Ready() && |trails'| == |openings'| == |trails| + 1
    ensures if finished then m.Quiescent() else m.running && m.queue != [] && |trails'[|trails|]| == fuel
    ensures m.Reached(c, k, Join(trails')) && AllAnswered(m, c, k, calls, fuel, openings', trails')
    ensures UpToDate(m, calls, openings', trails')
    ensures openings' == openings + [old(OpeningOf(m))]
  {
    hide Machine.Balanced, Machine.Stuck, ValidChart, WorldOk, Remaining, After, Run, Replay, Typed, Linked;
    hide Machine.Quiescent, Answers, AllAnswered, OpeningOk, Onward;
    ghost var o, l, d := OpeningOf(m), m.Stuck(), m.Cfg();
    OpeningIs(m, c, k, Join(trails));
    ghost var ys;
    finished, ys := Ask(m, calls[n], fuel);
    openings', trails' := openings + [o], trails + [ys];
    ReachedConcat(m, c, k, Join(trails), l, ys);
    OneMore(m, c, k, calls, fuel, openings, trails, o, ys);
  }

  lemma OpeningIs(m: Machine, c: Config, k: set<nat>, before: seq<Turn>)
    requires m.Ready() && m.Quiescent() && m.Reached(c, k, before)
    ensures OpeningOk(m.h, m.w, c, k, before, OpeningOf(m))
  {
    hide Valid, EventsOk, TransitionsOk, WorldOk, Remaining, After, Run, Replay, Typed, Chronicled, Ticks, StepsOf;
    m.DisabledAtRest();
  }

  /** A broadcast and its answer. */
  method Ask(m: Machine, call: Call, fuel: nat) returns (finished: bool, ghost trail: seq<Turn>)
    requires m.Ready() && m.Quiescent() && IsEvent(m.h, call.event)
    modifies m
    ensures m.Ready() && if finished then m.Quiescent() else m.running && m.queue != [] && |trail| == fuel
    ensures m.Reached(old(m.Cfg()), old(m.Stuck()), trail) && m.Continuous(old(m.Cfg()), trail)
    ensures ValidChart(m.h) && Answers(m.h, m.w, call, old(OpeningOf(m)), fuel, trail)
    ensures |old(OpeningOf(m)).state| == |m.h.tree.kind|
    ensures m.deeds == Onward(m.h, m.w, call, old(OpeningOf(m)), trail)
  {
    hide Machine.Balanced, Machine.Reached, Machine.Continuous, Machine.Stuck, Machine.Leaves, Machine.Quiescent;
    hide Typed, Valid, EventsOk, TransitionsOk, WorldOk, Chosen, Selected, Chain, NoMarks;
    BlankMarks(m);
    finished, trail := m.Broadcast(call.event, call.pre, fuel);
  }

  lemma BlankMarks(m: Machine)
    requires m.Ready() && m.Quiescent()
    ensures m.taken == NoMarks(m.h)
  {
  }

  lemma OneMore(
    m: Machine, c: Config, k: set<nat>, calls: seq<Call>, fuel: nat, openings: seq<Opening>, trails: seq<seq<Turn>>,
    o: Opening, ys: seq<Turn>)
    requires |trails| == |openings| < |calls| && CallsOk(m.h, calls)
    requires AllAnswered(m, c, k, calls, fuel, openings, trails)
    requires ValidChart(m.h) && Typed(m.h.tree, c) && TrailOk(m.h, Join(trails))
    requires m.Continuous(After(m.h, c, Join(trails)), ys)
    requires Answers(m.h, m.w, calls[|trails|], o, fuel, ys)
    requires OpeningOk(m.h, m.w, c, k, Join(trails), o)
    requires trails != [] ==>
               var n := |trails| - 1;
               && |openings[n].state| == |m.h.tree.kind|
               && o.deeds == Onward(m.h, m.w, calls[n], openings[n], trails[n])
    ensures AllAnswered(m, c, k, calls, fuel, openings + [o], trails + [ys])
    ensures Join(trails + [ys]) == Join(trails) + ys
  {
    hide ValidChart, Typed, TrailOk, After, Machine.Continuous, Answers, OpeningOk, Onward;
    var more, all := openings + [o], trails + [ys];
    assert all[..|trails|] == trails;
    forall i | 0 <= i < |all| ensures AnswerOk(m, c, k, calls, fuel, more, all, i) {
      assert all[..i] == trails[..i];
      if i < |trails| {
        assert AnswerOk(m, c, k, calls, fuel, openings, trails, i);
      } else {
        assert trails[..i] == trails;
      }
    }
  }

  lemma Legally(m: Machine, c: Config, k: set<nat>, trail: seq<Turn>)
    requires m.Reached(c, k, trail) && Complete(m.h.tree, c)
    ensures LegalChart(m.h) ==>
              (LegalThroughout(m.h.tree, c, Motion(m.h, trail)) <==> RunEntriesOk(m.h.tree, c, Motion(m.h, trail)))
    ensures LegalChart(m.h) && CleanChart(m.h) && AllDisjoint(m.h.tree, Motion(m.h, trail)) ==>
              LegalThroughout(m.h.tree, c, Motion(m.h, trail))
  {
    hide Valid, EventsOk, TransitionsOk, NoEmptyClusters, Clean, AllDisjoint, CleanRun, LegalThroughout, RunEntriesOk;
    if LegalChart(m.h) {
      MovesAreLegal(m.h, trail);
      RunBoundary(m.h.tree, c, Motion(m.h, trail));
      if CleanChart(m.h) && AllDisjoint(m.h.tree, Motion(m.h, trail)) {
        TargetsAreClean(m.h, trail);
        StaticallyCleanRun(m.h.tree, c, Motion(m.h, trail));
        CleanRunSafe(m.h.tree, c, Motion(m.h, trail));
      }
    }
  }

  lemma AtRest(m: Machine, c: Config, k: set<nat>, trail: seq<Turn>)
    requires m.Reached(c, k, trail) && m.Quiescent()
    ensures forall s :: 0 <= s < |m.state| && m.state[s] == Disabled ==> s in Remaining(m.h, c, k, trail)
    ensures k == {} && (Harmless(m.h, c, trail) || Flat(m.h)) ==>
              forall s :: 0 <= s < |m.state| ==> m.state[s] != Disabled
  {
    m.DisabledAtRest();
    if Flat(m.h) {
      FlatIsHarmless(m.h, c, trail);
    }
    if Harmless(m.h, c, trail) {
      HarmlessStrandsNothing(m.h, c, k, trail);
    }
  }
}
