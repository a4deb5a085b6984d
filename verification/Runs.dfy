/**
  Whole runs: a configuration followed through any number of micro-steps.
 */
module Runs {
  import opened StateTree
  import opened Configuration
  import opened MicroStep
  import opened DisjointMoves

  /** A step's moves are well formed, and each found its source active. */
  ghost predicate StepOk(g: Tree, c: Config, ms: seq<Move>)
    requires Valid(g) && NoEmptyClusters(g) && Typed(g, c)
  {
    MovesOk(g, ms) && Performable(g, c, ms)
  }

  ghost predicate Run(g: Tree, c: Config, steps: seq<seq<Move>>)
    requires Valid(g) && NoEmptyClusters(g) && Typed(g, c)
    decreases |steps|
  {
    steps == [] || (StepOk(g, c, steps[0]) && Run(g, Perform(g, c, steps[0]), steps[1..]))
  }

  ghost function Replay(g: Tree, c: Config, steps: seq<seq<Move>>): (r: Config)
    requires Valid(g) && NoEmptyClusters(g) && Typed(g, c) && Run(g, c, steps)
    ensures Typed(g, r)
    decreases |steps|
  {
    if steps == [] then c else Replay(g, Perform(g, c, steps[0]), steps[1..])
  }

  ghost predicate AllLegal(g: Tree, steps: seq<seq<Move>>)
    requires Valid(g)
  {
    forall i, j :: 0 <= i < |steps| && 0 <= j < |steps[i]| ==>
      MoveOk(g, steps[i][j]) && Legal(g, steps[i][j].from, steps[i][j].to)
  }

  /** Every entry of every step is acceptable at its turn. */
  ghost predicate RunEntriesOk(g: Tree, c: Config, steps: seq<seq<Move>>)
    requires Valid(g) && NoEmptyClusters(g) && Typed(g, c) && Run(g, c, steps)
    decreases |steps|
  {
    steps == [] || (EntriesOk(g, LeaveAll(g, c, steps[0]), steps[0])
                    && RunEntriesOk(g, Perform(g, c, steps[0]), steps[1..]))
  }

  /** Two runs, the second from where the first ends, make one. */
  lemma {:induction false} RunConcat(g: Tree, c: Config, xs: seq<seq<Move>>, ys: seq<seq<Move>>)
    requires Valid(g) && NoEmptyClusters(g) && Typed(g, c) && Run(g, c, xs) && Run(g, Replay(g, c, xs), ys)
    ensures Run(g, c, xs + ys) && Replay(g, c, xs + ys) == Replay(g, Replay(g, c, xs), ys)
    decreases |xs|
  {
    hide Valid, NoEmptyClusters, Typed, Perform, Performable;
    if xs == [] {
      assert xs + ys == ys;
    } else {
      RunConcat(g, Perform(g, c, xs[0]), xs[1..], ys);
      assert (xs + ys)[1..] == xs[1..] + ys;
    }
  }

  lemma RunAppend(g: Tree, c: Config, steps: seq<seq<Move>>, ms: seq<Move>)
    requires Valid(g) && NoEmptyClusters(g) && Typed(g, c) && Run(g, c, steps)
    requires StepOk(g, Replay(g, c, steps), ms)
    ensures Run(g, c, steps + [ms]) && Replay(g, c, steps + [ms]) == Perform(g, Replay(g, c, steps), ms)
  {
    hide Valid, NoEmptyClusters, Typed, Perform, Performable;
    assert [ms][1..] == [];
    RunConcat(g, c, steps, [ms]);
  }

  /** Every configuration of the run, from first to last, is legal. */
  ghost predicate LegalThroughout(g: Tree, c: Config, steps: seq<seq<Move>>)
    requires Valid(g) && NoEmptyClusters(g) && Typed(g, c) && Run(g, c, steps)
    decreases |steps|
  {
    Complete(g, c) && (steps != [] ==> LegalThroughout(g, Perform(g, c, steps[0]), steps[1..]))
  }

  /** Configuration safety over runs, with its exact boundary: a run of legal transitions stays within the
      legal configurations exactly when every entry is acceptable at its turn. */
  lemma {:induction false} RunBoundary(g: Tree, c: Config, steps: seq<seq<Move>>)
    requires Valid(g) && NoEmptyClusters(g) && Complete(g, c) && Run(g, c, steps) && AllLegal(g, steps)
    ensures LegalThroughout(g, c, steps) <==> RunEntriesOk(g, c, steps)
    decreases |steps|
  {
    if steps != [] {
      var d := Perform(g, c, steps[0]);
      StepBoundary(g, c, steps[0]);
      if Complete(g, d) {
        RunBoundary(g, d, steps[1..]);
      }
    }
  }

  lemma {:induction false} LegalAtTheEnd(g: Tree, c: Config, steps: seq<seq<Move>>)
    requires Valid(g) && NoEmptyClusters(g) && Typed(g, c) && Run(g, c, steps) && LegalThroughout(g, c, steps)
    ensures Complete(g, Replay(g, c, steps))
    decreases |steps|
  {
    if steps != [] {
      LegalAtTheEnd(g, Perform(g, c, steps[0]), steps[1..]);
    }
  }

  /** No step leaves one subtree inside another. */
  ghost predicate AllDisjoint(g: Tree, steps: seq<seq<Move>>)
    requires Valid(g)
  {
    forall i :: 0 <= i < |steps| ==> MovesOk(g, steps[i]) && Disjoint(g, steps[i])
  }

  /** Every way in is clean when its step enters. */
  ghost predicate CleanRun(g: Tree, c: Config, steps: seq<seq<Move>>)
    requires Valid(g) && NoEmptyClusters(g) && Typed(g, c) && Run(g, c, steps)
    decreases |steps|
  {
    steps != [] ==>
      && (forall i :: 0 <= i < |steps[0]| ==> Clean(g, LeaveAll(g, c, steps[0]).on, steps[0][i].to))
      && CleanRun(g, Perform(g, c, steps[0]), steps[1..])
  }

  /** A run of legal transitions whose steps leave disjoint subtrees and enter cleanly stays within the legal
      configurations. */
  lemma {:induction false} CleanRunSafe(g: Tree, c: Config, steps: seq<seq<Move>>)
    requires Valid(g) && NoEmptyClusters(g) && Complete(g, c) && Run(g, c, steps) && AllLegal(g, steps)
    requires AllDisjoint(g, steps) && CleanRun(g, c, steps)
    ensures LegalThroughout(g, c, steps)
    decreases |steps|
  {
    hide Valid, NoEmptyClusters, Clean, Perform, LeaveAll;
    if steps != [] {
      DisjointStepSafe(g, c, steps[0]);
      assert forall i :: 0 <= i < |steps| - 1 ==> steps[1..][i] == steps[i + 1];
      CleanRunSafe(g, Perform(g, c, steps[0]), steps[1..]);
    }
  }

  /** No cluster lies below a set on the way to any target: then every run is clean. */
  lemma {:induction false} StaticallyCleanRun(g: Tree, c: Config, steps: seq<seq<Move>>)
    requires Valid(g) && NoEmptyClusters(g) && Typed(g, c) && Run(g, c, steps)
    requires forall i, j :: 0 <= i < |steps| && 0 <= j < |steps[i]| ==>
               IsState(g, steps[i][j].to) && Clean(g, {}, steps[i][j].to)
    ensures CleanRun(g, c, steps)
    decreases |steps|
  {
    hide Valid, NoEmptyClusters, Clean, Perform, LeaveAll, Performable;
    if steps != [] {
      forall i | 0 <= i < |steps[0]| ensures Clean(g, LeaveAll(g, c, steps[0]).on, steps[0][i].to) {
        StaticallyClean(g, LeaveAll(g, c, steps[0]).on, steps[0][i].to);
      }
      StaticallyCleanRun(g, Perform(g, c, steps[0]), steps[1..]);
    }
  }
}
