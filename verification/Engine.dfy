/**
  The run-time itself (state.cpp, cluster.cpp, set.cpp, event.cpp, machine.cpp): one object whose fields
  are the mutable members of all states, events and the machine, indexed by identifier.

  Enter and exit actions, transition actions and conditions come from a `World`; everything they
  broadcast while the machine runs is queued, as in the source.
 */
module Engine {
  import opened Wrappers
  import opened StateTree
  import opened Configuration
  import opened MicroStep
  import opened Charts
  import opened Accounts
  import opened Stranding
  import opened Phases
  import opened History
  import opened Leaving
  import opened EntrySoundness
  import opened Runs

  class Machine {
    const h: Chart
    const w: World
    var state: seq<Activity>
    var child: seq<Option<nat>>
    var last: seq<Option<nat>>
    var inProgress: seq<nat>
    var queue: seq<nat>
    var taken: seq<Option<nat>>
    var target: seq<Option<nat>>
    var running: bool

    /** What user code has seen: how often it was asked, and every state entered or exited. */
    var clock: nat
    var log: seq<Step>

    /** Everything done and broadcast so far, act by act; the broadcasts of the act under way; and how many
        broadcasts there had been when the current micro-step began. */
    ghost var deeds: seq<Deed>
    ghost var said: seq<Offer>
    ghost var since: nat

    /** Transitions performed in Phase I whose mark Phase II has yet to clear. */
    ghost var performed: set<nat>
    /** Of those cleared in this micro-step, the ones whose source was active again. */
    ghost var hits: set<nat>
    /** The events of the current micro-step; none between micro-steps. */
    ghost var step: seq<nat>
    /** Phase II has begun. */
    ghost var entering: bool
    /** What user code is known to do in the current micro-step, if anything. */
    ghost var bait: Option<Bait>

    ghost function On(): set<nat>
      reads `state
    {
      set s | 0 <= s < |state| && state[s] != Inactive
    }

    /** The inactive states: entering one makes this set smaller. */
    ghost function Off(): set<nat>
      reads `state
    {
      set s: nat | s < |h.tree.kind| && s !in On()
    }

    ghost function Cfg(): Config
      reads `state, `child, `last, `log
    {
      Config(On(), child, last, log)
    }

    function Seen(): Past
      reads `clock, `log
    {
      Past(clock, log)
    }

    ghost predicate Tables()
      reads `state, `inProgress, `taken, `target
    {
      && ValidChart(h) && WorldOk(h, w)
      && |state| == |h.tree.kind|
      && |inProgress| == |h.base|
      && |taken| == |target| == |h.transition|
    }

    /** Each event's counter is the number of live events that have it on their base chain. */
    ghost predicate Counted(live: seq<nat>)
      requires Tables()
      reads `state, `inProgress, `taken, `target
    {
      && LiveOk(h, live)
      && (forall i, j :: 0 <= i < j < |live| ==> live[i] != live[j])
      && (forall x :: 0 <= x < |inProgress| ==> inProgress[x] == Load(h, live, x))
    }

    /** A mark belongs to a live event that can trigger the transition, and knows its target. */
    ghost predicate MarksOk(live: seq<nat>)
      requires Tables()
      reads `state, `inProgress, `taken, `target, `performed
    {
      && (forall t :: 0 <= t < |taken| && taken[t].Some? ==>
            && taken[t].value in live
            && IsEvent(h, taken[t].value)
            && t in Chain(h, taken[t].value)
            && (External(h, t) ==> target[t] == h.transition[t].to))
      && (forall t :: t in performed ==> t < |taken| && taken[t].Some?)
    }

    ghost predicate Books(live: seq<nat>)
      requires Tables()
      reads `state, `inProgress, `taken, `target, `performed
    {
      Counted(live) && MarksOk(live)
    }

    /** Transition `t` is marked, external, leaves `s` and is still to be reached in a Phase I. */
    ghost predicate Awaited(t: nat, s: nat)
      requires Tables()
      reads `state, `inProgress, `taken, `target, `performed
    {
      t < |taken| && taken[t].Some? && t !in performed && External(h, t) && h.transition[t].from == s
    }

    ghost predicate Awaits(s: nat)
      requires Tables()
      reads `state, `inProgress, `taken, `target, `performed
    {
      exists t: nat :: Awaited(t, s)
    }

    /** The disabled states that no marked transition still to be performed leaves. */
    ghost function Stuck(): set<nat>
      requires Tables()
      reads `state, `inProgress, `taken, `target, `performed
    {
      set s: nat | s < |state| && state[s] == Disabled && !Awaits(s)
    }

    ghost function Sight(): View
      requires Tables()
      reads `state, `inProgress, `queue, `taken, `target, `performed, `deeds
    {
      View(queue, taken, On(), Stuck(), deeds)
    }

    // ------------------------------------------------------------ the account of broadcasts

    /** All broadcasts so far. */
    ghost function Told(): seq<Offer>
      reads `deeds, `said
    {
      Offers(deeds) + said
    }

    /** The queue holds the events of the current micro-step and then, in order, exactly those queued by broadcasts
        since it began; the transitions marked for them are those these broadcasts marked. */
    ghost predicate Ledger()
      requires Tables()
      reads `state, `inProgress, `queue, `taken, `target, `step, `deeds, `said, `since
    {
      LedgerOk(h, taken, queue, step, Told(), since)
    }

    /** Between two acts: the record is complete and right, and user code has seen all of it. */
    ghost predicate Chronicle()
      reads `clock, `log, `deeds, `said
    {
      said == [] && clock == Ticks(deeds) && log == StepsOf(deeds) && Chronicled(h, w, deeds)
    }

    // ------------------------------------------------------------ user code under observation

    /** User code provokes, and the transition it aims at has another event that is not in progress. */
    ghost predicate BaitOk(b: Bait)
      requires Tables()
      reads `state, `inProgress, `taken, `target, `clock, `log, `step
    {
      && Provokes(w, b) && b.calls <= clock && b.seen <= |log|
      && IsTransition(h, b.t) && External(h, b.t) && h.transition[b.t].from == b.s
      && IsEvent(h, b.e) && b.t in Chain(h, b.e)
      && LiveOk(h, step) && Load(h, step, b.e) == 0
    }

    /** Nothing has been broadcast yet. */
    ghost predicate Waiting(b: Bait)
      reads `state, `queue, `log, `step, `entering
    {
      queue == step && !Back(b, log) && (entering ==> b.s !in On())
    }

    /** The source is active again and its enter action is about to broadcast. */
    ghost predicate Poised(b: Bait)
      requires Tables()
      reads `state, `inProgress, `queue, `taken, `target, `log, `step
    {
      && queue == step && Back(b, log)
      && b.s < |state| && state[b.s] == Active
      && b.t < |taken| && taken[b.t].Some?
    }

    /** It has: the source is disabled, and the event marks nothing. */
    ghost predicate Caught(b: Bait)
      requires Tables()
      reads `state, `inProgress, `queue, `taken, `target, `step
    {
      && queue == step + [b.e]
      && b.s < |state| && state[b.s] == Disabled
      && forall t :: 0 <= t < |taken| ==> taken[t] != Some(b.e)
    }

    /** How far user code under observation has got.  Nothing is known once the transition has been cleared
        while its source was inactive. */
    ghost predicate Lured()
      requires Tables()
      reads `state, `inProgress, `queue, `taken, `target, `clock, `log, `performed, `hits, `step, `entering, `bait
    {
      && step <= queue
      && (bait.Some? ==>
            var b := bait.value;
            && BaitOk(b)
            && (!entering ==> Waiting(b))
            && (entering && b.t in performed ==> Waiting(b) || Poised(b) || Caught(b))
            && (entering && b.t in hits ==> Caught(b)))
    }

    /** User code is known to provoke from here on. */
    ghost method Observe(b: Bait)
      requires Ready() && performed == {} && !entering
      requires Provokes(w, b) && b.calls <= clock && b.seen <= |log| && !Back(b, log)
      requires IsTransition(h, b.t) && External(h, b.t) && h.transition[b.t].from == b.s
      requires IsEvent(h, b.e) && b.t in Chain(h, b.e) && LiveOk(h, queue) && Load(h, queue, b.e) == 0
      modifies `step, `hits, `bait, `since
      ensures Ready() && bait == Some(b)
    {
      hide Books, Ledger, Chronicle, ValidChart, WorldOk, Told, Provokes;
      step, hits, bait, since := queue, {}, Some(b), |Told()|;
      FreshLedger();
    }

    /** No enter action is about to broadcast. */
    ghost predicate Settled()
      requires Tables()
      reads `state, `inProgress, `queue, `taken, `target, `log, `performed, `step, `entering, `bait
    {
      bait.Some? && entering && bait.value.t in performed ==> !Poised(bait.value)
    }

    ghost predicate Balanced()
      requires Tables()
      reads `state, `inProgress, `queue, `taken, `target, `clock, `log, `performed, `hits, `step, `entering, `bait,
            `deeds, `said, `since
    {
      Books(queue) && Lured() && Settled() && Ledger() && Chronicle()
    }

    ghost predicate Ready()
      reads `state, `child, `last, `log, `inProgress, `queue, `taken, `target, `clock, `performed, `hits, `step,
            `entering, `bait, `deeds, `said, `since
    {
      Tables() && Balanced() && Typed(h.tree, Cfg())
    }

    // ------------------------------------------------------------ counters

    /** event::broadcast, first loop: count this event and its bases as in progress. */
    method Raise(e: nat)
      requires Tables() && IsEvent(h, e)
      modifies `inProgress
      ensures |inProgress| == |old(inProgress)|
      ensures forall x :: 0 <= x < |inProgress| ==> inProgress[x] == old(inProgress)[x] + Once(Derives(h, e, x))
    {
      var it: Option<nat> := Some(e);
      ghost var level := h.level[e] + 1;
      while it.Some?
        invariant |inProgress| == |old(inProgress)|
        invariant it.Some? ==> IsEvent(h, it.value) && h.level[it.value] < level && Derives(h, e, it.value)
        invariant forall x :: 0 <= x < |inProgress| ==>
          inProgress[x] == old(inProgress)[x] + Once(Derives(h, e, x) && !(it.Some? && Derives(h, it.value, x)))
        decreases level
      {
        var x := it.value;
        level := h.level[x];
        ChainOfBases(h, e, x);
        inProgress := inProgress[x := inProgress[x] + 1];
        it := h.base[x];
      }
    }

    /** event::broadcasted: uncount this event and its bases.  The caller's obligation is that every guard
        holds, so no decrement is ever skipped. */
    method Lower(e: nat)
      requires Tables() && IsEvent(h, e)
      requires forall x :: 0 <= x < |inProgress| && Derives(h, e, x) ==> inProgress[x] > 0
      modifies `inProgress
      ensures |inProgress| == |old(inProgress)|
      ensures forall x :: 0 <= x < |inProgress| ==> inProgress[x] == old(inProgress)[x] - Once(Derives(h, e, x))
    {
      if inProgress[e] > 0 {
        var it: Option<nat> := Some(e);
        ghost var level := h.level[e] + 1;
        while it.Some?
          invariant |inProgress| == |old(inProgress)|
          invariant it.Some? ==> IsEvent(h, it.value) && h.level[it.value] < level && Derives(h, e, it.value)
          invariant forall x :: 0 <= x < |inProgress| ==>
            inProgress[x] == old(inProgress)[x] - Once(Derives(h, e, x) && !(it.Some? && Derives(h, it.value, x)))
          decreases level
        {
          var x := it.value;
          level := h.level[x];
          ChainOfBases(h, e, x);
          if inProgress[x] > 0 {
            inProgress := inProgress[x := inProgress[x] - 1];
          }
          it := h.base[x];
        }
      }
    }

    // ------------------------------------------------------------ selection

    /** The marking half of find_transition, for one enabled transition of the event being broadcast. */
    method Select(e: nat, t: nat)
      requires Tables() && IsEvent(h, e) && Books(queue + [e]) && IsTransition(h, t) && t in Chain(h, e)
      requires state[h.transition[t].from] == Active
      modifies `state, `taken, `target
      ensures Tables() && Books(queue + [e])
      ensures taken == old(taken)[t := if old(taken)[t] == None then Some(e) else old(taken)[t]]
      ensures state == if External(h, t) then old(state)[h.transition[t].from := Disabled] else old(state)
    {
      hide Valid, EventsOk, WorldOk, Load, Derives;
      var from := h.transition[t].from;
      if taken[t] == None {
        taken := taken[t := Some(e)];
      }
      if External(h, t) {
        target := target[t := h.transition[t].to];
        state := state[from := Disabled];
      }
    }

    /** The marks `e` leaves: `n` places of its chain have been looked at. */
    ghost predicate Found(e: nat, n: nat, state0: seq<Activity>, taken0: seq<Option<nat>>, k: Past)
      requires Tables() && IsEvent(h, e) && |state0| == |state| && |taken0| == |taken|
      reads `state, `inProgress, `taken, `target
    {
      var ids := Chain(h, e);
      && (forall s :: 0 <= s < |state| ==>
            state[s] == if exists i :: && 0 <= i < n && Selected(h, w, state0, e, k, i) && External(h, ids[i])
                                       && h.transition[ids[i]].from == s
                        then Disabled else state0[s])
      && (forall t :: 0 <= t < |taken| ==>
            taken[t] == if taken0[t] == None && exists i :: 0 <= i < n && Selected(h, w, state0, e, k, i) && ids[i] == t
                        then Some(e) else taken0[t])
    }

    /** event::find_transition.  Selected transitions are marked and external ones disable their source. */
    method FindTransition(e: nat) returns (found: bool)
      requires Tables() && IsEvent(h, e) && Books(queue + [e])
      requires forall t :: 0 <= t < |taken| ==> taken[t] != Some(e)
      modifies `state, `taken, `target
      ensures Tables() && Books(queue + [e])
      ensures Found(e, |Chain(h, e)|, old(state), old(taken), old(Seen()))
      ensures found <==> exists i :: Selected(h, w, old(state), e, old(Seen()), i)
      ensures !found ==> state == old(state) && taken == old(taken) && target == old(target)
    {
      hide Books, Valid, EventsOk, WorldOk, TransitionsOk;
      found := false;
      for j := 0 to |Chain(h, e)|
        invariant Tables() && Books(queue + [e])
        invariant Found(e, j, old(state), old(taken), Seen())
        invariant found <==> exists i :: 0 <= i < j && Selected(h, w, old(state), e, Seen(), i)
        invariant !found ==> state == old(state) && taken == old(taken) && target == old(target)
      {
        var picked := Consider(e, j, old(state), old(taken));
        found := found || picked;
      }
    }

    /** One turn of find_transition's loop. */
    method Consider(e: nat, j: nat, ghost state0: seq<Activity>, ghost taken0: seq<Option<nat>>)
      returns (picked: bool)
      requires Tables() && IsEvent(h, e) && Books(queue + [e]) && j < |Chain(h, e)|
      requires |state0| == |state| && |taken0| == |taken| && Found(e, j, state0, taken0, Seen())
      modifies `state, `taken, `target
      ensures Tables() && Books(queue + [e]) && Found(e, j + 1, state0, taken0, Seen())
      ensures picked <==> Selected(h, w, state0, e, Seen(), j)
      ensures !picked ==> state == old(state) && taken == old(taken) && target == old(target)
    {
      hide Books, Valid, EventsOk, WorldOk, Chain;
      var t := Chain(h, e)[j];
      SelectedHere(e, j, state0, taken0, Seen());
      picked := state[h.transition[t].from] == Active && w.condition(t, e, Seen());
      if picked {
        NotYetMarked(e, j, state0, taken0, Seen());
        Select(e, t);
      }
    }

    lemma NotYetMarked(e: nat, j: nat, state0: seq<Activity>, taken0: seq<Option<nat>>, k: Past)
      requires Tables() && IsEvent(h, e) && |state0| == |state| && |taken0| == |taken| && j < |Chain(h, e)|
      requires Found(e, j, state0, taken0, k)
      ensures Chain(h, e)[j] < |taken| && taken[Chain(h, e)[j]] == taken0[Chain(h, e)[j]]
    {
      ChainOk(h, e);
    }

    /** The engine's test at place `j` picks the declaratively selected transitions. */
    lemma SelectedHere(e: nat, j: nat, state0: seq<Activity>, taken0: seq<Option<nat>>, k: Past)
      requires Tables() && IsEvent(h, e) && |state0| == |state| && |taken0| == |taken| && j < |Chain(h, e)|
      requires Found(e, j, state0, taken0, k)
      ensures IsTransition(h, Chain(h, e)[j])
      ensures Selected(h, w, state0, e, k, j) <==>
                state[h.transition[Chain(h, e)[j]].from] == Active && w.condition(Chain(h, e)[j], e, k)
    {
      var ids := Chain(h, e);
      ChainOk(h, e);
      var s := h.transition[ids[j]].from;
      if state0[s] == Active && state[s] != Active {
        var i :| && 0 <= i < j && Selected(h, w, state0, e, k, i) && External(h, ids[i])
                 && h.transition[ids[i]].from == s;
        assert Enabled(h, w, state0, e, k, i);
      }
      if state[s] == Active && w.condition(ids[j], e, k) {
        forall m | 0 <= m < j && External(h, ids[m]) && Enabled(h, w, state0, e, k, m)
          ensures h.transition[ids[m]].from != s
        {
          if h.transition[ids[m]].from == s {
            EarliestSelected(h, w, state0, e, k, m);
          }
        }
      }
    }

    // ------------------------------------------------------------ broadcasting

    /** event::broadcast up to its call of algorithm().  A refused event leaves no trace; an accepted one
        goes to the end of the queue and its selected transitions are marked. */
    method Post(e: nat, pre: bool) returns (queued: bool)
      requires Tables() && IsEvent(h, e) && Books(queue) && Lured() && Ledger()
      modifies `state, `inProgress, `queue, `taken, `target, `clock, `said
      ensures Tables() && Books(queue) && Lured() && Ledger() && On() == old(On())
      ensures Later(h, performed, step, old(Sight()), Sight())
      ensures queued <==> old(inProgress)[e] == 0 && pre && exists i :: Selected(h, w, old(state), e, old(Seen()), i)
      ensures queue == if queued then old(queue) + [e] else old(queue)
      ensures queued ==> Found(e, |Chain(h, e)|, old(state), old(taken), old(Seen()))
      ensures !queued ==> state == old(state) && inProgress == old(inProgress) && taken == old(taken)
                          && target == old(target)
      ensures clock == old(clock) + 1
      ensures said == old(said) + [Offer(Call(e, pre), queued, old(Marking(e, queued)))]
      ensures old(Settled()) ==> Settled()
      ensures bait.Some? && e == bait.value.e && pre ==> Settled()
    {
      hide Books, Lured, Settled, Found, Later, Stuck, Ledger;
      queued := Attempt(e, pre);
      said := said + [Offer(Call(e, pre), queued, old(Marking(e, queued)))];
      clock := clock + 1;
      if queued {
        QueuedLater(e);
        QueuedLure(e);
        QueuedLedger(e);
      } else {
        RefusedLater();
        RefusedLure();
        RefusedLedger();
        if pre {
          RefusedSettles(e);
        }
      }
    }

    /** The transitions a broadcast of `e` is going to mark, if it is queued. */
    ghost function Marking(e: nat, queued: bool): seq<nat>
      requires Tables() && IsEvent(h, e)
      reads `state, `inProgress, `taken, `target, `clock, `log
    {
      if queued then Chosen(h, w, state, taken, e, Seen(), |Chain(h, e)|) else []
    }

    /** Counting the event, its precondition, looking for transitions, and queueing or giving up. */
    method Attempt(e: nat, pre: bool) returns (queued: bool)
      requires Tables() && IsEvent(h, e) && Books(queue)
      modifies `state, `inProgress, `queue, `taken, `target
      ensures Tables() && Books(queue)
      ensures queued <==> old(inProgress)[e] == 0 && pre && exists i :: Selected(h, w, old(state), e, old(Seen()), i)
      ensures queue == if queued then old(queue) + [e] else old(queue)
      ensures queued ==> Found(e, |Chain(h, e)|, old(state), old(taken), old(Seen()))
      ensures !queued ==> state == old(state) && inProgress == old(inProgress) && taken == old(taken)
                          && target == old(target)
    {
      hide Books, Found;
      queued := false;
      if inProgress[e] > 0 {
        return;
      }
      NotLive(queue, e);
      GoLive(e);
      if pre {
        queued := FindTransition(e);
      }
      if queued {
        queue := queue + [e];
      } else {
        Cancel(e, old(inProgress));
      }
    }

    /** What find_transition marks for `e` is what the broadcast chose, in order. */
    twostate lemma MarkedIsChosen(e: nat)
      requires old(Tables()) && Tables() && IsEvent(h, e) && old(Books(queue)) && old(inProgress)[e] == 0
      requires Found(e, |Chain(h, e)|, old(state), old(taken), old(Seen()))
      ensures forall i :: 0 <= i < |Chain(h, e)| ==> Chain(h, e)[i] < |taken|
      ensures Marked(taken, e, Chain(h, e)) == Chosen(h, w, old(state), old(taken), e, old(Seen()), |Chain(h, e)|)
    {
      NotLiveThen(e);
      ChainOk(h, e);
      var ids := Chain(h, e);
      MarkedChosen(h, w, old(state), old(taken), taken, e, old(Seen()), |ids|);
      assert ids[..|ids|] == ids;
    }

    twostate lemma QueuedLedger(e: nat)
      requires old(Tables()) && Tables() && IsEvent(h, e) && old(Books(queue)) && Books(queue) && old(Ledger())
      requires step == old(step) && deeds == old(deeds) && since == old(since)
      requires old(inProgress)[e] == 0 && queue == old(queue) + [e]
      requires |said| == |old(said)| + 1 && said == old(said) + [said[|old(said)|]]
      requires var o := said[|old(said)|]; o.queued && o.call.event == e && o.marks == old(Marking(e, true))
      requires Found(e, |Chain(h, e)|, old(state), old(taken), old(Seen()))
      ensures Ledger()
    {
      NotLiveThen(e);
      FoundGrows(e);
      MarkedIsChosen(e);
      hide Found, Chosen, Marked, Chain, Valid, EventsOk, Agenda, Offers, LedgerOk, Books;
      var o := said[|old(said)|];
      assert Told() == old(Told()) + [o];
      LedgerQueued(h, old(taken), taken, old(queue), step, old(Told()), since, o);
    }

    twostate lemma RefusedLedger()
      requires old(Tables()) && Tables() && old(Ledger()) && step == old(step) && deeds == old(deeds)
      requires since == old(since) && queue == old(queue) && taken == old(taken)
      requires |said| == |old(said)| + 1 && said == old(said) + [said[|old(said)|]]
      requires var o := said[|old(said)|]; !o.queued && o.marks == []
      ensures Ledger()
    {
      hide LedgerOk, Offers;
      var o := said[|old(said)|];
      assert Told() == old(Told()) + [o];
      LedgerRefused(h, taken, queue, step, old(Told()), since, o);
    }

    lemma NotLive(live: seq<nat>, e: nat)
      requires Tables() && IsEvent(h, e) && Books(live) && inProgress[e] == 0
      ensures e !in live && forall t :: 0 <= t < |taken| ==> taken[t] != Some(e)
    {
      if e in live {
        LoadMember(h, live, e, e);
      }
    }

    /** The event counts as live before it is queued. */
    method GoLive(e: nat)
      requires Tables() && IsEvent(h, e) && Books(queue) && e !in queue
      modifies `inProgress
      ensures Tables() && Books(queue + [e]) && |inProgress| == |old(inProgress)|
      ensures forall x :: 0 <= x < |inProgress| ==> inProgress[x] == old(inProgress)[x] + Once(Derives(h, e, x))
    {
      Raise(e);
      forall x | 0 <= x < |inProgress| ensures inProgress[x] == Load(h, queue + [e], x) {
        LoadAppend(h, queue, e, x);
      }
    }

    /** A broadcast that came to nothing gives back what it counted. */
    method Cancel(e: nat, ghost before: seq<nat>)
      requires Tables() && IsEvent(h, e) && Books(queue + [e]) && |before| == |inProgress|
      requires forall t :: 0 <= t < |taken| ==> taken[t] != Some(e)
      requires forall x :: 0 <= x < |before| ==> inProgress[x] == before[x] + Once(Derives(h, e, x))
      modifies `inProgress
      ensures Tables() && Books(queue) && inProgress == before
    {
      Lower(e);
      forall x | 0 <= x < |inProgress| ensures inProgress[x] == Load(h, queue, x) {
        LoadAppend(h, queue, e, x);
      }
      assert forall i :: 0 <= i < |queue| ==> queue[i] == (queue + [e])[i];
    }

    // ------------------------------------------------------------ what a broadcast leaves disabled

    lemma StuckIsOn()
      requires Tables()
      ensures Stuck() <= On()
    {
    }

    twostate lemma FoundGrows(e: nat)
      requires old(Tables()) && Tables() && IsEvent(h, e) && e !in old(queue) && queue == old(queue) + [e]
      requires Found(e, |Chain(h, e)|, old(state), old(taken), old(Seen()))
      ensures Grown(old(queue), old(taken), queue, taken) && On() == old(On())
      ensures forall s :: 0 <= s < |state| && state[s] != old(state[s]) ==>
                old(state[s]) == Active && state[s] == Disabled
    {
      forall s | 0 <= s < |state| && state[s] != old(state[s])
        ensures old(state[s]) == Active && state[s] == Disabled
      {
        var i :| && 0 <= i < |Chain(h, e)| && Selected(h, w, old(state), e, old(Seen()), i)
                 && External(h, Chain(h, e)[i])
                 && h.transition[Chain(h, e)[i]].from == s;
        assert Enabled(h, w, old(state), e, old(Seen()), i);
      }
    }

    /** A state that was disabled before a broadcast awaits the same transitions after it. */
    twostate lemma AwaitedStays(e: nat)
      requires old(Tables()) && Tables() && IsEvent(h, e) && performed == old(performed)
      requires Found(e, |Chain(h, e)|, old(state), old(taken), old(Seen()))
      ensures forall s: nat :: s < |state| && old(state[s]) == Disabled ==> (Awaits(s) <==> old(Awaits(s)))
    {
      forall i | 0 <= i < |Chain(h, e)| && Selected(h, w, old(state), e, old(Seen()), i)
        ensures old(state)[h.transition[Chain(h, e)[i]].from] == Active
      {
        assert Enabled(h, w, old(state), e, old(Seen()), i);
      }
      forall s: nat, t: nat | s < |state| && old(state[s]) == Disabled
        ensures Awaited(t, s) <==> old(Awaited(t, s))
      {
      }
    }

    /** What a broadcast disables awaits the transition selected, unless that has been performed already. */
    twostate lemma NewlyStuck(e: nat)
      requires old(Tables()) && Tables() && IsEvent(h, e) && performed == old(performed) && LiveOk(h, step)
      requires old(Books(queue)) && step == old(step) && step <= old(queue) && old(inProgress)[e] == 0
      requires Found(e, |Chain(h, e)|, old(state), old(taken), old(Seen()))
      ensures forall s :: s in Stuck() && old(state[s]) != Disabled ==> s in Exposed(h, On(), performed, step)
    {
      LoadPrefix(h, step, old(queue), e);
      var ids := Chain(h, e);
      forall s | s in Stuck() && old(state[s]) != Disabled ensures s in Exposed(h, On(), performed, step) {
        var i :| && 0 <= i < |ids| && Selected(h, w, old(state), e, old(Seen()), i) && External(h, ids[i])
                 && h.transition[ids[i]].from == s;
        assert taken[ids[i]].Some?;
        assert !Awaited(ids[i], s);
        assert Shared(h, ids[i], step);
      }
    }

    twostate lemma QueuedLater(e: nat)
      requires old(Tables()) && Tables() && IsEvent(h, e) && performed == old(performed) && deeds == old(deeds)
      requires old(Books(queue)) && old(Lured()) && step == old(step) && old(inProgress)[e] == 0
      requires queue == old(queue) + [e]
      requires Found(e, |Chain(h, e)|, old(state), old(taken), old(Seen()))
      ensures On() == old(On()) && LiveOk(h, step) && Later(h, performed, step, old(Sight()), Sight())
    {
      hide Found, Exposed, Grown;
      assert forall x :: x in step ==> x in old(queue);
      NotLiveThen(e);
      FoundGrows(e);
      AwaitedStays(e);
      NewlyStuck(e);
      forall s | s in old(Stuck()) ensures s in Stuck() {
        assert state[s] == Disabled;
      }
      forall s | s in Stuck() ensures s in old(Stuck()) + Exposed(h, On(), performed, step) {
        assert old(state[s]) == Disabled || s in Exposed(h, On(), performed, step);
      }
      assert old(Stuck()) <= old(On()) && old(On()) + On() == On();
    }

    twostate lemma NotLiveThen(e: nat)
      requires old(Tables()) && IsEvent(h, e) && old(Books(queue)) && old(inProgress)[e] == 0
      ensures e !in old(queue) && forall t :: 0 <= t < |old(taken)| ==> old(taken)[t] != Some(e)
    {
      if e in old(queue) {
        LoadMember(h, old(queue), e, e);
      }
    }

    twostate lemma RefusedLater()
      requires old(Tables()) && Tables() && old(Books(queue)) && old(Lured())
      requires performed == old(performed) && step == old(step) && deeds == old(deeds)
      requires state == old(state) && taken == old(taken) && queue == old(queue)
      ensures On() == old(On()) && LiveOk(h, step) && Later(h, performed, step, old(Sight()), Sight())
    {
      assert forall x :: x in step ==> x in old(queue);
      AwaitsStay();
      assert Stuck() == old(Stuck()) && Stuck() <= On();
    }

    // ------------------------------------------------------------ what it does under observation

    /** User code that provokes lets no other transition be selected. */
    lemma OnlyTheBait(state0: seq<Activity>, e: nat, k: Past, i: nat)
      requires Tables() && IsEvent(h, e) && |state0| == |state| && Selected(h, w, state0, e, k, i)
      requires bait.Some? && Provokes(w, bait.value) && bait.value.calls <= k.calls
      ensures Chain(h, e)[i] == bait.value.t && e == bait.value.e && Back(bait.value, k.log)
    {
    }

    twostate lemma QueuedLure(e: nat)
      requires old(Tables()) && Tables() && IsEvent(h, e) && old(Books(queue)) && Books(queue) && old(Lured())
      requires performed == old(performed) && step == old(step) && hits == old(hits) && entering == old(entering)
      requires bait == old(bait) && log == old(log) && clock >= old(clock)
      requires old(inProgress)[e] == 0 && queue == old(queue) + [e] && On() == old(On())
      requires Found(e, |Chain(h, e)|, old(state), old(taken), old(Seen()))
      requires exists i :: Selected(h, w, old(state), e, old(Seen()), i)
      ensures Lured() && Settled()
    {
      hide Valid, TransitionsOk, WorldOk, NoEmptyClusters, Load;
      if bait.Some? {
        var b := bait.value;
        var i :| Selected(h, w, old(state), e, old(Seen()), i);
        OnlyTheBait(old(state), e, old(Seen()), i);
        NotLiveThen(e);
        if entering && (b.t in performed || b.t in hits) {
          assert old(Poised(b));
          forall t | 0 <= t < |taken| ensures taken[t] != Some(e) {
            if taken[t] == Some(e) {
              var j :| 0 <= j < |Chain(h, e)| && Selected(h, w, old(state), e, old(Seen()), j) && Chain(h, e)[j] == t;
              OnlyTheBait(old(state), e, old(Seen()), j);
            }
          }
          assert state[b.s] == Disabled;
          assert Caught(b);
        }
      }
    }

    twostate lemma RefusedLure()
      requires old(Tables()) && Tables() && old(Lured())
      requires performed == old(performed) && step == old(step) && hits == old(hits) && entering == old(entering)
      requires bait == old(bait) && log == old(log) && clock >= old(clock)
      requires state == old(state) && taken == old(taken) && queue == old(queue)
      ensures Lured() && (old(Settled()) ==> Settled())
    {
    }

    /** Poised user code is not refused its event. */
    twostate lemma RefusedSettles(e: nat)
      requires old(Tables()) && Tables() && IsEvent(h, e) && old(Books(queue)) && old(Lured()) && step == old(step)
      requires bait == old(bait) && log == old(log) && entering == old(entering) && performed == old(performed)
      requires state == old(state) && taken == old(taken) && queue == old(queue)
      requires old(inProgress)[e] == 0 ==> !exists i :: Selected(h, w, old(state), e, old(Seen()), i)
      ensures bait.Some? && e == bait.value.e ==> Settled()
    {
      if bait.Some? && e == bait.value.e && old(Poised(bait.value)) {
        BaitIsTaken();
      }
    }

    twostate lemma BaitIsTaken()
      requires old(Tables()) && old(Books(queue)) && bait.Some? && bait == old(bait)
      requires old(BaitOk(bait.value)) && old(Poised(bait.value))
      ensures old(inProgress)[bait.value.e] == 0
      ensures exists i :: Selected(h, w, old(state), bait.value.e, old(Seen()), i)
    {
      var b := bait.value;
      var ids := Chain(h, b.e);
      ChainOk(h, b.e);
      var i :| 0 <= i < |ids| && ids[i] == b.t;
      assert Enabled(h, w, old(state), b.e, old(Seen()), i);
      assert Selected(h, w, old(state), b.e, old(Seen()), i);
    }

    // ------------------------------------------------------------ user code

    /** User code runs with the machine in progress, or enters states for the first time without broadcasting:
        it is called at most once for each state that is still inactive. */
    ghost predicate MayCall()
      reads `running, `bait, `entering, `clock, `state
    {
      if running then bait.Some? ==> entering
      else
        && bait.None?
        && (forall s, p: Past :: p.calls < clock + |Off()| ==> w.enterAction(s, p) == [])
        && (forall s :: s in h.enterEvent ==> s == None)
    }

    /** What stays the same while states are entered silently. */
    ghost function Tally(): (seq<nat>, int, int)
      reads `queue, `clock, `log, `state
    {
      (queue, clock + |Off()|, |log| + |Off()|)
    }

    /** The event of an entered or exited state, if there is one. */
    method Announce(ev: Option<nat>)
      requires Tables() && Books(queue) && Lured() && Ledger() && (ev.Some? ==> IsEvent(h, ev.value))
      requires running || ev.None?
      modifies `state, `inProgress, `queue, `taken, `target, `clock, `said
      ensures Tables() && Books(queue) && Lured() && Ledger() && On() == old(On()) && LiveOk(h, step)
      ensures Later(h, performed, step, old(Sight()), Sight())
      ensures CallsOf(said) == CallsOf(old(said)) + EventCall(ev) && clock == old(clock) + |EventCall(ev)|
      ensures old(Settled()) ==> Settled()
      ensures !running ==> queue == old(queue)
    {
      hide Books, Lured, Settled, Later, Stuck, Ledger;
      LiveStep();
      StuckIsOn();
      LaterSame(h, performed, step, Sight());
      if ev.Some? {
        var _ := Post(ev.value, true);
      }
    }

    /** What an action broadcasts, one call after another.  algorithm() returns at once from these nested broadcasts
        because the machine is in progress. */
    method Notify(calls: seq<Call>)
      requires Tables() && Books(queue) && Lured() && Ledger() && CallsOk(h, calls)
      requires running || calls == []
      modifies `state, `inProgress, `queue, `taken, `target, `clock, `said
      ensures Tables() && Books(queue) && Lured() && Ledger() && On() == old(On()) && LiveOk(h, step)
      ensures Later(h, performed, step, old(Sight()), Sight())
      ensures CallsOf(said) == CallsOf(old(said)) + calls && clock == old(clock) + |calls|
      ensures old(Settled()) ==> Settled()
      ensures bait.Some? && Call(bait.value.e, true) in calls ==> Settled()
      ensures !running ==> queue == old(queue)
    {
      hide Books, Lured, Settled, Later, Stuck, Ledger;
      LiveStep();
      StuckIsOn();
      LaterSame(h, performed, step, Sight());
      ghost var v0, said0, clock0, on0 := Sight(), said, clock, On();
      ghost var settled := Settled();
      assert Telling(0, calls, v0, said0, clock0, on0, settled);
      assert !running ==> queue == old(queue);
      hide Telling;
      for i := 0 to |calls|
        invariant Tables() && Telling(i, calls, v0, said0, clock0, on0, settled)
        invariant !running ==> queue == old(queue)
      {
        assert running;
        NotifyOne(i, calls, v0, said0, clock0, on0, settled);
      }
      AllTold(calls, v0, said0, clock0, on0, settled);
    }

    /** The first `i` of `calls` have been broadcast. */
    ghost predicate Telling(
      i: nat, calls: seq<Call>, v0: View, said0: seq<Offer>, clock0: nat, on0: set<nat>, settled: bool)
      requires Tables()
      reads `state, `inProgress, `queue, `taken, `target, `clock, `log, `performed, `hits, `step, `entering, `bait,
            `deeds, `said, `since
    {
      && i <= |calls| && Books(queue) && Lured() && Ledger() && On() == on0 == v0.on && LiveOk(h, step)
      && Later(h, performed, step, v0, Sight())
      && CallsOf(said) == CallsOf(said0) + calls[..i] && clock == clock0 + i
      && (settled ==> Settled())
      && (bait.Some? && Call(bait.value.e, true) in calls[..i] ==> Settled())
    }

    method NotifyOne(
      i: nat, calls: seq<Call>, ghost v0: View, ghost said0: seq<Offer>, ghost clock0: nat, ghost on0: set<nat>,
      ghost settled: bool)
      requires Tables() && i < |calls| && CallsOk(h, calls) && Telling(i, calls, v0, said0, clock0, on0, settled)
      modifies `state, `inProgress, `queue, `taken, `target, `clock, `said
      ensures Tables() && Telling(i + 1, calls, v0, said0, clock0, on0, settled)
    {
      hide Books, Lured, Settled, Later, Stuck, Ledger, Valid, TransitionsOk, WorldOk;
      ghost var v, before := Sight(), said;
      var _ := Post(calls[i].event, calls[i].pre);
      LaterTrans(h, performed, step, v0, v, Sight());
      assert calls[..i + 1] == calls[..i] + [calls[i]];
      assert CallsOf(said) == CallsOf(before) + [calls[i]];
    }

    lemma AllTold(calls: seq<Call>, v0: View, said0: seq<Offer>, clock0: nat, on0: set<nat>, settled: bool)
      requires Tables() && Telling(|calls|, calls, v0, said0, clock0, on0, settled)
      ensures Books(queue) && Lured() && Ledger() && On() == on0 && LiveOk(h, step)
      ensures Later(h, performed, step, v0, Sight())
      ensures CallsOf(said) == CallsOf(said0) + calls && clock == clock0 + |calls|
      ensures settled ==> Settled()
      ensures bait.Some? && Call(bait.value.e, true) in calls ==> Settled()
    {
      hide Books, Lured, Settled, Later, Ledger, Sight;
      assert calls[..|calls|] == calls;
    }

    /** An act is over: its broadcasts go on record. */
    ghost method Close(a: Act, past: Past)
      requires Tables() && Ledger() && Chronicled(h, w, deeds) && Right(h, w, Deed(a, past, said))
      requires clock == Ticks(deeds) + |said| + (if a.Outside? then 0 else 1)
      requires log == StepsOf(deeds) + StepOf(a)
      requires !a.Outside? ==> past == Past(Ticks(deeds) + Before(h, a), log)
      modifies `deeds, `said
      ensures Ledger() && Chronicle() && deeds == old(deeds) + [Deed(a, past, old(said))] && Told() == old(Told())
    {
      hide LedgerOk, Right, ValidChart, WorldOk;
      var d := Deed(a, past, said);
      OneDeed(deeds, d);
      ChronicledMore(h, w, deeds, d);
      deeds, said := deeds + [d], [];
      assert Told() == old(Told());
    }

    /** The action of `a` broadcasts the event of the bait. */
    ghost predicate Answering(a: Act)
      reads `bait, `clock
    {
      bait.Some? && forall p: Past :: p.calls >= clock ==> Call(bait.value.e, true) in ActionCalls(w, a, p)
    }

    /** What an act broadcasts: the event of the state, if there is one, then whatever the action asks for. */
    method Report(a: Act) returns (ghost d: Deed)
      requires Tables() && Books(queue) && Lured() && Ledger() && said == [] && Chronicled(h, w, deeds)
      requires ActOk(h, a) && clock == Ticks(deeds) && log == StepsOf(deeds) + StepOf(a)
      requires running || (EventOf(h, a) == None && ActionCalls(w, a, Seen()) == [])
      modifies `state, `inProgress, `queue, `taken, `target, `clock, `deeds, `said
      ensures Tables() && Books(queue) && Lured() && Ledger() && Chronicle() && On() == old(On()) && LiveOk(h, step)
      ensures Later(h, performed, step, old(Sight()), Sight().(deeds := old(deeds)))
      ensures deeds == old(deeds) + [d] && d.act == a
      ensures d.past == Past(old(clock) + |EventCall(EventOf(h, a))|, log)
      ensures CallsOf(d.said) == EventCall(EventOf(h, a)) + ActionCalls(w, a, d.past)
      ensures old(Settled()) ==> Settled()
      ensures old(Answering(a)) ==> Settled()
      ensures !running ==> queue == old(queue) && clock == old(clock) + 1
    {
      hide Books, Lured, Settled, Ledger, Chronicled, Later, ActOk, ActionCalls, EventOf, Ticks, StepsOf, Stuck, Valid;
      hide TransitionsOk, WorldOk, Right, Before, CallsOf, EventCall;
      ghost var past := Speak(a);
      ghost var v := Sight();
      d := Conclude(a, past);
      assert Sight().(deeds := old(deeds)) == v;
    }

    /** The act is over and goes on record. */
    method Conclude(a: Act, ghost past: Past) returns (ghost d: Deed)
      requires Tables() && Lured() && Books(queue) && Ledger() && Chronicled(h, w, deeds) && ActOk(h, a)
      requires CallsOf(said) == EventCall(EventOf(h, a)) + ActionCalls(w, a, past)
      requires clock == Ticks(deeds) + |said| && log == StepsOf(deeds) + StepOf(a)
      requires past == Past(Ticks(deeds) + |EventCall(EventOf(h, a))|, log)
      modifies `clock, `deeds, `said
      ensures Lured() && Ledger() && Chronicle()
      ensures d == Deed(a, past, old(said)) && deeds == old(deeds) + [d] && clock == old(clock) + 1
    {
      hide Books, Lured, Ledger, Chronicled, ActionCalls, EventOf, Ticks, StepsOf, ValidChart, WorldOk, EventCall;
      hide CallsOf, Right, Before, Told;
      d := Deed(a, past, said);
      Tick();
      ReportRight(d);
      Close(a, past);
    }

    /** The broadcasts of an act, of which the last come from its action. */
    method Speak(a: Act) returns (ghost past: Past)
      requires Tables() && Books(queue) && Lured() && Ledger() && said == [] && ActOk(h, a)
      requires running || (EventOf(h, a) == None && ActionCalls(w, a, Seen()) == [])
      modifies `state, `inProgress, `queue, `taken, `target, `clock, `said
      ensures Tables() && Books(queue) && Lured() && Ledger() && On() == old(On()) && LiveOk(h, step)
      ensures Later(h, performed, step, old(Sight()), Sight())
      ensures past == Past(old(clock) + |EventCall(EventOf(h, a))|, log)
      ensures CallsOf(said) == EventCall(EventOf(h, a)) + ActionCalls(w, a, past) && clock == old(clock) + |said|
      ensures old(Settled()) ==> Settled()
      ensures old(Answering(a)) ==> Settled()
      ensures !running ==> queue == old(queue) && said == []
    {
      hide Books, Lured, Settled, Ledger, Later, Stuck, Valid, TransitionsOk;
      ActionOk(h, w, a);
      hide WorldOk, ActionCalls, EventOf;
      Announce(EventOf(h, a));
      ghost var v := Sight();
      past := Seen();
      Notify(ActionCalls(w, a, Seen()));
      LaterTrans(h, performed, step, old(Sight()), v, Sight());
    }

    lemma ReportRight(d: Deed)
      requires ActOk(h, d.act) && CallsOf(d.said) == EventCall(EventOf(h, d.act)) + ActionCalls(w, d.act, d.past)
      ensures Right(h, w, d) && Before(h, d.act) == |EventCall(EventOf(h, d.act))|
    {
    }

    lemma LiveStep()
      requires Tables() && Books(queue) && Lured()
      ensures LiveOk(h, step)
    {
      assert forall x :: x in step ==> x in queue;
    }

    method Tick()
      requires Tables() && Books(queue) && Lured()
      modifies `clock
      ensures clock == old(clock) + 1 && Lured()
    {
      clock := clock + 1;
    }

    // ------------------------------------------------------------ entering

    /** The virtual enter(): dispatch on the kind of state. */
    method Enter(s: nat, from: Option<nat>) returns (entered: bool)
      requires Ready() && MayCall() && IsState(h.tree, s)
      requires from.Some? ==> from.value in h.tree.children[s]
      modifies `state, `child, `last, `inProgress, `queue, `taken, `target, `clock, `log, `deeds, `said
      ensures Tables() && Balanced() && MayCall() && LiveOk(h, step)
      ensures Later(h, performed, step, old(Sight()), Sight())
      ensures (Cfg(), entered) == Open(h.tree, old(Cfg()), s, from)
      ensures !running ==> Tally() == old(Tally())
      decreases Off(), h.tree.rank[s], 2
    {
      match h.tree.kind[s] {
        case Plain => entered := StateEnter(s);
        case Cluster => entered := ClusterEnter(s, from);
        case Set => entered := SetEnter(s, from);
      }
    }

    /** state::enter. */
    method StateEnter(s: nat) returns (entered: bool)
      requires Ready() && MayCall() && IsState(h.tree, s)
      modifies `state, `child, `last, `inProgress, `queue, `taken, `target, `clock, `log, `deeds, `said
      ensures Tables() && Balanced() && MayCall() && LiveOk(h, step)
      ensures Later(h, performed, step, old(Sight()), Sight())
      ensures (Cfg(), entered) == Admit(h.tree, old(Cfg()), s)
      ensures !running ==> Tally() == old(Tally())
      decreases Off(), h.tree.rank[s], 0
    {
      hide Balanced, MayCall, EventsOk, TransitionsOk, WorldOk, Later, Stuck, Tally, LiveOk, NoEmptyClusters, Within;
      hide CallsOf, EventCall, Height, Fill, Performed;
      LaterNow();
      if state[s] != Inactive {
        return false;
      }
      if s != ROOT {
        var p := h.tree.parent[s];
        if state[p] == Inactive {
          var _ := Enter(p, Some(s));
          if state[s] != Inactive {
            return false;
          }
        } else {
          var granted := SwitchActiveChildTo(p, s);
          if !granted {
            return false;
          }
        }
      }
      ghost var v := Sight();
      ghost var _ := BecomeActive(s);
      LaterTrans(h, performed, step, old(Sight()), v, Sight());
      return true;
    }

    lemma LaterNow()
      requires Tables() && Balanced()
      ensures LiveOk(h, step) && Later(h, performed, step, Sight(), Sight())
    {
      LiveStep();
      StuckIsOn();
    }

    /** The second half of state::enter: activation, the enter event and the enter action. */
    method BecomeActive(s: nat) returns (ghost d: Deed)
      requires Tables() && Balanced() && MayCall() && IsState(h.tree, s) && state[s] == Inactive
      modifies `state, `inProgress, `queue, `taken, `target, `clock, `log, `deeds, `said
      ensures Tables() && Balanced() && MayCall() && LiveOk(h, step)
      ensures Later(h, performed, step, old(Sight()), Sight())
      ensures Cfg() == Mark(old(Cfg()), s)
      ensures deeds == old(deeds) + [d] && d.act == Entering(s)
      ensures d.past == Past(old(clock) + |EventCall(h.enterEvent[s])|, old(log) + [Entered(s)])
      ensures CallsOf(d.said) == EventCall(h.enterEvent[s]) + w.enterAction(s, d.past)
      ensures !running ==> Tally() == old(Tally())
    {
      hide Balanced, Later, Stuck, ValidChart, WorldOk, CallsOf, EventCall, Tally, MayCall, ActOk, Answering;
      UserCode(s);
      d := Arise(s);
      StillSilent(s);
    }

    method Arise(s: nat) returns (ghost d: Deed)
      requires Tables() && Balanced() && IsState(h.tree, s) && state[s] == Inactive && (bait.Some? ==> entering)
      requires ActOk(h, Entering(s)) && (bait.Some? && bait.value.s == s ==> Answering(Entering(s)))
      requires running || (h.enterEvent[s] == None && w.enterAction(s, Past(clock, log + [Entered(s)])) == [])
      modifies `state, `inProgress, `queue, `taken, `target, `clock, `log, `deeds, `said
      ensures Tables() && Balanced() && LiveOk(h, step)
      ensures Later(h, performed, step, old(Sight()), Sight())
      ensures Cfg() == Mark(old(Cfg()), s)
      ensures deeds == old(deeds) + [d] && d.act == Entering(s)
      ensures d.past == Past(old(clock) + |EventCall(h.enterEvent[s])|, old(log) + [Entered(s)])
      ensures CallsOf(d.said) == EventCall(h.enterEvent[s]) + w.enterAction(s, d.past)
      ensures !running ==> queue == old(queue) && clock == old(clock) + 1 && |log| == |old(log)| + 1
    {
      hide Books, Lured, Settled, Ledger, Chronicled, Later, Stuck, Valid, TransitionsOk, WorldOk, EventsOk, LiveOk;
      hide Ticks, StepsOf, NoEmptyClusters;
      EnterCode(s);
      hide ActOk, ActionCalls, EventOf, EventCall, CallsOf, Answering;
      Activate(s);
      ghost var v := Sight();
      d := Report(Entering(s));
      ghost var v2 := Sight().(deeds := v.deeds);
      LaterTrans(h, performed, step, old(Sight()), v, v2);
      LaterDeed(h, performed, step, old(Sight()), v2, d);
      assert Sight() == v2.(deeds := v2.deeds + [d]);
    }

    lemma EnterCode(s: nat)
      requires Tables() && IsState(h.tree, s)
      ensures EventOf(h, Entering(s)) == h.enterEvent[s]
      ensures forall p: Past :: ActionCalls(w, Entering(s), p) == w.enterAction(s, p)
    {
    }

    /** A silent entry uses up one inactive state and one call. */
    twostate lemma StillSilent(s: nat)
      requires old(MayCall()) && running == old(running) && bait == old(bait) && entering == old(entering)
      requires !running ==> queue == old(queue) && clock == old(clock) + 1 && |log| == |old(log)| + 1
      requires s < |h.tree.kind| && s !in old(On()) && On() == old(On()) + {s}
      ensures MayCall() && (!running ==> Tally() == old(Tally()))
    {
      assert Off() == old(Off()) - {s};
    }

    /** What entering `s` is about to call: nothing that broadcasts, while the machine is not in progress, and
        the event of the bait, when user code provokes and `s` is its state. */
    lemma UserCode(s: nat)
      requires Tables() && Balanced() && MayCall() && IsState(h.tree, s) && state[s] == Inactive
      ensures (bait.Some? ==> entering) && ActOk(h, Entering(s)) && EventOf(h, Entering(s)) == h.enterEvent[s]
      ensures forall p: Past :: ActionCalls(w, Entering(s), p) == w.enterAction(s, p)
      ensures !running ==> h.enterEvent[s] == None && forall p: Past :: p.calls == clock ==> w.enterAction(s, p) == []
      ensures bait.Some? && bait.value.s == s ==> Answering(Entering(s))
    {
      assert s in Off();
      assert h.enterEvent[s] in h.enterEvent;
    }

    method Activate(s: nat)
      requires Tables() && Balanced() && IsState(h.tree, s) && state[s] == Inactive && (bait.Some? ==> entering)
      modifies `state, `log
      ensures Tables() && Books(queue) && Lured() && Ledger() && LiveOk(h, step) && Cfg() == Mark(old(Cfg()), s)
      ensures state == old(state)[s := Active]
      ensures bait.None? || bait.value.s != s ==> Settled()
      ensures Later(h, performed, step, old(Sight()), Sight())
    {
      hide Books, Lured, Settled, Ledger, Later, Stuck, ValidChart, WorldOk;
      LiveStep();
      state := state[s := Active];
      log := log + [Entered(s)];
      BooksStay();
      LedgerStays();
      ActivatedStuck(s);
      ActivatedLure(s);
      assert On() == old(On()) + {s};
    }

    twostate lemma BooksStay()
      requires old(Tables()) && Tables() && old(Books(queue)) && queue == old(queue)
      requires inProgress == old(inProgress) && taken == old(taken) && target == old(target)
      requires performed == old(performed)
      ensures Books(queue)
    {
    }

    twostate lemma LedgerStays()
      requires old(Tables()) && Tables() && old(Ledger()) && queue == old(queue) && taken == old(taken)
      requires step == old(step) && deeds == old(deeds) && said == old(said) && since == old(since)
      ensures Ledger()
    {
    }

    /** Which transitions are awaited depends on the marks only. */
    twostate lemma AwaitsStay()
      requires old(Tables()) && Tables() && taken == old(taken) && performed == old(performed)
      ensures forall x: nat :: Awaits(x) <==> old(Awaits(x))
    {
      forall x: nat, t: nat ensures Awaited(t, x) <==> old(Awaited(t, x)) {
      }
    }

    twostate lemma ActivatedStuck(s: nat)
      requires old(Tables()) && Tables() && s < |state| && state == old(state)[s := Active] && LiveOk(h, step)
      requires old(state[s]) == Inactive
      requires inProgress == old(inProgress) && taken == old(taken) && target == old(target)
      requires performed == old(performed) && queue == old(queue) && step == old(step)
      requires deeds == old(deeds)
      ensures Later(h, performed, step, old(Sight()), Sight())
    {
      AwaitsStay();
      assert Stuck() == old(Stuck()) && old(On()) <= On();
    }

    twostate lemma ActivatedLure(s: nat)
      requires old(Tables()) && Tables() && s < |state| && old(Balanced()) && (bait.Some? ==> entering)
      requires state == old(state)[s := Active] && old(state[s]) == Inactive && log == old(log) + [Entered(s)]
      requires inProgress == old(inProgress) && taken == old(taken) && target == old(target) && queue == old(queue)
      requires performed == old(performed) && hits == old(hits) && step == old(step) && entering == old(entering)
      requires bait == old(bait) && clock == old(clock)
      ensures Lured() && (bait.None? || bait.value.s != s ==> Settled())
    {
      hide Counted, Ledger, Chronicle, Valid, WorldOk, Provokes;
      if bait.Some? {
        var b := bait.value;
        assert log[b.seen..] == old(log)[b.seen..] + [Entered(s)];
      }
    }

    /** cluster::switch_active_child_to, and parent's version, which always agrees. */
    method SwitchActiveChildTo(p: nat, x: nat) returns (granted: bool)
      requires Ready() && IsState(h.tree, p) && x in h.tree.children[p] && p in On()
      modifies `child, `last
      ensures granted <==> h.tree.kind[p] != Cluster || old(child)[p].value !in On()
      ensures Cfg() == if granted && h.tree.kind[p] == Cluster then Record(old(Cfg()), p, x) else old(Cfg())
    {
      if h.tree.kind[p] == Cluster {
        if state[child[p].value] != Inactive {
          return false;
        }
        child := child[p := Some(x)];
        last := last[p := Some(x)];
      }
      return true;
    }

    method ClusterEnter(s: nat, from: Option<nat>) returns (entered: bool)
      requires Ready() && MayCall() && IsState(h.tree, s) && h.tree.kind[s] == Cluster
      requires from.Some? ==> from.value in h.tree.children[s]
      modifies `state, `child, `last, `inProgress, `queue, `taken, `target, `clock, `log, `deeds, `said
      ensures Tables() && Balanced() && MayCall() && LiveOk(h, step)
      ensures Later(h, performed, step, old(Sight()), Sight())
      ensures (Cfg(), entered) == Open(h.tree, old(Cfg()), s, from)
      ensures !running ==> Tally() == old(Tally())
      decreases Off(), h.tree.rank[s], 1
    {
      hide Balanced, MayCall, EventsOk, TransitionsOk, WorldOk, Later, Stuck, Tally;
      entered := StateEnter(s);
      if !entered {
        return;
      }
      ghost var v := Sight();
      if from.Some? {
        child := child[s := from];
        last := last[s := from];
      } else {
        assert s !in Off() && s in old(Off());
        EnterDefault(s);
        LaterTrans(h, performed, step, old(Sight()), v, Sight());
      }
    }

    /** The default branch of cluster::enter. */
    method EnterDefault(s: nat)
      requires Tables() && Balanced() && TypedBut(h.tree, Cfg(), s) && MayCall()
      requires s in On() && h.tree.kind[s] == Cluster
      modifies `state, `child, `last, `inProgress, `queue, `taken, `target, `clock, `log, `deeds, `said
      ensures Tables() && Balanced() && MayCall() && LiveOk(h, step)
      ensures Later(h, performed, step, old(Sight()), Sight())
      ensures Cfg() == Fill(h.tree, old(Cfg()), s)
      ensures !running ==> Tally() == old(Tally())
      decreases Off(), |h.tree.kind|, 0
    {
      hide Balanced, MayCall, EventsOk, TransitionsOk, WorldOk, Later, Stuck, Tally;
      var d := ChooseChild(s);
      ChildByDefault(h.tree, Cfg(), s, d);
      var _ := Enter(d, None);
    }

    /** The last active child under history, else the first. */
    method ChooseChild(s: nat) returns (d: nat)
      requires Tables() && TypedBut(h.tree, Cfg(), s) && s in On() && h.tree.kind[s] == Cluster
      modifies `child, `last
      ensures Tables() && Typed(h.tree, Cfg()) && d == Pick(h.tree, old(last), s)
      ensures Cfg() == Record(old(Cfg()), s, d)
    {
      hide EventsOk, TransitionsOk, WorldOk;
      if last[s] == None || !h.tree.history[s] {
        last := last[s := Some(h.tree.children[s][0])];
      }
      child := child[s := last[s]];
      d := child[s].value;
      assert child == old(child)[s := Some(d)] && last == old(last)[s := Some(d)];
    }

    /** set::enter; the child being entered directly, if any, is not used. */
    method SetEnter(s: nat, from: Option<nat>) returns (entered: bool)
      requires Ready() && MayCall() && IsState(h.tree, s) && h.tree.kind[s] == Set
      requires from.Some? ==> from.value in h.tree.children[s]
      modifies `state, `child, `last, `inProgress, `queue, `taken, `target, `clock, `log, `deeds, `said
      ensures Tables() && Balanced() && MayCall() && LiveOk(h, step)
      ensures Later(h, performed, step, old(Sight()), Sight())
      ensures (Cfg(), entered) == Open(h.tree, old(Cfg()), s, from)
      ensures !running ==> Tally() == old(Tally())
      decreases Off(), h.tree.rank[s], 1
    {
      hide Balanced, MayCall, EventsOk, TransitionsOk, WorldOk, Later, Stuck, Tally;
      entered := StateEnter(s);
      if !entered {
        return;
      }
      assert s !in Off() && s in old(Off());
      ghost var v := Sight();
      EnterChildren(s);
      LaterTrans(h, performed, step, old(Sight()), v, Sight());
    }

    /** The loop of set::enter over the children. */
    method EnterChildren(s: nat)
      requires Ready() && MayCall() && s in On() && h.tree.kind[s] == Set
      modifies `state, `child, `last, `inProgress, `queue, `taken, `target, `clock, `log, `deeds, `said
      ensures Tables() && Balanced() && MayCall() && LiveOk(h, step)
      ensures Later(h, performed, step, old(Sight()), Sight())
      ensures Cfg() == FillAll(h.tree, old(Cfg()), s, 0)
      ensures !running ==> Tally() == old(Tally())
      decreases Off(), |h.tree.kind|, 1
    {
      ghost var c, v0, off0, n0 := Cfg(), Sight(), Off(), Tally();
      LaterNow();
      assert Filling(s, 0, c, v0, off0, n0);
      hide Filling;
      for i := 0 to |h.tree.children[s]|
        invariant Tables() && Filling(s, i, c, v0, off0, n0)
      {
        EnterChild(s, i, c, v0, off0, n0);
      }
      Filled(s, c, v0, off0, n0);
    }

    /** The first `i` children of `s` have been entered, from configuration `c` on. */
    ghost predicate Filling(s: nat, i: nat, c: Config, v0: View, off0: set<nat>, n0: (seq<nat>, int, int))
      requires Tables()
      reads `state, `child, `last, `log, `inProgress, `queue, `taken, `target, `clock, `performed, `hits, `step,
            `entering, `bait, `running, `deeds, `said, `since
    {
      && Ready() && MayCall() && LiveOk(h, step)
      && s in On() && h.tree.kind[s] == Set && i <= |h.tree.children[s]| && Typed(h.tree, c)
      && v0.on <= On() && Off() <= off0
      && FillAll(h.tree, c, s, 0) == FillAll(h.tree, Cfg(), s, i)
      && Later(h, performed, step, v0, Sight())
      && (!running ==> Tally() == n0)
    }

    lemma Filled(s: nat, c: Config, v0: View, off0: set<nat>, n0: (seq<nat>, int, int))
      requires Tables() && IsState(h.tree, s) && Filling(s, |h.tree.children[s]|, c, v0, off0, n0)
      ensures Balanced() && MayCall() && LiveOk(h, step) && Later(h, performed, step, v0, Sight())
      ensures Typed(h.tree, c) && Cfg() == FillAll(h.tree, c, s, 0) && (!running ==> Tally() == n0)
    {
      hide Balanced, MayCall, Later, Sight, Tally;
    }

    /** One turn of set::enter's loop. */
    method EnterChild(
      s: nat, i: nat, ghost c: Config, ghost v0: View, ghost off0: set<nat>, ghost n0: (seq<nat>, int, int))
      requires Tables() && Filling(s, i, c, v0, off0, n0) && i < |h.tree.children[s]|
      modifies `state, `child, `last, `inProgress, `queue, `taken, `target, `clock, `log, `deeds, `said
      ensures Tables() && Filling(s, i + 1, c, v0, off0, n0)
      decreases off0, |h.tree.kind|, 0
    {
      hide Balanced, MayCall, EventsOk, TransitionsOk, WorldOk, Later, Stuck, Tally;
      ghost var v := Sight();
      var d := h.tree.children[s][i];
      assert d in h.tree.children[s];
      ChildByDefault(h.tree, Cfg(), s, d);
      var _ := Enter(d, None);
      LaterTrans(h, performed, step, v0, v, Sight());
    }

    // ------------------------------------------------------------ exiting

    ghost predicate MayExit()
      reads `running, `bait, `entering
    {
      running && (bait.Some? ==> !entering)
    }

    /** The virtual exit(): dispatch on the kind of state. */
    method Exit(s: nat, to: Option<nat>) returns (exited: bool)
      requires Ready() && MayExit() && IsState(h.tree, s)
      requires to.Some? ==> IsState(h.tree, to.value)
      modifies `state, `inProgress, `queue, `taken, `target, `clock, `log, `deeds, `said
      ensures Tables() && Balanced() && LiveOk(h, step)
      ensures Later(h, performed, step, old(Sight()), Sight())
      ensures Cfg() == Quit(h.tree, old(Cfg()), s, to)
      ensures exited <==> s in old(On())
      decreases On(), Height(h.tree, s), 2
    {
      hide Balanced, WorldOk, EventsOk, TransitionsOk, Later, Stuck, Below, Within, LiveOk;
      LaterNow();
      if state[s] == Inactive {
        return false;
      }
      ghost var c := Cfg();
      match h.tree.kind[s] {
        case Plain =>
        case Cluster =>
          var d := child[s].value;
          ChildSubtree(h.tree, d, s);
          var _ := Exit(d, None);
        case Set =>
          SetExit(s);
      }
      assert Drop(h.tree, c, s) == Unmark(Cfg(), s);
      ghost var v := Sight();
      StateExit(s, to);
      LaterTrans(h, performed, step, old(Sight()), v, Sight());
      return true;
    }

    /** The children's part of set::exit. */
    method SetExit(s: nat)
      requires Ready() && MayExit() && s in On() && h.tree.kind[s] == Set
      modifies `state, `inProgress, `queue, `taken, `target, `clock, `log, `deeds, `said
      ensures Ready() && LiveOk(h, step)
      ensures Later(h, performed, step, old(Sight()), Sight())
      ensures Cfg() == DropAll(h.tree, old(Cfg()), s, 0)
      decreases On(), Height(h.tree, s), 1
    {
      ghost var c, v0, on0 := Cfg(), Sight(), On();
      LaterNow();
      assert Emptying(s, 0, c, v0, on0);
      hide Emptying;
      for i := 0 to |h.tree.children[s]|
        invariant Tables() && Emptying(s, i, c, v0, on0)
      {
        ExitChild(s, i, c, v0, on0);
      }
      Emptied(s, c, v0, on0);
    }

    /** The first `i` children of `s` have been exited, from configuration `c` on. */
    ghost predicate Emptying(s: nat, i: nat, c: Config, v0: View, on0: set<nat>)
      requires Tables()
      reads `state, `child, `last, `log, `inProgress, `queue, `taken, `target, `clock, `performed, `hits, `step,
            `entering, `bait, `running, `deeds, `said, `since
    {
      && Ready() && MayExit() && LiveOk(h, step)
      && IsState(h.tree, s) && h.tree.kind[s] == Set && i <= |h.tree.children[s]| && Typed(h.tree, c)
      && On() <= v0.on && On() <= on0
      && DropAll(h.tree, c, s, 0) == DropAll(h.tree, Cfg(), s, i)
      && Later(h, performed, step, v0, Sight())
    }

    lemma Emptied(s: nat, c: Config, v0: View, on0: set<nat>)
      requires Tables() && IsState(h.tree, s) && Emptying(s, |h.tree.children[s]|, c, v0, on0)
      ensures Ready() && LiveOk(h, step) && Later(h, performed, step, v0, Sight())
      ensures Typed(h.tree, c) && Cfg() == DropAll(h.tree, c, s, 0)
    {
      hide Balanced, Later, Sight;
    }

    /** One turn of set::exit's loop. */
    method ExitChild(s: nat, i: nat, ghost c: Config, ghost v0: View, ghost on0: set<nat>)
      requires Tables() && IsState(h.tree, s) && Emptying(s, i, c, v0, on0) && i < |h.tree.children[s]|
      modifies `state, `inProgress, `queue, `taken, `target, `clock, `log, `deeds, `said
      ensures Tables() && Emptying(s, i + 1, c, v0, on0)
      decreases on0, Height(h.tree, s), 0
    {
      hide Balanced, WorldOk, EventsOk, TransitionsOk, Later, Stuck;
      ghost var v := Sight();
      var d := h.tree.children[s][i];
      assert d in h.tree.children[s];
      ChildSubtree(h.tree, d, s);
      var _ := Exit(d, None);
      LaterTrans(h, performed, step, v0, v, Sight());
      assert DropAll(h.tree, old(Cfg()), s, i) == DropAll(h.tree, Cfg(), s, i + 1);
    }

    /** From `c`, where `s` has just gone, the exit has climbed as far as the destination asks for. */
    ghost predicate QuitFrom(c: Config, s: nat, to: Option<nat>)
      reads `state, `child, `last, `log
    {
      && ValidChart(h) && Typed(h.tree, c) && IsState(h.tree, s) && (to.Some? ==> IsState(h.tree, to.value))
      && Cfg() == if to.None? || s == ROOT || Below(h.tree, to.value, h.tree.parent[s]) then c
                  else Quit(h.tree, c, h.tree.parent[s], to)
    }

    /** state::exit, for a state whose children have been exited. */
    method StateExit(s: nat, to: Option<nat>)
      requires Ready() && MayExit() && s in On()
      requires to.Some? ==> IsState(h.tree, to.value)
      modifies `state, `inProgress, `queue, `taken, `target, `clock, `log, `deeds, `said
      ensures Tables() && Balanced() && LiveOk(h, step)
      ensures Later(h, performed, step, old(Sight()), Sight())
      ensures QuitFrom(Unmark(old(Cfg()), s), s, to)
      decreases On(), Height(h.tree, s), 0
    {
      hide Balanced, EventsOk, TransitionsOk, Later, Stuck;
      ghost var _ := BecomeInactive(s);
      assert s !in On() && s in old(On());
      if to.Some? && s != ROOT {
        var found := HasAncestor(to.value, h.tree.parent[s]);
        if !found {
          ghost var v := Sight();
          var _ := Exit(h.tree.parent[s], to);
          LaterTrans(h, performed, step, old(Sight()), v, Sight());
        }
      }
    }

    /** The first half of state::exit: deactivation, the exit event and the exit action. */
    method BecomeInactive(s: nat) returns (ghost d: Deed)
      requires Tables() && Balanced() && MayExit() && s in On()
      modifies `state, `inProgress, `queue, `taken, `target, `clock, `log, `deeds, `said
      ensures Tables() && Balanced() && LiveOk(h, step)
      ensures Later(h, performed, step, old(Sight()), Sight())
      ensures Cfg() == Unmark(old(Cfg()), s)
      ensures deeds == old(deeds) + [d] && d.act == Exiting(s)
      ensures d.past == Past(old(clock) + |EventCall(h.exitEvent[s])|, old(log) + [Exited(s)])
      ensures CallsOf(d.said) == EventCall(h.exitEvent[s]) + w.exitAction(s, d.past)
    {
      hide Books, Lured, Settled, Ledger, Chronicled, Later, Stuck, Valid, TransitionsOk, WorldOk;
      ExitCode(s);
      hide ActOk, ActionCalls, EventOf, EventCall, CallsOf;
      Deactivate(s);
      ghost var v := Sight();
      d := Report(Exiting(s));
      LaterTrans(h, performed, step, old(Sight()), v, Sight().(deeds := v.deeds));
      LaterDeed(h, performed, step, old(Sight()), Sight().(deeds := v.deeds), d);
    }

    lemma ExitCode(s: nat)
      requires Tables() && IsState(h.tree, s)
      ensures ActOk(h, Exiting(s)) && EventOf(h, Exiting(s)) == h.exitEvent[s]
      ensures forall p: Past :: ActionCalls(w, Exiting(s), p) == w.exitAction(s, p)
    {
    }

    method Deactivate(s: nat)
      requires Tables() && Balanced() && MayExit() && s in On()
      modifies `state, `log
      ensures Tables() && Books(queue) && Lured() && Settled() && Ledger() && LiveOk(h, step)
      ensures Cfg() == Unmark(old(Cfg()), s)
      ensures state == old(state)[s := Inactive]
      ensures Later(h, performed, step, old(Sight()), Sight())
    {
      hide Books, Lured, Settled, Ledger, Later, Stuck, ValidChart, WorldOk;
      LiveStep();
      state := state[s := Inactive];
      log := log + [Exited(s)];
      BooksStay();
      LedgerStays();
      DeactivatedStuck(s);
      DeactivatedLure(s);
      assert On() == old(On()) - {s};
    }

    twostate lemma DeactivatedStuck(s: nat)
      requires old(Tables()) && Tables() && s < |state| && state == old(state)[s := Inactive] && LiveOk(h, step)
      requires inProgress == old(inProgress) && taken == old(taken) && target == old(target)
      requires performed == old(performed) && queue == old(queue) && step == old(step)
      requires deeds == old(deeds)
      ensures Later(h, performed, step, old(Sight()), Sight())
    {
      AwaitsStay();
      assert On() == old(On()) - {s} && Stuck() == old(Stuck()) - {s} && old(Stuck()) <= old(On());
    }

    twostate lemma DeactivatedLure(s: nat)
      requires old(Tables()) && Tables() && s < |state| && old(Balanced()) && (bait.Some? ==> !entering)
      requires state == old(state)[s := Inactive] && log == old(log) + [Exited(s)]
      requires inProgress == old(inProgress) && taken == old(taken) && target == old(target) && queue == old(queue)
      requires performed == old(performed) && hits == old(hits) && step == old(step) && entering == old(entering)
      requires bait == old(bait) && clock == old(clock)
      ensures Lured() && Settled()
    {
      hide Books, Ledger, Chronicle, ValidChart, WorldOk, Provokes;
      if bait.Some? {
        var b := bait.value;
        assert log[b.seen..] == old(log)[b.seen..] + [Exited(s)];
      }
    }

    /** The walk up from the destination in state::exit. */
    method HasAncestor(to: nat, p: nat) returns (found: bool)
      requires Valid(h.tree) && IsState(h.tree, to) && IsState(h.tree, p)
      ensures found <==> Below(h.tree, to, p)
    {
      var ancestor: Option<nat> := if to == ROOT then None else Some(h.tree.parent[to]);
      if to == p { SelfNotBelow(h.tree, to); }
      while ancestor.Some? && ancestor.value != p
        invariant ancestor.Some? ==> IsState(h.tree, ancestor.value)
        invariant Below(h.tree, to, p) <==> ancestor.Some? && Within(h.tree, ancestor.value, p)
        decreases if ancestor.Some? then h.tree.rank[ancestor.value] + 1 else 0
      {
        ancestor := if ancestor.value == ROOT then None else Some(h.tree.parent[ancestor.value]);
      }
      return ancestor.Some?;
    }

    // ------------------------------------------------------------ the transition algorithm

    /** No performed external transition has its source active: so it is throughout Phase I. */
    ghost predicate Gone()
      requires Tables()
      reads `state, `inProgress, `taken, `target, `performed
    {
      forall t :: t in performed && IsTransition(h, t) && External(h, t) ==> h.transition[t].from !in On()
    }

    lemma GoneExposesNothing()
      requires Tables() && Gone() && LiveOk(h, step)
      ensures Exposed(h, On(), performed, step) == {}
    {
    }

    /** No transition is marked. */
    ghost predicate Blank()
      reads `taken
    {
      forall t :: 0 <= t < |taken| ==> taken[t] == None
    }

    /** Phase I unmarks a transition whose source a previous one left. */
    method Dismiss(t: nat)
      requires Tables() && Balanced() && MayExit() && IsTransition(h, t) && t !in performed
      requires taken[t].Some? && taken[t].value in step
      requires state[h.transition[t].from] == Inactive
      modifies `taken
      ensures Tables() && Balanced() && taken == old(taken)[t := None] && Stuck() == old(Stuck())
    {
      hide Counted, Ledger, Chronicle, ValidChart, WorldOk;
      UniqueInQueue();
      taken := taken[t := None];
      CountedStays();
      UnmarkedLedger(t);
      Dismissed(t);
    }

    lemma UniqueInQueue()
      requires Tables() && Books(queue)
      ensures forall i, j :: 0 <= i < j < |queue| ==> queue[i] != queue[j]
    {
    }

    /** Unmarking a transition of the current micro-step leaves the marks of later events alone. */
    twostate lemma UnmarkedLedger(t: nat)
      requires old(Tables()) && Tables() && old(Ledger()) && IsTransition(h, t) && taken == old(taken)[t := None]
      requires old(taken)[t].Some? && old(taken)[t].value in step
      requires forall i, j :: 0 <= i < j < |queue| ==> queue[i] != queue[j]
      requires queue == old(queue) && step == old(step) && deeds == old(deeds) && said == old(said)
      requires since == old(since)
      ensures Ledger()
    {
      hide LedgerOk;
      LedgerUnmarked(h, old(taken), taken, queue, step, Told(), since, t);
    }

    twostate lemma CountedStays()
      requires old(Tables()) && Tables() && inProgress == old(inProgress) && queue == old(queue) && old(Counted(queue))
      ensures Counted(queue)
    {
    }

    twostate lemma Dismissed(t: nat)
      requires old(Tables()) && Tables() && IsTransition(h, t) && state == old(state) && performed == old(performed)
      requires state[h.transition[t].from] == Inactive && taken == old(taken)[t := None]
      ensures Stuck() == old(Stuck())
    {
      forall x: nat, u: nat | x < |state| && state[x] == Disabled ensures Awaited(u, x) <==> old(Awaited(u, x)) {
      }
      assert forall x: nat :: x < |state| && state[x] == Disabled ==> (Awaits(x) <==> old(Awaits(x)));
    }

    ghost method Remember(t: nat)
      requires Tables() && Balanced() && MayExit() && Gone() && IsTransition(h, t) && taken[t].Some?
      requires External(h, t) ==> state[h.transition[t].from] == Inactive
      modifies `performed
      ensures Tables() && Balanced() && performed == old(performed) + {t} && Gone() && Stuck() == old(Stuck())
    {
      hide Counted, Ledger, Chronicle, ValidChart, WorldOk;
      performed := performed + {t};
      Remembered(t);
    }

    twostate lemma Remembered(t: nat)
      requires old(Tables()) && Tables() && IsTransition(h, t) && state == old(state) && taken == old(taken)
      requires External(h, t) ==> state[h.transition[t].from] == Inactive
      requires performed == old(performed) + {t}
      ensures Stuck() == old(Stuck())
    {
      forall x: nat, u: nat | x < |state| && state[x] == Disabled ensures Awaited(u, x) <==> old(Awaited(u, x)) {
      }
      assert forall x: nat :: x < |state| && state[x] == Disabled ==> (Awaits(x) <==> old(Awaits(x)));
    }

    /** Phase II clears the mark of a transition it has dealt with. */
    method Clear(t: nat)
      requires Tables() && Balanced() && IsTransition(h, t) && t in performed
      requires taken[t].Some? && taken[t].value in step
      modifies `taken, `performed, `hits
      ensures Tables() && Balanced() && taken == old(taken)[t := None] && performed == old(performed) - {t}
      ensures hits == old(hits) + if External(h, t) && h.transition[t].from in On() then {t} else {}
      ensures Stuck() == old(Stuck())
    {
      hide Counted, Ledger, Chronicle, ValidChart, WorldOk, Lured, Settled;
      UniqueInQueue();
      taken := taken[t := None];
      performed := performed - {t};
      if External(h, t) && h.transition[t].from in On() {
        hits := hits + {t};
      }
      CountedStays();
      UnmarkedLedger(t);
      Cleared(t);
      ClearedLure(t);
    }

    twostate lemma ClearedLure(t: nat)
      requires old(Tables()) && Tables() && old(Balanced()) && IsTransition(h, t) && t in old(performed)
      requires state == old(state) && queue == old(queue) && clock == old(clock) && log == old(log)
      requires inProgress == old(inProgress) && target == old(target) && step == old(step)
      requires performed == old(performed) - {t} && taken == old(taken)[t := None]
      requires hits == old(hits) + if External(h, t) && h.transition[t].from in On() then {t} else {}
      requires entering == old(entering) && bait == old(bait)
      ensures Lured() && Settled()
    {
      hide ValidChart, WorldOk, Books, Ledger, Chronicle, Provokes;
    }

    twostate lemma Cleared(t: nat)
      requires old(Tables()) && Tables() && IsTransition(h, t) && state == old(state) && t in old(performed)
      requires performed == old(performed) - {t} && taken == old(taken)[t := None]
      ensures Stuck() == old(Stuck())
    {
      forall x: nat, u: nat ensures Awaited(u, x) <==> old(Awaited(u, x)) {
      }
      assert forall x: nat :: Awaits(x) <==> old(Awaits(x));
    }

    lemma TargetIs(t: nat)
      requires Tables() && Books(queue) && IsTransition(h, t) && taken[t].Some? && External(h, t)
      ensures target[t] == h.transition[t].to
    {
    }

    /** Phase I has done to `c` what it does for the marked transition `t`. */
    ghost predicate ExitedBy(c: Config, t: nat, performs: bool)
      reads `state, `child, `last, `log
    {
      && ValidChart(h) && Typed(h.tree, c) && IsTransition(h, t)
      && Exits(h, c, [t]) == (Cfg(), if performs then [t] else [])
    }

    /** The body of Phase I for one transition marked by the current event. */
    method ExitOne(t: nat) returns (performs: bool)
      requires Ready() && MayExit() && Gone() && IsTransition(h, t) && t !in performed
      requires taken[t].Some? && taken[t].value in step
      modifies `state, `inProgress, `queue, `taken, `target, `clock, `log, `deeds, `said, `performed
      ensures old(deeds) <= deeds
      ensures Performed(deeds) == old(Performed(deeds)) + if performs then [t] else []
      ensures Ready() && Gone() && On() <= old(On()) && Stuck() == old(Stuck()) * On()
      ensures performs <==> h.transition[t].from in old(On())
      ensures ExitedBy(old(Cfg()), t, performs)
      ensures performs ==> Grown(old(queue), old(taken), queue, taken) && performed == old(performed) + {t}
      ensures !performs ==> queue == old(queue) && taken == old(taken)[t := None] && performed == old(performed)
    {
      hide Balanced, Stuck, Later, EventsOk, WorldOk, Typed, Valid, Performed, Right;
      var from := h.transition[t].from;
      ExitsOne(h, Cfg(), t);
      StuckIsOn();
      if state[from] == Inactive {
        Dismiss(t);
        return false;
      }
      var acts := LeaveSource(t);
      Remember(t);
      if acts {
        ghost var _ := PerformAction(t);
      }
      return true;
    }

    /** An external transition exits its source; `acts` says whether its action is due. */
    method LeaveSource(t: nat) returns (acts: bool)
      requires Ready() && MayExit() && Gone() && IsTransition(h, t) && taken[t].Some? && h.transition[t].from in On()
      modifies `state, `inProgress, `queue, `taken, `target, `clock, `log, `deeds, `said
      ensures Ready() && Gone() && On() <= old(On()) && Stuck() == old(Stuck()) * On() && acts
      ensures Grown(old(queue), old(taken), queue, taken)
      ensures old(deeds) <= deeds && Performed(deeds) == old(Performed(deeds))
      ensures External(h, t) ==> h.transition[t].from !in On()
      ensures Cfg() == if External(h, t) then Quit(h.tree, old(Cfg()), h.transition[t].from, h.transition[t].to)
                       else old(Cfg())
    {
      hide Books, Lured, Settled, Stuck, EventsOk, WorldOk, Valid;
      LaterNow();
      GoneExposesNothing();
      acts := true;
      if External(h, t) {
        TargetIs(t);
        ghost var v := Sight();
        acts := Exit(h.transition[t].from, target[t]);
        assert v.on + On() == v.on;
      }
      StuckIsOn();
    }

    /** The action of a performed transition. */
    method PerformAction(t: nat) returns (ghost d: Deed)
      requires Ready() && MayExit() && Gone() && IsTransition(h, t)
      modifies `state, `inProgress, `queue, `taken, `target, `clock, `deeds, `said
      ensures Ready() && Gone() && Cfg() == old(Cfg()) && Stuck() == old(Stuck())
      ensures Grown(old(queue), old(taken), queue, taken)
      ensures old(deeds) <= deeds && Performed(deeds) == old(Performed(deeds)) + [t]
      ensures deeds == old(deeds) + [d] && d.act == Acting(t)
      ensures d.past == Past(old(clock), old(log)) && CallsOf(d.said) == w.action(t, d.past)
    {
      hide Books, Lured, Settled, Ledger, Chronicled, Stuck, EventsOk, Valid;
      LaterNow();
      GoneExposesNothing();
      d := Report(Acting(t));
      assert old(On()) + On() == On();
      StuckIsOn();
      OneDeed(old(deeds), d);
    }

    ghost function Now(): Snap
      reads `state, `child, `last, `log, `queue, `taken, `performed, `hits
    {
      Snap(Cfg(), queue, taken, performed, hits)
    }

    lemma NowOk()
      requires Ready()
      ensures SnapOk(h, Now())
    {
    }

    /** Phase I for one event of the step. */
    method ExitSources(e: nat) returns (ghost done: seq<nat>)
      requires Ready() && MayExit() && Gone() && IsEvent(h, e) && e in step && e in queue && SnapOk(h, Now())
      requires forall t :: t in performed ==> t < |taken| && taken[t] != Some(e)
      modifies `state, `inProgress, `queue, `taken, `target, `clock, `log, `deeds, `said, `performed
      ensures Ready() && SnapOk(h, Now()) && ExitedSoFar(h, e, |Chain(h, e)|, done, old(Now()), Now())
      ensures Gone() && On() <= old(On()) && Stuck() == old(Stuck()) * On()
      ensures old(deeds) <= deeds && Performed(deeds) == old(Performed(deeds)) + done
      ensures old(Blank()) ==> taken == old(taken) && state == old(state) && queue == old(queue)
    {
      hide Balanced, SnapOk, ExitedSoFar, Stuck, Gone, Typed;
      ghost var s0 := Now();
      done := [];
      ExitingStart(h, e, s0);
      StuckIsOn();
      for j := 0 to |Chain(h, e)|
        invariant Ready() && SnapOk(h, Now()) && ExitedSoFar(h, e, j, done, s0, Now())
        invariant Gone() && On() <= old(On()) && Stuck() == old(Stuck()) * On()
        invariant step == old(step) && old(deeds) <= deeds && Performed(deeds) == old(Performed(deeds)) + done
        invariant old(Blank()) ==> taken == old(taken) && state == old(state) && queue == old(queue)
      {
        done := ExitNext(e, j, done, s0);
      }
    }

    /** One turn of Phase I's inner loop. */
    method ExitNext(e: nat, j: nat, ghost done: seq<nat>, ghost s0: Snap) returns (ghost more: seq<nat>)
      requires Ready() && MayExit() && Gone() && IsEvent(h, e) && j < |Chain(h, e)| && e in s0.queue && e in step
      requires SnapOk(h, s0) && SnapOk(h, Now()) && ExitedSoFar(h, e, j, done, s0, Now())
      requires forall t :: t in s0.performed ==> t < |s0.taken| && s0.taken[t] != Some(e)
      modifies `state, `inProgress, `queue, `taken, `target, `clock, `log, `deeds, `said, `performed
      ensures Ready() && SnapOk(h, Now()) && ExitedSoFar(h, e, j + 1, more, s0, Now())
      ensures Gone() && On() <= old(On()) && Stuck() == old(Stuck()) * On()
      ensures done <= more && old(deeds) <= deeds
      ensures Performed(deeds) == old(Performed(deeds)) + more[|done|..]
      ensures old(Blank()) ==> taken == old(taken) && state == old(state) && queue == old(queue)
    {
      hide Balanced, Stuck, Gone;
      ChainOk(h, e);
      StuckIsOn();
      var t := Chain(h, e)[j];
      ghost var s := Now();
      more := done;
      if taken[t] == Some(e) {
        FreshHere(h, e, j, done, s0, s);
        var performs := ExitOne(t);
        NowOk();
        more := done + if performs then [t] else [];
        ExitStep(h, e, j, done, s0, s, performs, Now());
      } else {
        ExitSkip(h, e, j, done, s0, s);
      }
    }

    /** Entering has left `k0` stuck, and added only what has been hit or is exposed. */
    ghost predicate Bounded(k0: set<nat>)
      requires Tables() && LiveOk(h, step)
      reads `state, `inProgress, `taken, `target, `performed, `hits, `step
    {
      k0 <= Stuck() <= k0 + Sources(h, hits, step) + Exposed(h, On(), performed, step)
    }

    /** The body of Phase II for one transition marked by the current event. */
    method EnterOne(t: nat, ghost k0: set<nat>) returns (ghost mid: seq<Option<nat>>)
      requires Ready() && running && MayCall() && LiveOk(h, step) && Bounded(k0)
      requires IsTransition(h, t) && t in performed && taken[t].Some? && taken[t].value in step
      modifies `state, `child, `last, `inProgress, `queue, `taken, `target, `clock, `log, `deeds, `said, `performed,
               `hits
      ensures Ready() && MayCall() && LiveOk(h, step) && Bounded(k0)
      ensures Cfg() == Enters(h, old(Cfg()), [t])
      ensures hits == old(hits) + Hits(h, old(Cfg()), [t])
      ensures Grown(old(queue), old(taken), queue, mid) && taken == mid[t := None]
      ensures performed == old(performed) - {t}
      ensures old(deeds) <= deeds && Performed(deeds) == old(Performed(deeds))
    {
      hide Balanced, MayCall, Stuck, Later, Sources, Exposed, Typed, EventsOk, Valid;
      OneHit(h, Cfg(), t);
      EnterTarget(t, k0);
      mid := taken;
      ghost var was := performed;
      Clear(t);
      ExposedClears(h, On(), was, t, hits, step);
      SourcesGrow(h, old(hits), hits, step);
    }

    /** An external transition enters its target. */
    method EnterTarget(t: nat, ghost k0: set<nat>)
      requires Ready() && running && MayCall() && LiveOk(h, step) && Bounded(k0)
      requires IsTransition(h, t) && taken[t].Some?
      modifies `state, `child, `last, `inProgress, `queue, `taken, `target, `clock, `log, `deeds, `said
      ensures Ready() && MayCall() && LiveOk(h, step) && Bounded(k0)
      ensures Cfg() == if External(h, t) then Open(h.tree, old(Cfg()), h.transition[t].to.value, None).0 else old(Cfg())
      ensures Grown(old(queue), old(taken), queue, taken)
      ensures old(deeds) <= deeds && Performed(deeds) == old(Performed(deeds))
    {
      hide Books, Lured, Settled, MayCall, Stuck, Sources, Exposed, EventsOk, Valid, Typed;
      LaterNow();
      if External(h, t) {
        ghost var v := Sight();
        TargetIs(t);
        var _ := Enter(target[t].value, None);
        assert v.on <= On() && v.on + On() == On();
        ExposedGrows(h, v.on, On(), performed, step);
      }
    }

    /** Phase II for one event of the step. */
    method EnterTargets(e: nat, ghost k0: set<nat>)
      requires Ready() && running && MayCall() && LiveOk(h, step) && Bounded(k0)
      requires IsEvent(h, e) && e in step && e in queue && SnapOk(h, Now())
      requires forall t :: 0 <= t < |taken| && taken[t] == Some(e) ==> t in performed
      modifies `state, `child, `last, `inProgress, `queue, `taken, `target, `clock, `log, `deeds, `said, `performed,
               `hits
      ensures Ready() && MayCall() && LiveOk(h, step) && Bounded(k0)
      ensures SnapOk(h, Now()) && EnteredSoFar(h, e, |Chain(h, e)|, old(Now()), Now())
      ensures old(deeds) <= deeds && Performed(deeds) == old(Performed(deeds))
      ensures old(Blank()) ==> taken == old(taken) && state == old(state) && queue == old(queue)
    {
      hide Balanced, SnapOk, EnteredSoFar, Bounded, MayCall, Typed;
      ghost var s0 := Now();
      EnteringStart(h, e, s0);
      for j := 0 to |Chain(h, e)|
        invariant Ready() && MayCall() && LiveOk(h, step) && Bounded(k0)
        invariant SnapOk(h, Now()) && EnteredSoFar(h, e, j, s0, Now())
        invariant old(deeds) <= deeds && Performed(deeds) == old(Performed(deeds))
        invariant old(Blank()) ==> taken == old(taken) && state == old(state) && queue == old(queue)
      {
        EnterNext(e, j, s0, k0);
      }
    }

    /** One turn of Phase II's inner loop. */
    method EnterNext(e: nat, j: nat, ghost s0: Snap, ghost k0: set<nat>)
      requires Ready() && running && MayCall() && LiveOk(h, step) && Bounded(k0)
      requires IsEvent(h, e) && j < |Chain(h, e)| && e in s0.queue && e in step
      requires SnapOk(h, s0) && SnapOk(h, Now()) && EnteredSoFar(h, e, j, s0, Now())
      requires forall t :: 0 <= t < |s0.taken| && s0.taken[t] == Some(e) ==> t in s0.performed
      modifies `state, `child, `last, `inProgress, `queue, `taken, `target, `clock, `log, `deeds, `said, `performed,
               `hits
      ensures Ready() && MayCall() && LiveOk(h, step) && Bounded(k0)
      ensures SnapOk(h, Now()) && EnteredSoFar(h, e, j + 1, s0, Now())
      ensures old(deeds) <= deeds && Performed(deeds) == old(Performed(deeds))
      ensures old(Blank()) ==> taken == old(taken) && state == old(state) && queue == old(queue)
    {
      hide Balanced, Bounded, MayCall;
      ChainOk(h, e);
      var t := Chain(h, e)[j];
      ghost var s := Now();
      if taken[t] == Some(e) {
        StillPerformed(h, e, j, s0, s);
        ghost var mid := EnterOne(t, k0);
        NowOk();
        EnterStep(h, e, j, s0, s, mid, Now());
      } else {
        EnterSkip(h, e, j, s0, s);
      }
    }

    /** Phase III for one event: the front of the queue is done with. */
    method Dequeue()
      requires Tables() && Balanced() && bait.None? && step != [] && step <= queue
      requires forall t :: 0 <= t < |taken| ==> taken[t] != Some(queue[0])
      modifies `inProgress, `queue, `step
      ensures Tables() && Balanced() && queue == old(queue)[1..] && step == old(step)[1..]
    {
      hide Chronicle, Agenda, Accepted, MarksOf, Valid, Offers;
      Lower(queue[0]);
      queue := queue[1..];
      step := step[1..];
      assert queue[|step|..] == old(queue)[|old(step)|..];
    }

    /** Phase I: exit the sources of the marked transitions of every event in the step. */
    method PhaseI() returns (ghost done: seq<nat>)
      requires Ready() && MayExit() && SnapOk(h, Now()) && performed == {} && step == queue
      modifies `state, `inProgress, `queue, `taken, `target, `clock, `log, `deeds, `said, `performed
      ensures Ready() && SnapOk(h, Now()) && PhaseOne(h, |old(queue)|, done, old(Now()), Now())
      ensures Gone() && On() <= old(On()) && Stuck() == old(Stuck()) * On()
      ensures old(deeds) <= deeds && Performed(deeds) == old(Performed(deeds)) + done
      ensures old(Blank()) ==> taken == old(taken) && state == old(state) && queue == old(queue)
    {
      hide Balanced, SnapOk, PhaseOne, Stuck, Typed;
      ghost var s0 := Now();
      done := [];
      PhaseOneStart(h, s0);
      StuckIsOn();
      hide Gone;
      var eventsInStep := |queue|;
      for i := 0 to eventsInStep
        invariant Ready() && SnapOk(h, Now()) && PhaseOne(h, i, done, s0, Now())
        invariant Gone() && On() <= old(On()) && Stuck() == old(Stuck()) * On()
        invariant old(deeds) <= deeds && Performed(deeds) == old(Performed(deeds)) + done
        invariant old(Blank()) ==> taken == old(taken) && state == old(state) && queue == old(queue)
      {
        done := ExitEvent(i, done, s0);
      }
    }

    method ExitEvent(i: nat, ghost done: seq<nat>, ghost s0: Snap) returns (ghost more: seq<nat>)
      requires Ready() && MayExit() && Gone() && SnapOk(h, s0) && SnapOk(h, Now())
      requires step == s0.queue && i < |s0.queue| && PhaseOne(h, i, done, s0, Now())
      modifies `state, `inProgress, `queue, `taken, `target, `clock, `log, `deeds, `said, `performed
      ensures Ready() && SnapOk(h, Now()) && PhaseOne(h, i + 1, more, s0, Now())
      ensures Gone() && On() <= old(On()) && Stuck() == old(Stuck()) * On()
      ensures done <= more && old(deeds) <= deeds
      ensures Performed(deeds) == old(Performed(deeds)) + more[|done|..]
      ensures old(Blank()) ==> taken == old(taken) && state == old(state) && queue == old(queue)
    {
      hide Balanced, Stuck, Gone;
      var e := queue[i];
      ghost var s := Now();
      assert e == s0.queue[i] && e !in s0.queue[..i];
      ghost var d := ExitSources(e);
      more := done + d;
      PhaseOneStep(h, i, done, d, s0, s, Now());
    }

    /** Phase II: enter the targets of the performed transitions of every event in the step. */
    method PhaseII(eventsInStep: nat, ghost q0: seq<nat>, ghost k0: set<nat>)
      requires Ready() && running && MayCall() && LiveOk(h, step) && Bounded(k0)
      requires SnapOk(h, Now()) && q0 == step && |q0| == eventsInStep && PhaseTwo(h, q0, 0, Now(), Now())
      modifies `state, `child, `last, `inProgress, `queue, `taken, `target, `clock, `log, `deeds, `said, `performed,
               `hits
      ensures Ready() && MayCall() && LiveOk(h, step) && Bounded(k0)
      ensures SnapOk(h, Now()) && PhaseTwo(h, q0, eventsInStep, old(Now()), Now())
      ensures old(deeds) <= deeds && Performed(deeds) == old(Performed(deeds))
      ensures old(Blank()) ==> taken == old(taken) && state == old(state) && queue == old(queue)
    {
      hide Balanced, SnapOk, PhaseTwo, Bounded, MayCall, Typed;
      ghost var s0 := Now();
      for i := 0 to eventsInStep
        invariant Ready() && MayCall() && LiveOk(h, step) && Bounded(k0)
        invariant SnapOk(h, Now()) && PhaseTwo(h, q0, i, s0, Now())
        invariant old(deeds) <= deeds && Performed(deeds) == old(Performed(deeds))
        invariant old(Blank()) ==> taken == old(taken) && state == old(state) && queue == old(queue)
      {
        EnterEvent(i, q0, s0, k0);
      }
    }

    method EnterEvent(i: nat, ghost q0: seq<nat>, ghost s0: Snap, ghost k0: set<nat>)
      requires Ready() && running && MayCall() && LiveOk(h, step) && Bounded(k0)
      requires SnapOk(h, s0) && SnapOk(h, Now()) && q0 == step && i < |q0| && PhaseTwo(h, q0, i, s0, Now())
      modifies `state, `child, `last, `inProgress, `queue, `taken, `target, `clock, `log, `deeds, `said, `performed,
               `hits
      ensures Ready() && MayCall() && LiveOk(h, step) && Bounded(k0)
      ensures SnapOk(h, Now()) && PhaseTwo(h, q0, i + 1, s0, Now())
      ensures old(deeds) <= deeds && Performed(deeds) == old(Performed(deeds))
      ensures old(Blank()) ==> taken == old(taken) && state == old(state) && queue == old(queue)
    {
      hide Balanced, Bounded, MayCall;
      var e := queue[i];
      ghost var s := Now();
      assert e == q0[i] && e in q0[i..];
      EnterTargets(e, k0);
      PhaseTwoStep(h, q0, i, s0, s, Now());
    }

    /** Phase III: remove the events of the step, and only those. */
    method PhaseIII(eventsInStep: nat)
      requires Tables() && Balanced() && bait.None? && |step| == eventsInStep && step <= queue
      requires forall t :: 0 <= t < |taken| && taken[t].Some? ==> taken[t].value !in queue[..eventsInStep]
      modifies `inProgress, `queue, `step
      ensures Tables() && Balanced() && queue == old(queue)[eventsInStep..] && step == []
    {
      hide Balanced;
      for i := 0 to eventsInStep
        invariant Tables() && Balanced() && queue == old(queue)[i..] && step == old(step)[i..]
      {
        assert old(queue)[i] in old(queue)[..eventsInStep];
        Dequeue();
      }
    }

    // ------------------------------------------------------------ one micro-step

    /** What the coming micro-step will do to the configuration: the exits, and the transitions performed. */
    ghost function Ahead(): (r: (Config, seq<nat>))
      requires Ready()
      ensures Typed(h.tree, r.0) && TidsOk(h, r.1)
      reads `state, `child, `last, `log, `inProgress, `queue, `taken, `target, `clock, `performed, `hits, `step,
            `entering, `bait, `deeds, `said, `since
    {
      Exits(h, Cfg(), Agenda(h, taken, queue))
    }

    /** User code provokes on a transition whose source will be active again before its mark is cleared. */
    ghost predicate Fated()
      requires Ready()
      reads `state, `child, `last, `log, `inProgress, `queue, `taken, `target, `clock, `performed, `hits, `step,
            `entering, `bait, `deeds, `said, `since
    {
      bait.Some? && bait.value.t in Hits(h, Ahead().0, Ahead().1)
    }

    /** Nothing is marked, the queue is `q`, and `s` is disabled with no transition left to release it. */
    ghost predicate Stranded(s: nat, q: seq<nat>)
      requires Tables()
      reads `state, `inProgress, `queue, `taken, `target, `performed
    {
      queue == q && Blank() && s in Stuck()
    }

    /** One micro-step: what it does to the configuration is decided by the marks it starts with, and only
        events broadcast during it are left in the queue.  The states that were stuck stay so unless they exit;
        the only new ones are the hazards of the step, and user code can make each of them come true. */
    method MicroStep() returns (ghost done: seq<nat>)
      requires Ready() && running && performed == {} && !entering
      modifies `state, `child, `last, `inProgress, `queue, `taken, `target, `clock, `log, `deeds, `said,
               `since, `performed, `hits, `step, `entering, `bait
      ensures Ready() && performed == {} && !entering && bait == None
      ensures done == old(Ahead()).1 && Cfg() == Enters(h, old(Ahead()).0, done)
      ensures forall f :: f in queue ==> f !in old(queue)
      ensures old(Stuck()) * old(Ahead()).0.on <= Stuck()
      ensures LiveOk(h, old(queue)) &&
              Stuck() <= old(Stuck()) * old(Ahead()).0.on + Hazards(h, old(Ahead()).0, done, old(queue))
      ensures step == [] && since == |old(Told())|
      ensures old(deeds) <= deeds && Performed(deeds) == old(Performed(deeds)) + done
      ensures old(Fated()) ==> Stranded(old(bait).value.s, [old(bait).value.e])
      ensures old(Blank()) ==> Blank() && state == old(state) && queue == []
    {
      hide Balanced, Typed, Hits, Exits, Enters, Agenda, Stuck, Sources, Valid, EventsOk, SnapOk, PhaseTwo, MayCall;
      hide Performed, Offers, NoEmptyClusters, TransitionsOk, WorldOk, Now;
      ghost var fated, b, q := Fated(), bait, queue;
      var eventsInStep := |queue|;
      done := LeavePhase();
      EnterPhase(eventsInStep, done);
      assert Stuck() <= old(Stuck()) * old(Ahead()).0.on + Hazards(h, old(Ahead()).0, done, q);
      DequeuePhase(eventsInStep);
      if fated {
        assert queue == [b.value.e];
        NowStranded(b.value.s, b.value.e);
      }
    }

    /** Phase I, and what it makes ready for Phase II. */
    method LeavePhase() returns (ghost done: seq<nat>)
      requires Ready() && running && performed == {} && !entering
      modifies `state, `inProgress, `queue, `taken, `target, `clock, `log, `deeds, `said, `since,
               `performed, `hits, `step, `entering
      ensures Ready() && MayCall() && SnapOk(h, Now()) && entering && hits == {}
      ensures step == old(queue) && PhaseTwo(h, step, 0, Now(), Now()) && Agenda(h, taken, step) == done
      ensures (Cfg(), done) == old(Ahead()) && Stuck() == old(Stuck()) * On()
      ensures since == |old(Told())| && old(deeds) <= deeds && Performed(deeds) == old(Performed(deeds)) + done
      ensures old(Blank()) ==> taken == old(taken) && state == old(state) && queue == old(queue)
    {
      hide Balanced, Typed, Hits, Exits, Enters, Agenda, Stuck, Sources, PhaseOne, PhaseTwo, SnapOk, Valid, EventsOk;
      hide Gone, MayCall;
      BeginStep();
      NowOk();
      ghost var s0 := Now();
      done := PhaseI();
      PhaseTwoStart(h, done, s0, Now());
      BeginEntering();
    }

    /** Phase II: the new stuck states come from transitions that were hit; user code under observation has had
        its way with its own. */
    method EnterPhase(eventsInStep: nat, ghost done: seq<nat>)
      requires Ready() && running && MayCall() && SnapOk(h, Now()) && entering && hits == {} && |step| == eventsInStep
      requires PhaseTwo(h, step, 0, Now(), Now()) && Agenda(h, taken, step) == done
      modifies `state, `child, `last, `inProgress, `queue, `taken, `target, `clock, `log, `deeds, `said, `performed,
               `hits
      ensures Ready() && performed == {} && step <= queue && LiveOk(h, step)
      ensures Cfg() == Enters(h, old(Cfg()), done) && hits == Hits(h, old(Cfg()), done)
      ensures old(Stuck()) <= Stuck() <= old(Stuck()) + Sources(h, hits, step)
      ensures forall t :: 0 <= t < |taken| && taken[t].Some? ==> taken[t].value !in queue[..|step|]
      ensures forall f :: f in queue[|step|..] ==> f !in step
      ensures bait.Some? && bait.value.t in hits ==> Caught(bait.value)
      ensures old(deeds) <= deeds && Performed(deeds) == old(Performed(deeds))
      ensures old(Blank()) ==> taken == old(taken) && state == old(state) && queue == old(queue)
    {
      hide Balanced, Typed, Hits, Exits, Enters, Agenda, Stuck, Sources, PhaseTwo, SnapOk, Valid, EventsOk, Bounded;
      hide MayCall, Caught;
      ghost var s1, k := Now(), Stuck();
      NothingHit();
      PhaseII(eventsInStep, step, k);
      StepEnds(h, step, s1, Now());
      AllCleared(k);
      HitIsCaught();
    }

    /** Phase III, and the end of the step. */
    method DequeuePhase(eventsInStep: nat)
      requires Ready() && performed == {} && step <= queue && |step| == eventsInStep
      requires forall t :: 0 <= t < |taken| && taken[t].Some? ==> taken[t].value !in queue[..eventsInStep]
      modifies `inProgress, `queue, `hits, `step, `entering, `bait
      ensures Ready() && step == [] && !entering && bait == None && queue == old(queue)[eventsInStep..]
      ensures Stuck() == old(Stuck())
    {
      hide Balanced, Typed, Stuck, Valid, EventsOk;
      EndStep();
      PhaseIII(eventsInStep);
      assert Tables();
      StuckStays();
    }

    twostate lemma StuckStays()
      requires old(Tables()) && Tables() && state == old(state) && taken == old(taken) && performed == old(performed)
      ensures Stuck() == old(Stuck())
    {
      AwaitsStay();
    }

    lemma NothingHit()
      requires Tables() && Balanced() && hits == {}
      ensures LiveOk(h, step) && Bounded(Stuck())
    {
      LiveStep();
    }

    /** A micro-step starts with all events in the queue. */
    lemma FreshLedger()
      requires Tables() && LiveOk(h, queue) && step == queue && since == |Told()|
      ensures Ledger()
    {
      hide Valid, TransitionsOk;
      assert queue[|step|..] == [] && Told()[since..] == [];
    }

    ghost method BeginStep()
      requires Ready() && performed == {} && !entering
      modifies `step, `hits, `since
      ensures Ready() && LiveOk(h, step) && step == queue && hits == {} && since == |Told()|
    {
      hide Books, Ledger, Chronicle, ValidChart, WorldOk, Told;
      LiveStep();
      QueueIsLive();
      step := queue;
      hits, since := {}, |Told()|;
      FreshLedger();
    }

    lemma QueueIsLive()
      requires Tables() && Books(queue)
      ensures LiveOk(h, queue)
    {
    }

    /** The exits are done. */
    ghost method BeginEntering()
      requires Ready() && running && Gone() && !entering && hits == {}
      modifies `entering
      ensures Ready() && MayCall() && entering
    {
      hide Books, Ledger, Chronicle, Valid, EventsOk;
      entering := true;
    }

    lemma AllCleared(k: set<nat>)
      requires Tables() && LiveOk(h, step) && Bounded(k) && performed == {}
      ensures k <= Stuck() <= k + Sources(h, hits, step)
    {
      assert Exposed(h, On(), performed, step) == {};
    }

    lemma HitIsCaught()
      requires Tables() && Balanced() && entering
      ensures step <= queue && (bait.Some? && bait.value.t in hits ==> Caught(bait.value))
    {
    }

    ghost method EndStep()
      requires Ready() && performed == {}
      modifies `hits, `entering, `bait
      ensures Ready() && !entering && bait == None
    {
      hide Books, Ledger, Chronicle, Valid, EventsOk;
      hits, entering, bait := {}, false, None;
    }

    lemma NowStranded(s: nat, e: nat)
      requires Tables() && Balanced() && queue == [e]
      requires s < |state| && state[s] == Disabled && forall t :: 0 <= t < |taken| ==> taken[t] != Some(e)
      ensures Stranded(s, [e])
    {
      assert Blank();
    }

    // ------------------------------------------------------------ running to quiescence

    /** Nothing is queued, counted or marked, and no micro-step is under way. */
    ghost predicate Quiescent()
      reads `inProgress, `queue, `taken, `performed, `running, `entering, `bait
    {
      && !running && queue == [] && performed == {} && !entering && bait == None
      && (forall x :: 0 <= x < |inProgress| ==> inProgress[x] == 0)
      && Blank()
    }

    lemma EmptyQueueIsQuiescent()
      requires Tables() && Balanced() && queue == [] && performed == {} && !running && !entering && bait == None
      ensures Quiescent()
    {
    }

    /** At rest, the stuck states are all the disabled ones. */
    lemma DisabledAtRest()
      requires Tables() && Quiescent()
      ensures forall s: nat :: s in Stuck() <==> s < |state| && state[s] == Disabled
    {
    }

    /** What a run from `c`, with `stuck` stuck, has come to. */
    ghost predicate Reached(c: Config, stuck: set<nat>, trail: seq<Turn>)
      reads `state, `child, `last, `log, `inProgress, `taken, `target, `performed
    {
      && Tables() && Typed(h.tree, c) && TrailOk(h, trail)
      && Run(h.tree, c, Motion(h, trail))
      && Cfg() == Replay(h.tree, c, Motion(h, trail)) == After(h, c, trail)
      && Stuck() <= Remaining(h, c, stuck, trail)
    }

    /** The turns of a run from `c` follow from one another: each one's events and marks come from the broadcasts
        made during the one before, and all that is done and broadcast is on record. */
    ghost predicate Continuous(c: Config, trail: seq<Turn>)
    {
      ValidChart(h) && Typed(h.tree, c) && TrailOk(h, trail) && Linked(h, w, c, trail)
    }

    /** What the turn `u`, the last so far, has left for the next: exactly the events queued and the transitions
        marked by the broadcasts made during it. */
    ghost predicate Leaves(u: Turn)
      requires Tables()
      reads `state, `inProgress, `queue, `taken, `target
    {
      && LiveOk(h, queue)
      && queue == Accepted(Offers(u.deeds)) && Agenda(h, taken, queue) == MarksOf(Offers(u.deeds))
    }

    /** The first turn of a run starts with the events `queue` and the marks `taken`. */
    ghost predicate StartsWith(trail: seq<Turn>, queue: seq<nat>, taken: seq<Option<nat>>)
      requires EventsOk(h) && LiveOk(h, queue) && |taken| == |h.transition|
    {
      trail != [] ==> trail[0].queue == queue && trail[0].agenda == Agenda(h, taken, queue)
    }

    /** Between two micro-steps of a run that started with the events `q0`, the marks `t0` and `d0` on record. */
    ghost predicate Going(
      c0: Config, k0: set<nat>, trail: seq<Turn>, q0: seq<nat>, t0: seq<Option<nat>>, d0: seq<Deed>)
      reads `state, `child, `last, `log, `inProgress, `queue, `taken, `target, `clock, `performed, `hits, `step,
            `entering, `bait, `deeds, `said, `since
    {
      && Ready() && performed == {} && !entering && Reached(c0, k0, trail) && Continuous(c0, trail)
      && LiveOk(h, q0) && |t0| == |h.transition| && StartsWith(trail, q0, t0) && deeds == d0 + Doings(trail)
      && (if trail == [] then queue == q0 && taken == t0 else Leaves(trail[|trail| - 1]))
    }

    /** machine::algorithm.  Actions may broadcast for ever, so `fuel` bounds the number of micro-steps;
        `finished` says that the loop ended by itself. */
    method Algorithm(fuel: nat) returns (finished: bool, ghost trail: seq<Turn>)
      requires Ready() && performed == {} && !entering
      modifies `state, `child, `last, `inProgress, `queue, `taken, `target, `clock, `log, `deeds, `said,
               `since, `performed, `hits, `step, `entering, `bait, `running
      ensures Ready() && performed == {} && !entering
      ensures Reached(old(Cfg()), old(Stuck()), trail) && Continuous(old(Cfg()), trail)
      ensures LiveOk(h, old(queue)) && StartsWith(trail, old(queue), old(taken))
      ensures trail != [] ==> Leaves(trail[|trail| - 1])
      ensures deeds == old(deeds) + Doings(trail)
      ensures !old(running) && old(queue) != [] && fuel > 0 ==> trail != []
      ensures old(running) ==> !finished && trail == [] && running && queue == old(queue) && taken == old(taken)
                               && state == old(state)
      ensures !old(running) ==> if finished then Quiescent() else running && queue != [] && |trail| == fuel
      ensures !old(running) && old(Fated()) && fuel >= 2 ==> finished && old(bait).value.s in Stuck()
    {
      hide Balanced, Typed, ValidChart, WorldOk, Quiescent, Reached, Continuous, Stuck, Going, Fated, Foreseeing,
           StartsWith;
      hide Leaves, Agenda, Typed, On;
      ghost var c0, k0, q0, t0, d0 := Cfg(), Stuck(), queue, taken, deeds;
      trail := [];
      NothingGoing();
      ghost var fated, s, e := Outlook();
      if running {
        NowGone(c0, k0, trail, q0, t0, d0);
        return false, [];
      }
      running := true;
      var n := 0;
      while queue != [] && n < fuel
        invariant n <= fuel && |trail| == n && running && Tables() && Going(c0, k0, trail, q0, t0, d0)
        invariant n == 0 ==> queue == q0
        invariant fated && n == 0 ==> Foreseeing(s, e) && queue != []
        invariant fated && n > 0 ==> if n == 1 then Stranded(s, [e]) else n == 2 && Stranded(s, [])
        decreases fuel - n
      {
        trail := NextTurn(c0, k0, trail, q0, t0, d0, s, e);
        n := n + 1;
      }
      NowGone(c0, k0, trail, q0, t0, d0);
      finished := queue == [];
      if finished {
        running := false;
        EndStep();
        EmptyQueueIsQuiescent();
      }
    }

    lemma NothingGoing()
      requires Ready() && performed == {} && !entering
      ensures Going(Cfg(), Stuck(), [], queue, taken, deeds)
    {
    }

    lemma NowGone(c0: Config, k0: set<nat>, trail: seq<Turn>, q0: seq<nat>, t0: seq<Option<nat>>, d0: seq<Deed>)
      requires Going(c0, k0, trail, q0, t0, d0)
      ensures Ready() && performed == {} && !entering && Reached(c0, k0, trail) && Continuous(c0, trail)
      ensures LiveOk(h, q0) && |t0| == |h.transition| && StartsWith(trail, q0, t0)
      ensures if trail == [] then queue == q0 && taken == t0 else Leaves(trail[|trail| - 1])
      ensures deeds == d0 + Doings(trail)
    {
      hide Balanced, Reached, Continuous, StartsWith, Leaves, ValidChart, WorldOk;
    }

    /** The next micro-step leaves `s` stuck and `e` in the queue. */
    ghost predicate Foreseeing(s: nat, e: nat)
      reads `state, `child, `last, `log, `inProgress, `queue, `taken, `target, `clock, `performed, `hits, `step,
            `entering, `bait, `deeds, `said, `since
    {
      Ready() && Fated() && bait.value.s == s && bait.value.e == e
    }

    lemma Outlook() returns (fated: bool, s: nat, e: nat)
      requires Ready()
      ensures fated <==> Fated()
      ensures fated ==> bait.value.s == s && Foreseeing(s, e) && queue != []
    {
      fated := Fated();
      s, e := 0, 0;
      if fated {
        s, e := bait.value.s, bait.value.e;
      }
    }

    /** One turn of the loop in algorithm(). */
    method NextTurn(
      ghost c0: Config, ghost k0: set<nat>, ghost trail: seq<Turn>, ghost q0: seq<nat>, ghost t0: seq<Option<nat>>,
      ghost d0: seq<Deed>, ghost s: nat, ghost e: nat)
      returns (ghost more: seq<Turn>)
      requires running && Going(c0, k0, trail, q0, t0, d0)
      modifies `state, `child, `last, `inProgress, `queue, `taken, `target, `clock, `log, `deeds, `said,
               `since, `performed, `hits, `step, `entering, `bait
      ensures Tables() && Going(c0, k0, more, q0, t0, d0) && |more| == |trail| + 1
      ensures old(Foreseeing(s, e)) ==> Stranded(s, [e])
      ensures forall x, q :: old(Tables() && Stranded(x, q)) ==> Stranded(x, [])
    {
      hide Balanced, Reached, Continuous, Leaves, ValidChart, WorldOk, Fated, Stuck, Agenda;
      more := NextStep(c0, k0, trail);
      assert more[..|more| - 1] == trail;
    }

    lemma NothingReached()
      requires Ready()
      ensures Reached(Cfg(), Stuck(), []) && Continuous(Cfg(), [])
    {
    }

    /** A micro-step added to a run. */
    method NextStep(ghost c0: Config, ghost k0: set<nat>, ghost trail: seq<Turn>) returns (ghost more: seq<Turn>)
      requires Ready() && running && performed == {} && !entering && Reached(c0, k0, trail) && Continuous(c0, trail)
      requires trail != [] ==> Leaves(trail[|trail| - 1])
      modifies `state, `child, `last, `inProgress, `queue, `taken, `target, `clock, `log, `deeds, `said,
               `since, `performed, `hits, `step, `entering, `bait
      ensures Ready() && performed == {} && !entering && bait == None && |more| == |trail| + 1
      ensures Reached(c0, k0, more) && Continuous(c0, more) && more[..|trail|] == trail && Leaves(more[|trail|])
      ensures LiveOk(h, old(queue)) && deeds == old(deeds) + more[|trail|].deeds
      ensures more[|trail|].queue == old(queue) && more[|trail|].agenda == Agenda(h, old(taken), old(queue))
      ensures old(Fated()) ==> Stranded(old(bait).value.s, [old(bait).value.e])
      ensures forall s: nat :: old(Blank() && s in Stuck()) ==> Stranded(s, [])
    {
      hide Balanced, Stuck, Valid, EventsOk, TransitionsOk, NoEmptyClusters, WorldOk, Typed, Fated, Stranded;
      hide Remaining, Run, Replay, After, Perform, Performable, Hazards;
      hide Exits, Agenda, Right, Linked, TurnOk, LeaveAll, Awaits;
      ghost var u := Step();
      more := trail + [u];
      RemainingStep(h, c0, k0, trail, u);
      LinkedMore(h, w, c0, trail, u);
      RunAppend(h.tree, c0, Motion(h, trail), Moves(h, u.performed));
      assert Motion(h, more) == Motion(h, trail) + [Moves(h, u.performed)];
    }

    /** A micro-step, seen as moves. */
    method Step() returns (ghost u: Turn)
      requires Ready() && running && performed == {} && !entering
      modifies `state, `child, `last, `inProgress, `queue, `taken, `target, `clock, `log, `deeds, `said,
               `since, `performed, `hits, `step, `entering, `bait
      ensures Ready() && performed == {} && !entering && bait == None
      ensures TurnOk(h, u) && StepOk(h.tree, old(Cfg()), Moves(h, u.performed))
      ensures Cfg() == Perform(h.tree, old(Cfg()), Moves(h, u.performed))
      ensures LiveOk(h, old(queue)) && u.queue == old(queue) && u.agenda == Agenda(h, old(taken), old(queue))
      ensures u.performed == Exits(h, old(Cfg()), u.agenda).1 && log == old(log) + StepsOf(u.deeds)
      ensures (forall d :: d in u.deeds ==> Right(h, w, d)) && Leaves(u) && deeds == old(deeds) + u.deeds
      ensures var left := LeaveAll(h.tree, old(Cfg()), Moves(h, u.performed));
              Stuck() <= old(Stuck()) * left.on + Hazards(h, left, u.performed, u.queue)
      ensures old(Fated()) ==> Stranded(old(bait).value.s, [old(bait).value.e])
      ensures forall s: nat :: old(Blank() && s in Stuck()) ==> Stranded(s, [])
    {
      hide Balanced, Stuck, Valid, EventsOk, TransitionsOk, NoEmptyClusters, WorldOk, Typed, Fated, Hazards;
      hide Performable, Exits, Enters, Agenda, LeaveAll, EnterAll, Hits;
      LaterNow();
      assert LiveOk(h, queue) by {
        AllLive();
      }
      ghost var c, ts, q, blank := Cfg(), Agenda(h, taken, queue), queue, Blank();
      AgendaTriggered(h, taken, queue);
      ghost var done := MicroStep();
      u := Turn(q, ts, done, deeds[|old(deeds)|..]);
      NewDeeds();
      SameTail(old(Performed(deeds)), done, Performed(u.deeds));
      ExitsAreMoves(h, c, ts);
      EntersAreMoves(h, LeaveAll(h.tree, c, Moves(h, done)), done);
      if blank {
        BlankStays();
      }
    }

    lemma SameTail(a: seq<nat>, x: seq<nat>, y: seq<nat>)
      requires a + x == a + y
      ensures x == y
    {
      assert x == (a + x)[|a|..] == (a + y)[|a|..] == y;
    }

    /** What a micro-step has put on record. */
    twostate lemma NewDeeds()
      requires old(Tables()) && Tables() && old(Balanced()) && Balanced() && old(deeds) <= deeds
      requires step == [] && since == |old(Told())|
      ensures var more := deeds[|old(deeds)|..];
              && deeds == old(deeds) + more
              && log == old(log) + StepsOf(more) && Performed(deeds) == old(Performed(deeds)) + Performed(more)
              && (forall d :: d in more ==> Right(h, w, d))
              && LiveOk(h, queue) && queue == Accepted(Offers(more)) && Agenda(h, taken, queue) == MarksOf(Offers(more))
    {
      hide Books, Lured, Settled, Agenda, Accepted, MarksOf, Valid, TransitionsOk, WorldOk, Right, Offers, StepsOf,
           Performed;
      var more := deeds[|old(deeds)|..];
      assert deeds == old(deeds) + more;
      OffersMore(old(deeds), more);
      assert Told()[since..] == Offers(more) && queue[0..] == queue;
      forall i | 0 <= i < |more| ensures Right(h, w, more[i]) {
        assert DeedOk(h, w, deeds, |old(deeds)| + i);
      }
    }

    lemma AllLive()
      requires Tables() && Balanced()
      ensures LiveOk(h, queue)
    {
    }

    twostate lemma BlankStays()
      requires old(Tables()) && Tables() && old(Blank()) && Blank() && state == old(state)
      requires performed == {} == old(performed)
      ensures Stuck() == old(Stuck())
    {
      assert taken == old(taken);
      AwaitsStay();
    }

    /** How a broadcast from outside goes on record. */
    ghost function AsRecorded(e: nat, pre: bool, queued: bool): Deed
      requires Tables() && IsEvent(h, e)
      reads `state, `inProgress, `queue, `taken, `target, `clock, `log
    {
      Deed(Outside, Seen(), [Offer(Call(e, pre), queued, Marking(e, queued))])
    }

    /** event::broadcast from outside, up to its call of algorithm(). */
    method Accept(e: nat, pre: bool) returns (queued: bool)
      requires Ready() && IsEvent(h, e) && Quiescent()
      modifies `state, `inProgress, `queue, `taken, `target, `clock, `deeds, `said
      ensures Ready() && performed == {} && !entering && !running && Cfg() == old(Cfg()) && Stuck() == old(Stuck())
      ensures queued <==> pre && exists i :: Selected(h, w, old(state), e, old(Seen()), i)
      ensures clock == old(clock) + 1
      ensures queued ==> queue == [e] && Agenda(h, taken, [e]) == old(Marking(e, true))
      ensures queued ==> Found(e, |Chain(h, e)|, old(state), old(taken), old(Seen()))
      ensures !queued ==> Quiescent() && state == old(state)
      ensures deeds == old(deeds) + [old(AsRecorded(e, pre, queued))]
    {
      hide Balanced, Typed, Stuck, ValidChart, WorldOk, Found, Marking, Agenda, Selected, Chain, Books, Lured, Settled;
      hide Ledger, Chronicled, StepsOf, Ticks;
      Untold();
      ghost var past := Seen();
      queued := Ask(e, pre);
      CloseOutside(past);
    }

    lemma Untold()
      requires Tables() && Balanced()
      ensures said == [] && clock == Ticks(deeds) && log == StepsOf(deeds) && Chronicled(h, w, deeds)
    {
    }

    /** A broadcast from outside goes on record. */
    ghost method CloseOutside(past: Past)
      requires Tables() && Books(queue) && Lured() && Settled() && Ledger() && Chronicled(h, w, deeds) && |said| == 1
      requires clock == Ticks(deeds) + 1 && log == StepsOf(deeds)
      modifies `deeds, `said
      ensures Balanced() && deeds == old(deeds) + [Deed(Outside, past, old(said))]
    {
      hide Books, Lured, Settled, Ledger, Chronicled, ValidChart, WorldOk;
      ghost var d := Deed(Outside, past, said);
      Close(Outside, past);
    }

    method Ask(e: nat, pre: bool) returns (queued: bool)
      requires Ready() && IsEvent(h, e) && Quiescent()
      modifies `state, `inProgress, `queue, `taken, `target, `clock, `said
      ensures Tables() && Books(queue) && Lured() && Settled() && Ledger() && Typed(h.tree, Cfg())
      ensures Cfg() == old(Cfg()) && Stuck() == old(Stuck())
      ensures queued <==> pre && exists i :: Selected(h, w, old(state), e, old(Seen()), i)
      ensures clock == old(clock) + 1 && said == [Offer(Call(e, pre), queued, old(Marking(e, queued)))]
      ensures queued ==> queue == [e] && Agenda(h, taken, [e]) == old(Marking(e, true))
      ensures queued ==> Found(e, |Chain(h, e)|, old(state), old(taken), old(Seen()))
      ensures !queued ==> Quiescent() && state == old(state)
    {
      hide Books, Lured, Settled, Ledger, Chronicled, Typed, Stuck, WorldOk, Found, Chosen, Valid, EventsOk, Agenda;
      hide Selected, Chain, Exposed;
      NothingPerformed();
      ghost var v := Sight();
      queued := Post(e, pre);
      assert v.on + On() == On() && Stuck() == v.stuck;
      if queued {
        MarkedIsChosen(e);
        OneOnAgenda(h, taken, e);
      }
    }

    /** event::broadcast from outside: queue the event if it selects anything, then run the machine. */
    method Broadcast(e: nat, pre: bool, fuel: nat) returns (finished: bool, ghost trail: seq<Turn>)
      requires Ready() && IsEvent(h, e) && Quiescent()
      modifies `state, `child, `last, `inProgress, `queue, `taken, `target, `clock, `log, `deeds, `said,
               `since, `performed, `hits, `step, `entering, `bait, `running
      ensures Ready() && performed == {} && !entering
      ensures Reached(old(Cfg()), old(Stuck()), trail) && Continuous(old(Cfg()), trail)
      ensures finished ==> Quiescent()
      ensures !finished ==> running && queue != [] && |trail| == fuel
      ensures if pre && exists i :: Selected(h, w, old(state), e, old(Seen()), i)
              then (fuel > 0 ==> trail != []) &&
                   (trail != [] ==> trail[0].queue == [e] && trail[0].agenda == old(Marking(e, true))) &&
                   deeds == old(deeds) + [old(AsRecorded(e, pre, true))] + Doings(trail)
              else finished && trail == [] && state == old(state) &&
                   deeds == old(deeds) + [old(AsRecorded(e, pre, false))]
      ensures trail != [] ==> Leaves(trail[|trail| - 1])
    {
      hide Balanced, Typed, Stuck, Reached, ValidChart, WorldOk, Marking, Leaves, Quiescent, Agenda;
      var queued := Accept(e, pre);
      NothingReached();
      if queued {
        finished, trail := Algorithm(fuel);
      } else {
        finished, trail := true, [];
      }
    }

    lemma NothingPerformed()
      requires Tables() && Balanced() && performed == {}
      ensures LiveOk(h, step) && Lured() && Settled() && Books(queue) && Stuck() <= On()
      ensures forall on :: Exposed(h, on, performed, step) == {}
    {
      LiveStep();
    }

    // ------------------------------------------------------------ starting, and forgetting

    /** The constructors: every state inactive, nothing marked, queued or remembered. */
    constructor (chart: Chart, world: World)
      requires ValidChart(chart) && WorldOk(chart, world)
      ensures h == chart && w == world
      ensures Ready() && Quiescent() && Cfg().on == {} && Sound(h.tree, Cfg()) && clock == 0 && log == []
    {
      h, w := chart, world;
      state := seq(|chart.tree.kind|, _ => Inactive);
      child := seq(|chart.tree.kind|, _ => None);
      last := seq(|chart.tree.kind|, _ => None);
      inProgress := seq(|chart.base|, _ => 0);
      queue := [];
      taken := seq(|chart.transition|, _ => None);
      target := seq(|chart.transition|, _ => None);
      running := false;
      clock := 0;
      log, deeds, said, since := [], [], [], 0;
      performed, hits, step, entering, bait := {}, {}, [], false, None;
      new;
      NothingToldYet();
    }

    lemma NothingToldYet()
      requires Tables() && queue == [] && step == [] && deeds == [] && said == [] && since == 0
      requires clock == 0 && log == []
      ensures Ledger() && Chronicle()
    {
      hide ValidChart, WorldOk;
    }

    /** machine::enter, when the enter events and actions it leads to broadcast nothing: the machine is not
        marked as in progress while it starts. */
    method Start() returns (entered: bool)
      requires Ready() && MayCall() && Quiescent() && Sound(h.tree, Cfg()) && ROOT !in On()
      modifies `state, `child, `last, `inProgress, `queue, `taken, `target, `clock, `log, `deeds, `said
      ensures entered && Ready() && Quiescent() && Complete(h.tree, Cfg())
      ensures Cfg() == Open(h.tree, old(Cfg()), ROOT, None).0 && Tally() == old(Tally())
      ensures Stuck() == {}
    {
      hide Balanced, Stuck, Valid, EventsOk, TransitionsOk, NoEmptyClusters, WorldOk;
      StartIsComplete(h.tree, Cfg());
      NobodyOn();
      NothingPerformed();
      ghost var v := Sight();
      entered := Enter(ROOT, None);
      assert v.stuck == {};
      EmptyQueueIsQuiescent();
    }

    lemma NobodyOn()
      requires Ready() && Sound(h.tree, Cfg()) && ROOT !in On()
      ensures On() == {}
    {
      forall x | x in On() ensures false {
        RootHoldsAll(h.tree, x);
        NestedEntry.OnUpward(h.tree, Cfg(), x, ROOT);
      }
    }

    /** deep_clear: every cluster of the subtree goes back to its first child, and no other. */
    method DeepClear(s: nat)
      requires ValidChart(h) && IsState(h.tree, s) && |last| == |h.tree.kind|
      modifies `last
      ensures |last| == |h.tree.kind|
      ensures forall p: nat :: p < |last| && Within(h.tree, p, s) && h.tree.kind[p] == Cluster ==>
                last[p] == Some(h.tree.children[p][0])
      ensures forall p: nat :: p < |last| && !(Within(h.tree, p, s) && h.tree.kind[p] == Cluster) ==>
                last[p] == old(last)[p]
      ensures |old(last)| == |last| && Reset(h.tree, old(last), last, s)
      decreases Height(h.tree, s)
    {
      if h.tree.kind[s] == Cluster {
        last := last[s := Some(h.tree.children[s][0])];
      }
      ghost var last1 := last;
      for i := 0 to |h.tree.children[s]|
        invariant |last| == |h.tree.kind|
        invariant forall p: nat :: p < |last| ==>
          last[p] == if h.tree.kind[p] == Cluster && Below(h.tree, p, s)
                        && Toward(h.tree, p, s) in h.tree.children[s][..i]
                     then Some(h.tree.children[p][0]) else last1[p]
      {
        var d := h.tree.children[s][i];
        assert d in h.tree.children[s];
        ChildWithin(h.tree, d, s);
        assert h.tree.children[s][..i + 1] == h.tree.children[s][..i] + [d];
        forall p: nat | p < |last| ensures Within(h.tree, p, d) <==> Below(h.tree, p, s) && Toward(h.tree, p, s) == d {
          TowardIs(h.tree, p, s, d);
        }
        DeepClear(d);
      }
      assert h.tree.children[s][..|h.tree.children[s]|] == h.tree.children[s];
    }
  }

  /** Of the enabled external transitions out of one source, the earliest is selected. */
  lemma {:induction false} EarliestSelected(h: Chart, w: World, state: seq<Activity>, e: nat, k: Past, m: nat)
    requires ValidChart(h) && IsEvent(h, e) && |state| == |h.tree.kind| && m < |Chain(h, e)|
    requires forall i :: 0 <= i < |Chain(h, e)| ==> IsTransition(h, Chain(h, e)[i])
    requires External(h, Chain(h, e)[m]) && Enabled(h, w, state, e, k, m)
    ensures exists i :: 0 <= i <= m && Selected(h, w, state, e, k, i) && External(h, Chain(h, e)[i])
              && h.transition[Chain(h, e)[i]].from == h.transition[Chain(h, e)[m]].from
  {
    var ids := Chain(h, e);
    if j :| 0 <= j < m && External(h, ids[j]) && Enabled(h, w, state, e, k, j)
            && h.transition[ids[j]].from == h.transition[ids[m]].from {
      EarliestSelected(h, w, state, e, k, j);
    } else {
      assert Selected(h, w, state, e, k, m);
    }
  }

  lemma SelfNotBelow(g: Tree, x: nat)
    requires Valid(g) && IsState(g, x)
    ensures x == ROOT || !Within(g, g.parent[x], x)
  {
    if x != ROOT {
      ChildWithin(g, x, g.parent[x]);
    }
  }

  /** Entering a child of a state that has just been entered is default entry. */
  lemma ChildByDefault(g: Tree, c: Config, p: nat, d: nat)
    requires Valid(g) && Typed(g, c) && p in c.on && d in g.children[p]
    requires g.kind[p] == Set || c.child[p] == c.last[p] == Some(d)
    ensures Open(g, c, d, None).0 == Descend(g, c, d)
  {
    if g.kind[p] == Cluster {
      assert c.child[p := Some(d)] == c.child && c.last[p := Some(d)] == c.last;
    }
  }

  /** One step along a base chain. */
  lemma ChainOfBases(h: Chart, e: nat, x: nat)
    requires EventsOk(h) && IsEvent(h, e) && IsEvent(h, x) && Derives(h, e, x)
    ensures h.base[x].Some? ==> Derives(h, e, h.base[x].value) && !Derives(h, h.base[x].value, x)
    ensures forall y: nat :: Derives(h, x, y) <==> y == x || (h.base[x].Some? && Derives(h, h.base[x].value, y))
    ensures forall y: nat :: Derives(h, x, y) ==> Derives(h, e, y)
  {
    if h.base[x].Some? {
      var b := h.base[x].value;
      assert Derives(h, b, b) && Derives(h, x, b);
      if Derives(h, b, x) {
        DerivesLevel(h, b, x);
      }
      DerivesTrans(h, e, x, b);
    }
    forall y: nat | Derives(h, x, y) ensures Derives(h, e, y) {
      DerivesTrans(h, e, x, y);
    }
  }
}
