/**
  Quiescence has an exception: a state can be left disabled when the machine comes to rest.  Every hazard of a
  micro-step can come true, for user code that behaves as it did so far and then broadcasts one event from one
  enter action; and a concrete machine shows it from the very start.
 */
module StuckState {
  import opened Wrappers
  import opened StateTree
  import opened Configuration
  import opened Leaving
  import opened Charts
  import opened Stranding
  import opened Engine

  // ---------------------------------------------------------------- every hazard comes true

  /** What would make `s` come true from now on. */
  ghost function Tempting(m: Machine, s: nat): (b: Bait)
    requires m.Ready() && LiveOk(m.h, m.queue)
    requires s in Hazards(m.h, m.Ahead().0, m.Ahead().1, m.queue)
    reads m
  {
    Temptation(m.h, Hits(m.h, m.Ahead().0, m.Ahead().1), m.queue, s, m.clock, |m.log|)
  }

  /** Some user code is like that, whatever it did so far. */
  lemma SomeWorldTempts(m: Machine, s: nat)
    requires m.Ready() && LiveOk(m.h, m.queue)
    requires s in Hazards(m.h, m.Ahead().0, m.Ahead().1, m.queue)
    ensures exists w :: WorldOk(m.h, w) && Agree(w, m.w, m.clock) && Provokes(w, Tempting(m, s))
  {
    ProvokingIs(m.h, m.w, Tempting(m, s));
  }

  /** A machine with events queued, in which a micro-step with a hazard comes next and user code behaves like
      that: when it is at rest, the state is disabled. */
  method ComesTrue(m: Machine, s: nat, fuel: nat) returns (finished: bool)
    requires m.Ready() && m.performed == {} && !m.entering && !m.running && fuel >= 2 && LiveOk(m.h, m.queue)
    requires s in Hazards(m.h, m.Ahead().0, m.Ahead().1, m.queue) && Provokes(m.w, Tempting(m, s))
    modifies m
    ensures finished && m.Ready() && m.Quiescent() && s < |m.state| && m.state[s] == Disabled
  {
    hide Machine.Balanced, Valid, EventsOk, TransitionsOk, WorldOk, Typed, Provokes, Hits, Exits, Agenda, Sources;
    hide Machine.Fated, Machine.Reached;
    Tempt(m, s);
    ghost var trail;
    finished, trail := m.Algorithm(fuel);
    m.DisabledAtRest();
  }

  ghost method Tempt(m: Machine, s: nat)
    requires m.Ready() && m.performed == {} && !m.entering && LiveOk(m.h, m.queue)
    requires s in Hazards(m.h, m.Ahead().0, m.Ahead().1, m.queue) && Provokes(m.w, Tempting(m, s))
    modifies m`step, m`hits, m`bait, m`since
    ensures m.Ready() && m.Fated() && m.bait.value.s == s
  {
    hide Machine.Balanced, Valid, EventsOk, TransitionsOk, WorldOk, Typed, Provokes, Exits, Agenda, Sources;
    var b := Tempting(m, s);
    m.Observe(b);
  }

  /** The same in the middle of a run: after this micro-step and the next, which finds nothing to do, the queue is
      empty and the state is still disabled. */
  method ComesTrueMidway(m: Machine, s: nat)
    requires m.Ready() && m.performed == {} && !m.entering && m.running && LiveOk(m.h, m.queue)
    requires s in Hazards(m.h, m.Ahead().0, m.Ahead().1, m.queue) && Provokes(m.w, Tempting(m, s))
    modifies m
    ensures m.Ready() && m.queue == [] && m.Blank() && s < |m.state| && m.state[s] == Disabled
  {
    hide Machine.Balanced, Valid, EventsOk, TransitionsOk, WorldOk, Typed, Provokes, Hits, Exits, Agenda, Sources;
    hide Machine.Fated, Machine.Reached;
    Tempt(m, s);
    hide Enters;
    ghost var _ := m.MicroStep();
    ghost var _ := m.MicroStep();
  }

  // ---------------------------------------------------------------- a machine that strands its only state

  function OneState(): Tree {
    Tree([Cluster, Plain], [0, 0], [[1], []], [false, false], [0, 1])
  }

  lemma OneStateValid()
    ensures Valid(OneState()) && NoEmptyClusters(OneState())
  {
    var g := OneState();
    assert |g.children[0]| == 1 && g.children[0][0] == 1 && g.children[1] == [];
  }

  lemma OneStateOk()
    ensures Valid(OneState()) && NoEmptyClusters(OneState())
    ensures Within(OneState(), 1, 0) && !Within(OneState(), 0, 1)
  {
    OneStateValid();
    hide Valid, NoEmptyClusters;
    assert Within(OneState(), 0, 0);
  }

  /** A root with one state, 1; event 0 takes it back to itself, and event 1 is derived from event 0. */
  function SelfLoop(): (h: Chart)
    ensures ValidChart(h)
  {
    OneStateOk();
    Chart(OneState(), [Transition(1, Some(1))], [None, Some(0)], [[0], []], [0, 1], [None, None], [None, None])
  }

  lemma SelfLoopEvents()
    ensures EventsOk(SelfLoop()) && |SelfLoop().base| == 2
    ensures SelfLoop().list[0] == [0] && SelfLoop().list[1] == []
    ensures SelfLoop().base[0] == None && SelfLoop().base[1] == Some(0)
  {
    hide Valid, NoEmptyClusters, TransitionsOk;
  }

  lemma SelfLoopChains()
    ensures Chain(SelfLoop(), 0) == [0] && Chain(SelfLoop(), 1) == [0]
    ensures !Derives(SelfLoop(), 0, 1) && Load(SelfLoop(), [0], 1) == 0
  {
    SelfLoopEvents();
    hide SelfLoop, ValidChart, EventsOk;
    var h := SelfLoop();
    assert Chain(h, 0) == [0] + [];
    assert Chain(h, 1) == [] + Chain(h, 0);
    OneLoad(h, 1);
  }

  lemma OneLoad(h: Chart, x: nat)
    requires EventsOk(h) && IsEvent(h, 0)
    ensures Load(h, [0], x) == Once(Derives(h, 0, x))
  {
    hide EventsOk, Derives;
    assert [0][1..] == [];
    assert Load(h, [], x) == 0;
  }

  lemma SelfLoopShape()
    ensures SelfLoop().tree == OneState() && SelfLoop().transition == [Transition(1, Some(1))]
    ensures |SelfLoop().base| == 2 && SelfLoop().enterEvent == [None, None]
  {
  }

  /** Conditions hold and nothing is broadcast while user code has been called less than three times.  From then
      on, when state 1 is entered its enter action broadcasts event 1. */
  function Echo(): World {
    Provoking(World((_, _) => [], (_, _) => [], (_, _) => [], (_, _, _) => true), Again())
  }

  function Again(): Bait {
    Bait(1, 0, 1, 3, 2)
  }

  lemma EchoIs()
    ensures WorldOk(SelfLoop(), Echo()) && Provokes(Echo(), Again())
    ensures forall s, p: Past :: p.calls < 3 ==> Echo().enterAction(s, p) == []
    ensures forall t, e, p: Past :: p.calls < 3 ==> Echo().condition(t, e, p)
  {
    ProvokingIs(SelfLoop(), World((_, _) => [], (_, _) => [], (_, _) => [], (_, _, _) => true), Again());
  }

  /** The machine is started: both states are active, and user code has been called twice. */
  method Started() returns (m: Machine)
    ensures fresh(m) && m.h == SelfLoop() && m.w == Echo() && m.Ready() && m.Quiescent()
    ensures Complete(m.h.tree, m.Cfg()) && m.clock == 2 && |m.log| == 2 && m.state == [Active, Active]
  {
    EchoIs();
    SelfLoopShape();
    m := new Machine(SelfLoop(), Echo());
    hide Machine.Balanced, SelfLoop, Echo, Valid, EventsOk, TransitionsOk, WorldOk, Machine.Stuck;
    TwoAreOff(m);
    var _ := m.Start();
    NoneAreOff(m);
  }

  lemma TwoAreOff(m: Machine)
    requires m.h.tree == OneState() && m.On() == {}
    ensures |m.Off()| == 2
  {
    assert m.Off() == {0, 1};
  }

  lemma NoneAreOff(m: Machine)
    requires m.Ready() && m.Quiescent() && m.h.tree == OneState() && Complete(m.h.tree, m.Cfg()) && m.Stuck() == {}
    ensures |m.Off()| == 0 && m.state == [Active, Active]
  {
    hide EventsOk, TransitionsOk, WorldOk, Machine.Balanced;
    assert m.h.tree.children[0] == [1] && m.h.tree.kind[0] == Cluster;
    assert Full(m.h.tree, m.Cfg(), 0);
    assert 0 in m.On() && 1 in m.On();
    assert m.Off() == {};
    m.DisabledAtRest();
  }

  /** Event 0 selects its transition. */
  lemma SelectsItself(state: seq<Activity>, k: Past)
    requires state == [Active, Active] && k.calls < 3
    ensures Selected(SelfLoop(), Echo(), state, 0, k, 0)
  {
    EchoIs();
    SelfLoopChains();
    SelfLoopShape();
    SelfLoopEvents();
    hide SelfLoop, Echo, Chain, EventsOk, Valid, NoEmptyClusters, TransitionsOk, WorldOk, Provokes;
    assert Chain(SelfLoop(), 0) == [0];
  }

  /** Event 0 is broadcast: the machine is about to take the transition. */
  method Posted(m: Machine)
    requires m.h == SelfLoop() && m.w == Echo() && m.Ready() && m.Quiescent()
    requires Complete(m.h.tree, m.Cfg()) && m.clock == 2 && |m.log| == 2 && m.state == [Active, Active]
    modifies m
    ensures m.Ready() && m.performed == {} && !m.entering && !m.running && Complete(m.h.tree, m.Cfg())
    ensures m.queue == [0] && m.taken == [Some(0)] && m.clock == 3 && |m.log| == 2 && m.log == old(m.log)
  {
    hide SelfLoop, Echo, Typed, Selected, Chain, Complete, Machine.Balanced, Machine.Found, ValidChart, WorldOk;
    hide Machine.Stuck;
    SelectsItself(m.state, m.Seen());
    AllBlank(m);
    ghost var state0, k := m.state, m.Seen();
    PostZero(m);
    MarksItself(m, state0, k);
  }

  method PostZero(m: Machine)
    requires m.Ready() && m.Quiescent() && IsEvent(m.h, 0) && m.inProgress[0] == 0
    requires Selected(m.h, m.w, m.state, 0, m.Seen(), 0)
    modifies m`state, m`inProgress, m`queue, m`taken, m`target, m`clock, m`deeds, m`said
    ensures m.Ready() && m.queue == [0] && m.clock == old(m.clock) + 1 && m.Cfg() == old(m.Cfg())
    ensures m.Found(0, |Chain(m.h, 0)|, old(m.state), old(m.taken), old(m.Seen()))
  {
    hide Machine.Balanced, ValidChart, WorldOk, Typed, Selected, Chain, Machine.Found, Machine.Stuck;
    var queued := m.Accept(0, true);
  }

  lemma AllBlank(m: Machine)
    requires m.h == SelfLoop() && m.Ready() && m.Quiescent()
    ensures m.inProgress == [0, 0] && m.taken == [None] && IsEvent(m.h, 0)
  {
    SelfLoopShape();
  }

  lemma MarksItself(m: Machine, state0: seq<Activity>, k: Past)
    requires m.h == SelfLoop() && m.w == Echo() && m.Tables() && |state0| == 2 && IsEvent(m.h, 0)
    requires Selected(SelfLoop(), Echo(), state0, 0, k, 0) && |state0| == |m.state| && |m.taken| == 1
    requires m.Found(0, |Chain(m.h, 0)|, state0, [None], k)
    ensures m.taken == [Some(0)]
  {
    SelfLoopChains();
    SelfLoopEvents();
    hide SelfLoop, Echo, ValidChart, WorldOk, Selected, EventsOk;
    assert Chain(m.h, 0)[0] == 0;
  }

  /** The state exits and is entered again, so its transition is hit. */
  lemma SelfLoopHits(c: Config)
    requires ValidChart(SelfLoop()) && Complete(OneState(), c) && Typed(SelfLoop().tree, c)
    ensures TidsOk(SelfLoop(), [0]) && Exits(SelfLoop(), c, [0]).1 == [0]
    ensures 0 in Hits(SelfLoop(), Exits(SelfLoop(), c, [0]).0, [0])
  {
    SelfLoopShape();
    OneStateOk();
    hide SelfLoop, ValidChart;
    var g := OneState();
    assert Full(g, c, 0) && g.children[0] == [1];
    ExitsOne(SelfLoop(), c, 0);
    var d := Quit(g, c, 1, Some(1));
    QuitExact(g, c, 1, Some(1));
    assert 0 in d.on && 1 !in d.on && d.child[0] == Some(1);
    OneHit(SelfLoop(), d, 0);
    assert 1 in Open(g, d, 1, None).0.on;
  }

  /** From the constructor to rest, through the engine alone: the machine is started, event 0 is broadcast, state 1
      is exited and entered again, its enter action broadcasts event 1, and when the machine has come to rest
      the state is disabled. */
  method Strand() returns (m: Machine, finished: bool)
    ensures fresh(m) && m.h == SelfLoop() && m.w == Echo()
    ensures finished && m.Ready() && m.Quiescent() && |m.state| == 2 && m.state[1] == Disabled
  {
    hide Machine.Balanced, SelfLoop, Echo, ValidChart, WorldOk, Complete, Machine.Quiescent;
    m := Started();
    Posted(m);
    Watch(m);
    ghost var trail;
    finished, trail := m.Algorithm(2);
    m.DisabledAtRest();
  }

  ghost method Watch(m: Machine)
    requires m.h == SelfLoop() && m.w == Echo() && m.Ready() && m.performed == {} && !m.entering
    requires Complete(m.h.tree, m.Cfg()) && m.queue == [0] && m.taken == [Some(0)] && m.clock == 3 && |m.log| == 2
    modifies m`step, m`hits, m`bait, m`since
    ensures m.Ready() && m.Fated() && m.bait == Some(Again())
  {
    EchoIs();
    SelfLoopShape();
    SelfLoopChains();
    SelfLoopHits(m.Cfg());
    hide SelfLoop, Echo, Machine.Balanced, ValidChart, WorldOk, Provokes, Complete, Exits, Hits, Chain, Load, Typed;
    hide EventsOk, OneState, Agenda, Derives;
    OneAhead(m);
    m.Observe(Again());
    OneAhead(m);
  }

  lemma OneAhead(m: Machine)
    requires m.h == SelfLoop() && m.Ready() && m.queue == [0] && m.taken == [Some(0)]
    ensures TidsOk(m.h, [0]) && m.Ahead() == Exits(m.h, m.Cfg(), [0])
  {
    SelfLoopChains();
    SelfLoopShape();
    SelfLoopEvents();
    hide SelfLoop, Machine.Balanced, ValidChart, WorldOk, Exits, Chain, EventsOk;
    OneOnAgenda(m.h, m.taken);
  }

  lemma OneOnAgenda(h: Chart, taken: seq<Option<nat>>)
    requires EventsOk(h) && IsEvent(h, 0) && Chain(h, 0) == [0] && |h.transition| == 1 && taken == [Some(0)]
    ensures Agenda(h, taken, [0]) == [0]
  {
    hide EventsOk, Chain;
    assert [0][1..] == [];
    assert Marked(taken, 0, [0]) == [0] + Marked(taken, 0, []);
    assert Agenda(h, taken, [0]) == [0] + Agenda(h, taken, []);
  }
}
