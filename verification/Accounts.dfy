/**
  The account of everything user code is called for and of everything it broadcasts: which broadcast was
  offered to the machine at which moment, what became of it, and which call of user code it came from.
 */
module Accounts {
  import opened Wrappers
  import opened Configuration
  import opened Charts

  /** One call of event::broadcast: whether the event was queued, and the transitions it then marked, in the
      order it iterates over them. */
  datatype Offer = Offer(call: Call, queued: bool, marks: seq<nat>)

  /** What broadcasts: a state being entered or exited, a transition's action, or the world outside. */
  datatype Act = Entering(s: nat) | Exiting(s: nat) | Acting(t: nat) | Outside

  /** One act with all it broadcast, in order.  `past` is what the action of the act could look back on. */
  datatype Deed = Deed(act: Act, past: Past, said: seq<Offer>)

  function CallsOf(said: seq<Offer>): (r: seq<Call>)
    ensures |r| == |said| && forall i :: 0 <= i < |r| ==> r[i] == said[i].call
  {
    seq(|said|, i requires 0 <= i < |said| => said[i].call)
  }

  /** The broadcast of a state's enter or exit event, if it has one. */
  function EventCall(ev: Option<nat>): seq<Call> {
    if ev.Some? then [Call(ev.value, true)] else []
  }

  /** What an act has to broadcast: first the event of the state, then whatever its action asks for. */
  ghost predicate Right(h: Chart, w: World, d: Deed) {
    match d.act
    case Entering(s) => s < |h.enterEvent| && CallsOf(d.said) == EventCall(h.enterEvent[s]) + w.enterAction(s, d.past)
    case Exiting(s) => s < |h.exitEvent| && CallsOf(d.said) == EventCall(h.exitEvent[s]) + w.exitAction(s, d.past)
    case Acting(t) => CallsOf(d.said) == w.action(t, d.past)
    case Outside => |d.said| == 1
  }

  /** The event that goes with an act. */
  function EventOf(h: Chart, a: Act): Option<nat> {
    match a
    case Entering(s) => if s < |h.enterEvent| then h.enterEvent[s] else None
    case Exiting(s) => if s < |h.exitEvent| then h.exitEvent[s] else None
    case Acting(_) => None
    case Outside => None
  }

  /** What its action broadcasts. */
  function ActionCalls(w: World, a: Act, past: Past): seq<Call> {
    match a
    case Entering(s) => w.enterAction(s, past)
    case Exiting(s) => w.exitAction(s, past)
    case Acting(t) => w.action(t, past)
    case Outside => []
  }

  /** How many broadcasts of an act come before its action is called. */
  function Before(h: Chart, a: Act): nat {
    |EventCall(EventOf(h, a))|
  }

  function StepOf(a: Act): seq<Step> {
    match a
    case Entering(s) => [Entered(s)]
    case Exiting(s) => [Exited(s)]
    case Acting(_) => []
    case Outside => []
  }

  ghost predicate ActOk(h: Chart, a: Act) {
    && (EventOf(h, a).Some? ==> IsEvent(h, EventOf(h, a).value))
    && match a
       case Entering(s) => s < |h.enterEvent|
       case Exiting(s) => s < |h.exitEvent|
       case Acting(_) => true
       case Outside => false
  }

  lemma ActionOk(h: Chart, w: World, a: Act)
    requires WorldOk(h, w)
    ensures forall p: Past :: CallsOk(h, ActionCalls(w, a, p))
  {
  }

  /** Every broadcast and every call of an action counts once. */
  function Ticks(deeds: seq<Deed>): nat {
    if deeds == [] then 0
    else
      var n := |deeds| - 1;
      Ticks(deeds[..n]) + |deeds[n].said| + if deeds[n].act.Outside? then 0 else 1
  }

  /** The states entered and exited, in order. */
  function StepsOf(deeds: seq<Deed>): seq<Step> {
    if deeds == [] then []
    else
      var n := |deeds| - 1;
      StepsOf(deeds[..n]) + StepOf(deeds[n].act)
  }

  /** The transitions performed, in order. */
  function Performed(deeds: seq<Deed>): seq<nat> {
    if deeds == [] then []
    else
      var n := |deeds| - 1;
      Performed(deeds[..n]) + if deeds[n].act.Acting? then [deeds[n].act.t] else []
  }

  /** All broadcasts, in order. */
  function Offers(deeds: seq<Deed>): seq<Offer> {
    if deeds == [] then []
    else
      var n := |deeds| - 1;
      Offers(deeds[..n]) + deeds[n].said
  }

  /** The events queued by broadcasts, in order. */
  function Accepted(said: seq<Offer>): seq<nat> {
    if said == [] then []
    else
      var n := |said| - 1;
      Accepted(said[..n]) + if said[n].queued then [said[n].call.event] else []
  }

  /** The transitions marked by broadcasts, in order. */
  function MarksOf(said: seq<Offer>): seq<nat> {
    if said == [] then []
    else
      var n := |said| - 1;
      MarksOf(said[..n]) + said[n].marks
  }

  /** An act broadcast what it had to, at the moment it had to: its action looked back on all deeds before it, on
      its own entry or exit, and on its event. */
  ghost predicate DeedOk(h: Chart, w: World, deeds: seq<Deed>, i: nat)
    requires i < |deeds|
  {
    && Right(h, w, deeds[i])
    && (!deeds[i].act.Outside? ==>
          deeds[i].past == Past(Ticks(deeds[..i]) + Before(h, deeds[i].act), StepsOf(deeds[..i + 1])))
  }

  ghost predicate Chronicled(h: Chart, w: World, deeds: seq<Deed>) {
    forall i :: 0 <= i < |deeds| ==> DeedOk(h, w, deeds, i)
  }

  // ---------------------------------------------------------------- one more

  lemma OneDeed(deeds: seq<Deed>, d: Deed)
    ensures Ticks(deeds + [d]) == Ticks(deeds) + |d.said| + if d.act.Outside? then 0 else 1
    ensures StepsOf(deeds + [d]) == StepsOf(deeds) + StepOf(d.act)
    ensures Performed(deeds + [d]) == Performed(deeds) + if d.act.Acting? then [d.act.t] else []
    ensures Offers(deeds + [d]) == Offers(deeds) + d.said
  {
    assert (deeds + [d])[..|deeds|] == deeds;
  }

  lemma ChronicledMore(h: Chart, w: World, deeds: seq<Deed>, d: Deed)
    requires Chronicled(h, w, deeds) && Right(h, w, d)
    requires !d.act.Outside? ==> d.past == Past(Ticks(deeds) + Before(h, d.act), StepsOf(deeds + [d]))
    ensures Chronicled(h, w, deeds + [d])
  {
    var more := deeds + [d];
    assert more[..|deeds|] == deeds && more[..|deeds| + 1] == more;
    forall i | 0 <= i < |deeds| ensures DeedOk(h, w, more, i) {
      assert DeedOk(h, w, deeds, i);
      assert more[..i] == deeds[..i] && more[..i + 1] == deeds[..i + 1];
    }
  }

  lemma OneOffer(said: seq<Offer>, o: Offer)
    ensures Accepted(said + [o]) == Accepted(said) + if o.queued then [o.call.event] else []
    ensures MarksOf(said + [o]) == MarksOf(said) + o.marks
    ensures CallsOf(said + [o]) == CallsOf(said) + [o.call]
  {
    assert (said + [o])[..|said|] == said;
  }

  lemma {:induction false} OffersConcat(deeds: seq<Deed>, more: seq<Deed>)
    ensures Offers(deeds + more) == Offers(deeds) + Offers(more)
    decreases |more|
  {
    if more == [] {
      assert deeds + more == deeds;
    } else {
      var n := |more| - 1;
      OffersConcat(deeds, more[..n]);
      assert (deeds + more)[..|deeds + more| - 1] == deeds + more[..n];
    }
  }

  lemma StepsOfLast(deeds: seq<Deed>)
    requires deeds != []
    ensures StepsOf(deeds) == StepsOf(deeds[..|deeds| - 1]) + StepOf(deeds[|deeds| - 1].act)
  {
  }

  lemma {:induction false} StepsOfConcat(deeds: seq<Deed>, more: seq<Deed>)
    ensures StepsOf(deeds + more) == StepsOf(deeds) + StepsOf(more)
    decreases |more|
  {
    if more == [] {
      assert deeds + more == deeds && StepsOf(more) == [];
    } else {
      hide *;
      var n := |more| - 1;
      StepsOfConcat(deeds, more[..n]);
      StepsOfLast(more);
      StepsOfLast(deeds + more);
      assert (deeds + more)[..|deeds + more| - 1] == deeds + more[..n];
      Regroup(StepsOf(deeds), StepsOf(more[..n]), StepOf(more[n].act));
    }
  }

  lemma Regroup(a: seq<Step>, b: seq<Step>, c: seq<Step>)
    ensures (a + b) + c == a + (b + c)
  {
  }

  lemma {:induction false} PerformedConcat(deeds: seq<Deed>, more: seq<Deed>)
    ensures Performed(deeds + more) == Performed(deeds) + Performed(more)
    decreases |more|
  {
    if more == [] {
      assert deeds + more == deeds;
    } else {
      var n := |more| - 1;
      PerformedConcat(deeds, more[..n]);
      assert (deeds + more)[..|deeds + more| - 1] == deeds + more[..n];
    }
  }

  lemma OffersMore(deeds: seq<Deed>, more: seq<Deed>)
    ensures Offers(deeds + more) == Offers(deeds) + Offers(more)
    ensures StepsOf(deeds + more) == StepsOf(deeds) + StepsOf(more)
    ensures Performed(deeds + more) == Performed(deeds) + Performed(more)
  {
    OffersConcat(deeds, more);
    StepsOfConcat(deeds, more);
    PerformedConcat(deeds, more);
  }

  // ---------------------------------------------------------------- what a broadcast selects

  /** The transitions at the first `n` places of the chain of `e` that it selects and finds unmarked. */
  ghost function Chosen(
    h: Chart, w: World, state: seq<Activity>, taken: seq<Option<nat>>, e: nat, k: Past, n: nat): (r: seq<nat>)
    requires ValidChart(h) && IsEvent(h, e) && |state| == |h.tree.kind| && |taken| == |h.transition|
    requires n <= |Chain(h, e)|
  {
    if n == 0 then []
    else
      ChainOk(h, e);
      var t := Chain(h, e)[n - 1];
      Chosen(h, w, state, taken, e, k, n - 1)
      + if Selected(h, w, state, e, k, n - 1) && taken[t] == None then [t] else []
  }

  /** Exactly the selected, unmarked transitions of those places are chosen. */
  lemma {:induction false} ChosenMeaning(
    h: Chart, w: World, state: seq<Activity>, taken: seq<Option<nat>>, e: nat, k: Past, n: nat, t: nat)
    requires ValidChart(h) && IsEvent(h, e) && |state| == |h.tree.kind| && |taken| == |h.transition|
    requires n <= |Chain(h, e)|
    ensures t in Chosen(h, w, state, taken, e, k, n) <==>
              exists i :: && 0 <= i < n && Selected(h, w, state, e, k, i) && Chain(h, e)[i] == t
                          && t < |taken| && taken[t] == None
  {
    if n > 0 {
      ChainOk(h, e);
      ChosenMeaning(h, w, state, taken, e, k, n - 1, t);
    }
  }

  /** They are chosen in the order of the chain, each once. */
  lemma {:induction false} ChosenOrder(
    h: Chart, w: World, state: seq<Activity>, taken: seq<Option<nat>>, e: nat, k: Past, n: nat, a: nat, b: nat)
    returns (i: nat, j: nat)
    requires ValidChart(h) && IsEvent(h, e) && |state| == |h.tree.kind| && |taken| == |h.transition|
    requires n <= |Chain(h, e)| && a < b < |Chosen(h, w, state, taken, e, k, n)|
    ensures i < j < n && Chain(h, e)[i] == Chosen(h, w, state, taken, e, k, n)[a]
    ensures Chain(h, e)[j] == Chosen(h, w, state, taken, e, k, n)[b]
  {
    hide Selected;
    var before := Chosen(h, w, state, taken, e, k, n - 1);
    if b < |before| {
      i, j := ChosenOrder(h, w, state, taken, e, k, n - 1, a, b);
    } else {
      j := n - 1;
      ChosenMeaning(h, w, state, taken, e, k, n - 1, before[a]);
      i :| 0 <= i < n - 1 && Chain(h, e)[i] == before[a];
    }
  }

  /** The marks that looking for transitions leaves are those chosen, in order. */
  lemma {:induction false} MarkedChosen(
    h: Chart, w: World, state: seq<Activity>, before: seq<Option<nat>>, after: seq<Option<nat>>, e: nat, k: Past,
    n: nat)
    requires ValidChart(h) && IsEvent(h, e) && |state| == |h.tree.kind| && |before| == |after| == |h.transition|
    requires n <= |Chain(h, e)| && forall t :: 0 <= t < |before| ==> before[t] != Some(e)
    requires forall t :: 0 <= t < |after| ==>
               after[t] == if before[t] == None
                              && exists i :: 0 <= i < |Chain(h, e)| && Selected(h, w, state, e, k, i)
                                             && Chain(h, e)[i] == t
                           then Some(e) else before[t]
    ensures (forall i :: 0 <= i < n ==> Chain(h, e)[i] < |after|) &&
            Marked(after, e, Chain(h, e)[..n]) == Chosen(h, w, state, before, e, k, n)
  {
    var ids := Chain(h, e);
    ChainOk(h, e);
    if n > 0 {
      MarkedChosen(h, w, state, before, after, e, k, n - 1);
      var t := ids[n - 1];
      assert ids[..n] == ids[..n - 1] + [t];
      MarkedAppend(after, e, ids[..n - 1], t);
      assert after[t] == Some(e) <==> before[t] == None && Selected(h, w, state, e, k, n - 1);
    }
  }

  // ---------------------------------------------------------------- the ledger

  /** The queue holds the events of the current micro-step and then, in order, exactly those queued by the
      broadcasts after the first `since`; the transitions marked for them are those these broadcasts marked. */
  ghost predicate LedgerOk(
    h: Chart, taken: seq<Option<nat>>, queue: seq<nat>, step: seq<nat>, told: seq<Offer>, since: nat)
    requires EventsOk(h) && |taken| == |h.transition|
  {
    && step <= queue && (forall e :: e in queue ==> IsEvent(h, e)) && since <= |told|
    && queue[|step|..] == Accepted(told[since..])
    && Agenda(h, taken, queue[|step|..]) == MarksOf(told[since..])
  }

  lemma LedgerQueued(
    h: Chart, before: seq<Option<nat>>, after: seq<Option<nat>>, queue: seq<nat>, step: seq<nat>, told: seq<Offer>,
    since: nat, o: Offer)
    requires EventsOk(h) && |before| == |after| == |h.transition| && LedgerOk(h, before, queue, step, told, since)
    requires o.queued && IsEvent(h, o.call.event)
    requires forall i :: 0 <= i < |Chain(h, o.call.event)| ==> Chain(h, o.call.event)[i] < |after|
    requires o.marks == Marked(after, o.call.event, Chain(h, o.call.event))
    requires forall t, f :: 0 <= t < |before| && f in queue ==> (before[t] == Some(f) <==> after[t] == Some(f))
    ensures LedgerOk(h, after, queue + [o.call.event], step, told + [o], since)
  {
    hide Agenda, Accepted, MarksOf, EventsOk, Chain, Marked;
    var e, part, recent := o.call.event, queue[|step|..], told[since..];
    assert (told + [o])[since..] == recent + [o] && (queue + [e])[|step|..] == part + [e];
    OneOffer(recent, o);
    AgendaAppend(h, after, part, e);
    AgendaSame(h, before, after, part);
  }

  lemma LedgerRefused(
    h: Chart, taken: seq<Option<nat>>, queue: seq<nat>, step: seq<nat>, told: seq<Offer>, since: nat, o: Offer)
    requires EventsOk(h) && |taken| == |h.transition| && LedgerOk(h, taken, queue, step, told, since)
    requires !o.queued && o.marks == []
    ensures LedgerOk(h, taken, queue, step, told + [o], since)
  {
    assert (told + [o])[since..] == told[since..] + [o];
    OneOffer(told[since..], o);
    assert MarksOf(told[since..]) + [] == MarksOf(told[since..]);
  }

  /** Unmarking a transition of the current micro-step leaves the marks of later events alone. */
  lemma LedgerUnmarked(
    h: Chart, before: seq<Option<nat>>, after: seq<Option<nat>>, queue: seq<nat>, step: seq<nat>, told: seq<Offer>,
    since: nat, t: nat)
    requires EventsOk(h) && |before| == |after| == |h.transition| && LedgerOk(h, before, queue, step, told, since)
    requires t < |before| && before[t].Some? && before[t].value in step && after == before[t := None]
    requires forall i, j :: 0 <= i < j < |queue| ==> queue[i] != queue[j]
    ensures LedgerOk(h, after, queue, step, told, since)
  {
    hide Agenda, Accepted, MarksOf, EventsOk;
    var part := queue[|step|..];
    var i :| 0 <= i < |step| && step[i] == before[t].value;
    assert forall j :: 0 <= j < |part| ==> part[j] == queue[|step| + j] != queue[i];
    AgendaSame(h, before, after, part);
  }
}
