/**
  The two iterators over the transitions an event can trigger, C++'s over arrays ended by -1 and Java's with
  its one-element look-ahead.  Both yield exactly the event's own transitions, then its base's, and so on,
  which is what the engine's loops over `Chain` stand for.
 */
module EventIteration {
  import opened Wrappers
  import opened Charts

  const NO_TRANSITION_ID: int := -1

  /** The transitions of an optional base event and its bases. */
  function ChainFrom(h: Chart, base: Option<nat>): seq<nat>
    requires EventsOk(h) && (base.Some? ==> IsEvent(h, base.value))
  {
    if base.Some? then Chain(h, base.value) else []
  }

  /** How many events are still to be visited at most. */
  function Depth(h: Chart, base: Option<nat>): nat
    requires EventsOk(h) && (base.Some? ==> IsEvent(h, base.value))
  {
    if base.Some? then h.level[base.value] + 1 else 0
  }

  /** event::const_iterator: `t_id_` points at place `i` of the array of event `src`, which ends in -1. */
  class Cursor {
    const h: Chart
    var src: nat
    var i: nat
    var base: Option<nat>

    ghost predicate Valid()
      reads this
    {
      && EventsOk(h) && IsEvent(h, src) && i <= |h.list[src]|
      && (base.Some? ==> IsEvent(h, base.value))
    }

    /** What the walk has yet to visit, this place included. */
    ghost function Rest(): seq<nat>
      requires Valid()
      reads this
    {
      h.list[src][i..] + ChainFrom(h, base)
    }

    function Id(): int
      requires Valid()
      reads this
    {
      if i < |h.list[src]| then h.list[src][i] else NO_TRANSITION_ID
    }

    /** Comparison with end(): both point at a -1. */
    predicate AtEnd()
      requires Valid()
      reads this
    {
      Id() == NO_TRANSITION_ID
    }

    ghost predicate Bumped()
      requires Valid()
      reads this
    {
      AtEnd() <==> Rest() == []
    }

    lemma Head()
      requires Valid() && Bumped()
      ensures if AtEnd() then Rest() == [] else Rest() != [] && Rest()[0] == Id() >= 0
    {
    }

    constructor Begin(chart: Chart, e: nat)
      requires EventsOk(chart) && IsEvent(chart, e)
      ensures h == chart && Valid() && Bumped() && Rest() == Chain(chart, e)
    {
      h, src, i, base := chart, e, 0, chart.base[e];
      new;
      Bump();
    }

    /** const_iterator::bump. */
    method Bump()
      requires Valid()
      modifies this
      ensures Valid() && Bumped() && Rest() == old(Rest())
      ensures Depth(h, base) <= old(Depth(h, base))
    {
      while AtEnd() && base.Some?
        invariant Valid() && Rest() == old(Rest()) && Depth(h, base) <= old(Depth(h, base))
        decreases Depth(h, base)
      {
        src, i := base.value, 0;
        base := h.base[src];
      }
    }

    /** operator++. */
    method Increment()
      requires Valid() && !AtEnd()
      modifies this
      ensures Valid() && Bumped() && Rest() == old(Rest())[1..]
    {
      i := i + 1;
      Bump();
    }
  }

  /** The transition `t` is declared on an event of the base chain of `e`. */
  ghost predicate Owned(h: Chart, e: nat, t: nat)
    requires EventsOk(h) && IsEvent(h, e)
  {
    exists x: nat :: IsEvent(h, x) && Derives(h, e, x) && t in h.list[x]
  }

  ghost predicate ComesBefore(ids: seq<nat>, t: nat, u: nat) {
    exists a, b :: 0 <= a < b < |ids| && ids[a] == t && ids[b] == u
  }

  /** By the base pointers and lists alone: `ids` has the event's own transitions first, all transitions of every
      event on the base chain, those of each event in order and before those of its bases, each once, and no
      others. */
  ghost predicate Covers(h: Chart, e: nat, ids: seq<nat>)
    requires EventsOk(h) && IsEvent(h, e)
  {
    && h.list[e] <= ids
    && (forall x, j {:trigger h.list[x][j]} ::
          0 <= x < |h.list| && Derives(h, e, x) && 0 <= j < |h.list[x]| ==> h.list[x][j] in ids)
    && (forall x: nat, y: nat, j: nat, k: nat {:trigger h.list[x][j], h.list[y][k]} ::
          (&& IsEvent(h, x) && IsEvent(h, y) && Derives(h, e, x) && Derives(h, x, y)
           && j < |h.list[x]| && k < |h.list[y]| && (x != y || j < k)) ==>
            ComesBefore(ids, h.list[x][j], h.list[y][k]))
    && (forall i :: 0 <= i < |ids| ==> Owned(h, e, ids[i]))
    && (forall i, k :: 0 <= i < k < |ids| ==> ids[i] != ids[k])
  }

  lemma WalkComplete(h: Chart, e: nat)
    requires EventsOk(h) && IsEvent(h, e)
    ensures Covers(h, e, Chain(h, e))
  {
    ChainOk(h, e);
    OwnFirst(h, e);
    hide Chain;
    forall x: nat, j: nat | IsEvent(h, x) && Derives(h, e, x) && j < |h.list[x]| ensures h.list[x][j] in Chain(h, e) {
      var i := ChainHolds(h, e, x, j);
    }
    forall x: nat, y: nat, j: nat, k: nat |
      && IsEvent(h, x) && IsEvent(h, y) && Derives(h, e, x) && Derives(h, x, y)
      && j < |h.list[x]| && k < |h.list[y]| && (x != y || j < k)
      ensures ComesBefore(Chain(h, e), h.list[x][j], h.list[y][k])
    {
      var a, b := ChainInOrder(h, e, x, y, j, k);
    }
    forall i | 0 <= i < |Chain(h, e)| ensures Owned(h, e, Chain(h, e)[i]) {
      var x, j := ChainMember(h, e, i);
      assert h.list[x][j] in h.list[x];
    }
  }

  /** The loop `for (t = begin(); t != end(); ++t)`. */
  method WalkCpp(h: Chart, e: nat) returns (ids: seq<nat>)
    requires EventsOk(h) && IsEvent(h, e)
    ensures ids == Chain(h, e) && Covers(h, e, ids)
  {
    hide EventsOk, Chain, ChainFrom, Covers, Cursor.Rest, Cursor.Valid, Cursor.Bumped, Cursor.AtEnd, Cursor.Id;
    WalkComplete(h, e);
    ids := [];
    var t := new Cursor.Begin(h, e);
    t.Head();
    while !t.AtEnd()
      invariant t.Valid() && t.Bumped() && t.h == h && ids + t.Rest() == Chain(h, e)
      invariant if t.AtEnd() then t.Rest() == [] else t.Rest() != [] && t.Rest()[0] == t.Id() >= 0
      decreases |t.Rest()|
    {
      ghost var rest := t.Rest();
      ids := ids + [t.Id()];
      t.Increment();
      t.Head();
      assert [rest[0]] + t.Rest() == rest;
    }
  }

  /** Event.Iterator of the Java run-time. */
  class LookAhead {
    const h: Chart
    var ids: seq<nat>
    var i: nat
    var base: Option<nat>
    var following: Option<nat>

    ghost predicate Valid()
      reads this
    {
      && EventsOk(h) && (base.Some? ==> IsEvent(h, base.value))
      && (following.Some? ==> i < |ids| && following.value == ids[i])
      && (following.None? && base.Some? ==> i < |ids|)
    }

    /** What `Next` has yet to return. */
    ghost function Rest(): seq<nat>
      requires Valid()
      reads this
    {
      (if following.Some? then ids[i..] else if i < |ids| then ids[i + 1..] else []) + ChainFrom(h, base)
    }

    function Id(): int
      reads this
    {
      if i < |ids| then ids[i] else NO_TRANSITION_ID
    }

    constructor (chart: Chart, e: nat)
      requires EventsOk(chart) && IsEvent(chart, e)
      ensures h == chart && Valid() && Rest() == Chain(chart, e)
    {
      h, ids, i, base, following := chart, chart.list[e], 0, chart.base[e], None;
      new;
      SetNext();
    }

    /** setNext: move to the first place, here or in a base event, that holds a transition. */
    method SetNext()
      requires EventsOk(h) && (base.Some? ==> IsEvent(h, base.value))
      modifies this
      ensures Valid() && (following.None? ==> Rest() == [] && i >= |ids|)
      ensures Rest() == (if old(i) <= |old(ids)| then old(ids)[old(i)..] else []) + ChainFrom(h, old(base))
    {
      while Id() == NO_TRANSITION_ID && base.Some?
        invariant base.Some? ==> IsEvent(h, base.value)
        invariant (if i <= |ids| then ids[i..] else []) + ChainFrom(h, base)
                  == (if old(i) <= |old(ids)| then old(ids)[old(i)..] else []) + ChainFrom(h, old(base))
        decreases Depth(h, base)
      {
        ids, i := h.list[base.value], 0;
        base := h.base[base.value];
      }
      following := if Id() == NO_TRANSITION_ID then None else Some(ids[i]);
    }

    /** hasNext may be called any number of times. */
    method HasNext() returns (b: bool)
      requires Valid()
      modifies this
      ensures Valid() && Rest() == old(Rest()) && (b <==> Rest() != []) && (b <==> following.Some?)
    {
      if following.None? {
        i := i + 1;
        SetNext();
      }
      b := following.Some?;
    }

    /** next: None stands for NoSuchElementException.  Afterwards id() names what was returned. */
    method Next() returns (t: Option<nat>)
      requires Valid()
      modifies this
      ensures Valid()
      ensures if old(Rest()) == [] then t == None && Rest() == []
              else t == Some(old(Rest())[0]) && Rest() == old(Rest())[1..] && Id() == t.value
    {
      hide EventsOk, ChainFrom;
      if following.None? {
        var more := HasNext();
        if !more {
          return None;
        }
      }
      SplitFront(ids, i, ChainFrom(h, base));
      t := following;
      following := None;
    }

    lemma SplitFront(ids: seq<nat>, i: nat, tail: seq<nat>)
      requires i < |ids|
      ensures var ahead := ids[i..] + tail;
              ahead != [] && ahead[0] == ids[i] && ahead[1..] == ids[i + 1..] + tail
    {
    }
  }

  /** The loop `for (i = iterator(); i.hasNext();) { t = i.next(); ... i.id() ... }`. */
  method WalkJava(h: Chart, e: nat) returns (ids: seq<nat>)
    requires EventsOk(h) && IsEvent(h, e)
    ensures ids == Chain(h, e) && Covers(h, e, ids)
  {
    hide EventsOk, Chain, LookAhead.Valid, LookAhead.Rest, Covers;
    WalkComplete(h, e);
    ids := [];
    var it := new LookAhead(h, e);
    while true
      invariant it.Valid() && it.h == h && ids + it.Rest() == Chain(h, e)
      decreases |it.Rest()|
    {
      ghost var rest := it.Rest();
      var more := it.HasNext();
      if !more {
        return;
      }
      var t := it.Next();
      ids := ids + [it.Id()];
      assert [rest[0]] + it.Rest() == rest;
    }
  }
}
