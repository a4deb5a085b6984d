/**
  The compiler's scoped symbol table (symbol.h, symbol.cpp): every symbol keeps its infos innermost scope
  first, and closing a scope takes away exactly what belongs to it.
 */
module SymbolTables {
  import opened Wrappers

  /** `what` stands for the contents of a synfo object. */
  datatype Info = Info(scope: nat, what: int)

  type Table = map<string, seq<Info>>

  /** An absent symbol and one without infos look the same to every lookup. */
  function ListOf(t: Table, name: string): seq<Info> {
    if name in t then t[name] else []
  }

  ghost predicate Sorted(l: seq<Info>) {
    forall i, j :: 0 <= i < j < |l| ==> l[i].scope >= l[j].scope
  }

  ghost predicate Within(l: seq<Info>, s: nat) {
    forall i :: 0 <= i < |l| ==> l[i].scope <= s
  }

  /** Where insert_info puts a new info: in front of the first one that is not from a deeper scope. */
  function Inserted(l: seq<Info>, x: Info): (r: seq<Info>)
    ensures |r| == |l| + 1
  {
    if l == [] || x.scope >= l[0].scope then [x] + l else [l[0]] + Inserted(l[1..], x)
  }

  lemma {:induction false} InsertedSorted(l: seq<Info>, x: Info, s: nat)
    requires Sorted(l) && Within(l, s) && x.scope <= s
    ensures Sorted(Inserted(l, x)) && Within(Inserted(l, x), s)
    ensures multiset(Inserted(l, x)) == multiset(l) + multiset{x}
    decreases |l|
  {
    if l == [] || x.scope >= l[0].scope {
      SortedCons(x, l, s);
    } else {
      assert Sorted(l[1..]) && Within(l[1..], l[0].scope) && l == [l[0]] + l[1..];
      InsertedSorted(l[1..], x, l[0].scope);
      assert l[0].scope <= s;
      hide Sorted, Within;
      SortedCons(l[0], Inserted(l[1..], x), s);
      assert multiset(l) == multiset{l[0]} + multiset(l[1..]);
    }
  }

  lemma SortedCons(y: Info, rest: seq<Info>, s: nat)
    requires Sorted(rest) && (rest == [] || Within(rest, y.scope) || y.scope >= rest[0].scope) && y.scope <= s
    ensures Sorted([y] + rest) && Within([y] + rest, s)
    ensures multiset([y] + rest) == multiset{y} + multiset(rest)
  {
  }

  /** The walk along the list stops at the first info that is not from a deeper scope. */
  predicate StopsAt(l: seq<Info>, x: Info, i: nat)
    requires i <= |l|
  {
    && (i == |l| || x.scope >= l[i].scope)
    && forall j :: 0 <= j < i ==> x.scope < l[j].scope
  }

  lemma {:induction false} InsertedAt(l: seq<Info>, x: Info, i: nat)
    requires i <= |l| && StopsAt(l, x, i)
    ensures Inserted(l, x) == l[..i] + [x] + l[i..]
    decreases i
  {
    if i == 0 {
      assert l[..0] == [] && l[0..] == l;
    } else {
      var rest := l[1..];
      InsertedAt(rest, x, i - 1);
      assert Inserted(l, x) == [l[0]] + Inserted(rest, x);
      hide Inserted;
      assert rest[i - 1..] == l[i..] && [l[0]] + rest[..i - 1] == l[..i];
    }
  }

  /** The infos of scopes up to `s`. */
  function UpTo(l: seq<Info>, s: nat): seq<Info> {
    if l == [] then [] else if l[0].scope <= s then [l[0]] + UpTo(l[1..], s) else UpTo(l[1..], s)
  }

  lemma {:induction false} UpToAll(l: seq<Info>, s: nat)
    requires Within(l, s)
    ensures UpTo(l, s) == l
    decreases |l|
  {
    if l != [] {
      UpToAll(l[1..], s);
    }
  }

  lemma {:induction false} UpToUpTo(l: seq<Info>, s: nat, u: nat)
    requires s <= u
    ensures UpTo(UpTo(l, u), s) == UpTo(l, s)
    decreases |l|
  {
    if l != [] {
      UpToUpTo(l[1..], s, u);
      var rest := UpTo(l[1..], u);
      if l[0].scope <= u {
        assert UpTo(l, u) == [l[0]] + rest && ([l[0]] + rest)[1..] == rest;
      }
    }
  }

  /** Insertion and forgetting deeper scopes commute. */
  lemma {:induction false} UpToInserted(l: seq<Info>, x: Info, s: nat)
    requires Sorted(l)
    ensures UpTo(Inserted(l, x), s) == if x.scope <= s then Inserted(UpTo(l, s), x) else UpTo(l, s)
    decreases |l|
  {
    if l == [] || x.scope >= l[0].scope {
      assert ([x] + l)[1..] == l;
      if x.scope <= s && l != [] {
        UpToAll(l, s);
      }
    } else {
      UpToInserted(l[1..], x, s);
      var r := Inserted(l[1..], x);
      assert ([l[0]] + r)[1..] == r;
      var u := UpTo(l[1..], s);
      if l[0].scope <= s {
        assert ([l[0]] + u)[1..] == u;
      }
    }
  }

  /** What close_scope leaves of a symbol: the leading infos of the current scope are deleted. */
  function Pruned(l: seq<Info>, s: nat): seq<Info> {
    if l != [] && l[0].scope == s then Pruned(l[1..], s) else l
  }

  /** With no info above the current scope, exactly those of the current scope go. */
  lemma {:induction false} PrunedExact(l: seq<Info>, s: nat)
    requires s > 0 && Sorted(l) && Within(l, s)
    ensures Pruned(l, s) == UpTo(l, s - 1) && Sorted(Pruned(l, s)) && Within(Pruned(l, s), s - 1)
    decreases |l|
  {
    if l != [] && l[0].scope == s {
      PrunedExact(l[1..], s);
    } else {
      assert Within(l, s - 1);
      UpToAll(l, s - 1);
    }
  }

  /** `l` without the infos of scope `s`. */
  function Without(l: seq<Info>, s: nat): seq<Info> {
    if l == [] then [] else if l[0].scope == s then Without(l[1..], s) else [l[0]] + Without(l[1..], s)
  }

  lemma {:induction false} WithoutNone(l: seq<Info>, s: nat)
    ensures |Without(l, s)| <= |l|
    ensures Without(l, s) == l <==> forall i :: 0 <= i < |l| ==> l[i].scope != s
    decreases |l|
  {
    if l != [] {
      WithoutNone(l[1..], s);
      assert l == [l[0]] + l[1..];
    }
  }

  /** In general: close_scope removes exactly the infos of the current scope when none lies above it, and
      otherwise only when there is none to remove. */
  lemma {:induction false} PrunedBoundary(l: seq<Info>, s: nat)
    requires Sorted(l)
    ensures Pruned(l, s) == Without(l, s)
            <==> l == [] || l[0].scope <= s || forall i :: 0 <= i < |l| ==> l[i].scope != s
    decreases |l|
  {
    if l != [] && l[0].scope == s {
      PrunedBoundary(l[1..], s);
    } else {
      WithoutNone(l, s);
    }
  }

  /** The table after close_scope; symbols left without infos disappear. */
  function Closed(t: Table, s: nat): Table {
    map name | name in t && Pruned(t[name], s) != [] :: Pruned(t[name], s)
  }

  // ---------------------------------------------------------------- the table

  class SymbolTable {
    var scope: nat
    var table: Table

    /** Every list is sorted and holds nothing above the current scope. */
    ghost predicate Valid()
      reads this
    {
      forall name :: name in table ==> Sorted(table[name]) && Within(table[name], scope)
    }

    ghost function Abstract(): State
      reads this
    {
      State(scope, table)
    }

    constructor ()
      ensures Valid() && scope == 0 && table == map[]
    {
      scope, table := 0, map[];
    }

    /** operator[] followed by insert_info. */
    method Insert(name: string, x: Info)
      modifies this
      ensures Abstract() == Step(old(Abstract()), Op.Insert(name, x))
      ensures exists i :: 0 <= i <= |ListOf(old(table), name)| && StopsAt(ListOf(old(table), name), x, i)
                && table == old(table)[name := ListOf(old(table), name)[..i] + [x] + ListOf(old(table), name)[i..]]
      ensures old(Valid()) && x.scope <= scope ==> Valid()
    {
      var l := ListOf(table, name);
      var i := 0;
      while i < |l| && x.scope < l[i].scope
        invariant 0 <= i <= |l|
        invariant forall j :: 0 <= j < i ==> x.scope < l[j].scope
      {
        i := i + 1;
      }
      InsertedAt(l, x, i);
      table := table[name := l[..i] + [x] + l[i..]];
      if old(Valid()) && x.scope <= scope {
        InsertedSorted(l, x, scope);
      }
    }

    /** ith_info: the info `i` places in from the innermost, if there are that many. */
    method IthInfo(name: string, i: nat) returns (r: Option<Info>)
      ensures r == if i < |ListOf(table, name)| then Some(ListOf(table, name)[i]) else None
    {
      var l := ListOf(table, name);
      r := None;
      if i < |l| {
        var j := 0;
        while j < |l|
          invariant 0 <= j <= i
        {
          if i == j {
            return Some(l[j]);
          }
          j := j + 1;
        }
      }
    }

    method OpenScope()
      modifies this
      ensures Abstract() == Step(old(Abstract()), Open)
      ensures scope == old(scope) + 1 && table == old(table)
      ensures old(Valid()) ==> Valid()
    {
      scope := scope + 1;
    }

    /** close_scope; the global scope is never closed. */
    method CloseScope()
      modifies this
      ensures Abstract() == Step(old(Abstract()), Close)
      ensures old(scope) <= 1 ==> scope == old(scope) && table == old(table)
      ensures old(scope) > 1 ==> scope == old(scope) - 1
      ensures old(Valid()) && old(scope) > 1 ==>
                forall name :: ListOf(table, name) == UpTo(ListOf(old(table), name), scope)
      ensures old(Valid()) ==> Valid()
    {
      if scope <= 1 {
        return;
      }
      var keys := table.Keys;
      ghost var t0 := table;
      while keys != {}
        invariant scope == old(scope) && keys <= t0.Keys
        invariant forall name :: name in keys ==> name in table && table[name] == t0[name]
        invariant forall name :: name !in keys ==>
          && (name in table <==> name in t0 && Pruned(t0[name], scope) != [])
          && (name in table ==> table[name] == Pruned(t0[name], scope))
        decreases |keys|
      {
        var name :| name in keys;
        var l := table[name];
        while l != [] && l[0].scope == scope
          invariant Pruned(l, scope) == Pruned(t0[name], scope)
          decreases |l|
        {
          l := l[1..];
        }
        if l == [] {
          table := table - {name};
        } else {
          table := table[name := l];
        }
        keys := keys - {name};
      }
      assert table == Closed(t0, scope);
      if old(Valid()) {
        forall name: string
          ensures ListOf(table, name) == UpTo(ListOf(t0, name), scope - 1)
          ensures name in table ==> Sorted(table[name]) && Within(table[name], scope - 1)
        {
          PrunedExact(ListOf(t0, name), scope);
        }
      }
      scope := scope - 1;
    }
  }

  // ---------------------------------------------------------------- runs

  datatype Op = Open | Close | Insert(name: string, info: Info)

  datatype State = State(scope: nat, table: Table)

  /** The methods of the table, on its state. */
  function Step(st: State, op: Op): State {
    match op
    case Open => st.(scope := st.scope + 1)
    case Close => if st.scope <= 1 then st else State(st.scope - 1, Closed(st.table, st.scope))
    case Insert(name, x) => st.(table := st.table[name := Inserted(ListOf(st.table, name), x)])
  }

  function RunOps(st: State, ops: seq<Op>): State
    decreases |ops|
  {
    if ops == [] then st else RunOps(Step(st, ops[0]), ops[1..])
  }

  ghost predicate StateOk(st: State) {
    st.scope >= 1 && forall name :: name in st.table ==> Sorted(st.table[name]) && Within(st.table[name], st.scope)
  }

  /** `ops` is a balanced run from depth `d` above its start: it ends where it started, never closes a scope it
      did not open, and inserts nothing above the scope that is open at the time. */
  predicate Balanced(ops: seq<Op>, d: nat, s0: nat) {
    if ops == [] then d == 0
    else match ops[0]
      case Open => Balanced(ops[1..], d + 1, s0)
      case Close => d > 0 && Balanced(ops[1..], d - 1, s0)
      case Insert(_, x) => x.scope <= s0 + d && Balanced(ops[1..], d, s0)
  }

  /** The insertions that outlive the run: those into scopes that were open before it. */
  function Lasting(ops: seq<Op>, s0: nat): seq<Op> {
    if ops == [] then []
    else if ops[0].Insert? && ops[0].info.scope <= s0 then [ops[0]] + Lasting(ops[1..], s0)
    else Lasting(ops[1..], s0)
  }

  /** `b` is what is left of `a` when scopes above `s0` are forgotten. */
  ghost predicate Shadows(a: State, b: State, s0: nat) {
    b.scope == s0 && forall name :: UpTo(ListOf(a.table, name), s0) == ListOf(b.table, name)
  }

  lemma StepKeeps(st: State, op: Op)
    requires StateOk(st) && (op.Insert? ==> op.info.scope <= st.scope) && (op.Close? ==> st.scope > 1)
    ensures StateOk(Step(st, op))
  {
    match op
    case Open =>
    case Close =>
      forall name | name in Step(st, op).table
        ensures Sorted(Step(st, op).table[name]) && Within(Step(st, op).table[name], st.scope - 1)
      {
        PrunedExact(st.table[name], st.scope);
      }
    case Insert(name, x) =>
      InsertedSorted(ListOf(st.table, name), x, st.scope);
  }

  lemma StepShadows(a: State, b: State, s0: nat, op: Op)
    requires StateOk(a) && Shadows(a, b, s0) && a.scope >= s0 && (op.Close? ==> a.scope > s0 >= 1)
    ensures Shadows(Step(a, op), if op.Insert? && op.info.scope <= s0 then Step(b, op) else b, s0)
  {
    var r := Step(a, op);
    forall name
      ensures UpTo(ListOf(r.table, name), s0) ==
              if op.Insert? && op.info.scope <= s0 then ListOf(Step(b, op).table, name) else ListOf(b.table, name)
    {
      var l := ListOf(a.table, name);
      match op
      case Open =>
      case Close =>
        PrunedExact(l, a.scope);
        assert ListOf(r.table, name) == Pruned(l, a.scope);
        UpToUpTo(l, s0, a.scope - 1);
      case Insert(n, x) =>
        if n == name {
          UpToInserted(l, x, s0);
        }
    }
  }

  lemma {:induction false} RunShadows(a: State, b: State, s0: nat, ops: seq<Op>, d: nat)
    requires s0 >= 1 && StateOk(a) && a.scope == s0 + d && Shadows(a, b, s0) && Balanced(ops, d, s0)
    ensures RunOps(a, ops).scope == s0 && StateOk(RunOps(a, ops))
    ensures Shadows(RunOps(a, ops), RunOps(b, Lasting(ops, s0)), s0)
    decreases |ops|
  {
    if ops != [] {
      var op := ops[0];
      StepKeeps(a, op);
      StepShadows(a, b, s0, op);
      var rest := Lasting(ops[1..], s0);
      if op.Insert? && op.info.scope <= s0 {
        assert ([op] + rest)[1..] == rest;
        RunShadows(Step(a, op), Step(b, op), s0, ops[1..], d);
      } else {
        assert Lasting(ops, s0) == rest;
        var e := match op case Open => d + 1 case Close => d - 1 case Insert(_, _) => d;
        RunShadows(Step(a, op), b, s0, ops[1..], e);
      }
    }
  }

  /** Scope discipline: a balanced run leaves exactly what its insertions into already open scopes alone would
      have left, for every symbol and in the same order. */
  lemma BalancedRun(st: State, ops: seq<Op>)
    requires StateOk(st) && Balanced(ops, 0, st.scope)
    ensures RunOps(st, ops).scope == st.scope
    ensures forall name :: ListOf(RunOps(st, ops).table, name) == ListOf(RunOps(st, Lasting(ops, st.scope)).table, name)
  {
    var s0 := st.scope;
    forall name ensures UpTo(ListOf(st.table, name), s0) == ListOf(st.table, name) {
      UpToAll(ListOf(st.table, name), s0);
    }
    RunShadows(st, st, s0, ops, 0);
    var r := RunOps(st, ops);
    forall name ensures UpTo(ListOf(r.table, name), s0) == ListOf(r.table, name) {
      UpToAll(ListOf(r.table, name), s0);
    }
  }
}
