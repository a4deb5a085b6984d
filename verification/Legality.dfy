/**
  The two checks against transitions between the children of a set: the run-time's `IsLegal` on ancestor
  lists, and the compiler's comparison of dotted state names.
 */
module Legality {
  import opened StateTree
  import opened MicroStep

  // ---------------------------------------------------------------- transition::is_legal

  /** The states from the root down to `s`. */
  function PathTo(g: Tree, s: nat): (p: seq<nat>)
    requires Valid(g) && IsState(g, s)
    ensures |p| == g.rank[s] + 1 && p[|p| - 1] == s
    ensures forall i :: 0 <= i < |p| ==> IsState(g, p[i]) && g.rank[p[i]] == i && Within(g, s, p[i])
    decreases g.rank[s]
  {
    if s == ROOT then [s] else PathTo(g, g.parent[s]) + [s]
  }

  lemma {:induction false} PathPrefix(g: Tree, s: nat, a: nat)
    requires Valid(g) && IsState(g, s) && Within(g, s, a) && IsState(g, a)
    ensures PathTo(g, a) <= PathTo(g, s)
    decreases g.rank[s]
  {
    if s != a {
      PathPrefix(g, g.parent[s], a);
    }
  }

  lemma PathStep(g: Tree, s: nat, below: seq<nat>)
    requires Valid(g) && IsState(g, s) && s != ROOT
    ensures PathTo(g, g.parent[s]) + ([s] + below) == PathTo(g, s) + below
  {
  }

  /** The list built by pushing ancestors to the front. */
  method AncestorList(g: Tree, s: nat) returns (list: seq<nat>)
    requires Valid(g) && IsState(g, s)
    ensures list == PathTo(g, s)
  {
    list := [s];
    var at := s;
    ghost var below := [];
    while at != ROOT
      invariant IsState(g, at) && list == [at] + below && PathTo(g, at) + below == PathTo(g, s)
      decreases g.rank[at]
    {
      below := list;
      PathStep(g, at, below[1..]);
      at := g.parent[at];
      list := [at] + list;
    }
  }

  /** Where the two lists part is right after the deepest common ancestor-or-self. */
  lemma LastCommon(g: Tree, a: nat, b: nat, i: nat)
    requires Valid(g) && IsState(g, a) && IsState(g, b)
    requires 0 < i <= |PathTo(g, a)| && i <= |PathTo(g, b)|
    requires forall k :: 0 <= k < i ==> PathTo(g, a)[k] == PathTo(g, b)[k]
    requires i == |PathTo(g, a)| || i == |PathTo(g, b)| || PathTo(g, a)[i] != PathTo(g, b)[i]
    ensures PathTo(g, a)[i - 1] == Meet(g, a, b)
  {
    var p, q := PathTo(g, a), PathTo(g, b);
    var m := Meet(g, a, b);
    PathPrefix(g, a, m);
    PathPrefix(g, b, m);
    MeetIsDeepest(g, a, b, p[i - 1]);
    WithinRank(g, m, p[i - 1]);
    assert forall k :: 0 <= k < |PathTo(g, m)| ==> p[k] == PathTo(g, m)[k] == q[k];
  }

  /** `m` encloses or is each of the two, and lies within whatever else does. */
  ghost predicate Nearest(g: Tree, a: nat, b: nat, m: nat)
    requires Valid(g) && IsState(g, a) && IsState(g, b) && IsState(g, m)
  {
    && Within(g, a, m) && Within(g, b, m)
    && forall x: nat :: IsState(g, x) && Within(g, a, x) && Within(g, b, x) ==> Within(g, m, x)
  }

  lemma MeetIsNearest(g: Tree, a: nat, b: nat)
    requires Valid(g) && IsState(g, a) && IsState(g, b)
    ensures Nearest(g, a, b, Meet(g, a, b))
  {
    hide Valid;
    forall x: nat | IsState(g, x) && Within(g, a, x) && Within(g, b, x) ensures Within(g, Meet(g, a, b), x) {
      MeetIsDeepest(g, a, b, x);
    }
  }

  lemma OneNearest(g: Tree, a: nat, b: nat, m: nat, n: nat)
    requires Valid(g) && IsState(g, a) && IsState(g, b) && IsState(g, m) && IsState(g, n)
    requires Nearest(g, a, b, m) && Nearest(g, a, b, n)
    ensures m == n
  {
    hide Valid;
    WithinRank(g, m, n);
    WithinRank(g, n, m);
  }

  /** There is one such state, its kind decides, and of a state and what it encloses, itself included, it is the
      former. */
  lemma LegalMeaning(g: Tree, a: nat, b: nat)
    requires Valid(g) && IsState(g, a) && IsState(g, b)
    ensures exists m: nat :: IsState(g, m) && Nearest(g, a, b, m)
    ensures forall m: nat :: IsState(g, m) && Nearest(g, a, b, m) ==> (Legal(g, a, b) <==> g.kind[m] != Set)
    ensures Within(g, b, a) ==> Nearest(g, a, b, a)
    ensures Within(g, a, b) ==> Nearest(g, a, b, b)
  {
    hide Valid;
    var m := Meet(g, a, b);
    MeetIsNearest(g, a, b);
    forall n: nat | IsState(g, n) && Nearest(g, a, b, n) ensures n == m {
      OneNearest(g, a, b, m, n);
    }
  }

  /** transition::is_legal: the last common element of the two lists is not a set. */
  method IsLegal(g: Tree, a: nat, b: nat) returns (legal: bool)
    requires Valid(g) && IsState(g, a) && IsState(g, b)
    ensures forall m: nat :: IsState(g, m) && Nearest(g, a, b, m) ==> (legal <==> g.kind[m] != Set)
    ensures Within(g, b, a) ==> (legal <==> g.kind[a] != Set)
    ensures Within(g, a, b) ==> (legal <==> g.kind[b] != Set)
    ensures legal <==> Legal(g, a, b)
  {
    hide Valid, Nearest, Within;
    LegalMeaning(g, a, b);
    var p := AncestorList(g, a);
    var q := AncestorList(g, b);
    RootFirstOnPath(g, a);
    RootFirstOnPath(g, b);
    var nearest := ROOT;
    var i := 0;
    while i < |p| && i < |q| && p[i] == q[i]
      invariant 0 <= i <= |p| && i <= |q|
      invariant forall k :: 0 <= k < i ==> p[k] == q[k]
      invariant i > 0 ==> nearest == p[i - 1]
    {
      nearest := p[i];
      i := i + 1;
    }
    LastCommon(g, a, b, i);
    legal := g.kind[nearest] != Set;
  }

  lemma {:induction false} RootFirstOnPath(g: Tree, s: nat)
    requires Valid(g) && IsState(g, s)
    ensures PathTo(g, s)[0] == ROOT
    decreases g.rank[s]
  {
    if s != ROOT {
      RootFirstOnPath(g, g.parent[s]);
    }
  }

  lemma LegalSymmetric(g: Tree, a: nat, b: nat)
    requires Valid(g) && IsState(g, a) && IsState(g, b)
    ensures Meet(g, a, b) == Meet(g, b, a) && (Legal(g, a, b) <==> Legal(g, b, a))
  {
    MeetIsDeepest(g, a, b, Meet(g, b, a));
    MeetIsDeepest(g, b, a, Meet(g, a, b));
    WithinRank(g, Meet(g, a, b), Meet(g, b, a));
    WithinRank(g, Meet(g, b, a), Meet(g, a, b));
  }

  // ---------------------------------------------------------------- dotted names

  /** Base names are non-empty, hold no dot, and differ between siblings. */
  ghost predicate NamesOk(g: Tree, base: seq<string>)
    requires Valid(g)
  {
    && |base| == |g.kind|
    && (forall s :: 0 < s < |base| ==> base[s] != "" && '.' !in base[s])
    && (forall x, y :: 0 < x < |base| && 0 < y < |base| && x != y && g.parent[x] == g.parent[y] ==> base[x] != base[y])
  }

  /** The part of the names of the children of `s` that comes from `s`. */
  function Prefix(g: Tree, base: seq<string>, s: nat): string
    requires Valid(g) && NamesOk(g, base) && IsState(g, s)
    decreases g.rank[s]
  {
    if s == ROOT then "" else Prefix(g, base, g.parent[s]) + base[s] + "."
  }

  /** A state's full name; states of the root are not prefixed. */
  function FullName(g: Tree, base: seq<string>, s: nat): (name: string)
    requires Valid(g) && NamesOk(g, base) && 0 < s < |g.kind|
    ensures Prefix(g, base, s) == name + "."
  {
    Prefix(g, base, g.parent[s]) + base[s]
  }

  /** A descendant's name goes on, after the name of its ancestor, with a dot. */
  lemma {:induction false} NameBelow(g: Tree, base: seq<string>, s: nat, x: nat) returns (tail: string)
    requires Valid(g) && NamesOk(g, base) && 0 < s < |g.kind| && IsState(g, x) && x != ROOT && Within(g, s, x)
    ensures FullName(g, base, s) == FullName(g, base, x) + tail
    ensures if s == x then tail == "" else tail != "" && tail[0] == '.'
    decreases g.rank[s]
  {
    if s == x {
      tail := "";
    } else {
      var p := g.parent[s];
      assert p != ROOT;
      var t := NameBelow(g, base, p, x);
      tail := t + "." + base[s];
      assert FullName(g, base, s) == FullName(g, base, p) + "." + base[s];
      assert FullName(g, base, p) + "." + base[s] == FullName(g, base, x) + (t + "." + base[s]);
    }
  }

  /** Where two names first differ, or the shorter one ends. */
  function Differ(a: string, b: string): (k: nat)
    ensures k <= |a| && k <= |b| && a[..k] == b[..k]
    ensures k < |a| && k < |b| ==> a[k] != b[k]
  {
    if a == "" || b == "" || a[0] != b[0] then 0 else 1 + Differ(a[1..], b[1..])
  }

  lemma {:induction false} DifferUnique(a: string, b: string, k: nat)
    requires k <= |a| && k <= |b| && a[..k] == b[..k]
    requires k == |a| || k == |b| || a[k] != b[k]
    ensures Differ(a, b) == k
    decreases k
  {
    if k > 0 {
      assert a[..k][0] == b[..k][0];
      assert a[1..][..k - 1] == a[..k][1..] && b[1..][..k - 1] == b[..k][1..];
      DifferUnique(a[1..], b[1..], k - 1);
    }
  }

  /** The names part right after a dot, neither having ended, and what comes before names a set. */
  predicate Reported(from: string, to: string, table: map<string, Kind>) {
    var k := Differ(from, to);
    && 0 < k < |from| && k < |to| && from[k - 1] == '.'
    && from[..k - 1] in table && table[from[..k - 1]] == Set
  }

  /** check_transitions, for one transition between defined states: `table` gives the kinds of the symbols. */
  method CheckTransition(from: string, to: string, table: map<string, Kind>) returns (error: bool)
    ensures error <==> Reported(from, to, table)
  {
    var k := 0;
    while k < |from| && k < |to| && from[k] == to[k]
      invariant 0 <= k <= |from| && k <= |to| && from[..k] == to[..k]
    {
      k := k + 1;
    }
    DifferUnique(from, to, k);
    error := false;
    if k < |from| && k < |to| && k > 0 && from[k - 1] == '.' {
      var name := from[..k - 1];
      if name in table && table[name] == Set {
        error := true;
      }
    }
  }

  /** The symbol table knows every state by its full name. */
  ghost predicate TableOk(g: Tree, base: seq<string>, table: map<string, Kind>)
    requires Valid(g) && NamesOk(g, base)
  {
    forall s :: 0 < s < |g.kind| ==> FullName(g, base, s) in table && table[FullName(g, base, s)] == g.kind[s]
  }

  lemma {:induction false} DifferAfter(pre: string, u: string, v: string)
    ensures Differ(pre + u, pre + v) == |pre| + Differ(u, v)
    decreases |pre|
  {
    if pre == "" {
      assert pre + u == u && pre + v == v;
    } else {
      DifferAfter(pre[1..], u, v);
      assert (pre + u)[1..] == pre[1..] + u && (pre + v)[1..] == pre[1..] + v;
    }
  }

  /** Names part where their different, dot-free first components do. */
  lemma {:induction false} DifferWithin(x: string, tx: string, y: string, ty: string)
    requires '.' !in x && '.' !in y && x != y
    requires (tx == "" || tx[0] == '.') && (ty == "" || ty[0] == '.')
    ensures Differ(x + tx, y + ty) == Differ(x, y)
    decreases |x|
  {
    var a, b := x + tx, y + ty;
    if x == "" {
      assert a == tx && b[0] == y[0];
    } else if y == "" {
      assert b == ty && a[0] == x[0];
    } else if x[0] == y[0] {
      assert a[1..] == x[1..] + tx && b[1..] == y[1..] + ty;
      assert x == [x[0]] + x[1..] && y == [y[0]] + y[1..];
      DifferWithin(x[1..], tx, y[1..], ty);
    }
  }

  /** Two branches below a common name: reported when that name is a set and the branches' first characters
      differ. */
  lemma BranchNames(pre: string, x: string, tx: string, y: string, ty: string, table: map<string, Kind>)
    requires x != "" && y != "" && '.' !in x && '.' !in y && x != y
    requires (tx == "" || tx[0] == '.') && (ty == "" || ty[0] == '.')
    requires pre == "" || pre[|pre| - 1] == '.'
    ensures Reported(pre + (x + tx), pre + (y + ty), table) <==>
              x[0] != y[0] && pre != "" && pre[..|pre| - 1] in table && table[pre[..|pre| - 1]] == Set
  {
    var from, to := pre + (x + tx), pre + (y + ty);
    DifferAfter(pre, x + tx, y + ty);
    DifferWithin(x, tx, y, ty);
    var j := Differ(x, y);
    if j > 0 {
      assert from[|pre| + j - 1] == x[j - 1];
    } else if pre != "" {
      assert from[|pre| - 1] == '.' && from[..|pre| - 1] == pre[..|pre| - 1];
    }
  }

  lemma BranchesDiffer(g: Tree, a: nat, b: nat)
    requires Valid(g) && IsState(g, a) && IsState(g, b) && Meet(g, a, b) != a && Meet(g, a, b) != b
    ensures Toward(g, a, Meet(g, a, b)) != Toward(g, b, Meet(g, a, b))
  {
    var m := Meet(g, a, b);
    var x := Toward(g, a, m);
    ChildWithin(g, x, m);
    if Within(g, b, x) {
      MeetIsDeepest(g, a, b, x);
    }
  }

  /** A name that goes on from the other is never reported. */
  lemma Enclosing(from: string, tail: string, table: map<string, Kind>)
    ensures !Reported(from, from + tail, table) && !Reported(from + tail, from, table)
  {
    assert (from + tail)[..|from|] == from == from[..|from|];
    DifferUnique(from, from + tail, |from|);
    DifferUnique(from + tail, from, |from|);
  }

  lemma NameThrough(g: Tree, base: seq<string>, s: nat, x: nat) returns (tail: string)
    requires Valid(g) && NamesOk(g, base) && 0 < s < |g.kind| && 0 < x < |g.kind| && Within(g, s, x)
    ensures FullName(g, base, s) == Prefix(g, base, g.parent[x]) + (base[x] + tail)
    ensures tail == "" || tail[0] == '.'
  {
    tail := NameBelow(g, base, s, x);
    assert FullName(g, base, x) + tail == Prefix(g, base, g.parent[x]) + (base[x] + tail);
  }

  lemma ReportBranches(g: Tree, base: seq<string>, table: map<string, Kind>, a: nat, b: nat, m: nat, x: nat, y: nat)
    requires Valid(g) && NamesOk(g, base) && TableOk(g, base, table) && 0 < a < |g.kind| && 0 < b < |g.kind|
    requires IsState(g, m) && 0 < x < |g.kind| && 0 < y < |g.kind| && x != y && g.parent[x] == g.parent[y] == m
    requires Within(g, a, x) && Within(g, b, y)
    ensures Reported(FullName(g, base, a), FullName(g, base, b), table)
            <==> g.kind[m] == Set && base[x][0] != base[y][0]
  {
    hide Reported, Valid, Within;
    var pre := Prefix(g, base, m);
    var tx := NameThrough(g, base, a, x);
    var ty := NameThrough(g, base, b, y);
    if m != ROOT {
      assert pre == FullName(g, base, m) + "." && pre[..|pre| - 1] == FullName(g, base, m);
    } else {
      RootIsCluster(g);
    }
    BranchNames(pre, base[x], tx, base[y], ty, table);
  }

  lemma RootIsCluster(g: Tree)
    requires Valid(g)
    ensures g.kind[ROOT] == Cluster
  {
  }

  /** What the compiler's check misses: a pair is reported exactly when it is illegal, neither state encloses
      the other, and the two branches below their common set start with different characters. */
  lemma CheckAgreement(g: Tree, base: seq<string>, table: map<string, Kind>, a: nat, b: nat)
    requires Valid(g) && NamesOk(g, base) && TableOk(g, base, table) && 0 < a < |g.kind| && 0 < b < |g.kind|
    ensures var m := Meet(g, a, b);
            Reported(FullName(g, base, a), FullName(g, base, b), table) <==>
              !Legal(g, a, b) && a != m && b != m && base[Toward(g, a, m)][0] != base[Toward(g, b, m)][0]
  {
    hide Reported, FullName, TableOk;
    var m := Meet(g, a, b);
    if a == m {
      var t := NameBelow(g, base, b, a);
      Enclosing(FullName(g, base, a), t, table);
    } else if b == m {
      var t := NameBelow(g, base, a, b);
      Enclosing(FullName(g, base, b), t, table);
    } else {
      BranchesDiffer(g, a, b);
      ReportBranches(g, base, table, a, b, m, Toward(g, a, m), Toward(g, b, m));
    }
  }
}
