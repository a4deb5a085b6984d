/**
  The argument permutation of lib/getopt.c: `Exchange` rotates two adjacent segments of argv in place, and
  repeated calls of `Next` move every option in front of every operand, each kind in its original order.
 */
module Getopt {

  /** How an option element is consumed: one call per letter, the last of which may also take the next
      element as its argument. */
  datatype Shape = Shape(letters: nat, takesNext: bool)

  /** Neither an option nor "--": it does not start with a dash, or is just "-". */
  predicate IsOperand(arg: string) {
    |arg| == 0 || arg[0] != '-' || |arg| == 1
  }

  const END_OF_OPTIONS: string := "--"

  type Reader = string -> Shape

  ghost predicate ReaderOk(shape: Reader) {
    forall arg :: shape(arg).letters > 0
  }

  // ---------------------------------------------------------------- what a scan is for

  /** Reads a command line from left to right: the options with their arguments, and the operands. */
  function Options(shape: Reader, args: seq<string>): seq<string> {
    if args == [] then []
    else if args[0] == END_OF_OPTIONS then [args[0]]
    else if IsOperand(args[0]) then Options(shape, args[1..])
    else if shape(args[0]).takesNext && |args| > 1 then args[..2] + Options(shape, args[2..])
    else [args[0]] + Options(shape, args[1..])
  }

  function Operands(shape: Reader, args: seq<string>): seq<string> {
    if args == [] then []
    else if args[0] == END_OF_OPTIONS then args[1..]
    else if IsOperand(args[0]) then [args[0]] + Operands(shape, args[1..])
    else if shape(args[0]).takesNext && |args| > 1 then Operands(shape, args[2..])
    else Operands(shape, args[1..])
  }

  /** How many elements the first read of `args` consumes, and which part of them are options. */
  function Consumed(shape: Reader, args: seq<string>): nat
    requires args != []
  {
    if args[0] == END_OF_OPTIONS then |args|
    else if !IsOperand(args[0]) && shape(args[0]).takesNext && |args| > 1 then 2
    else 1
  }

  lemma OneRead(shape: Reader, args: seq<string>)
    requires args != []
    ensures var k := Consumed(shape, args);
            1 <= k <= |args| &&
            if args[0] == END_OF_OPTIONS then
              Options(shape, args) == [args[0]] && Operands(shape, args) == args[1..]
            else if IsOperand(args[0]) then
              && Options(shape, args) == Options(shape, args[k..])
              && Operands(shape, args) == args[..k] + Operands(shape, args[k..])
            else
              && Options(shape, args) == args[..k] + Options(shape, args[k..])
              && Operands(shape, args) == Operands(shape, args[k..])
  {
    hide IsOperand;
    assert args[0] == END_OF_OPTIONS ==> !IsOperand(args[0]) by { EndIsNoOperand(); }
    var k := Consumed(shape, args);
    assert args[..1] == [args[0]];
  }

  lemma EndIsNoOperand()
    ensures !IsOperand(END_OF_OPTIONS)
  {
  }

  /** Nothing is lost, added or duplicated. */
  lemma {:induction false} ScanIsPermutation(shape: Reader, args: seq<string>)
    ensures multiset(Options(shape, args)) + multiset(Operands(shape, args)) == multiset(args)
    decreases |args|
  {
    if args != [] {
      OneRead(shape, args);
      hide Options, Operands, IsOperand;
      var k := Consumed(shape, args);
      if args[0] == END_OF_OPTIONS {
        Together([args[0]], args[1..], args);
      } else {
        ScanIsPermutation(shape, args[k..]);
        Together(args[..k], args[k..], args);
        if IsOperand(args[0]) {
          Together(args[..k], Operands(shape, args[k..]), Operands(shape, args));
        } else {
          Together(args[..k], Options(shape, args[k..]), Options(shape, args));
        }
      }
    }
  }

  lemma Together(a: seq<string>, b: seq<string>, whole: seq<string>)
    requires whole == a + b
    ensures multiset(whole) == multiset(a) + multiset(b)
  {
  }

  /** The line has a "--" that ends its options. */
  predicate Terminated(shape: Reader, args: seq<string>) {
    if args == [] then false
    else if args[0] == END_OF_OPTIONS then true
    else if !IsOperand(args[0]) && shape(args[0]).takesNext && |args| > 1 then Terminated(shape, args[2..])
    else Terminated(shape, args[1..])
  }

  /** No option at the very end is left without the argument it wants. */
  predicate EndsPlainly(shape: Reader, args: seq<string>) {
    if args == [] || args[0] == END_OF_OPTIONS then true
    else if !IsOperand(args[0]) && shape(args[0]).takesNext then |args| > 1 && EndsPlainly(shape, args[2..])
    else EndsPlainly(shape, args[1..])
  }

  lemma {:induction false} OperandsAreOperands(shape: Reader, args: seq<string>)
    requires !Terminated(shape, args)
    ensures forall i :: 0 <= i < |Operands(shape, args)| ==> IsOperand(Operands(shape, args)[i])
    decreases |args|
  {
    if args != [] {
      if !IsOperand(args[0]) && shape(args[0]).takesNext && |args| > 1 {
        OperandsAreOperands(shape, args[2..]);
      } else {
        OperandsAreOperands(shape, args[1..]);
      }
    }
  }

  lemma {:induction false} OperandsOnly(shape: Reader, rest: seq<string>)
    requires forall i :: 0 <= i < |rest| ==> IsOperand(rest[i])
    ensures Options(shape, rest) == [] && Operands(shape, rest) == rest
    decreases |rest|
  {
    if rest != [] {
      assert IsOperand(rest[0]);
      OperandsOnly(shape, rest[1..]);
    }
  }

  /** An option that wants an argument, in front of operands only. */
  lemma LastOption(shape: Reader, arg: string, rest: seq<string>)
    requires !IsOperand(arg) && arg != END_OF_OPTIONS && shape(arg).takesNext
    requires forall i :: 0 <= i < |rest| ==> IsOperand(rest[i])
    ensures Options(shape, [arg]) == [arg]
    ensures if rest == [] then Options(shape, [arg] + rest) == [arg] && Operands(shape, [arg] + rest) == []
            else |Options(shape, [arg] + rest)| == 2
  {
    var out := [arg] + rest;
    if rest != [] {
      OperandsOnly(shape, rest[1..]);
      assert out[2..] == rest[1..];
    } else {
      assert out == [arg] && out[1..] == [];
    }
  }

  /** Reading the options again, followed by `rest`. */
  lemma {:induction false} ReadAgain(shape: Reader, args: seq<string>, rest: seq<string>)
    requires Terminated(shape, args) || forall i :: 0 <= i < |rest| ==> IsOperand(rest[i])
    ensures var out := Options(shape, args) + rest;
            if EndsPlainly(shape, args) || rest == []
            then Options(shape, out) == Options(shape, args) && Operands(shape, out) == rest
            else |Options(shape, out)| == |Options(shape, args)| + 1
    decreases |args|
  {
    var out := Options(shape, args) + rest;
    if args == [] {
      assert out == rest;
      OperandsOnly(shape, rest);
    } else if args[0] == END_OF_OPTIONS {
      assert out[1..] == rest;
    } else if IsOperand(args[0]) {
      ReadAgain(shape, args[1..], rest);
    } else if shape(args[0]).takesNext && |args| > 1 {
      ReadAgain(shape, args[2..], rest);
      assert out[..2] == args[..2] && out[2..] == Options(shape, args[2..]) + rest;
    } else if shape(args[0]).takesNext {
      assert args[1..] == [] && args == [args[0]] && out == [args[0]] + rest;
      LastOption(shape, args[0], rest);
    } else {
      ReadAgain(shape, args[1..], rest);
      assert out[1..] == Options(shape, args[1..]) + rest;
    }
  }

  /** The permuted command line reads the same as the original, exactly when no option at the end lacks its
      argument or there is no operand it could swallow instead. */
  lemma PermutedReadsTheSame(shape: Reader, args: seq<string>)
    ensures var out := Options(shape, args) + Operands(shape, args);
            (Options(shape, out) == Options(shape, args) && Operands(shape, out) == Operands(shape, args))
            <==> EndsPlainly(shape, args) || Operands(shape, args) == []
  {
    if !Terminated(shape, args) {
      OperandsAreOperands(shape, args);
    }
    ReadAgain(shape, args, Operands(shape, args));
  }

  // ---------------------------------------------------------------- the same, place by place

  datatype Role = Option | Argument | End | Operand | Rest

  predicate Before(r: Role) {
    r.Option? || r.Argument? || r.End?
  }

  /** The part each element of a line plays, by its characters and the part of the one before it: everything
      is an operand after "--"; an option may take what follows it, whatever it is; otherwise an option starts
      with a dash and goes on, "--" ends the options, and an operand is anything else, "-" and "" included. */
  predicate Plays(shape: Reader, args: seq<string>, roles: seq<Role>, i: nat)
    requires i < |args| && |roles| == |args|
  {
    var dashed := |args[i]| >= 2 && args[i][0] == '-';
    if i > 0 && roles[i - 1] in {End, Rest} then roles[i] == Rest
    else if i > 0 && roles[i - 1] == Option && shape(args[i - 1]).takesNext then roles[i] == Argument
    else if dashed && args[i][1] == '-' && |args[i]| == 2 then roles[i] == End
    else if dashed then roles[i] == Option
    else roles[i] == Operand
  }

  ghost predicate Cast(shape: Reader, args: seq<string>, roles: seq<Role>) {
    |roles| == |args| && forall i :: 0 <= i < |args| ==> Plays(shape, args, roles, i)
  }

  /** The elements on one side of the first operand, in the order in which they were given. */
  function Side(args: seq<string>, roles: seq<Role>, before: bool): seq<string>
    requires |roles| == |args|
  {
    if args == [] then []
    else (if Before(roles[0]) == before then [args[0]] else []) + Side(args[1..], roles[1..], before)
  }

  function Casting(shape: Reader, args: seq<string>): (roles: seq<Role>)
    ensures |roles| == |args|
  {
    if args == [] then []
    else if args[0] == END_OF_OPTIONS then [End] + seq(|args| - 1, _ => Rest)
    else if IsOperand(args[0]) then [Operand] + Casting(shape, args[1..])
    else if shape(args[0]).takesNext && |args| > 1 then [Option, Argument] + Casting(shape, args[2..])
    else [Option] + Casting(shape, args[1..])
  }

  /** Every line can be cast in one way only. */
  lemma {:induction false} OneCasting(shape: Reader, args: seq<string>, roles: seq<Role>, other: seq<Role>, i: nat)
    requires Cast(shape, args, roles) && Cast(shape, args, other) && i <= |args|
    ensures roles[..i] == other[..i]
    decreases i
  {
    if i > 0 {
      OneCasting(shape, args, roles, other, i - 1);
      assert Plays(shape, args, roles, i - 1) && Plays(shape, args, other, i - 1);
      assert i > 1 ==> roles[i - 2] == roles[..i - 1][i - 2] == other[..i - 1][i - 2] == other[i - 2];
      assert roles[..i] == roles[..i - 1] + [roles[i - 1]];
    }
  }

  lemma {:induction false} CastingIs(shape: Reader, args: seq<string>)
    ensures Cast(shape, args, Casting(shape, args))
    decreases |args|
  {
    var roles := Casting(shape, args);
    if args == [] || args[0] == END_OF_OPTIONS {
    } else {
      var k := Consumed(shape, args);
      CastingIs(shape, args[k..]);
      CastAfter(shape, args, roles, k);
    }
  }

  /** What is cast after a whole option or an operand is cast as if the line began there. */
  lemma CastAfter(shape: Reader, args: seq<string>, roles: seq<Role>, k: nat)
    requires 0 < k <= |args| == |roles| && Cast(shape, args[k..], roles[k..])
    requires forall i :: 0 <= i < k ==> Plays(shape, args, roles, i)
    requires roles[k - 1] !in {End, Rest}
    requires roles[k - 1] == Option && k < |args| ==> !shape(args[k - 1]).takesNext
    ensures Cast(shape, args, roles)
  {
    forall i | k <= i < |args| ensures Plays(shape, args, roles, i) {
      assert Plays(shape, args[k..], roles[k..], i - k);
    }
  }

  lemma {:induction false} AllRest(args: seq<string>, roles: seq<Role>)
    requires |roles| == |args| && forall i :: 0 <= i < |roles| ==> roles[i] == Rest
    ensures Side(args, roles, true) == [] && Side(args, roles, false) == args
    decreases |args|
  {
    if args != [] {
      AllRest(args[1..], roles[1..]);
    }
  }

  /** The first `k` elements, all on one side, and the rest. */
  lemma SideFront(args: seq<string>, roles: seq<Role>, k: nat, side: bool, before: bool)
    requires |roles| == |args| && 1 <= k <= 2 && k <= |args|
    requires forall i :: 0 <= i < k ==> Before(roles[i]) == side
    ensures Side(args, roles, before)
            == (if side == before then args[..k] else []) + Side(args[k..], roles[k..], before)
  {
    if k == 2 {
      assert roles[1..][1..] == roles[2..] && args[1..][1..] == args[2..];
    }
  }

  lemma CastingFront(shape: Reader, args: seq<string>)
    requires args != [] && args[0] != END_OF_OPTIONS
    ensures var k, roles := Consumed(shape, args), Casting(shape, args);
            && roles[k..] == Casting(shape, args[k..])
            && forall i :: 0 <= i < k ==> Before(roles[i]) == !IsOperand(args[0])
  {
  }

  lemma {:induction false} CastingSides(shape: Reader, args: seq<string>, before: bool)
    ensures Side(args, Casting(shape, args), before) == if before then Options(shape, args) else Operands(shape, args)
    decreases |args|
  {
    if args != [] {
      OneRead(shape, args);
      var roles := Casting(shape, args);
      if args[0] == END_OF_OPTIONS {
        AllRest(args[1..], roles[1..]);
      } else {
        var k := Consumed(shape, args);
        CastingFront(shape, args);
        SideFront(args, roles, k, !IsOperand(args[0]), before);
        CastingSides(shape, args[k..], before);
        hide Side, Casting, Options, Operands;
      }
    }
  }

  /** Main result: options are the elements cast as such, with their arguments and the "--", and operands all
      others, each in the order in which they were given. */
  lemma ReadByRoles(shape: Reader, args: seq<string>, roles: seq<Role>)
    requires Cast(shape, args, roles)
    ensures Options(shape, args) == Side(args, roles, true) && Operands(shape, args) == Side(args, roles, false)
  {
    CastingIs(shape, args);
    OneCasting(shape, args, roles, Casting(shape, args), |args|);
    assert roles == roles[..|args|] == Casting(shape, args)[..|args|] == Casting(shape, args);
    CastingSides(shape, args, true);
    CastingSides(shape, args, false);
  }

  // ---------------------------------------------------------------- exchange

  /** `s` with the blocks of `len` elements at `i` and `j` swapped. */
  function Swapped(s: seq<string>, i: nat, j: nat, len: nat): (r: seq<string>)
    requires i + len <= j && j + len <= |s|
    ensures |r| == |s|
  {
    seq(|s|, m requires 0 <= m < |s| =>
          if i <= m < i + len then s[m + (j - i)] else if j <= m < j + len then s[m - (j - i)] else s[m])
  }

  /** Swaps the blocks of `len` elements at `i` and `j`. */
  method SwapBlocks(argv: array<string>, i: nat, j: nat, len: nat)
    requires i + len <= j && j + len <= argv.Length
    modifies argv
    ensures argv[..] == Swapped(old(argv[..]), i, j, len)
  {
    for k := 0 to len
      invariant forall m :: 0 <= m < argv.Length ==>
        argv[m] == if i <= m < i + k then old(argv[m + (j - i)])
                   else if j <= m < j + k then old(argv[m - (j - i)])
                   else old(argv[m])
    {
      argv[i + k], argv[j + k] := argv[j + k], argv[i + k];
    }
    assert argv[..] == Swapped(old(argv[..]), i, j, len);
  }

  /** `s` with the segments [bottom, middle) and [middle, top) exchanged. */
  function Rotated(s: seq<string>, bottom: nat, middle: nat, top: nat): (r: seq<string>)
    requires bottom <= middle <= top <= |s|
    ensures |r| == |s|
  {
    seq(|s|, m requires 0 <= m < |s| =>
          if bottom <= m < bottom + (top - middle) then s[m + (middle - bottom)]
          else if bottom + (top - middle) <= m < top then s[m - (top - middle)]
          else s[m])
  }

  /** The two segments have changed places and nothing else has moved. */
  lemma RotatedIs(s: seq<string>, bottom: nat, middle: nat, top: nat)
    requires bottom <= middle <= top <= |s|
    ensures Rotated(s, bottom, middle, top) == s[..bottom] + (s[middle..top] + (s[bottom..middle] + s[top..]))
  {
  }

  lemma RotateTail(s: seq<string>, r: seq<string>, bottom: nat, middle: nat, top: nat)
    requires bottom <= middle <= top <= |s| && top - middle > middle - bottom
    requires r == Swapped(s, bottom, top - (middle - bottom), middle - bottom)
    ensures |r| == |s| && Rotated(r, bottom, middle, top - (middle - bottom)) == Rotated(s, bottom, middle, top)
  {
  }

  lemma RotateHead(s: seq<string>, r: seq<string>, bottom: nat, middle: nat, top: nat)
    requires bottom <= middle <= top <= |s| && top - middle <= middle - bottom
    requires r == Swapped(s, bottom, middle, top - middle)
    ensures |r| == |s| && Rotated(r, bottom + (top - middle), middle, top) == Rotated(s, bottom, middle, top)
  {
  }

  lemma RotatedDone(s: seq<string>, bottom: nat, middle: nat, top: nat)
    requires bottom <= middle <= top <= |s| && (top == middle || middle == bottom)
    ensures Rotated(s, bottom, middle, top) == s
  {
  }

  /** The bottom segment is the short one: it goes to its place at the far end. */
  method SwapTail(argv: array<string>, bottom: nat, middle: nat, top: nat)
    requires bottom <= middle <= top <= argv.Length && top - middle > middle - bottom
    modifies argv
    ensures Rotated(argv[..], bottom, middle, top - (middle - bottom)) == Rotated(old(argv[..]), bottom, middle, top)
  {
    hide Rotated, Swapped;
    ghost var s := argv[..];
    var len := middle - bottom;
    SwapBlocks(argv, bottom, top - len, len);
    RotateTail(s, argv[..], bottom, middle, top);
  }

  /** The top segment is the short one: it goes to its place at the bottom. */
  method SwapHead(argv: array<string>, bottom: nat, middle: nat, top: nat)
    requires bottom <= middle <= top <= argv.Length && top - middle <= middle - bottom
    modifies argv
    ensures Rotated(argv[..], bottom + (top - middle), middle, top) == Rotated(old(argv[..]), bottom, middle, top)
  {
    hide Rotated, Swapped;
    ghost var s := argv[..];
    var len := top - middle;
    SwapBlocks(argv, bottom, middle, len);
    RotateHead(s, argv[..], bottom, middle, top);
  }

  /** The loop of exchange(): swap the shorter segment with the far end of the longer one until one is
      empty. */
  method Rotate(argv: array<string>, first: nat, middle: nat, end: nat)
    requires first <= middle <= end <= argv.Length
    modifies argv
    ensures argv[..] == Rotated(old(argv[..]), first, middle, end)
  {
    hide Rotated;
    ghost var want := Rotated(argv[..], first, middle, end);
    var bottom, top := first, end;
    while top > middle && middle > bottom
      invariant first <= bottom <= middle <= top <= argv.Length
      invariant Rotated(argv[..], bottom, middle, top) == want
      decreases top - bottom
    {
      if top - middle > middle - bottom {
        SwapTail(argv, bottom, middle, top);
        top := top - (middle - bottom);
      } else {
        SwapHead(argv, bottom, middle, top);
        bottom := bottom + (top - middle);
      }
    }
    RotatedDone(argv[..], bottom, middle, top);
  }

  // ---------------------------------------------------------------- the state of a scan

  /** argv `s` holds, after the program name, the options done with up to `f`, the operands skipped up to
      `l`, the options read since up to `o`, and what is unread: together they read as the line `given`. */
  ghost predicate Reads(shape: Reader, given: seq<string>, s: seq<string>, f: nat, l: nat, o: nat) {
    && 1 <= f <= l <= o <= |s| == |given| + 1
    && Options(shape, given) == s[1..f] + s[l..o] + Options(shape, s[o..])
    && Operands(shape, given) == s[f..l] + Operands(shape, s[o..])
  }

  lemma ReadsAtFirst(shape: Reader, s: seq<string>)
    requires |s| > 0
    ensures Reads(shape, s[1..], s, 1, 1, 1)
  {
    assert s[1..1] == [];
  }

  /** Where the parts of the rotated line lie. */
  lemma RotatedParts(s: seq<string>, f: nat, l: nat, o: nat)
    requires 1 <= f <= l <= o <= |s|
    ensures var r := Rotated(s, f, l, o); var m := f + (o - l);
            r[0] == s[0] && r[1..m] == s[1..f] + s[l..o] && r[m..o] == s[f..l] && r[o..] == s[o..]
  {
    RotatedIs(s, f, l, o);
    hide Rotated;
    FourParts(s[..f], s[l..o], s[f..l], s[o..], Rotated(s, f, l, o));
    assert s[..f][1..] == s[1..f];
  }

  lemma FourParts(a: seq<string>, b: seq<string>, c: seq<string>, d: seq<string>, r: seq<string>)
    requires a != [] && r == a + (b + (c + d))
    ensures var m := |a| + |b|;
            && |r| == m + |c| + |d| && r[0] == a[0]
            && r[1..m] == a[1..] + b && r[m..m + |c|] == c && r[m + |c|..] == d
  {
  }

  lemma ExchangeReads(shape: Reader, given: seq<string>, s: seq<string>, f: nat, l: nat, o: nat)
    requires Reads(shape, given, s, f, l, o)
    ensures Reads(shape, given, Rotated(s, f, l, o), f + (o - l), o, o) && Rotated(s, f, l, o)[0] == s[0]
  {
    hide Options, Operands;
    RotatedParts(s, f, l, o);
    hide Rotated;
    var r := Rotated(s, f, l, o);
    var m := f + (o - l);
    assert r[o..o] == [];
    assert s[1..f] + s[l..o] + r[o..o] == s[1..f] + s[l..o];
  }

  lemma NoOperandsReads(shape: Reader, given: seq<string>, s: seq<string>, f: nat, o: nat)
    requires Reads(shape, given, s, f, f, o)
    ensures Reads(shape, given, s, o, o, o)
  {
    assert s[1..o] == s[1..f] + s[f..o];
    assert s[o..o] == [] == s[f..f];
  }

  lemma OperandReads(shape: Reader, given: seq<string>, s: seq<string>, f: nat, o: nat)
    requires Reads(shape, given, s, f, o, o) && o < |s| && IsOperand(s[o])
    ensures Reads(shape, given, s, f, o + 1, o + 1)
  {
    assert s[o..][1..] == s[o + 1..] && s[o..][0] == s[o];
    assert s[f..o + 1] == s[f..o] + [s[o]];
    assert s[o..o] == [] == s[o + 1..o + 1];
  }

  /** How many elements an option takes up when `left` of them, itself included, are left. */
  function Width(shape: Reader, arg: string, left: nat): nat {
    if shape(arg).takesNext && left > 1 then 2 else 1
  }

  lemma OptionReads(shape: Reader, given: seq<string>, s: seq<string>, f: nat, l: nat, o: nat)
    requires Reads(shape, given, s, f, l, o) && o < |s| && !IsOperand(s[o]) && s[o] != END_OF_OPTIONS
    ensures o + Width(shape, s[o], |s| - o) <= |s| && Reads(shape, given, s, f, l, o + Width(shape, s[o], |s| - o))
  {
    var k := Width(shape, s[o], |s| - o);
    var u := s[o..];
    assert u[k..] == s[o + k..] && u[..k] == s[o..o + k] && u[0] == s[o];
    assert Options(shape, u) == u[..k] + Options(shape, u[k..]);
    assert s[l..o + k] == s[l..o] + s[o..o + k];
  }

  /** "--" reads as an option, and everything after it as operands. */
  lemma EndReads(shape: Reader, given: seq<string>, s: seq<string>, f: nat, o: nat)
    requires Reads(shape, given, s, f, o, o) && o < |s| && s[o] == END_OF_OPTIONS
    ensures Options(shape, given) == s[1..f] + [END_OF_OPTIONS]
    ensures Operands(shape, given) == s[f..o] + s[o + 1..]
  {
    assert s[o..][1..] == s[o + 1..] && s[o..][0] == s[o];
    assert s[o..o] == [];
  }

  class Scanner {
    const shape: Reader
    var optind: nat
    var firstNonopt: nat
    var lastNonopt: nat
    /** Letters still to be returned from the element at `optind`; 0 when __nextchar is exhausted. */
    var pending: nat
    var initialized: bool
    /** The command line as it was given, without the program name. */
    ghost var given: seq<string>

    /** Between calls. */
    ghost predicate Scanning(argv: array<string>)
      reads this, argv
    {
      && ReaderOk(shape) && initialized
      && Reads(shape, given, argv[..], firstNonopt, lastNonopt, optind)
      && (pending > 0 ==> AtOption(argv))
    }

    ghost predicate AtOption(argv: array<string>)
      reads this, argv
    {
      optind < argv.Length && !IsOperand(argv[optind]) && argv[optind] != END_OF_OPTIONS
    }

    /** At the end: the options with their arguments, then the operands, and `optind` between them. */
    ghost predicate Finished(argv: array<string>)
      reads this, argv
    {
      && 1 <= optind <= argv.Length
      && argv[1..optind] == Options(shape, given)
      && argv[optind..] == Operands(shape, given)
    }

    constructor (shape: Reader)
      ensures this.shape == shape && !initialized && optind == 1
    {
      this.shape := shape;
      optind, firstNonopt, lastNonopt, pending, initialized, given := 1, 0, 0, 0, false, [];
    }

    /** _getopt_initialize, for the permuting order. */
    method Initialize(argv: array<string>)
      requires ReaderOk(shape) && argv.Length > 0 && optind <= 1
      modifies this
      ensures Scanning(argv) && given == argv[1..] && optind == 1 && pending == 0
    {
      if optind == 0 {
        optind := 1;
      }
      firstNonopt, lastNonopt, pending, initialized := optind, optind, 0, true;
      given := argv[1..];
      assert argv[..][1..] == argv[1..];
      ReadsAtFirst(shape, argv[..]);
    }

    /** exchange(): the skipped operands change places with the options processed after them. */
    method Exchange(argv: array<string>)
      requires firstNonopt <= lastNonopt <= optind <= argv.Length
      modifies argv, `firstNonopt, `lastNonopt
      ensures argv[..] == Rotated(old(argv[..]), old(firstNonopt), old(lastNonopt), optind)
      ensures firstNonopt == old(firstNonopt) + (optind - old(lastNonopt)) && lastNonopt == optind
    {
      Rotate(argv, firstNonopt, lastNonopt, optind);
      firstNonopt := firstNonopt + (optind - lastNonopt);
      lastNonopt := optind;
    }

    /** Brings the options read since the last skipped operands in front of them, then skips operands. */
    method Settle(argv: array<string>)
      requires Scanning(argv) && pending == 0
      modifies argv, `optind, `firstNonopt, `lastNonopt
      ensures argv[0] == old(argv[0]) && Scanning(argv) && lastNonopt == optind >= old(optind)
      ensures optind < argv.Length ==> !IsOperand(argv[optind])
    {
      hide Reads, Rotated;
      ScanBounds(argv);
      if firstNonopt != lastNonopt && lastNonopt != optind {
        ExchangeReads(shape, given, argv[..], firstNonopt, lastNonopt, optind);
        Exchange(argv);
        assert argv[0] == argv[..][0];
      } else {
        if lastNonopt != optind {
          NoOperandsReads(shape, given, argv[..], firstNonopt, optind);
          firstNonopt := optind;
        }
      }
      while optind < argv.Length && IsOperand(argv[optind])
        invariant argv[0] == old(argv[0]) && old(optind) <= optind <= argv.Length
        invariant Reads(shape, given, argv[..], firstNonopt, optind, optind)
      {
        OperandReads(shape, given, argv[..], firstNonopt, optind);
        optind := optind + 1;
      }
      lastNonopt := optind;
    }

    lemma ScanBounds(argv: array<string>)
      requires Scanning(argv)
      ensures 1 <= firstNonopt <= lastNonopt <= optind <= argv.Length
    {
    }

    /** The part of _getopt_internal_r that looks for the next option element; true at the end. */
    method Advance(argv: array<string>) returns (done: bool)
      requires Scanning(argv) && pending == 0
      modifies argv, `optind, `firstNonopt, `lastNonopt
      ensures argv[0] == old(argv[0])
      ensures if done then Finished(argv) else Scanning(argv) && AtOption(argv) && optind >= old(optind)
    {
      Settle(argv);
      if optind != argv.Length && argv[optind] == END_OF_OPTIONS {
        Terminate(argv);
      } else if optind == argv.Length {
        AllRead(argv);
      }
      if optind == argv.Length {
        if firstNonopt != lastNonopt {
          optind := firstNonopt;
        }
        return true;
      }
      return false;
    }

    lemma AllRead(argv: array<string>)
      requires Scanning(argv) && lastNonopt == optind == argv.Length
      ensures argv[1..firstNonopt] == Options(shape, given) && argv[firstNonopt..] == Operands(shape, given)
    {
      assert argv[..][optind..] == [] && argv[..][optind..optind] == [];
      assert argv[..][1..firstNonopt] == argv[1..firstNonopt];
      assert argv[..][firstNonopt..optind] == argv[firstNonopt..];
    }

    /** "--": an option as far as order goes, after which everything is an operand. */
    method Terminate(argv: array<string>)
      requires Scanning(argv) && lastNonopt == optind < argv.Length && argv[optind] == END_OF_OPTIONS
      modifies argv, `optind, `firstNonopt, `lastNonopt
      ensures argv[0] == old(argv[0]) && optind == lastNonopt == argv.Length && 1 <= firstNonopt <= optind
      ensures argv[1..firstNonopt] == Options(shape, given) && argv[firstNonopt..] == Operands(shape, given)
    {
      hide Options, Operands;
      ghost var s, f, n := argv[..], firstNonopt, optind;
      EndReads(shape, given, s, f, n);
      optind := optind + 1;
      if firstNonopt != lastNonopt && lastNonopt != optind {
        Exchange(argv);
        EndRotated(argv[..], s, f, n);
        assert argv[0] == argv[..][0] == s[0];
      } else if firstNonopt == lastNonopt {
        firstNonopt := optind;
        assert s[1..n + 1] == s[1..f] + [END_OF_OPTIONS];
        assert s[f..n] + s[n + 1..] == s[n + 1..];
      }
      lastNonopt := argv.Length;
      optind := argv.Length;
      assert argv[..][1..firstNonopt] == argv[1..firstNonopt] && argv[..][firstNonopt..] == argv[firstNonopt..];
    }

    /** One letter of the option element at `optind`; the last one moves on, over its argument if it takes the
        next element. */
    method Letter(argv: array<string>)
      requires Scanning(argv) && pending > 0
      modifies `optind, `pending
      ensures Scanning(argv)
      ensures pending == old(pending) - 1
      ensures optind == if pending > 0 then old(optind)
                        else old(optind) + Width(shape, argv[old(optind)], argv.Length - old(optind))
    {
      hide Reads;
      pending := pending - 1;
      if pending == 0 {
        OptionReads(shape, given, argv[..], firstNonopt, lastNonopt, optind);
        var takesNext := shape(argv[optind]).takesNext;
        optind := optind + 1;
        if takesNext && optind != argv.Length {
          optind := optind + 1;
        }
      }
    }

    /** One call of _getopt_internal_r; `done` is its -1.  Otherwise it returns one letter of the option element at
        `at`, which has as many calls as letters. */
    method Next(argv: array<string>) returns (done: bool, ghost at: nat)
      requires Scanning(argv)
      modifies argv, `optind, `firstNonopt, `lastNonopt, `pending
      ensures argv[0] == old(argv[0])
      ensures !done ==> at < argv.Length && !IsOperand(argv[at]) && argv[at] != END_OF_OPTIONS
      ensures !done ==> pending + 1 == if old(pending) > 0 then old(pending) else shape(argv[at]).letters
      ensures !done ==> optind == if pending > 0 then at else at + Width(shape, argv[at], argv.Length - at)
      ensures !done && old(pending) > 0 ==> at == old(optind) && argv[..] == old(argv[..])
      ensures if done then Finished(argv)
              else
                && Scanning(argv)
                && (optind > old(optind)
                    || (optind == old(optind) && pending > 0 && (old(pending) > 0 ==> pending < old(pending))))
    {
      at := optind;
      if pending == 0 {
        done := Advance(argv);
        if done {
          return;
        }
        pending, at := shape(argv[optind]).letters, optind;
      }
      Letter(argv);
      done := false;
    }
  }

  lemma EndRotated(r: seq<string>, s: seq<string>, f: nat, n: nat)
    requires 1 <= f < n < |s| && s[n] == END_OF_OPTIONS && r == Rotated(s, f, n, n + 1)
    ensures r[0] == s[0] && r[1..f + 1] == s[1..f] + [END_OF_OPTIONS] && r[f + 1..] == s[f..n] + s[n + 1..]
  {
    RotatedParts(s, f, n, n + 1);
    hide Rotated;
    assert s[n..n + 1] == [END_OF_OPTIONS];
    assert r[f + 1..] == r[f + 1..n + 1] + r[n + 1..];
  }

  /** Calls until -1. */
  method ToTheEnd(d: Scanner, argv: array<string>)
    requires d.Scanning(argv)
    modifies d, argv
    ensures argv.Length > 0 && argv[0] == old(argv[0]) && d.given == old(d.given) && d.Finished(argv)
  {
    hide Options, Operands, Reads;
    d.ScanBounds(argv);
    var done := false;
    ghost var at := 0;
    while !done
      invariant argv.Length > 0 && argv[0] == old(argv[0]) && d.given == old(d.given)
      invariant if done then d.Finished(argv) else d.Scanning(argv)
      decreases !done, argv.Length - d.optind, if d.pending > 0 then 0 else 1, d.pending
    {
      d.ScanBounds(argv);
      done, at := d.Next(argv);
      if !done { d.ScanBounds(argv); }
    }
  }

  lemma SameElements(shape: Reader, s: seq<string>, r: seq<string>, o: nat)
    requires |s| > 0 && 1 <= o <= |r| && r[0] == s[0]
    requires r[1..o] == Options(shape, s[1..]) && r[o..] == Operands(shape, s[1..])
    ensures multiset(r) == multiset(s)
  {
    hide Options, Operands;
    ScanIsPermutation(shape, s[1..]);
    var a, b := r[1..o], r[o..];
    assert r[1..] == a + b && r == [r[0]] + r[1..] && s == [s[0]] + s[1..];
    Together(a, b, r[1..]);
    Together([r[0]], r[1..], r);
    Together([s[0]], s[1..], s);
  }

  /** A whole scan, from the first call to the one that returns -1: options first, operands last, both in
      their original order, `optind` at the first operand, and nothing else moved. */
  method Scan(argv: array<string>, shape: Reader) returns (optind: nat, ghost roles: seq<Role>)
    requires ReaderOk(shape) && argv.Length > 0
    modifies argv
    ensures Cast(shape, old(argv[1..]), roles)
    ensures 1 <= optind <= argv.Length && argv[1..optind] == Side(old(argv[1..]), roles, true)
    ensures argv[optind..] == Side(old(argv[1..]), roles, false)
    ensures argv[0] == old(argv[0]) && argv[1..optind] == Options(shape, old(argv[1..]))
    ensures argv[optind..] == Operands(shape, old(argv[1..]))
    ensures multiset(argv[..]) == multiset(old(argv[..]))
  {
    hide Options, Operands, Reads, Side, Casting;
    ghost var argv0 := argv[..];
    assert argv0[1..] == argv[1..];
    var d := new Scanner(shape);
    d.Initialize(argv);
    ToTheEnd(d, argv);
    optind := d.optind;
    assert argv[..][1..optind] == argv[1..optind] && argv[..][optind..] == argv[optind..];
    SameElements(shape, argv0, argv[..], optind);
    roles := Casting(shape, argv0[1..]);
    CastingIs(shape, argv0[1..]);
    CastingSides(shape, argv0[1..], true);
    CastingSides(shape, argv0[1..], false);
  }
}
