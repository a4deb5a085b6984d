/**
  Name mangling (mangle.cpp): a dotted state name becomes "M" followed by each component with its length in
  front.  Demangling reads memory, possibly the very buffer it writes, so what it does is stated on whole
  buffers, and so is exactly which names come back.
 */
module Mangling {

  const NUL: char := '\0'

  predicate IsDigit(c: char) {
    '0' <= c <= '9'
  }

  function Digit(n: nat): (c: char)
    requires n < 10
    ensures IsDigit(c) && (c as int) - ('0' as int) == n
  {
    ('0' as int + n) as char
  }

  function Itoa(n: nat): (r: string)
    ensures |r| > 0 && (n < 10 ==> |r| == 1) && (10 <= n ==> |r| >= 2) && (n < 100 ==> |r| <= 2)
  {
    if n < 10 then [Digit(n)] else Itoa(n / 10) + [Digit(n % 10)]
  }

  /** The number written at place `i`, after the digits already read. */
  function Atoi(s: string, i: nat, read: nat): nat
    decreases |s| - i
  {
    if i < |s| && IsDigit(s[i]) then Atoi(s, i + 1, read * 10 + ((s[i] as int) - ('0' as int))) else read
  }

  /** How far both functions step over a length: one place, or two if it is greater than 9. */
  function Width(n: nat): nat {
    if n > 9 then 2 else 1
  }

  /** strchr, or the end of the string. */
  function FirstDot(s: string): (k: nat)
    ensures k <= |s| && '.' !in s[..k] && (k < |s| ==> s[k] == '.')
  {
    if s == "" || s[0] == '.' then 0
    else
      var k := 1 + FirstDot(s[1..]);
      assert s[..k] == [s[0]] + s[1..][..k - 1];
      k
  }

  /** The mangled form after its "M".  Of a length of three digits the last is overwritten by the name. */
  function Body(s: string): string
    decreases |s|
  {
    var k := FirstDot(s);
    Itoa(k)[..Width(k)] + s[..k] + if k < |s| then Body(s[k + 1..]) else ""
  }

  function Mangled(s: string): string {
    "M" + Body(s)
  }

  /** The number demangle reads in front of the first component. */
  function Number(s: string): nat {
    Atoi(Body(s), 0, 0)
  }

  // ---------------------------------------------------------------- names

  /** Components of 1 to 99 characters that do not start with a digit. */
  predicate GoodName(s: string)
    decreases |s|
  {
    var k := FirstDot(s);
    && 1 <= k <= 99 && !IsDigit(s[0])
    && (k < |s| ==> GoodName(s[k + 1..]))
  }

  /** Every component is read with its own length. */
  predicate ExactName(s: string)
    decreases |s|
  {
    var k := FirstDot(s);
    1 <= k == Number(s) && (k < |s| ==> ExactName(s[k + 1..]))
  }

  /** The last component may also be read with a greater length, if it has at least 10 characters: what is read
      past its end is cut off again. */
  predicate ComesBack(s: string)
    decreases |s|
  {
    var k := FirstDot(s);
    if k < |s| then 1 <= k == Number(s) && ComesBack(s[k + 1..])
    else (1 <= k == Number(s)) || 10 <= k < Number(s)
  }

  lemma {:induction false} ExactComesBack(s: string)
    requires ExactName(s)
    ensures ComesBack(s)
    decreases |s|
  {
    var k := FirstDot(s);
    if k < |s| {
      ExactComesBack(s[k + 1..]);
    }
  }

  lemma {:induction false} AtoiGrows(s: string, i: nat, read: nat)
    ensures Atoi(s, i, read) >= read
    ensures i < |s| && IsDigit(s[i]) ==> Atoi(s, i, read) >= read * 10
    decreases |s| - i
  {
    if i < |s| && IsDigit(s[i]) {
      AtoiGrows(s, i + 1, read * 10 + ((s[i] as int) - ('0' as int)));
    }
  }

  lemma {:induction false} DigitsOf(n: nat)
    ensures forall i :: 0 <= i < |Itoa(n)| ==> IsDigit(Itoa(n)[i])
  {
    if n >= 10 {
      DigitsOf(n / 10);
    }
  }

  /** A number in front reads as itself, and reading goes on after it. */
  lemma {:induction false} AtoiFront(n: nat, rest: string)
    ensures Atoi(Itoa(n) + rest, 0, 0) == Atoi(Itoa(n) + rest, |Itoa(n)|, n)
  {
    var m := Itoa(n) + rest;
    if n < 10 {
      assert m[0] == Digit(n);
    } else {
      var next := [Digit(n % 10)] + rest;
      assert m == Itoa(n / 10) + next;
      AtoiFront(n / 10, next);
      assert m[|Itoa(n / 10)|] == Digit(n % 10);
    }
  }

  lemma BodyStep(s: string)
    ensures var k := FirstDot(s);
            Body(s) == Itoa(k)[..Width(k)] + s[..k] + if k < |s| then Body(s[k + 1..]) else ""
  {
    hide Itoa, FirstDot;
  }

  lemma ThreeParts(x: string, y: string, z: string)
    ensures var m := x + y + z;
            && m == x + (y + z) && |m| == |x| + |y| + |z|
            && m[..|x|] == x && m[|x|..|x| + |y|] == y && m[|x| + |y|..] == z
  {
  }

  /** The parts of a mangled body. */
  lemma BodyParts(s: string)
    ensures var k, m := FirstDot(s), Body(s); var w := Width(k);
            && w + k <= |m| && m[w..w + k] == s[..k] && (k == |s| ==> |m| == w + k)
            && m[w + k..] == (if k < |s| then Body(s[k + 1..]) else "")
  {
    BodyStep(s);
    hide Itoa, Body, FirstDot;
    var k := FirstDot(s);
    ThreeParts(Itoa(k)[..Width(k)], s[..k], if k < |s| then Body(s[k + 1..]) else "");
  }

  /** A component of at most 99 characters that does not start with a digit is read with its own length. */
  lemma ShortReads(s: string)
    requires 1 <= FirstDot(s) <= 99 && !IsDigit(s[0])
    ensures Number(s) == FirstDot(s)
  {
    BodyStep(s);
    BodyParts(s);
    hide Body, FirstDot, Itoa;
    var k := FirstDot(s);
    var rest := s[..k] + if k < |s| then Body(s[k + 1..]) else "";
    assert Itoa(k)[..Width(k)] == Itoa(k);
    assert Body(s) == Itoa(k) + rest;
    AtoiFront(k, rest);
    assert Body(s)[Width(k)] == rest[0] == s[0];
  }

  /** A short one that starts with a digit is read with a greater length. */
  lemma DigitReadsMore(s: string)
    requires 1 <= FirstDot(s) <= 99 && IsDigit(s[0])
    ensures Number(s) > FirstDot(s)
  {
    BodyStep(s);
    hide Body, FirstDot, Itoa;
    var k := FirstDot(s);
    var rest := s[..k] + if k < |s| then Body(s[k + 1..]) else "";
    assert Itoa(k)[..Width(k)] == Itoa(k);
    assert Body(s) == Itoa(k) + rest;
    AtoiFront(k, rest);
    assert Body(s)[Width(k)] == rest[0] == s[0];
    AtoiGrows(Body(s), Width(k), k);
  }

  lemma {:induction false} GoodIsExact(s: string)
    requires GoodName(s)
    ensures ExactName(s)
    decreases |s|
  {
    ShortReads(s);
    var k := FirstDot(s);
    if k < |s| {
      GoodIsExact(s[k + 1..]);
    }
  }

  /** With components of at most 99 characters, a name comes back exactly when no component is empty and none
      starts with a digit, except that the last may, from 10 characters on. */
  lemma {:induction false} ShortNames(s: string)
    requires FirstDot(s) <= 99
    ensures ComesBack(s) <==>
              var k := FirstDot(s);
              if k < |s| then k > 0 && !IsDigit(s[0]) && ComesBack(s[k + 1..])
              else k > 0 && (k >= 10 || !IsDigit(s[0]))
  {
    if FirstDot(s) > 0 {
      if IsDigit(s[0]) {
        DigitReadsMore(s);
      } else {
        ShortReads(s);
      }
    }
  }

  lemma {:induction false} NoDots(s: string)
    ensures '.' !in Body(s)
    decreases |s|
  {
    BodyStep(s);
    hide Body, Itoa, FirstDot;
    var k := FirstDot(s);
    DigitsOf(k);
    if k < |s| {
      NoDots(s[k + 1..]);
    }
  }

  // ---------------------------------------------------------------- memory

  /** The memory `m` holds the string `s` at place `i`, ended by a NUL. */
  ghost predicate HoldsAt(m: seq<char>, i: nat, s: string) {
    i + |s| < |m| && m[i..i + |s|] == s && m[i + |s|] == NUL
  }

  ghost predicate Holds(m: seq<char>, s: string) {
    HoldsAt(m, 0, s)
  }

  /** The string that starts at the beginning of `t`. */
  function CStr(t: seq<char>): (r: string)
    ensures r <= t && NUL !in r && (|r| < |t| ==> t[|r|] == NUL)
  {
    if t == [] || t[0] == NUL then "" else [t[0]] + CStr(t[1..])
  }

  lemma {:induction false} CStrIs(t: seq<char>, r: string)
    requires r <= t && NUL !in r && (|r| < |t| ==> t[|r|] == NUL)
    ensures CStr(t) == r
  {
    if r != "" {
      assert r == [r[0]] + r[1..];
      CStrIs(t[1..], r[1..]);
    }
  }

  /** Reading a number at place `i` stays within the memory. */
  predicate NumberEnds(m: seq<char>, i: nat)
    decreases |m| - i
  {
    i < |m| && (IsDigit(m[i]) ==> NumberEnds(m, i + 1))
  }

  /** demangle reads from place `i` on without leaving the memory. */
  predicate Readable(m: seq<char>, i: nat)
    decreases |m| - i
  {
    var n := Atoi(m, i, 0);
    && NumberEnds(m, i)
    && (n > 0 ==> i + Width(n) + n <= |m| && Readable(m, i + Width(n) + n))
  }

  /** What it writes: every component, followed by a dot. */
  function Text(m: seq<char>, i: nat): seq<char>
    requires Readable(m, i)
    decreases |m| - i
  {
    var n := Atoi(m, i, 0);
    var d := Width(n);
    if n == 0 then [] else m[i + d..i + d + n] + "." + Text(m, i + d + n)
  }

  /** The last dot is replaced by the end of the string. */
  function Result(t: seq<char>): string
    requires t != []
  {
    CStr(t[..|t| - 1])
  }

  /** The number in front of a mangled body is the same in memory. */
  lemma {:induction false} AtoiInMemory(m: seq<char>, i: nat, s: string, j: nat, read: nat)
    requires HoldsAt(m, i, s) && j <= |s|
    ensures Atoi(m, i + j, read) == Atoi(s, j, read)
    decreases |s| - j
  {
    assert j < |s| ==> m[i + j] == m[i..i + |s|][j] == s[j];
    if j < |s| && IsDigit(s[j]) {
      AtoiInMemory(m, i, s, j + 1, read * 10 + ((s[j] as int) - ('0' as int)));
    }
  }

  lemma HoldsRest(m: seq<char>, i: nat, s: string, j: nat)
    requires HoldsAt(m, i, s) && j <= |s|
    ensures HoldsAt(m, i + j, s[j..])
    ensures forall x :: 0 <= x < |s| ==> m[i + x] == s[x]
  {
    forall x | 0 <= x < |s| ensures m[i + x] == s[x] {
      assert m[i..i + |s|][x] == m[i + x];
    }
    assert m[i + j..i + |s|] == s[j..];
  }

  lemma SliceInMemory(m: seq<char>, i: nat, b: string, x: nat, y: nat)
    requires HoldsAt(m, i, b) && x <= y <= |b|
    ensures i + y < |m| && m[i + x..i + y] == b[x..y] && HoldsAt(m, i + y, b[y..])
  {
    HoldsRest(m, i, b, y);
    forall j | 0 <= j < y - x ensures m[i + x..i + y][j] == b[x..y][j] {
      assert m[i + (x + j)] == b[x + j];
    }
  }

  /** The first component in memory, and what follows it. */
  lemma FirstInMemory(m: seq<char>, i: nat, s: string)
    requires HoldsAt(m, i, Body(s))
    ensures var k := FirstDot(s); var w := Width(k);
            && Atoi(m, i, 0) == Number(s)
            && i + w + k < |m| && m[i + w..i + w + k] == s[..k]
            && (k == |s| ==> m[i + w + k] == NUL)
            && (k < |s| ==> HoldsAt(m, i + w + k, Body(s[k + 1..])))
  {
    hide Body, FirstDot, Atoi, Width;
    AtoiInMemory(m, i, Body(s), 0, 0);
    BodyParts(s);
    var k := FirstDot(s);
    var w := Width(k);
    SliceInMemory(m, i, Body(s), w, w + k);
  }

  // ---------------------------------------------------------------- which names come back

  lemma TextStep(m: seq<char>, i: nat)
    requires Readable(m, i)
    ensures var n := Atoi(m, i, 0); var d := Width(n);
            if n == 0 then Text(m, i) == []
            else i + d + n <= |m| && Readable(m, i + d + n)
                 && Text(m, i) == m[i + d..i + d + n] + "." + Text(m, i + d + n)
  {
    hide Atoi;
  }

  /** A first component read with its own length is written as it is. */
  lemma RightFirst(s: string, k: nat, t: seq<char>)
    requires NUL !in s && k <= |s| && (k < |s| ==> s[k] == '.')
    requires k == |s| ==> t == []
    ensures var all := s[..k] + "." + t;
            if k == |s| then Result(all) == s
            else Result(all) == s <==> t != [] && Result(t) == s[k + 1..]
  {
    var head := s[..k] + ".";
    if t == [] {
      assert (head + t)[..|head + t| - 1] == s[..k];
      CStrIs(s[..k], s[..k]);
    } else {
      ButLast(head, t);
      CStrAppend(head, t[..|t| - 1]);
      assert s == head + s[k + 1..];
      SameHead(head, Result(t), s[k + 1..]);
    }
  }

  lemma ButLast(head: seq<char>, t: seq<char>)
    requires t != []
    ensures (head + t)[..|head + t| - 1] == head + t[..|t| - 1]
  {
  }

  lemma SameHead(head: string, u: string, v: string)
    ensures head + u == head + v <==> u == v
  {
    assert (head + u)[|head|..] == u && (head + v)[|head|..] == v;
  }

  lemma CStrAppend(head: string, t: seq<char>)
    requires NUL !in head
    ensures CStr(head + t) == head + CStr(t)
  {
    CStrIs(head + t, head + CStr(t));
  }

  /** A component read with too small a length leaves a dot, or the end, too early. */
  lemma TooShort(s: string, k: nat, x: seq<char>, t: seq<char>)
    requires k <= |s| && '.' !in s[..k] && |x| < k
    ensures Result(x + "." + t) != s
  {
    var all := x + "." + t;
    var r := Result(all);
    assert r <= all[..|all| - 1];
    assert |r| > |x| ==> r[|x|] == all[|x|] == '.';
    assert s[..k][|x|] == s[|x|];
  }

  /** One read with too great a length has no dot where the next component should begin. */
  lemma TooLong(s: string, k: nat, x: seq<char>, t: seq<char>)
    requires k < |s| && s[k] == '.' && |x| > k && x[k] != '.'
    ensures Result(x + "." + t) != s
  {
    var all := x + "." + t;
    var r := Result(all);
    assert r <= all[..|all| - 1];
    assert |r| > k ==> r[k] == all[k] == x[k];
  }

  /** The last component, read with too great a length: it is cut off at its end if its text starts at the right
      place, and too short otherwise. */
  lemma PastTheEnd(s: string, x: seq<char>, t: seq<char>, skip: nat)
    requires NUL !in s && skip <= |s| < |x| && x[..|s| - skip] == s[skip..] && x[|s| - skip] == NUL
    ensures Result(x + "." + t) == s <==> skip == 0
  {
    var all := x + "." + t;
    var most := all[..|all| - 1];
    assert most[..|s| - skip] == s[skip..] && most[|s| - skip] == NUL;
    CStrIs(most, s[skip..]);
  }

  /** Main result: a mangled name, read from any memory, comes back exactly when each component is read with its
      own length, or the last, of at least 10 characters, with a greater one. */
  lemma {:induction false} DemangleBoundary(m: seq<char>, i: nat, s: string)
    requires NUL !in s && HoldsAt(m, i, Body(s)) && Readable(m, i)
    ensures (Text(m, i) != [] && Result(Text(m, i)) == s) <==> ComesBack(s)
    decreases |s|
  {
    hide Body, FirstDot, Atoi, Text, Readable, CStr, NumberEnds;
    FirstInMemory(m, i, s);
    TextStep(m, i);
    var k, n := FirstDot(s), Number(s);
    var d := Width(n);
    if n != 0 {
      var x, t := m[i + d..i + d + n], Text(m, i + d + n);
      if n == k {
        if k < |s| {
          DemangleBoundary(m, i + d + n, s[k + 1..]);
        } else {
          AtTheEnd(m, i + d + n);
        }
        RightFirst(s, k, t);
      } else if n < k {
        TooShort(s, k, x, t);
      } else if k < |s| {
        NextIsNoDot(m, i, s, d);
        assert x[k] == m[i + d + k];
        TooLong(s, k, x, t);
      } else {
        SkipIs(s);
        LastInMemory(m, i, s);
        LastSlice(m, i, Body(s), s, Width(k), n, d);
        PastTheEnd(s, x, t, d - Width(k));
      }
    }
  }

  lemma AtTheEnd(m: seq<char>, i: nat)
    requires Readable(m, i) && i < |m| && m[i] == NUL
    ensures Text(m, i) == []
  {
  }

  lemma NextIsNoDot(m: seq<char>, i: nat, s: string, d: nat)
    requires HoldsAt(m, i, Body(s)) && FirstDot(s) < |s| && 1 <= d <= 2
    ensures i + d + FirstDot(s) < |m| && m[i + d + FirstDot(s)] != '.'
  {
    hide FirstDot, Body;
    NoDots(s);
    BodyIsLonger(s);
    NoDotAt(m, i, Body(s), d + FirstDot(s));
  }

  lemma BodyIsLonger(s: string)
    requires FirstDot(s) < |s|
    ensures |Body(s)| > Width(FirstDot(s)) + FirstDot(s)
  {
    BodyParts(s);
    BodyNotEmpty(s[FirstDot(s) + 1..]);
    hide FirstDot, Body;
  }

  lemma NoDotAt(m: seq<char>, i: nat, b: string, j: nat)
    requires HoldsAt(m, i, b) && '.' !in b && j <= |b|
    ensures i + j < |m| && m[i + j] != '.'
  {
    HoldsRest(m, i, b, 0);
  }

  lemma BodyNotEmpty(s: string)
    ensures |Body(s)| > 0
  {
    BodyParts(s);
  }

  /** A last component read with too great a length is read from its start if it has 10 characters. */
  lemma SkipIs(s: string)
    requires FirstDot(s) == |s| < Number(s)
    ensures var skip := Width(Number(s)) - Width(|s|);
            0 <= skip <= |s| && (skip == 0 <==> |s| >= 10)
  {
    hide Body, FirstDot, Atoi;
    if |s| < 10 {
      NumberOfDigit(s);
    }
  }

  lemma LastInMemory(m: seq<char>, i: nat, s: string)
    requires HoldsAt(m, i, Body(s)) && FirstDot(s) == |s|
    ensures |Body(s)| == Width(|s|) + |s| && Body(s)[Width(|s|)..Width(|s|) + |s|] == s
  {
    hide Body, FirstDot, Atoi;
    BodyParts(s);
    assert s[..|s|] == s;
  }

  lemma LastSlice(m: seq<char>, i: nat, b: string, s: string, w: nat, n: nat, d: nat)
    requires HoldsAt(m, i, b) && |b| == w + |s| && b[w..w + |s|] == s
    requires w <= d <= w + |s| && |s| < n && i + d + n <= |m|
    ensures var skip := d - w; var x := m[i + d..i + d + n];
            x[..|s| - skip] == s[skip..] && x[|s| - skip] == NUL
  {
    var k, skip := |s|, d - w;
    SliceInMemory(m, i, b, w + skip, w + k);
    SliceOf(b, w, k, skip);
    FrontOf(m, i + d, n, k - skip);
  }

  lemma SliceOf(b: string, w: nat, k: nat, skip: nat)
    requires skip <= k && w + k <= |b|
    ensures b[w + skip..w + k] == b[w..w + k][skip..]
  {
  }

  lemma FrontOf(m: seq<char>, at: nat, n: nat, k: nat)
    requires k < n && at + n <= |m|
    ensures m[at..at + n][..k] == m[at..at + k] && m[at..at + n][k] == m[at + k]
  {
  }

  /** A component of at most 9 characters is read with its own length or with one of at least 10. */
  lemma NumberOfDigit(s: string)
    requires FirstDot(s) == |s| < 10
    ensures |s| == 0 ==> Number(s) == 0
    ensures Number(s) == |s| || Number(s) >= 10
  {
    BodyStep(s);
    hide Body, FirstDot;
    var k := |s|;
    assert Body(s) == Itoa(k) + s;
    AtoiFront(k, s);
    AtoiGrows(Body(s), 1, k);
    if k > 0 {
      assert Body(s)[1] == s[0];
    }
  }

  /** Different names that are read exactly have different mangled forms. */
  lemma MangleInjective(s: string, t: string)
    requires NUL !in s && NUL !in t && ExactName(s) && ExactName(t) && Mangled(s) == Mangled(t)
    ensures s == t
  {
    var m := Mangled(s) + [NUL];
    assert Body(s) == Mangled(s)[1..] == Mangled(t)[1..] == Body(t);
    assert m[1..1 + |Body(s)|] == Body(s);
    ExactIsReadable(m, 1, s);
    ExactComesBack(s);
    ExactComesBack(t);
    DemangleBoundary(m, 1, s);
    DemangleBoundary(m, 1, t);
  }

  lemma {:induction false} DigitsEnd(m: seq<char>, i: nat, j: nat)
    requires i <= j < |m| && !IsDigit(m[j])
    ensures NumberEnds(m, i)
    decreases j - i
  {
    if i < j {
      DigitsEnd(m, i + 1, j);
    }
  }

  /** Reading exact names never leaves the memory that holds them. */
  lemma {:induction false} ExactIsReadable(m: seq<char>, i: nat, s: string)
    requires ExactName(s) && HoldsAt(m, i, Body(s))
    ensures Readable(m, i) && Text(m, i) != []
    decreases |s|
  {
    hide Body, FirstDot, Atoi, NumberEnds;
    FirstInMemory(m, i, s);
    DigitsEnd(m, i, i + |Body(s)|);
    var k := FirstDot(s);
    var next := i + Width(k) + k;
    if k < |s| {
      ExactIsReadable(m, next, s[k + 1..]);
    } else {
      DigitsEnd(m, next, next);
      NothingThere(m, next);
    }
  }

  lemma NothingThere(m: seq<char>, i: nat)
    requires i < |m| && m[i] == NUL
    ensures Atoi(m, i, 0) == 0
  {
  }

  /** A name of three characters that comes back as something else: its first component starts with a digit. */
  lemma LeadingDigitBreaks()
    ensures Mangled("1a") == "M21a" && Number("1a") == 21 && !ComesBack("1a")
  {
    var s := "1a";
    assert FirstDot(s) == 2 by {
      assert s[1..] == "a" && s[1..][1..] == "";
    }
    assert s[..2] == s && Itoa(2) == "2";
    var m := Body(s);
    assert m == "21a";
    assert Atoi(m, 0, 0) == Atoi(m, 1, 2) == Atoi(m, 2, 21) == 21;
  }

  // ---------------------------------------------------------------- the two functions

  /** mangle: writes length and characters of one component after another. */
  method Mangle(s: string, buf: array<char>)
    requires |Mangled(s)| < buf.Length
    modifies buf
    ensures Holds(buf[..], Mangled(s))
  {
    hide Body, Itoa, FirstDot;
    buf[0] := 'M';
    var inp: nat, out: nat := 0, 1;
    var more := true;
    assert s[0..] == s;
    while more
      invariant 1 <= out < buf.Length
      invariant more ==> inp <= |s| && Mangled(s) == buf[..out] + Body(s[inp..])
      invariant !more ==> Mangled(s) == buf[..out]
      decreases more, |s| - inp
    {
      var len := FirstDot(s[inp..]);
      more := inp + len < |s|;
      ghost var before, left := buf[..out], s[inp..];
      BodyStep(left);
      BodyParts(left);
      assert left[..len] == s[inp..inp + len];
      out := WriteComponent(buf, out, len, s[inp..inp + len]);
      Regroup(before, Itoa(len)[..Width(len)], left[..len], if more then Body(left[len + 1..]) else "");
      assert more ==> left[len + 1..] == s[inp + len + 1..];
      inp := inp + len + 1;
    }
    buf[out] := NUL;
    assert buf[..][0..out] == buf[..out];
  }

  lemma Regroup(before: string, x: string, y: string, z: string)
    ensures before + (x + y + z) == before + x + y + z && x + y + "" == x + y
  {
  }

  /** One turn: the length with its NUL, then the name over what does not count of it. */
  method WriteComponent(buf: array<char>, at: nat, len: nat, name: string) returns (out: nat)
    requires len == |name| && at + Width(len) + len < buf.Length
    modifies buf
    ensures out == at + Width(len) + len
    ensures buf[..out] == old(buf[..at]) + Itoa(len)[..Width(len)] + name
  {
    DigitCount(len);
    Paste(buf, at, Itoa(len) + [NUL]);
    hide Itoa;
    ghost var b := buf[..];
    assert b[..at + Width(len)] == old(buf[..at]) + Itoa(len)[..Width(len)];
    out := at + 1 + (if len > 9 then 1 else 0);
    Paste(buf, out, name);
    out := out + len;
  }

  lemma {:induction false} DigitCount(n: nat)
    ensures |Itoa(n)| <= Width(n) + n && (n >= 10 ==> |Itoa(n)| <= n)
  {
    if n >= 10 {
      DigitCount(n / 10);
    }
  }

  /** Copies `text` to place `at`. */
  method Paste(buf: array<char>, at: nat, text: string)
    requires at + |text| <= buf.Length
    modifies buf
    ensures buf[..] == old(buf[..at]) + text + old(buf[at + |text|..])
  {
    for i := 0 to |text|
      invariant buf[..at + i] == old(buf[..at]) + text[..i]
      invariant buf[at + i..] == old(buf[at + i..])
    {
      buf[at + i] := text[i];
    }
  }

  /** The number at place `i`. */
  method ReadNumber(src: array<char>, i: nat) returns (n: nat)
    requires NumberEnds(src[..], i)
    ensures n == Atoi(src[..], i, 0)
  {
    n := 0;
    var k := i;
    while IsDigit(src[k])
      invariant i <= k && NumberEnds(src[..], k) && Atoi(src[..], i, 0) == Atoi(src[..], k, n)
      decreases src.Length - k
    {
      n := n * 10 + ((src[k] as int) - ('0' as int));
      k := k + 1;
    }
  }

  /** demangle.  It may read the very buffer it writes: the place written stays strictly behind the place read.
      What is not mangled to begin with is returned as it is. */
  method Demangle(src: array<char>, buf: array<char>) returns (r: array<char>)
    requires src.Length > 1
    requires IsDigit(src[1]) ==> Readable(src[..], 1) && Text(src[..], 1) != [] && |Text(src[..], 1)| <= buf.Length
    modifies buf
    ensures old(IsDigit(src[1])) ==>
              var t := Text(old(src[..]), 1);
              r == buf && buf[..] == t[..|t| - 1] + [NUL] + old(buf[..])[|t|..]
    ensures !old(IsDigit(src[1])) ==> r == src && buf[..] == old(buf[..])
  {
    if !IsDigit(src[1]) {
      return src;
    }
    ghost var m, b0 := src[..], buf[..];
    hide Text, Readable, Atoi, NumberEnds;
    var inp: nat, out: nat := 1, 0;
    assert Writing(m, b0, src[..], buf[..], inp, out);
    hide Writing;
    NumberHere(m, b0, src[..], buf[..], inp, out);
    var len := ReadNumber(src, inp);
    while len != 0
      invariant Writing(m, b0, src[..], buf[..], inp, out) && inp <= src.Length && len == Atoi(m, inp, 0)
      decreases src.Length - inp
    {
      inp, out := DemangleOne(src, buf, inp, out, len, m, b0);
      NumberHere(m, b0, src[..], buf[..], inp, out);
      len := ReadNumber(src, inp);
    }
    AllWritten(m, b0, src[..], buf[..], inp, out);
    ghost var t := Text(m, 1);
    ghost var b := buf[..];
    buf[out - 1] := NUL;
    WithEnd(b, t, b0, buf[..]);
    r := buf;
  }

  lemma AllWritten(m: seq<char>, b0: seq<char>, src: seq<char>, buf: seq<char>, inp: nat, out: nat)
    requires Writing(m, b0, src, buf, inp, out) && Atoi(m, inp, 0) == 0
    ensures Readable(m, 1) && out == |Text(m, 1)| <= |buf| && buf[..out] == Text(m, 1) && buf[out..] == b0[out..]
  {
    hide Text, Readable, Atoi;
    TextStep(m, inp);
  }

  /** What demangle's outer loop keeps: memory `m` is still as it was from `inp` on, and what has been written is
      the text without what is still to come. */
  ghost predicate Writing(m: seq<char>, b0: seq<char>, src: seq<char>, buf: seq<char>, inp: nat, out: nat) {
    && |src| == |m| && |buf| == |b0| && out < inp <= |m| && out <= |buf|
    && Readable(m, 1) && Readable(m, inp) && |Text(m, 1)| <= |buf|
    && src[inp..] == m[inp..] && buf[out..] == b0[out..]
    && Text(m, 1) == buf[..out] + Text(m, inp)
  }

  lemma {:induction false} AtoiTail(a: seq<char>, b: seq<char>, i: nat, j: nat, read: nat)
    requires |a| == |b| && i <= j <= |a| && a[i..] == b[i..]
    ensures Atoi(a, j, read) == Atoi(b, j, read) && (NumberEnds(a, j) <==> NumberEnds(b, j))
    decreases |a| - j
  {
    assert j < |a| ==> a[j] == a[i..][j - i] == b[i..][j - i] == b[j];
    if j < |a| && IsDigit(a[j]) {
      AtoiTail(a, b, i, j + 1, read * 10 + ((a[j] as int) - ('0' as int)));
    }
  }

  lemma NumberHere(m: seq<char>, b0: seq<char>, src: seq<char>, buf: seq<char>, inp: nat, out: nat)
    requires Writing(m, b0, src, buf, inp, out)
    ensures Atoi(src, inp, 0) == Atoi(m, inp, 0) && NumberEnds(src, inp) && inp <= |src|
  {
    hide Text;
    AtoiTail(m, src, inp, inp, 0);
  }

  /** One turn of demangle's outer loop, for a component of `len` characters. */
  method DemangleOne(
    src: array<char>, buf: array<char>, inp: nat, out: nat, len: nat, ghost m: seq<char>, ghost b0: seq<char>)
    returns (inp': nat, out': nat)
    requires Writing(m, b0, src[..], buf[..], inp, out) && len == Atoi(m, inp, 0) != 0
    modifies buf
    ensures Writing(m, b0, src[..], buf[..], inp', out') && inp' > inp
  {
    hide Writing, Text, Readable, Atoi;
    ghost var a, b := src[..], buf[..];
    RoomFor(m, b0, a, b, inp, out, len);
    inp' := inp + 1 + (if len > 9 then 1 else 0);
    CopyComponent(src, buf, inp', out, len);
    inp', out' := inp' + len, out + len + 1;
    Wrote(m, b0, a, b, src[..], buf[..], inp, out, len);
  }

  /** A component and its dot. */
  method CopyComponent(src: array<char>, buf: array<char>, inp: nat, out: nat, len: nat)
    requires out < inp && inp + len <= src.Length && out + len < buf.Length
    modifies buf
    ensures buf[..] == old(buf[..out] + src[inp..inp + len] + "." + buf[out + len + 1..])
    ensures src[inp + len..] == old(src[inp + len..])
  {
    ghost var a, b := src[..], buf[..];
    MoveDown(src, buf, inp, out, len);
    ghost var mid := buf[..];
    buf[out + len] := '.';
    WithDot(b, a[inp..inp + len], out, mid, buf[..]);
    forall x | inp + len <= x < src.Length ensures src[x] == a[x] {
      if src == buf {
        assert src[x] == mid[x] == b[out + len..][x - (out + len)];
      }
    }
  }

  lemma RoomFor(m: seq<char>, b0: seq<char>, a: seq<char>, b: seq<char>, inp: nat, out: nat, len: nat)
    requires Writing(m, b0, a, b, inp, out) && len == Atoi(m, inp, 0) != 0
    ensures out < inp && inp + Width(len) + len <= |a| && out + len + 1 <= |b|
  {
    hide Text, Readable, Atoi;
    TextStep(m, inp);
  }

  lemma Wrote(
    m: seq<char>, b0: seq<char>, a: seq<char>, b: seq<char>, a': seq<char>, b': seq<char>, inp: nat, out: nat, len: nat)
    requires Writing(m, b0, a, b, inp, out) && len == Atoi(m, inp, 0) != 0 && |a'| == |a|
    requires var i := inp + Width(len); var o := out + len + 1;
             && i + len <= |a| && o <= |b|
             && b' == b[..out] + a[i..i + len] + "." + b[o..]
             && a'[i + len..] == a[i + len..]
    ensures Writing(m, b0, a', b', inp + Width(len) + len, out + len + 1)
  {
    hide Text, Readable, Atoi;
    TextStep(m, inp);
    var i, o := inp + Width(len), out + len + 1;
    SameTail(a, m, inp, i, i + len);
    SameTail(b, b0, out, o, o);
    var name := m[i..i + len];
    assert b'[..o] == b[..out] + name + ".";
    assert b'[o..] == b[o..];
    assert b[..out] + (name + "." + Text(m, i + len)) == b[..out] + name + "." + Text(m, i + len);
  }

  lemma SameTail(a: seq<char>, m: seq<char>, at: nat, i: nat, j: nat)
    requires |a| == |m| && at <= i <= j <= |a| && a[at..] == m[at..]
    ensures a[i..j] == m[i..j] && a[j..] == m[j..]
  {
    forall x | at <= x < |a| ensures a[x] == m[x] {
      assert a[at..][x - at] == m[at..][x - at];
    }
  }

  /** The end of the string, over the last dot. */
  lemma WithEnd(b: seq<char>, t: seq<char>, b0: seq<char>, now: seq<char>)
    requires 0 < |t| <= |b| == |b0| && b[..|t|] == t && b[|t|..] == b0[|t|..]
    requires now == b[|t| - 1 := NUL]
    ensures now == t[..|t| - 1] + [NUL] + b0[|t|..]
  {
    assert t[..|t| - 1] == b[..|t| - 1];
  }

  /** A name and a dot, over what was there. */
  lemma WithDot(b: seq<char>, name: seq<char>, out: nat, mid: seq<char>, now: seq<char>)
    requires out + |name| < |b| && mid == b[..out] + name + b[out + |name|..]
    requires now == mid[out + |name| := '.']
    ensures now == b[..out] + name + "." + b[out + |name| + 1..]
  {
  }

  /** demangle's inner loop: the component is copied, in the same buffer to the left, over what has been read. */
  method MoveDown(src: array<char>, buf: array<char>, inp: nat, out: nat, len: nat)
    requires out < inp && inp + len <= src.Length && out + len <= buf.Length
    modifies buf
    ensures buf[..] == old(buf[..out] + src[inp..inp + len] + buf[out + len..])
  {
    for i := 0 to len
      invariant forall j :: 0 <= j < buf.Length ==>
        buf[j] == if out <= j < out + i then old(src[j + (inp - out)]) else old(buf[j])
    {
      buf[out + i] := src[inp + i];
    }
    ghost var want := old(buf[..out] + src[inp..inp + len] + buf[out + len..]);
    assert forall j :: 0 <= j < buf.Length ==> buf[j] == want[j];
  }

  /** What the caller finds in the buffer afterwards. */
  lemma Demangled(m: seq<char>, b: seq<char>, tail: seq<char>, s: string)
    requires NUL !in s && Holds(m, Mangled(s)) && Readable(m, 1) && Text(m, 1) != []
    requires var t := Text(m, 1); b == t[..|t| - 1] + [NUL] + tail
    ensures CStr(b) == s <==> ComesBack(s)
  {
    hide Body, Text, Readable, Atoi;
    HoldsRest(m, 0, Mangled(s), 1);
    assert Mangled(s)[1..] == Body(s);
    DemangleBoundary(m, 1, s);
    var t := Text(m, 1);
    var most := t[..|t| - 1];
    var r := CStr(most);
    assert b == most + ([NUL] + tail);
    CStrIs(b, r);
  }

  /** Mangling into a buffer and demangling there gives back every name that is read exactly. */
  method RoundTrip(s: string, buf: array<char>)
    requires NUL !in s && ExactName(s) && |Mangled(s)| < buf.Length
    modifies buf
    ensures CStr(buf[..]) == s
  {
    Mangle(s, buf);
    ghost var m := buf[..];
    Mangles(m, s);
    var _ := Demangle(buf, buf);
    Demangled(m, buf[..], m[|Text(m, 1)|..], s);
    ExactComesBack(s);
  }

  /** An exact name in a buffer can be demangled there. */
  lemma Mangles(m: seq<char>, s: string)
    requires NUL !in s && ExactName(s) && Holds(m, Mangled(s))
    ensures |m| > 1 && IsDigit(m[1]) && Readable(m, 1) && Text(m, 1) != [] && |Text(m, 1)| <= |m|
  {
    hide Body, Text, Readable, Atoi, ExactName;
    HoldsRest(m, 0, Mangled(s), 1);
    assert Mangled(s)[1..] == Body(s);
    ExactIsReadable(m, 1, s);
    StartsWithDigit(s);
    TextFits(m, 1);
    assert m[1] == m[0 + 1] == Mangled(s)[1] == Body(s)[0];
  }

  lemma StartsWithDigit(s: string)
    ensures |Body(s)| > 0 && IsDigit(Body(s)[0])
  {
    BodyStep(s);
    hide Body, FirstDot;
    DigitsOf(FirstDot(s));
  }

  lemma {:induction false} TextFits(m: seq<char>, i: nat)
    requires Readable(m, i)
    ensures i <= |m| && |Text(m, i)| <= |m| - i
    decreases |m| - i
  {
    hide Atoi;
    var n := Atoi(m, i, 0);
    if n != 0 {
      TextFits(m, i + Width(n) + n);
    }
  }
}
