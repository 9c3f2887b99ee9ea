/**
 The parts of Go's standard library that the deployment code leans on, written out:
 the order `<` on strings (used by `sort.Strings`), `strings.SplitN` with a one-character
 separator, decimal formatting of a natural number (`fmt.Sprintf("%d")`), and sorting.
 Dafny's `char` is a Unicode scalar value and UTF-8 preserves code-point order, so
 comparing code points agrees with Go's byte-wise comparison of the UTF-8 encodings.
 */
module GoStrings {
  import opened Options

  // ---------------------------------------------------------------------------
  // String order
  // ---------------------------------------------------------------------------

  /** Go's `a < b` on strings: lexicographic, a proper prefix sorts first. */
  predicate Less(a: string, b: string)
    decreases |a|
  {
    if a == [] then b != []
    else if b == [] then false
    else if a[0] != b[0] then a[0] < b[0]
    else Less(a[1..], b[1..])
  }

  lemma {:induction false} LessIrreflexive(a: string)
    ensures !Less(a, a)
    decreases |a|
  {
    if a != [] {
      LessIrreflexive(a[1..]);
    }
  }

  lemma {:induction false} LessTransitive(a: string, b: string, c: string)
    requires Less(a, b) && Less(b, c)
    ensures Less(a, c)
    decreases |a|
  {
    if a != [] && b != [] && c != [] && a[0] == b[0] && b[0] == c[0] {
      LessTransitive(a[1..], b[1..], c[1..]);
    }
  }

  lemma {:induction false} LessTotal(a: string, b: string)
    requires a != b
    ensures Less(a, b) || Less(b, a)
    decreases |a|
  {
    if a != [] && b != [] && a[0] == b[0] {
      assert a == [a[0]] + a[1..] && b == [b[0]] + b[1..];
      LessTotal(a[1..], b[1..]);
    }
  }

  lemma {:induction false} LessAsymmetric(a: string, b: string)
    requires Less(a, b)
    ensures !Less(b, a)
    decreases |a|
  {
    if a != [] && b != [] && a[0] == b[0] {
      LessAsymmetric(a[1..], b[1..]);
    }
  }

  /** Ascending order, as `sort.Strings` leaves a slice (equal elements may repeat). */
  ghost predicate Sorted(s: seq<string>)
  {
    forall i, j :: 0 <= i < j < |s| ==> !Less(s[j], s[i])
  }

  /** Ascending order without repetitions. */
  ghost predicate StrictlySorted(s: seq<string>)
  {
    forall i, j :: 0 <= i < j < |s| ==> Less(s[i], s[j])
  }

  lemma StrictlySortedIsSorted(s: seq<string>)
    requires StrictlySorted(s)
    ensures Sorted(s)
  {
    forall i, j | 0 <= i < j < |s| ensures !Less(s[j], s[i]) {
      LessAsymmetric(s[i], s[j]);
    }
  }

  lemma MultisetTail(r: seq<string>)
    requires r != []
    ensures multiset(r[1..]) == multiset(r) - multiset{r[0]}
  {
    assert r == [r[0]] + r[1..];
  }

  lemma SortedTail(r: seq<string>)
    requires r != [] && Sorted(r)
    ensures Sorted(r[1..])
  {
    forall i, j | 0 <= i < j < |r| - 1 ensures !Less(r[1..][j], r[1..][i]) {
      assert r[1..][j] == r[j + 1] && r[1..][i] == r[i + 1];
    }
  }

  /** The first element of an ascending sequence is not greater than any element in it. */
  lemma SortedHead(r: seq<string>, x: string)
    requires r != [] && Sorted(r) && x in multiset(r)
    ensures !Less(x, r[0])
  {
    var j :| 0 <= j < |r| && r[j] == x;
    if j == 0 { LessIrreflexive(x); }
  }

  /** Two ascending sequences with the same elements, counted with multiplicity, are equal:
      the result of sorting does not depend on the order the input came in. */
  lemma {:induction false} SortedUnique(r1: seq<string>, r2: seq<string>)
    requires Sorted(r1) && Sorted(r2)
    requires multiset(r1) == multiset(r2)
    ensures r1 == r2
    decreases |r1|
  {
    if r1 == [] {
      assert |multiset(r2)| == 0;
    } else {
      assert r1[0] in multiset(r2);
      assert r2 != [];
      SortedHead(r2, r1[0]);
      SortedHead(r1, r2[0]);
      if r1[0] != r2[0] {
        LessTotal(r1[0], r2[0]);
      }
      MultisetTail(r1);
      MultisetTail(r2);
      SortedTail(r1);
      SortedTail(r2);
      SortedUnique(r1[1..], r2[1..]);
      assert r1 == [r1[0]] + r1[1..] && r2 == [r2[0]] + r2[1..];
    }
  }

  ghost predicate IsLeast(m: string, s: set<string>)
  {
    m in s && forall x :: x in s && x != m ==> Less(m, x)
  }

  lemma {:induction false} LeastExists(s: set<string>)
    requires s != {}
    ensures exists m :: IsLeast(m, s)
    decreases |s|
  {
    var y :| y in s;
    if s == {y} {
      assert IsLeast(y, s);
    } else {
      LeastExists(s - {y});
      var m :| IsLeast(m, s - {y});
      if Less(y, m) {
        forall x | x in s && x != y ensures Less(y, x) {
          if x != m { LessTransitive(y, m, x); }
        }
        assert IsLeast(y, s);
      } else {
        LessTotal(y, m);
        assert IsLeast(m, s);
      }
    }
  }

  /** The least element of a non-empty set of strings. */
  ghost function SetMin(s: set<string>): (m: string)
    requires s != {}
    ensures IsLeast(m, s)
  {
    LeastExists(s);
    var m :| IsLeast(m, s); m
  }

  /** The elements of a set of strings in ascending order: what `sort.Strings` makes of the
      keys of a Go map, whatever order the map iteration produced them in. */
  ghost function SortedKeys(s: set<string>): (r: seq<string>)
    ensures multiset(r) == multiset(s)
    ensures forall x :: x in r <==> x in s
    decreases |s|
  {
    if s == {} then []
    else
      var m := SetMin(s);
      assert multiset(s) == multiset{m} + multiset(s - {m}) by {
        assert s == {m} + (s - {m});
      }
      [m] + SortedKeys(s - {m})
  }

  lemma {:induction false} SortedKeysStrictlySorted(s: set<string>)
    ensures StrictlySorted(SortedKeys(s))
    decreases |s|
  {
    if s != {} {
      var m := SetMin(s);
      SortedKeysStrictlySorted(s - {m});
      var r := SortedKeys(s);
      assert r == [m] + SortedKeys(s - {m});
      forall i, j | 0 <= i < j < |r| ensures Less(r[i], r[j]) {
        if i == 0 {
          assert r[j] in SortedKeys(s - {m});
        } else {
          assert r[i] == SortedKeys(s - {m})[i - 1] && r[j] == SortedKeys(s - {m})[j - 1];
        }
      }
    }
  }

  /** Sorting the elements of a set, in whatever order they are listed, gives `SortedKeys`. */
  lemma SortedIsSortedKeys(r: seq<string>, s: set<string>)
    requires Sorted(r) && multiset(r) == multiset(s)
    ensures r == SortedKeys(s)
  {
    SortedKeysStrictlySorted(s);
    StrictlySortedIsSorted(SortedKeys(s));
    SortedUnique(r, SortedKeys(s));
  }

  /** Inserts `x` into an ascending sequence, before the first element not smaller than it. */
  function Insert(r: seq<string>, x: string): (res: seq<string>)
    requires Sorted(r)
    ensures Sorted(res)
    ensures multiset(res) == multiset(r) + multiset{x}
    ensures res[0] == x || (r != [] && res[0] == r[0])
  {
    if r == [] || !Less(r[0], x) then
      NoneBelow(r, x);
      SortedCons(x, r);
      [x] + r
    else
      var tail := Insert(r[1..], x);
      SortedTail(r);
      TailNotBelowHead(r, x, tail);
      SortedCons(r[0], tail);
      assert r == [r[0]] + r[1..];
      [r[0]] + tail
  }

  lemma SortedCons(h: string, t: seq<string>)
    requires Sorted(t)
    requires forall k :: 0 <= k < |t| ==> !Less(t[k], h)
    ensures Sorted([h] + t)
  {
    var s := [h] + t;
    forall i, j | 0 <= i < j < |s| ensures !Less(s[j], s[i]) {
      if i > 0 {
        assert s[i] == t[i - 1] && s[j] == t[j - 1];
      } else {
        assert s[j] == t[j - 1];
      }
    }
  }

  /** If the head of an ascending sequence is not smaller than `x`, nothing in it is. */
  lemma NoneBelow(r: seq<string>, x: string)
    requires Sorted(r) && (r == [] || !Less(r[0], x))
    ensures forall j :: 0 <= j < |r| ==> !Less(r[j], x)
  {
    forall j | 0 <= j < |r| ensures !Less(r[j], x) {
      if j > 0 && Less(r[j], x) {
        if r[j] != r[0] { LessTotal(r[j], r[0]); }
        if Less(r[0], r[j]) { LessTransitive(r[0], r[j], x); }
      }
    }
  }

  /** Inserting `x`, larger than the head, into the rest keeps everything above the head. */
  lemma TailNotBelowHead(r: seq<string>, x: string, tail: seq<string>)
    requires r != [] && Sorted(r) && Less(r[0], x)
    requires multiset(tail) == multiset(r[1..]) + multiset{x}
    ensures forall k :: 0 <= k < |tail| ==> !Less(tail[k], r[0])
  {
    LessAsymmetric(r[0], x);
    forall k | 0 <= k < |tail| ensures !Less(tail[k], r[0]) {
      assert tail[k] in multiset(tail);
      if tail[k] != x {
        assert tail[k] in multiset(r[1..]);
        var m :| 0 <= m < |r[1..]| && r[1..][m] == tail[k];
        assert r[m + 1] == tail[k];
      }
    }
  }

  /** `sort.Strings`: an ascending permutation of the input. */
  method SortStrings(xs: seq<string>) returns (r: seq<string>)
    ensures Sorted(r)
    ensures multiset(r) == multiset(xs)
  {
    r := [];
    for i := 0 to |xs|
      invariant Sorted(r)
      invariant multiset(r) == multiset(xs[..i])
    {
      assert xs[..i + 1] == xs[..i] + [xs[i]];
      r := Insert(r, xs[i]);
    }
    assert xs[..|xs|] == xs;
  }

  // ---------------------------------------------------------------------------
  // strings.Index and strings.SplitN with a one-character separator
  // ---------------------------------------------------------------------------

  /** `strings.IndexByte`: the position of the first `c` in `s`, if any. */
  function IndexOf(s: string, c: char): (r: Option<nat>)
    ensures r.None? <==> c !in s
    ensures r.Some? ==> r.value < |s| && s[r.value] == c && c !in s[..r.value]
  {
    if s == [] then None
    else if s[0] == c then Some(0)
    else match IndexOf(s[1..], c)
      case None => None
      case Some(k) =>
        assert s[..k + 1] == [s[0]] + s[1..][..k];
        Some(k + 1)
  }

  /** `strings.SplitN(s, string(sep), n)` for `n >= 1`: at most `n` pieces, cut at the first
      `n - 1` separators; the last piece keeps the rest of the string. */
  function SplitN(s: string, sep: char, n: nat): (parts: seq<string>)
    requires n >= 1
    ensures 1 <= |parts| <= n
    decreases n
  {
    var at := IndexOf(s, sep);
    if n == 1 || at.None? then [s]
    else [s[..at.value]] + SplitN(s[at.value + 1..], sep, n - 1)
  }

  /** Splitting at the first separator, the case `SplitN(s, sep, 2)` exercises. */
  lemma SplitTwo(s: string, sep: char)
    ensures var parts := SplitN(s, sep, 2);
      && sep !in parts[0]
      && (sep !in s ==> parts == [s])
      && (sep in s ==> |parts| == 2 && s == parts[0] + [sep] + parts[1])
  {
    match IndexOf(s, sep)
    case None =>
    case Some(k) =>
      CutAt(s, k);
  }

  /** When `h` holds no `c`, the first `c` of `h + [c] + rest` is the one right after `h`. */
  lemma IndexOfAfter(h: string, c: char, rest: string)
    requires c !in h
    ensures IndexOf(h + [c] + rest, c) == Some(|h|)
  {
    var s := h + [c] + rest;
    assert s[|h|] == c;
  }

  /** Splitting `h + [c] + rest` cuts off `h` first. */
  lemma SplitNAfter(h: string, c: char, rest: string, n: nat)
    requires c !in h && n > 1
    ensures SplitN(h + [c] + rest, c, n) == [h] + SplitN(rest, c, n - 1)
  {
    var s := h + [c] + rest;
    IndexOfAfter(h, c, rest);
    assert s[..|h|] == h;
    assert s[|h| + 1..] == rest;
  }

  /** A string without the separator is a single piece. */
  lemma SplitNWithout(s: string, c: char, n: nat)
    requires c !in s && n >= 1
    ensures SplitN(s, c, n) == [s]
  {
  }

  /** Cutting at the first separator is unambiguous. */
  lemma FirstSeparatorUnique(a: string, b: string, c: string, d: string, sep: char)
    requires sep !in a && sep !in c && a + [sep] + b == c + [sep] + d
    ensures a == c && b == d
  {
    IndexOfAfter(a, sep, b);
    IndexOfAfter(c, sep, d);
    var s := a + [sep] + b;
    assert a == s[..|a|] && c == s[..|c|];
    assert b == s[|a| + 1..] && d == s[|c| + 1..];
  }

  /** Joining the pieces with the separator gives the string back. */
  function Join(parts: seq<string>, sep: char): (s: string)
    requires |parts| >= 1
  {
    if |parts| == 1 then parts[0] else parts[0] + [sep] + Join(parts[1..], sep)
  }

  /** SplitN loses nothing: joining its pieces restores the input. */
  lemma {:induction false} SplitNJoin(s: string, sep: char, n: nat)
    requires n >= 1
    ensures Join(SplitN(s, sep, n), sep) == s
    decreases n
  {
    if n > 1 && IndexOf(s, sep).Some? {
      var k := IndexOf(s, sep).value;
      var rest := SplitN(s[k + 1..], sep, n - 1);
      SplitNJoin(s[k + 1..], sep, n - 1);
      SplitNStep(s, sep, n);
      JoinCons(s[..k], rest, sep);
      CutAt(s, k);
    }
  }

  /** A string is the part before position `k`, the character there, and the part after. */
  lemma CutAt(s: string, k: nat)
    requires k < |s|
    ensures s == s[..k] + [s[k]] + s[k + 1..]
  {
  }

  /** One step of SplitN: the piece before the first separator, then the split of the rest. */
  lemma SplitNStep(s: string, sep: char, n: nat)
    requires n > 1 && IndexOf(s, sep).Some?
    ensures var k := IndexOf(s, sep).value;
            SplitN(s, sep, n) == [s[..k]] + SplitN(s[k + 1..], sep, n - 1)
  {
  }

  lemma JoinCons(a: string, rest: seq<string>, sep: char)
    requires |rest| >= 1
    ensures Join([a] + rest, sep) == a + [sep] + Join(rest, sep)
  {
    assert ([a] + rest)[1..] == rest;
  }

  /** Every piece but the last is free of the separator. */
  lemma {:induction false} SplitNPieces(s: string, sep: char, n: nat, i: nat)
    requires n >= 1 && i < |SplitN(s, sep, n)| - 1
    ensures sep !in SplitN(s, sep, n)[i]
    decreases n
  {
    SplitNLong(s, sep, n);
    var k := IndexOf(s, sep).value;
    SplitNStep(s, sep, n);
    if i > 0 {
      SplitNPieces(s[k + 1..], sep, n - 1, i - 1);
    }
    PieceOf(s[..k], SplitN(s[k + 1..], sep, n - 1), i);
  }

  /** More than one piece means a separator was found and cut at. */
  lemma SplitNLong(s: string, sep: char, n: nat)
    requires n >= 1 && |SplitN(s, sep, n)| > 1
    ensures n > 1 && IndexOf(s, sep).Some?
  {
  }

  lemma PieceOf(a: string, rest: seq<string>, i: nat)
    requires i <= |rest|
    ensures ([a] + rest)[i] == if i == 0 then a else rest[i - 1]
  {
  }

  // ---------------------------------------------------------------------------
  // Decimal formatting
  // ---------------------------------------------------------------------------

  function DigitChar(d: nat): (c: char)
    requires d < 10
    ensures '0' <= c <= '9'
  {
    ['0', '1', '2', '3', '4', '5', '6', '7', '8', '9'][d]
  }

  /** `fmt.Sprintf("%d", n)` for a natural number: decimal digits, no leading zero. */
  function Itoa(n: nat): (s: string)
    ensures |s| >= 1
    ensures forall i :: 0 <= i < |s| ==> '0' <= s[i] <= '9'
    ensures n >= 10 ==> |s| >= 2
    ensures n < 10 ==> |s| == 1
  {
    if n < 10 then [DigitChar(n)] else Itoa(n / 10) + [DigitChar(n % 10)]
  }

  lemma DigitCharInjective(a: nat, b: nat)
    requires a < 10 && b < 10 && DigitChar(a) == DigitChar(b)
    ensures a == b
  {
  }

  /** Different numbers print differently. */
  lemma {:induction false} ItoaInjective(a: nat, b: nat)
    requires Itoa(a) == Itoa(b)
    ensures a == b
  {
    if a >= 10 && b >= 10 {
      var sa, sb := Itoa(a / 10), Itoa(b / 10);
      assert Itoa(a) == sa + [DigitChar(a % 10)];
      assert Itoa(b) == sb + [DigitChar(b % 10)];
      assert |sa| == |sb|;
      assert sa == Itoa(a)[..|sa|] && sb == Itoa(b)[..|sb|];
      DigitCharInjective(a % 10, b % 10);
      ItoaInjective(a / 10, b / 10);
    } else if a < 10 && b < 10 {
      DigitCharInjective(a, b);
    }
  }
}
