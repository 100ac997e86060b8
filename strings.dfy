/** The JavaScript string and array operations the presence script relies on:
    `String.prototype.split` with a literal separator, `Array.prototype.join`
    and the default `Array.prototype.sort` of strings. */
module Strings {

  /** `sep` occurs in `s` at position `i`. */
  predicate OccursAt(s: string, sep: string, i: nat)
  {
    i + |sep| <= |s| && s[i..i + |sep|] == sep
  }

  /** `s.split(sep)` for a non-empty literal separator: the pieces between the
      occurrences of `sep`, found left to right without overlap. The empty
      string splits into one empty piece. */
  function Split(s: string, sep: string): (pieces: seq<string>)
    requires sep != ""
    ensures |pieces| >= 1
    decreases |s|
  {
    if s == [] then [""]
    else if OccursAt(s, sep, 0) then [""] + Split(s[|sep|..], sep)
    else
      var rest := Split(s[1..], sep);
      [[s[0]] + rest[0]] + rest[1..]
  }

  /** The pieces with the separator between each two of them, as a JavaScript
      array join gives them. */
  function Join(xs: seq<string>, sep: string): string
  {
    if xs == [] then ""
    else if |xs| == 1 then xs[0]
    else xs[0] + sep + Join(xs[1..], sep)
  }

  /** Adding one more piece at the end of a join. */
  lemma {:induction false} JoinSnoc(xs: seq<string>, x: string, sep: string)
    requires xs != []
    ensures Join(xs + [x], sep) == Join(xs, sep) + sep + x
  {
    if |xs| == 1 {
      assert (xs + [x])[1..] == [x];
    } else {
      assert (xs + [x])[1..] == xs[1..] + [x];
      JoinSnoc(xs[1..], x, sep);
    }
  }

  /** A piece with no character equal to the separator's first one. */
  predicate FreeOf(x: string, sep: string)
    requires sep != ""
  {
    forall i :: 0 <= i < |x| ==> x[i] != sep[0]
  }

  /** Splitting a piece free of the separator, followed by the separator or
      by nothing. */
  lemma {:induction false} SplitPiece(x: string, sep: string, tail: string)
    requires sep != "" && FreeOf(x, sep)
    ensures Split(x + sep + tail, sep) == [x] + Split(tail, sep)
    decreases |x|
  {
    if x == [] {
      assert x + sep + tail == sep + tail;
      assert (sep + tail)[|sep|..] == tail;
      assert OccursAt(sep + tail, sep, 0);
    } else {
      var s := x + sep + tail;
      assert s[0] == x[0] && x[0] != sep[0];
      assert !OccursAt(s, sep, 0);
      assert s[1..] == x[1..] + sep + tail;
      SplitPiece(x[1..], sep, tail);
      assert [s[0]] + x[1..] == x;
    }
  }

  lemma {:induction false} SplitAlone(x: string, sep: string)
    requires sep != "" && FreeOf(x, sep)
    ensures Split(x, sep) == [x]
    decreases |x|
  {
    if x != [] {
      assert x[0] != sep[0];
      assert !OccursAt(x, sep, 0);
      SplitAlone(x[1..], sep);
      assert [x[0]] + x[1..] == x;
    }
  }

  /** Splitting a join gives the pieces back, provided no piece contains the
      separator's first character. */
  lemma {:induction false} SplitJoin(xs: seq<string>, sep: string)
    requires sep != "" && xs != []
    requires forall k :: 0 <= k < |xs| ==> FreeOf(xs[k], sep)
    ensures Split(Join(xs, sep), sep) == xs
  {
    if |xs| == 1 {
      SplitAlone(xs[0], sep);
    } else {
      SplitJoin(xs[1..], sep);
      SplitPiece(xs[0], sep, Join(xs[1..], sep));
    }
  }

  /** JavaScript's default string order: lexicographic by character code.
      (All names the script sorts are cleaned to characters below U+00FD, where
      UTF-16 code units and Unicode scalar values agree.) */
  predicate StrLe(a: string, b: string)
    decreases |a|
  {
    a == [] || (b != [] && (a[0] < b[0] || (a[0] == b[0] && StrLe(a[1..], b[1..]))))
  }

  lemma {:induction false} StrLeRefl(a: string)
    ensures StrLe(a, a)
    decreases |a|
  {
    if a != [] {
      StrLeRefl(a[1..]);
    }
  }

  lemma {:induction false} StrLeTotal(a: string, b: string)
    ensures StrLe(a, b) || StrLe(b, a)
    decreases |a|
  {
    if a != [] && b != [] && a[0] == b[0] {
      StrLeTotal(a[1..], b[1..]);
    }
  }

  lemma {:induction false} StrLeTrans(a: string, b: string, c: string)
    requires StrLe(a, b) && StrLe(b, c)
    ensures StrLe(a, c)
    decreases |a|
  {
    if a != [] && a[0] == b[0] && b[0] == c[0] {
      StrLeTrans(a[1..], b[1..], c[1..]);
    }
  }

  lemma {:induction false} StrLeAntisym(a: string, b: string)
    requires StrLe(a, b) && StrLe(b, a)
    ensures a == b
    decreases |a|
  {
    if a != [] {
      StrLeAntisym(a[1..], b[1..]);
      assert a == [a[0]] + a[1..] && b == [b[0]] + b[1..];
    }
  }

  predicate Sorted(xs: seq<string>)
  {
    forall i, j :: 0 <= i < j < |xs| ==> StrLe(xs[i], xs[j])
  }

  /** Putting an element below all others in front keeps a sequence sorted. */
  lemma ConsSorted(y: string, ys: seq<string>)
    requires Sorted(ys) && forall k :: 0 <= k < |ys| ==> StrLe(y, ys[k])
    ensures Sorted([y] + ys)
  {
    var r := [y] + ys;
    forall i, j | 0 <= i < j < |r| ensures StrLe(r[i], r[j]) {
      assert r[j] == ys[j - 1];
      if i > 0 {
        assert r[i] == ys[i - 1];
      }
    }
  }

  /** An element below the head of a sorted sequence is below all of it. */
  lemma BelowHead(x: string, xs: seq<string>)
    requires Sorted(xs) && xs != [] && StrLe(x, xs[0])
    ensures forall j :: 0 <= j < |xs| ==> StrLe(x, xs[j])
  {
    forall j | 0 < j < |xs| ensures StrLe(x, xs[j]) {
      StrLeTrans(x, xs[0], xs[j]);
    }
  }

  /** The head of a sorted sequence is below its tail. */
  lemma HeadBelowTail(xs: seq<string>)
    requires Sorted(xs) && xs != []
    ensures forall j :: 0 <= j < |xs[1..]| ==> StrLe(xs[0], xs[1..][j])
  {
    forall j | 0 <= j < |xs[1..]| ensures StrLe(xs[0], xs[1..][j]) {
      assert xs[1..][j] == xs[j + 1];
    }
  }

  /** What is below every element and below `x` is below every element after
      `x` is added. */
  lemma BelowAdded(h: string, x: string, xs: seq<string>, r: seq<string>)
    requires forall j :: 0 <= j < |xs| ==> StrLe(h, xs[j])
    requires StrLe(h, x) && multiset(r) == multiset(xs) + multiset{x}
    ensures forall k :: 0 <= k < |r| ==> StrLe(h, r[k])
  {
    forall k | 0 <= k < |r| ensures StrLe(h, r[k]) {
      assert r[k] in multiset(r);
      assert r[k] == x || r[k] in xs;
    }
  }

  /** Inserting `x` into a sorted sequence before its first larger element. */
  function Insert(x: string, xs: seq<string>): (r: seq<string>)
    requires Sorted(xs)
    ensures Sorted(r)
    ensures multiset(r) == multiset(xs) + multiset{x}
    decreases |xs|
  {
    if xs == [] then [x]
    else if StrLe(x, xs[0]) then
      BelowHead(x, xs);
      ConsSorted(x, xs);
      [x] + xs
    else
      StrLeTotal(x, xs[0]);
      var rest := Insert(x, xs[1..]);
      assert xs == [xs[0]] + xs[1..];
      HeadBelowTail(xs);
      BelowAdded(xs[0], x, xs[1..], rest);
      ConsSorted(xs[0], rest);
      [xs[0]] + rest
  }

  /** The array of strings after `sort()`: a sorted permutation. */
  function SortStrings(xs: seq<string>): (r: seq<string>)
    ensures Sorted(r)
    ensures multiset(r) == multiset(xs)
    decreases |xs|
  {
    if xs == [] then []
    else
      assert xs == [xs[0]] + xs[1..];
      Insert(xs[0], SortStrings(xs[1..]))
  }

  /** The first element of a sorted sequence is below every element. */
  lemma SortedHeadLeast(a: seq<string>, x: string)
    requires Sorted(a) && x in multiset(a)
    ensures StrLe(a[0], x)
  {
    var i :| 0 <= i < |a| && a[i] == x;
    if i == 0 { StrLeRefl(x); }
  }

  lemma TailMultiset(a: seq<string>)
    requires a != []
    ensures multiset(a[1..]) == multiset(a) - multiset{a[0]}
  {
    assert a == [a[0]] + a[1..];
  }

  /** Only one ordering of a multiset of strings is sorted, so any correct
      sorting algorithm (the engine's stable sort included) gives SortStrings. */
  lemma {:induction false} SortedUnique(a: seq<string>, b: seq<string>)
    requires Sorted(a) && Sorted(b) && multiset(a) == multiset(b)
    ensures a == b
    decreases |a|
  {
    assert |multiset(a)| == |a| && |multiset(b)| == |b|;
    if a != [] {
      assert a[0] in multiset(b) && b[0] in multiset(a);
      SortedHeadLeast(a, b[0]);
      SortedHeadLeast(b, a[0]);
      StrLeAntisym(a[0], b[0]);
      TailMultiset(a);
      TailMultiset(b);
      SortedUnique(a[1..], b[1..]);
      assert a == [a[0]] + a[1..] && b == [b[0]] + b[1..];
    }
  }
}
