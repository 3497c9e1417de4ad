/**
 * The pieces of Go's `strings` and `slices` packages and of the `strcase`
 * library that the code generator relies on, stated over `string == seq<char>`.
 */
module Strings {

  /**
   * The camel-casing functions of the `strcase` library. Their word-splitting
   * rules are not part of this model, so they are carried around as
   * uninterpreted functions: every claim in the model holds for any choice.
   */
  datatype Casing = Casing(ToCamel: string -> string, ToLowerCamel: string -> string)

  /** `strings.Join`: the parts with `sep` between neighbours. */
  function Join(parts: seq<string>, sep: string): string
  {
    if parts == [] then ""
    else if |parts| == 1 then parts[0]
    else parts[0] + sep + Join(parts[1..], sep)
  }

  /** Appending one part adds exactly one separator (the step an append loop takes). */
  lemma {:induction false} JoinSnoc(parts: seq<string>, x: string, sep: string)
    ensures Join(parts + [x], sep) == if parts == [] then x else Join(parts, sep) + sep + x
  {
    if |parts| > 1 {
      assert (parts + [x])[1..] == parts[1..] + [x];
      JoinSnoc(parts[1..], x, sep);
    }
  }

  /** Two parts with one separator between them. */
  lemma JoinTwo(x: string, y: string, sep: string)
    ensures Join([x, y], sep) == x + sep + y
  {
    assert [x, y][1..] == [y];
  }

  /** Three parts joined by one separator. */
  lemma JoinThree(a: string, b: string, c: string, sep: string)
    ensures Join([a, b, c], sep) == a + sep + b + sep + c
  {
    assert [a, b, c][1..] == [b, c];
    JoinTwo(b, c, sep);
  }

  /** A joined list of at least two parts begins with its first part and a separator. */
  lemma JoinFront(parts: seq<string>, sep: string)
    requires |parts| >= 2
    ensures parts[0] + sep <= Join(parts, sep)
  {
    var rest := Join(parts[1..], sep);
    assert Join(parts, sep) == (parts[0] + sep) + rest;
    assert (parts[0] + sep + rest)[..|parts[0] + sep|] == parts[0] + sep;
  }

  /** `t` is a suffix of `s`. */
  predicate EndsWith(s: string, t: string)
  {
    |t| <= |s| && s[|s| - |t|..] == t
  }

  /** A joined list of at least two parts ends with a separator and its last part. */
  lemma JoinBack(parts: seq<string>, sep: string)
    requires |parts| >= 2
    ensures EndsWith(Join(parts, sep), sep + parts[|parts| - 1])
  {
    var last := parts[|parts| - 1];
    var pre := parts[..|parts| - 1];
    assert pre + [last] == parts;
    JoinSnoc(pre, last, sep);
    var whole := Join(pre, sep) + (sep + last);
    assert Join(parts, sep) == whole;
    assert whole[|whole| - |sep + last|..] == sep + last;
  }

  /** `"\"" + value + "\""`: a TypeScript string literal for `value`. */
  function Quote(value: string): string
  {
    "\"" + value + "\""
  }

  /** `p` occurs in `s` starting at index `i`. */
  ghost predicate OccursAt(s: string, p: string, i: nat)
  {
    i + |p| <= |s| && s[i..i + |p|] == p
  }

  /** `p` occurs somewhere in `s`. */
  ghost predicate Contains(s: string, p: string)
  {
    exists i: nat :: OccursAt(s, p, i)
  }

  /** An occurrence survives adding text on either side, shifted by what was added in front. */
  lemma ContainsWithin(a: string, s: string, b: string, p: string)
    requires Contains(s, p)
    ensures Contains(a + s + b, p)
  {
    var i: nat :| OccursAt(s, p, i);
    assert (a + s + b)[|a| + i..|a| + i + |p|] == s[i..i + |p|];
    assert OccursAt(a + s + b, p, |a| + i);
  }

  /** What occurs in a part of `t` occurs in `t`. */
  lemma ContainsTrans(t: string, s: string, p: string)
    requires Contains(t, s) && Contains(s, p)
    ensures Contains(t, p)
  {
    var j: nat :| OccursAt(t, s, j);
    var i: nat :| OccursAt(s, p, i);
    assert t[j..j + |s|] == s;
    forall n | 0 <= n < |p|
      ensures t[j + i + n] == p[n]
    {
      assert t[j + i + n] == t[j..j + |s|][i + n] == s[i + n] == s[i..i + |p|][n];
    }
    assert t[j + i..j + i + |p|] == p;
    assert OccursAt(t, p, j + i);
  }

  /** Every part occurs in the joined text. */
  lemma {:induction false} JoinContains(parts: seq<string>, sep: string, k: nat)
    requires k < |parts|
    ensures Contains(Join(parts, sep), parts[k])
  {
    if |parts| == 1 {
      assert parts[0][0..|parts[0]|] == parts[0];
      assert OccursAt(parts[0], parts[0], 0);
    } else {
      var rest := Join(parts[1..], sep);
      assert Join(parts, sep) == parts[0] + (sep + rest);
      if k == 0 {
        assert (parts[0] + (sep + rest))[0..|parts[0]|] == parts[0];
        assert OccursAt(Join(parts, sep), parts[0], 0);
      } else {
        JoinContains(parts[1..], sep, k - 1);
        ContainsWithin(parts[0] + sep, rest, "", parts[k]);
        assert parts[0] + sep + rest + "" == Join(parts, sep);
      }
    }
  }

  /**
   * `strings.Replace(s, p, "", 1)`: remove the first occurrence of `p`,
   * wherever it is in `s`; `s` itself when there is none.
   */
  function RemoveFirst(s: string, p: string): string
    decreases |s|
  {
    if |s| < |p| then s
    else if s[..|p|] == p then s[|p|..]
    else [s[0]] + RemoveFirst(s[1..], p)
  }

  /** Without an occurrence of `p`, `s` is returned unchanged. */
  lemma {:induction false} RemoveFirstAbsent(s: string, p: string)
    requires forall i: nat :: !OccursAt(s, p, i)
    ensures RemoveFirst(s, p) == s
    decreases |s|
  {
    if |s| >= |p| {
      assert !OccursAt(s, p, 0);
      assert s[..|p|] != p;
      forall i: nat ensures !OccursAt(s[1..], p, i) {
        assert !OccursAt(s, p, i + 1);
        if i + |p| <= |s[1..]| {
          assert s[1..][i..i + |p|] == s[i + 1..i + 1 + |p|];
        }
      }
      RemoveFirstAbsent(s[1..], p);
      assert [s[0]] + s[1..] == s;
    }
  }

  /** Occurrences in the tail of `s` are the occurrences in `s` one position later. */
  lemma OccursInTail(s: string, p: string, j: nat)
    requires |s| > 0
    ensures OccursAt(s[1..], p, j) <==> OccursAt(s, p, j + 1)
  {
    if j + |p| <= |s[1..]| {
      assert s[1..][j..j + |p|] == s[j + 1..j + 1 + |p|];
    }
  }

  /** With a first occurrence at `i`, exactly that occurrence is cut out. */
  lemma {:induction false} RemoveFirstAt(s: string, p: string, i: nat)
    requires OccursAt(s, p, i)
    requires forall j: nat :: j < i ==> !OccursAt(s, p, j)
    ensures RemoveFirst(s, p) == s[..i] + s[i + |p|..]
    decreases i
  {
    if i == 0 {
      assert s[..|p|] == p;
    } else {
      assert !OccursAt(s, p, 0);
      OccursInTail(s, p, i - 1);
      forall j: nat | j < i - 1 ensures !OccursAt(s[1..], p, j) {
        OccursInTail(s, p, j);
      }
      RemoveFirstAt(s[1..], p, i - 1);
      assert RemoveFirst(s, p) == [s[0]] + RemoveFirst(s[1..], p);
      assert [s[0]] + s[1..][..i - 1] == s[..i];
      assert s[1..][i - 1 + |p|..] == s[i + |p|..];
    }
  }

  /** The usual case: a leading prefix is stripped. */
  lemma RemoveFirstPrefix(p: string, rest: string)
    ensures RemoveFirst(p + rest, p) == rest
  {
    RemoveFirstAt(p + rest, p, 0);
    assert (p + rest)[|p|..] == rest;
  }

  /** No two positions of `s` hold the same element. */
  predicate NoDup<T(==)>(s: seq<T>)
  {
    forall i, j :: 0 <= i < j < |s| ==> s[i] != s[j]
  }

  /** The index of the first occurrence of `x` in `xs`. */
  function FirstIndex<T(==)>(xs: seq<T>, x: T): (k: nat)
    requires x in xs
    ensures k < |xs| && xs[k] == x
    ensures forall j :: 0 <= j < k ==> xs[j] != x
  {
    if xs[0] == x then 0 else 1 + FirstIndex(xs[1..], x)
  }

  /** A first index is not moved by appending elements behind it. */
  lemma {:induction false} FirstIndexPrefix<T>(xs: seq<T>, ys: seq<T>, x: T)
    requires x in xs
    ensures FirstIndex(xs + ys, x) == FirstIndex(xs, x)
  {
    var k := FirstIndex(xs, x);
    var k' := FirstIndex(xs + ys, x);
    assert (xs + ys)[k] == x;
    assert forall j :: 0 <= j < k ==> (xs + ys)[j] == xs[j];
  }

  /**
   * The accumulator of an append loop guarded by `slices.Contains`: each
   * element is appended unless an equal one is already kept.
   */
  function Dedup(xs: seq<string>): (r: seq<string>)
    ensures NoDup(r)
    ensures forall x :: x in r <==> x in xs
    ensures |r| <= |xs|
  {
    if xs == [] then []
    else
      var d := Dedup(xs[..|xs| - 1]);
      var last := xs[|xs| - 1];
      assert xs == xs[..|xs| - 1] + [last];
      if last in d then d else d + [last]
  }

  /** One more element offered to the duplicate-dropping accumulator. */
  lemma DedupSnoc(xs: seq<string>, x: string)
    ensures Dedup(xs + [x]) == if x in Dedup(xs) then Dedup(xs) else Dedup(xs) + [x]
  {
    assert (xs + [x])[..|xs|] == xs;
  }

  /** Dedup keeps elements in the order in which each was first seen. */
  lemma {:induction false} DedupFirstSeenOrder(xs: seq<string>)
    ensures forall i, j :: 0 <= i < j < |Dedup(xs)| ==>
      FirstIndex(xs, Dedup(xs)[i]) < FirstIndex(xs, Dedup(xs)[j])
  {
    if xs != [] {
      var pre := xs[..|xs| - 1];
      var last := xs[|xs| - 1];
      assert xs == pre + [last];
      DedupFirstSeenOrder(pre);
      var d := Dedup(pre);
      forall y | y in d ensures FirstIndex(xs, y) == FirstIndex(pre, y) < |pre| {
        FirstIndexPrefix(pre, [last], y);
      }
      if last !in d {
        assert FirstIndex(xs, last) == |pre|;
        assert Dedup(xs) == d + [last];
      }
    }
  }

  /** On a sequence without repetitions Dedup changes nothing. */
  lemma {:induction false} DedupDistinct(xs: seq<string>)
    requires NoDup(xs)
    ensures Dedup(xs) == xs
  {
    if xs != [] {
      var pre := xs[..|xs| - 1];
      assert NoDup(pre);
      DedupDistinct(pre);
      assert xs[|xs| - 1] !in pre;
      assert pre + [xs[|xs| - 1]] == xs;
    }
  }

  /** A sequence without repetitions has as many elements as its set. */
  lemma {:induction false} DistinctCard<T>(s: seq<T>)
    requires NoDup(s)
    ensures |set x | x in s| == |s|
  {
    if s != [] {
      var pre := s[..|s| - 1];
      assert NoDup(pre);
      DistinctCard(pre);
      assert s == pre + [s[|s| - 1]];
      assert (set x | x in s) == (set x | x in pre) + {s[|s| - 1]};
    }
  }

  /** The text of a union of an object type `{name: string}` and `number`, spelled out. */
  lemma UnionWithObjectText()
    ensures "(" + "{name: string}" + " | " + "number" + ")" == "({name: string} | number)"
  {
  }
}
