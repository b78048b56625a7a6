// Facts about sequences that the rest of the project shares.
module Sequences {

  ghost predicate NoRepeats<T>(s: seq<T>) {
    forall i, j :: 0 <= i < j < |s| ==> s[i] != s[j]
  }

  lemma TakeOneMore<T>(s: seq<T>, i: nat)
    requires i < |s|
    ensures s[..i + 1] == s[..i] + [s[i]]
  {
  }

  lemma Unsnoc<T>(s: seq<T>)
    requires s != []
    ensures s == s[..|s| - 1] + [s[|s| - 1]]
  {
  }

  lemma ConcatSnoc<T>(s: seq<T>, t: seq<T>)
    requires t != []
    ensures s + t == (s + t[..|t| - 1]) + [t[|t| - 1]]
  {
  }

  lemma Regroup<T>(a: seq<T>, b: seq<T>, c: seq<T>)
    ensures (a + b) + c == a + (b + c)
  {
  }

  lemma CutBeforeLast<T>(s: seq<T>, j: nat)
    requires j < |s|
    ensures s[..|s| - 1][..j] == s[..j] && s[..|s| - 1][j..] + [s[|s| - 1]] == s[j..]
  {
  }

  lemma AppendTwo<T>(s: seq<T>, x: T, y: T)
    ensures s + [x] + [y] == s + [x, y]
  {
  }

  lemma PairOf<T>(s: seq<T>)
    ensures |s| == 2 ==> s == [s[0], s[1]] && multiset(s) == multiset{s[0], s[1]}
    ensures |s| != 2 ==> forall x, y :: multiset(s) != multiset{x, y}
  {
    assert |multiset(s)| == |s|;
    if |s| == 2 {
      assert s == [s[0], s[1]];
    } else {
      forall x, y ensures multiset(s) != multiset{x, y} {
        assert |multiset{x, y}| == 2;
      }
    }
  }

  lemma SomeElement<T>(s: seq<T>)
    ensures s != [] ==> exists x :: x in s
  {
    if s != [] {
      assert s[0] in s;
    }
  }

  lemma TakeOfTake<T>(s: seq<T>, i: nat, j: nat)
    requires i <= j <= |s|
    ensures s[..j][..i] == s[..i]
  {
  }

  // Finds in t the last element of a permutation s of t, and drops it from both.
  lemma DropLast<T>(s: seq<T>, t: seq<T>) returns (i: nat)
    requires multiset(s) == multiset(t) && s != []
    ensures i < |t| && t[i] == s[|s| - 1]
    ensures multiset(s[..|s| - 1]) == multiset(t[..i] + t[i + 1..])
    ensures t == t[..i] + [t[i]] + t[i + 1..]
  {
    var x := s[|s| - 1];
    assert s == s[..|s| - 1] + [x];
    assert x in multiset(t);
    i :| 0 <= i < |t| && t[i] == x;
    var a, b := t[..i], t[i + 1..];
    assert t == a + [x] + b;
    calc {
      multiset(s[..|s| - 1]);
      multiset(s) - multiset{x};
      multiset(t) - multiset{x};
      (multiset(a) + multiset{x} + multiset(b)) - multiset{x};
      multiset(a) + multiset(b);
      multiset(a + b);
    }
  }

  function Map<A, B>(f: A -> B, s: seq<A>): (r: seq<B>)
    ensures |r| == |s| && forall i :: 0 <= i < |r| ==> r[i] == f(s[i])
  {
    seq(|s|, i requires 0 <= i < |s| => f(s[i]))
  }

  // Applies f to every element and joins the results.
  function FlatMap<A, B>(f: A -> seq<B>, s: seq<A>): seq<B> {
    if s == [] then [] else FlatMap(f, s[..|s| - 1]) + f(s[|s| - 1])
  }

  lemma FlatMapSnoc<A, B>(f: A -> seq<B>, s: seq<A>, x: A)
    ensures FlatMap(f, s + [x]) == FlatMap(f, s) + f(x)
  {
    assert (s + [x])[..|s|] == s;
  }

  lemma {:induction false} FlatMapConcat<A, B>(f: A -> seq<B>, s: seq<A>, t: seq<A>)
    ensures FlatMap(f, s + t) == FlatMap(f, s) + FlatMap(f, t)
  {
    if t == [] {
      assert s + t == s;
    } else {
      var t', x := t[..|t| - 1], t[|t| - 1];
      ConcatSnoc(s, t);
      FlatMapSnoc(f, s + t', x);
      FlatMapConcat(f, s, t');
      assert (FlatMap(f, s) + FlatMap(f, t')) + f(x) == FlatMap(f, s) + (FlatMap(f, t') + f(x));
    }
  }

  lemma {:induction false} FlatMapIn<A, B>(f: A -> seq<B>, s: seq<A>, y: B)
    ensures y in FlatMap(f, s) <==> exists x :: x in s && y in f(x)
  {
    if s != [] {
      Unsnoc(s);
      FlatMapIn(f, s[..|s| - 1], y);
    }
  }

  // Where two results of a flat map come from: elements in the same order, or two
  // results of one element in their order.
  lemma {:induction false} FlatMapOrigins<A, B>(f: A -> seq<B>, s: seq<A>, i: nat, j: nat)
    returns (k: nat, l: nat, a: nat, b: nat)
    requires i < j < |FlatMap(f, s)|
    ensures k <= l < |s| && a < |f(s[k])| && b < |f(s[l])| && (k == l ==> a < b)
    ensures FlatMap(f, s)[i] == f(s[k])[a] && FlatMap(f, s)[j] == f(s[l])[b]
  {
    var n := |s| - 1;
    var before := FlatMap(f, s[..n]);
    if j < |before| {
      k, l, a, b := FlatMapOrigins(f, s[..n], i, j);
    } else if i < |before| {
      k, a := FlatMapOrigin(f, s[..n], i);
      l, b := n, j - |before|;
    } else {
      k, l, a, b := n, n, i - |before|, j - |before|;
    }
  }

  lemma {:induction false} FlatMapOrigin<A, B>(f: A -> seq<B>, s: seq<A>, i: nat) returns (k: nat, a: nat)
    requires i < |FlatMap(f, s)|
    ensures k < |s| && a < |f(s[k])| && FlatMap(f, s)[i] == f(s[k])[a]
  {
    var n := |s| - 1;
    var before := FlatMap(f, s[..n]);
    if i < |before| {
      k, a := FlatMapOrigin(f, s[..n], i);
    } else {
      k, a := n, i - |before|;
    }
  }

  lemma {:induction false} FlatMapEmpty<A, B>(f: A -> seq<B>, s: seq<A>)
    ensures FlatMap(f, s) == [] <==> forall x :: x in s ==> f(x) == []
  {
    if s != [] {
      Unsnoc(s);
      FlatMapEmpty(f, s[..|s| - 1]);
    }
  }

  lemma {:induction false} FlatMapCongruent<A, B>(f: A -> seq<B>, g: A -> seq<B>, s: seq<A>)
    requires forall x :: x in s ==> f(x) == g(x)
    ensures FlatMap(f, s) == FlatMap(g, s)
  {
    if s != [] {
      FlatMapCongruent(f, g, s[..|s| - 1]);
    }
  }

  lemma {:induction false} FlatMapPermutes<A, B>(f: A -> seq<B>, s: seq<A>, t: seq<A>)
    requires multiset(s) == multiset(t)
    ensures multiset(FlatMap(f, s)) == multiset(FlatMap(f, t))
    decreases |s|
  {
    if s == [] {
      assert |multiset(t)| == 0;
    } else {
      var i := DropLast(s, t);
      var a, x, b := t[..i], t[i], t[i + 1..];
      FlatMapPermutes(f, s[..|s| - 1], a + b);
      FlatMapConcat(f, a, b);
      FlatMapSnoc(f, a, x);
      FlatMapConcat(f, a + [x], b);
      assert FlatMap(f, t) == FlatMap(f, a) + f(x) + FlatMap(f, b);
    }
  }
}
