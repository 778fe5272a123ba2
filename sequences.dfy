/**
 * Sequence facts shared by the table operations: distinctness, and the
 * "keep the first occurrence" deduplication that both `drop_duplicates`
 * (on rows) and `concat` (on column labels) perform.
 */
module Sequences {

  /** No element occurs twice. */
  predicate NoDup<T(==)>(s: seq<T>) {
    forall i, j :: 0 <= i < j < |s| ==> s[i] != s[j]
  }

  /** Two sequences without repetitions and without common elements concatenate to one. */
  lemma NoDupConcat<T>(a: seq<T>, b: seq<T>)
    requires NoDup(a) && NoDup(b)
    requires forall i :: 0 <= i < |b| ==> b[i] !in a
    ensures NoDup(a + b)
  {
    forall i, j | 0 <= i < j < |a + b|
      ensures (a + b)[i] != (a + b)[j]
    {
      if i < |a| && j >= |a| {
        assert b[j - |a|] !in a;
      }
    }
  }

  /**
   * Removes repeated elements, keeping the first occurrence of each and
   * the relative order of what is kept.
   */
  function Dedup<T(==, !new)>(s: seq<T>): (r: seq<T>)
    ensures NoDup(r)
    ensures forall x :: x in r <==> x in s
    ensures |r| <= |s|
  {
    if s == [] then []
    else
      var d := Dedup(s[..|s| - 1]);
      var x := s[|s| - 1];
      assert s == s[..|s| - 1] + [x];
      if x in d then d else d + [x]
  }

  /** The position of the first occurrence of `x` in `s`. */
  function FirstIndex<T(==)>(s: seq<T>, x: T): (i: nat)
    requires x in s
    ensures i < |s| && s[i] == x && x !in s[..i]
  {
    if s[0] == x then 0
    else
      assert s == [s[0]] + s[1..];
      1 + FirstIndex(s[1..], x)
  }

  /** Appending after `p` does not move the first occurrence of anything in `p`. */
  lemma {:induction false} FirstIndexOfPrefix<T>(p: seq<T>, q: seq<T>, x: T)
    requires x in p
    ensures FirstIndex(p + q, x) == FirstIndex(p, x)
  {
    if p[0] != x {
      assert (p + q)[1..] == p[1..] + q;
      FirstIndexOfPrefix(p[1..], q, x);
    }
  }

  /**
   * Dedup keeps the order of first occurrences: what it puts earlier
   * first occurs earlier in the input.
   */
  lemma {:induction false} DedupKeepsFirstOccurrenceOrder<T(!new)>(s: seq<T>)
    ensures forall i, j :: 0 <= i < j < |Dedup(s)| ==>
              FirstIndex(s, Dedup(s)[i]) < FirstIndex(s, Dedup(s)[j])
  {
    if s != [] {
      var p, x := s[..|s| - 1], s[|s| - 1];
      assert s == p + [x];
      DedupKeepsFirstOccurrenceOrder(p);
      var dp := Dedup(p);
      forall y | y in p
        ensures FirstIndex(s, y) == FirstIndex(p, y)
      {
        FirstIndexOfPrefix(p, [x], y);
      }
      if x !in dp {
        assert s[..|p|] == p;
        assert FirstIndex(s, x) == |p|;
      }
    }
  }

  /** Dedup leaves a sequence without repetitions as it is. */
  lemma {:induction false} DedupOfNoDup<T(!new)>(s: seq<T>)
    requires NoDup(s)
    ensures Dedup(s) == s
  {
    if s != [] {
      var p := s[..|s| - 1];
      assert NoDup(p);
      DedupOfNoDup(p);
      assert s[|s| - 1] !in p;
      assert s == p + [s[|s| - 1]];
    }
  }

  /** What Dedup keeps of `a` stays, unchanged, at the front when more is appended. */
  lemma {:induction false} DedupPrefix<T(!new)>(a: seq<T>, b: seq<T>)
    ensures Dedup(a) <= Dedup(a + b)
  {
    if b == [] {
      assert a + b == a;
    } else {
      var b' := b[..|b| - 1];
      assert (a + b)[..|a + b| - 1] == a + b';
      DedupPrefix(a, b');
    }
  }

  /** Deduplicating early changes nothing about a later deduplication. */
  lemma {:induction false} DedupOfDedupAppend<T(!new)>(a: seq<T>, b: seq<T>)
    ensures Dedup(Dedup(a) + b) == Dedup(a + b)
  {
    if b == [] {
      assert Dedup(a) + b == Dedup(a);
      assert a + b == a;
      DedupOfNoDup(Dedup(a));
    } else {
      var b' := b[..|b| - 1];
      assert (Dedup(a) + b)[..|Dedup(a) + b| - 1] == Dedup(a) + b';
      assert (a + b)[..|a + b| - 1] == a + b';
      DedupOfDedupAppend(a, b');
    }
  }

  /**
   * Appending only elements that are already present to a sequence without
   * repetitions, then deduplicating, gives back that sequence.
   */
  lemma {:induction false} DedupAbsorbs<T(!new)>(d: seq<T>, t: seq<T>)
    requires NoDup(d)
    requires forall x :: x in t ==> x in d
    ensures Dedup(d + t) == d
  {
    if t == [] {
      assert d + t == d;
      DedupOfNoDup(d);
    } else {
      var t' := t[..|t| - 1];
      assert (d + t)[..|d + t| - 1] == d + t';
      assert t[|t| - 1] in t;
      DedupAbsorbs(d, t');
    }
  }

  /** A prefix one longer is the prefix and the next element. */
  lemma TakeOneMore<T>(s: seq<T>, i: nat)
    requires i < |s|
    ensures s[..i + 1] == s[..i] + [s[i]]
  {
  }

  /** One step of Dedup: the last element is kept unless already kept. */
  lemma DedupLast<T(!new)>(s: seq<T>, x: T)
    ensures Dedup(s + [x]) == if x in Dedup(s) then Dedup(s) else Dedup(s) + [x]
  {
    assert (s + [x])[..|s + [x]| - 1] == s;
  }

  /** [a, b, b, c] with a, b, c distinct deduplicates to [a, b, c]. */
  lemma DedupDropsRepeat<T(!new)>(a: T, b: T, c: T)
    requires a != b && b != c && a != c
    ensures Dedup([a, b, b, c]) == [a, b, c]
  {
    var s1: seq<T> := [a];
    var s2 := s1 + [b];
    var s3 := s2 + [b];
    var s4 := s3 + [c];
    assert Dedup(s1) == [a] by {
      DedupLast([], a);
      assert [] + [a] == s1;
    }
    assert Dedup(s2) == [a, b] by {
      DedupLast(s1, b);
    }
    assert Dedup(s3) == [a, b] by {
      DedupLast(s2, b);
    }
    assert Dedup(s4) == [a, b, c] by {
      DedupLast(s3, c);
    }
    assert s4 == [a, b, b, c];
  }
}
