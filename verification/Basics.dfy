/** What every module uses. */
module Basics {

  datatype Option<T> = None | Some(value: T)

  function Max(a: int, b: int): int {
    if a < b then b else a
  }

  function Min(a: int, b: int): int {
    if a < b then a else b
  }

  function Last<T>(s: seq<T>): T
    requires s != []
  {
    s[|s| - 1]
  }

  function Front<T>(s: seq<T>): seq<T>
    requires s != []
  {
    s[..|s| - 1]
  }

  predicate NoDup<T(==)>(s: seq<T>) {
    forall i, j :: 0 <= i < j < |s| ==> s[i] != s[j]
  }

  /** Always true, and there only to be a trigger. A definition that begins with
      `forall n :: Ask(n) ==>` says what it says without that, but the verifier
      unfolds it only where some Ask is asserted: in ReachedRun and LedLeads of
      module Protocol, in Unfold of AddonTables, and in ChunkSinks. Everywhere else
      it is passed on as a name. */
  predicate Ask(n: nat) {
    true
  }

  lemma PartOnce<T>(a: seq<T>, b: seq<T>, c: seq<T>)
    requires NoDup(a + b + c)
    ensures NoDup(b)
  {
    assert forall i :: 0 <= i < |b| ==> (a + b + c)[|a| + i] == b[i];
  }

  lemma Regroup<T>(a: seq<T>, b: seq<T>, c: seq<T>)
    ensures a + b + c == a + (b + c)
    ensures (a + b + c)[|a|..] == b + c
  {
  }

  lemma Regroup4<T>(a: seq<T>, b: seq<T>, c: seq<T>, d: seq<T>)
    ensures a + b + c + d == a + (b + c + d)
  {
  }

  lemma OneByOne<T>(a: seq<T>, b: seq<T>)
    requires 1 <= |b| <= 2
    ensures a + b == if |b| == 1 then a + [b[0]] else a + [b[0]] + [b[1]]
  {
  }

  lemma Appended<T>(s: seq<T>, a: T, b: T, c: T, d: T)
    ensures (s + [a])[|s|..] == [a] && (s + [a] + [b])[|s|..] == [a, b]
    ensures (s + [a] + [b] + [c])[|s|..] == [a, b, c] && (s + [a] + [b] + [c] + [d])[|s|..] == [a, b, c, d]
  {
  }

  /** What was appended in two goes. */
  lemma InTwo<T>(a: seq<T>, b: seq<T>, c: seq<T>) returns (first: seq<T>, second: seq<T>)
    requires a <= b <= c
    ensures first == b[|a|..] && second == c[|b|..]
    ensures c[|a|..] == first + second && c == a + (first + second)
  {
    first, second := b[|a|..], c[|b|..];
    assert c == b + second && b == a + first;
    Regroup(a, first, second);
  }

  lemma Bigger<T>(a: set<T>, b: set<T>)
    requires a <= b
    ensures |a| <= |b|
  {
    assert b == a + (b - a);
  }

  lemma {:induction false} ElementsAtMost<T>(s: seq<T>, elems: set<T>)
    requires forall x :: x in elems ==> x in s
    ensures |elems| <= |s|
  {
    if s != [] {
      var rest := elems - {Last(s)};
      forall x | x in rest
        ensures x in Front(s)
      {
        var i :| 0 <= i < |s| && s[i] == x;
        assert Front(s)[i] == x;
      }
      ElementsAtMost(Front(s), rest);
      Bigger(elems, rest + {Last(s)});
    }
  }

  /** a is what is left of b when some of its elements are dropped. */
  predicate Subseq<T(==)>(a: seq<T>, b: seq<T>)
    decreases b
  {
    || a == []
    || (b != [] && ((Last(a) == Last(b) && Subseq(Front(a), Front(b))) || Subseq(a, Front(b))))
  }

  lemma SubseqSnoc<T>(a: seq<T>, b: seq<T>, x: T)
    requires Subseq(a, b)
    ensures Subseq(a, b + [x]) && Subseq(a + [x], b + [x])
  {
    assert Front(b + [x]) == b && Front(a + [x]) == a;
  }

  lemma {:induction false} SubseqFront<T>(a: seq<T>, b: seq<T>)
    requires a != [] && Subseq(a, b)
    ensures Subseq(Front(a), b)
    decreases b
  {
    if !(Last(a) == Last(b) && Subseq(Front(a), Front(b))) {
      SubseqFront(a, Front(b));
    }
  }

  lemma {:induction false} SubseqPrefix<T>(a: seq<T>, whole: seq<T>, b: seq<T>)
    requires a <= whole && Subseq(whole, b)
    ensures Subseq(a, b)
    decreases whole
  {
    if a == whole {
    } else {
      SubseqFront(whole, b);
      SubseqPrefix(a, Front(whole), b);
    }
  }

  lemma Longer<T>(s: seq<T>, more: seq<T>)
    requires more != []
    ensures s + more != [] && Front(s + more) == s + Front(more) && Last(s + more) == Last(more)
  {
  }

  lemma {:induction false} SubseqLonger<T>(a: seq<T>, b: seq<T>, more: seq<T>)
    requires Subseq(a, b)
    ensures Subseq(a, b + more)
    decreases more
  {
    if more == [] {
      assert b + more == b;
    } else {
      Longer(b, more);
      SubseqLonger(a, b, Front(more));
    }
  }

  lemma {:induction false} SubseqBoth<T>(a: seq<T>, b: seq<T>, more: seq<T>)
    requires Subseq(a, b)
    ensures Subseq(a + more, b + more)
    decreases more
  {
    if more == [] {
      assert a + more == a && b + more == b;
    } else {
      Longer(a, more);
      Longer(b, more);
      SubseqBoth(a, b, Front(more));
    }
  }
}
