/** The ranking step shared by the server (`results.sort(key=confidence,
    reverse=True)` in models/emotion_model.py) and the browser client
    (`results.sort((a, b) => b.confidence - a.confidence)` in static/script.js).
    Both library sorts are stable, so both are the stable sort by descending
    confidence, defined here once as an insertion sort. */
module Ranking {

  /** One `{label, confidence, percentage}` record (`label` is a keyword of
      Dafny, so the field is called `name`). */
  datatype Emotion = Emotion(name: string, confidence: real, percentage: string)

  /** Confidences never increase along the list. */
  predicate NonIncreasing(s: seq<Emotion>) {
    forall i, j :: 0 <= i < j < |s| ==> s[i].confidence >= s[j].confidence
  }

  /** The entries of `s` whose confidence is exactly `c`, in their order in `s`.
      A sort is stable when it keeps every such sub-list as it was. */
  function Tied(s: seq<Emotion>, c: real): seq<Emotion> {
    if s == [] then []
    else Tied(s[..|s| - 1], c) + (if s[|s| - 1].confidence == c then [s[|s| - 1]] else [])
  }

  /** Where `x` goes when inserted into `s`: after the last entry whose
      confidence is at least that of `x`, scanning from the right. */
  function Slot(s: seq<Emotion>, x: Emotion): (k: nat)
    ensures k <= |s|
    ensures forall i :: k <= i < |s| ==> s[i].confidence < x.confidence
    ensures k > 0 ==> s[k - 1].confidence >= x.confidence
  {
    if s == [] then 0
    else if s[|s| - 1].confidence >= x.confidence then |s|
    else Slot(s[..|s| - 1], x)
  }

  function Insert(s: seq<Emotion>, x: Emotion): seq<Emotion> {
    var k := Slot(s, x);
    s[..k] + [x] + s[k..]
  }

  /** The stable sort by descending confidence. */
  function SortByConfidence(s: seq<Emotion>): (r: seq<Emotion>)
    ensures |r| == |s|
  {
    if s == [] then [] else Insert(SortByConfidence(s[..|s| - 1]), s[|s| - 1])
  }

  lemma {:induction false} TiedAppend(a: seq<Emotion>, b: seq<Emotion>, c: real)
    ensures Tied(a + b, c) == Tied(a, c) + Tied(b, c)
  {
    if b != [] {
      var ab := a + b;
      assert ab[..|ab| - 1] == a + b[..|b| - 1];
      assert ab[|ab| - 1] == b[|b| - 1];
      TiedAppend(a, b[..|b| - 1], c);
    } else {
      assert a + b == a;
    }
  }

  lemma {:induction false} TiedNone(s: seq<Emotion>, c: real)
    requires forall i :: 0 <= i < |s| ==> s[i].confidence != c
    ensures Tied(s, c) == []
  {
    if s != [] {
      TiedNone(s[..|s| - 1], c);
    }
  }

  lemma {:induction false} TiedMember(s: seq<Emotion>, c: real, e: Emotion)
    requires e in Tied(s, c)
    ensures e in s && e.confidence == c
  {
    if s != [] {
      if e in Tied(s[..|s| - 1], c) {
        TiedMember(s[..|s| - 1], c, e);
      }
    }
  }

  /** Where each entry of `Insert(s, x)` comes from. */
  lemma InsertIndices(s: seq<Emotion>, x: Emotion)
    ensures var k, r := Slot(s, x), Insert(s, x);
      && |r| == |s| + 1
      && (forall p :: 0 <= p < k ==> r[p] == s[p])
      && r[k] == x
      && (forall p :: k < p < |r| ==> r[p] == s[p - 1])
  {
  }

  lemma InsertSorted(s: seq<Emotion>, x: Emotion)
    requires NonIncreasing(s)
    ensures NonIncreasing(Insert(s, x))
  {
    var k := Slot(s, x);
    var r := Insert(s, x);
    InsertIndices(s, x);
    forall p, q | 0 <= p < q < |r| ensures r[p].confidence >= r[q].confidence {
      if q < k {
        assert r[p] == s[p] && r[q] == s[q];
      } else if q == k {
        assert r[p] == s[p] && s[p].confidence >= s[k - 1].confidence;
      } else if p < k {
        assert r[p] == s[p] && r[q] == s[q - 1];
      } else if p == k {
        assert r[q] == s[q - 1];
      } else {
        assert r[p] == s[p - 1] && r[q] == s[q - 1];
      }
    }
  }

  lemma TiedSingleton(x: Emotion, c: real)
    ensures Tied([x], c) == if x.confidence == c then [x] else []
  {
    assert [x][..0] == [];
  }

  lemma TiedAround(pre: seq<Emotion>, x: Emotion, post: seq<Emotion>, c: real)
    ensures Tied(pre + [x] + post, c) == Tied(pre, c) + Tied([x], c) + Tied(post, c)
  {
    TiedAppend(pre + [x], post, c);
    TiedAppend(pre, [x], c);
  }

  lemma InsertTied(s: seq<Emotion>, x: Emotion, c: real)
    ensures Tied(Insert(s, x), c) == Tied(s, c) + (if x.confidence == c then [x] else [])
  {
    var k := Slot(s, x);
    var pre, post := s[..k], s[k..];
    var lo, mid, hi := Tied(pre, c), Tied([x], c), Tied(post, c);
    assert Tied(Insert(s, x), c) == lo + mid + hi by {
      TiedAround(pre, x, post, c);
    }
    assert Tied(s, c) == lo + hi by {
      assert s == pre + post;
      TiedAppend(pre, post, c);
    }
    assert mid == (if x.confidence == c then [x] else []) by {
      TiedSingleton(x, c);
    }
    assert x.confidence == c ==> hi == [] by {
      if x.confidence == c {
        TiedNone(post, c);
      }
    }
    Regroup(lo, mid, hi, if x.confidence == c then [x] else []);
  }

  lemma Regroup(lo: seq<Emotion>, mid: seq<Emotion>, hi: seq<Emotion>, tail: seq<Emotion>)
    requires mid == tail
    requires mid != [] ==> hi == []
    ensures lo + mid + hi == lo + hi + tail
  {
  }

  lemma InsertMultiset(s: seq<Emotion>, x: Emotion)
    ensures multiset(Insert(s, x)) == multiset(s) + multiset{x}
  {
    var k := Slot(s, x);
    assert s == s[..k] + s[k..];
  }

  /** The result is ordered by non-increasing confidence. */
  lemma {:induction false} SortIsNonIncreasing(s: seq<Emotion>)
    ensures NonIncreasing(SortByConfidence(s))
  {
    if s != [] {
      SortIsNonIncreasing(s[..|s| - 1]);
      InsertSorted(SortByConfidence(s[..|s| - 1]), s[|s| - 1]);
    }
  }

  /** The sort is stable: entries of equal confidence keep their input order. */
  lemma {:induction false} SortIsStable(s: seq<Emotion>, c: real)
    ensures Tied(SortByConfidence(s), c) == Tied(s, c)
  {
    if s != [] {
      SortIsStable(s[..|s| - 1], c);
      InsertTied(SortByConfidence(s[..|s| - 1]), s[|s| - 1], c);
    }
  }

  /** The result is a permutation of the input. */
  lemma {:induction false} SortIsPermutation(s: seq<Emotion>)
    ensures multiset(SortByConfidence(s)) == multiset(s)
  {
    if s != [] {
      SortIsPermutation(s[..|s| - 1]);
      InsertMultiset(SortByConfidence(s[..|s| - 1]), s[|s| - 1]);
      assert s == s[..|s| - 1] + [s[|s| - 1]];
    }
  }

  /** The first entry of the ranking has the largest confidence of the input
      and is one of its entries: it is the one promoted to "primary". */
  lemma HeadIsMaximal(s: seq<Emotion>)
    requires s != []
    ensures SortByConfidence(s)[0] in s
    ensures forall i :: 0 <= i < |s| ==> SortByConfidence(s)[0].confidence >= s[i].confidence
  {
    var r := SortByConfidence(s);
    SortIsNonIncreasing(s);
    SortIsPermutation(s);
    assert r[0] in multiset(r);
    forall i | 0 <= i < |s| ensures r[0].confidence >= s[i].confidence {
      assert s[i] in multiset(s);
      var j :| 0 <= j < |r| && r[j] == s[i];
    }
  }

  lemma TiedOfLast(s: seq<Emotion>)
    ensures s != [] ==> Tied(s, s[|s| - 1].confidence) != []
  {
  }

  /** Two rankings ordered by non-increasing confidence that agree on every
      tie group are the same list. */
  lemma {:induction false} RankingDeterminedByTies(r: seq<Emotion>, t: seq<Emotion>)
    requires NonIncreasing(r) && NonIncreasing(t)
    requires forall c :: Tied(r, c) == Tied(t, c)
    ensures r == t
  {
    if r == [] && t == [] {
    } else if r == [] {
      TiedOfLast(t);
      assert false;
    } else if t == [] {
      TiedOfLast(r);
      assert false;
    } else {
      var a, b := r[|r| - 1], t[|t| - 1];
      var r', t' := r[..|r| - 1], t[..|t| - 1];
      assert b in Tied(r, b.confidence) by {
        assert b in Tied(t, b.confidence);
      }
      TiedMember(r, b.confidence, b);
      assert a.confidence <= b.confidence;
      assert a in Tied(t, a.confidence) by {
        assert a in Tied(r, a.confidence);
      }
      TiedMember(t, a.confidence, a);
      assert b.confidence <= a.confidence;
      var c := a.confidence;
      var tr, tt := Tied(r, c), Tied(t, c);
      assert tr == Tied(r', c) + [a];
      assert tt == Tied(t', c) + [b];
      assert tr[|tr| - 1] == a && tt[|tt| - 1] == b;
      assert a == b;
      assert tr == tt;
      forall d ensures Tied(r', d) == Tied(t', d) {
        assert Tied(r, d) == Tied(t, d);
        if d == c {
          assert Tied(r', d) == tr[..|tr| - 1];
          assert Tied(t', d) == tt[..|tt| - 1];
        } else {
          assert Tied(r, d) == Tied(r', d);
          assert Tied(t, d) == Tied(t', d);
        }
      }
      RankingDeterminedByTies(r', t');
    }
  }

  /** An independent description of a stable descending sort: `r` is ordered
      by non-increasing confidence and keeps every tie group of `s` in its
      input order. */
  ghost predicate IsStableRanking(r: seq<Emotion>, s: seq<Emotion>) {
    NonIncreasing(r) && forall c :: Tied(r, c) == Tied(s, c)
  }

  /** SortByConfidence meets that description, and nothing else does. */
  lemma SortCharacterization(s: seq<Emotion>, r: seq<Emotion>)
    ensures r == SortByConfidence(s) <==> IsStableRanking(r, s)
  {
    var sorted := SortByConfidence(s);
    SortIsNonIncreasing(s);
    forall c ensures Tied(sorted, c) == Tied(s, c) {
      SortIsStable(s, c);
    }
    assert IsStableRanking(sorted, s);
    if IsStableRanking(r, s) {
      forall c ensures Tied(r, c) == Tied(sorted, c) {
        assert Tied(r, c) == Tied(s, c);
      }
      RankingDeterminedByTies(r, sorted);
    }
  }

  /** The sort leaves a list unchanged exactly when the list is already
      ordered by non-increasing confidence; in particular sorting twice is
      sorting once. */
  lemma SortFixesRanked(s: seq<Emotion>)
    ensures SortByConfidence(s) == s <==> NonIncreasing(s)
    ensures SortByConfidence(SortByConfidence(s)) == SortByConfidence(s)
  {
    SortIsNonIncreasing(s);
    SortCharacterization(s, s);
    var r := SortByConfidence(s);
    SortIsNonIncreasing(r);
    SortCharacterization(r, r);
  }

  lemma SlotAt(s: seq<Emotion>, x: Emotion, j: nat)
    requires j <= |s|
    requires forall k :: j <= k < |s| ==> s[k].confidence < x.confidence
    requires j > 0 ==> s[j - 1].confidence >= x.confidence
    ensures Slot(s, x) == j
  {
    if |s| > j {
      SlotAt(s[..|s| - 1], x, j);
    }
  }

  /** Moves `a[i]` leftwards past the entries of `a[..i]` with smaller
      confidence: one step of the insertion sort. */
  method InsertInPlace(a: array<Emotion>, i: nat)
    requires i < a.Length
    modifies a
    ensures a[..i + 1] == Insert(old(a[..i]), old(a[i]))
    ensures a[i + 1..] == old(a[i + 1..])
  {
    ghost var sorted := a[..i];
    ghost var rest := a[i + 1..];
    var x := a[i];
    var j := i;
    while j > 0 && a[j - 1].confidence < x.confidence
      invariant 0 <= j <= i
      invariant forall k :: 0 <= k < j ==> a[k] == sorted[k]
      invariant forall k :: j < k <= i ==> a[k] == sorted[k - 1]
      invariant a[i + 1..] == rest
      invariant forall k :: j <= k < i ==> sorted[k].confidence < x.confidence
    {
      a[j] := a[j - 1];
      j := j - 1;
    }
    a[j] := x;
    SlotAt(sorted, x, j);
    ShiftedIsInserted(a[..i + 1], sorted, x, j);
  }

  /** A sequence that agrees with `s` before `j`, holds `x` at `j` and holds
      the rest of `s` one place further right is `s` with `x` put at `j`. */
  lemma ShiftedIsInserted(b: seq<Emotion>, s: seq<Emotion>, x: Emotion, j: nat)
    requires |b| == |s| + 1 && j <= |s|
    requires forall k :: 0 <= k < j ==> b[k] == s[k]
    requires b[j] == x
    requires forall k :: j < k < |b| ==> b[k] == s[k - 1]
    ensures b == s[..j] + [x] + s[j..]
  {
  }

  /** Sorts `a` in place, stably, by descending confidence: the in-place
      counterpart of SortByConfidence. */
  method SortInPlace(a: array<Emotion>)
    modifies a
    ensures a[..] == SortByConfidence(old(a[..]))
  {
    ghost var input := a[..];
    var i := 0;
    while i < a.Length
      invariant 0 <= i <= a.Length
      invariant a[..i] == SortByConfidence(input[..i])
      invariant a[i..] == input[i..]
    {
      ghost var before := a[..];
      SuffixStep(before, input, i);
      InsertInPlace(a, i);
      SortPrefixStep(input, i);
      i := i + 1;
    }
    assert input[..a.Length] == input;
  }

  /** Two sequences that agree from `i` on agree at `i` and from `i + 1` on. */
  lemma SuffixStep(b: seq<Emotion>, s: seq<Emotion>, i: nat)
    requires i < |b| == |s| && b[i..] == s[i..]
    ensures b[i] == s[i] && b[i + 1..] == s[i + 1..]
  {
    assert b[i] == b[i..][0];
  }

  /** Sorting one more element of a prefix inserts it into the sorted prefix. */
  lemma SortPrefixStep(s: seq<Emotion>, i: nat)
    requires i < |s|
    ensures SortByConfidence(s[..i + 1]) == Insert(SortByConfidence(s[..i]), s[i])
  {
    assert s[..i + 1][..i] == s[..i];
  }
}
