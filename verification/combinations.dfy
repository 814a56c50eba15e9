/** The enumeration that `itertools.combinations_with_replacement(pool, k)`
    performs in pricing_logic.py:44. A multiset of `k` bundles drawn from a
    pool of `m` bundles is written as the non-decreasing sequence of their
    positions in the pool; the library emits these sequences in
    lexicographic order, and that order decides which of two equally cheap
    combinations the optimiser keeps. */
module Combinations {

  /** Every position lies in `lo..m-1`. */
  predicate InRange(c: seq<nat>, lo: nat, m: nat)
  {
    forall i :: 0 <= i < |c| ==> lo <= c[i] < m
  }

  /** Positions never go down: one representative per multiset. */
  predicate NonDecreasing(c: seq<nat>)
  {
    forall i, j :: 0 <= i < j < |c| ==> c[i] <= c[j]
  }

  /** Puts `x` in front of every sequence of `cs`. */
  function PrependAll(x: nat, cs: seq<seq<nat>>): (r: seq<seq<nat>>)
    ensures |r| == |cs|
    ensures forall i :: 0 <= i < |cs| ==> r[i] == [x] + cs[i]
  {
    if cs == [] then [] else [[x] + cs[0]] + PrependAll(x, cs[1..])
  }

  /** All multisets of size `k` over positions `lo..m-1`, in the order the
      library yields them: first those that start with `lo`, then the rest. */
  function Combos(k: nat, lo: nat, m: nat): (r: seq<seq<nat>>)
    decreases k, m - lo
  {
    if k == 0 then [[]]
    else if lo >= m then []
    else PrependAll(lo, Combos(k - 1, lo, m)) + Combos(k, lo + 1, m)
  }

  /** Every enumerated sequence is a multiset of size `k` over `lo..m-1`. */
  lemma {:induction false} CombosSound(k: nat, lo: nat, m: nat)
    ensures forall i :: 0 <= i < |Combos(k, lo, m)| ==>
      var c := Combos(k, lo, m)[i]; |c| == k && InRange(c, lo, m) && NonDecreasing(c)
    decreases k, m - lo
  {
    if k > 0 && lo < m {
      var heads := Combos(k - 1, lo, m);
      var rest := Combos(k, lo + 1, m);
      CombosSound(k - 1, lo, m);
      CombosSound(k, lo + 1, m);
      var front := PrependAll(lo, heads);
      var all := front + rest;
      assert all == Combos(k, lo, m);
      forall i | 0 <= i < |all|
        ensures |all[i]| == k && InRange(all[i], lo, m) && NonDecreasing(all[i])
      {
        if i < |front| {
          var h := heads[i];
          assert all[i] == [lo] + h;
          assert InRange(all[i], lo, m);
          forall a, b | 0 <= a < b < |all[i]| ensures all[i][a] <= all[i][b] {
            if a > 0 { assert all[i][a] == h[a - 1] && all[i][b] == h[b - 1]; }
            else { assert all[i][b] == h[b - 1]; }
          }
        } else {
          assert all[i] == rest[i - |front|];
        }
      }
    }
  }

  /** Membership form of `CombosSound`. */
  lemma CombosMember(c: seq<nat>, k: nat, lo: nat, m: nat)
    requires c in Combos(k, lo, m)
    ensures |c| == k && InRange(c, lo, m) && NonDecreasing(c)
  {
    CombosSound(k, lo, m);
  }

  lemma PrependMember(x: nat, t: seq<nat>, heads: seq<seq<nat>>)
    requires t in heads
    ensures [x] + t in PrependAll(x, heads)
  {
    var p :| 0 <= p < |heads| && heads[p] == t;
    assert PrependAll(x, heads)[p] == [x] + t;
  }

  lemma TailInRange(c: seq<nat>, lo: nat, m: nat)
    requires |c| > 0 && InRange(c, lo, m) && NonDecreasing(c)
    ensures InRange(c[1..], lo, m) && NonDecreasing(c[1..])
  {
    var tail := c[1..];
    forall i | 0 <= i < |tail| ensures lo <= tail[i] < m {
      assert tail[i] == c[i + 1];
    }
    forall i, j | 0 <= i < j < |tail| ensures tail[i] <= tail[j] {
      assert tail[i] == c[i + 1] && tail[j] == c[j + 1];
    }
  }

  lemma RaiseLowerBound(c: seq<nat>, lo: nat, m: nat)
    requires |c| > 0 && InRange(c, lo, m) && NonDecreasing(c) && c[0] != lo
    ensures InRange(c, lo + 1, m)
  {
    forall i | 0 <= i < |c| ensures lo + 1 <= c[i] < m {
      if i > 0 { assert c[0] <= c[i]; }
    }
  }

  /** Every multiset of the right size over `lo..m-1` is enumerated. */
  lemma {:induction false} CombosComplete(c: seq<nat>, lo: nat, m: nat)
    requires InRange(c, lo, m) && NonDecreasing(c)
    ensures c in Combos(|c|, lo, m)
    decreases |c|, m - lo, 1
  {
    if |c| == 0 {
    } else if c[0] == lo {
      HeadAtLow(c, lo, m);
    } else {
      HeadAboveLow(c, lo, m);
    }
  }

  /** A sequence starting at `lo` is found among those the enumeration lists first. */
  lemma {:induction false} HeadAtLow(c: seq<nat>, lo: nat, m: nat)
    requires InRange(c, lo, m) && NonDecreasing(c) && |c| > 0 && c[0] == lo
    ensures c in Combos(|c|, lo, m)
    decreases |c|, m - lo, 0
  {
    var tail := c[1..];
    TailInRange(c, lo, m);
    CombosComplete(tail, lo, m);
    PrependMember(lo, tail, Combos(|c| - 1, lo, m));
    assert c == [lo] + tail;
  }

  /** A sequence above `lo` is found among those the enumeration lists last. */
  lemma {:induction false} HeadAboveLow(c: seq<nat>, lo: nat, m: nat)
    requires InRange(c, lo, m) && NonDecreasing(c) && |c| > 0 && c[0] != lo
    ensures c in Combos(|c|, lo, m)
    decreases |c|, m - lo, 0
  {
    RaiseLowerBound(c, lo, m);
    CombosComplete(c, lo + 1, m);
  }

  /** `a` comes strictly before `b` in lexicographic order. */
  predicate LexLess(a: seq<nat>, b: seq<nat>)
  {
    exists k :: 0 <= k < |a| && k < |b| && a[..k] == b[..k] && a[k] < b[k]
  }

  predicate LexSorted(cs: seq<seq<nat>>)
  {
    forall i, j :: 0 <= i < j < |cs| ==> LexLess(cs[i], cs[j])
  }

  lemma PrependKeepsLexOrder(x: nat, a: seq<nat>, b: seq<nat>)
    requires LexLess(a, b)
    ensures LexLess([x] + a, [x] + b)
  {
    var k :| 0 <= k < |a| && k < |b| && a[..k] == b[..k] && a[k] < b[k];
    assert ([x] + a)[..k + 1] == [x] + a[..k];
    assert ([x] + b)[..k + 1] == [x] + b[..k];
    assert ([x] + a)[k + 1] == a[k] && ([x] + b)[k + 1] == b[k];
  }

  lemma ConcatLexSorted(xs: seq<seq<nat>>, ys: seq<seq<nat>>)
    requires LexSorted(xs) && LexSorted(ys)
    requires forall i, j :: 0 <= i < |xs| && 0 <= j < |ys| ==> LexLess(xs[i], ys[j])
    ensures LexSorted(xs + ys)
  {
    var zs := xs + ys;
    forall i, j | 0 <= i < j < |zs| ensures LexLess(zs[i], zs[j]) {
      if j < |xs| {
        assert zs[i] == xs[i] && zs[j] == xs[j];
      } else if i < |xs| {
        assert zs[i] == xs[i] && zs[j] == ys[j - |xs|];
      } else {
        assert zs[i] == ys[i - |xs|] && zs[j] == ys[j - |xs|];
      }
    }
  }

  /** The enumeration is strictly increasing in lexicographic order, so it
      yields each multiset once and in the library's order. */
  lemma {:induction false} CombosLexSorted(k: nat, lo: nat, m: nat)
    ensures LexSorted(Combos(k, lo, m))
    decreases k, m - lo
  {
    if k > 0 && lo < m {
      var heads := Combos(k - 1, lo, m);
      var rest := Combos(k, lo + 1, m);
      CombosLexSorted(k - 1, lo, m);
      CombosLexSorted(k, lo + 1, m);
      var front := PrependAll(lo, heads);
      forall i, j | 0 <= i < j < |front| ensures LexLess(front[i], front[j]) {
        PrependKeepsLexOrder(lo, heads[i], heads[j]);
      }
      CombosSound(k, lo + 1, m);
      forall i, j | 0 <= i < |front| && 0 <= j < |rest| ensures LexLess(front[i], rest[j]) {
        assert front[i][..0] == rest[j][..0];
        assert front[i][0] == lo < rest[j][0];
      }
      ConcatLexSorted(front, rest);
    }
  }
}
