/*
 * The value-level pieces of the search in search/expectimax.py: Python
 * float values with their infinities, the running best of `best_move`,
 * the beam sort, the chance-node expectation with its early-break bound,
 * the clamp of `set_bepp_params` and the transposition key.
 */
module SearchValues {
  import opened Results

  /** `V_MAX`: the largest value the pruning bound assumes an evaluation can take. */
  const VMax: real := 1.0

  /** A search value: a Python float that is finite or one of the two infinities. */
  datatype Ext = NegInf | Fin(x: real) | PosInf

  /** Python's `a < b` on such values. */
  predicate Below(a: Ext, b: Ext)
  {
    match a
    case NegInf => !b.NegInf?
    case Fin(x) => b.PosInf? || (b.Fin? && x < b.x)
    case PosInf => false
  }

  /** `<` on values is a strict total order. */
  lemma BelowOrder(a: Ext, b: Ext, c: Ext)
    ensures !Below(a, a)
    ensures Below(a, b) && Below(b, c) ==> Below(a, c)
    ensures a == b || Below(a, b) || Below(b, a)
  {
  }

  /** Python's `max(a, b)`: the first argument unless the second is larger. */
  function Max(a: Ext, b: Ext): (m: Ext)
    ensures (m == a || m == b) && !Below(m, a) && !Below(m, b)
  {
    if Below(a, b) then b else a
  }

  /*
   * The running best of best_move
   */

  /** One evaluated root move: the value the search gave it and its index in `DIRECTIONS`. */
  datatype Scored = Scored(val: Ext, dir: nat)

  /**
   * `(best_val, best_dir)` after the evaluated moves `t` in order: starts at
   * `-inf` with no direction and takes a move only when its value is strictly larger.
   */
  function Best(t: seq<Scored>): (r: (Ext, Option<nat>))
    ensures r.1.Some? ==> exists j :: 0 <= j < |t| && t[j].dir == r.1.value
  {
    if t == [] then (NegInf, None)
    else
      var p := Best(t[..|t| - 1]);
      if Below(p.0, t[|t| - 1].val) then (t[|t| - 1].val, Some(t[|t| - 1].dir)) else p
  }

  /**
   * The best value is an upper bound of every evaluated value, no direction
   * is chosen exactly when every value is `-inf`, and the chosen direction
   * is the first move reaching the best value: every earlier one is strictly smaller.
   */
  lemma {:induction false} BestIsFirstMax(t: seq<Scored>)
    ensures forall i :: 0 <= i < |t| ==> !Below(Best(t).0, t[i].val)
    ensures Best(t).1.None? <==> Best(t).0 == NegInf
    ensures Best(t).1.None? <==> forall i :: 0 <= i < |t| ==> t[i].val == NegInf
    ensures Best(t).1.Some? ==>
      exists j :: 0 <= j < |t| && t[j] == Scored(Best(t).0, Best(t).1.value) && forall i :: 0 <= i < j ==> Below(t[i].val, Best(t).0)
  {
    if t != [] {
      var s := t[..|t| - 1];
      var last := t[|t| - 1];
      BestIsFirstMax(s);
      var p := Best(s);
      forall i | 0 <= i < |t| ensures !Below(Best(t).0, t[i].val) {
        if i < |s| {
          assert t[i] == s[i];
          BelowOrder(Best(t).0, p.0, t[i].val);
          BelowOrder(p.0, last.val, t[i].val);
        } else {
          BelowOrder(p.0, last.val, last.val);
        }
      }
      if Below(p.0, last.val) {
        var j := |t| - 1;
        forall i | 0 <= i < j ensures Below(t[i].val, last.val) {
          assert t[i] == s[i];
          BelowOrder(t[i].val, p.0, last.val);
        }
      } else if p.1.Some? {
        var j :| 0 <= j < |s| && s[j] == Scored(p.0, p.1.value) && forall i :: 0 <= i < j ==> Below(s[i].val, p.0);
        assert t[j] == s[j];
        forall i | 0 <= i < j ensures Below(t[i].val, p.0) {
          assert t[i] == s[i];
        }
      } else {
        forall i | 0 <= i < |t| ensures t[i].val == NegInf {
          if i < |s| {
            assert t[i] == s[i];
          }
        }
      }
    }
  }

  /** Once a direction is chosen, later moves can replace it but never clear it. */
  lemma BestKeepsChoice(t: seq<Scored>, x: Scored)
    requires Best(t).1.Some?
    ensures Best(t + [x]).1.Some?
  {
    assert (t + [x])[..|t|] == t;
  }

  /** One more evaluated move replaces the best exactly when its value is strictly larger. */
  lemma BestStep(t: seq<Scored>, x: Scored)
    ensures Best(t + [x]) == if Below(Best(t).0, x.val) then (x.val, Some(x.dir)) else Best(t)
  {
    assert (t + [x])[..|t|] == t;
  }

  /** The directions of the evaluated moves, in order. */
  function Dirs(t: seq<Scored>): (ds: seq<nat>)
    ensures |ds| == |t|
  {
    if t == [] then [] else Dirs(t[..|t| - 1]) + [t[|t| - 1].dir]
  }

  /** The i-th direction listed is the direction of the i-th evaluated move. */
  lemma {:induction false} DirsAt(t: seq<Scored>)
    ensures forall i :: 0 <= i < |t| ==> Dirs(t)[i] == t[i].dir
  {
    if t != [] {
      DirsAt(t[..|t| - 1]);
    }
  }

  lemma DirsAppend(t: seq<Scored>, x: Scored)
    ensures Dirs(t + [x]) == Dirs(t) + [x.dir]
  {
    assert (t + [x])[..|t|] == t;
  }

  /*
   * The beam of best_move
   */

  /** A beam entry `(eval_fn(tmp), dir_, tmp)`, with the direction as its index in `DIRECTIONS`. */
  datatype Cand = Cand(score: real, dir: nat, child: bv64)

  /** Insertion into a list sorted by descending score, after the entries of equal score. */
  function Insert(c: Cand, s: seq<Cand>): (r: seq<Cand>)
    ensures |r| == |s| + 1
  {
    if s == [] then [c]
    else if s[0].score < c.score then [c] + s
    else [s[0]] + Insert(c, s[1..])
  }

  /** `moves.sort(reverse=True, key=lambda t: t[0])`, a stable sort by descending score. */
  function SortDesc(s: seq<Cand>): (r: seq<Cand>)
    ensures |r| == |s|
  {
    if s == [] then [] else Insert(s[|s| - 1], SortDesc(s[..|s| - 1]))
  }

  /** Entries in direction order, as the beam list is built. */
  predicate Increasing(s: seq<Cand>)
  {
    forall i, j :: 0 <= i < j < |s| ==> s[i].dir < s[j].dir
  }

  /** Entry a comes before entry b: a higher score, or the same score and an earlier direction. */
  predicate Before(a: Cand, b: Cand)
  {
    a.score > b.score || (a.score == b.score && a.dir < b.dir)
  }

  /** Descending score, and among equal scores ascending direction. */
  predicate Ranked(s: seq<Cand>)
  {
    forall i, j :: 0 <= i < j < |s| ==> Before(s[i], s[j])
  }

  lemma RankedCons(x: Cand, r: seq<Cand>)
    requires Ranked(r) && forall k :: 0 <= k < |r| ==> Before(x, r[k])
    ensures Ranked([x] + r)
  {
    var t := [x] + r;
    forall i, j | 0 <= i < j < |t| ensures Before(t[i], t[j]) {
      assert t[j] == r[j - 1];
      if i > 0 {
        assert t[i] == r[i - 1];
      }
    }
  }

  lemma RankedTail(s: seq<Cand>)
    requires Ranked(s) && s != []
    ensures Ranked(s[1..])
  {
    var tail := s[1..];
    forall i, j | 0 <= i < j < |tail| ensures Before(tail[i], tail[j]) {
      assert tail[i] == s[i + 1] && tail[j] == s[j + 1];
    }
  }

  /** Insertion adds its entry and keeps the others. */
  lemma {:induction false} InsertMultiset(c: Cand, s: seq<Cand>)
    ensures multiset(Insert(c, s)) == multiset(s) + multiset{c}
  {
    if s != [] && s[0].score >= c.score {
      InsertMultiset(c, s[1..]);
      assert s == [s[0]] + s[1..];
    }
  }

  /** Inserting an entry of a later direction into a ranked list keeps it ranked. */
  lemma {:induction false} InsertRanked(c: Cand, s: seq<Cand>)
    requires Ranked(s)
    requires forall i :: 0 <= i < |s| ==> s[i].dir < c.dir
    ensures Ranked(Insert(c, s))
  {
    if s == [] {
    } else if s[0].score < c.score {
      forall k | 0 <= k < |s| ensures Before(c, s[k]) {
        if k > 0 {
          assert Before(s[0], s[k]);
        }
      }
      RankedCons(c, s);
    } else {
      var tail := s[1..];
      RankedTail(s);
      InsertRanked(c, tail);
      var r := Insert(c, tail);
      InsertMultiset(c, tail);
      forall k | 0 <= k < |r| ensures Before(s[0], r[k]) {
        assert r[k] in multiset(r);
        if r[k] != c {
          assert r[k] in multiset(tail);
          var m :| 0 <= m < |tail| && tail[m] == r[k];
          assert s[m + 1] == r[k];
        }
      }
      RankedCons(s[0], r);
    }
  }

  /**
   * The sort of a list in direction order ranks it by descending score with
   * ties in direction order, and keeps exactly its entries.
   */
  lemma {:induction false} SortRanked(s: seq<Cand>)
    requires Increasing(s)
    ensures Ranked(SortDesc(s))
    ensures multiset(SortDesc(s)) == multiset(s)
  {
    if s != [] {
      var init := s[..|s| - 1];
      var c := s[|s| - 1];
      SortRanked(init);
      var t := SortDesc(init);
      forall k | 0 <= k < |init| ensures init[k].dir < c.dir {
        assert init[k] == s[k];
      }
      DirsBelow(t, init, c.dir);
      InsertRanked(c, t);
      InsertMultiset(c, t);
      assert s == init + [c];
    }
  }

  /** A rearrangement of entries that all precede direction d still does. */
  lemma DirsBelow(t: seq<Cand>, s: seq<Cand>, d: nat)
    requires multiset(t) == multiset(s)
    requires forall k :: 0 <= k < |s| ==> s[k].dir < d
    ensures forall i :: 0 <= i < |t| ==> t[i].dir < d
  {
    forall i | 0 <= i < |t| ensures t[i].dir < d {
      assert t[i] in multiset(s);
    }
  }

  /** `moves[:BEAM_K]`. */
  function Take(s: seq<Cand>, k: int): (r: seq<Cand>)
    requires k >= 1
    ensures |r| == if |s| < k then |s| else k
  {
    if |s| <= k then s else s[..k]
  }

  /*
   * The chance node
   */

  /** One outcome a chance node has accounted for: its probability and the value it contributes. */
  datatype Draw = Draw(prob: real, val: real)

  /** `p_seen`: the probability mass of the outcomes. */
  function ProbSum(ds: seq<Draw>): real
  {
    if ds == [] then 0.0 else ProbSum(ds[..|ds| - 1]) + ds[|ds| - 1].prob
  }

  /** `running`: the probability-weighted sum of the outcome values. */
  function Weighted(ds: seq<Draw>): real
  {
    if ds == [] then 0.0 else Weighted(ds[..|ds| - 1]) + ds[|ds| - 1].prob * ds[|ds| - 1].val
  }

  lemma {:induction false} SumsAppend(a: seq<Draw>, b: seq<Draw>)
    ensures ProbSum(a + b) == ProbSum(a) + ProbSum(b)
    ensures Weighted(a + b) == Weighted(a) + Weighted(b)
  {
    if b != [] {
      var b' := b[..|b| - 1];
      SumsAppend(a, b');
      assert (a + b)[..|a + b| - 1] == a + b';
      assert (a + b)[|a + b| - 1] == b[|b| - 1];
    } else {
      assert a + b == a;
    }
  }

  lemma ScaleBounds(p: real, v: real, lo: real, hi: real)
    requires p >= 0.0 && lo <= v <= hi
    ensures p * lo <= p * v <= p * hi
  {
  }

  /** With values in [lo, hi] and non-negative probabilities, the weighted sum lies between lo and hi times the mass. */
  lemma {:induction false} WeightedWithin(ds: seq<Draw>, lo: real, hi: real)
    requires forall i :: 0 <= i < |ds| ==> ds[i].prob >= 0.0 && lo <= ds[i].val <= hi
    ensures ProbSum(ds) >= 0.0
    ensures lo * ProbSum(ds) <= Weighted(ds) <= hi * ProbSum(ds)
  {
    if ds != [] {
      var d := ds[|ds| - 1];
      var init := ds[..|ds| - 1];
      WeightedWithin(init, lo, hi);
      AddWithin(Weighted(init), ProbSum(init), d.prob, d.val, lo, hi);
    }
  }

  /** One more outcome with its value in [lo, hi] keeps the weighted sum between lo and hi times the mass. */
  lemma AddWithin(w: real, p: real, q: real, v: real, lo: real, hi: real)
    requires lo * p <= w <= hi * p && q >= 0.0 && lo <= v <= hi
    ensures lo * (p + q) <= w + q * v <= hi * (p + q)
  {
    ScaleBounds(q, v, lo, hi);
    Distribute(p, q, lo);
    Distribute(p, q, hi);
  }

  lemma DivWithin(w: real, p: real, lo: real, hi: real)
    requires p > 0.0 && lo * p <= w <= hi * p
    ensures lo <= w / p <= hi
  {
  }

  /** `running / p_seen` is a weighted mean: it stays within the bounds of the values. */
  lemma MeanWithin(ds: seq<Draw>, lo: real, hi: real)
    requires forall i :: 0 <= i < |ds| ==> ds[i].prob >= 0.0 && lo <= ds[i].val <= hi
    requires ProbSum(ds) > 0.0
    ensures lo <= Weighted(ds) / ProbSum(ds) <= hi
  {
    WeightedWithin(ds, lo, hi);
    DivWithin(Weighted(ds), ProbSum(ds), lo, hi);
  }

  /** The early-break bound as written: `running + (1 - p_seen) * V_MAX`. */
  function UpperAsWritten(running: real, pSeen: real): real
  {
    running + (1.0 - pSeen) * VMax
  }

  /**
   * The bound on the node's final `running / p_seen` once all of its `mass`
   * (one unit per empty cell) has been seen: the unseen mass adds at most `V_MAX` per unit.
   */
  function Upper(running: real, pSeen: real, mass: real): real
    requires mass > 0.0
  {
    (running + (mass - pSeen) * VMax) / mass
  }

  /**
   * The probability mass a chance node's break test assumes: 1 as written
   * at search/expectimax.py:131, or one unit per empty cell, the node's
   * whole mass, as corrected.
   */
  function BreakMass(written: bool, cells: nat): (m: real)
    ensures written || cells > 0 ==> m >= 1.0
  {
    if written then 1.0 else cells as real
  }

  /** The bound as written is the corrected formula over a mass of 1. */
  lemma UnitMassAsWritten(running: real, pSeen: real)
    ensures Upper(running, pSeen, BreakMass(true, 0)) == UpperAsWritten(running, pSeen)
  {
  }

  lemma DivMono(a: real, b: real, m: real)
    requires m > 0.0 && a <= b
    ensures a / m <= b / m
  {
  }

  /**
   * Whatever the outcomes still to come, as long as their values are at
   * most `V_MAX`, the final expectation is at most `Upper` of what was seen:
   * breaking when `Upper` is below alpha never discards a value that beats alpha.
   */
  lemma UpperBounds(seen: seq<Draw>, rest: seq<Draw>)
    requires forall i :: 0 <= i < |rest| ==> rest[i].prob >= 0.0 && rest[i].val <= VMax
    requires ProbSum(seen + rest) > 0.0
    ensures Weighted(seen + rest) / ProbSum(seen + rest) <= Upper(Weighted(seen), ProbSum(seen), ProbSum(seen + rest))
  {
    SumsAppend(seen, rest);
    WeightedRestBound(rest);
    DivMono(Weighted(seen + rest), Weighted(seen) + (ProbSum(seen + rest) - ProbSum(seen)) * VMax, ProbSum(seen + rest));
  }

  /** Outcomes worth at most `V_MAX` add at most `V_MAX` per unit of their mass. */
  lemma {:induction false} WeightedRestBound(rest: seq<Draw>)
    requires forall i :: 0 <= i < |rest| ==> rest[i].prob >= 0.0 && rest[i].val <= VMax
    ensures Weighted(rest) <= ProbSum(rest) * VMax
  {
    if rest != [] {
      var d := rest[|rest| - 1];
      var init := rest[..|rest| - 1];
      WeightedRestBound(init);
      AddBound(Weighted(init), ProbSum(init), d.prob, d.val, VMax);
    }
  }

  /** One more outcome of probability q and value at most m keeps the weighted sum below m times the mass. */
  lemma AddBound(w: real, p: real, q: real, v: real, m: real)
    requires w <= p * m && q >= 0.0 && v <= m
    ensures w + q * v <= (p + q) * m
  {
    ScaleBounds(q, v, v, m);
    Distribute(p, q, m);
  }

  lemma Distribute(a: real, b: real, c: real)
    ensures (a + b) * c == a * c + b * c
  {
  }

  /**
   * The bound as written assumes a total mass of 1, but a node with two empty
   * cells has mass 2: after a first outcome worth 0.5 it reports 0.55, below
   * an alpha of 0.6, while the node's expectation, were the rest worth 1, is 0.775.
   */
  lemma UpperAsWrittenBreaksEarly()
    ensures ProbSum([Draw(0.9, 0.5), Draw(0.1, 1.0), Draw(0.9, 1.0), Draw(0.1, 1.0)]) == 2.0
    ensures Weighted([Draw(0.9, 0.5), Draw(0.1, 1.0), Draw(0.9, 1.0), Draw(0.1, 1.0)]) == 1.55
    ensures UpperAsWritten(Weighted([Draw(0.9, 0.5)]), ProbSum([Draw(0.9, 0.5)])) < 0.6
    ensures Weighted([Draw(0.9, 0.5), Draw(0.1, 1.0), Draw(0.9, 1.0), Draw(0.1, 1.0)])
      / ProbSum([Draw(0.9, 0.5), Draw(0.1, 1.0), Draw(0.9, 1.0), Draw(0.1, 1.0)]) > 0.6
    ensures Upper(Weighted([Draw(0.9, 0.5)]), ProbSum([Draw(0.9, 0.5)]), 2.0) >= 0.6
  {
    var d1, d2, d3, d4 := Draw(0.9, 0.5), Draw(0.1, 1.0), Draw(0.9, 1.0), Draw(0.1, 1.0);
    var all := [d1, d2, d3, d4];
    assert [d1][..0] == [];
    assert all[..3] == [d1, d2, d3] && [d1, d2, d3][..2] == [d1, d2] && [d1, d2][..1] == [d1];
    assert Weighted([d1]) == 0.45 && ProbSum([d1]) == 0.9;
    assert Weighted([d1, d2]) == 0.55 && ProbSum([d1, d2]) == 1.0;
    assert Weighted([d1, d2, d3]) == 1.45 && ProbSum([d1, d2, d3]) == 1.9;
  }

  /*
   * set_bepp_params
   */

  /** `max(0.0, min(1.0, x))`. */
  function Clamp(x: real): (y: real)
    ensures 0.0 <= y <= 1.0
  {
    if x < 0.0 then 0.0 else if x > 1.0 then 1.0 else x
  }

  function Dist(a: real, b: real): real
  {
    if a < b then b - a else a - b
  }

  /** The clamp is the point of [0, 1] nearest its argument, so it leaves [0, 1] alone. */
  lemma ClampNearest(x: real, z: real)
    requires 0.0 <= z <= 1.0
    ensures Dist(Clamp(x), x) <= Dist(z, x)
    ensures 0.0 <= x <= 1.0 ==> Clamp(x) == x
  {
  }

  /*
   * The transposition key
   */

  /**
   * `hash(board)` as written: `__hash__` returns the board word as an
   * integer; CPython keeps a result that fits a signed 64-bit word and
   * otherwise replaces it by its integer hash, its remainder modulo 2^61 - 1.
   */
  function HashKey(b: bv64): int
  {
    var n := b as int;
    if n < 0x8000_0000_0000_0000 then n else n % 0x1FFF_FFFF_FFFF_FFFF
  }

  /**
   * Two different boards share a key: a 2 in the first cell with a 256 in
   * the last, and a lone 32 in the first cell; each one's table entry is
   * then read back for the other.
   */
  lemma HashKeyCollides()
    ensures HashKey(0x8000_0000_0000_0001) == HashKey(0x5) == 5
  {
  }
}
