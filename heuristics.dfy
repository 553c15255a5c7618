/*
 * The board evaluations of eval/heuristics.py over exact reals.  The only
 * logarithm taken is `log2` of `max_tile`, a power of two, where it is exact.
 */
module Heuristics {
  import opened RowTables
  import opened BitBoard
  import opened BoardObject

  /** The number of empty cells among cells 0 .. n-1. */
  function EmptyCountBelow(b: bv64, n: nat): (k: nat)
    requires n <= 16
    ensures k <= n
  {
    if n == 0 then 0
    else EmptyCountBelow(b, n - 1) + (if Cell(b, Ix16(n - 1)) == 0 then 1 else 0)
  }

  /** `sum(((raw >> (i * 4)) & 0xF) == 0 for i in range(16))`. */
  function EmptyCount(b: bv64): (k: nat)
    ensures k <= 16
  {
    EmptyCountBelow(b, 16)
  }

  /** The count agrees with the length of the empty-cell list of `get_empty_cells`. */
  lemma {:induction false} EmptyCountBelowList(b: bv64, n: nat)
    requires n <= 16
    ensures EmptyCountBelow(b, n) == |EmptyBelow(b, n)|
  {
    if n > 0 {
      EmptyCountBelowList(b, n - 1);
    }
  }

  lemma EmptyCountList(b: bv64)
    ensures EmptyCount(b) == |EmptyList(b)|
  {
    EmptyCountBelowList(b, 16);
  }

  /** Every cell of the empty board is empty. */
  lemma {:induction false} EmptyCountBelowZero(n: nat)
    requires n <= 16
    ensures EmptyCountBelow(0, n) == n
  {
    if n > 0 {
      EmptyCountBelowZero(n - 1);
      assert Cell(0, Ix16(n - 1)) == 0;
    }
  }

  /** Filling one empty cell p, and no other, takes one off the count of every prefix that holds p. */
  lemma {:induction false} EmptyCountBelowFill(b: bv64, b': bv64, p: nat, n: nat)
    requires p < 16 && n <= 16
    requires Cell(b, Ix16(p)) == 0 && Cell(b', Ix16(p)) != 0
    requires forall k: nat :: k < 16 && k != p ==> Cell(b', Ix16(k)) == Cell(b, Ix16(k))
    ensures EmptyCountBelow(b', n) + (if p < n then 1 else 0) == EmptyCountBelow(b, n)
  {
    if n > 0 {
      EmptyCountBelowFill(b, b', p, n - 1);
    }
  }

  /** `_add_random_tile` on a board with an empty cell fills exactly one of them. */
  lemma SpawnFills(b: bv64, pick: nat, coin: real)
    requires HasEmpty(b)
    ensures EmptyCount(Spawn(b, pick, coin)) + 1 == EmptyCount(b)
  {
    SpawnPlaces(b, pick, coin);
    var b' := Spawn(b, pick, coin);
    var q := EmptyList(b)[pick % |EmptyList(b)|];
    var p := PosCell(q);
    AtCell(b, Ix16(p));
    AtCell(b', Ix16(p));
    forall k: nat | k < 16 && k != p
      ensures Cell(b', Ix16(k)) == Cell(b, Ix16(k))
    {
      OtherCell(b, b', q, p, k);
    }
    EmptyCountBelowFill(b, b', p, 16);
  }

  /** The cell number of a position on the board. */
  lemma PosCell(q: Pos) returns (p: nat)
    requires q.r < 4 && q.c < 4
    ensures p < 16 && At(Ix16(p)) == q
  {
    p := Index(q) as nat;
  }

  /** A cell other than q's reads, through `Cell`, what `_get` reads there. */
  lemma OtherCell(b: bv64, b': bv64, q: Pos, p: nat, k: nat)
    requires p < 16 && k < 16 && k != p && At(Ix16(p)) == q
    requires forall r: bv8, c: bv8 :: r < 4 && c < 4 && (r != q.r || c != q.c) ==> Get(b', r, c) == Get(b, r, c)
    ensures Cell(b', Ix16(k)) == Cell(b, Ix16(k))
  {
    AtCell(b, Ix16(k));
    AtCell(b', Ix16(k));
    AtCell(b, Ix16(p));
    assert Ix16(k) != Ix16(p);
  }

  /**
   * The board `Board()` starts from: two spawns on the empty board leave 14
   * empty cells, and every tile on it is a 2 or a 4 (exponent 1 or 2).
   */
  lemma FreshBoard(pick1: nat, coin1: real, pick2: nat, coin2: real)
    ensures var b := Spawn(Spawn(0, pick1, coin1), pick2, coin2);
      && EmptyCount(b) == 14
      && forall r: bv8, c: bv8 :: r < 4 && c < 4 ==> Get(b, r, c) <= 2
  {
    var b1 := Spawn(0, pick1, coin1);
    var b := Spawn(b1, pick2, coin2);
    assert HasEmpty(0) by { assert Cell(0, 0) == 0; }
    EmptyCountBelowZero(16);
    SpawnFills(0, pick1, coin1);
    assert HasEmpty(b1) by {
      EmptyCountList(b1);
      EmptyListNone(b1);
    }
    SpawnFills(b1, pick2, coin2);
    SpawnLow(0, pick1, coin1);
    SpawnLow(b1, pick2, coin2);
  }

  /** A spawn on a board whose tiles are at most 4 keeps them at most 4. */
  lemma SpawnLow(b: bv64, pick: nat, coin: real)
    requires HasEmpty(b)
    requires forall r: bv8, c: bv8 :: r < 4 && c < 4 ==> Get(b, r, c) <= 2
    ensures forall r: bv8, c: bv8 :: r < 4 && c < 4 ==> Get(Spawn(b, pick, coin), r, c) <= 2
  {
    SpawnPlaces(b, pick, coin);
    var q := EmptyList(b)[pick % |EmptyList(b)|];
    forall r: bv8, c: bv8 | r < 4 && c < 4
      ensures Get(Spawn(b, pick, coin), r, c) <= 2
    {
      if r == q.r && c == q.c {
        assert Get(Spawn(b, pick, coin), r, c) == SpawnExp(coin);
      } else {
        assert Get(Spawn(b, pick, coin), r, c) == Get(b, r, c);
      }
    }
  }

  /** `int(math.log2(x))` for x >= 1: the floor of the base-2 logarithm. */
  function Log2Floor(x: nat): nat
  {
    if x < 2 then 0 else 1 + Log2Floor(x / 2)
  }

  /** On a power of two the logarithm is exact: `log2(1 << e) == e`. */
  lemma {:induction false} Log2Pow2(e: nat)
    ensures Log2Floor(Pow2(e)) == e
  {
    if e > 0 {
      Log2Pow2(e - 1);
      assert Pow2(e) / 2 == Pow2(e - 1);
    }
  }

  /** Powers of two grow with the exponent. */
  lemma {:induction false} Pow2Monotone(e: nat, n: nat)
    requires e <= n
    ensures Pow2(e) <= Pow2(n)
  {
    if e < n {
      Pow2Monotone(e, n - 1);
    }
  }

  /** 2^e is at most 2^15 for an exponent a nibble can hold. */
  lemma Pow2Nibble(e: nat)
    requires e < 16
    ensures Pow2(e) <= 32768
  {
    Pow2Monotone(e, 15);
    assert Pow2(15) == 32768;
  }

  /** `basic_eval`: the empty-cell count plus `max_tile / 2048`. */
  function BasicEval(b: bv64): real
  {
    EmptyCount(b) as real + MaxTile(b) as real / 2048.0
  }

  /** The max-tile bonus of `basic_eval` is positive and at most 16, so the count dominates. */
  lemma BasicEvalBounds(b: bv64)
    ensures EmptyCount(b) as real < BasicEval(b) <= EmptyCount(b) as real + 16.0
  {
    Pow2Nibble(MaxExp(b) as nat);
  }

  /** `bounded_eval`: 0.6 times the empty-cell ratio plus 0.4 times the max exponent over 16. */
  function BoundedEval(b: bv64): real
  {
    var emptyRatio := EmptyCount(b) as real / 16.0;
    var maxRatio := Log2Floor(MaxTile(b)) as real / 16.0;
    0.6 * emptyRatio + 0.4 * maxRatio
  }

  /** Because `max_tile` is `1 << max_exponent`, the logarithm recovers the exponent exactly. */
  lemma BoundedEvalForm(b: bv64)
    ensures BoundedEval(b) == 0.6 * (EmptyCount(b) as real / 16.0) + 0.4 * ((MaxExp(b) as nat) as real / 16.0)
  {
    Log2Pow2(MaxExp(b) as nat);
  }

  /** `bounded_eval` lies in [0, 1); with exponents below 16 the value 1 is never reached. */
  lemma BoundedEvalRange(b: bv64)
    ensures 0.0 <= BoundedEval(b) < 1.0
  {
    BoundedEvalForm(b);
  }

  /** On the empty board `max_tile` is 1 and `bounded_eval` is 0.6. */
  lemma BoundedEvalEmpty()
    ensures BoundedEval(0) == 0.6
  {
    EmptyCountBelowZero(16);
    BoundedEvalForm(0);
    assert MaxBelow(0, 16) == 0 by {
      MaxBelowAttained(0, 16);
    }
  }

  /** With the same largest tile, more empty cells give a strictly larger `bounded_eval`. */
  lemma BoundedEvalMonotone(a: bv64, b: bv64)
    requires MaxExp(a) == MaxExp(b) && EmptyCount(a) < EmptyCount(b)
    ensures BoundedEval(a) < BoundedEval(b)
  {
    BoundedEvalForm(a);
    BoundedEvalForm(b);
  }
}
