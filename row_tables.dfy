/*
 * The row tables of the bit-board engine (board.py, lines 10-40).
 *
 * A row is a 16-bit word holding four 4-bit tile exponents, cell 0 in the
 * low nibble; exponent 0 is an empty cell.  `LeftRow` is the row merge of
 * `_left_row`; `Tables` is the three 65536-entry lookup tables that the
 * module-level loop fills from it.
 */
module RowTables {

  /** 2^e, the value of a tile of exponent e. */
  function Pow2(e: nat): (p: nat)
    ensures p >= 1
  {
    if e == 0 then 1 else 2 * Pow2(e - 1)
  }

  /** The exponent stored in nibble i of a row: `(row16 >> (4 * i)) & 0xF`. */
  function Nib(r: bv16, i: bv8): (e: bv8)
    requires i < 4
    ensures e < 16
  {
    ((r >> (4 * (i as bv16))) & 0xF) as bv8
  }

  /** The list `tiles` of `_left_row`: the four exponents of a row, cell 0 first. */
  function Tiles(r: bv16): (t: seq<bv8>)
    ensures |t| == 4
  {
    [Nib(r, 0), Nib(r, 1), Nib(r, 2), Nib(r, 3)]
  }

  /** Entry c of the tile list is nibble c. */
  lemma TileAt(r: bv16, c: bv8)
    requires c < 4
    ensures Tiles(r)[c as int] == Nib(r, c)
  {
    if c == 0 {
    } else if c == 1 {
    } else if c == 2 {
    } else {
    }
  }

  /**
   * `new[0] | (new[1] << 4) | (new[2] << 8) | (new[3] << 12)`.  The entries
   * may be 16 (two merged 15s); such an entry sets bit 0 of the next nibble.
   */
  function Pack(s: seq<bv8>): bv16
    requires |s| == 4
  {
    (s[0] as bv16) | ((s[1] as bv16) << 4) | ((s[2] as bv16) << 8) | ((s[3] as bv16) << 12)
  }

  /** A row is the packing of its own tiles. */
  lemma PackTiles(r: bv16)
    ensures Pack(Tiles(r)) == r
  {
  }

  /** The nibbles of a packing: an entry 16 leaves 0 in its own nibble and ORs 1 into the next one. */
  lemma PackNibbles(s: seq<bv8>)
    requires |s| == 4 && s[0] <= 16 && s[1] <= 16 && s[2] <= 16 && s[3] < 16
    ensures Tiles(Pack(s)) == [s[0] & 0xF, (s[1] & 0xF) | (s[0] >> 4), (s[2] & 0xF) | (s[1] >> 4), (s[3] & 0xF) | (s[2] >> 4)]
  {
  }

  /** Packing exponents below 16 and reading them back gives them unchanged. */
  lemma TilesPack(s: seq<bv8>)
    requires |s| == 4 && s[0] < 16 && s[1] < 16 && s[2] < 16 && s[3] < 16
    ensures Tiles(Pack(s)) == s
  {
  }

  /** The list `new = [t for t in tiles if t]`. */
  function NonZero(t: seq<bv8>): (s: seq<bv8>)
    ensures |s| <= |t|
  {
    if t == [] then []
    else if t[0] != 0 then [t[0]] + NonZero(t[1..])
    else NonZero(t[1..])
  }

  /** The compressed list holds only non-empty cells of the row. */
  lemma {:induction false} NonZeroFrom(t: seq<bv8>)
    ensures forall i :: 0 <= i < |NonZero(t)| ==> NonZero(t)[i] != 0 && NonZero(t)[i] in t
  {
    if t != [] {
      NonZeroFrom(t[1..]);
      forall i | 0 <= i < |NonZero(t)|
        ensures NonZero(t)[i] != 0 && NonZero(t)[i] in t
      {
        if t[0] != 0 && i > 0 {
          assert NonZero(t)[i] == NonZero(t[1..])[i - 1];
        }
        if t[0] == 0 || i > 0 {
          var j := if t[0] == 0 then i else i - 1;
          assert NonZero(t[1..])[j] in t[1..];
        }
      }
    }
  }

  /** An exponent a row can hold in a non-empty cell. */
  predicate Tile(x: bv8) { 0 < x < 16 }

  /** An exponent a merge can produce: one more than a tile, so at most 16. */
  predicate Merged(x: bv8) { 0 < x <= 16 }

  /**
   * The sweep of `_left_row` over the compressed tiles: a pair of equal
   * neighbours becomes one tile of the next exponent and scores 2^(new
   * exponent); the sweep then continues after the pair, so no tile merges
   * twice.  Returns the merged list and the score.
   */
  function Merge(s: seq<bv8>): (m: (seq<bv8>, nat))
    ensures |m.0| <= |s|
  {
    if |s| < 2 then (s, 0)
    else if s[0] == s[1] then
      var rest := Merge(s[2..]);
      ([s[0] + 1] + rest.0, Pow2(s[0] as nat + 1) + rest.1)
    else
      var rest := Merge(s[1..]);
      ([s[0]] + rest.0, rest.1)
  }

  /**
   * The sweep at least halves the list, its entries are at most 16, and it
   * scores exactly when it shortens the list; otherwise it returns the list itself.
   */
  lemma {:induction false} MergeShape(s: seq<bv8>)
    requires forall i :: 0 <= i < |s| ==> Tile(s[i])
    ensures 2 * |Merge(s).0| >= |s|
    ensures forall i :: 0 <= i < |Merge(s).0| ==> Merged(Merge(s).0[i])
    ensures |Merge(s).0| == |s| <==> Merge(s) == (s, 0)
    ensures |Merge(s).0| < |s| <==> Merge(s).1 > 0
  {
    var m := Merge(s);
    if |s| < 2 {
      forall i | 0 <= i < |s| ensures Merged(s[i]) {
        assert Tile(s[i]);
      }
    } else {
      assert Tile(s[0]);
      var k := if s[0] == s[1] then 2 else 1;
      MergeShape(s[k..]);
      var rest := Merge(s[k..]);
      assert m.0[1..] == rest.0;
      forall i | 0 <= i < |m.0| ensures Merged(m.0[i]) {
        if i > 0 {
          assert m.0[i] == rest.0[i - 1];
        }
      }
      if k == 1 && |rest.0| == |s| - 1 {
        assert m.0 == [s[0]] + s[1..] == s;
      }
    }
  }

  /** `new += [0] * (4 - len(new))`. */
  function Pad(s: seq<bv8>): (p: seq<bv8>)
    requires |s| <= 4
    ensures |p| == 4
  {
    s + seq(4 - |s|, _ => 0)
  }

  lemma TilesAreTiles(r: bv16)
    ensures forall i :: 0 <= i < |NonZero(Tiles(r))| ==> Tile(NonZero(Tiles(r))[i])
  {
    var s := NonZero(Tiles(r));
    NonZeroFrom(Tiles(r));
    forall i | 0 <= i < |s| ensures Tile(s[i]) {
      assert s[i] in Tiles(r);
    }
  }

  /** The merged list of a row, before padding. */
  function MergedRow(r: bv16): (m: (seq<bv8>, nat))
    ensures |m.0| <= |NonZero(Tiles(r))| <= 4
  {
    TilesAreTiles(r);
    Merge(NonZero(Tiles(r)))
  }

  /** What `_left_row(r)` returns: the packed left-merged row and its score. */
  function LeftRowSpec(r: bv16): (bv16, nat)
  {
    var m := MergedRow(r);
    (Pack(Pad(m.0)), m.1)
  }

  /** The nibble reversal of lines 36-37 (and 39-40). */
  function Reverse(r: bv16): bv16
  {
    ((r >> 12) & 0xF) | ((r >> 4) & 0xF0) | ((r << 4) & 0xF00) | ((r << 12) & 0xF000)
  }

  /** `ROW_RIGHT[r]`: reverse, merge left, reverse back. */
  function RightRowSpec(r: bv16): bv16
  {
    Reverse(LeftRowSpec(Reverse(r)).0)
  }

  /** Reversal mirrors the tiles and is an involution. */
  lemma ReverseTiles(r: bv16)
    ensures Tiles(Reverse(r)) == [Tiles(r)[3], Tiles(r)[2], Tiles(r)[1], Tiles(r)[0]]
    ensures Reverse(Reverse(r)) == r
  {
  }

  /**
   * `_left_row` as written: the list `new` (here `line`) is merged in place by a while
   * loop that increments `new[i]` and deletes `new[i + 1]`.
   */
  method LeftRow(row16: bv16) returns (res: bv16, score: nat)
    ensures (res, score) == LeftRowSpec(row16)
  {
    var tiles := Tiles(row16);
    var line := NonZero(tiles);
    TilesAreTiles(row16);
    ghost var whole := line;
    score := 0;
    var i := 0;
    assert line[..0] + line[0..] == line;
    while i < |line| - 1
      invariant 0 <= i <= |line|
      invariant Swept(whole, line, i, score)
    {
      if line[i] == line[i + 1] {
        ghost var pre := line;
        line := line[i := line[i] + 1];
        score := score + Pow2(line[i] as nat);
        line := line[..i + 1] + line[i + 2..];
        SweepMerges(whole, pre, i, score - Pow2(pre[i] as nat + 1));
      } else {
        SweepKeeps(whole, line, i, score);
      }
      i := i + 1;
    }
    SweepDone(whole, line, i, score);
    line := Pad(line);
    res := Pack(line);
  }

  /**
   * The sweep state of `_left_row` at position i: the merged prefix of `line`,
   * followed by the merge of what is left, is the merge of the whole list.
   */
  predicate Swept(whole: seq<bv8>, line: seq<bv8>, i: nat, score: nat)
  {
    && i <= |line|
    && (forall k :: 0 <= k < |whole| ==> Tile(whole[k]))
    && (forall k :: i <= k < |line| ==> Tile(line[k]))
    && line[..i] + Merge(line[i..]).0 == Merge(whole).0
    && score + Merge(line[i..]).1 == Merge(whole).1
  }

  /** The sweep step at position i when the pair there merges. */
  lemma SweepMerges(whole: seq<bv8>, pre: seq<bv8>, i: nat, score: nat)
    requires i + 1 < |pre| && pre[i] == pre[i + 1]
    requires Swept(whole, pre, i, score)
    ensures var bumped := pre[i := pre[i] + 1];
      Swept(whole, bumped[..i + 1] + bumped[i + 2..], i + 1, score + Pow2(pre[i] as nat + 1))
  {
    var bumped := pre[i := pre[i] + 1];
    var post := bumped[..i + 1] + bumped[i + 2..];
    assert bumped[i + 2..] == pre[i + 2..];
    assert pre[i..][2..] == pre[i + 2..];
    assert post[i + 1..] == pre[i + 2..];
    assert post[..i + 1] == pre[..i] + [pre[i] + 1];
    assert Tile(pre[i]);
  }

  /** The sweep step at position i when the pair there does not merge. */
  lemma SweepKeeps(whole: seq<bv8>, pre: seq<bv8>, i: nat, score: nat)
    requires i + 1 < |pre| && pre[i] != pre[i + 1]
    requires Swept(whole, pre, i, score)
    ensures Swept(whole, pre, i + 1, score)
  {
    assert pre[i..][1..] == pre[i + 1..];
    assert pre[..i + 1] == pre[..i] + [pre[i]];
  }

  /** Fewer than two entries are left after position i: the sweep is over. */
  lemma SweepDone(whole: seq<bv8>, line: seq<bv8>, i: nat, score: nat)
    requires |line| - 1 <= i
    requires Swept(whole, line, i, score)
    ensures (line, score) == Merge(whole)
  {
    assert line[..i] + line[i..] == line;
  }

  /*
   * Properties of the row merge.
   */

  /** `_left_row` on exponents [1,1,0,0] gives [2,0,0,0] and scores 4. */
  lemma LeftRowPair()
    ensures LeftRowSpec(0x0011) == (0x0002, 4)
  {
    assert Tiles(0x0011) == [1, 1, 0, 0];
    assert NonZero([1 as bv8, 1, 0, 0]) == [1, 1];
  }

  /** Each tile merges at most once per sweep: [1,1,1,1] gives [2,2] and 8, not [3]. */
  lemma LeftRowFour()
    ensures LeftRowSpec(0x1111) == (0x0022, 8)
  {
    assert Tiles(0x1111) == [1, 1, 1, 1];
    assert NonZero([1 as bv8, 1, 1, 1]) == [1, 1, 1, 1];
    assert Pow2(2) == 4;
    var pair: seq<bv8> := [1, 1];
    assert pair[2..] == [];
    assert Merge(pair).0 == [2] + Merge([]).0;
    var four: seq<bv8> := [1, 1, 1, 1];
    assert four[2..] == pair;
    assert Merge(four).0 == [2] + Merge(pair).0;
  }

  /** Merging two 15s gives 16, which spills into the next nibble: [15,15,0,0] becomes [0,1,0,0]. */
  lemma LeftRowSpill()
    ensures LeftRowSpec(0x00FF) == (0x0010, 65536)
  {
    assert Tiles(0x00FF) == [15, 15, 0, 0];
    assert NonZero([15 as bv8, 15, 0, 0]) == [15, 15];
    Pow2Add(8, 8);
    Pow2Add(4, 4);
    assert Pow2(4) == 16;
  }

  /** 2^(a+b) = 2^a * 2^b. */
  lemma {:induction false} Pow2Add(a: nat, b: nat)
    ensures Pow2(a + b) == Pow2(a) * Pow2(b)
  {
    if a > 0 {
      Pow2Add(a - 1, b);
    }
  }

  /** Sum of the tile values 2^e of a list of exponents. */
  function Mass(s: seq<bv8>): nat
  {
    if s == [] then 0 else Pow2(s[0] as nat) + Mass(s[1..])
  }

  /** Merging never creates or destroys tile value, and the score is at most the total value. */
  lemma {:induction false} MergeMass(s: seq<bv8>)
    requires forall i :: 0 <= i < |s| ==> Tile(s[i])
    ensures Mass(Merge(s).0) == Mass(s)
    ensures Merge(s).1 <= Mass(s)
  {
    if |s| >= 2 {
      assert Tile(s[0]);
      if s[0] == s[1] {
        MergeMass(s[2..]);
        assert (s[0] + 1) as nat == s[0] as nat + 1;
        assert s[1..][1..] == s[2..];
        assert ([s[0] + 1] + Merge(s[2..]).0)[1..] == Merge(s[2..]).0;
      } else {
        MergeMass(s[1..]);
        assert ([s[0]] + Merge(s[1..]).0)[1..] == Merge(s[1..]).0;
      }
    }
  }

  /** A sweep over a list without equal neighbours changes nothing and scores 0. */
  lemma {:induction false} MergeDistinct(s: seq<bv8>)
    requires forall i :: 0 <= i < |s| ==> Tile(s[i])
    requires forall i :: 0 <= i < |s| - 1 ==> s[i] != s[i + 1]
    ensures Merge(s) == (s, 0)
  {
    if |s| >= 2 {
      MergeDistinct(s[1..]);
      assert [s[0]] + s[1..] == s;
    }
  }

  /** A sweep that merged nothing had no equal neighbours to merge. */
  lemma {:induction false} MergeKeepsLengthDistinct(s: seq<bv8>)
    requires forall i :: 0 <= i < |s| ==> Tile(s[i])
    requires |Merge(s).0| == |s|
    ensures forall i :: 0 <= i < |s| - 1 ==> s[i] != s[i + 1]
  {
    if |s| >= 2 {
      assert s[0] != s[1];
      MergeKeepsLengthDistinct(s[1..]);
      assert forall i :: 1 <= i < |s| - 1 ==> s[i] == s[1..][i - 1];
    }
  }

  /** Number of non-empty cells among four. */
  function Count4(q: seq<bv8>): nat
    requires |q| == 4
  {
    (if q[0] != 0 then 1 else 0) + (if q[1] != 0 then 1 else 0) + (if q[2] != 0 then 1 else 0) + (if q[3] != 0 then 1 else 0)
  }

  lemma NonZeroCount(q: seq<bv8>)
    requires |q| == 4
    ensures |NonZero(q)| == Count4(q)
  {
    var q1 := q[1..];
    var q2 := q1[1..];
    var q3 := q2[1..];
    assert q3[1..] == [];
    assert |NonZero(q3)| == (if q[3] != 0 then 1 else 0);
    assert |NonZero(q2)| == (if q[2] != 0 then 1 else 0) + |NonZero(q3)|;
    assert |NonZero(q1)| == (if q[1] != 0 then 1 else 0) + |NonZero(q2)|;
  }

  /** A cell after packing is a tile only if its own entry was a tile or its left neighbour spilled. */
  lemma SpillCell(a: bv8, b: bv8)
    requires a <= 16 && b <= 16
    ensures ((b & 0xF) | (a >> 4) != 0) ==> (0 < b < 16 || a == 16)
  {
  }

  /** Packing entries of at most 16 never creates more tiles: a spilled 16 only moves its tile one cell on. */
  lemma PackCount(p: seq<bv8>)
    requires |p| == 4 && p[0] <= 16 && p[1] <= 16 && p[2] <= 16 && p[3] < 16
    ensures Count4(Tiles(Pack(p))) <= Count4(p)
  {
    PackNibbles(p);
    var q := Tiles(Pack(p));
    SpillCell(0, p[0]);
    SpillCell(p[0], p[1]);
    SpillCell(p[1], p[2]);
    SpillCell(p[2], p[3]);
    assert q[0] == (p[0] & 0xF) | (0 >> 4);
  }

  lemma PadCount(m: seq<bv8>)
    requires |m| <= 4
    requires forall i :: 0 <= i < |m| ==> Merged(m[i])
    ensures Count4(Pad(m)) == |m|
  {
    var p := Pad(m);
    assert forall i :: 0 <= i < |m| ==> p[i] == m[i] && p[i] != 0;
    assert forall i :: |m| <= i < 4 ==> p[i] == 0;
  }

  /** Even with the exponent-16 spill, packing a shortened list yields no more tiles than the list holds. */
  lemma SpillCount(m: seq<bv8>)
    requires |m| <= 3
    requires forall i :: 0 <= i < |m| ==> Merged(m[i])
    ensures |NonZero(Tiles(Pack(Pad(m))))| <= |m|
  {
    var p := Pad(m);
    assert (forall i :: 0 <= i < 4 ==> p[i] <= 16) && p[3] == 0 by {
      assert forall i :: 0 <= i < |m| ==> p[i] == m[i];
      assert forall i :: |m| <= i < 4 ==> p[i] == 0;
    }
    PackCount(p);
    PadCount(m);
    NonZeroCount(Tiles(Pack(p)));
  }

  /**
   * A row is packed to the left (no empty cell before a tile) and has no
   * two equal neighbouring tiles: the rows a left move leaves alone.
   */
  predicate Stable(t: seq<bv8>)
    requires |t| == 4
  {
    && (t[0] == 0 ==> t[1] == 0) && (t[1] == 0 ==> t[2] == 0) && (t[2] == 0 ==> t[3] == 0)
    && (t[0] != 0 ==> t[0] != t[1]) && (t[1] != 0 ==> t[1] != t[2]) && (t[2] != 0 ==> t[2] != t[3])
  }

  lemma {:induction false} NonZeroSplit(t: seq<bv8>, k: nat)
    requires k <= |t|
    requires forall i :: 0 <= i < k ==> t[i] != 0
    requires forall i :: k <= i < |t| ==> t[i] == 0
    ensures NonZero(t) == t[..k]
  {
    if t != [] {
      if k == 0 {
        NonZeroSplit(t[1..], 0);
      } else {
        NonZeroSplit(t[1..], k - 1);
        assert t[..k] == [t[0]] + t[1..][..k - 1];
      }
    }
  }

  /** A stable row is a fixed point of the left merge, with score 0. */
  lemma StableFixed(r: bv16)
    requires Stable(Tiles(r))
    ensures LeftRowSpec(r) == (r, 0)
  {
    var t := Tiles(r);
    var k := if t[0] == 0 then 0 else if t[1] == 0 then 1 else if t[2] == 0 then 2 else if t[3] == 0 then 3 else 4;
    NonZeroSplit(t, k);
    TilesAreTiles(r);
    MergeDistinct(t[..k]);
    assert Pad(t[..k]) == t by {
      assert forall i :: 0 <= i < 4 ==> Pad(t[..k])[i] == t[i];
    }
    PackTiles(r);
  }

  /** A row that is its own compressed-and-padded list, without equal neighbours, is stable. */
  lemma PaddedShape(t: seq<bv8>)
    requires |t| == 4
    requires forall i :: 0 <= i < 4 ==> t[i] < 16
    requires Pack(Pad(NonZero(t))) == Pack(t)
    requires forall i :: 0 <= i < |NonZero(t)| - 1 ==> NonZero(t)[i] != NonZero(t)[i + 1]
    ensures Stable(t)
  {
    var s := NonZero(t);
    NonZeroFrom(t);
    var p := Pad(s);
    assert forall i :: 0 <= i < |s| ==> p[i] == s[i] && s[i] in t;
    assert forall i :: |s| <= i < 4 ==> p[i] == 0;
    assert forall i :: 0 <= i < 4 ==> p[i] < 16;
    TilesPack(p);
    TilesPack(t);
    assert p == t;
    assert forall i :: 0 <= i < |s| ==> t[i] == s[i] && t[i] != 0;
    assert forall i :: |s| <= i < 4 ==> t[i] == 0;
  }

  /** A row the left merge leaves unchanged had nothing to merge, the exponent-16 spill included. */
  lemma FixedNoMerge(r: bv16)
    requires LeftRowSpec(r).0 == r
    ensures Merge(NonZero(Tiles(r))) == (NonZero(Tiles(r)), 0)
  {
    var s := NonZero(Tiles(r));
    TilesAreTiles(r);
    MergeShape(s);
    var m := Merge(s).0;
    if |m| < |s| {
      SpillCount(m);
      assert false;
    }
  }

  /** Only stable rows are fixed points of the left merge. */
  lemma FixedStable(r: bv16)
    requires LeftRowSpec(r).0 == r
    ensures Stable(Tiles(r))
  {
    var t := Tiles(r);
    FixedNoMerge(r);
    TilesAreTiles(r);
    MergeKeepsLengthDistinct(NonZero(t));
    PackTiles(r);
    PaddedShape(t);
  }

  /** The left merge changes a row exactly when the row is not stable. */
  lemma LeftRowFixedIff(r: bv16)
    ensures LeftRowSpec(r).0 == r <==> Stable(Tiles(r))
  {
    if Stable(Tiles(r)) {
      StableFixed(r);
    }
    if LeftRowSpec(r).0 == r {
      FixedStable(r);
    }
  }

  /** The right merge changes a row exactly when the mirrored row is not stable. */
  lemma RightRowFixedIff(r: bv16)
    ensures RightRowSpec(r) == r <==> Stable(Tiles(Reverse(r)))
  {
    ReverseTiles(r);
    ReverseTiles(LeftRowSpec(Reverse(r)).0);
    LeftRowFixedIff(Reverse(r));
  }

  /** The list read back to front. */
  function Rev(s: seq<bv8>): (r: seq<bv8>)
    ensures |r| == |s|
  {
    seq(|s|, i requires 0 <= i < |s| => s[|s| - 1 - i])
  }

  /** The score of a sweep that would run from the right end of the list. */
  function RightScore(s: seq<bv8>): nat
  {
    var n := |s|;
    if n < 2 then 0
    else if s[n - 1] == s[n - 2] then Pow2(s[n - 1] as nat + 1) + RightScore(s[..n - 2])
    else RightScore(s[..n - 1])
  }

  /** The score of the left sweep alone, without the merged list. */
  function MergeScore(s: seq<bv8>): nat
  {
    if |s| < 2 then 0
    else if s[0] == s[1] then Pow2(s[0] as nat + 1) + MergeScore(s[2..])
    else MergeScore(s[1..])
  }

  lemma {:induction false} MergeScoreIs(s: seq<bv8>)
    ensures Merge(s).1 == MergeScore(s)
  {
    if |s| >= 2 {
      if s[0] == s[1] {
        MergeScoreIs(s[2..]);
      } else {
        MergeScoreIs(s[1..]);
      }
    }
  }

  /** Both ends of the list start with a pair: the sweeps take the same two pairs. */
  lemma ScoreBothEnds(s: seq<bv8>)
    requires |s| >= 4 && s[0] == s[1] && s[|s| - 1] == s[|s| - 2]
    requires MergeScore(s[2..]) == RightScore(s[2..])
    requires MergeScore(s[..|s| - 2]) == RightScore(s[..|s| - 2])
    requires MergeScore(s[2..|s| - 2]) == RightScore(s[2..|s| - 2])
    ensures MergeScore(s) == RightScore(s)
  {
    var n := |s|;
    var left, right, mid := s[2..], s[..n - 2], s[2..n - 2];
    assert left[..|left| - 2] == mid;
    assert right[2..] == mid;
    assert left[|left| - 1] == s[n - 1] && left[|left| - 2] == s[n - 2];
    assert right[0] == s[0] && right[1] == s[1];
  }

  /** Only the left end starts with a pair. */
  lemma ScoreLeftEnd(s: seq<bv8>)
    requires |s| >= 3 && s[0] == s[1] && s[|s| - 1] != s[|s| - 2]
    requires MergeScore(s[2..]) == RightScore(s[2..])
    requires MergeScore(s[..|s| - 1]) == RightScore(s[..|s| - 1])
    requires MergeScore(s[2..|s| - 1]) == RightScore(s[2..|s| - 1])
    ensures MergeScore(s) == RightScore(s)
  {
    var n := |s|;
    var left, right, mid := s[2..], s[..n - 1], s[2..n - 1];
    assert right[2..] == mid;
    assert right[0] == s[0] && right[1] == s[1];
    if n >= 4 {
      assert left[..|left| - 1] == mid;
      assert left[|left| - 1] == s[n - 1] && left[|left| - 2] == s[n - 2];
    } else {
      assert mid == [];
    }
  }

  /** Only the right end starts with a pair. */
  lemma ScoreRightEnd(s: seq<bv8>)
    requires |s| >= 3 && s[0] != s[1] && s[|s| - 1] == s[|s| - 2]
    requires MergeScore(s[1..]) == RightScore(s[1..])
    requires MergeScore(s[..|s| - 2]) == RightScore(s[..|s| - 2])
    requires MergeScore(s[1..|s| - 2]) == RightScore(s[1..|s| - 2])
    ensures MergeScore(s) == RightScore(s)
  {
    var n := |s|;
    assert s[1..][..n - 3] == s[1..n - 2];
    assert s[..n - 2][1..] == s[1..n - 2];
    assert s[1..][n - 2] == s[n - 1] && s[1..][n - 3] == s[n - 2];
    assert n - 2 >= 2 ==> s[..n - 2][0] == s[0] && s[..n - 2][1] == s[1];
  }

  /** Neither end starts with a pair. */
  lemma ScoreNoEnd(s: seq<bv8>)
    requires |s| >= 3 && s[0] != s[1] && s[|s| - 1] != s[|s| - 2]
    requires MergeScore(s[1..]) == RightScore(s[1..])
    requires MergeScore(s[..|s| - 1]) == RightScore(s[..|s| - 1])
    requires MergeScore(s[1..|s| - 1]) == RightScore(s[1..|s| - 1])
    ensures MergeScore(s) == RightScore(s)
  {
    var n := |s|;
    assert s[1..][..n - 2] == s[1..n - 1];
    assert s[..n - 1][1..] == s[1..n - 1];
    assert s[1..][n - 2] == s[n - 1] && s[1..][n - 3] == s[n - 2];
    assert s[..n - 1][0] == s[0] && s[..n - 1][1] == s[1];
  }

  /** Joins the four cases above: i and j cut off the pair or the single tile at each end. */
  lemma ScoreEnds(s: seq<bv8>, i: int, j: int)
    requires |s| >= 3 && !(|s| == 3 && s[0] == s[1] && s[1] == s[2])
    requires i == (if s[0] == s[1] then 2 else 1)
    requires j == (if s[|s| - 1] == s[|s| - 2] then |s| - 2 else |s| - 1)
    requires i <= j
    requires MergeScore(s[i..]) == RightScore(s[i..])
    requires MergeScore(s[..j]) == RightScore(s[..j])
    requires MergeScore(s[i..j]) == RightScore(s[i..j])
    ensures MergeScore(s) == RightScore(s)
  {
    if i == 2 && j == |s| - 2 {
      ScoreBothEnds(s);
    } else if i == 2 {
      ScoreLeftEnd(s);
    } else if j == |s| - 2 {
      ScoreRightEnd(s);
    } else {
      ScoreNoEnd(s);
    }
  }

  /** The two sweeps score the same: both merge half of every run of equal entries. */
  lemma {:induction false} SweepsAgree(s: seq<bv8>)
    ensures MergeScore(s) == RightScore(s)
    decreases |s|
  {
    var n := |s|;
    if n == 2 {
      assert s[..0] == [] && s[2..] == [] && s[..1] == [s[0]] && s[1..] == [s[1]];
    } else if n == 3 && s[0] == s[1] && s[1] == s[2] {
      assert s[2..] == [s[2]] && s[..1] == [s[0]];
    } else if n >= 3 {
      var i := if s[0] == s[1] then 2 else 1;
      var j := if s[n - 1] == s[n - 2] then n - 2 else n - 1;
      SweepsAgree(s[i..]);
      SweepsAgree(s[..j]);
      SweepsAgree(s[i..j]);
      ScoreEnds(s, i, j);
    }
  }

  /** The left sweep scores what a right sweep would. */
  lemma MergeScoreFromRight(s: seq<bv8>)
    ensures Merge(s).1 == RightScore(s)
  {
    SweepsAgree(s);
    MergeScoreIs(s);
  }

  /** Sweeping the reversed list from the left is sweeping the list from the right. */
  lemma {:induction false} RightScoreRev(s: seq<bv8>)
    requires forall i :: 0 <= i < |s| ==> Tile(s[i])
    ensures forall i :: 0 <= i < |Rev(s)| ==> Tile(Rev(s)[i])
    ensures Merge(Rev(s)).1 == RightScore(s)
    decreases |s|
  {
    var n := |s|;
    if n >= 2 {
      var r := Rev(s);
      if s[n - 1] == s[n - 2] {
        RightScoreRev(s[..n - 2]);
        assert r[2..] == Rev(s[..n - 2]);
      } else {
        RightScoreRev(s[..n - 1]);
        assert r[1..] == Rev(s[..n - 1]);
      }
    }
  }

  lemma {:induction false} NonZeroAppend(a: seq<bv8>, b: seq<bv8>)
    ensures NonZero(a + b) == NonZero(a) + NonZero(b)
  {
    if a != [] {
      NonZeroAppend(a[1..], b);
      assert (a + b)[1..] == a[1..] + b;
    } else {
      assert a + b == b;
    }
  }

  /** Compressing commutes with reversing. */
  lemma {:induction false} NonZeroRev(t: seq<bv8>)
    ensures NonZero(Rev(t)) == Rev(NonZero(t))
  {
    if t != [] {
      NonZeroRev(t[1..]);
      assert Rev(t) == Rev(t[1..]) + [t[0]];
      NonZeroAppend(Rev(t[1..]), [t[0]]);
      assert [t[0]][1..] == [];
      if t[0] != 0 {
        var x := NonZero(t[1..]);
        assert Rev([t[0]] + x) == Rev(x) + [t[0]];
      }
    }
  }

  /**
   * `SCORE_LUT[r]` is also the score of the right merge of r: move_board adds
   * the left-table score for right and down moves, and this is why that is right.
   */
  lemma RightMoveScore(r: bv16)
    ensures LeftRowSpec(Reverse(r)).1 == LeftRowSpec(r).1
  {
    TilesAreTiles(r);
    TilesAreTiles(Reverse(r));
    ReverseTiles(r);
    assert Tiles(Reverse(r)) == Rev(Tiles(r));
    NonZeroRev(Tiles(r));
    var s := NonZero(Tiles(r));
    RightScoreRev(s);
    MergeScoreFromRight(s);
  }

  /** A row left unchanged by the right merge scores nothing in `SCORE_LUT`. */
  lemma RightFixedNoScore(r: bv16)
    requires RightRowSpec(r) == r
    ensures LeftRowSpec(r).1 == 0
  {
    RightRowFixedIff(r);
    StableFixed(Reverse(r));
    RightMoveScore(r);
  }

  /** A row with a tile still has one after the left merge: the first merged entry is a tile or a spilled 16. */
  lemma LeftRowKeepsTile(r: bv16)
    requires r != 0
    ensures LeftRowSpec(r).0 != 0
  {
    var t := Tiles(r);
    PackTiles(r);
    assert Count4(t) > 0;
    NonZeroCount(t);
    TilesAreTiles(r);
    MergeShape(NonZero(t));
    var m := MergedRow(r).0;
    assert Merged(m[0]);
    assert Pad(m)[0] == m[0];
  }

  /** A row with a tile still has one after the right merge. */
  lemma RightRowKeepsTile(r: bv16)
    requires r != 0
    ensures RightRowSpec(r) != 0
  {
    ReverseTiles(r);
    assert Reverse(0) == 0;
    LeftRowKeepsTile(Reverse(r));
    ReverseTiles(LeftRowSpec(Reverse(r)).0);
  }

  datatype Entry = Entry(left: bv16, right: bv16, score: nat)

  /** The entry the table-building loop stores for row r. */
  function EntrySpec(r: bv16): Entry
  {
    Entry(LeftRowSpec(r).0, RightRowSpec(r), LeftRowSpec(r).1)
  }

  /** Four tiles, no two neighbours equal: a row no move can change. */
  predicate Jammed(t: seq<bv8>)
    requires |t| == 4
  {
    t[0] != 0 && t[1] != 0 && t[2] != 0 && t[3] != 0 && t[0] != t[1] && t[1] != t[2] && t[2] != t[3]
  }

  /** A jammed row is stable read either way. */
  lemma JammedStable(r: bv16)
    requires Jammed(Tiles(r))
    ensures Stable(Tiles(r)) && Stable(Tiles(Reverse(r)))
  {
    ReverseTiles(r);
  }

  /** Two equal neighbouring tiles make a row unstable. */
  lemma PairUnstable(t: seq<bv8>, i: int)
    requires |t| == 4 && 0 <= i < 3 && t[i] != 0 && t[i] == t[i + 1]
    ensures !Stable(t)
  {
  }

  /** A row with an empty cell and a tile is unstable read one way or the other. */
  lemma MixedUnstable(r: bv16, i: int, j: int)
    requires 0 <= i < 4 && 0 <= j < 4 && Tiles(r)[i] == 0 && Tiles(r)[j] != 0
    ensures !Stable(Tiles(r)) || !Stable(Tiles(Reverse(r)))
  {
    ReverseTiles(r);
  }

  /**
   * What the move code needs to know of a table: a row is left alone by the
   * left (right) table exactly when it is packed to the left (right) with no
   * equal neighbours, and a row left alone by either table scores nothing.
   */
  ghost predicate Sound(lut: bv16 -> Entry)
  {
    forall r: bv16 {:trigger SoundAt(r, lut(r))} :: SoundAt(r, lut(r))
  }

  /** The entry e of row r is sound in the sense of `Sound`. */
  predicate SoundAt(r: bv16, e: Entry)
  {
    && (e.left == r <==> Stable(Tiles(r)))
    && (e.right == r <==> Stable(Tiles(Reverse(r))))
    && (e.left == r || e.right == r ==> e.score == 0)
  }

  /** The left table leaves a row alone iff it is stable, and then it scores nothing. */
  lemma LeftFixed(r: bv16)
    ensures LeftRowSpec(r).0 == r <==> Stable(Tiles(r))
    ensures LeftRowSpec(r).0 == r ==> LeftRowSpec(r).1 == 0
  {
    LeftRowFixedIff(r);
    if Stable(Tiles(r)) {
      StableFixed(r);
    }
  }

  /** The right table leaves a row alone iff its reversal is stable, and then it scores nothing. */
  lemma RightFixed(r: bv16)
    ensures RightRowSpec(r) == r <==> Stable(Tiles(Reverse(r)))
    ensures RightRowSpec(r) == r ==> LeftRowSpec(r).1 == 0
  {
    RightRowFixedIff(r);
    if RightRowSpec(r) == r {
      RightFixedNoScore(r);
    }
  }

  lemma EntrySpecSound()
    ensures Sound(EntrySpec)
  {
    forall r: bv16
      ensures SoundAt(r, EntrySpec(r))
    {
      LeftFixed(r);
      RightFixed(r);
    }
  }

  /** One pass of the table-building loop: `_left_row` of the row and of its mirror image. */
  method ComputeEntry(r: bv16) returns (e: Entry)
    ensures e == EntrySpec(r)
  {
    var left, sc := LeftRow(r);
    var revLeft, _ := LeftRow(Reverse(r));
    e := Entry(left, Reverse(revLeft), sc);
  }

  /** The first n entries of a table hold the entries of their rows. */
  ghost predicate Filled(s: seq<Entry>, n: int)
  {
    |s| == 65536 && 0 <= n <= 65536 && forall j :: 0 <= j < n ==> s[j] == EntrySpec(j as bv16)
  }

  lemma FillStep(s: seq<Entry>, n: int, e: Entry)
    requires Filled(s, n) && n < 65536 && e == EntrySpec(n as bv16)
    ensures Filled(s[n := e], n + 1)
  {
  }

  /**
   * The precomputed tables, filled once for all 65536 rows.  The three
   * parallel arrays of the original are kept as one array of triples.
   */
  class Tables {
    const rows: array<Entry>

    /** The table holds `lut`'s entry for every row. */
    ghost predicate Holds(lut: bv16 -> Entry)
      reads this, rows
    {
      rows.Length == 65536 && forall j :: 0 <= j < 65536 ==> rows[j] == lut(j as bv16)
    }

    ghost predicate Valid()
      reads this, rows
    {
      Holds(EntrySpec)
    }

    constructor ()
      ensures Valid()
    {
      rows := new Entry[65536](_ => Entry(0, 0, 0));
      new;
      var i := 0;
      while i < 65536
        invariant 0 <= i <= 65536
        invariant Filled(rows[..], i)
      {
        var e := ComputeEntry(i as bv16);
        ghost var before := rows[..];
        FillStep(before, i, e);
        rows[i] := e;
        assert rows[..] == before[i := e];
        i := i + 1;
      }
    }

    /** The lookup `ROW_LEFT[r]`, `ROW_RIGHT[r]`, `SCORE_LUT[r]` of one row. */
    method Lookup(r: bv16, ghost lut: bv16 -> Entry) returns (e: Entry)
      requires Holds(lut)
      ensures e == lut(r)
    {
      e := rows[r as int];
    }
  }
}
