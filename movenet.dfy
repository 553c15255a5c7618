/*
 * The pure parts of algo/movenet.py: the 17-value feature vector of a
 * board and the mapping of a classifier prediction to a direction name.
 */
module MoveNet {
  import opened Results
  import opened RowTables
  import opened BitBoard
  import opened BoardObject
  import opened Heuristics

  /** `DIRS`: class id to direction name. */
  const Dirs: seq<string> := ["up", "down", "left", "right"]

  /**
   * Tile feature of an exponent as written: `1 << exp` is computed on the
   * `uint8` array, so the power wraps modulo 256 and every tile from 256 on
   * becomes 0.
   */
  function TileFeatureAsWritten(e: bv8): nat
  {
    if e == 0 then 0 else Pow2(e as nat) % 256
  }

  /** From exponent 8 on, 2^e is a multiple of 256. */
  lemma {:induction false} Pow2Multiple(e: nat)
    requires 8 <= e
    ensures Pow2(e) % 256 == 0
  {
    if e > 8 {
      Pow2Multiple(e - 1);
    }
  }

  /** The wrap-around erases exponents 8 to 15: a 256 tile and a 512 tile both read 0. */
  lemma TileFeatureAsWrittenDrops(e: bv8)
    requires 8 <= e
    ensures TileFeatureAsWritten(e) == 0
  {
    Pow2Multiple(e as nat);
  }

  /** Tile feature of an exponent as the encoder intends: the tile value 2^exp as a `uint16`, 0 when empty. */
  function TileFeature(e: bv8): nat
  {
    if e == 0 then 0 else Pow2(e as nat)
  }

  /** An exponent below 16 has a tile feature that fits in 16 bits and gives the exponent back. */
  lemma TileFeatureFits(e: bv8)
    requires e < 16
    ensures TileFeature(e) < 65536
    ensures e != 0 ==> TileFeature(e) > 0 && Log2Floor(TileFeature(e)) == e as nat
  {
    Pow2Nibble(e as nat);
    Log2Pow2(e as nat);
  }

  /** `_features` with the intended tile values: the empty-cell count, then the sixteen cells. */
  function Features(b: bv64): (f: seq<nat>)
    ensures |f| == 17
  {
    [EmptyCount(b)] + seq(16, k requires 0 <= k < 16 => TileFeature(Cell(b, Ix16(k))))
  }

  /** `_features` as written, with the `uint8` tile values. */
  function FeaturesAsWritten(b: bv64): (f: seq<nat>)
    ensures |f| == 17
  {
    [EmptyCount(b)] + seq(16, k requires 0 <= k < 16 => TileFeatureAsWritten(Cell(b, Ix16(k))))
  }

  /** Feature 0 counts the empty cells; every feature fits the `uint16` the encoder declares. */
  lemma FeaturesFit(b: bv64)
    ensures Features(b)[0] == |EmptyList(b)|
    ensures forall i :: 0 <= i < 17 ==> Features(b)[i] < 65536
  {
    EmptyCountList(b);
    forall i | 1 <= i < 17 ensures Features(b)[i] < 65536 {
      TileFeatureFits(Cell(b, Ix16(i - 1)));
    }
  }

  /** Equal tile features mean equal exponents. */
  lemma FeatureCell(a: bv64, b: bv64, k: nat)
    requires k < 16 && Features(a)[k + 1] == Features(b)[k + 1]
    ensures Cell(a, Ix16(k)) == Cell(b, Ix16(k))
  {
    TileFeatureFits(Cell(a, Ix16(k)));
    TileFeatureFits(Cell(b, Ix16(k)));
  }

  /** With the intended tile values the features determine the board: no two boards share them. */
  lemma FeaturesDetermineBoard(a: bv64, b: bv64)
    requires Features(a) == Features(b)
    ensures a == b
  {
    forall r: bv8, c: bv8 | r < 4 && c < 4 ensures Get(a, r, c) == Get(b, r, c) {
      var k: nat := (r * 4 + c) as nat;
      assert Ix16(k) == r * 4 + c;
      FeatureCell(a, b, k);
      CellGet(a, r, c);
      CellGet(b, r, c);
    }
    Ext(a, b);
  }

  /** Boards with their empty cells in the same places have the same empty-cell count. */
  lemma {:induction false} SameEmptiesSameCount(a: bv64, b: bv64, n: nat)
    requires n <= 16
    requires forall k: nat :: k < n ==> (Cell(a, Ix16(k)) == 0 <==> Cell(b, Ix16(k)) == 0)
    ensures EmptyCountBelow(a, n) == EmptyCountBelow(b, n)
  {
    if n > 0 {
      SameEmptiesSameCount(a, b, n - 1);
    }
  }

  /** Entry i > 0 of the as-written features is the wrapped tile value of cell i - 1. */
  lemma FeatureAsWrittenAt(b: bv64, i: nat)
    requires 1 <= i < 17
    ensures FeaturesAsWritten(b)[i] == TileFeatureAsWritten(Cell(b, Ix16(i - 1)))
  {
  }

  /** As written, the features cannot tell apart two boards that differ only in tiles of 256 and up. */
  lemma FeaturesAsWrittenBlind(a: bv64, b: bv64)
    requires forall k: nat :: k < 16 ==>
      Cell(a, Ix16(k)) == Cell(b, Ix16(k)) || (8 <= Cell(a, Ix16(k)) && 8 <= Cell(b, Ix16(k)))
    ensures FeaturesAsWritten(a) == FeaturesAsWritten(b)
  {
    SameEmptiesSameCount(a, b, 16);
    forall i | 0 <= i < 17 ensures FeaturesAsWritten(a)[i] == FeaturesAsWritten(b)[i] {
      if i > 0 {
        FeatureAsWrittenAt(a, i);
        FeatureAsWrittenAt(b, i);
        if Cell(a, Ix16(i - 1)) != Cell(b, Ix16(i - 1)) {
          TileFeatureAsWrittenDrops(Cell(a, Ix16(i - 1)));
          TileFeatureAsWrittenDrops(Cell(b, Ix16(i - 1)));
        }
      }
    }
  }

  /** A board word below 16 holds its value in cell 0 and nothing elsewhere. */
  lemma LowCell(x: bv64, pos: bv8)
    requires x < 16 && pos < 16
    ensures Cell(x, pos) == if pos == 0 then x as bv8 else 0
  {
  }

  /** As written, a board with a 256 in cell 0 and one with a 512 there give the same features. */
  lemma FeaturesAsWrittenCollide()
    ensures FeaturesAsWritten(0x8) == FeaturesAsWritten(0x9)
  {
    forall k: nat | k < 16
      ensures Cell(0x8, Ix16(k)) == Cell(0x9, Ix16(k)) || (8 <= Cell(0x8, Ix16(k)) && 8 <= Cell(0x9, Ix16(k)))
    {
      LowCell(0x8, Ix16(k));
      LowCell(0x9, Ix16(k));
    }
    FeaturesAsWrittenBlind(0x8, 0x9);
  }

  /** A prediction of the classifier: an integer class id or a string label. */
  datatype Prediction = IntPred(id: int) | StrPred(name: string)

  /**
   * The mapping in `__call__`: an integer indexes `DIRS` as a Python list
   * (negative ids count from the end, others out of range raise), a string is returned as is.
   */
  function Direction(p: Prediction): (r: Result<string>)
    ensures r.Success? ==> p.StrPred? || r.value in Dirs
  {
    match p
    case StrPred(s) => Success(s)
    case IntPred(i) =>
      if 0 <= i < 4 then Success(Dirs[i])
      else if -4 <= i < 0 then Success(Dirs[4 + i])
      else Failure(IndexError(i))
  }

  /** Class ids 0..3 name up, down, left, right, and every name is a direction `Board.move` accepts. */
  lemma DirectionIds(i: int)
    requires 0 <= i < 4
    ensures Direction(IntPred(i)) == Success(Dirs[i]) && DirId(Dirs[i]).Some?
    ensures forall j :: 0 <= j < 4 && j != i ==> Dirs[j] != Dirs[i]
  {
  }

  /** An integer id outside -4..3 raises `IndexError`. */
  lemma DirectionOutOfRange(i: int)
    requires i < -4 || 4 <= i
    ensures Direction(IntPred(i)) == Failure(IndexError(i))
  {
  }
}
