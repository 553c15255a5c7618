/*
 * The 64-bit board of board.py: sixteen 4-bit exponents, row-major, cell
 * (r, c) in bits (r*4 + c)*4 .. (r*4 + c)*4 + 3; exponent 0 is an empty cell.
 */
module BitBoard {
  import opened RowTables

  /** The shift of cell (r, c): `(r * 4 + c) * 4`. */
  function Shift(r: bv8, c: bv8): bv64
    requires r < 4 && c < 4
  {
    ((r * 4 + c) * 4) as bv64
  }

  /** `_get(b, r, c)`: the exponent in row r, column c. */
  function Get(b: bv64, r: bv8, c: bv8): (e: bv8)
    requires r < 4 && c < 4
    ensures e < 16
  {
    ((b >> Shift(r, c)) & 0xF) as bv8
  }

  /** `_set(b, r, c, v)`: clears the nibble of (r, c) and ORs in v shifted there. */
  function Set(b: bv64, r: bv8, c: bv8, v: bv8): bv64
    requires r < 4 && c < 4
  {
    var mask := (0xF as bv64) << Shift(r, c);
    (b & !mask) | ((v as bv64) << Shift(r, c))
  }

  /** Setting a cell to an exponent below 16 stores it there... */
  lemma SetSame(b: bv64, r: bv8, c: bv8, v: bv8)
    requires r < 4 && c < 4 && v < 16
    ensures Get(Set(b, r, c, v), r, c) == v
  {
  }

  /** ...and leaves every other cell as it was. */
  lemma SetOther(b: bv64, r: bv8, c: bv8, r': bv8, c': bv8, v: bv8)
    requires r < 4 && c < 4 && r' < 4 && c' < 4 && (r != r' || c != c') && v < 16
    ensures Get(Set(b, r, c, v), r', c') == Get(b, r', c')
  {
  }

  /** Row r of the board as a 16-bit word: `(b >> (row * 16)) & 0xFFFF`. */
  function RowOf(b: bv64, r: bv8): bv16
    requires r < 4
  {
    ((b >> ((r * 16) as bv64)) & 0xFFFF) as bv16
  }

  /** Cell (r, c) of the board is nibble c of row r. */
  lemma GetRow(b: bv64, r: bv8, c: bv8)
    requires r < 4 && c < 4
    ensures Get(b, r, c) == Nib(RowOf(b, r), c)
  {
  }

  /** The cells of a row of the board are the tiles of that row word. */
  lemma RowCells(b: bv64, r: bv8)
    requires r < 4
    ensures Tiles(RowOf(b, r)) == [Get(b, r, 0), Get(b, r, 1), Get(b, r, 2), Get(b, r, 3)]
  {
    GetRow(b, r, 0);
    GetRow(b, r, 1);
    GetRow(b, r, 2);
    GetRow(b, r, 3);
  }

  /** Two boards with the same four rows are the same board. */
  lemma RowExt(a: bv64, b: bv64)
    requires forall r: bv8 :: r < 4 ==> RowOf(a, r) == RowOf(b, r)
    ensures a == b
  {
    assert RowOf(a, 0) == RowOf(b, 0) && RowOf(a, 1) == RowOf(b, 1);
    assert RowOf(a, 2) == RowOf(b, 2) && RowOf(a, 3) == RowOf(b, 3);
  }

  /** Two boards with the same sixteen cells are the same board. */
  lemma Ext(a: bv64, b: bv64)
    requires forall r: bv8, c: bv8 :: r < 4 && c < 4 ==> Get(a, r, c) == Get(b, r, c)
    ensures a == b
  {
    forall r: bv8 | r < 4 ensures RowOf(a, r) == RowOf(b, r) {
      RowCells(a, r);
      RowCells(b, r);
      PackTiles(RowOf(a, r));
      PackTiles(RowOf(b, r));
    }
    RowExt(a, b);
  }

  /**
   * The transposed board, by the usual three-step nibble swap (an
   * independent definition: `_transpose` moves one cell at a time).
   */
  function Transposed(x: bv64): bv64
  {
    var a := (x & 0xF0F00F0FF0F00F0F) | ((x & 0x0000F0F00000F0F0) << 12) | ((x & 0x0F0F00000F0F0000) >> 12);
    (a & 0xFF00FF0000FF00FF) | ((a & 0x00FF00FF00000000) >> 24) | ((a & 0x00000000FF00FF00) << 24)
  }

  lemma TransposedCells(b: bv64)
    ensures forall r: bv8, c: bv8 :: r < 4 && c < 4 ==> Get(Transposed(b), r, c) == Get(b, c, r)
  {
  }

  lemma TransposedTwice(b: bv64)
    ensures Transposed(Transposed(b)) == b
  {
  }

  /** Transposition is its own inverse, so it can be moved to the other side of an equation. */
  lemma TransposedSwap(x: bv64, y: bv64)
    ensures Transposed(x) == y <==> x == Transposed(y)
  {
    TransposedTwice(x);
    TransposedTwice(y);
  }

  /** Cell (i, j) of b has been copied to (j, i) of res if it comes before position n in row-major order; otherwise (j, i) is still empty. */
  predicate Copied(res: bv64, b: bv64, n: bv8, i: bv8, j: bv8)
    requires i < 4 && j < 4
  {
    Get(res, j, i) == (if i * 4 + j < n then Get(b, i, j) else 0)
  }

  /** The first n cells of b, in row-major order, have been copied transposed into res; the rest of res is empty. */
  predicate CopiedUpTo(res: bv64, b: bv64, n: bv8)
  {
    && Copied(res, b, n, 0, 0)
    && Copied(res, b, n, 0, 1)
    && Copied(res, b, n, 0, 2)
    && Copied(res, b, n, 0, 3)
    && Copied(res, b, n, 1, 0)
    && Copied(res, b, n, 1, 1)
    && Copied(res, b, n, 1, 2)
    && Copied(res, b, n, 1, 3)
    && Copied(res, b, n, 2, 0)
    && Copied(res, b, n, 2, 1)
    && Copied(res, b, n, 2, 2)
    && Copied(res, b, n, 2, 3)
    && Copied(res, b, n, 3, 0)
    && Copied(res, b, n, 3, 1)
    && Copied(res, b, n, 3, 2)
    && Copied(res, b, n, 3, 3)
  }

  lemma CopyStep(pre: bv64, b: bv64, r: bv8, c: bv8)
    requires r < 4 && c < 4
    requires CopiedUpTo(pre, b, r * 4 + c)
    ensures CopiedUpTo(Set(pre, c, r, Get(b, r, c)), b, r * 4 + c + 1)
  {
    CopyCell(pre, b, r, c, 0, 0);
    CopyCell(pre, b, r, c, 0, 1);
    CopyCell(pre, b, r, c, 0, 2);
    CopyCell(pre, b, r, c, 0, 3);
    CopyCell(pre, b, r, c, 1, 0);
    CopyCell(pre, b, r, c, 1, 1);
    CopyCell(pre, b, r, c, 1, 2);
    CopyCell(pre, b, r, c, 1, 3);
    CopyCell(pre, b, r, c, 2, 0);
    CopyCell(pre, b, r, c, 2, 1);
    CopyCell(pre, b, r, c, 2, 2);
    CopyCell(pre, b, r, c, 2, 3);
    CopyCell(pre, b, r, c, 3, 0);
    CopyCell(pre, b, r, c, 3, 1);
    CopyCell(pre, b, r, c, 3, 2);
    CopyCell(pre, b, r, c, 3, 3);
  }

  lemma CopyCell(pre: bv64, b: bv64, r: bv8, c: bv8, i: bv8, j: bv8)
    requires r < 4 && c < 4 && i < 4 && j < 4
    requires Copied(pre, b, r * 4 + c, i, j)
    ensures Copied(Set(pre, c, r, Get(b, r, c)), b, r * 4 + c + 1, i, j)
  {
    if i == r && j == c {
      SetSame(pre, c, r, Get(b, r, c));
    } else {
      SetOther(pre, c, r, j, i, Get(b, r, c));
    }
  }

  lemma CopyDone(res: bv64, b: bv64)
    requires CopiedUpTo(res, b, 16)
    ensures res == Transposed(b)
  {
  }

  /** `_transpose`: copies cell (r, c) of b to cell (c, r) of a zero board, one cell at a time. */
  method Transpose(b: bv64) returns (res: bv64)
    ensures res == Transposed(b)
  {
    res := 0;
    var r: bv8 := 0;
    while r < 4
      invariant r <= 4
      invariant CopiedUpTo(res, b, r * 4)
    {
      var c: bv8 := 0;
      while c < 4
        invariant c <= 4
        invariant CopiedUpTo(res, b, r * 4 + c)
      {
        CopyStep(res, b, r, c);
        res := Set(res, c, r, Get(b, r, c));
        c := c + 1;
      }
      r := r + 1;
    }
    CopyDone(res, b);
  }

  /*
   * move_board
   */

  /** The row `lut[r16]` of `move_board` gives: `ROW_LEFT` for even directions, `ROW_RIGHT` for odd ones. */
  function Slid(e: Entry, left: bool): bv16
  {
    if left then e.left else e.right
  }

  /** Row k's sixteen bits, shifted into place as `uint64(new16) << (row * 16)` does. */
  function Place(r: bv16, k: bv8): bv64
    requires k < 4
  {
    (r as bv64) << ((k * 16) as bv64)
  }

  /** Row k of b after the row loop: its table row. */
  function NewRow(b: bv64, lut: bv16 -> Entry, left: bool, k: bv8): bv16
    requires k < 4
  {
    Slid(lut(RowOf(b, k)), left)
  }

  /** Row number k as the 8-bit index the board functions take. */
  function Ix(k: nat): bv8
    requires k < 4
  {
    if k == 0 then 0 else if k == 1 then 1 else if k == 2 then 2 else 3
  }

  /**
   * The state of the row loop of `move_board` after its first k rows,
   * (new_b, score, moved), for a lookup table `lut` giving each row's entry.
   */
  function RowsDone(b: bv64, lut: bv16 -> Entry, left: bool, k: nat): (bv64, nat, bool)
    requires k <= 4
  {
    if k == 0 then (0, 0, false)
    else
      var p, i := RowsDone(b, lut, left, k - 1), Ix(k - 1);
      (p.0 | Place(NewRow(b, lut, left, i), i), p.1 + lut(RowOf(b, i)).score, p.2 || NewRow(b, lut, left, i) != RowOf(b, i))
  }

  /** The four table rows of b placed back together: `new_b` after the row loop. */
  function RowsBoard(b: bv64, lut: bv16 -> Entry, left: bool): bv64
  {
    Place(NewRow(b, lut, left, 0), 0) | Place(NewRow(b, lut, left, 1), 1)
    | Place(NewRow(b, lut, left, 2), 2) | Place(NewRow(b, lut, left, 3), 3)
  }

  /** The sum of the four rows' scores: `score` after the row loop. */
  function RowsScore(b: bv64, lut: bv16 -> Entry, left: bool): nat
  {
    lut(RowOf(b, 0)).score + lut(RowOf(b, 1)).score + lut(RowOf(b, 2)).score + lut(RowOf(b, 3)).score
  }

  /** Some row differs from its table row: `moved` after the row loop. */
  predicate RowsMoved(b: bv64, lut: bv16 -> Entry, left: bool)
  {
    || NewRow(b, lut, left, 0) != RowOf(b, 0) || NewRow(b, lut, left, 1) != RowOf(b, 1)
    || NewRow(b, lut, left, 2) != RowOf(b, 2) || NewRow(b, lut, left, 3) != RowOf(b, 3)
  }

  /** The board the row loop reads: transposed for directions above 1. */
  function Source(b: bv64, d: int): bv64
  {
    if d > 1 then Transposed(b) else b
  }

  /** The board `move_board(b, d)` returns over lookup table `lut`. */
  function Slide(b: bv64, d: int, lut: bv16 -> Entry): bv64
  {
    var m := RowsBoard(Source(b, d), lut, d % 2 == 0);
    if d > 1 then Transposed(m) else m
  }

  /** The gain `move_board(b, d)` returns over lookup table `lut`. */
  function Gain(b: bv64, d: int, lut: bv16 -> Entry): nat
  {
    RowsScore(Source(b, d), lut, d % 2 == 0)
  }

  /** The flag `move_board(b, d)` returns over lookup table `lut`. */
  predicate Moved(b: bv64, d: int, lut: bv16 -> Entry)
  {
    RowsMoved(Source(b, d), lut, d % 2 == 0)
  }

  /** `move_board(b, d)` over lookup table `lut`: (board, gain, moved). */
  function MoveWith(b: bv64, d: int, lut: bv16 -> Entry): (bv64, nat, bool)
  {
    (Slide(b, d, lut), Gain(b, d, lut), Moved(b, d, lut))
  }

  /**
   * What `move_board(b, d)` returns: (board, gain, moved).  Directions above 1
   * work on the transposed board; even directions use the left table.  The
   * gain is always read from `SCORE_LUT`, the left-merge score.
   */
  function MoveSpec(b: bv64, d: int): (bv64, nat, bool)
  {
    MoveWith(b, d, EntrySpec)
  }

  /** The loop state (new_b, score, moved) after the first `row` rows. */
  predicate Looped(src: bv64, lut: bv16 -> Entry, left: bool, row: nat, newB: bv64, score: nat, moved: bool)
  {
    row <= 4 && (newB, score, moved) == RowsDone(src, lut, left, row)
  }

  /** One pass of the row loop: look up the row, place the new row, add the score. */
  lemma RowsStep(src: bv64, lut: bv16 -> Entry, left: bool, row: nat, newB: bv64, score: nat, moved: bool)
    requires row < 4 && Looped(src, lut, left, row, newB, score, moved)
    ensures var i := Ix(row);
            var new16 := NewRow(src, lut, left, i);
            Looped(src, lut, left, row + 1, newB | Place(new16, i), score + lut(RowOf(src, i)).score, moved || new16 != RowOf(src, i))
  {
  }

  /** After one row, new_b holds the first table row. */
  lemma OneRowPlaced(src: bv64, lut: bv16 -> Entry, left: bool)
    ensures RowsDone(src, lut, left, 1).0 == Place(NewRow(src, lut, left, 0), 0)
  {
  }

  /** After two rows, new_b holds the first two table rows. */
  lemma TwoRowsPlaced(src: bv64, lut: bv16 -> Entry, left: bool)
    ensures RowsDone(src, lut, left, 2).0 == Place(NewRow(src, lut, left, 0), 0) | Place(NewRow(src, lut, left, 1), 1)
  {
    OneRowPlaced(src, lut, left);
  }

  /** After three rows, new_b holds the first three table rows. */
  lemma ThreeRowsPlaced(src: bv64, lut: bv16 -> Entry, left: bool)
    ensures RowsDone(src, lut, left, 3).0
            == Place(NewRow(src, lut, left, 0), 0) | Place(NewRow(src, lut, left, 1), 1) | Place(NewRow(src, lut, left, 2), 2)
  {
    TwoRowsPlaced(src, lut, left);
  }

  /** All four rows done: new_b is the four table rows placed back together. */
  lemma RowsDoneBoard(src: bv64, lut: bv16 -> Entry, left: bool)
    ensures RowsDone(src, lut, left, 4).0 == RowsBoard(src, lut, left)
  {
    ThreeRowsPlaced(src, lut, left);
  }

  /** All four rows done: the score is the sum of the four rows' scores. */
  lemma RowsDoneScore(src: bv64, lut: bv16 -> Entry, left: bool)
    ensures RowsDone(src, lut, left, 4).1 == RowsScore(src, lut, left)
  {
    assert RowsDone(src, lut, left, 1).1 == lut(RowOf(src, 0)).score;
    assert RowsDone(src, lut, left, 2).1 == lut(RowOf(src, 0)).score + lut(RowOf(src, 1)).score;
    assert RowsDone(src, lut, left, 3).1 == lut(RowOf(src, 0)).score + lut(RowOf(src, 1)).score + lut(RowOf(src, 2)).score;
  }

  /** All four rows done: the flag says whether some row changed. */
  lemma RowsDoneMoved(src: bv64, lut: bv16 -> Entry, left: bool)
    ensures RowsDone(src, lut, left, 4).2 == RowsMoved(src, lut, left)
  {
    var n0, n1, n2 := NewRow(src, lut, left, 0), NewRow(src, lut, left, 1), NewRow(src, lut, left, 2);
    assert RowsDone(src, lut, left, 1).2 == (n0 != RowOf(src, 0));
    assert RowsDone(src, lut, left, 2).2 == (n0 != RowOf(src, 0) || n1 != RowOf(src, 1));
    assert RowsDone(src, lut, left, 3).2 == (n0 != RowOf(src, 0) || n1 != RowOf(src, 1) || n2 != RowOf(src, 2));
  }

  /** The row loop of `move_board`, over a board already transposed for vertical moves. */
  method MoveRows(t: Tables, src: bv64, left: bool, ghost lut: bv16 -> Entry) returns (newB: bv64, score: nat, moved: bool)
    requires t.Holds(lut)
    ensures newB == RowsBoard(src, lut, left) && score == RowsScore(src, lut, left) && moved == RowsMoved(src, lut, left)
  {
    newB := 0;
    score := 0;
    moved := false;
    var row: nat := 0;
    while row < 4
      invariant Looped(src, lut, left, row, newB, score, moved)
    {
      var i := Ix(row);
      var r16 := RowOf(src, i);
      var entry := t.Lookup(r16, lut);
      RowsStep(src, lut, left, row, newB, score, moved);
      var new16 := Slid(entry, left);
      if new16 != r16 {
        moved := true;
      }
      newB := newB | Place(new16, i);
      score := score + entry.score;
      row := row + 1;
    }
    RowsDoneBoard(src, lut, left);
    RowsDoneScore(src, lut, left);
    RowsDoneMoved(src, lut, left);
  }

  /** `move_board`: directions 2 and 3 transpose before and after the row loop. */
  method MoveBoard(t: Tables, b: bv64, d: int) returns (newB: bv64, score: nat, moved: bool)
    requires t.Valid()
    ensures (newB, score, moved) == MoveSpec(b, d)
  {
    var src := b;
    if d > 1 {
      src := Transpose(b);
    }
    newB, score, moved := MoveRows(t, src, d % 2 == 0, EntrySpec);
    if d > 1 {
      newB := Transpose(newB);
    }
  }

  /** After the whole row loop, row k of new_b is the table row of row k. */
  lemma RowsBoardRow(b: bv64, lut: bv16 -> Entry, left: bool, k: bv8)
    requires k < 4
    ensures RowOf(RowsBoard(b, lut, left), k) == NewRow(b, lut, left, k)
  {
    if k == 0 {
    } else if k == 1 {
    } else if k == 2 {
    } else {
    }
  }

  /** A row that changed shows in the assembled board. */
  lemma RowsMovedDiffers(b: bv64, lut: bv16 -> Entry, left: bool)
    requires RowsMoved(b, lut, left)
    ensures RowsBoard(b, lut, left) != b
  {
    RowsBoardRow(b, lut, left, 0);
    RowsBoardRow(b, lut, left, 1);
    RowsBoardRow(b, lut, left, 2);
    RowsBoardRow(b, lut, left, 3);
  }

  /** With no row changed, the assembled board agrees with b row by row. */
  lemma RowsStillAgree(b: bv64, lut: bv16 -> Entry, left: bool, r: bv8)
    requires !RowsMoved(b, lut, left) && r < 4
    ensures RowOf(RowsBoard(b, lut, left), r) == RowOf(b, r)
  {
    RowsBoardRow(b, lut, left, r);
    assert r == 0 || r == 1 || r == 2 || r == 3;
  }

  /** The row loop sets its flag exactly when the board it builds differs from the board it read. */
  lemma RowsMovedChanged(b: bv64, lut: bv16 -> Entry, left: bool)
    ensures RowsMoved(b, lut, left) <==> RowsBoard(b, lut, left) != b
  {
    if RowsMoved(b, lut, left) {
      RowsMovedDiffers(b, lut, left);
    } else {
      forall r: bv8 | r < 4 ensures RowOf(RowsBoard(b, lut, left), r) == RowOf(b, r) {
        RowsStillAgree(b, lut, left, r);
      }
      RowExt(RowsBoard(b, lut, left), b);
    }
  }

  /** `move_board` reports a move exactly when the board it returns differs from the one it was given. */
  lemma MovedIffChanged(b: bv64, d: int, lut: bv16 -> Entry)
    ensures Moved(b, d, lut) <==> Slide(b, d, lut) != b
  {
    var src := Source(b, d);
    var m := RowsBoard(src, lut, d % 2 == 0);
    RowsMovedChanged(src, lut, d % 2 == 0);
    if d > 1 {
      TransposedSwap(m, b);
    }
  }

  /** With a sound table, a move that changes nothing gains nothing. */
  lemma NoMoveNoGain(b: bv64, d: int, lut: bv16 -> Entry)
    requires Sound(lut)
    ensures !Moved(b, d, lut) ==> Gain(b, d, lut) == 0
  {
    var src := Source(b, d);
    assert SoundAt(RowOf(src, 0), lut(RowOf(src, 0)));
    assert SoundAt(RowOf(src, 1), lut(RowOf(src, 1)));
    assert SoundAt(RowOf(src, 2), lut(RowOf(src, 2)));
    assert SoundAt(RowOf(src, 3), lut(RowOf(src, 3)));
  }

  /*
   * can_move
   */

  /** Cell number pos in row-major order, read as `(b >> (pos * 4)) & 0xF`. */
  function Cell(b: bv64, pos: bv8): (e: bv8)
    requires pos < 16
    ensures e < 16
  {
    ((b >> ((pos * 4) as bv64)) & 0xF) as bv8
  }

  ghost predicate HasEmpty(b: bv64)
  {
    exists pos: bv8 :: pos < 16 && Cell(b, pos) == 0
  }

  ghost predicate HasRowPair(b: bv64)
  {
    exists r: bv8, c: bv8 :: r < 4 && c < 3 && Get(b, r, c) == Get(b, r, c + 1)
  }

  ghost predicate HasColPair(b: bv64)
  {
    exists r: bv8, c: bv8 :: r < 3 && c < 4 && Get(b, r, c) == Get(b, r + 1, c)
  }

  /** What `can_move` looks for: an empty cell, or two equal neighbours in a row or a column. */
  ghost predicate Movable(b: bv64)
  {
    HasEmpty(b) || HasRowPair(b) || HasColPair(b)
  }

  /** The first scan of `can_move`: any empty cell, in row-major order. */
  method ScanEmpty(b: bv64) returns (found: bool)
    ensures found == HasEmpty(b)
  {
    var pos: bv8 := 0;
    while pos < 16
      invariant pos <= 16
      invariant forall q: bv8 :: q < pos ==> Cell(b, q) != 0
    {
      if ((b >> ((pos * 4) as bv64)) & 0xF) == 0 {
        assert Cell(b, pos) == 0;
        return true;
      }
      pos := pos + 1;
    }
    return false;
  }

  /** The second scan of `can_move`: two equal neighbours in a row. */
  method ScanRows(b: bv64) returns (found: bool)
    ensures found == HasRowPair(b)
  {
    var r: bv8 := 0;
    while r < 4
      invariant r <= 4
      invariant forall i: bv8, j: bv8 :: i < r && j < 3 ==> Get(b, i, j) != Get(b, i, j + 1)
    {
      var c: bv8 := 0;
      while c < 3
        invariant c <= 3
        invariant forall i: bv8, j: bv8 :: i < r && j < 3 ==> Get(b, i, j) != Get(b, i, j + 1)
        invariant forall j: bv8 :: j < c ==> Get(b, r, j) != Get(b, r, j + 1)
      {
        if Get(b, r, c) == Get(b, r, c + 1) {
          return true;
        }
        c := c + 1;
      }
      r := r + 1;
    }
    return false;
  }

  /** The third scan of `can_move`: two equal neighbours in a column. */
  method ScanColumns(b: bv64) returns (found: bool)
    ensures found == HasColPair(b)
  {
    var c: bv8 := 0;
    while c < 4
      invariant c <= 4
      invariant forall i: bv8, j: bv8 :: i < 3 && j < c ==> Get(b, i, j) != Get(b, i + 1, j)
    {
      var r: bv8 := 0;
      while r < 3
        invariant r <= 3
        invariant forall i: bv8, j: bv8 :: i < 3 && j < c ==> Get(b, i, j) != Get(b, i + 1, j)
        invariant forall i: bv8 :: i < r ==> Get(b, i, c) != Get(b, i + 1, c)
      {
        if Get(b, r, c) == Get(b, r + 1, c) {
          return true;
        }
        r := r + 1;
      }
      c := c + 1;
    }
    return false;
  }

  /** `can_move`: the three scans in the source's order, stopping at the first that succeeds. */
  method CanMove(b: bv64) returns (ok: bool)
    ensures ok == Movable(b)
  {
    ok := ScanEmpty(b);
    if !ok {
      ok := ScanRows(b);
      if !ok {
        ok := ScanColumns(b);
      }
    }
  }

  /*
   * can_move against move_board
   */

  /** Cell (r, c) is cell number r * 4 + c. */
  lemma CellGet(b: bv64, r: bv8, c: bv8)
    requires r < 4 && c < 4
    ensures Get(b, r, c) == Cell(b, r * 4 + c)
  {
  }

  /** Row k of the transposed board holds column k of the board. */
  lemma ColumnCells(b: bv64, k: bv8)
    requires k < 4
    ensures Tiles(RowOf(Transposed(b), k)) == [Get(b, 0, k), Get(b, 1, k), Get(b, 2, k), Get(b, 3, k)]
  {
    RowCells(Transposed(b), k);
    TransposedCells(b);
  }

  /** On a board `can_move` rejects, every row and every column is jammed. */
  lemma StuckJammed(b: bv64, k: bv8)
    requires k < 4 && !Movable(b)
    ensures Jammed(Tiles(RowOf(b, k))) && Jammed(Tiles(RowOf(Transposed(b), k)))
  {
    RowCells(b, k);
    ColumnCells(b, k);
    CellGet(b, k, 0);
    CellGet(b, k, 1);
    CellGet(b, k, 2);
    CellGet(b, k, 3);
    CellGet(b, 0, k);
    CellGet(b, 1, k);
    CellGet(b, 2, k);
    CellGet(b, 3, k);
  }

  /** A sound table leaves a jammed row alone both ways. */
  lemma JammedFixed(r: bv16, lut: bv16 -> Entry)
    requires Sound(lut) && Jammed(Tiles(r))
    ensures lut(r).left == r && lut(r).right == r
  {
    JammedStable(r);
    assert SoundAt(r, lut(r));
  }

  /** When `can_move` says no, no direction moves the board. */
  lemma StuckNoMove(b: bv64, d: int, lut: bv16 -> Entry)
    requires Sound(lut) && !Movable(b)
    ensures !Moved(b, d, lut)
  {
    var src := Source(b, d);
    StuckJammed(b, 0);
    StuckJammed(b, 1);
    StuckJammed(b, 2);
    StuckJammed(b, 3);
    JammedFixed(RowOf(src, 0), lut);
    JammedFixed(RowOf(src, 1), lut);
    JammedFixed(RowOf(src, 2), lut);
    JammedFixed(RowOf(src, 3), lut);
  }

  /** Cell (r, c) is entry c of row r's tiles, and entry r of column c's tiles. */
  lemma CellTiles(b: bv64, r: bv8, c: bv8)
    requires r < 4 && c < 4
    ensures Tiles(RowOf(b, r))[c as int] == Get(b, r, c)
    ensures Tiles(RowOf(Transposed(b), c))[r as int] == Get(b, r, c)
  {
    GetRow(b, r, c);
    TileAt(RowOf(b, r), c);
    GetRow(Transposed(b), c, r);
    TileAt(RowOf(Transposed(b), c), r);
    TransposedCells(b);
  }

  /** A row of the (possibly transposed) board that the chosen table must change makes the move report a move. */
  lemma MovesByRow(b: bv64, d: int, lut: bv16 -> Entry, k: bv8)
    requires Sound(lut) && k < 4
    requires var row := RowOf(Source(b, d), k);
             if d % 2 == 0 then !Stable(Tiles(row)) else !Stable(Tiles(Reverse(row)))
    ensures Moved(b, d, lut)
  {
    var src := Source(b, d);
    assert SoundAt(RowOf(src, k), lut(RowOf(src, k)));
    assert k == 0 || k == 1 || k == 2 || k == 3;
  }

  /** A board that is not empty can be told apart from the empty board at some cell. */
  lemma SomeTile(b: bv64)
    requires b != 0
    ensures exists r: bv8, c: bv8 :: r < 4 && c < 4 && Get(b, r, c) != 0
  {
    if forall r: bv8, c: bv8 :: r < 4 && c < 4 ==> Get(b, r, c) == 0 {
      Ext(b, 0);
    }
  }

  /** An empty cell and a tile in the same row: the row moves left or right. */
  lemma RowMixedMoves(b: bv64, lut: bv16 -> Entry, r: bv8, c: bv8, j: bv8)
    requires Sound(lut) && r < 4 && c < 4 && j < 4 && Get(b, r, c) == 0 && Get(b, r, j) != 0
    ensures Moved(b, 0, lut) || Moved(b, 1, lut)
  {
    CellTiles(b, r, c);
    CellTiles(b, r, j);
    MixedUnstable(RowOf(b, r), c as int, j as int);
    if !Stable(Tiles(RowOf(b, r))) {
      MovesByRow(b, 0, lut, r);
    } else {
      MovesByRow(b, 1, lut, r);
    }
  }

  /** An empty cell and a tile in the same column: the column moves up or down. */
  lemma ColumnMixedMoves(b: bv64, lut: bv16 -> Entry, r: bv8, i: bv8, c: bv8)
    requires Sound(lut) && r < 4 && i < 4 && c < 4 && Get(b, r, c) == 0 && Get(b, i, c) != 0
    ensures Moved(b, 2, lut) || Moved(b, 3, lut)
  {
    CellTiles(b, r, c);
    CellTiles(b, i, c);
    MixedUnstable(RowOf(Transposed(b), c), r as int, i as int);
    if !Stable(Tiles(RowOf(Transposed(b), c))) {
      MovesByRow(b, 2, lut, c);
    } else {
      MovesByRow(b, 3, lut, c);
    }
  }

  /** An empty cell on a board with some tile: its row or its column moves one way or the other. */
  lemma EmptyCellMoves(b: bv64, lut: bv16 -> Entry, r: bv8, c: bv8)
    requires Sound(lut) && b != 0 && r < 4 && c < 4 && Get(b, r, c) == 0
    ensures Moved(b, 0, lut) || Moved(b, 1, lut) || Moved(b, 2, lut) || Moved(b, 3, lut)
  {
    if j: bv8 :| j < 4 && Get(b, r, j) != 0 {
      RowMixedMoves(b, lut, r, c, j);
    } else {
      SomeTile(b);
      var i: bv8, j: bv8 :| i < 4 && j < 4 && Get(b, i, j) != 0;
      assert Get(b, r, j) == 0;
      ColumnMixedMoves(b, lut, r, i, j);
    }
  }

  /** Two equal tiles side by side in a row: the row moves left. */
  lemma RowPairMoves(b: bv64, lut: bv16 -> Entry, r: bv8, c: bv8)
    requires Sound(lut) && r < 4 && c < 3 && Get(b, r, c) != 0 && Get(b, r, c) == Get(b, r, c + 1)
    ensures Moved(b, 0, lut)
  {
    CellTiles(b, r, c);
    CellTiles(b, r, c + 1);
    PairUnstable(Tiles(RowOf(b, r)), c as int);
    MovesByRow(b, 0, lut, r);
  }

  /** Two equal tiles one above the other: the column moves up. */
  lemma ColumnPairMoves(b: bv64, lut: bv16 -> Entry, r: bv8, c: bv8)
    requires Sound(lut) && r < 3 && c < 4 && Get(b, r, c) != 0 && Get(b, r, c) == Get(b, r + 1, c)
    ensures Moved(b, 2, lut)
  {
    CellTiles(b, r, c);
    CellTiles(b, r + 1, c);
    PairUnstable(Tiles(RowOf(Transposed(b), c)), r as int);
    MovesByRow(b, 2, lut, c);
  }

  /** When `can_move` says yes on a board with at least one tile, some direction moves it. */
  lemma MovableMoves(b: bv64, lut: bv16 -> Entry)
    requires Sound(lut) && Movable(b) && b != 0
    ensures Moved(b, 0, lut) || Moved(b, 1, lut) || Moved(b, 2, lut) || Moved(b, 3, lut)
  {
    if r: bv8, c: bv8 :| r < 4 && c < 3 && Get(b, r, c) == Get(b, r, c + 1) {
      if Get(b, r, c) != 0 {
        RowPairMoves(b, lut, r, c);
      } else {
        EmptyCellMoves(b, lut, r, c);
      }
    } else if r: bv8, c: bv8 :| r < 3 && c < 4 && Get(b, r, c) == Get(b, r + 1, c) {
      if Get(b, r, c) != 0 {
        ColumnPairMoves(b, lut, r, c);
      } else {
        EmptyCellMoves(b, lut, r, c);
      }
    } else {
      var pos: bv8 :| pos < 16 && Cell(b, pos) == 0;
      var r, c := pos / 4, pos % 4;
      CellGet(b, r, c);
      assert r * 4 + c == pos;
      EmptyCellMoves(b, lut, r, c);
    }
  }

  /** The empty board: `can_move` says yes, since every cell is empty, yet no direction moves it. */
  lemma EmptyBoard(d: int, lut: bv16 -> Entry)
    requires Sound(lut)
    ensures Movable(0) && !Moved(0, d, lut)
  {
    assert Cell(0, 0) == 0;
    assert Transposed(0) == 0;
    assert Tiles(0) == [0, 0, 0, 0];
    assert Reverse(0) == 0;
    assert SoundAt(0, lut(0));
    assert RowOf(0, 0) == 0 && RowOf(0, 1) == 0 && RowOf(0, 2) == 0 && RowOf(0, 3) == 0;
  }

  /** A transposed board is empty exactly when the board is. */
  lemma TransposedEmpty(x: bv64)
    ensures Transposed(x) == 0 <==> x == 0
  {
    TransposedTwice(x);
    assert Transposed(0) == 0;
  }

  /** A board whose four rows are empty is the empty board. */
  lemma RowsEmpty(b: bv64)
    requires RowOf(b, 0) == 0 && RowOf(b, 1) == 0 && RowOf(b, 2) == 0 && RowOf(b, 3) == 0
    ensures b == 0
  {
    RowExt(b, 0);
  }

  /** A row with a tile keeps a tile under either table. */
  lemma NewRowKeepsTile(b: bv64, left: bool, k: bv8)
    requires k < 4 && RowOf(b, k) != 0
    ensures NewRow(b, EntrySpec, left, k) != 0
  {
    if left {
      LeftRowKeepsTile(RowOf(b, k));
    } else {
      RightRowKeepsTile(RowOf(b, k));
    }
  }

  /** Row k of the assembled board keeps the tile of row k. */
  lemma RowsBoardKeepsRow(b: bv64, left: bool, k: bv8)
    requires k < 4 && RowOf(b, k) != 0
    ensures RowsBoard(b, EntrySpec, left) != 0
  {
    NewRowKeepsTile(b, left, k);
    RowsBoardRow(b, EntrySpec, left, k);
    assert RowOf(0, k) == 0;
  }

  /** The row loop never empties a board that has a tile. */
  lemma RowsBoardKeepsTile(b: bv64, left: bool)
    requires b != 0
    ensures RowsBoard(b, EntrySpec, left) != 0
  {
    if RowOf(b, 0) != 0 {
      RowsBoardKeepsRow(b, left, 0);
    } else if RowOf(b, 1) != 0 {
      RowsBoardKeepsRow(b, left, 1);
    } else if RowOf(b, 2) != 0 {
      RowsBoardKeepsRow(b, left, 2);
    } else {
      assert RowOf(b, 3) != 0 by {
        if RowOf(b, 3) == 0 {
          RowsEmpty(b);
        }
      }
      RowsBoardKeepsRow(b, left, 3);
    }
  }

  /** `move_board` never empties a board that has a tile, whatever the direction. */
  lemma MoveKeepsTile(b: bv64, d: int)
    requires b != 0
    ensures MoveSpec(b, d).0 != 0
  {
    TransposedEmpty(b);
    var m := RowsBoard(Source(b, d), EntrySpec, d % 2 == 0);
    RowsBoardKeepsTile(Source(b, d), d % 2 == 0);
    TransposedEmpty(m);
  }

  /**
   * On every board but the empty one, `can_move` says yes exactly when some
   * direction moves the board.
   */
  lemma CanMoveIffMoves(b: bv64, lut: bv16 -> Entry)
    requires Sound(lut) && b != 0
    ensures Movable(b) <==> Moved(b, 0, lut) || Moved(b, 1, lut) || Moved(b, 2, lut) || Moved(b, 3, lut)
  {
    if Movable(b) {
      MovableMoves(b, lut);
    } else {
      StuckNoMove(b, 0, lut);
      StuckNoMove(b, 1, lut);
      StuckNoMove(b, 2, lut);
      StuckNoMove(b, 3, lut);
    }
  }

  /**
   * `move_board` with the tables the module builds: the flag is true exactly
   * when the board changes, and an unchanged board gains nothing.
   */
  lemma MoveSpecFlags(b: bv64, d: int)
    ensures MoveSpec(b, d).2 <==> MoveSpec(b, d).0 != b
    ensures !MoveSpec(b, d).2 ==> MoveSpec(b, d).1 == 0
  {
    EntrySpecSound();
    MovedIffChanged(b, d, EntrySpec);
    NoMoveNoGain(b, d, EntrySpec);
  }

  /** `can_move` with the tables the module builds: on a nonempty board, true exactly when some direction moves. */
  lemma MoveSpecCanMove(b: bv64)
    requires b != 0
    ensures Movable(b) <==> exists d :: 0 <= d < 4 && MoveSpec(b, d).2
  {
    EntrySpecSound();
    CanMoveIffMoves(b, EntrySpec);
    if Movable(b) {
      if Moved(b, 0, EntrySpec) {
        assert MoveSpec(b, 0).2;
      } else if Moved(b, 1, EntrySpec) {
        assert MoveSpec(b, 1).2;
      } else if Moved(b, 2, EntrySpec) {
        assert MoveSpec(b, 2).2;
      } else {
        assert MoveSpec(b, 3).2;
      }
    } else {
      forall d | 0 <= d < 4 ensures !MoveSpec(b, d).2 {
        StuckNoMove(b, d, EntrySpec);
      }
    }
  }
}
