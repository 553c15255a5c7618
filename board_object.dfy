/*
 * The `Board` class of board.py (lines 104-158): a mutable 64-bit board with
 * the empty-cell list, the maximum tile, tile placement, moves and the
 * random tile spawn.  The random choices become parameters: `pick` selects
 * the empty cell (an index into the empty-cell list, taken modulo its
 * length) and `coin` is the draw of `random.random()`.
 */
module BoardObject {
  import opened Results
  import opened RowTables
  import opened BitBoard

  /** A cell (row, column), as in the tuples of `get_empty_cells`. */
  datatype Pos = Pos(r: bv8, c: bv8)

  /** Cell number p in row-major order as a position: `(p // 4, p % 4)`. */
  function At(p: bv8): (q: Pos)
    requires p < 16
    ensures q.r < 4 && q.c < 4
  {
    Pos(p / 4, p % 4)
  }

  /** The row-major number of a position. */
  function Index(q: Pos): bv8
  {
    q.r * 4 + q.c
  }

  /** Position p is cell number p, and reading it through `_get` reads nibble p. */
  lemma AtCell(b: bv64, p: bv8)
    requires p < 16
    ensures Index(At(p)) == p && Get(b, At(p).r, At(p).c) == Cell(b, p)
  {
    CellGet(b, p / 4, p % 4);
  }

  /** Cell number k as the 8-bit position the bit kernels take. */
  function Ix16(k: nat): bv8
    requires k < 16
  {
    k as bv8
  }

  /** The empty cells among cells 0 .. n-1, in row-major order. */
  function EmptyBelow(b: bv64, n: nat): seq<Pos>
    requires n <= 16
  {
    if n == 0 then []
    else EmptyBelow(b, n - 1) + (if Cell(b, Ix16(n - 1)) == 0 then [At(Ix16(n - 1))] else [])
  }

  /** `get_empty_cells`: the empty cells of the board, in row-major order. */
  function EmptyList(b: bv64): seq<Pos>
  {
    EmptyBelow(b, 16)
  }

  /** Every listed cell lies on the board, is empty, and comes before cell n. */
  lemma {:induction false} EmptyBelowSound(b: bv64, n: nat)
    requires n <= 16
    ensures forall i :: 0 <= i < |EmptyBelow(b, n)| ==>
      var q := EmptyBelow(b, n)[i]; q.r < 4 && q.c < 4 && (Index(q) as nat) < n && Get(b, q.r, q.c) == 0
  {
    if n > 0 {
      EmptyBelowSound(b, n - 1);
      AtCell(b, Ix16(n - 1));
    }
  }

  lemma IndexBelow(q: Pos, k: nat)
    requires k < 16 && (Index(q) as nat) < k
    ensures Index(q) < Ix16(k)
  {
  }

  /** The list is in strictly increasing row-major order, so no cell is listed twice. */
  lemma {:induction false} EmptyBelowOrdered(b: bv64, n: nat)
    requires n <= 16
    ensures forall i, j :: 0 <= i < j < |EmptyBelow(b, n)| ==> Index(EmptyBelow(b, n)[i]) < Index(EmptyBelow(b, n)[j])
  {
    if n > 0 {
      var s := EmptyBelow(b, n - 1);
      EmptyBelowOrdered(b, n - 1);
      EmptyBelowSound(b, n - 1);
      AtCell(b, Ix16(n - 1));
      forall i | 0 <= i < |s| ensures Index(s[i]) < Index(At(Ix16(n - 1))) {
        IndexBelow(s[i], n - 1);
      }
    }
  }

  /** Every empty cell before cell n is listed. */
  lemma {:induction false} EmptyBelowComplete(b: bv64, n: nat)
    requires n <= 16
    ensures forall k: nat :: k < n && Cell(b, Ix16(k)) == 0 ==> At(Ix16(k)) in EmptyBelow(b, n)
  {
    if n > 0 {
      EmptyBelowComplete(b, n - 1);
    }
  }

  /** The empty-cell list holds exactly the empty cells of the board, each once, in row-major order. */
  lemma EmptyListExact(b: bv64)
    ensures forall i :: 0 <= i < |EmptyList(b)| ==>
      EmptyList(b)[i].r < 4 && EmptyList(b)[i].c < 4 && Get(b, EmptyList(b)[i].r, EmptyList(b)[i].c) == 0
    ensures forall i, j :: 0 <= i < j < |EmptyList(b)| ==> Index(EmptyList(b)[i]) < Index(EmptyList(b)[j])
    ensures forall r: bv8, c: bv8 :: r < 4 && c < 4 && Get(b, r, c) == 0 ==> Pos(r, c) in EmptyList(b)
  {
    EmptyBelowSound(b, 16);
    EmptyBelowOrdered(b, 16);
    EmptyBelowComplete(b, 16);
    forall r: bv8, c: bv8 | r < 4 && c < 4 && Get(b, r, c) == 0
      ensures Pos(r, c) in EmptyList(b)
    {
      CellGet(b, r, c);
      var k: nat := (r * 4 + c) as nat;
      assert Ix16(k) == r * 4 + c;
      assert At(Ix16(k)) == Pos(r, c);
    }
  }

  /** Every listed cell lies on the board. */
  lemma EmptyListOnBoard(b: bv64)
    ensures forall i :: 0 <= i < |EmptyList(b)| ==> EmptyList(b)[i].r < 4 && EmptyList(b)[i].c < 4
  {
    EmptyBelowSound(b, 16);
  }

  /** The list is empty exactly when the board has no empty cell. */
  lemma EmptyListNone(b: bv64)
    ensures EmptyList(b) == [] <==> !HasEmpty(b)
  {
    EmptyBelowSound(b, 16);
    EmptyBelowComplete(b, 16);
    if EmptyList(b) != [] {
      var q := EmptyList(b)[0];
      CellGet(b, q.r, q.c);
      assert Cell(b, q.r * 4 + q.c) == 0;
    } else {
      forall p: bv8 | p < 16 ensures Cell(b, p) != 0 {
        assert Ix16(p as nat) == p;
      }
    }
  }

  /** The largest exponent among cells 0 .. n-1 (0 when n is 0). */
  function MaxBelow(b: bv64, n: nat): (m: bv8)
    requires n <= 16
    ensures m < 16
  {
    if n == 0 then 0
    else
      var m := MaxBelow(b, n - 1);
      var e := Cell(b, Ix16(n - 1));
      if e > m then e else m
  }

  /** No cell before cell n exceeds the maximum over them. */
  lemma {:induction false} MaxBelowBounds(b: bv64, n: nat)
    requires n <= 16
    ensures forall k: nat :: k < n ==> Cell(b, Ix16(k)) <= MaxBelow(b, n)
  {
    if n > 0 {
      MaxBelowBounds(b, n - 1);
    }
  }

  /** The maximum over cells 0 .. n-1 is attained at one of them. */
  lemma {:induction false} MaxBelowAttained(b: bv64, n: nat)
    requires 0 < n <= 16
    ensures exists k: nat :: k < n && Cell(b, Ix16(k)) == MaxBelow(b, n)
  {
    if n > 1 && Cell(b, Ix16(n - 1)) <= MaxBelow(b, n - 1) {
      MaxBelowAttained(b, n - 1);
    } else {
      assert Cell(b, Ix16(n - 1)) == MaxBelow(b, n);
    }
  }

  /** The exponent of the largest tile: the `max` in `max_tile`. */
  function MaxExp(b: bv64): bv8
  {
    MaxBelow(b, 16)
  }

  /** `max_tile`: `1 << max_exponent` (1 on the empty board). */
  function MaxTile(b: bv64): nat
  {
    Pow2(MaxExp(b) as nat)
  }

  /** The maximum exponent is that of some cell and no cell exceeds it. */
  lemma MaxExpIsMax(b: bv64)
    ensures forall r: bv8, c: bv8 :: r < 4 && c < 4 ==> Get(b, r, c) <= MaxExp(b)
    ensures exists r: bv8, c: bv8 :: r < 4 && c < 4 && Get(b, r, c) == MaxExp(b)
  {
    MaxBelowBounds(b, 16);
    forall r: bv8, c: bv8 | r < 4 && c < 4 ensures Get(b, r, c) <= MaxExp(b) {
      CellGet(b, r, c);
      assert Ix16((r * 4 + c) as nat) == r * 4 + c;
    }
    MaxBelowAttained(b, 16);
    var k: nat :| k < 16 && Cell(b, Ix16(k)) == MaxExp(b);
    AtCell(b, Ix16(k));
  }

  /** The exponent `_add_random_tile` places: 1 (a 2) when the draw is below 0.9, else 2 (a 4). */
  function SpawnExp(coin: real): (e: bv8)
    ensures e == 1 || e == 2
  {
    if coin < 0.9 then 1 else 2
  }

  /** `_add_random_tile`: nothing on a full board, else the chosen empty cell gets the drawn exponent. */
  function Spawn(b: bv64, pick: nat, coin: real): bv64
  {
    var empties := EmptyList(b);
    if empties == [] then b
    else
      var q := empties[pick % |empties|];
      EmptyBelowSound(b, 16);
      Set(b, q.r, q.c, SpawnExp(coin))
  }

  /** The spawn changes the board exactly when the board has an empty cell. */
  lemma SpawnChanges(b: bv64, pick: nat, coin: real)
    ensures Spawn(b, pick, coin) != b <==> HasEmpty(b)
  {
    EmptyListNone(b);
    EmptyListExact(b);
    if EmptyList(b) != [] {
      var q := EmptyList(b)[pick % |EmptyList(b)|];
      SetSame(b, q.r, q.c, SpawnExp(coin));
    }
  }

  /**
   * On a board with an empty cell, the spawn writes 1 or 2 into one cell that
   * was empty (the picked entry of the empty list) and leaves every other cell alone.
   */
  lemma SpawnPlaces(b: bv64, pick: nat, coin: real)
    requires HasEmpty(b)
    ensures EmptyList(b) != []
    ensures var q := EmptyList(b)[pick % |EmptyList(b)|];
      && q.r < 4 && q.c < 4 && Get(b, q.r, q.c) == 0
      && Get(Spawn(b, pick, coin), q.r, q.c) == SpawnExp(coin)
      && forall r: bv8, c: bv8 :: r < 4 && c < 4 && (r != q.r || c != q.c) ==> Get(Spawn(b, pick, coin), r, c) == Get(b, r, c)
  {
    EmptyListNone(b);
    EmptyListExact(b);
    var q := EmptyList(b)[pick % |EmptyList(b)|];
    SetSame(b, q.r, q.c, SpawnExp(coin));
    forall r: bv8, c: bv8 | r < 4 && c < 4 && (r != q.r || c != q.c)
      ensures Get(Spawn(b, pick, coin), r, c) == Get(b, r, c)
    {
      SetOther(b, q.r, q.c, r, c, SpawnExp(coin));
    }
  }

  /** The direction codes of `Board.move`: `{"left": 0, "right": 1, "up": 2, "down": 3}`. */
  function DirId(dir: string): (d: Option<int>)
    ensures d.Some? ==> 0 <= d.value < 4
  {
    if dir == "left" then Some(0)
    else if dir == "right" then Some(1)
    else if dir == "up" then Some(2)
    else if dir == "down" then Some(3)
    else None
  }

  /** The four direction names map to the four codes one to one; anything else is a missing key. */
  lemma DirIdOneToOne(x: string, y: string)
    requires DirId(x).Some? && DirId(x) == DirId(y)
    ensures x == y
  {
  }

  class Board {
    /** `_b`: the packed board. */
    var raw: bv64

    /** `__init__`: the empty board, then two random tiles. */
    constructor (pick1: nat, coin1: real, pick2: nat, coin2: real)
      ensures raw == Spawn(Spawn(0, pick1, coin1), pick2, coin2)
    {
      raw := 0;
      new;
      AddRandomTile(pick1, coin1);
      AddRandomTile(pick2, coin2);
    }

    /** The object `clone` builds without running `__init__`. */
    constructor Of(b: bv64)
      ensures raw == b
    {
      raw := b;
    }

    /** `clone`: a fresh board with the same word. */
    method Clone() returns (o: Board)
      ensures fresh(o) && o.raw == raw
    {
      o := new Board.Of(raw);
    }

    /** `__hash__`: the board word as an integer. */
    function Hash(): (h: int)
      reads this
      ensures 0 <= h < 0x1_0000_0000_0000_0000
    {
      raw as int
    }

    /** `__eq__` between two boards. */
    predicate Equals(o: Board)
      reads this, o
    {
      raw == o.raw
    }

    /** `max_tile` of this board. */
    function MaxTileOf(): nat
      reads this
    {
      MaxTile(raw)
    }

    /** `set_tile(r, c, exp)`: `_set` on the board word. */
    method SetTile(r: bv8, c: bv8, exp: bv8)
      requires r < 4 && c < 4
      modifies this
      ensures raw == Set(old(raw), r, c, exp)
    {
      raw := Set(raw, r, c, exp);
    }

    /** `_add_random_tile` with the choice of cell and the draw as parameters. */
    method AddRandomTile(pick: nat, coin: real)
      modifies this
      ensures raw == Spawn(old(raw), pick, coin)
    {
      var empties := EmptyList(raw);
      if empties == [] {
        return;
      }
      var q := empties[pick % |empties|];
      EmptyBelowSound(raw, 16);
      SetTile(q.r, q.c, SpawnExp(coin));
    }

    /**
     * `move`: an unknown direction raises `KeyError` and changes nothing;
     * otherwise the board takes `move_board`'s result only if it moved, and
     * then (with `add_random`) a random tile.  Returns `(moved, gain)`.
     */
    method Move(t: Tables, dir: string, addRandom: bool, pick: nat, coin: real) returns (res: Result<(bool, nat)>)
      requires t.Valid()
      modifies this
      ensures DirId(dir).None? ==> res == Failure(KeyError(dir)) && raw == old(raw)
      ensures DirId(dir).Some? ==>
        var m := MoveSpec(old(raw), DirId(dir).value);
        && res == Success((m.2, m.1))
        && raw == (if !m.2 then old(raw) else if addRandom then Spawn(m.0, pick, coin) else m.0)
    {
      var d := DirId(dir);
      if d.None? {
        return Failure(KeyError(dir));
      }
      var newB, gain, moved := MoveBoard(t, raw, d.value);
      if moved {
        raw := newB;
        if addRandom {
          AddRandomTile(pick, coin);
        }
      }
      res := Success((moved, gain));
    }

    /** `can_move` of this board. */
    method CanMoveNow() returns (ok: bool)
      ensures ok == Movable(raw)
    {
      ok := CanMove(raw);
    }
  }

  /** A move that does not move leaves the board and the score alone: `Board.move` then adds no tile. */
  lemma StillMoveKeeps(b: bv64, d: int)
    requires !MoveSpec(b, d).2
    ensures MoveSpec(b, d).0 == b && MoveSpec(b, d).1 == 0
  {
    MoveSpecFlags(b, d);
  }
}
