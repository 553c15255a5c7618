/*
 * The `Game` class of game.py: a board, the cumulative score and the
 * `over` / `won` flags, updated after every successful move.
 */
module GameState {
  import opened Results
  import opened RowTables
  import opened BitBoard
  import opened BoardObject

  /** `WIN_TILE`. */
  const WinTile: nat := 2048

  /** The sum of a list of gains. */
  function Sum(s: seq<nat>): nat
  {
    if s == [] then 0 else Sum(s[..|s| - 1]) + s[|s| - 1]
  }

  /** The test `max_tile() >= WIN_TILE`. */
  predicate Won(b: bv64)
  {
    MaxTile(b) >= WinTile
  }

  /** 2^e reaches 2048 exactly from exponent 11 on. */
  lemma {:induction false} Pow2Reaches(e: nat)
    ensures Pow2(e) >= 2048 <==> e >= 11
  {
    if e > 11 {
      Pow2Reaches(e - 1);
    } else if e > 0 {
      Pow2Reaches(e - 1);
      assert e == 11 ==> Pow2(e) == 2 * Pow2(10);
    }
  }

  /** A board is won exactly when some tile has exponent 11 or more. */
  lemma WonIffExp(b: bv64)
    ensures Won(b) <==> MaxExp(b) >= 11
  {
    Pow2Reaches(MaxExp(b) as nat);
  }

  class Game {
    const board: Board
    var score: nat
    var over: bool
    var won: bool
    /** The gains of the successful moves so far. */
    ghost var gains: seq<nat>

    /** The score is the sum of the gains, and a won game is over. */
    ghost predicate Valid()
      reads this
    {
      score == Sum(gains) && (won ==> over)
    }

    /** `__init__`: a new board with two random tiles, score 0, neither over nor won. */
    constructor (pick1: nat, coin1: real, pick2: nat, coin2: real)
      ensures Valid() && fresh(board)
      ensures board.raw == Spawn(Spawn(0, pick1, coin1), pick2, coin2)
      ensures score == 0 && !over && !won && gains == []
    {
      board := new Board(pick1, coin1, pick2, coin2);
      score := 0;
      over := false;
      won := false;
      gains := [];
    }

    /**
     * `move`: the board move (with a random tile); on success the gain is
     * added to the score, and the flags are raised, never cleared.  Returns
     * `Board.move`'s pair unchanged; an unknown direction raises.
     */
    method Move(t: Tables, dir: string, pick: nat, coin: real) returns (res: Result<(bool, nat)>)
      requires Valid() && t.Valid()
      modifies this, board
      ensures Valid()
      ensures DirId(dir).None? ==> res == Failure(KeyError(dir)) && board.raw == old(board.raw)
      ensures DirId(dir).Some? ==>
        var m := MoveSpec(old(board.raw), DirId(dir).value);
        && res == Success((m.2, m.1))
        && board.raw == (if m.2 then Spawn(m.0, pick, coin) else old(board.raw))
      ensures res.Success? && res.value.0 ==>
        && score == old(score) + res.value.1 && gains == old(gains) + [res.value.1]
        && won == (old(won) || Won(board.raw))
        && over == (old(over) || Won(board.raw) || !Movable(board.raw))
      ensures !(res.Success? && res.value.0) ==>
        score == old(score) && gains == old(gains) && over == old(over) && won == old(won)
    {
      res := board.Move(t, dir, true, pick, coin);
      if res.Success? && res.value.0 {
        Record(res.value.1);
      }
    }

    /** The bookkeeping after a successful move: add the gain, then raise the flags the new board calls for. */
    method Record(gain: nat)
      requires Valid()
      modifies this
      ensures Valid()
      ensures score == old(score) + gain && gains == old(gains) + [gain]
      ensures won == (old(won) || Won(board.raw))
      ensures over == (old(over) || Won(board.raw) || !Movable(board.raw))
    {
      score := score + gain;
      gains := gains + [gain];
      assert gains[..|gains| - 1] == old(gains);
      var top := board.MaxTileOf();
      if top >= WinTile {
        won := true;
        over := true;
      } else {
        var ok := board.CanMoveNow();
        if !ok {
          over := true;
        }
      }
    }

    /** `is_over`. */
    function IsOver(): (o: bool)
      reads this
      requires Valid()
      ensures won ==> o
    {
      over
    }

    /** `is_won`. */
    function IsWon(): (w: bool)
      reads this
      requires Valid()
      ensures w ==> IsOver()
    {
      won
    }
  }
}
