/*
 * The BEPP expectimax of search/expectimax.py: iterative deepening over a
 * beam of the best-evaluated moving directions, max nodes over the moving
 * directions, chance nodes over the empty cells with probability pruning
 * and an early break, and a transposition dict shared by one `best_move`
 * call.  Values are Python floats over `real`, `eval_fn` is a parameter,
 * and the wall clock is an oracle on the successive readings of the deadline.
 */
module Expectimax {
  import opened Results
  import opened RowTables
  import opened BitBoard
  import opened BoardObject
  import opened Heuristics
  import opened SearchValues

  /** `DIRECTIONS`: the order in which the beam and the max nodes try the moves. */
  const Directions: seq<string> := ["up", "down", "left", "right"]

  /** The `move_board` code `Board.move` looks `DIRECTIONS[i]` up as. */
  function DirCode(i: nat): (d: int)
    requires i < 4
    ensures DirId(Directions[i]) == Some(d)
  {
    if i == 0 then 2 else if i == 1 then 3 else if i == 2 then 0 else 1
  }

  /** Every move code is the code of an entry of `DIRECTIONS`. */
  lemma DirCodeOnto(d: int)
    requires 0 <= d < 4
    ensures exists i :: 0 <= i < 4 && DirCode(i) == d
  {
    assert DirCode(2) == 0 && DirCode(3) == 1 && DirCode(0) == 2 && DirCode(1) == 3;
  }

  /*
   * The outcomes of the four directions
   */

  /** What `tmp.move(DIRECTIONS[i], add_random=False)` reports and leaves: whether it moved, and the board. */
  datatype Outcome = Outcome(moved: bool, child: bv64)

  /** The outcome of `DIRECTIONS[i]` on b. */
  function Step(b: bv64, i: nat): Outcome
    requires i < 4
  {
    Outcome(Moved(b, DirCode(i), EntrySpec), Slide(b, DirCode(i), EntrySpec))
  }

  /**
   * `os` lists the outcomes of the four directions on b, in `DIRECTIONS`
   * order.  The search reasons about such a list rather than about the
   * moves themselves.
   */
  predicate IsOutcomes(b: bv64, os: seq<Outcome>)
  {
    |os| == 4 && forall i {:trigger Step(b, i)} :: 0 <= i < 4 ==> os[i] == Step(b, i)
  }

  /** Every board has its list of outcomes. */
  lemma OutcomesOf(b: bv64) returns (os: seq<Outcome>)
    ensures IsOutcomes(b, os)
  {
    os := seq(4, i requires 0 <= i < 4 => Step(b, i));
  }

  /** The list of outcomes of a board is unique. */
  lemma OutcomesUnique(b: bv64, os: seq<Outcome>, ps: seq<Outcome>)
    requires IsOutcomes(b, os) && IsOutcomes(b, ps)
    ensures os == ps
  {
    forall i | 0 <= i < 4 ensures os[i] == ps[i] {
      assert os[i] == Step(b, i);
    }
  }

  /** The outcome of direction i is the moved flag and the board of `move_board`. */
  lemma StepIs(b: bv64, i: nat, os: seq<Outcome>)
    requires i < 4 && IsOutcomes(b, os)
    ensures os[i].moved == MoveSpec(b, DirCode(i)).2 && os[i].child == MoveSpec(b, DirCode(i)).0
  {
    assert os[i] == Step(b, i);
  }

  /** No direction moves the empty board. */
  lemma EmptyStays(os: seq<Outcome>)
    requires IsOutcomes(0, os)
    ensures forall i :: 0 <= i < 4 ==> !os[i].moved
  {
    EntrySpecSound();
    forall i | 0 <= i < 4 ensures !os[i].moved {
      assert os[i] == Step(0, i);
      EmptyBoard(DirCode(i), EntrySpec);
    }
  }

  /** A move leaves a tile on a board that has one. */
  lemma ChildrenKeepTile(b: bv64, os: seq<Outcome>)
    requires IsOutcomes(b, os) && b != 0
    ensures forall i :: 0 <= i < 4 ==> os[i].child != 0
  {
    forall i | 0 <= i < 4 ensures os[i].child != 0 {
      assert os[i] == Step(b, i);
      MoveKeepsTile(b, DirCode(i));
    }
  }

  /** The indices among the first n outcomes that moved, in order. */
  function Moving(os: seq<Outcome>, n: nat): (m: seq<nat>)
    requires n <= |os|
    ensures forall k :: 0 <= k < |m| ==> m[k] < n
  {
    if n == 0 then [] else Moving(os, n - 1) + (if os[n - 1].moved then [n - 1] else [])
  }

  lemma MovingStep(os: seq<Outcome>, n: nat)
    requires n < |os|
    ensures Moving(os, n + 1) == Moving(os, n) + (if os[n].moved then [n] else [])
  {
  }

  lemma {:induction false} MovingHas(os: seq<Outcome>, n: nat, i: nat)
    requires i < n <= |os| && os[i].moved
    ensures Moving(os, n) != []
  {
    if i < n - 1 {
      MovingHas(os, n - 1, i);
    }
  }

  /** A board with a tile that `can_move` accepts has a direction of `DIRECTIONS` that moves it. */
  lemma MovingNonEmpty(b: bv64, os: seq<Outcome>)
    requires IsOutcomes(b, os) && b != 0 && Movable(b)
    ensures Moving(os, 4) != []
  {
    var i := SomeMove(b, os);
    MovingHas(os, 4, i);
  }

  lemma SomeMove(b: bv64, os: seq<Outcome>) returns (i: nat)
    requires IsOutcomes(b, os) && b != 0 && Movable(b)
    ensures i < 4 && os[i].moved
  {
    var d := SomeCode(b);
    DirCodeOnto(d);
    i :| 0 <= i < 4 && DirCode(i) == d;
    StepIs(b, i, os);
  }

  lemma SomeCode(b: bv64) returns (d: int)
    requires b != 0 && Movable(b)
    ensures 0 <= d < 4 && Moved(b, d, EntrySpec)
  {
    EntrySpecSound();
    CanMoveIffMoves(b, EntrySpec);
    if Moved(b, 0, EntrySpec) {
      d := 0;
    } else if Moved(b, 1, EntrySpec) {
      d := 1;
    } else if Moved(b, 2, EntrySpec) {
      d := 2;
    } else {
      d := 3;
    }
  }

  /** A board `can_move` accepts but no direction moves is the empty board. */
  lemma NoMoveEmpty(b: bv64, os: seq<Outcome>)
    requires IsOutcomes(b, os) && Movable(b) && Moving(os, 4) == []
    ensures b == 0
  {
    if b != 0 {
      MovingNonEmpty(b, os);
    }
  }

  /** Placing a tile leaves a tile on the board. */
  lemma PlacedHasTile(b: bv64, r: bv8, c: bv8, e: bv8)
    requires r < 4 && c < 4 && 0 < e < 16
    ensures Set(b, r, c, e) != 0
  {
    SetSame(b, r, c, e);
    assert Get(0, r, c) == 0;
  }

  /*
   * The beam
   */

  /** The beam list before sorting: `(eval(child), i, child)` for each moving direction i among the first n. */
  function Candidates(os: seq<Outcome>, eval: bv64 -> real, n: nat): seq<Cand>
    requires n <= |os|
  {
    if n == 0 then []
    else
      var o := os[n - 1];
      Candidates(os, eval, n - 1) + (if o.moved then [Cand(eval(o.child), n - 1, o.child)] else [])
  }

  /** A candidate of direction i: i moves the board, the child is the moved board, the score is its evaluation. */
  predicate Candidate(os: seq<Outcome>, eval: bv64 -> real, c: Cand)
  {
    c.dir < |os| && os[c.dir].moved && c.child == os[c.dir].child && c.score == eval(c.child)
  }

  /** The candidates are the moving directions, in direction order, each with its moved board and its evaluation. */
  lemma {:induction false} CandidatesMoving(os: seq<Outcome>, eval: bv64 -> real, n: nat)
    requires n <= |os|
    ensures |Candidates(os, eval, n)| == |Moving(os, n)|
    ensures Increasing(Candidates(os, eval, n))
    ensures forall j :: 0 <= j < |Candidates(os, eval, n)| ==>
      Candidate(os, eval, Candidates(os, eval, n)[j]) && Candidates(os, eval, n)[j].dir < n
  {
    if n > 0 {
      CandidatesMoving(os, eval, n - 1);
    }
  }

  /** `moves[:BEAM_K]` after the sort. */
  function BeamOf(os: seq<Outcome>, eval: bv64 -> real, k: int): seq<Cand>
    requires |os| == 4 && k >= 1
  {
    Take(SortDesc(Candidates(os, eval, 4)), k)
  }

  /** The beam holds `min(BEAM_K, number of moving directions)` candidates, ranked by descending evaluation with ties in `DIRECTIONS` order. */
  lemma BeamRanked(os: seq<Outcome>, eval: bv64 -> real, k: int)
    requires |os| == 4 && k >= 1
    ensures Ranked(BeamOf(os, eval, k))
    ensures |BeamOf(os, eval, k)| == if |Moving(os, 4)| < k then |Moving(os, 4)| else k
  {
    CandidatesMoving(os, eval, 4);
    SortRanked(Candidates(os, eval, 4));
    RankedPrefix(SortDesc(Candidates(os, eval, 4)), k);
  }

  lemma RankedPrefix(s: seq<Cand>, k: int)
    requires Ranked(s) && k >= 1
    ensures Ranked(Take(s, k))
  {
    var t := Take(s, k);
    assert t == s[..|t|];
    forall i, j | 0 <= i < j < |t| ensures Before(t[i], t[j]) {
      assert t[i] == s[i] && t[j] == s[j];
    }
  }

  /** Every beam entry is a candidate: a moving direction with its moved board and that board's evaluation. */
  lemma BeamCandidates(os: seq<Outcome>, eval: bv64 -> real, k: int)
    requires |os| == 4 && k >= 1
    ensures forall c :: c in BeamOf(os, eval, k) ==> Candidate(os, eval, c)
  {
    var all := Candidates(os, eval, 4);
    CandidatesMoving(os, eval, 4);
    SortRanked(all);
    var s := SortDesc(all);
    var beam := BeamOf(os, eval, k);
    assert beam == s[..|beam|];
    forall c | c in beam ensures Candidate(os, eval, c) {
      assert c in multiset(s);
      assert c in multiset(all);
    }
  }

  /** Every moving direction left out of the beam ranks after all of those kept. */
  lemma BeamKeepsBest(os: seq<Outcome>, eval: bv64 -> real, k: int)
    requires |os| == 4 && k >= 1
    ensures forall c, e :: c in Candidates(os, eval, 4) && c !in BeamOf(os, eval, k) && e in BeamOf(os, eval, k) ==> Before(e, c)
  {
    var all := Candidates(os, eval, 4);
    CandidatesMoving(os, eval, 4);
    SortRanked(all);
    var s := SortDesc(all);
    var beam := BeamOf(os, eval, k);
    assert beam == s[..|beam|];
    PrefixFirst(s, |beam|);
    forall c | c in all ensures c in s {
      assert c in multiset(all);
    }
  }

  /** In a ranked list every entry of a prefix comes before every entry left out of it. */
  lemma PrefixFirst(s: seq<Cand>, n: int)
    requires Ranked(s) && 0 <= n <= |s|
    ensures forall c, e :: c in s && c !in s[..n] && e in s[..n] ==> Before(e, c)
  {
    forall c, e | c in s && c !in s[..n] && e in s[..n] ensures Before(e, c) {
      var j :| 0 <= j < |s| && s[j] == c;
      var i :| 0 <= i < n && s[..n][i] == e;
      if j < n {
        InPrefix(s, n, j);
        assert false;
      }
      RankedAt(s, i, j);
    }
  }

  lemma InPrefix(s: seq<Cand>, n: int, j: int)
    requires 0 <= j < n <= |s|
    ensures s[j] in s[..n]
  {
    assert s[..n][j] == s[j];
  }

  lemma RankedAt(s: seq<Cand>, i: int, j: int)
    requires Ranked(s) && 0 <= i < j < |s|
    ensures Before(s[i], s[j])
  {
  }

  /*
   * The parameters
   */

  /** The module globals `PROB_CUTOFF` and `BEAM_K`. */
  class Params {
    var probCutoff: real
    var beamK: int

    /** The cutoff is a probability and the beam keeps at least one move. */
    ghost predicate Valid()
      reads this
    {
      0.0 <= probCutoff <= 1.0 && beamK >= 1
    }

    /** The module's initial values 0.02 and 4. */
    constructor ()
      ensures Valid() && probCutoff == 0.02 && beamK == 4
    {
      probCutoff := 0.02;
      beamK := 4;
    }

    /** `set_bepp_params`: a given cutoff is clamped into [0, 1]; a given beam width counts only from 1. */
    method SetBeppParams(cutoff: Option<real>, k: Option<int>)
      requires Valid()
      modifies this
      ensures Valid()
      ensures probCutoff == if cutoff.Some? then Clamp(cutoff.value) else old(probCutoff)
      ensures beamK == if k.Some? && k.value >= 1 then k.value else old(beamK)
    {
      if cutoff.Some? {
        probCutoff := Clamp(cutoff.value);
      }
      if k.Some? && k.value >= 1 {
        beamK := k.value;
      }
    }
  }

  /*
   * The search
   */

  /**
   * A key of the transposition dict: the board word itself, so that distinct
   * boards never share an entry.
   */
  datatype Key = Key(raw: bv64)

  /** A transposition entry for b of at least the requested depth: the search reuses it. */
  predicate Hit(tt: map<Key, (nat, Ext)>, b: bv64, depth: nat)
  {
    Key(b) in tt && tt[Key(b)].0 >= depth
  }

  /** The probability of the j-th outcome of a chance node: exponent 1 (0.9), then exponent 2 (0.1), cell by cell. */
  function OutcomeProb(j: nat): real
  {
    if j % 2 == 0 then 0.9 else 0.1
  }

  lemma DrawAppend(s: seq<Draw>, d: Draw)
    ensures Weighted(s + [d]) == Weighted(s) + d.prob * d.val
    ensures ProbSum(s + [d]) == ProbSum(s) + d.prob
  {
    assert (s + [d])[..|s|] == s;
  }



  /**
   * The outcomes a chance node has accounted for: the j-th has probability
   * `OutcomeProb(j)`, one below the cutoff carries the value `pruned`, and
   * every value lies in [lo, hi].
   */
  ghost predicate Accounted(ds: seq<Draw>, cutoff: real, pruned: real, lo: real, hi: real)
  {
    forall j :: 0 <= j < |ds| ==>
      ds[j].prob == OutcomeProb(j) && (ds[j].prob < cutoff ==> ds[j].val == pruned) && lo <= ds[j].val <= hi
  }

  lemma AccountedAppend(ds: seq<Draw>, d: Draw, cutoff: real, pruned: real, lo: real, hi: real)
    requires Accounted(ds, cutoff, pruned, lo, hi)
    requires d.prob == OutcomeProb(|ds|) && (d.prob < cutoff ==> d.val == pruned) && lo <= d.val <= hi
    ensures Accounted(ds + [d], cutoff, pruned, lo, hi)
  {
  }

  /** The expectation over accounted outcomes stays within the bounds of their values. */
  lemma AccountedMean(ds: seq<Draw>, cutoff: real, pruned: real, lo: real, hi: real)
    requires Accounted(ds, cutoff, pruned, lo, hi) && ProbSum(ds) != 0.0
    ensures lo <= Weighted(ds) / ProbSum(ds) <= hi
  {
    WeightedWithin(ds, lo, hi);
    MeanWithin(ds, lo, hi);
  }

  /*
   * Search trees: what each call of `_expectimax` did to find its value
   */

  /** One child of a max node: the direction moved, and the search of the moved board. */
  datatype Branch = Branch(dir: nat, sub: Tree)

  /**
   * One outcome of a chance node: the empty cell, the exponent placed and its
   * probability, with the search of the board with the tile placed, or none
   * when the probability fell below the cutoff.
   */
  datatype Chance = Chance(cell: Pos, exp: bv8, prob: real, sub: Option<Tree>)

  /** How a call came by its value. */
  datatype How =
    | Timeout
    | Reuse(stored: Tree)
    | Leaf
    | MaxOver(os: seq<Outcome>, kids: seq<Branch>)
    | ChanceOver(draws: seq<Chance>)

  /** A call `_expectimax(b, depth, max, alpha, beta)`, the value it returned, and how. */
  datatype Tree = Tree(b: bv64, depth: nat, max: bool, alpha: Ext, beta: Ext, val: Ext, how: How)

  /** The values and directions of the children of a max node, in order. */
  function Scores(ks: seq<Branch>): (s: seq<Scored>)
    ensures |s| == |ks|
  {
    seq(|ks|, j requires 0 <= j < |ks| => Scored(ks[j].sub.val, ks[j].dir))
  }

  /** One more child raises the best value to its own when larger, and lists its direction last. */
  lemma ScoresStep(ks: seq<Branch>, k: Branch)
    ensures Best(Scores(ks + [k])).0 == Max(Best(Scores(ks)).0, k.sub.val)
    ensures Dirs(Scores(ks + [k])) == Dirs(Scores(ks)) + [k.dir]
  {
    var s := Scores(ks);
    assert Scores(ks + [k]) == s + [Scored(k.sub.val, k.dir)];
    assert (s + [Scored(k.sub.val, k.dir)])[..|s|] == s;
    DirsAppend(s, Scored(k.sub.val, k.dir));
  }

  /** Alpha once the children `ks` are searched: raised to the last child's value. */
  function AlphaAfter(alpha: Ext, ks: seq<Branch>): Ext
  {
    if ks == [] then alpha else Max(ks[|ks| - 1].sub.alpha, ks[|ks| - 1].sub.val)
  }

  /**
   * Each child of a max node is searched with the alpha its predecessors
   * raised, and a child after the first is searched only while that alpha
   * is still below beta.
   */
  ghost predicate Chained(alpha: Ext, beta: Ext, ks: seq<Branch>)
    decreases |ks|
  {
    ks == [] ||
      var init := ks[..|ks| - 1];
      && Chained(alpha, beta, init)
      && ks[|ks| - 1].sub.alpha == AlphaAfter(alpha, init)
      && (init != [] ==> Below(AlphaAfter(alpha, init), beta))
  }

  lemma ChainedAppend(alpha: Ext, beta: Ext, ks: seq<Branch>, k: Branch)
    requires Chained(alpha, beta, ks) && k.sub.alpha == AlphaAfter(alpha, ks)
    requires ks != [] ==> Below(AlphaAfter(alpha, ks), beta)
    ensures Chained(alpha, beta, ks + [k])
  {
    assert (ks + [k])[..|ks|] == ks;
  }

  /** k is a child of a max node: a direction that moves, its board searched as a chance node one level down. */
  ghost predicate MaxChildOf(os: seq<Outcome>, depth: nat, beta: Ext, k: Branch)
  {
    && k.dir < |os| && os[k.dir].moved && k.sub.b == os[k.dir].child
    && k.sub.depth + 1 == depth && !k.sub.max && k.sub.beta == beta
  }

  /**
   * The children of a max node with outcomes `os`: the moving directions in
   * `DIRECTIONS` order, all of them, or up to the first child that raises
   * alpha to beta.
   */
  ghost predicate MaxKids(depth: nat, alpha: Ext, beta: Ext, os: seq<Outcome>, ks: seq<Branch>)
  {
    && |os| == 4
    && (forall j :: 0 <= j < |ks| ==> MaxChildOf(os, depth, beta, ks[j]))
    && Chained(alpha, beta, ks)
    && (|| Dirs(Scores(ks)) == Moving(os, 4)
        || (&& ks != [] && ks[|ks| - 1].dir < 4 && !Below(AlphaAfter(alpha, ks), beta)
            && Dirs(Scores(ks)) == Moving(os, ks[|ks| - 1].dir + 1)))
  }

  /** The loop of a max node stops after the last direction, or after a child that raised alpha to beta. */
  lemma MaxKidsOf(depth: nat, alpha: Ext, beta: Ext, os: seq<Outcome>, ks: seq<Branch>, n: nat)
    requires |os| == 4 && n <= 4 && Chained(alpha, beta, ks) && Dirs(Scores(ks)) == Moving(os, n)
    requires forall j :: 0 <= j < |ks| ==> MaxChildOf(os, depth, beta, ks[j])
    requires n == 4 || (ks != [] && ks[|ks| - 1].dir + 1 == n && !Below(AlphaAfter(alpha, ks), beta))
    ensures MaxKids(depth, alpha, beta, os, ks)
  {
  }

  /** The exponent of the j-th outcome of a chance node: 1, then 2, cell by cell. */
  function ExpOf(j: nat): (e: bv8)
    ensures 0 < e < 16
  {
    if j % 2 == 0 then 1 else 2
  }

  /**
   * d is the j-th outcome of a chance node at b with empty cells `empties`:
   * cell `empties[j / 2]`, exponent and probability by parity, searched as a
   * max node one level down with the node's window exactly when the
   * probability reaches the cutoff.
   */
  ghost predicate PlacedAt(cutoff: real, b: bv64, empties: seq<Pos>, depth: nat, alpha: Ext, beta: Ext, j: nat, d: Chance)
  {
    && j / 2 < |empties| && d.cell == empties[j / 2] && d.exp == ExpOf(j) && d.prob == OutcomeProb(j)
    && (d.sub.Some? <==> cutoff <= d.prob)
    && (d.sub.Some? ==>
      && d.cell.r < 4 && d.cell.c < 4 && d.sub.value.b == Set(b, d.cell.r, d.cell.c, d.exp)
      && d.sub.value.depth + 1 == depth && d.sub.value.max
      && d.sub.value.alpha == alpha && d.sub.value.beta == beta && d.sub.value.val.Fin?)
  }

  /** The real value of a finite value. */
  function Real(v: Ext): real
  {
    if v.Fin? then v.x else 0.0
  }

  /** The draw of one outcome: its probability with its search's value, or `pruned` when it was not searched. */
  function DrawOf(d: Chance, pruned: real): Draw
  {
    Draw(d.prob, if d.sub.Some? then Real(d.sub.value.val) else pruned)
  }

  /** The draws a chance node accounts for, one per outcome. */
  function Drawn(ds: seq<Chance>, pruned: real): (s: seq<Draw>)
    ensures |s| == |ds|
  {
    seq(|ds|, j requires 0 <= j < |ds| => DrawOf(ds[j], pruned))
  }

  lemma DrawnAppend(ds: seq<Chance>, d: Chance, pruned: real)
    ensures Drawn(ds + [d], pruned) == Drawn(ds, pruned) + [DrawOf(d, pruned)]
  {
  }

  /**
   * One more outcome, valued v, adds its weighted value and its probability
   * to the sums over the draws and keeps them accounted for.
   */
  lemma DrawnStep(ds: seq<Chance>, d: Chance, v: real, cutoff: real, pruned: real, lo: real, hi: real)
    requires DrawOf(d, pruned) == Draw(d.prob, v)
    requires Accounted(Drawn(ds, pruned), cutoff, pruned, lo, hi)
    requires d.prob == OutcomeProb(|ds|) && (d.prob < cutoff ==> v == pruned) && lo <= v <= hi
    ensures Weighted(Drawn(ds + [d], pruned)) == Weighted(Drawn(ds, pruned)) + d.prob * v
    ensures ProbSum(Drawn(ds + [d], pruned)) == ProbSum(Drawn(ds, pruned)) + d.prob
    ensures Accounted(Drawn(ds + [d], pruned), cutoff, pruned, lo, hi)
  {
    DrawnAppend(ds, d, pruned);
    DrawAppend(Drawn(ds, pruned), Draw(d.prob, v));
    AccountedAppend(Drawn(ds, pruned), Draw(d.prob, v), cutoff, pruned, lo, hi);
  }

  /**
   * `expected += prob * value; total_p += prob`: the running sums over the
   * draws of the outcomes ds, extended by the draw d of outcome c.
   */
  method AddDraw(ghost ds: seq<Chance>, ghost c: Chance, ghost pruned: real, running: real, pSeen: real, d: Draw)
    returns (running': real, pSeen': real)
    requires running == Weighted(Drawn(ds, pruned)) && pSeen == ProbSum(Drawn(ds, pruned)) && d == DrawOf(c, pruned)
    ensures running' == Weighted(Drawn(ds + [c], pruned)) && pSeen' == ProbSum(Drawn(ds + [c], pruned))
  {
    DrawnAppend(ds, c, pruned);
    DrawAppend(Drawn(ds, pruned), d);
    running' := running + d.prob * d.val;
    pSeen' := pSeen + d.prob;
  }

  /** `expected / total_p`, or the evaluation `fallback` when nothing was accounted. */
  function Mean(seen: seq<Draw>, fallback: real): real
  {
    if ProbSum(seen) == 0.0 then fallback else Weighted(seen) / ProbSum(seen)
  }

  /**
   * No searched outcome among `ds` left the bound over the outcomes up to
   * it, taken over `mass`, below alpha: the loop did not break inside `ds`.
   */
  ghost predicate Unbroken(mass: real, pruned: real, alpha: Ext, ds: seq<Chance>)
    decreases |ds|
  {
    ds != [] ==>
      && Unbroken(mass, pruned, alpha, ds[..|ds| - 1])
      && (ds[|ds| - 1].sub.Some? ==>
        mass > 0.0 && !Below(Fin(Upper(Weighted(Drawn(ds, pruned)), ProbSum(Drawn(ds, pruned)), mass)), alpha))
  }

  /**
   * The outcomes of a chance node at b: the first ones in order, all of
   * them, or up to the first searched one after which the bound, over the
   * mass `written` selects, fell below alpha.
   */
  ghost predicate ChanceKids(cutoff: real, written: bool, pruned: real, b: bv64, depth: nat, alpha: Ext, beta: Ext, ds: seq<Chance>)
  {
    var empties := EmptyList(b);
    var mass := BreakMass(written, |empties|);
    && |ds| <= 2 * |empties|
    && (forall j :: 0 <= j < |ds| ==> PlacedAt(cutoff, b, empties, depth, alpha, beta, j, ds[j]))
    && (ds != [] ==> Unbroken(mass, pruned, alpha, ds[..|ds| - 1]))
    && (|ds| < 2 * |empties| ==>
      && ds != [] && ds[|ds| - 1].sub.Some?
      && Below(Fin(Upper(Weighted(Drawn(ds, pruned)), ProbSum(Drawn(ds, pruned)), mass)), alpha))
  }

  /** Unbroken, read outcome by outcome: no searched outcome of ds put the bound over the outcomes up to it below alpha. */
  lemma {:induction false} UnbrokenAt(mass: real, pruned: real, alpha: Ext, ds: seq<Chance>, j: nat)
    requires Unbroken(mass, pruned, alpha, ds) && j < |ds| && ds[j].sub.Some?
    ensures mass > 0.0 && !Below(Fin(Upper(Weighted(Drawn(ds[..j + 1], pruned)), ProbSum(Drawn(ds[..j + 1], pruned)), mass)), alpha)
    decreases |ds|
  {
    if j == |ds| - 1 {
      assert ds[..j + 1] == ds;
    } else {
      UnbrokenAt(mass, pruned, alpha, ds[..|ds| - 1], j);
      assert ds[..|ds| - 1][..j + 1] == ds[..j + 1];
    }
  }

  /**
   * A chance node stops at the first break (search/expectimax.py:131-135):
   * the only searched outcome whose bound can fall below alpha is the last
   * one visited, and a node that visited fewer than all its outcomes
   * ended on such an outcome.
   */
  lemma ChanceStopsFirst(cutoff: real, written: bool, pruned: real, b: bv64, depth: nat, alpha: Ext, beta: Ext, ds: seq<Chance>, j: nat)
    requires ChanceKids(cutoff, written, pruned, b, depth, alpha, beta, ds)
    requires j < |ds| && ds[j].sub.Some?
    requires Below(Fin(Upper(Weighted(Drawn(ds[..j + 1], pruned)), ProbSum(Drawn(ds[..j + 1], pruned)), BreakMass(written, |EmptyList(b)|))), alpha)
    ensures j == |ds| - 1
  {
    if j < |ds| - 1 {
      assert ds[..|ds| - 1][..j + 1] == ds[..j + 1];
      UnbrokenAt(BreakMass(written, |EmptyList(b)|), pruned, alpha, ds[..|ds| - 1], j);
      assert false;
    }
  }

  /**
   * t is what `_expectimax` returns, evaluating with `ev` under the cutoff:
   * the evaluation at the deadline; a stored search of the same board at
   * least as deep; the evaluation at a leaf; at a max node the first largest
   * value of its children; at a chance node the expectation over its
   * outcomes.
   */
  ghost predicate SoundTree(ev: bv64 -> real, cutoff: real, written: bool, t: Tree)
    decreases t, 2
  {
    SoundNode(ev, cutoff, written, t)
  }

  /** The call at the root of t explains its value by its kind; the calls below it are sound in turn. */
  ghost predicate SoundNode(ev: bv64 -> real, cutoff: real, written: bool, t: Tree)
    decreases t, 1
  {
    match t.how
    case Timeout => t.val == Fin(ev(t.b))
    case Leaf => t.val == Fin(ev(t.b)) && (t.depth == 0 || !Movable(t.b))
    case Reuse(s) => s.b == t.b && s.depth >= t.depth && s.val == t.val && SoundTree(ev, cutoff, written, s)
    case MaxOver(os, ks) => SoundMax(ev, cutoff, written, t, os, ks)
    case ChanceOver(ds) => SoundChance(ev, cutoff, written, t, ds)
  }

  /** A max node: its children as `MaxKids` says, its value the first largest of theirs, each child sound. */
  ghost predicate SoundMax(ev: bv64 -> real, cutoff: real, written: bool, t: Tree, os: seq<Outcome>, ks: seq<Branch>)
    requires t.how == MaxOver(os, ks)
    decreases t, 0
  {
    && t.max && t.depth > 0 && Movable(t.b) && IsOutcomes(t.b, os)
    && MaxKids(t.depth, t.alpha, t.beta, os, ks) && t.val == Best(Scores(ks)).0
    && forall j :: 0 <= j < |ks| ==> SoundTree(ev, cutoff, written, ks[j].sub)
  }

  /** A chance node: its outcomes as `ChanceKids` says, its value their expectation, each search sound. */
  ghost predicate SoundChance(ev: bv64 -> real, cutoff: real, written: bool, t: Tree, ds: seq<Chance>)
    requires t.how == ChanceOver(ds)
    decreases t, 0
  {
    && !t.max && t.depth > 0 && Movable(t.b)
    && ChanceKids(cutoff, written, ev(t.b), t.b, t.depth, t.alpha, t.beta, ds)
    && t.val == Fin(Mean(Drawn(ds, ev(t.b)), ev(t.b)))
    && forall j :: 0 <= j < |ds| && ds[j].sub.Some? ==> SoundTree(ev, cutoff, written, ds[j].sub.value)
  }

  /** A value from the deadline's check, or a leaf's evaluation, is sound. */
  lemma SoundLeaf(ev: bv64 -> real, cutoff: real, written: bool, t: Tree)
    requires t.how.Timeout? || t.how.Leaf?
    requires t.val == Fin(ev(t.b)) && (t.how.Leaf? ==> t.depth == 0 || !Movable(t.b))
    ensures SoundTree(ev, cutoff, written, t)
  {
    assert SoundNode(ev, cutoff, written, t);
  }

  lemma MaxSound(ev: bv64 -> real, cutoff: real, written: bool, t: Tree)
    requires t.how.MaxOver? && SoundMax(ev, cutoff, written, t, t.how.os, t.how.kids)
    ensures SoundTree(ev, cutoff, written, t)
  {
    assert SoundNode(ev, cutoff, written, t);
  }

  lemma ChanceSound(ev: bv64 -> real, cutoff: real, written: bool, t: Tree)
    requires t.how.ChanceOver? && SoundChance(ev, cutoff, written, t, t.how.draws)
    ensures SoundTree(ev, cutoff, written, t)
  {
    assert SoundNode(ev, cutoff, written, t);
  }

  /*
   * Plain expectimax, and when the search computes it
   */

  /** The outcomes of the four directions on b. */
  ghost function Outs(b: bv64): (os: seq<Outcome>)
    ensures IsOutcomes(b, os)
  {
    seq(4, i requires 0 <= i < 4 => Step(b, i))
  }

  /**
   * Expectimax without deadline, table, window or cutoff: a leaf is
   * evaluated, a max node takes the first largest value over the moving
   * directions, a chance node the expectation over every empty cell and
   * both exponents.
   */
  ghost function RefValue(ev: bv64 -> real, b: bv64, depth: nat, max: bool): Ext
    decreases depth, 1
  {
    if depth == 0 || !Movable(b) then Fin(ev(b))
    else if max then RefMax(ev, b, depth)
    else RefChance(ev, b, depth)
  }

  ghost function RefMax(ev: bv64 -> real, b: bv64, depth: nat): Ext
    requires depth > 0
    decreases depth, 0, 1
  {
    Best(RefKids(ev, Outs(b), depth)).0
  }

  /** The moving directions of `os` in order, each with the plain value of its board as a chance node. */
  ghost function RefKids(ev: bv64 -> real, os: seq<Outcome>, depth: nat): seq<Scored>
    requires |os| == 4 && depth > 0
    decreases depth, 0, 0
  {
    var m := Moving(os, 4);
    seq(|m|, j requires 0 <= j < |m| => Scored(RefValue(ev, os[m[j]].child, depth - 1, false), m[j]))
  }

  ghost function RefChance(ev: bv64 -> real, b: bv64, depth: nat): Ext
    requires depth > 0
    decreases depth, 0
  {
    var empties := EmptyList(b);
    EmptyListOnBoard(b);
    var ds := seq(2 * |empties|, j requires 0 <= j < 2 * |empties| =>
      Draw(OutcomeProb(j), Real(RefValue(ev, Set(b, empties[j / 2].r, empties[j / 2].c, ExpOf(j)), depth - 1, true))));
    Fin(Mean(ds, ev(b)))
  }

  /** No deadline, no reuse, no max node cut short, no chance node broken off and no outcome pruned. */
  ghost predicate Plain(t: Tree)
    decreases t
  {
    match t.how
    case Timeout => false
    case Reuse(_) => false
    case Leaf => true
    case MaxOver(os, ks) =>
      |os| == 4 && Dirs(Scores(ks)) == Moving(os, 4) && forall j :: 0 <= j < |ks| ==> Plain(ks[j].sub)
    case ChanceOver(ds) =>
      |ds| == 2 * |EmptyList(t.b)| && forall j :: 0 <= j < |ds| ==> ds[j].sub.Some? && Plain(ds[j].sub.value)
  }

  /** A search that cuts nothing off returns the plain expectimax value. */
  lemma {:induction false} PlainIsExpectimax(ev: bv64 -> real, cutoff: real, written: bool, t: Tree)
    requires SoundTree(ev, cutoff, written, t) && Plain(t)
    ensures t.val == RefValue(ev, t.b, t.depth, t.max)
    decreases t, 1
  {
    assert SoundNode(ev, cutoff, written, t);
    match t.how
    case Leaf =>
    case MaxOver(_, _) => PlainMax(ev, cutoff, written, t);
    case ChanceOver(_) => PlainChance(ev, cutoff, written, t);
  }

  lemma {:induction false} PlainMax(ev: bv64 -> real, cutoff: real, written: bool, t: Tree)
    requires t.how.MaxOver? && SoundTree(ev, cutoff, written, t) && Plain(t)
    ensures t.val == RefValue(ev, t.b, t.depth, t.max)
    decreases t, 0
  {
    PlainMaxShape(ev, cutoff, written, t);
    PlainMaxKids(ev, cutoff, written, t);
    MaxIsExpectimax(ev, t.b, t.depth, t.how.os, t.how.kids);
  }

  /** A max node that cuts nothing off is over every moving direction, with the first largest child value. */
  lemma PlainMaxShape(ev: bv64 -> real, cutoff: real, written: bool, t: Tree)
    requires t.how.MaxOver? && SoundTree(ev, cutoff, written, t) && Plain(t)
    ensures t.max && t.depth > 0 && Movable(t.b) && IsOutcomes(t.b, t.how.os)
    ensures Dirs(Scores(t.how.kids)) == Moving(t.how.os, 4) && t.val == Best(Scores(t.how.kids)).0
  {
    assert SoundNode(ev, cutoff, written, t) && SoundMax(ev, cutoff, written, t, t.how.os, t.how.kids);
  }

  /** Each child of a max node that cuts nothing off has its board's plain value as a chance node. */
  lemma {:induction false} PlainMaxKids(ev: bv64 -> real, cutoff: real, written: bool, t: Tree)
    requires t.how.MaxOver? && SoundTree(ev, cutoff, written, t) && Plain(t)
    ensures |t.how.os| == 4 && t.depth > 0
    ensures forall j :: 0 <= j < |t.how.kids| ==>
      && t.how.kids[j].dir < 4 && t.how.kids[j].sub.b == t.how.os[t.how.kids[j].dir].child
      && t.how.kids[j].sub.val == RefValue(ev, t.how.kids[j].sub.b, t.depth - 1, false)
    decreases t, 0, 0
  {
    var os, ks := t.how.os, t.how.kids;
    assert SoundNode(ev, cutoff, written, t) && SoundMax(ev, cutoff, written, t, os, ks);
    forall j | 0 <= j < |ks|
      ensures ks[j].dir < 4 && ks[j].sub.b == os[ks[j].dir].child
      ensures ks[j].sub.val == RefValue(ev, ks[j].sub.b, t.depth - 1, false)
    {
      assert MaxChildOf(os, t.depth, t.beta, ks[j]);
      assert ks[j].sub < t.how;
      PlainIsExpectimax(ev, cutoff, written, ks[j].sub);
    }
  }

  /** A max node over every moving direction, each child valued by plain expectimax, has the plain value. */
  lemma MaxIsExpectimax(ev: bv64 -> real, b: bv64, depth: nat, os: seq<Outcome>, ks: seq<Branch>)
    requires depth > 0 && IsOutcomes(b, os) && Dirs(Scores(ks)) == Moving(os, 4)
    requires forall j :: 0 <= j < |ks| ==>
      ks[j].dir < 4 && ks[j].sub.b == os[ks[j].dir].child && ks[j].sub.val == RefValue(ev, ks[j].sub.b, depth - 1, false)
    ensures Best(Scores(ks)).0 == RefMax(ev, b, depth)
  {
    OutcomesUnique(b, os, Outs(b));
    KidsAreRef(ev, os, depth, ks);
  }

  lemma {:induction false} KidsAreRef(ev: bv64 -> real, os: seq<Outcome>, depth: nat, ks: seq<Branch>)
    requires depth > 0 && |os| == 4 && Dirs(Scores(ks)) == Moving(os, 4)
    requires forall j :: 0 <= j < |ks| ==>
      ks[j].dir < 4 && ks[j].sub.b == os[ks[j].dir].child && ks[j].sub.val == RefValue(ev, ks[j].sub.b, depth - 1, false)
    ensures Scores(ks) == RefKids(ev, os, depth)
  {
    var sc, ref := Scores(ks), RefKids(ev, os, depth);
    DirsAt(sc);
    assert |sc| == |Dirs(sc)| == |ref|;
    forall j | 0 <= j < |sc| ensures sc[j] == ref[j] {
      assert ks[j].dir == Dirs(sc)[j];
    }
  }

  lemma {:induction false} PlainChance(ev: bv64 -> real, cutoff: real, written: bool, t: Tree)
    requires t.how.ChanceOver? && SoundTree(ev, cutoff, written, t) && Plain(t)
    ensures t.val == RefValue(ev, t.b, t.depth, t.max)
    decreases t, 0
  {
    var ds := t.how.draws;
    assert SoundNode(ev, cutoff, written, t) && SoundChance(ev, cutoff, written, t, ds);
    forall j | 0 <= j < |ds|
      ensures ds[j].sub.Some? && ds[j].sub.value.val == RefValue(ev, ds[j].sub.value.b, ds[j].sub.value.depth, ds[j].sub.value.max)
    {
      assert ds[j].sub.value < t.how;
      PlainIsExpectimax(ev, cutoff, written, ds[j].sub.value);
    }
    ChanceIsExpectimax(ev, cutoff, written, t.b, t.depth, t.alpha, t.beta, ds);
  }

  /** A chance node over every outcome, each valued by plain expectimax, has the plain value. */
  lemma ChanceIsExpectimax(ev: bv64 -> real, cutoff: real, written: bool, b: bv64, depth: nat, alpha: Ext, beta: Ext, ds: seq<Chance>)
    requires depth > 0 && |ds| == 2 * |EmptyList(b)|
    requires ChanceKids(cutoff, written, ev(b), b, depth, alpha, beta, ds)
    requires forall j :: 0 <= j < |ds| ==>
      ds[j].sub.Some? && ds[j].sub.value.val == RefValue(ev, ds[j].sub.value.b, ds[j].sub.value.depth, ds[j].sub.value.max)
    ensures Fin(Mean(Drawn(ds, ev(b)), ev(b))) == RefChance(ev, b, depth)
  {
    var empties := EmptyList(b);
    EmptyListOnBoard(b);
    var ref := seq(2 * |empties|, j requires 0 <= j < 2 * |empties| =>
      Draw(OutcomeProb(j), Real(RefValue(ev, Set(b, empties[j / 2].r, empties[j / 2].c, ExpOf(j)), depth - 1, true))));
    forall j | 0 <= j < |ds| ensures Drawn(ds, ev(b))[j] == ref[j] {
      assert PlacedAt(cutoff, b, empties, depth, alpha, beta, j, ds[j]);
    }
    assert Drawn(ds, ev(b)) == ref;
  }

  /** A value the search may give board b: finite within [lo, hi], or `-inf` on the empty board. */
  ghost predicate Within(lo: real, hi: real, b: bv64, v: Ext)
  {
    (v.Fin? && lo <= v.x <= hi) || (b == 0 && v == NegInf)
  }

  /**
   * Every entry of the transposition dict records the depth and the value of
   * a sound search of its board, and that value is within [lo, hi].
   */
  ghost predicate TableOk(ev: bv64 -> real, cutoff: real, written: bool, lo: real, hi: real, tt: map<Key, (nat, Ext)>, made: map<Key, Tree>)
  {
    forall k :: k in tt ==>
      && k in made && Within(lo, hi, k.raw, tt[k].1)
      && made[k].b == k.raw && made[k].depth == tt[k].0 && made[k].val == tt[k].1 && SoundTree(ev, cutoff, written, made[k])
  }

  /** Storing a sound search of b keeps the table sound. */
  lemma TableStore(ev: bv64 -> real, cutoff: real, written: bool, lo: real, hi: real, tt: map<Key, (nat, Ext)>, made: map<Key, Tree>, t: Tree)
    requires TableOk(ev, cutoff, written, lo, hi, tt, made)
    requires Within(lo, hi, t.b, t.val) && SoundTree(ev, cutoff, written, t)
    ensures TableOk(ev, cutoff, written, lo, hi, tt[Key(t.b) := (t.depth, t.val)], made[Key(t.b) := t])
  {
  }

  /** An entry of the table of enough depth explains its value by a stored search. */
  lemma TableReuse(ev: bv64 -> real, cutoff: real, written: bool, lo: real, hi: real, tt: map<Key, (nat, Ext)>, made: map<Key, Tree>,
                   b: bv64, depth: nat, max: bool, alpha: Ext, beta: Ext)
    requires TableOk(ev, cutoff, written, lo, hi, tt, made) && Hit(tt, b, depth)
    ensures Key(b) in made && Within(lo, hi, b, tt[Key(b)].1)
    ensures SoundTree(ev, cutoff, written, Tree(b, depth, max, alpha, beta, tt[Key(b)].1, Reuse(made[Key(b)])))
  {
    assert SoundNode(ev, cutoff, written, Tree(b, depth, max, alpha, beta, tt[Key(b)].1, Reuse(made[Key(b)])));
  }

  /** t is the call `_expectimax(b, depth, max, alpha, beta)`. */
  ghost predicate Called(t: Tree, b: bv64, depth: nat, max: bool, alpha: Ext, beta: Ext)
  {
    t.b == b && t.depth == depth && t.max == max && t.alpha == alpha && t.beta == beta
  }

  /** The entries one deepening iteration adds to the trace: each beam entry searched, its direction with its search's value. */
  function Rooted(beam: seq<Cand>, roots: seq<Tree>): seq<Scored>
    requires |roots| <= |beam|
  {
    if roots == [] then []
    else Rooted(beam, roots[..|roots| - 1]) + [Scored(roots[|roots| - 1].val, beam[|roots| - 1].dir)]
  }

  lemma Extend(trace: seq<Scored>, beam: seq<Cand>, roots: seq<Tree>, t: Tree)
    requires |roots| < |beam|
    ensures trace + Rooted(beam, roots + [t]) == (trace + Rooted(beam, roots)) + [Scored(t.val, beam[|roots|].dir)]
  {
    assert (roots + [t])[..|roots|] == roots;
  }

  /** Every entry of the trace is a direction that moves the board. */
  predicate MovingDirs(os: seq<Outcome>, trace: seq<Scored>)
  {
    forall j :: 0 <= j < |trace| ==> trace[j].dir < |os| && os[trace[j].dir].moved
  }

  lemma MovingDirsAppend(os: seq<Outcome>, trace: seq<Scored>, x: Scored)
    requires MovingDirs(os, trace)
    ensures x.dir < |os| && os[x.dir].moved ==> MovingDirs(os, trace + [x])
  {
  }

  lemma {:induction false} MovingDirsRooted(os: seq<Outcome>, trace: seq<Scored>, beam: seq<Cand>, roots: seq<Tree>)
    requires MovingDirs(os, trace) && |roots| <= |beam|
    requires forall c :: c in beam ==> c.dir < |os| && os[c.dir].moved
    ensures MovingDirs(os, trace + Rooted(beam, roots))
  {
    if roots != [] {
      var p := roots[..|roots| - 1];
      var x := Scored(roots[|p|].val, beam[|p|].dir);
      MovingDirsRooted(os, trace, beam, p);
      assert beam[|p|] in beam;
      assert trace + Rooted(beam, roots) == (trace + Rooted(beam, p)) + [x];
      MovingDirsAppend(os, trace + Rooted(beam, p), x);
    }
  }

  /** Each iteration in `its` holds one search per beam entry. */
  predicate Sized(beam: seq<Cand>, its: seq<seq<Tree>>)
    decreases |its|
  {
    its != [] ==> Sized(beam, its[..|its| - 1]) && |its[|its| - 1]| == |beam|
  }

  /** The trace of the iterations whose root searches are `its`, in order. */
  function Deepened(beam: seq<Cand>, its: seq<seq<Tree>>): seq<Scored>
    requires Sized(beam, its)
    decreases |its|
  {
    if its == [] then [] else Deepened(beam, its[..|its| - 1]) + Rooted(beam, its[|its| - 1])
  }

  /**
   * The state of one `best_move` call: the tables, `eval_fn` (whose values
   * lie in [lo, hi]), the parameters read from the globals, the deadline as
   * an oracle on the successive clock readings, and the dict `tt`, keyed by
   * the board word itself.
   */
  class Searcher {
    const tables: Tables
    const eval: bv64 -> real
    ghost const lo: real
    ghost const hi: real
    const cutoff: real
    /** Whether chance nodes break on the bound as written (mass 1) or on the corrected one. */
    const written: bool
    const beamK: int
    /** Whether `time.time() >= deadline` holds at the n-th reading of the clock. */
    const expired: nat -> bool
    var clock: nat
    var tt: map<Key, (nat, Ext)>
    /** The search that produced each entry of `tt`. */
    ghost var made: map<Key, Tree>

    /** A value the search may give board b: finite within the bounds of `eval_fn`, or `-inf` on the empty board. */
    ghost predicate Sane(b: bv64, v: Ext)
    {
      Within(lo, hi, b, v)
    }

    ghost predicate Valid()
      reads this`tt, this`made, tables, tables.rows
    {
      && tables.Valid() && beamK >= 1
      && (forall b :: lo <= eval(b) <= hi)
      && TableOk(eval, cutoff, written, lo, hi, tt, made)
    }

    /** t is the search of beam entry c at depth d, as a chance node with the full window. */
    ghost predicate RootOf(c: Cand, d: nat, t: Tree)
    {
      Called(t, c.child, d, false, NegInf, PosInf) && SoundTree(eval, cutoff, written, t)
    }

    /** `roots` are the searches of the first `|roots|` beam entries, in order, at depth d. */
    ghost predicate Roots(beam: seq<Cand>, d: nat, roots: seq<Tree>)
      decreases |roots|
    {
      && |roots| <= |beam|
      && (roots != [] ==>
        && Roots(beam, d, roots[..|roots| - 1])
        && RootOf(beam[|roots| - 1], d, roots[|roots| - 1]))
    }

    lemma RootsAppend(beam: seq<Cand>, d: nat, roots: seq<Tree>, t: Tree)
      requires Roots(beam, d, roots) && |roots| < |beam| && RootOf(beam[|roots|], d, t)
      ensures Roots(beam, d, roots + [t])
    {
      assert (roots + [t])[..|roots|] == roots;
    }

    /** The m-th root is the search of the m-th beam entry. */
    lemma {:induction false} RootsAt(beam: seq<Cand>, d: nat, roots: seq<Tree>, m: nat)
      requires Roots(beam, d, roots) && m < |roots|
      ensures RootOf(beam[m], d, roots[m])
      decreases |roots|
    {
      if m < |roots| - 1 {
        RootsAt(beam, d, roots[..|roots| - 1], m);
      }
    }

    /** `its[k]` are the searches of every beam entry at depth k, for each k. */
    ghost predicate Iterations(beam: seq<Cand>, its: seq<seq<Tree>>)
      decreases |its|
    {
      its != [] ==>
        && Iterations(beam, its[..|its| - 1])
        && |its[|its| - 1]| == |beam| && Roots(beam, |its| - 1, its[|its| - 1])
    }

    /** One more deepening iteration extends the searches and the trace. */
    lemma IterationsAppend(beam: seq<Cand>, its: seq<seq<Tree>>, roots: seq<Tree>)
      requires Sized(beam, its) && Iterations(beam, its) && |roots| == |beam| && Roots(beam, |its|, roots)
      ensures Sized(beam, its + [roots]) && Iterations(beam, its + [roots])
      ensures Deepened(beam, its + [roots]) == Deepened(beam, its) + Rooted(beam, roots)
    {
      assert (its + [roots])[..|its|] == its;
    }

    /** The iteration at depth k + 1 searched every beam entry at depth k. */
    lemma {:induction false} IterationsAt(beam: seq<Cand>, its: seq<seq<Tree>>, k: nat)
      requires Iterations(beam, its) && k < |its|
      ensures |its[k]| == |beam| && Roots(beam, k, its[k])
      decreases |its|
    {
      if k < |its| - 1 {
        IterationsAt(beam, its[..|its| - 1], k);
      }
    }

    /**
     * `ks` are children of a max node at depth with window top beta, in
     * order: each a moving direction searched as a sound chance node one
     * level down, its value within [lo, hi].
     */
    ghost predicate Kids(os: seq<Outcome>, depth: nat, beta: Ext, ks: seq<Branch>)
      decreases |ks|
    {
      ks != [] ==>
        var k := ks[|ks| - 1];
        && Kids(os, depth, beta, ks[..|ks| - 1])
        && MaxChildOf(os, depth, beta, k) && SoundTree(eval, cutoff, written, k.sub) && k.sub.val.Fin? && lo <= k.sub.val.x <= hi
    }

    lemma KidsAppend(os: seq<Outcome>, depth: nat, beta: Ext, ks: seq<Branch>, k: Branch)
      requires Kids(os, depth, beta, ks)
      requires MaxChildOf(os, depth, beta, k) && SoundTree(eval, cutoff, written, k.sub) && k.sub.val.Fin? && lo <= k.sub.val.x <= hi
      ensures Kids(os, depth, beta, ks + [k])
    {
      assert (ks + [k])[..|ks|] == ks;
    }

    /** Every child of the max node is one. */
    lemma {:induction false} KidsAll(os: seq<Outcome>, depth: nat, beta: Ext, ks: seq<Branch>)
      requires Kids(os, depth, beta, ks)
      ensures forall j :: 0 <= j < |ks| ==> MaxChildOf(os, depth, beta, ks[j])
      ensures forall j :: 0 <= j < |ks| ==>
        SoundTree(eval, cutoff, written, ks[j].sub) && ks[j].sub.val.Fin? && lo <= ks[j].sub.val.x <= hi
      decreases |ks|
    {
      if ks != [] {
        KidsAll(os, depth, beta, ks[..|ks| - 1]);
      }
    }

    /** `best_move`'s set-up: `eval_fn or bounded_eval`, the current parameters and an empty `tt`. */
    constructor (tables: Tables, evalFn: Option<bv64 -> real>, ghost lo: real, ghost hi: real, params: Params, expired: nat -> bool, written: bool)
      requires tables.Valid() && params.Valid()
      requires evalFn.Some? ==> forall b :: lo <= evalFn.value(b) <= hi
      requires evalFn.None? ==> lo == 0.0 && hi == 1.0
      ensures Valid() && tt == map[] && clock == 0
      ensures eval == if evalFn.Some? then evalFn.value else BoundedEval
      ensures cutoff == params.probCutoff && beamK == params.beamK
      ensures this.tables == tables && this.expired == expired && this.written == written
    {
      this.tables := tables;
      var f: bv64 -> real := BoundedEval;
      if evalFn.Some? {
        f := evalFn.value;
      }
      this.eval := f;
      this.lo := lo;
      this.hi := hi;
      cutoff := params.probCutoff;
      beamK := params.beamK;
      this.expired := expired;
      this.written := written;
      clock := 0;
      tt := map[];
      made := map[];
      new;
      if evalFn.None? {
        forall b: bv64 ensures 0.0 <= BoundedEval(b) <= 1.0 {
          BoundedEvalRange(b);
        }
      }
    }

    /** After n readings of the clock, the last one was past the deadline. */
    predicate PastDeadline(n: nat)
    {
      n >= 1 && expired(n - 1)
    }

    /** One reading of `time.time() >= deadline`. */
    method TimeUp() returns (up: bool)
      modifies this
      ensures up == expired(old(clock)) && clock == old(clock) + 1 && tt == old(tt) && made == old(made)
      ensures up == PastDeadline(clock)
    {
      up := expired(clock);
      clock := clock + 1;
    }

    /** `tmp = board.clone(); tmp.move(DIRECTIONS[i], add_random=False)`: whether it moved, and the board it left. */
    method TryMove(b: bv64, i: nat, ghost os: seq<Outcome>) returns (moved: bool, child: bv64)
      requires i < 4 && tables.Valid() && IsOutcomes(b, os)
      ensures moved == os[i].moved && (moved ==> child == os[i].child)
    {
      var tmp := new Board.Of(b);
      var r := tmp.Move(tables, Directions[i], false, 0, 0.0);
      StepIs(b, i, os);
      moved := r.Success? && r.value.0;
      child := tmp.raw;
    }

    /** `tmp = board.clone(); tmp.set_tile(r, c, exp)`. */
    method PlaceTile(b: bv64, q: Pos, exp: bv8) returns (child: bv64)
      requires q.r < 4 && q.c < 4
      ensures child == Set(b, q.r, q.c, exp)
    {
      var tmp := new Board.Of(b);
      tmp.SetTile(q.r, q.c, exp);
      child := tmp.raw;
    }

    /**
     * `_expectimax`: a reading of the clock past the deadline returns the
     * evaluation; a table entry of enough depth is reused; a leaf (depth 0
     * or a board `can_move` rejects) is evaluated; otherwise a max or a
     * chance node.  Every return but the deadline's and the reuse's stores
     * `(depth, value)` for the board.  The ghost t is the search as a tree.
     */
    method Search(b: bv64, depth: nat, maximizing: bool, alpha: Ext, beta: Ext) returns (res: Result<Ext>, ghost t: Tree)
      requires Valid()
      modifies this
      decreases depth, 4
      ensures Valid()
      ensures cutoff <= 0.9 ==> res.Success?
      ensures res.Success? ==>
        Sane(b, res.value) && Called(t, b, depth, maximizing, alpha, beta) && t.val == res.value && SoundTree(eval, cutoff, written, t)
      ensures expired(old(clock)) ==> res == Success(Fin(eval(b))) && t.how == Timeout && tt == old(tt)
      ensures !expired(old(clock)) && Hit(old(tt), b, depth) ==>
        res == Success(old(tt)[Key(b)].1) && t.how == Reuse(old(made)[Key(b)]) && tt == old(tt)
      ensures !expired(old(clock)) && !Hit(old(tt), b, depth) && (depth == 0 || !Movable(b)) ==>
        res == Success(Fin(eval(b))) && t.how == Leaf && tt == old(tt)[Key(b) := (depth, Fin(eval(b)))]
      ensures !expired(old(clock)) && !Hit(old(tt), b, depth) && depth > 0 && Movable(b) && res.Success? ==>
        if maximizing then t.how.MaxOver? else t.how.ChanceOver?
      ensures !expired(old(clock)) && !Hit(old(tt), b, depth) && res.Success? ==>
        Key(b) in tt && tt[Key(b)] == (depth, res.value) && made[Key(b)] == t
    {
      var up := TimeUp();
      if up {
        t := Tree(b, depth, maximizing, alpha, beta, Fin(eval(b)), Timeout);
        SoundLeaf(eval, cutoff, written, t);
        return Success(Fin(eval(b))), t;
      }
      if Key(b) in tt && tt[Key(b)].0 >= depth {
        TableReuse(eval, cutoff, written, lo, hi, tt, made, b, depth, maximizing, alpha, beta);
        t := Tree(b, depth, maximizing, alpha, beta, tt[Key(b)].1, Reuse(made[Key(b)]));
        return Success(tt[Key(b)].1), t;
      }
      res, t := Expand(b, depth, maximizing, alpha, beta);
    }

    /**
     * The part of `_expectimax` after the table lookup missed: a leaf when
     * the depth is spent or no move is left, otherwise a max or chance
     * node; the result is stored in the table either way.
     */
    method Expand(b: bv64, depth: nat, maximizing: bool, alpha: Ext, beta: Ext) returns (res: Result<Ext>, ghost t: Tree)
      requires Valid() && !Hit(tt, b, depth)
      modifies this
      decreases depth, 3
      ensures Valid()
      ensures cutoff <= 0.9 ==> res.Success?
      ensures res.Success? ==>
        Sane(b, res.value) && Called(t, b, depth, maximizing, alpha, beta) && t.val == res.value && SoundTree(eval, cutoff, written, t)
      ensures depth == 0 || !Movable(b) ==>
        res == Success(Fin(eval(b))) && t.how == Leaf && tt == old(tt)[Key(b) := (depth, Fin(eval(b)))]
      ensures depth > 0 && Movable(b) && res.Success? ==>
        if maximizing then t.how.MaxOver? else t.how.ChanceOver?
      ensures res.Success? ==> Key(b) in tt && tt[Key(b)] == (depth, res.value) && made[Key(b)] == t
    {
      var ok := CanMove(b);
      if depth == 0 || !ok {
        var v := Fin(eval(b));
        t := Tree(b, depth, maximizing, alpha, beta, v, Leaf);
        SoundLeaf(eval, cutoff, written, t);
        TableStore(eval, cutoff, written, lo, hi, tt, made, t);
        tt := tt[Key(b) := (depth, v)];
        made := made[Key(b) := t];
        return Success(v), t;
      }
      if maximizing {
        ghost var os := OutcomesOf(b);
        res, t := MaxNode(b, depth, alpha, beta, os);
      } else {
        res, t := ChanceNode(b, depth, alpha, beta);
      }
    }

    /**
     * One direction of a max node: when `DIRECTIONS[i]` moves b, the value
     * of the moved board searched as a chance node, and that search.
     */
    method MaxChild(b: bv64, depth: nat, i: nat, alpha: Ext, beta: Ext, ghost os: seq<Outcome>)
      returns (res: Result<Option<Ext>>, ghost t: Tree)
      requires Valid() && depth > 0 && i < 4 && IsOutcomes(b, os)
      modifies this
      decreases depth, 0
      ensures Valid()
      ensures cutoff <= 0.9 ==> res.Success?
      ensures res.Success? ==> (res.value.Some? <==> os[i].moved)
      ensures res.Success? && res.value.Some? ==>
        && res.value.value.Fin? && lo <= res.value.value.x <= hi
        && MaxChildOf(os, depth, beta, Branch(i, t)) && t.alpha == alpha && t.val == res.value.value
        && SoundTree(eval, cutoff, written, t)
    {
      var moved, child := TryMove(b, i, os);
      if !moved {
        return Success(None), Tree(b, depth, false, alpha, beta, NegInf, Leaf);
      }
      if b == 0 {
        EmptyStays(os);
        assert false;
      }
      ChildrenKeepTile(b, os);
      var r;
      r, t := Search(child, depth - 1, false, alpha, beta);
      if r.Failure? {
        return Failure(r.error), t;
      }
      return Success(Some(r.value)), t;
    }

    /**
     * The max node: the loop over the directions, then the value stored for
     * the board.  t is the node: its children are the searches the loop made.
     */
    method MaxNode(b: bv64, depth: nat, alpha: Ext, beta: Ext, ghost os: seq<Outcome>) returns (res: Result<Ext>, ghost t: Tree)
      requires Valid() && depth > 0 && Movable(b) && IsOutcomes(b, os)
      modifies this
      decreases depth, 3, 0
      ensures Valid()
      ensures cutoff <= 0.9 ==> res.Success?
      ensures res.Success? ==> Sane(b, res.value) && Key(b) in tt && tt[Key(b)] == (depth, res.value) && made[Key(b)] == t
      ensures res.Success? ==>
        Called(t, b, depth, true, alpha, beta) && t.val == res.value && t.how.MaxOver? && t.how.os == os && SoundTree(eval, cutoff, written, t)
    {
      ghost var ks;
      res, ks := MaxLoop(b, depth, alpha, beta, os);
      if res.Failure? {
        return res, Tree(b, depth, true, alpha, beta, NegInf, Leaf);
      }
      t := Tree(b, depth, true, alpha, beta, res.value, MaxOver(os, ks));
      MaxNodeSound(os, ks, t);
      TableStore(eval, cutoff, written, lo, hi, tt, made, t);
      tt := tt[Key(b) := (depth, res.value)];
      made := made[Key(b) := t];
    }

    /** A max node over the children of its loop, valued at their first largest value, is sound and within bounds. */
    lemma MaxNodeSound(os: seq<Outcome>, ks: seq<Branch>, t: Tree)
      requires t.depth > 0 && t.max && Movable(t.b) && IsOutcomes(t.b, os) && t.how == MaxOver(os, ks)
      requires MaxKids(t.depth, t.alpha, t.beta, os, ks) && Kids(os, t.depth, t.beta, ks) && t.val == Best(Scores(ks)).0
      ensures Sane(t.b, t.val) && SoundTree(eval, cutoff, written, t)
    {
      KidsAll(os, t.depth, t.beta, ks);
        BestIsFirstMax(Scores(ks));
      if ks == [] {
        NoMoveEmpty(t.b, os);
      }
      MaxSound(eval, cutoff, written, t);
    }

    /**
     * The loop of a max node: every moving direction in `DIRECTIONS` order
     * is searched as a chance node, the best value kept, alpha raised, and
     * the loop left once `beta <= alpha`.  `ks` are the children searched.
     */
    method MaxLoop(b: bv64, depth: nat, alpha: Ext, beta: Ext, ghost os: seq<Outcome>) returns (res: Result<Ext>, ghost ks: seq<Branch>)
      requires Valid() && depth > 0 && IsOutcomes(b, os)
      modifies this
      decreases depth, 2
      ensures Valid()
      ensures cutoff <= 0.9 ==> res.Success?
      ensures res.Success? ==> MaxKids(depth, alpha, beta, os, ks) && res.value == Best(Scores(ks)).0
      ensures Kids(os, depth, beta, ks)
    {
      var best := NegInf;
      var a := alpha;
      ks := [];
      var i := 0;
      while i < 4
        invariant 0 <= i <= 4 && Valid()
        invariant MaxSoFar(os, depth, alpha, beta, i, ks, best, a)
        decreases 4 - i
      {
        var r;
        r, ks, best, a := MaxStep(b, depth, i, alpha, beta, os, ks, best, a);
        if r.Failure? {
          return Failure(r.error), ks;
        }
        if r.value {
          return Success(best), ks;
        }
        i := i + 1;
      }
      MaxDone(os, depth, alpha, beta, ks, best, a);
      res := Success(best);
    }

    /**
     * What a max node's loop holds after the first i directions: `ks` the
     * children searched so far, best the first largest of their values, a
     * the alpha raised by them, still below beta.
     */
    ghost predicate MaxSoFar(os: seq<Outcome>, depth: nat, alpha: Ext, beta: Ext, i: nat, ks: seq<Branch>, best: Ext, a: Ext)
    {
      && i <= 4 == |os| && best == Best(Scores(ks)).0 && a == AlphaAfter(alpha, ks)
      && Kids(os, depth, beta, ks) && Chained(alpha, beta, ks) && (ks != [] ==> Below(a, beta))
      && Dirs(Scores(ks)) == Moving(os, i)
    }

    /** A loop that went through every direction has searched the children `MaxKids` asks for. */
    lemma MaxDone(os: seq<Outcome>, depth: nat, alpha: Ext, beta: Ext, ks: seq<Branch>, best: Ext, a: Ext)
      requires MaxSoFar(os, depth, alpha, beta, 4, ks, best, a)
      ensures MaxKids(depth, alpha, beta, os, ks) && best == Best(Scores(ks)).0
    {
      KidsAll(os, depth, beta, ks);
      MaxKidsOf(depth, alpha, beta, os, ks, 4);
    }

    /**
     * One pass of a max node's loop, over `DIRECTIONS[i]`: when it moves b,
     * its search joins the children and raises best and alpha; `cut` says
     * the loop is left because `beta <= alpha`.
     */
    method MaxStep(b: bv64, depth: nat, i: nat, alpha: Ext, beta: Ext, ghost os: seq<Outcome>, ghost ks: seq<Branch>, best: Ext, a: Ext)
      returns (cut: Result<bool>, ghost ks': seq<Branch>, best': Ext, a': Ext)
      requires Valid() && depth > 0 && i < 4 && IsOutcomes(b, os)
      requires MaxSoFar(os, depth, alpha, beta, i, ks, best, a)
      modifies this
      decreases depth, 1
      ensures Valid()
      ensures cutoff <= 0.9 ==> cut.Success?
      ensures cut.Failure? ==> ks' == ks
      ensures cut == Success(false) ==> MaxSoFar(os, depth, alpha, beta, i + 1, ks', best', a') == true
      ensures cut == Success(true) ==>
        MaxKids(depth, alpha, beta, os, ks') && best' == Best(Scores(ks')).0 && Kids(os, depth, beta, ks')
    {
      var r;
      ghost var t;
      r, t := MaxChild(b, depth, i, a, beta, os);
      if r.Failure? {
        return Failure(r.error), ks, best, a;
      }
      if r.value.None? {
        MaxSkip(os, depth, alpha, beta, i, ks, best, a);
        return Success(false), ks, best, a;
      }
      var val := r.value.value;
      ghost var k := Branch(i, t);
      MaxAppend(os, depth, alpha, beta, i, ks, best, a, k);
      ks' := ks + [k];
      best' := Max(best, val);
      a' := Max(a, val);
      cut := Success(!Below(a', beta));
    }

    /** A direction that does not move leaves the loop's state as it was. */
    lemma MaxSkip(os: seq<Outcome>, depth: nat, alpha: Ext, beta: Ext, i: nat, ks: seq<Branch>, best: Ext, a: Ext)
      requires MaxSoFar(os, depth, alpha, beta, i, ks, best, a) == true && i < 4 && !os[i].moved
      ensures MaxSoFar(os, depth, alpha, beta, i + 1, ks, best, a)
    {
      MovingStep(os, i);
    }

    /**
     * A direction that moves adds its search k to the children and raises
     * best and alpha to its value; once alpha reaches beta the children are
     * those `MaxKids` asks for.
     */
    lemma MaxAppend(os: seq<Outcome>, depth: nat, alpha: Ext, beta: Ext, i: nat, ks: seq<Branch>, best: Ext, a: Ext, k: Branch)
      requires MaxSoFar(os, depth, alpha, beta, i, ks, best, a) == true && i < 4 && os[i].moved
      requires k.dir == i && k.sub.alpha == a && k.sub.val.Fin? && lo <= k.sub.val.x <= hi
      requires MaxChildOf(os, depth, beta, k) && SoundTree(eval, cutoff, written, k.sub)
      ensures Below(Max(a, k.sub.val), beta) ==>
        MaxSoFar(os, depth, alpha, beta, i + 1, ks + [k], Max(best, k.sub.val), Max(a, k.sub.val))
      ensures !Below(Max(a, k.sub.val), beta) ==>
        && MaxKids(depth, alpha, beta, os, ks + [k]) && Max(best, k.sub.val) == Best(Scores(ks + [k])).0
        && Kids(os, depth, beta, ks + [k])
    {
      MovingStep(os, i);
      ScoresStep(ks, k);
      ChainedAppend(alpha, beta, ks, k);
      KidsAppend(os, depth, beta, ks, k);
      if !Below(Max(a, k.sub.val), beta) {
        KidsAll(os, depth, beta, ks + [k]);
        MaxKidsOf(depth, alpha, beta, os, ks + [k], i + 1);
      }
    }

    /**
     * v and s are the value and the search of the j-th outcome of a chance
     * node at b, exponent `j % 2 + 1` at cell q: below the cutoff the
     * evaluation of b and no search; otherwise the value of a sound search,
     * as a max node one level shallower, of the board with the tile placed.
     */
    /** v is the j-th outcome at cell q of a chance node at b, and s its search when one was made. */
    ghost predicate Searched(b: bv64, depth: nat, q: Pos, j: nat, alpha: Ext, beta: Ext, v: real, s: Option<Tree>)
    {
      && depth > 0 && q.r < 4 && q.c < 4 && lo <= v <= hi
      && (OutcomeProb(j) < cutoff ==> v == eval(b) && s.None?)
      && (cutoff <= OutcomeProb(j) ==>
        && s.Some? && Called(s.value, Set(b, q.r, q.c, ExpOf(j)), depth - 1, true, alpha, beta)
        && s.value.val == Fin(v) && SoundTree(eval, cutoff, written, s.value))
    }

    /**
     * The j-th outcome of a chance node, exponent `j % 2 + 1` at cell q: below
     * the cutoff the board before placement is evaluated, otherwise the
     * board with the tile placed is searched as a max node, and s is that
     * search.
     */
    method OutcomeValue(b: bv64, depth: nat, q: Pos, j: nat, alpha: Ext, beta: Ext) returns (v: real, ghost s: Option<Tree>)
      requires Valid() && depth > 0 && q.r < 4 && q.c < 4
      modifies this
      decreases depth, 0
      ensures Valid() && Searched(b, depth, q, j, alpha, beta, v, s)
    {
      if OutcomeProb(j) < cutoff {
        return eval(b), None;
      }
      var exp := ExpOf(j);
      var child := PlaceTile(b, q, exp);
      PlacedHasTile(b, q.r, q.c, exp);
      var r;
      ghost var t;
      r, t := Search(child, depth - 1, true, alpha, beta);
      return r.value.x, Some(t);
    }

    /**
     * The chance node: the loop over the outcomes, then the expectation
     * `expected / total_p` (the evaluation when nothing was accounted)
     * stored for the board.  t is the node: its outcomes are those the loop
     * accounted for.
     */
    method ChanceNode(b: bv64, depth: nat, alpha: Ext, beta: Ext) returns (res: Result<Ext>, ghost t: Tree)
      requires Valid() && depth > 0 && Movable(b)
      modifies this
      decreases depth, 3, 0
      ensures Valid()
      ensures cutoff <= 0.9 ==> res.Success?
      ensures cutoff > 0.9 && EmptyList(b) != [] ==> res == Failure(UnboundLocalError)
      ensures res.Failure? <==> cutoff > 0.9 && EmptyList(b) != []
      ensures res.Success? ==> Sane(b, res.value) && Key(b) in tt && tt[Key(b)] == (depth, res.value) && made[Key(b)] == t
      ensures res.Success? ==>
        Called(t, b, depth, false, alpha, beta) && t.val == res.value && t.how.ChanceOver? && SoundTree(eval, cutoff, written, t)
    {
      var sums;
      ghost var ds;
      sums, ds := ChanceLoop(b, depth, alpha, beta);
      if sums.Failure? {
        return Failure(sums.error), Tree(b, depth, false, alpha, beta, NegInf, Leaf);
      }
      var (running, pSeen) := sums.value;
      var v := if pSeen != 0.0 then running / pSeen else eval(b);
      t := Tree(b, depth, false, alpha, beta, Fin(v), ChanceOver(ds));
      ChanceNodeSound(ds, t);
      TableStore(eval, cutoff, written, lo, hi, tt, made, t);
      tt := tt[Key(b) := (depth, Fin(v))];
      made := made[Key(b) := t];
      res := Success(Fin(v));
    }

    /** A chance node over the outcomes of its loop, valued at their expectation, is sound and within bounds. */
    lemma ChanceNodeSound(ds: seq<Chance>, t: Tree)
      requires !t.max && t.depth > 0 && Movable(t.b) && t.how == ChanceOver(ds) && lo <= eval(t.b) <= hi
      requires ChanceKids(cutoff, written, eval(t.b), t.b, t.depth, t.alpha, t.beta, ds) && Draws(t.b, t.depth, t.alpha, t.beta, ds)
      requires Accounted(Drawn(ds, eval(t.b)), cutoff, eval(t.b), lo, hi)
      requires t.val == Fin(Mean(Drawn(ds, eval(t.b)), eval(t.b)))
      ensures Sane(t.b, t.val) && SoundTree(eval, cutoff, written, t)
    {
      DrawsAll(t.b, t.depth, t.alpha, t.beta, ds);
      if ProbSum(Drawn(ds, eval(t.b))) != 0.0 {
        AccountedMean(Drawn(ds, eval(t.b)), cutoff, eval(t.b), lo, hi);
      }
      ChanceSound(eval, cutoff, written, t);
    }

    /**
     * The loop of a chance node: for each empty cell in row-major order,
     * exponent 1 (probability 0.9) then exponent 2 (0.1), so the j-th outcome
     * is at cell j / 2.  The result is the pair `(expected, total_p)`; `ds`
     * are the outcomes accounted for.
     */
    method ChanceLoop(b: bv64, depth: nat, alpha: Ext, beta: Ext) returns (res: Result<(real, real)>, ghost ds: seq<Chance>)
      requires Valid() && depth > 0
      modifies this
      decreases depth, 2
      ensures Valid()
      ensures cutoff <= 0.9 ==> res.Success?
      ensures cutoff > 0.9 && EmptyList(b) != [] ==> res == Failure(UnboundLocalError)
      ensures res.Failure? <==> cutoff > 0.9 && EmptyList(b) != []
      ensures res.Success? ==> res.value == (Weighted(Drawn(ds, eval(b))), ProbSum(Drawn(ds, eval(b))))
      ensures res.Success? ==> (ds == [] <==> EmptyList(b) == [])
      ensures res.Success? ==> ChanceKids(cutoff, written, eval(b), b, depth, alpha, beta, ds)
      ensures Draws(b, depth, alpha, beta, ds) && Accounted(Drawn(ds, eval(b)), cutoff, eval(b), lo, hi)
    {
      var empties := EmptyList(b);
      var running, pSeen := 0.0, 0.0;
      var upper: Option<real> := None;
      ds := [];
      var n := 0;
      while n < 2 * |empties|
        invariant 0 <= n <= 2 * |empties| && Valid()
        invariant ChanceSoFar(b, depth, alpha, beta, n, ds, running, pSeen, upper) == true
        decreases 2 * |empties| - n
      {
        var stop;
        stop, ds, running, pSeen, upper := ChanceStep(b, depth, alpha, beta, empties, n, ds, running, pSeen, upper);
        if stop.Failure? {
          return Failure(stop.error), ds;
        }
        if stop.value {
          return Success((running, pSeen)), ds;
        }
        n := n + 1;
      }
      ChanceDone(b, depth, alpha, beta, ds, running, pSeen, upper);
      res := Success((running, pSeen));
    }

    /**
     * `ds` are the first outcomes of a chance node at b, in order: each placed
     * as `PlacedAt` says, and its search, if any, sound.
     */
    ghost predicate Draws(b: bv64, depth: nat, alpha: Ext, beta: Ext, ds: seq<Chance>)
      decreases |ds|
    {
      ds != [] ==>
        var d := ds[|ds| - 1];
        && Draws(b, depth, alpha, beta, ds[..|ds| - 1])
        && PlacedAt(cutoff, b, EmptyList(b), depth, alpha, beta, |ds| - 1, d)
        && (d.sub.Some? ==> SoundTree(eval, cutoff, written, d.sub.value))
    }

    lemma DrawsAppend(b: bv64, depth: nat, alpha: Ext, beta: Ext, ds: seq<Chance>, d: Chance)
      requires Draws(b, depth, alpha, beta, ds)
      requires PlacedAt(cutoff, b, EmptyList(b), depth, alpha, beta, |ds|, d) && (d.sub.Some? ==> SoundTree(eval, cutoff, written, d.sub.value))
      ensures Draws(b, depth, alpha, beta, ds + [d])
    {
      assert (ds + [d])[..|ds|] == ds;
    }

    /** Every outcome of the chance node is placed as `PlacedAt` says, with a sound search. */
    lemma {:induction false} DrawsAll(b: bv64, depth: nat, alpha: Ext, beta: Ext, ds: seq<Chance>)
      requires Draws(b, depth, alpha, beta, ds)
      ensures forall j :: 0 <= j < |ds| ==> PlacedAt(cutoff, b, EmptyList(b), depth, alpha, beta, j, ds[j])
      ensures forall j :: 0 <= j < |ds| && ds[j].sub.Some? ==> SoundTree(eval, cutoff, written, ds[j].sub.value)
      decreases |ds|
    {
      if ds != [] {
        DrawsAll(b, depth, alpha, beta, ds[..|ds| - 1]);
      }
    }

    /**
     * What a chance node's loop holds after its first n outcomes: the
     * running sums over them, each accounted for, none of them a break,
     * the bound set once an outcome was searched, and at most one outcome
     * when the cutoff prunes both exponents.
     */
    ghost predicate ChanceSoFar(b: bv64, depth: nat, alpha: Ext, beta: Ext, n: nat, ds: seq<Chance>, running: real, pSeen: real, upper: Option<real>)
    {
      && n == |ds| <= 2 * |EmptyList(b)|
      && running == Weighted(Drawn(ds, eval(b))) && pSeen == ProbSum(Drawn(ds, eval(b)))
      && Accounted(Drawn(ds, eval(b)), cutoff, eval(b), lo, hi)
      && Draws(b, depth, alpha, beta, ds)
      && Unbroken(BreakMass(written, |EmptyList(b)|), eval(b), alpha, ds)
      && (upper.Some? <==> cutoff <= 0.9 && n > 0)
      && (cutoff > 0.9 ==> n <= 1)
    }

    /** After every outcome of the chance node, the outcomes are all of them, as `ChanceKids` asks. */
    lemma ChanceDone(b: bv64, depth: nat, alpha: Ext, beta: Ext, ds: seq<Chance>, running: real, pSeen: real, upper: Option<real>)
      requires ChanceSoFar(b, depth, alpha, beta, 2 * |EmptyList(b)|, ds, running, pSeen, upper) == true
      ensures ChanceKids(cutoff, written, eval(b), b, depth, alpha, beta, ds)
      ensures ds == [] <==> EmptyList(b) == []
    {
      DrawsAll(b, depth, alpha, beta, ds);
    }

    /**
     * Accounting for the n-th outcome of a chance node, placed and searched
     * as `OutcomeValue` does, into the running sums and the bound, with the
     * `stop` that `ChanceStep` computes: the loop's state extends, unless the
     * outcome was searched and the bound fell below alpha (the outcomes end
     * there, as `ChanceKids` asks) or the bound is still unbound after a
     * second pruned exponent (which raises).
     */
    lemma ChanceAppend(b: bv64, depth: nat, alpha: Ext, beta: Ext, n: nat, ds: seq<Chance>, running: real, pSeen: real, upper: Option<real>,
                       d: Chance, v: real, running': real, pSeen': real, upper': Option<real>, stop: Result<bool>)
      requires ChanceSoFar(b, depth, alpha, beta, n, ds, running, pSeen, upper) == true && depth > 0 && n < 2 * |EmptyList(b)|
      requires d.cell == EmptyList(b)[n / 2] && d.exp == ExpOf(n) && d.prob == OutcomeProb(n) && lo <= eval(b) <= hi
      requires Searched(b, depth, d.cell, n, alpha, beta, v, d.sub) == true
      requires running' == Weighted(Drawn(ds + [d], eval(b))) && pSeen' == ProbSum(Drawn(ds + [d], eval(b)))
      requires upper' == if cutoff <= d.prob then Some(Upper(running', pSeen', BreakMass(written, |EmptyList(b)|))) else upper
      requires stop == if cutoff <= d.prob && Below(Fin(upper'.value), alpha) then Success(true)
                       else if n % 2 == 1 && upper'.None? then Failure(UnboundLocalError) else Success(false)
      ensures cutoff <= 0.9 ==> stop.Success?
      ensures stop.Failure? ==> stop.error == UnboundLocalError
      ensures stop != Success(false) ==>
        Draws(b, depth, alpha, beta, ds + [d]) == true && Accounted(Drawn(ds + [d], eval(b)), cutoff, eval(b), lo, hi) == true
      ensures stop == Success(false) ==> ChanceSoFar(b, depth, alpha, beta, n + 1, ds + [d], running', pSeen', upper') == true
      ensures stop == Success(true) ==>
        && cutoff <= 0.9 && ChanceKids(cutoff, written, eval(b), b, depth, alpha, beta, ds + [d]) == true
        && running' == Weighted(Drawn(ds + [d], eval(b))) && pSeen' == ProbSum(Drawn(ds + [d], eval(b)))
    {
      DrawnStep(ds, d, v, cutoff, eval(b), lo, hi);
      DrawsAppend(b, depth, alpha, beta, ds, d);
      assert (ds + [d])[..|ds|] == ds;
      if stop == Success(true) {
        ChanceCut(b, depth, alpha, beta, ds, d);
      }
    }

    /**
     * A searched outcome after which the bound is below alpha ends the
     * outcomes as `ChanceKids` asks: it is the first such one.
     */
    lemma ChanceCut(b: bv64, depth: nat, alpha: Ext, beta: Ext, ds: seq<Chance>, d: Chance)
      requires |ds| < 2 * |EmptyList(b)| && d.sub.Some?
      requires Draws(b, depth, alpha, beta, ds + [d]) && Unbroken(BreakMass(written, |EmptyList(b)|), eval(b), alpha, ds)
      requires Below(Fin(Upper(Weighted(Drawn(ds + [d], eval(b))), ProbSum(Drawn(ds + [d], eval(b))), BreakMass(written, |EmptyList(b)|))), alpha)
      ensures cutoff <= 0.9 && ChanceKids(cutoff, written, eval(b), b, depth, alpha, beta, ds + [d])
    {
      DrawsAll(b, depth, alpha, beta, ds + [d]);
      assert (ds + [d])[..|ds|] == ds;
      assert PlacedAt(cutoff, b, EmptyList(b), depth, alpha, beta, |ds|, (ds + [d])[|ds|]);
    }

    /**
     * The n-th outcome of a chance node's loop: an outcome below the cutoff
     * adds `prob * eval(board)` of the board before placement; after any
     * other the bound on the final expectation is taken and `stop` says the
     * loop ends once it falls below alpha.  A first cell with both outcomes
     * pruned leaves the bound unbound, which raises.  The bound is `Upper`
     * over the mass `written` selects.
     */
    method ChanceStep(b: bv64, depth: nat, alpha: Ext, beta: Ext, empties: seq<Pos>, n: nat,
                      ghost ds: seq<Chance>, running: real, pSeen: real, upper: Option<real>)
      returns (stop: Result<bool>, ghost ds': seq<Chance>, running': real, pSeen': real, upper': Option<real>)
      requires Valid() && depth > 0 && empties == EmptyList(b) && n < 2 * |empties|
      requires ChanceSoFar(b, depth, alpha, beta, n, ds, running, pSeen, upper) == true
      modifies this
      decreases depth, 1
      ensures Valid()
      ensures cutoff <= 0.9 ==> stop.Success?
      ensures stop.Failure? ==> stop.error == UnboundLocalError
      ensures stop != Success(false) ==>
        Draws(b, depth, alpha, beta, ds') == true && Accounted(Drawn(ds', eval(b)), cutoff, eval(b), lo, hi) == true
      ensures stop == Success(false) ==> ChanceSoFar(b, depth, alpha, beta, n + 1, ds', running', pSeen', upper') == true
      ensures stop == Success(true) ==>
        && cutoff <= 0.9 && ChanceKids(cutoff, written, eval(b), b, depth, alpha, beta, ds') == true
        && running' == Weighted(Drawn(ds', eval(b))) && pSeen' == ProbSum(Drawn(ds', eval(b)))
    {
      EmptyListOnBoard(b);
      var q := empties[n / 2];
      var prob := OutcomeProb(n);
      var v;
      ghost var s;
      v, s := OutcomeValue(b, depth, q, n, alpha, beta);
      var dr := Draw(prob, v);
      ghost var d := Chance(q, ExpOf(n), prob, s);
      running', pSeen' := AddDraw(ds, d, eval(b), running, pSeen, dr);
      upper' := if prob >= cutoff then Some(Upper(running', pSeen', BreakMass(written, |empties|))) else upper;
      if prob >= cutoff && Below(Fin(upper'.value), alpha) {
        stop := Success(true);
      } else if n % 2 == 1 && upper'.None? {
        stop := Failure(UnboundLocalError);
      } else {
        stop := Success(false);
      }
      ds' := ds + [d];
      ChanceAppend(b, depth, alpha, beta, n, ds, running, pSeen, upper, d, v, running', pSeen', upper', stop);
    }

    /** The beam of one deepening iteration, built, sorted and cut as `best_move` does. */
    method Beam(b: bv64, ghost os: seq<Outcome>) returns (moves: seq<Cand>)
      requires tables.Valid() && beamK >= 1 && IsOutcomes(b, os)
      ensures moves == BeamOf(os, eval, beamK)
    {
      moves := [];
      for i := 0 to 4
        invariant moves == Candidates(os, eval, i)
      {
        var moved, child := TryMove(b, i, os);
        if moved {
          moves := moves + [Cand(eval(child), i, child)];
        }
      }
      moves := SortDesc(moves);
      moves := if |moves| <= beamK then moves else moves[..beamK];
    }

    /**
     * One beam entry of `best_move`: its board searched as a chance node
     * at depth d with the full window; t is that search.
     */
    method RootValue(b: bv64, c: Cand, d: nat, ghost os: seq<Outcome>) returns (res: Result<Ext>, ghost t: Tree)
      requires Valid() && IsOutcomes(b, os) && Candidate(os, eval, c)
      modifies this
      ensures Valid()
      ensures cutoff <= 0.9 ==> res.Success?
      ensures res.Success? ==> res.value.Fin? && lo <= res.value.x <= hi && RootOf(c, d, t) && t.val == res.value
    {
      if b == 0 {
        EmptyStays(os);
        assert false;
      }
      ChildrenKeepTile(b, os);
      res, t := Search(c.child, d, false, NegInf, PosInf);
    }

    /**
     * What an iteration's loop holds after the searches `roots` of the first
     * beam entries: the trace extended by them, and the running best over it.
     */
    ghost predicate IterSoFar(beam: seq<Cand>, d: nat, trace: seq<Scored>, best: (Ext, Option<nat>),
                              roots: seq<Tree>, trace': seq<Scored>, cur: (Ext, Option<nat>))
    {
      && Roots(beam, d, roots) && trace' == trace + Rooted(beam, roots)
      && cur == Best(trace') && (cur.1.None? ==> cur.0 == NegInf)
      && ((best.1.Some? || roots != []) ==> cur.1.Some?)
    }

    /** The search t of the next beam entry extends the trace by its value and direction, and the running best by them. */
    lemma IterAppend(beam: seq<Cand>, d: nat, trace: seq<Scored>, best: (Ext, Option<nat>),
                     roots: seq<Tree>, trace': seq<Scored>, cur: (Ext, Option<nat>), t: Tree)
      requires IterSoFar(beam, d, trace, best, roots, trace', cur) == true && |roots| < |beam|
      requires RootOf(beam[|roots|], d, t) && t.val.Fin?
      ensures
        var x := Scored(t.val, beam[|roots|].dir);
        IterSoFar(beam, d, trace, best, roots + [t], trace' + [x], if Below(cur.0, t.val) then (t.val, Some(x.dir)) else cur)
    {
      RootsAppend(beam, d, roots, t);
      Extend(trace, beam, roots, t);
      BestStep(trace', Scored(t.val, beam[|roots|].dir));
    }

    /**
     * One deepening iteration of `best_move` at depth d: the beam entries
     * searched in order at depth d - 1, each replacing the best so far only
     * with a strictly larger value.  `trace` grows by one entry per beam
     * entry: its direction and the value of its search in `roots`.
     */
    method Iteration(b: bv64, d: nat, ghost os: seq<Outcome>, best: (Ext, Option<nat>), ghost trace: seq<Scored>)
      returns (res: Result<(Ext, Option<nat>)>, ghost trace': seq<Scored>, ghost roots: seq<Tree>)
      requires Valid() && IsOutcomes(b, os) && d >= 1
      requires best == Best(trace) && (best.1.None? ==> best.0 == NegInf)
      requires MovingDirs(os, trace)
      modifies this
      ensures Valid()
      ensures cutoff <= 0.9 ==> res.Success?
      ensures MovingDirs(os, trace')
      ensures res.Success? ==> res.value == Best(trace') && (res.value.1.None? ==> res.value.0 == NegInf)
      ensures res.Success? && (best.1.Some? || Moving(os, 4) != []) ==> res.value.1.Some?
      ensures res.Success? ==>
        && |roots| == |BeamOf(os, eval, beamK)| && Roots(BeamOf(os, eval, beamK), d - 1, roots)
        && trace' == trace + Rooted(BeamOf(os, eval, beamK), roots)
    {
      var moves := Beam(b, os);
      BeamCandidates(os, eval, beamK);
      BeamRanked(os, eval, beamK);
      var bestVal, bestDir := best.0, best.1;
      trace' := trace;
      roots := [];
      var m := 0;
      while m < |moves|
        invariant 0 <= m <= |moves| && |roots| == m
        invariant Valid()
        invariant IterSoFar(moves, d - 1, trace, best, roots, trace', (bestVal, bestDir)) == true
        decreases |moves| - m
      {
        var c := moves[m];
        assert c in moves;
        var r;
        ghost var t;
        r, t := RootValue(b, c, d - 1, os);
        if r.Failure? {
          MovingDirsRooted(os, trace, moves, roots);
          return Failure(r.error), trace', roots;
        }
        IterAppend(moves, d - 1, trace, best, roots, trace', (bestVal, bestDir), t);
        trace' := trace' + [Scored(r.value, c.dir)];
        roots := roots + [t];
        if Below(bestVal, r.value) {
          bestVal, bestDir := r.value, Some(c.dir);
        }
        m := m + 1;
      }
      MovingDirsRooted(os, trace, moves, roots);
      res := Success((bestVal, bestDir));
    }

    /**
     * What `best_move` holds after the iterations whose root searches are
     * `its`, in depth order: each searched every beam entry, `trace` is
     * their values and directions, all moving, and `best` its best pair.
     */
    ghost predicate Deepening(os: seq<Outcome>, its: seq<seq<Tree>>, trace: seq<Scored>, best: (Ext, Option<nat>))
    {
      && |os| == 4 && beamK >= 1
      && var beam := BeamOf(os, eval, beamK);
      && Sized(beam, its) && Iterations(beam, its) && trace == Deepened(beam, its)
      && best == Best(trace) && (best.1.None? ==> best.0 == NegInf) && MovingDirs(os, trace)
    }

    /**
     * One pass of `best_move`'s loop body past the first deadline test:
     * the iteration at depth d, its root searches appended to `its`.
     */
    method Deepen(b: bv64, d: nat, ghost os: seq<Outcome>, best: (Ext, Option<nat>), ghost trace: seq<Scored>, ghost its: seq<seq<Tree>>)
      returns (res: Result<(Ext, Option<nat>)>, ghost trace': seq<Scored>, ghost its': seq<seq<Tree>>)
      requires Valid() && IsOutcomes(b, os) && d == |its| + 1
      requires Deepening(os, its, trace, best) == true
      modifies this
      ensures Valid()
      ensures cutoff <= 0.9 ==> res.Success?
      ensures MovingDirs(os, trace')
      ensures res.Success? ==> |its'| == d && Deepening(os, its', trace', res.value) == true
      ensures res.Success? && (best.1.Some? || Moving(os, 4) != []) ==> res.value.1.Some?
    {
      ghost var beam := BeamOf(os, eval, beamK);
      ghost var roots;
      res, trace', roots := Iteration(b, d, os, best, trace);
      its' := its;
      if res.Success? {
        IterationsAppend(beam, its, roots);
        its' := its + [roots];
      }
    }

    /**
     * `best_move`: for d = 1 .. depth while the deadline allows, one
     * iteration, the best value and direction carried across iterations.
     * The answer is the chosen direction, or "up" when none was chosen.
     * Fewer than `depth` iterations run only when the last clock reading
     * was past the deadline.  `os` are the outcomes of the four directions on b; `its[k]` are the
     * root searches of the iteration at depth k + 1, and `trace` their
     * values and directions, iteration by iteration.
     */
    method BestMove(b: bv64, depth: int, ghost os: seq<Outcome>)
      returns (res: Result<string>, ghost trace: seq<Scored>, ghost its: seq<seq<Tree>>)
      requires Valid() && IsOutcomes(b, os)
      modifies this
      ensures Valid()
      ensures cutoff <= 0.9 ==> res.Success?
      ensures MovingDirs(os, trace)
      ensures res.Success? ==> res.value == if Best(trace).1.None? then "up" else Directions[Best(trace).1.value]
      ensures res.Success? && depth >= 1 && !expired(old(clock)) && Moving(os, 4) != [] ==> Best(trace).1.Some?
      ensures res.Success? ==> its == [] || |its| <= depth
      ensures res.Success? && depth >= 1 ==> |its| == depth || PastDeadline(clock)
      ensures res.Success? ==>
        && Sized(BeamOf(os, eval, beamK), its) && Iterations(BeamOf(os, eval, beamK), its)
        && trace == Deepened(BeamOf(os, eval, beamK), its)
    {
      ghost var start := clock;
      var best: (Ext, Option<nat>) := (NegInf, None);
      trace := [];
      its := [];
      var d := 1;
      while d <= depth
        invariant Valid()
        invariant Deepening(os, its, trace, best) == true
        invariant d > 1 && !expired(start) && Moving(os, 4) != [] ==> best.1.Some?
        invariant d == 1 ==> clock == start
        invariant d == |its| + 1 && (its == [] || |its| <= depth) && (depth >= 1 ==> d <= depth + 1)
        decreases depth - d
      {
        var up := TimeUp();
        if up {
          break;
        }
        var r;
        r, trace, its := Deepen(b, d, os, best, trace, its);
        if r.Failure? {
          return Failure(r.error), trace, its;
        }
        best := r.value;
        up := TimeUp();
        if up {
          break;
        }
        d := d + 1;
      }
      DeepeningParts(os, its, trace, best);
      res := Success(if best.1.None? then "up" else Directions[best.1.value]);
    }

    lemma DeepeningParts(os: seq<Outcome>, its: seq<seq<Tree>>, trace: seq<Scored>, best: (Ext, Option<nat>))
      requires Deepening(os, its, trace, best) == true
      ensures |os| == 4 && beamK >= 1
      ensures Sized(BeamOf(os, eval, beamK), its) && Iterations(BeamOf(os, eval, beamK), its)
      ensures trace == Deepened(BeamOf(os, eval, beamK), its) && best == Best(trace) && MovingDirs(os, trace)
    {
    }
  }
}
