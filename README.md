# 2048 bit-board engine and BEPP expectimax, in Dafny

This project models the core of a 2048 solver. It covers six parts:

- **The bit-board engine** (`board.py`). A board is one 64-bit word of sixteen 4-bit cells. Each cell holds the exponent of its tile, and 0 means empty. A move looks up each 16-bit row in tables built once for all 65536 rows: the row slid left, the row slid right, and the score of the merge. Vertical moves transpose the board around the row moves. `can_move` checks for an empty cell or two equal neighbours.
- **The `Board` object** around that word, with clone, hash, tile placement, random tiles and moves.
- **The `Game` class** (`game.py`). It keeps the score and the over/won flags.
- **Two board evaluations** (`eval/heuristics.py`).
- **The BEPP expectimax search** (`search/expectimax.py`), where BEPP stands for Bounded Expectation and Probability Pruning. It uses iterative deepening over a beam of the best-evaluated moves. Max nodes use alpha/beta cut-offs. Chance nodes skip outcomes below a probability cutoff and break early on an upper bound. A transposition dict is shared within one `best_move` call.
- **The classifier wrapper** (`algo/movenet.py`): only its feature encoding and the mapping of a prediction to a direction.

The files are:

| file | module | contents |
|---|---|---|
| `results.dfy` | `Results` | `Option`, `Result` and the Python exceptions raised (`KeyError`, `IndexError`, `UnboundLocalError`) |
| `row_tables.dfy` | `RowTables` | `_left_row` as a method proved against `LeftRowSpec`, the reversed right move, and the class `Tables` whose constructor fills the 65536-entry array |
| `bitboard.dfy` | `BitBoard` | `_get`, `_set`, `_transpose`, `move_board`, `can_move`, and the lemmas tying moves to `can_move` |
| `board_object.dfy` | `BoardObject` | the class `Board` and the empty-cell list, the maximum tile and random spawning |
| `heuristics.dfy` | `Heuristics` | `basic_eval` and `bounded_eval` over exact reals |
| `game.dfy` | `GameState` | the class `Game` |
| `movenet.dfy` | `MoveNet` | `_features` and the `__call__` mapping |
| `search_values.dfy` | `SearchValues` | extended reals, the running best, the beam sort, chance-node sums, the pruning bound, the parameter clamp and the hash key |
| `expectimax.dfy` | `Expectimax` | the classes `Params` and `Searcher`, with `_expectimax` and `best_move` as mutually recursive methods |

### How the model represents the source

- **Board words and rows.** Board words are `bv64` and rows are `bv16`. Integer widths are explicit where the source depends on them.
- **The row tables.** The three parallel numpy tables are one `array<Entry>` of triples.
- **The search's values.** Python floats are modelled as `real`, plus the two infinities (`Ext`).
- **Randomness.** `random.choice` and `random.random()` become the parameters `pick` (an index taken modulo the number of empty cells) and `coin` (the value compared with 0.9).
- **The clock.** It is an oracle `expired` on the successive readings of `time.time() >= deadline`.
- **`eval_fn`** is a function parameter whose values lie in a ghost interval `[lo, hi]`.

### The search methods

The search's mutual recursion terminates on `depth`:

| method | models |
|---|---|
| `Expectimax.Searcher.Search` | `_expectimax` |
| `MaxNode` and `MaxLoop` | its max branch |
| `ChanceNode` and `ChanceLoop` | its chance branch |
| `Expand` | its part after a table miss: the leaf, or the dispatch to a node |
| `MaxChild` and `OutcomeValue` | one child of each branch |
| `MaxStep` and `ChanceStep` | one pass of each branch's loop |

The four directions' outcomes on a board are passed as a ghost list `os` with `IsOutcomes(b, os)`. Methods reason about that list instead of re-deriving the moves.

## Model

| member | source | states |
|---|---|---|
| RowTables.LeftRow | board.py:16-29 | the loop's packed row and score equal `LeftRowSpec`: non-zero tiles compacted, each equal adjacent pair merged once from the left (score 2^(e+1) per merge), padded with zeros |
| RowTables.LeftRowPair | board.py:16-29 | a row `0x0011` (two 2s) slides to `0x0002` (one 4) with gain 4 |
| RowTables.LeftRowFour | board.py:21-26 | four equal tiles merge pairwise into two, `0x1111` to `0x0022`, gain 8, never three into one |
| RowTables.LeftRowSpill | board.py:27-28 | two 32768 tiles merge into exponent 16, which the packing spills into the next cell as a 2: `0x00FF` gives `0x0010` with gain 65536 |
| RowTables.MergeShape | board.py:21-26 | on a row of tiles, the merged list is at least half as long, holds exponents 1..16, keeps the length exactly when it is the row itself with no gain, and has a positive gain exactly when it shortens the row |
| RowTables.MergeMass | board.py:21-26 | merging preserves the total tile value, and the gain is at most that total |
| RowTables.MergeDistinct | board.py:21-26 | a row without equal neighbours merges to itself with no gain |
| RowTables.MergeKeepsLengthDistinct | board.py:21-26 | conversely, a merge that keeps the length implies no equal neighbours |
| RowTables.SpillCount | board.py:27-28 | packing a merged row of at most three tiles, even with a spilled exponent 16, never creates more tiles than the merge left |
| RowTables.ReverseTiles | board.py:36-40 | the nibble reversal lists the tiles backwards and is its own inverse |
| RowTables.LeftRowFixedIff | board.py:16-29 | `_left_row` leaves a row unchanged iff its tiles are left-packed with no equal neighbours |
| RowTables.RightRowFixedIff | board.py:36-40 | `ROW_RIGHT` leaves a row unchanged iff its reversal is left-packed with no equal neighbours |
| RowTables.LeftFixed | board.py:32-35 | a row `ROW_LEFT` leaves fixed (iff stable) scores 0 |
| RowTables.RightFixed | board.py:36-40 | a row `ROW_RIGHT` leaves fixed (iff its reversal is stable) has `SCORE_LUT` 0 |
| RowTables.RightMoveScore | board.py:36-40 | the score of the reversed row equals `SCORE_LUT[r]`, so a right move gains exactly its own merges although the table is indexed by the unreversed row |
| RowTables.RightFixedNoScore | board.py:80 | a row a right move leaves fixed adds no score |
| RowTables.LeftRowKeepsTile | board.py:16-29 | a non-empty row stays non-empty after sliding left |
| RowTables.RightRowKeepsTile | board.py:36-40 | a non-empty row stays non-empty after sliding right |
| RowTables.JammedStable | board.py:93-100 | a full row without equal neighbours is fixed in both directions |
| RowTables.MixedUnstable | board.py:90-96 | a row with both an empty cell and a tile is not fixed in at least one of the two directions |
| RowTables.EntrySpecSound | board.py:32-40 | every table entry is sound: left and right slides fixed exactly when stable, and no score when fixed |
| RowTables.ComputeEntry | board.py:33-40 | the entry computed for row r is `(ROW_LEFT[r], ROW_RIGHT[r], SCORE_LUT[r])` as specified |
| RowTables.Tables.constructor | board.py:11-13 | the array holds the specified entry for each of the 65536 rows |
| RowTables.Tables.Lookup | board.py:76 | a lookup returns the table's entry for the row |
| BitBoard.SetSame | board.py:48-51 | `_set` writes the cell it names |
| BitBoard.SetOther | board.py:48-51 | `_set` leaves every other cell unchanged |
| BitBoard.GetRow | board.py:43-45 | cell (r, c) is nibble c of the 16-bit row r |
| BitBoard.Ext | board.py:43-45 | two boards with the same sixteen cells are the same word |
| BitBoard.Transpose | board.py:54-60 | the double loop returns the transposed board |
| BitBoard.TransposedCells | board.py:54-60 | cell (r, c) of the transpose is cell (c, r) of the board |
| BitBoard.TransposedTwice | board.py:54-60 | transposing twice gives the board back |
| BitBoard.MoveRows | board.py:69-80 | the row loop builds the board of looked-up rows, the sum of `SCORE_LUT` gains, and `moved` iff some row changed |
| BitBoard.MoveBoard | board.py:63-85 | `move_board` returns `MoveSpec(b, d)`: left/right use `ROW_LEFT`/`ROW_RIGHT` on rows, up/down the same on the transpose, transposed back |
| BitBoard.RowsMovedChanged | board.py:74-80 | the flag of the row loop is set iff the resulting board differs from its input |
| BitBoard.MovedIffChanged | board.py:63-85 | `moved` is true iff the new board differs from the old, in every direction |
| BitBoard.NoMoveNoGain | board.py:63-85 | a move that does not move gains nothing |
| BitBoard.ScanEmpty | board.py:90-92 | the first loop finds an empty cell iff there is one |
| BitBoard.ScanRows | board.py:93-96 | the second loop finds two equal horizontal neighbours iff there are |
| BitBoard.ScanColumns | board.py:97-100 | the third loop finds two equal vertical neighbours iff there are |
| BitBoard.CanMove | board.py:88-101 | `can_move` returns `Movable(b)`: an empty cell or equal neighbours in a row or column |
| BitBoard.StuckNoMove | board.py:88-101 | on a board `can_move` rejects, no direction moves |
| BitBoard.MovableMoves | board.py:88-101 | on a non-empty board `can_move` accepts, some direction moves |
| BitBoard.CanMoveIffMoves | board.py:88-101 | on a non-empty board, `can_move` holds iff one of the four directions moves |
| BitBoard.MoveSpecCanMove | board.py:63-101 | on a non-empty board, `can_move` holds iff some `move_board` direction reports a move |
| BitBoard.MoveSpecFlags | board.py:63-85 | the moved flag is exactly "the board changed", and an unmoved board gains 0 |
| BitBoard.EmptyBoard | board.py:88-101 | the empty board passes `can_move` but no direction moves it |
| BitBoard.MoveKeepsTile | board.py:63-85 | a move never empties a non-empty board |
| BoardObject.AtCell | board.py:131-133 | position p is the cell (p // 4, p % 4) |
| BoardObject.EmptyListExact | board.py:131-133 | `get_empty_cells` lists exactly the empty cells, each once, in row-major order |
| BoardObject.EmptyListNone | board.py:131-133 | the list is empty iff the board has no empty cell |
| BoardObject.MaxExpIsMax | board.py:127-129 | the exponent behind `max_tile` is at least every cell's and is attained by a cell |
| BoardObject.SpawnChanges | board.py:153-158 | `_add_random_tile` changes the board iff it has an empty cell |
| BoardObject.SpawnPlaces | board.py:153-158 | on a board with empty cells, the chosen empty cell gets exponent 1 when the coin is below 0.9 and 2 otherwise, and every other cell is kept |
| BoardObject.DirId | board.py:140 | the names left, right, up, down map to 0..3, and any other name is missing |
| BoardObject.DirIdOneToOne | board.py:140 | two names with the same known code are the same name |
| BoardObject.Board.constructor | board.py:107-110 | a new board is the empty word with two random tiles added in turn |
| BoardObject.Board.Of | board.py:113-116 | a board object holding a given word |
| BoardObject.Board.Clone | board.py:113-116 | `clone` returns a fresh board with the same word |
| BoardObject.Board.Hash | board.py:119 | `__hash__` is the board word as a non-negative integer below 2^64 |
| BoardObject.Board.SetTile | board.py:135-136 | `set_tile` replaces the board with `_set` of the cell |
| BoardObject.Board.AddRandomTile | board.py:153-158 | the board becomes `Spawn` of the old board |
| BoardObject.Board.Move | board.py:139-147 | an unknown direction raises `KeyError` and leaves the board alone; otherwise it returns `move_board`'s (moved, gain), and the board changes only when it moved, to the moved board plus a random tile when `add_random` is set |
| BoardObject.Board.CanMoveNow | board.py:149-150 | the method answers `can_move` on the board |
| BoardObject.StillMoveKeeps | board.py:143-147 | a move that does not move leaves the board unchanged and gains 0 |
| Heuristics.EmptyCountList | eval/heuristics.py:12 | the empty-cell count of the evaluations equals the length of `get_empty_cells` |
| Heuristics.BasicEvalBounds | eval/heuristics.py:6-14 | `basic_eval` exceeds the empty count by more than 0 and at most 16 |
| Heuristics.Log2Pow2 | eval/heuristics.py:32 | `int(log2(1 << e))` is e |
| Heuristics.BoundedEvalForm | eval/heuristics.py:18-35 | `bounded_eval` is 0.6 times the empty ratio plus 0.4 times the max exponent over 16 |
| Heuristics.BoundedEvalRange | eval/heuristics.py:18-35 | `bounded_eval` lies in [0, 1), as the search's `V_MIN`/`V_MAX` assume |
| Heuristics.BoundedEvalEmpty | eval/heuristics.py:26-35 | the empty board evaluates to 0.6 |
| Heuristics.BoundedEvalMonotone | eval/heuristics.py:30-35 | with the same largest tile, more empty cells give a strictly larger value |
| Heuristics.FreshBoard | board.py:107-110 | a new board (two spawns on the empty word) has exactly 14 empty cells, and each of its two tiles is a 2 or a 4 |
| GameState.WonIffExp | game.py:17 | `max_tile() >= WIN_TILE` holds iff some exponent is at least 11 |
| GameState.Game.constructor | game.py:7-11 | a new game has a new two-tile board, score 0, and is neither over nor won |
| GameState.Game.Move | game.py:13-22 | returns the board's (moved, gain); an unknown direction raises; only a real move adds the gain and raises `won` (max tile reaches 2048) and `over` (won, or no move left); the flags are never cleared |
| GameState.Game.Record | game.py:15-21 | the bookkeeping keeps the score equal to the sum of the gains and a won game over |
| GameState.Game.IsOver | game.py:25 | a won game reports over |
| GameState.Game.IsWon | game.py:26 | `is_won` implies `is_over` |
| MoveNet.TileFeatureFits | algo/movenet.py:31 | the intended tile value of an exponent below 16 fits 16 bits and gives the exponent back |
| MoveNet.FeaturesFit | algo/movenet.py:24-33 | feature 0 is the number of empty cells and all 17 features fit a `uint16` |
| MoveNet.FeaturesDetermineBoard | algo/movenet.py:24-33 | with the intended tile values, equal features mean equal boards |
| MoveNet.TileFeatureAsWrittenDrops | algo/movenet.py:28-31 | as written, every tile of 256 and up encodes as 0 |
| MoveNet.FeaturesAsWrittenBlind | algo/movenet.py:28-33 | as written, boards that differ only in tiles of 256 and up have the same features |
| MoveNet.FeaturesAsWrittenCollide | algo/movenet.py:28-33 | as written, a lone 256 and a lone 512 in cell 0 give the same features |
| MoveNet.Direction | algo/movenet.py:36-39 | a successful mapping is either the string prediction itself or one of the four direction names |
| MoveNet.DirectionIds | algo/movenet.py:11 | ids 0..3 give up, down, left, right, distinct, and each is a name `Board.move` accepts |
| MoveNet.DirectionOutOfRange | algo/movenet.py:39 | an integer id outside -4..3 raises `IndexError` |
| SearchValues.BelowOrder | search/expectimax.py:62 | `<` on floats with infinities is a strict total order |
| SearchValues.Max | search/expectimax.py:105-106 | `max(a, b)` is one of its arguments and below neither |
| SearchValues.Best | search/expectimax.py:62-63 | a chosen direction is the direction of a searched move |
| SearchValues.BestIsFirstMax | search/expectimax.py:42-63 | the best value bounds every value searched; no direction is chosen iff all values are `-inf`; the chosen one is the first to reach the best value |
| SearchValues.BestKeepsChoice | search/expectimax.py:62-63 | once a direction is chosen, later moves never clear it |
| SearchValues.DirsAt | search/expectimax.py:98-101 | the i-th listed direction is the direction of the i-th searched move |
| SearchValues.InsertMultiset | search/expectimax.py:55 | insertion into the sorted list adds its entry and keeps the rest |
| SearchValues.InsertRanked | search/expectimax.py:55 | inserting a later direction keeps a list ranked |
| SearchValues.SortRanked | search/expectimax.py:55 | the stable descending sort of a list in direction order is ranked (score descending, ties in direction order) and a permutation |
| SearchValues.Take | search/expectimax.py:56 | `moves[:BEAM_K]` keeps `min(BEAM_K, len(moves))` entries |
| SearchValues.SumsAppend | search/expectimax.py:128-129 | `running` and `p_seen` add over concatenated outcomes |
| SearchValues.WeightedWithin | search/expectimax.py:128-129 | with values in [lo, hi], `running` lies between lo and hi times `p_seen` |
| SearchValues.MeanWithin | search/expectimax.py:137 | `running / p_seen` is a weighted mean and stays within the values' bounds |
| SearchValues.WeightedRestBound | search/expectimax.py:18 | outcomes worth at most `V_MAX` add at most `V_MAX` per unit of probability |
| SearchValues.UpperBounds | search/expectimax.py:131-135 | the corrected bound: whatever outcomes follow with values at most `V_MAX`, the final expectation is at most `Upper` of what was seen |
| SearchValues.UpperAsWrittenBreaksEarly | search/expectimax.py:131-135 | the bound as written falls below alpha while the node's expectation is above it |
| SearchValues.BreakMass | search/expectimax.py:131 | the probability mass the break test assumes: 1 as written, or one unit per empty cell as corrected; at least 1 for any node with an empty cell |
| SearchValues.UnitMassAsWritten | search/expectimax.py:131 | over the mass 1 the corrected bound is exactly `running + (1 - p_seen) * V_MAX` |
| SearchValues.Clamp | search/expectimax.py:25 | the clamped cutoff lies in [0, 1] |
| SearchValues.ClampNearest | search/expectimax.py:25 | the clamp is the nearest point of [0, 1] and leaves [0, 1] unchanged |
| SearchValues.HashKeyCollides | board.py:119 | `hash(board)` as CPython reduces it gives two different boards the key 5 |
| Expectimax.DirCode | search/expectimax.py:30 | each entry of `DIRECTIONS` is a name `Board.move` accepts, with its `move_board` code |
| Expectimax.DirCodeOnto | search/expectimax.py:30 | every `move_board` code is reached by some entry of `DIRECTIONS` |
| Expectimax.OutcomesUnique | search/expectimax.py:99-100 | the four directions' outcomes on a board are unique |
| Expectimax.StepIs | search/expectimax.py:99-100 | a clone moved without a random tile reports `move_board`'s flag and board |
| Expectimax.EmptyStays | search/expectimax.py:50-53 | no direction moves the empty board |
| Expectimax.ChildrenKeepTile | search/expectimax.py:99-102 | the children of a non-empty board are non-empty |
| Expectimax.MovingNonEmpty | search/expectimax.py:90-100 | a non-empty board `can_move` accepts has a moving direction, so a max node is never empty |
| Expectimax.NoMoveEmpty | search/expectimax.py:90-110 | a board `can_move` accepts where no direction moves is the empty board |
| Expectimax.PlacedHasTile | search/expectimax.py:123-124 | placing a tile leaves a non-empty board |
| Expectimax.CandidatesMoving | search/expectimax.py:49-54 | the beam list has one entry per moving direction, in direction order, each with its moved board and evaluation |
| Expectimax.BeamRanked | search/expectimax.py:55-56 | the beam is ranked and keeps `min(BEAM_K, number of moving directions)` entries |
| Expectimax.BeamCandidates | search/expectimax.py:49-56 | every beam entry is a moving direction with its moved board and its evaluation |
| Expectimax.BeamKeepsBest | search/expectimax.py:55-56 | every moving direction cut from the beam ranks after every one kept |
| Expectimax.RankedPrefix | search/expectimax.py:56 | a prefix of a ranked list is ranked |
| Expectimax.PrefixFirst | search/expectimax.py:56 | in a ranked list, the prefix's entries come before those cut |
| Expectimax.ScoresStep | search/expectimax.py:105 | one more searched child makes the best value `max(best, val)` and appends its direction to the children's directions |
| Expectimax.DrawnStep | search/expectimax.py:116-129 | one more outcome adds `prob * val` to `running` and `prob` to `p_seen`, and keeps every outcome accounted |
| Expectimax.AddDraw | search/expectimax.py:118-129 | the running sums after one more outcome are `running` and `p_seen` of the longer outcome list |
| Expectimax.AccountedAppend | search/expectimax.py:116-129 | an outcome with the next probability, evaluated before placement when pruned, keeps the record consistent |
| Expectimax.AccountedMean | search/expectimax.py:137 | a chance node's expectation over accounted outcomes lies in the bounds of `eval_fn` |
| Expectimax.SoundLeaf | search/expectimax.py:80-93 | a value given at the deadline, or at a leaf (depth 0 or no move), that is the board's evaluation is what `_expectimax` returns there |
| Expectimax.TableStore | search/expectimax.py:92 | storing the value of a sound search keeps every entry of `tt` the value of a sound search of its board at the stored depth, within bounds |
| Expectimax.TableReuse | search/expectimax.py:83-87 | a hit returns the value of an earlier sound search of the same board at least as deep, within bounds |
| Expectimax.PlainIsExpectimax | search/expectimax.py:71-139 | a sound search that met no deadline, reused no entry, cut no max node, broke off no chance node and pruned no outcome returns the plain expectimax value `RefValue` of its board, depth and node kind |
| Expectimax.PlainMax | search/expectimax.py:95-110 | a plain max node's value is the plain `RefMax`: the first largest plain value over the moving directions |
| Expectimax.PlainMaxKids | search/expectimax.py:98-104 | each child of a plain max node is its direction's moved board with the plain chance value one level down |
| Expectimax.MaxIsExpectimax | search/expectimax.py:96-110 | the best over children for every moving direction, in `DIRECTIONS` order, each with its plain value, is `RefMax` |
| Expectimax.KidsAreRef | search/expectimax.py:98-105 | those children's values and directions are exactly `RefKids`, the plain list over the moving directions |
| Expectimax.PlainChance | search/expectimax.py:112-139 | a plain chance node's value is `RefChance`: the expectation over every empty cell and both exponents of the plain max values |
| Expectimax.ChanceIsExpectimax | search/expectimax.py:113-137 | the mean over all `2 * len(empties)` outcomes, row-major, exponent 1 (0.9) before 2 (0.1), each with its plain value, is `RefChance` |
| Expectimax.MovingDirsRooted | search/expectimax.py:49-63 | an iteration adds only moving directions to the trace |
| Expectimax.UnbrokenAt | search/expectimax.py:131-135 | in outcomes the loop went through without breaking, no searched outcome left the bound over the outcomes up to it below alpha |
| Expectimax.ChanceStopsFirst | search/expectimax.py:131-135 | in a chance node's outcomes, a searched outcome whose bound is below alpha is the last one visited: the loop stops at the first break |
| Expectimax.Params.constructor | search/expectimax.py:16-17 | the initial cutoff is 0.02 and the beam width 4 |
| Expectimax.Params.SetBeppParams | search/expectimax.py:20-27 | a given cutoff is clamped into [0, 1]; a given beam width replaces the old one only from 1 on; the other is unchanged |
| Expectimax.Searcher.constructor | search/expectimax.py:38-40 | the evaluation is `eval_fn` or `bounded_eval`, the parameters are the current globals, `tt` is empty; `written` chooses the mass of the chance nodes' break bound |
| Expectimax.Searcher.RootsAt | search/expectimax.py:58-61 | the m-th root search of an iteration is the search of the m-th beam entry's board at depth d - 1, as a chance node with the full window |
| Expectimax.Searcher.IterationsAppend | search/expectimax.py:44-63 | one more iteration extends the trace by its beam entries' directions and searched values, in beam order |
| Expectimax.Searcher.IterationsAt | search/expectimax.py:44-61 | the iteration at depth k + 1 searched every beam entry at depth k |
| Expectimax.Searcher.KidsAll | search/expectimax.py:98-104 | every recorded child of a max node is a moving direction searched soundly as a chance node one level down, with the node's beta, its value within bounds |
| Expectimax.Searcher.DrawsAll | search/expectimax.py:116-127 | every recorded outcome of a chance node is at its row-major empty cell with its exponent and probability, and is searched soundly as a max node one level down exactly when its probability reaches the cutoff |
| Expectimax.Searcher.TimeUp | search/expectimax.py:80-81 | one reading of the clock, answering whether the deadline has passed; after it, `PastDeadline` of the new count is that answer |
| Expectimax.Searcher.TryMove | search/expectimax.py:99-100 | a cloned move reports the direction's outcome |
| Expectimax.Searcher.PlaceTile | search/expectimax.py:123-124 | a cloned `set_tile` gives `_set` of the board |
| Expectimax.Searcher.Search | search/expectimax.py:71-139 | past the deadline the value is the evaluation; a deep-enough entry is reused; otherwise as `Expand`. The returned search tree is sound: a max node's value is the first largest of its children's searched values, a chance node's value is `running / p_seen` over its outcomes' searches; values lie in `eval_fn`'s bounds (or `-inf` on the empty board); no failure unless the cutoff exceeds 0.9 |
| Expectimax.Searcher.Expand | search/expectimax.py:89-139 | after a table miss: a leaf is evaluated; otherwise a max node when maximizing, else a chance node, with a sound search tree; the value is stored as (depth, value) |
| Expectimax.Searcher.MaxChild | search/expectimax.py:99-104 | a direction yields a value iff it moves the board, and that value is the value of a sound search of the moved board at depth - 1, as a chance node with the current alpha and beta |
| Expectimax.Searcher.MaxNode | search/expectimax.py:96-110 | the value is the first largest of the children's searched values (`SoundMax`), the children being the moving directions in order, all or up to the first that raises alpha to beta; stored in `tt` at this depth |
| Expectimax.Searcher.MaxNodeSound | search/expectimax.py:96-110 | children as the loop leaves them, with the best of their values, make a sound max node |
| Expectimax.Searcher.MaxLoop | search/expectimax.py:97-108 | the loop's value is the best of its children; the children are every moving direction in order, or those up to the first that raised alpha to beta, each searched with the alpha its predecessors raised |
| Expectimax.Searcher.MaxStep | search/expectimax.py:99-108 | one direction: skipped when it does not move; otherwise searched, `best` and `alpha` raised by its value, and the loop cut when `beta <= alpha` |
| Expectimax.Searcher.MaxSkip | search/expectimax.py:99-101 | a direction that does not move adds no child |
| Expectimax.Searcher.MaxAppend | search/expectimax.py:102-108 | a searched moving direction is the next child; without a cut the loop state extends, with one the children end there |
| Expectimax.Searcher.MaxDone | search/expectimax.py:98-109 | after all four directions the children are every moving direction and `best` is the best of their values |
| Expectimax.Searcher.OutcomeValue | search/expectimax.py:117-127 | below the cutoff the outcome is worth the unplaced board's evaluation and nothing is searched; otherwise it is the value of a sound search of the board with exponent `j % 2 + 1` at cell q, as a max node one level down with the node's window |
| Expectimax.Searcher.ChanceNode | search/expectimax.py:113-139 | the value is `running / p_seen` over outcomes at the empty cells in row-major order, exponent 1 before 2, each searched outcome's value that of its search (`SoundChance`); all outcomes, or those up to the first searched one whose bound falls below alpha (`ChanceKids`); the evaluation when nothing was accounted; stored in `tt`; `UnboundLocalError` exactly when the cutoff exceeds 0.9 and the board has empty cells |
| Expectimax.Searcher.ChanceNodeSound | search/expectimax.py:113-139 | outcomes as the loop leaves them, with the mean of their values, make a sound chance node |
| Expectimax.Searcher.ChanceLoop | search/expectimax.py:113-135 | the sums are `running`, `p_seen` over the outcomes visited, each placed at its row-major cell and exponent and searched as `OutcomeValue` says; the outcomes are all of them, or stop at the first searched outcome whose bound, over the mass `written` selects, falls below alpha, none before it having broken (`ChanceKids`); it raises `UnboundLocalError` exactly when the cutoff exceeds 0.9 and the board has an empty cell, the both-pruned first cell case; a full board runs no pass and succeeds |
| Expectimax.Searcher.ChanceStep | search/expectimax.py:117-135 | one outcome is accounted into the sums and the bound, over the mass `written` selects; a searched outcome whose bound falls below alpha ends the loop with the outcomes as `ChanceKids` requires; otherwise the loop state, still unbroken, extends; a second pruned exponent with no bound yet raises `UnboundLocalError` |
| Expectimax.Searcher.ChanceAppend | search/expectimax.py:116-129 | the outcome at the next cell and exponent, placed and searched, either extends the unbroken loop state, ends the outcomes as `ChanceKids` requires when its bound falls below alpha, or raises `UnboundLocalError` on a second pruned exponent with no bound yet |
| Expectimax.Searcher.ChanceCut | search/expectimax.py:131-135 | a searched outcome whose bound is below alpha, after outcomes none of which broke, ends the outcomes as `ChanceKids` requires |
| Expectimax.Searcher.ChanceDone | search/expectimax.py:115-135 | a loop that went through every outcome without breaking leaves all `2 * len(empties)` outcomes as `ChanceKids` requires, none of them iff the board is full |
| Expectimax.Searcher.Beam | search/expectimax.py:49-56 | the beam built, sorted and cut is `BeamOf` of the outcomes |
| Expectimax.Searcher.RootValue | search/expectimax.py:59-61 | a beam entry's value is the value of a sound search of its board at depth d - 1 as a chance node with the full window, within the bounds of `eval_fn` |
| Expectimax.Searcher.IterAppend | search/expectimax.py:58-63 | the search of the next beam entry appends its direction and value to the trace and replaces the best only when strictly larger |
| Expectimax.Searcher.Iteration | search/expectimax.py:49-63 | the trace grows by one entry per beam entry, in beam order, each the entry's direction with the value of its root search; the best pair is `Best` of the whole trace, with a direction once any move was searched |
| Expectimax.Searcher.Deepen | search/expectimax.py:47-63 | one deepening iteration at depth d, its root searches appended after the earlier ones, keeps the trace, its best pair and the searches in step |
| Expectimax.Searcher.BestMove | search/expectimax.py:32-68 | the trace is the iterations' traces in depth order, each iteration having searched every beam entry at its depth; all `depth` iterations run unless the last clock reading was past the deadline (lines 45 and 65); the answer is the direction of the first entry reaching the best value, or "up" when none; with depth at least 1, time left and a moving direction, a direction is chosen |

## Left out

- Floating point: all values are exact reals. Rounding in `0.6 * ratio`, in `running / p_seen` and in `time_limit_ms / 1000.0` is not modelled.
- The clock: `time.time()` is the `expired` oracle on successive readings, so the deadline arithmetic is not modelled.
- Randomness: `random.choice` and `random.random()` are the `pick` and `coin` parameters.
- numba and numpy types: the `uint64` board, the `uint16` rows and the `int8` arguments are bit-vectors. The `int32` score of `move_board` is unbounded: each row scores at most the total of its tiles (`RowTables.MergeMass`), so four rows stay far below 2^31 and no wrap-around can occur.
- Expectimax.Searcher.ChanceLoop: the two nested loops over cells and exponents are one loop over outcome indices. The j-th outcome is at cell j / 2 with exponent j % 2 + 1, and the inner `break` followed by the outer one is one early return.
- The chance nodes' break bound: the searcher's `written` flag chooses the chance nodes' break bound. With `written` it is `running + (1 - p_seen) * V_MAX`, as at search/expectimax.py:131 (`SearchValues.UnitMassAsWritten`). Without it, it is the corrected `Upper` over one unit of mass per empty cell (see Findings). The corrected bound's soundness (`SearchValues.UpperBounds`) assumes `eval_fn` is at most `V_MAX`, which `bounded_eval` meets (`Heuristics.BoundedEvalRange`).
- Expectimax.Searcher.Search: the transposition dict is keyed by the board word, not by `hash(board)` (see Findings).
- Expectimax.Searcher.BestMove: `depth` is any integer; depths below 1 run no iteration and answer "up", as `range(1, depth + 1)` does.
- Expectimax.Searcher.Search: each call returns a ghost search tree (`Tree`) recording how its value arose: the deadline, a table entry, a leaf, or a max or chance node over its children's trees. `SoundTree` states what `_expectimax` computes at each kind of node, and the methods' contracts tie their values to these trees. The model does not hold a global log of calls.
- Expectimax.Searcher.Search: it is not proved equal to plain expectimax when the cutoff is 0, beta is `+inf` and `tt` starts empty, because the source does not compute that. A chance node that breaks on its bound stores its partial mean `running / p_seen` in `tt` as if it were exact (search/expectimax.py:137-138). A later call on the same board reuses that entry, and so does any call at a depth no larger than the stored one. Max children after the first are searched with the raised alpha, which allows such breaks even under a root with the full window. `PlainIsExpectimax` proves the equality for every search tree that met no deadline, reused no entry, cut no node and pruned no outcome.
- Expectimax.Searcher.BestMove: the scenario where exponents `[1, 1, 0, …]` at depth 2 give "left" is not proved. It depends on the values of roughly a hundred `bounded_eval` calls on concrete boards and on the clock oracle never expiring, which is beyond what the verifier evaluates in reasonable time. The contract states the rule that decides it: the first entry of the traced iterations that reaches the best value.
- `eval_fn` is assumed total with values in a fixed interval. An evaluation that raises or returns NaN is not modelled.
- `Board.__str__`, `Board.raw` beyond the word itself, and `Board.__eq__` beyond word equality (`BoardObject.Board.Equals`) carry no property.
- The module-level globals `PROB_CUTOFF` and `BEAM_K` are the object `Params`. A search reads them once, at set-up, which matches a run that does not change them mid-search.
- MoveNet: loading the model with `joblib` and `clf.predict` are foreign calls. The prediction is the parameter `Prediction`; only `_features` and the mapping of a prediction are modelled.
- The `bounded_eval` docstring claims the value 1 for an empty board. The code gives 0.6 (`Heuristics.BoundedEvalEmpty`) and never reaches 1 (`Heuristics.BoundedEvalRange`), and the model follows the code.
- `search/fast_expectimax.py`, the pygame interface, the training and simulation scripts and the tests are not part of this model.

## Findings

| source | as written | input that shows it | evidently intended | confidence | as-written member | corrected member |
|---|---|---|---|---|---|---|
| search/expectimax.py:131-135 | The chance node's bound `running + (1 - p_seen) * V_MAX` assumes a total probability mass of 1. A node has mass 1 per empty cell and returns `running / p_seen`. | Two empty cells, alpha 0.6, first outcome worth 0.5: the bound is 0.55 and the loop breaks. With the rest worth 1, the expectation is 0.775. | Break only when the best possible final expectation, `(running + (mass - p_seen) * V_MAX) / mass`, is below alpha | not executed | SearchValues.UpperAsWrittenBreaksEarly | SearchValues.UpperBounds |
| search/expectimax.py:83 | The transposition key is `hash(board)`. `__hash__` returns the 64-bit word, and CPython reduces a word of 2^63 or more modulo 2^61 - 1, so `tt` can hand one board's value to another. | The board with a 2 in cell 0 and a 256 in cell 15 (word 2^63 + 1) and the board with a lone 32 in cell 0 (word 5) both have key 5. | Key the dict by the board word itself | not executed | SearchValues.HashKeyCollides | Expectimax.Searcher.Search |
| algo/movenet.py:28-31 | `1 << exp` on the `uint8` exponent array wraps modulo 256, so every tile from 256 upward encodes as 0 before the cast to `uint16`. | A lone 256 in cell 0 (word 0x8) and a lone 512 there (word 0x9) give the same 17 features. | Compute the tile values in 16 bits, so that 2..32768 are encoded exactly | not executed | MoveNet.FeaturesAsWrittenCollide | MoveNet.FeaturesDetermineBoard |
