# Chess move interpreter — a Dafny model

This project models the core of a small Python program that replays chess
games written in Standard Algebraic Notation (PGN Standard, section 8.2.3)
and renders them as animated pictures. The part modelled is the interpreter
that turns each move string into changes on the board:

- **The board** (`chess/__init__.py`, `main.py`). It is a Python dict from
  square names `'a1'`..`'h8'` to occupant codes: `''` for an empty square, or
  a colour `w`/`b` followed by a kind `k q b n r p`. `load_state` builds all
  64 squares empty, in the order a1..a8, b1..b8, …, h8. It then writes a
  layout over them: `DEFAULT_STATE`, nothing, or a layout read from a file.
- **The interpreter** (`chess/game.py`, class `Game`). `push(move)` takes a
  move with any capture mark `x` already removed. It tells castling,
  promotion, pawn moves and piece moves apart and finds the square the piece
  comes from. Pawns are found by scanning the destination's file. Other pieces
  are found by taking the first board entry that holds the right piece,
  contains the disambiguation character and can reach the destination. It
  then rewrites the origin and destination in place and passes the turn.

The model has eight modules:

- `Wrappers`: the `Result` and `Outcome` types. Python exceptions
  (`KeyError`, `IndexError`, `ValueError`, `StopIteration`) become `Err`
  values.
- `PyStr`: the Python string primitives the code uses, with their own
  semantics. These are negative indices, clamped slices, `str(int)`,
  `int(char)`, `islower`, `lower`, `count` and substring `in`.
- `PyDict`: a dict as its key order plus a map. Assigning a new key appends
  it, so iteration order is modelled.
- `Chess`: `COLUMNS`, `ROWS`, square names and `DEFAULT_STATE`, with an
  independent description of the starting position (`StartingPiece`).
- `Geometry`: the three reachability tests, each proved equal to a reference
  predicate on (file, rank) coordinates.
- `Interpreter`: the board-value functions `Update`, `PawnOrigin`,
  `CastleResult`, `PromoteResult`, `FindNonPawn` and `Apply`, and the class
  `Game`, whose methods change its `state` and `isWhiteRun` fields in place
  and are proved against those functions. It also holds the lemmas that say
  what each kind of move does.
- `Setup`: `load_state` as a method with a loop over the layout, proved
  against a fold `Overlay`.
- `Opening`: the first white moves replayed from `load_state('default')`,
  composing the lemmas of `Setup` and `Interpreter`.

## Model

| member | source | states |
|---|---|---|
| `Chess.Alphabet` | chess/__init__.py:39-42 | the comprehension `[chr(ord(base) + i) for i in range(n)]` has `n` entries, entry `i` being the character `i` places after `base` |
| `Chess.AlphabetsInOrder` | chess/__init__.py:38-42 | `COLUMNS` is `'a'`..`'h'` and `ROWS` is `'1'`..`'8'`, in order; `ROWS[r-1]` is `str(r)` |
| `Chess.SquareNameRoundTrip` | chess/__init__.py:38-42 | `COLUMNS[f] + ROWS[r-1]` is a square name whose file and rank read back as `f` and `r`, and every square name is built that way |
| `Chess.DefaultEntries` | chess/__init__.py:3-36 | entry `i` of the literal is file `i % 8` of rank 8, 7, 2 or 1 (by `i / 8`) and holds that square's starting piece |
| `Chess.SquareNameChars` | chess/__init__.py:38-42 | the name of square (f, r) is the two characters `'a' + f` and `'0' + r` |
| `Chess.DefaultEntry` | chess/__init__.py:3-36 | the same for one entry `i`, from the character-level facts of its rank |
| `Chess.DefaultEntriesRank8` | chess/__init__.py:4-11 | entries of rank 8 in the literal, character by character: the file letter, the digit `8`, and black, `r n b q k b n r` from a to h |
| `Chess.DefaultEntriesRank7` | chess/__init__.py:12-19 | entries of rank 7 in the literal, character by character: the file letter, the digit `7`, and black pawns |
| `Chess.DefaultEntriesRank2` | chess/__init__.py:20-27 | entries of rank 2 in the literal, character by character: the file letter, the digit `2`, and white pawns |
| `Chess.DefaultEntriesRank1` | chess/__init__.py:28-35 | entries of rank 1 in the literal, character by character: the file letter, the digit `1`, and white, `r n b q k b n r` from a to h |
| `Chess.DefaultKeysDistinct` | chess/__init__.py:3-36 | no square appears twice in the literal |
| `Chess.StartingPieceCode` | chess/__init__.py:3-36 | on ranks 1, 2, 7 and 8 the starting piece is a colour plus a kind, white on ranks 1-2 and black on 7-8 |
| `Chess.StartingPositionKeys` | chess/__init__.py:3-36 | a literal listing the starting position builds a valid dict of 32 keys, each a square of rank 1, 2, 7 or 8 holding its starting piece |
| `Chess.StartingPositionCovers` | chess/__init__.py:3-36 | such a literal lists every square of ranks 1, 2, 7 and 8 |
| `Chess.DefaultStateLayout` | chess/__init__.py:3-36 | `DEFAULT_STATE` has exactly 32 distinct entries; every key is a square of rank 1, 2, 7 or 8 holding a piece code equal to the starting piece (pawns on 2 and 7, `r n b q k b n r` on 1 and 8); every square of those ranks is present, so ranks 3-6 are absent |
| `Chess.StartingCorners` | chess/__init__.py:3-36 | any dict laid out as the starting position has `a1` -> `wr` and `e8` -> `bk` |
| `Chess.DefaultStateCorners` | chess/__init__.py:3-36 | `DEFAULT_STATE['a1'] == 'wr'` and `DEFAULT_STATE['e8'] == 'bk'` |
| `Geometry.AllEmptyOnBoard` | chess/game.py:24-26 | the `all(self.state[...] == '' for ...)` over a walk of on-board squares never raises and is true iff every walked square is present and `''` |
| `Geometry.SquaresSumToFive` | chess/game.py:15 | `(abs(dx), abs(dy))` is `(2, 1)` or `(1, 2)` iff `dx² + dy² = 5` |
| `Geometry.CheckKnightMoveIff` | chess/game.py:12-15 | `_check_knight_move` never raises on two strings with a digit in second place, does not read the board, and is true iff the squared distance between the squares is 5 |
| `Geometry.CheckKnightMoveSymmetric` | chess/game.py:12-15 | swapping the two squares gives the same answer |
| `Geometry.CheckKnightMoveCases` | tests/unit/test_game.py:23-46 | d4→e6 and e6→d4 are knight moves, d4→f7 is not |
| `Geometry.RankWalkClear` | chess/game.py:22-24 | for two squares on one rank, the walk over the files strictly between them is all `''` iff the line between them is clear |
| `Geometry.FileWalkClear` | chess/game.py:25-26 | for two squares on one file, the walk over the ranks strictly between them is all `''` iff the line between them is clear |
| `Geometry.CheckLineIff` | chess/game.py:17-28 | on a board holding all 64 squares, `_check_line` never raises and is true iff the squares share a rank or a file and every square strictly between them is `''` |
| `Geometry.DiagonalWalkBetween` | chess/game.py:35-43 | a diagonal walk from one square to the other visits, at steps 1..n-1, exactly the squares strictly between them on that diagonal |
| `Geometry.CheckDiagonalIff` | chess/game.py:30-45 | on a full board `_check_diagonal` never raises and is true iff the squares share a diagonal and every square strictly between them on it is `''`; each of the three branches walks exactly those squares |
| `Geometry.CheckLineSymmetric` | chess/game.py:17-28 | on a full board `_check_line(a, b) == _check_line(b, a)` |
| `Geometry.CheckDiagonalSymmetric` | chess/game.py:30-45 | on a full board `_check_diagonal(a, b) == _check_diagonal(b, a)` |
| `Geometry.CheckSameSquare` | chess/game.py:17-45 | a square is in line and on a diagonal with itself |
| `Geometry.CheckLineOnEmptyBoard` | tests/unit/test_game.py:49-58 | on an empty board a4→e4 and h4→e4 are in line and a5→e4 is not |
| `Interpreter.Game.constructor` | chess/game.py:8-10 | a new game holds the given board, a well-formed dict, so the game's invariant holds from the start; white is to move |
| `Interpreter.Game.UpdateState` | chess/game.py:47-49 | the board becomes `Update(old board)`: `src` set to `''`, then `dest` set to `pt`; every old key stays, in its place |
| `Interpreter.UpdateEffect` | chess/game.py:47-49 | after `_update_state`, `dest` holds `pt`, `src` holds `''` unless it is `dest`, and no other key changes |
| `Interpreter.UpdateKeys` | chess/game.py:47-49 | `_update_state` keeps the existing keys in their order, and adds none when both keys are present |
| `Interpreter.Game.Castle` | chess/game.py:89-101 | the board becomes `CastleResult(old board, turn, move)`; every old key stays, in its place |
| `Interpreter.CastleEffect` | chess/game.py:89-101 | castling writes only rank 1 (white) or rank 8 (black). With exactly two `'O'`s, e and h become `''`, g gets the king and f the rook. Otherwise e and a become `''`, c gets the king and d the rook. All four squares are present afterwards |
| `Interpreter.Game.Promote` | chess/game.py:103-106 | the board becomes `PromoteResult(old board, turn, move)`; every old key stays, in its place |
| `Interpreter.PromoteEffect` | chess/game.py:103-106 | for any move containing `=`, however short, promotion empties `move[0]` + `'7'` (white) or `'2'` (black). It writes colour + lower-cased `move[-1]` to the clamped slice `move[-4:-2]`, searches nothing and changes nothing else |
| `Interpreter.FindNonPawn` | chess/game.py:51-53 | a five-character move names its origin `move[1:3]` without reading the board |
| `Interpreter.NamedPieceMove` | chess/game.py:51-53 | `push` of a five-character piece move (`Nb1d2`) never raises: the board becomes `_update_state(move[1:3], move[3:5], colour + lower-cased move[0])`, whatever stands on either square |
| `Interpreter.ReachAgrees` | chess/game.py:58-65 | on a full board the test chosen by the kind never raises. It is a clear line for `r`, a clear diagonal for `b`, a knight's jump for `n`, and a clear line or a clear diagonal for any other kind, the king included |
| `Interpreter.ScanPiecesFirst` | chess/game.py:59-65 | the `next(...)` scan from entry `i` succeeds iff some later entry holds the piece, contains the hint and reaches the destination. It then returns the first such entry in dict order, and otherwise raises `StopIteration` |
| `Interpreter.ScanPiecesStep` | chess/game.py:59-65 | one step of the scan: an entry that holds the piece, contains the hint and reaches the destination is the answer, and any other entry is passed over |
| `Interpreter.FindNonPawnFirst` | chess/game.py:51-65 | for a three- or four-character move, `_find_non_pawn` returns the first square in dict order holding the piece and containing the hint (`''`, or `move[1]`) whose test passes, and raises `StopIteration` when there is none. Several matches are not rejected |
| `Interpreter.PieceMove` | chess/game.py:118-122 | a three- or four-character piece move succeeds iff such a square exists. The board becomes `_update_state(first such square, move[-2:], colour + lower-cased move[0])`. Otherwise `StopIteration` |
| `Interpreter.ScanDownFirst` | chess/game.py:75 | the white scan down the file from rank `i` succeeds iff some rank `1..i` holds the pawn. It answers the highest such rank and otherwise raises `StopIteration` |
| `Interpreter.ScanUpFirst` | chess/game.py:77 | the black scan up the file from rank `i` succeeds iff some rank `i..8` holds the pawn. It answers the lowest such rank and otherwise raises `StopIteration` |
| `Interpreter.PawnScanFirst` | chess/game.py:72-77 | the pawn scan of the mover's colour finds the pawn nearest the destination, at or behind it, or raises `StopIteration` |
| `Interpreter.PawnAdvance` | chess/game.py:67-77 | on a full board a two-character pawn move succeeds iff the destination's file holds one of the mover's pawns at or behind the destination. The nearest one moves there, with no emptiness check between, and otherwise `StopIteration` is raised |
| `Interpreter.PawnCaptureEffect` | chess/game.py:78-81 | a pawn capture onto an occupied square moves the pawn from `move[0]` + the rank behind the destination. It empties that square and changes nothing else |
| `Interpreter.EnPassantEffect` | chess/game.py:82-85 | a pawn capture onto an empty square also empties the square behind the destination on its own file, removing the pawn taken. Only origin, destination and that square change |
| `Interpreter.EnPassantKeys` | chess/game.py:82-85 | on a full board, an en passant capture with origin and captured square on the board adds no key |
| `Interpreter.CapturedSquare` | chess/game.py:83 | the key cleared is a square on the destination's file, one rank behind it from the mover's side. It equals line 83 as written exactly when white moves |
| `Interpreter.BlackEnPassantAsWritten` | chess/game.py:83-85 | as written, black's capture onto an empty square clears the bare rank `str(r+1)`, which is no square. On a board of squares that key is added and the captured pawn's square keeps its occupant |
| `Interpreter.Game.FindPawn` | chess/game.py:67-87 | returns `PawnOrigin`'s origin and leaves its board (clearing the captured square on en passant). On an exception the board is unchanged |
| `Interpreter.Game.Push` | chess/game.py:108-124 | on success the board becomes `Apply(old board, turn, move)` and the turn flips exactly once. On an exception the error is returned, and board and turn are unchanged. The board stays a valid dict, every old key stays at the front of the key order, and a board holding all 64 squares still holds them |
| `Interpreter.SetExtends` | chess/game.py:48-49 | a dict assignment removes no key and moves none; a new key goes after the old ones |
| `Interpreter.UpdateExtends` | chess/game.py:47-49 | `_update_state` removes no key and keeps the old keys first and in their order |
| `Interpreter.PawnOriginExtends` | chess/game.py:67-87 | `_find_pawn`, when it returns, has removed no key, kept the old keys first and in order, and left the dict well formed |
| `Interpreter.ApplyKeepsKeys` | chess/game.py:108-124 | every move `push` completes, of any kind, removes no key of the board and keeps the old keys first and in their order, so the dict order the piece scans read survives from move to move |
| `Interpreter.ApplyKeepsSquares` | chess/game.py:108-124 | a board holding all 64 squares holds them all after any move `push` completes |
| `Setup.SquareOrderSquares` | main.py:20 | key number `i` of the comprehension is a square of file `i / 8` and rank `i % 8 + 1` |
| `Setup.SquareOrderDistinct` | main.py:20 | the comprehension produces no key twice |
| `Setup.SquareOrderAt` | main.py:20 | square (f, r) is the comprehension's key number `8f + r - 1` |
| `Setup.EmptyBoardValid` | main.py:20 | the comprehension builds a well-formed dict: each key listed once, exactly the map's keys |
| `Setup.EmptyBoardKeys` | main.py:20 | the starting board lists the 64 squares in the order a1..a8, b1..b8, …, h8 |
| `Setup.EmptyBoardSquares` | main.py:20 | every key of the starting board is a square holding `''` |
| `Setup.EmptyBoardFull` | main.py:20 | every square is a key of the starting board |
| `Setup.InitialLayout` | main.py:21-31 | the layout chosen (the file's, `DEFAULT_STATE` or none) is a well-formed dict |
| `Setup.LoadState` | main.py:17-36 | the loop returns `Overlay(empty board, chosen layout)`: the layout's entries written over the empty board in the layout's order |
| `Setup.OverlayValid` | main.py:33-34 | writing entries into a well-formed dict keeps it well formed |
| `Setup.OverlayAt` | main.py:33-34 | after writing the first `n` layout entries, a key is present iff it was already present or was written, and a written value wins |
| `Setup.OverlayAll` | main.py:33-34 | writing a whole layout gives the board's map updated by the layout's map |
| `Setup.OverlayKeys` | main.py:33-34 | when all the layout's keys are already on the board, no key is added and the order is kept |
| `Setup.LoadedShape` | main.py:20-34 | when the chosen layout's keys are squares, the result has exactly the 64 squares in comprehension order. Listed squares take the layout's value and the rest hold `''` |
| `Setup.LoadedDefault` | main.py:29-34 | `load_state('default')` (no such file) is the starting position: 64 squares, each holding exactly its starting piece, `''` on ranks 3-6 |
| `Opening.DefaultIsStartingBoard` | main.py:17-36 | `load_state('default')` with no such file is a well-formed dict of exactly the 64 squares, each holding its starting piece |
| `Opening.PawnHome` | chess/__init__.py:20-27 | white pawns start on rank 2 and on no other square |
| `Opening.KnightHome` | chess/__init__.py:28-35 | white knights start on b1 and g1 and on no other square |
| `Opening.OnlyG1` | chess/game.py:12-15 | of the squares holding a white knight at the start, only g1 is a knight's jump from f3 |
| `Opening.G1Candidate` | chess/game.py:62-63 | on the starting board g1 holds `wn` and passes the knight test towards f3 |
| `Opening.KnightCandidateIsG1` | chess/game.py:62-63 | on the starting board the `next(...)` scan for `Nf3` can accept no square but g1 |
| `Opening.WhitePawnFromStart` | chess/game.py:72-75 | from the starting position white's `e3`..`e6` (any file) moves that file's pawn from rank 2, without checking the squares between |
| `Opening.KingKnightOpening` | chess/game.py:118-122 | from the starting position white's `Nf3` finds the knight on g1, not the one on b1: the board becomes `_update_state('g1', 'f3', 'wn')` |
| `Opening.DefaultOpenings` | main.py:17-36 | from `load_state('default')`, white's pawn moves to ranks 3-6 and `Nf3` succeed and move the pawn from rank 2 and the knight from g1 |
| `Setup.LoadedEmpty` | main.py:22-28 | `load_state` with `'empty'`, or with any name that is neither a file nor `'default'`, gives 64 squares all `''`, including `a1` |

## Left out

- Rendering (`chess/board.py`), reading PGN and layout files (`chess/files.py`, `chess/codec.py`), argument parsing and `main` in `main.py`: image and file I/O. Moves reach `push` as strings with `x` removed.
- `os.path.isfile(arg)` and `load_state_from_file(arg)` are the parameters `isFile` and `fileLayout` of `Setup.LoadState`. The logging calls are left out.
- Aliasing: `Game(state)` keeps the caller's dict object, so the caller sees the moves. The model keeps the board as a value in the `state` field.
- Python strings are modelled on ASCII: `lower`, `islower` and `int` of a one-character string use ASCII letters and digits only.
- `COLUMNS` is assigned twice with the same comprehension (chess/__init__.py:39 and 41). It is modelled once.
- Geometry.CheckLineIff: stated only for boards holding all 64 squares. The `KeyError` a missing square raises is in `CheckLine` but not characterised.
- Geometry.CheckDiagonalIff: stated only for boards holding all 64 squares, like `CheckLineIff`.
- Geometry.CheckLineSymmetric: stated only for boards holding all 64 squares.
- Geometry.CheckDiagonalSymmetric: stated only for boards holding all 64 squares.
- Interpreter.ScanPiecesFirst: stated for full boards whose keys holding the piece are all squares, as every board `load_state` builds is.
- Interpreter.FindNonPawnFirst: stated for full boards whose keys holding the piece are all squares.
- Interpreter.PieceMove: stated for full boards whose keys holding the piece are all squares.
- Interpreter.Game.Push: for black's pawn capture onto an empty square, describes the intended line 83 (the captured pawn's square is cleared), not the stray `str(r+1)` key the line as written clears.
- Interpreter.EnPassantEffect: for black, describes the intended line 83 (the captured pawn's square), not the stray `str(r+1)` key the line as written clears.
- Interpreter.EnPassantKeys: for black, describes the intended line 83; as written, black's en passant adds the key `str(r+1)` to the board.
- Interpreter.Game.FindPawn: clears the intended captured square on en passant, not line 83's key. The code as written is kept in `Interpreter.CapturedKeyAsWritten` and `Interpreter.EmptyCaptureAsWritten` (see Findings).
- Legality that the program never checks (check, pins, en passant eligibility, ambiguous moves, king adjacency) is not modelled. Kings are found with the queen's line-or-diagonal test, as in the code.
- Several functions in `tests/unit/test_game.py` (`load_empty_state`, module-level `check_knight_move`, `check_line`) are not part of this model. Their cases are stated about the `Game` tests they correspond to.

## Findings

| source | as written | input that shows it | evidently intended | confidence | as-written member | corrected member |
|---|---|---|---|---|---|---|
| chess/game.py:83 | `c + (str(r - 1)) if self.is_white_run else str(r + 1)` parses as `(c + str(r - 1)) if white else str(r + 1)`; for black the key cleared is the bare rank | black plays `ed3` (from `exd3`) onto an empty d3 with a white pawn on d4: the key `'4'` is added to the board and d4 keeps its pawn | clear `c + str(r + 1)`, the captured pawn's square, for black as for white | not executed | `Interpreter.BlackEnPassantAsWritten` | `Interpreter.CapturedSquare` |
