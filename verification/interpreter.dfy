/**
 * The move interpreter of `chess/game.py`: class `Game` holds the board dict
 * and whose turn it is, and `push` applies one move in Standard Algebraic
 * Notation (with any capture mark `x` already removed) by finding the moving
 * piece's origin and rewriting squares in place.
 *
 * Each state-changing method of `Game` is proved against a function on board
 * values (`Update`, `PawnOrigin`, `CastleResult`, `PromoteResult`, `Apply`);
 * the read-only scans (`_find_non_pawn`, the `next(...)` of `_find_pawn`) are
 * functions outright. Python exceptions are `Err` results.
 */
module Interpreter {
  import opened Wrappers
  import opened PyStr
  import opened PyDict
  import opened Chess
  import opened Geometry

  /** `'w' if self.is_white_run else 'b'`. */
  function Colour(white: bool): (c: string)
    ensures |c| == 1 && c[0] in COLOURS
    ensures (c == "w") == white
  {
    if white then "w" else "b"
  }

  /** `_update_state` (game.py:47-49) on a board value: `src` is emptied first, then `dest` is written. */
  function Update(st: Dict, src: string, dest: string, pt: string): (d: Dict)
    ensures st.Valid() ==> d.Valid()
  {
    st.Set(src, "").Set(dest, pt)
  }

  // ---------------------------------------------------------------------
  // _find_non_pawn (game.py:51-65)
  // ---------------------------------------------------------------------

  /**
   * The reachability test `_find_non_pawn` applies for a piece kind: line for
   * a rook, diagonal for a bishop, knight jump for a knight, and line-or-
   * diagonal (short-circuit `or`) for anything else, the king included.
   */
  function Reach(kind: char, st: Dict, s: string, to: string): Result<bool> {
    if kind == 'r' then CheckLine(st, s, to)
    else if kind == 'b' then CheckDiagonal(st, s, to)
    else if kind == 'n' then CheckKnightMove(s, to)
    else
      var line :- CheckLine(st, s, to);
      if line then Ok(true) else CheckDiagonal(st, s, to)
  }

  /**
   * `next(s for s, pt in self.state.items() if pt == piece and key in s and
   * <reach>(s, to))`, from the `i`-th entry on: the conditions are tried left
   * to right, the first entry that passes is the answer, an exhausted
   * generator raises `StopIteration`.
   */
  function ScanPieces(st: Dict, i: nat, piece: string, kind: char, hint: string, to: string): Result<string>
    requires st.Valid() && i <= |st.keys|
    decreases |st.keys| - i
  {
    if i == |st.keys| then Err(StopIteration)
    else
      var s := st.keys[i];
      if st.vals[s] == piece && Contains(s, hint) then
        var ok :- Reach(kind, st, s, to);
        if ok then Ok(s) else ScanPieces(st, i + 1, piece, kind, hint, to)
      else
        ScanPieces(st, i + 1, piece, kind, hint, to)
  }

  /** `'' if len(move) == 3 else move[1]`. */
  function Hint(move: string): Result<string> {
    if |move| == 3 then Ok("")
    else
      var h :- Index(move, 1);
      Ok([h])
  }

  /** `_find_non_pawn`: the square the piece `piece` moves from to reach `to`. */
  function FindNonPawn(st: Dict, move: string, to: string, piece: string): (r: Result<string>)
    requires st.Valid()
    ensures |move| == 5 ==> r == Ok(move[1..3])
  {
    if |move| == 5 then Ok(Slice(move, 1, 3))
    else
      var p :- Index(piece, 1);
      var hint :- Hint(move);
      ScanPieces(st, 0, piece, p, hint, to)
  }

  // ---------------------------------------------------------------------
  // _find_pawn (game.py:67-87)
  // ---------------------------------------------------------------------

  /**
   * `next(str(i) for i in range(i, 0, -1) if self.state[c + str(i)] == pt)`:
   * the white pawn scan, down the file from rank `i`.
   */
  function ScanDown(st: Dict, c: char, i: int, pt: string): Result<string>
    decreases i
  {
    if i <= 0 then Err(StopIteration)
    else
      var key := [c] + IntStr(i);
      if key !in st.vals then Err(KeyError(key))
      else if st.vals[key] == pt then Ok(IntStr(i))
      else ScanDown(st, c, i - 1, pt)
  }

  /**
   * `next(str(i) for i in range(i, 9) if self.state[c + str(i)] == pt)`:
   * the black pawn scan, up the file from rank `i`.
   */
  function ScanUp(st: Dict, c: char, i: int, pt: string): Result<string>
    decreases 9 - i
  {
    if i >= 9 then Err(StopIteration)
    else
      var key := [c] + IntStr(i);
      if key !in st.vals then Err(KeyError(key))
      else if st.vals[key] == pt then Ok(IntStr(i))
      else ScanUp(st, c, i + 1, pt)
  }

  /** What `_find_pawn` leaves behind: the board (it may clear one entry) and the origin it returns. */
  datatype PawnFound = PawnFound(state: Dict, origin: string)

  /** The rank one step behind rank `r`, seen from the mover's side. */
  function Behind(white: bool, r: int): int {
    if white then r - 1 else r + 1
  }

  /**
   * The square `_find_pawn` clears on a capture onto an empty square (en
   * passant): file `c` of the destination, one rank behind it. Line 83 as
   * written clears another key for black; see `CapturedKeyAsWritten`.
   */
  function CapturedKey(c: char, r: int, white: bool): string {
    [c] + IntStr(Behind(white, r))
  }

  /** `_find_pawn` on a board value. */
  function PawnOrigin(st: Dict, white: bool, move: string): Result<PawnFound> {
    var c :- Index(move, -2);
    var r :- DigitValue(move[|move| - 1]);
    if |move| == 2 then
      var row :- if white then ScanDown(st, c, r, "wp") else ScanUp(st, c, r, "bp");
      Ok(PawnFound(st, [c] + row))
    else
      var dest := LastTwo(move);
      if dest !in st.vals then Err(KeyError(dest))
      else if st.vals[dest] != "" then
        Ok(PawnFound(st, [move[0]] + IntStr(if white then r - 1 else r + 1)))
      else
        var nps := CapturedKey(c, r, white);
        Ok(PawnFound(st.Set(nps, ""), [move[0], nps[|nps| - 1]]))
  }

  // ---------------------------------------------------------------------
  // _castle, _promote, push (game.py:89-124)
  // ---------------------------------------------------------------------

  /** `_castle`: two `'O'`s castle king side, anything else queen side. */
  function CastleResult(st: Dict, white: bool, move: string): Dict {
    var row := if white then "1" else "8";
    var colour := Colour(white);
    if Count(move, 'O') == 2 then
      Update(Update(st, "e" + row, "g" + row, colour + "k"), "h" + row, "f" + row, colour + "r")
    else
      Update(Update(st, "e" + row, "c" + row, colour + "k"), "a" + row, "d" + row, colour + "r")
  }

  /** `_promote`: the pawn on the seventh (second) rank of file `move[0]` becomes `move[-1]`. */
  function PromoteResult(st: Dict, white: bool, move: string): Dict
    requires '=' in move
  {
    var pt := Colour(white) + [Lower(move[|move| - 1])];
    var origin := [move[0]] + (if white then "7" else "2");
    Update(st, origin, Slice(move, -4, -2), pt)
  }

  /** The board after `push(move)`, or the exception `push` raises. */
  function Apply(st: Dict, white: bool, move: string): Result<Dict>
    requires st.Valid()
  {
    if 'O' in move then Ok(CastleResult(st, white, move))
    else if '=' in move then Ok(PromoteResult(st, white, move))
    else
      var dest := LastTwo(move);
      if IsLower(move) then
        var found :- PawnOrigin(st, white, move);
        Ok(Update(found.state, found.origin, dest, Colour(white) + "p"))
      else
        var m0 :- Index(move, 0);
        var pt := Colour(white) + [Lower(m0)];
        var origin :- FindNonPawn(st, move, dest, pt);
        Ok(Update(st, origin, dest, pt))
  }

  /** `Game` (game.py:6-124): the board it rewrites and whose move is next. */
  class Game {
    var state: Dict
    var isWhiteRun: bool

    /** The board is a well-formed dict. */
    ghost predicate Valid()
      reads this
    {
      state.Valid()
    }

    constructor (state: Dict)
      requires state.Valid()
      ensures this.state == state && isWhiteRun
      ensures Valid()
    {
      this.isWhiteRun := true;
      this.state := state;
    }

    method UpdateState(src: string, dest: string, pt: string)
      modifies this`state
      ensures state == Update(old(state), src, dest, pt)
      ensures Extends(old(state), state)
    {
      state := state.Set(src, "");
      state := state.Set(dest, pt);
      UpdateExtends(old(state), src, dest, pt);
    }

    method FindPawn(move: string) returns (r: Result<string>)
      modifies this`state
      ensures PawnOrigin(old(state), isWhiteRun, move).Ok? ==>
        r == Ok(PawnOrigin(old(state), isWhiteRun, move).value.origin) &&
        state == PawnOrigin(old(state), isWhiteRun, move).value.state
      ensures PawnOrigin(old(state), isWhiteRun, move).Err? ==>
        r == Err(PawnOrigin(old(state), isWhiteRun, move).error) && state == old(state)
    {
      var pt := if isWhiteRun then "wp" else "bp";
      var c :- Index(move, -2);
      var rank :- DigitValue(move[|move| - 1]);
      var origin: string;
      if |move| == 2 {
        var row :- if isWhiteRun then ScanDown(state, c, rank, pt) else ScanUp(state, c, rank, pt);
        origin := [c] + row;
      } else {
        var dest := LastTwo(move);
        if dest !in state.vals {
          return Err(KeyError(dest));
        }
        if state.vals[dest] != "" {
          origin := [move[0]] + IntStr(if isWhiteRun then rank - 1 else rank + 1);
        } else {
          var nps := [c] + IntStr(if isWhiteRun then rank - 1 else rank + 1);
          state := state.Set(nps, "");
          origin := [move[0], nps[|nps| - 1]];
        }
      }
      assert PawnOrigin(old(state), isWhiteRun, move) == Ok(PawnFound(state, origin));
      return Ok(origin);
    }

    method Castle(move: string)
      modifies this`state
      ensures state == CastleResult(old(state), isWhiteRun, move)
      ensures Extends(old(state), state)
    {
      var row, colour := if isWhiteRun then "1" else "8", Colour(isWhiteRun);
      var rook, kingTo, rookTo;
      if Count(move, 'O') == 2 {
        rook, kingTo, rookTo := "h" + row, "g" + row, "f" + row;
      } else {
        rook, kingTo, rookTo := "a" + row, "c" + row, "d" + row;
      }
      UpdateState("e" + row, kingTo, colour + "k");
      ghost var mid := state;
      UpdateState(rook, rookTo, colour + "r");
      ExtendsTrans(old(state), mid, state);
    }

    method Promote(move: string)
      requires '=' in move
      modifies this`state
      ensures state == PromoteResult(old(state), isWhiteRun, move)
      ensures Extends(old(state), state)
    {
      var pt := Colour(isWhiteRun) + [Lower(move[|move| - 1])];
      var origin := [move[0]] + (if isWhiteRun then "7" else "2");
      UpdateState(origin, Slice(move, -4, -2), pt);
    }

    /**
     * `push`: on success the board is `Apply`'s and the turn passes; on an
     * exception nothing has been written and the turn stays.
     */
    method Push(move: string) returns (r: Outcome)
      requires Valid()
      modifies this
      ensures Valid()
      ensures Apply(old(state), old(isWhiteRun), move).Ok? ==>
        r == Pass && state == Apply(old(state), old(isWhiteRun), move).value && isWhiteRun == !old(isWhiteRun)
      ensures Apply(old(state), old(isWhiteRun), move).Err? ==>
        r == Fail(Apply(old(state), old(isWhiteRun), move).error) && state == old(state) && isWhiteRun == old(isWhiteRun)
      ensures Extends(old(state), state)
      ensures HasAllSquares(old(state)) ==> HasAllSquares(state)
    {
      ghost var mid := state;
      ExtendsRefl(state);
      if 'O' in move {
        Castle(move);
      } else if '=' in move {
        Promote(move);
      } else {
        var dest := LastTwo(move);
        var pt, origin;
        if IsLower(move) {
          pt := Colour(isWhiteRun) + "p";
          var found := FindPawn(move);
          if found.Err? {
            return Fail(found.error);
          }
          origin := found.value;
          PawnOriginExtends(old(state), isWhiteRun, move);
        } else {
          var m0 := Index(move, 0);
          if m0.Err? {
            return Fail(m0.error);
          }
          pt := Colour(isWhiteRun) + [Lower(m0.value)];
          var o := FindNonPawn(state, move, dest, pt);
          if o.Err? {
            return Fail(o.error);
          }
          origin := o.value;
        }
        mid := state;
        UpdateState(origin, dest, pt);
      }
      ExtendsTrans(old(state), mid, state);
      ExtendsSquares(old(state), state);
      isWhiteRun := !isWhiteRun;
      r := Pass;
    }
  }

  // ---------------------------------------------------------------------
  // What each kind of move writes
  // ---------------------------------------------------------------------

  /**
   * `_update_state` leaves `dest` holding `pt` and `src` empty (unless they
   * are the same key) and changes no other key.
   */
  lemma UpdateEffect(st: Dict, src: string, dest: string, pt: string)
    ensures dest in Update(st, src, dest, pt).vals && Update(st, src, dest, pt).vals[dest] == pt
    ensures src != dest ==> src in Update(st, src, dest, pt).vals && Update(st, src, dest, pt).vals[src] == ""
    ensures SameExcept(st, Update(st, src, dest, pt), {src, dest})
  {
    assert Update(st, src, dest, pt).vals == st.vals[src := ""][dest := pt];
  }

  /**
   * `_update_state` keeps the existing keys in their order; when both keys
   * are already present it adds none.
   */
  lemma UpdateKeys(st: Dict, src: string, dest: string, pt: string)
    ensures |st.keys| <= |Update(st, src, dest, pt).keys| && Update(st, src, dest, pt).keys[..|st.keys|] == st.keys
    ensures src in st.vals && dest in st.vals ==> Update(st, src, dest, pt).keys == st.keys
  {
    var mid := st.Set(src, "");
    SetEffect(st, src, "");
    SetEffect(mid, dest, pt);
    var d := mid.Set(dest, pt);
    assert d.keys[..|st.keys|] == d.keys[..|mid.keys|][..|st.keys|];
  }

  /**
   * Castling writes only the four squares of the mover's back rank (rank 1
   * for white, 8 for black): two `'O'`s empty e and h and put the king on g
   * and the rook on f; otherwise e and a are emptied, the king goes to c and
   * the rook to d.
   */
  lemma CastleEffect(st: Dict, white: bool, move: string)
    requires st.Valid()
    ensures var row, d := if white then "1" else "8", CastleResult(st, white, move);
      if Count(move, 'O') == 2 then
        SameExcept(st, d, {"e" + row, "h" + row, "g" + row, "f" + row}) &&
        d.vals.Keys >= {"e" + row, "h" + row, "g" + row, "f" + row} &&
        d.vals["e" + row] == "" && d.vals["h" + row] == "" &&
        d.vals["g" + row] == Colour(white) + "k" && d.vals["f" + row] == Colour(white) + "r"
      else
        SameExcept(st, d, {"e" + row, "a" + row, "c" + row, "d" + row}) &&
        d.vals.Keys >= {"e" + row, "a" + row, "c" + row, "d" + row} &&
        d.vals["e" + row] == "" && d.vals["a" + row] == "" &&
        d.vals["c" + row] == Colour(white) + "k" && d.vals["d" + row] == Colour(white) + "r"
  {
    var row, colour := if white then "1" else "8", Colour(white);
    assert ("e" + row)[0] == 'e' && ("a" + row)[0] == 'a' && ("c" + row)[0] == 'c' && ("d" + row)[0] == 'd';
    assert ("f" + row)[0] == 'f' && ("g" + row)[0] == 'g' && ("h" + row)[0] == 'h';
    if Count(move, 'O') == 2 {
      UpdateTwice(st, "e" + row, "g" + row, colour + "k", "h" + row, "f" + row, colour + "r");
    } else {
      UpdateTwice(st, "e" + row, "c" + row, colour + "k", "a" + row, "d" + row, colour + "r");
    }
  }

  /** Two moves between four distinct keys change those four and nothing else. */
  lemma UpdateTwice(st: Dict, a: string, b: string, p: string, c: string, e: string, q: string)
    requires a != b && a != c && a != e && b != c && b != e && c != e
    ensures var d := Update(Update(st, a, b, p), c, e, q);
      SameExcept(st, d, {a, b, c, e}) && d.vals.Keys >= {a, b, c, e} &&
      d.vals[a] == "" && d.vals[b] == p && d.vals[c] == "" && d.vals[e] == q
  {
    assert Update(Update(st, a, b, p), c, e, q).vals == st.vals[a := ""][b := p][c := ""][e := q];
  }

  /**
   * Promotion searches nothing: the square `move[0]` + 7 (white) or 2
   * (black) is emptied and `move[-4:-2]` receives the mover's colour and the
   * lower-cased last character; nothing else changes.
   */
  lemma PromoteEffect(st: Dict, white: bool, move: string)
    requires st.Valid() && '=' in move
    ensures var origin, dest, d := [move[0], if white then '7' else '2'], Slice(move, -4, -2),
        PromoteResult(st, white, move);
      SameExcept(st, d, {origin, dest}) &&
      dest in d.vals && d.vals[dest] == Colour(white) + [Lower(move[|move| - 1])] &&
      (origin != dest ==> origin in d.vals && d.vals[origin] == "")
  {
    var origin := [move[0]] + (if white then "7" else "2");
    assert origin == [move[0], if white then '7' else '2'];
    UpdateEffect(st, origin, Slice(move, -4, -2), Colour(white) + [Lower(move[|move| - 1])]);
  }

  // ---------------------------------------------------------------------
  // What every move keeps
  // ---------------------------------------------------------------------

  /** `e` keeps every key of `d`, and `d`'s keys stay first and in their order. */
  ghost predicate Extends(d: Dict, e: Dict) {
    |d.keys| <= |e.keys| && e.keys[..|d.keys|] == d.keys && d.vals.Keys <= e.vals.Keys
  }

  lemma ExtendsRefl(d: Dict)
    ensures Extends(d, d)
  {
  }

  lemma ExtendsTrans(d: Dict, e: Dict, f: Dict)
    requires Extends(d, e) && Extends(e, f)
    ensures Extends(d, f)
  {
    assert f.keys[..|d.keys|] == f.keys[..|e.keys|][..|d.keys|];
  }

  /** `d[k] = v` removes no key and moves none. */
  lemma SetExtends(d: Dict, k: string, v: string)
    ensures Extends(d, d.Set(k, v))
  {
    SetEffect(d, k, v);
  }

  /** `_update_state` removes no key and moves none. */
  lemma UpdateExtends(st: Dict, src: string, dest: string, pt: string)
    ensures Extends(st, Update(st, src, dest, pt))
  {
    SetExtends(st, src, "");
    SetExtends(st.Set(src, ""), dest, pt);
    ExtendsTrans(st, st.Set(src, ""), Update(st, src, dest, pt));
  }

  /** `_find_pawn` at most writes the captured square, which removes no key and keeps the dict well formed. */
  lemma PawnOriginExtends(st: Dict, white: bool, move: string)
    ensures PawnOrigin(st, white, move).Ok? ==> Extends(st, PawnOrigin(st, white, move).value.state)
    ensures PawnOrigin(st, white, move).Ok? && st.Valid() ==> PawnOrigin(st, white, move).value.state.Valid()
  {
    var found := PawnOrigin(st, white, move);
    if found.Ok? && found.value.state != st {
      var c, r := move[|move| - 2], DigitValue(move[|move| - 1]).value;
      assert found.value.state == st.Set(CapturedKey(c, r, white), "");
      SetExtends(st, CapturedKey(c, r, white), "");
    }
  }

  /**
   * Every move that succeeds removes no key of the board and keeps the keys
   * it had first and in their order, so the dict order the scans depend on
   * survives from one move to the next.
   */
  lemma ApplyKeepsKeys(st: Dict, white: bool, move: string)
    requires st.Valid()
    ensures Apply(st, white, move).Ok? ==> Extends(st, Apply(st, white, move).value)
  {
    var row, colour := if white then "1" else "8", Colour(white);
    if 'O' in move {
      var king := if Count(move, 'O') == 2 then "g" + row else "c" + row;
      var rook := if Count(move, 'O') == 2 then "h" + row else "a" + row;
      var rookTo := if Count(move, 'O') == 2 then "f" + row else "d" + row;
      var mid := Update(st, "e" + row, king, colour + "k");
      assert CastleResult(st, white, move) == Update(mid, rook, rookTo, colour + "r");
      UpdateExtends(st, "e" + row, king, colour + "k");
      UpdateExtends(mid, rook, rookTo, colour + "r");
      ExtendsTrans(st, mid, CastleResult(st, white, move));
    } else if '=' in move {
      UpdateExtends(st, [move[0]] + (if white then "7" else "2"), Slice(move, -4, -2), colour + [Lower(move[|move| - 1])]);
    } else if Apply(st, white, move).Ok? {
      var dest := LastTwo(move);
      if IsLower(move) {
        var found := PawnOrigin(st, white, move).value;
        PawnOriginExtends(st, white, move);
        UpdateExtends(found.state, found.origin, dest, colour + "p");
        ExtendsTrans(st, found.state, Apply(st, white, move).value);
      } else {
        var pt := colour + [Lower(move[0])];
        UpdateExtends(st, FindNonPawn(st, move, dest, pt).value, dest, pt);
      }
    }
  }

  /** A board holding all 64 squares holds them all after any move that succeeds. */
  lemma ApplyKeepsSquares(st: Dict, white: bool, move: string)
    requires st.Valid() && HasAllSquares(st)
    ensures Apply(st, white, move).Ok? ==> HasAllSquares(Apply(st, white, move).value)
  {
    ApplyKeepsKeys(st, white, move);
    if Apply(st, white, move).Ok? {
      ExtendsSquares(st, Apply(st, white, move).value);
    }
  }

  /** A board that keeps every key of a board holding all 64 squares holds them all too. */
  lemma ExtendsSquares(d: Dict, e: Dict)
    requires Extends(d, e)
    ensures HasAllSquares(d) ==> HasAllSquares(e)
  {
  }

  // ---------------------------------------------------------------------
  // Finding the piece that moves
  // ---------------------------------------------------------------------

  /**
   * What the reachability test for piece kind `kind` means on the board: a
   * clear line for a rook, a clear diagonal for a bishop, a knight's jump for
   * a knight, a clear line or diagonal for any other kind.
   */
  ghost predicate ReachRef(kind: char, st: Dict, s: string, to: string)
    requires IsSquare(s) && IsSquare(to)
  {
    if kind == 'r' then LineClear(st, s, to)
    else if kind == 'b' then DiagonalClear(st, s, to)
    else if kind == 'n' then KnightJump(s, to)
    else LineClear(st, s, to) || DiagonalClear(st, s, to)
  }

  /** On a full board the reachability test never raises and agrees with `ReachRef`. */
  lemma ReachAgrees(kind: char, st: Dict, s: string, to: string)
    requires HasAllSquares(st) && IsSquare(s) && IsSquare(to)
    ensures Reach(kind, st, s, to) == Ok(ReachRef(kind, st, s, to))
  {
    CheckLineIff(st, s, to);
    CheckDiagonalIff(st, s, to);
    CheckKnightMoveIff(s, to);
  }

  /** Square `s` holds `piece`, contains the disambiguation `hint`, and the piece there reaches `to`. */
  ghost predicate Candidate(st: Dict, s: string, piece: string, kind: char, hint: string, to: string) {
    s in st.vals && st.vals[s] == piece && Contains(s, hint) &&
    IsSquare(s) && IsSquare(to) && ReachRef(kind, st, s, to)
  }

  /** Every key holding `piece` is a square name. */
  ghost predicate PieceOnSquares(st: Dict, piece: string) {
    forall k :: k in st.vals && st.vals[k] == piece ==> IsSquare(k)
  }

  /**
   * On a full board whose keys holding `piece` are squares, the scan from entry
   * `i` succeeds iff some later entry is a candidate, answers the first such
   * entry in the dict's order, and otherwise raises `StopIteration`.
   */
  lemma {:induction false} ScanPiecesFirst(st: Dict, i: nat, piece: string, kind: char, hint: string, to: string)
    requires st.Valid() && i <= |st.keys| && HasAllSquares(st) && IsSquare(to) && PieceOnSquares(st, piece)
    ensures ScanPieces(st, i, piece, kind, hint, to).Ok? <==>
      exists j :: i <= j < |st.keys| && Candidate(st, st.keys[j], piece, kind, hint, to)
    ensures ScanPieces(st, i, piece, kind, hint, to).Ok? ==>
      exists j :: i <= j < |st.keys| && ScanPieces(st, i, piece, kind, hint, to).value == st.keys[j] &&
        Candidate(st, st.keys[j], piece, kind, hint, to) &&
        forall k :: i <= k < j ==> !Candidate(st, st.keys[k], piece, kind, hint, to)
    ensures ScanPieces(st, i, piece, kind, hint, to).Err? ==>
      ScanPieces(st, i, piece, kind, hint, to).error == StopIteration
    decreases |st.keys| - i
  {
    if i < |st.keys| {
      var s := st.keys[i];
      ScanPiecesFirst(st, i + 1, piece, kind, hint, to);
      ScanPiecesStep(st, i, piece, kind, hint, to);
      if !Candidate(st, s, piece, kind, hint, to) {
        assert forall j :: i <= j < |st.keys| && Candidate(st, st.keys[j], piece, kind, hint, to) ==> i + 1 <= j;
      }
    }
  }

  /** One step of the scan: a candidate entry is the answer, any other entry is passed over. */
  lemma ScanPiecesStep(st: Dict, i: nat, piece: string, kind: char, hint: string, to: string)
    requires st.Valid() && i < |st.keys| && HasAllSquares(st) && IsSquare(to) && PieceOnSquares(st, piece)
    ensures ScanPieces(st, i, piece, kind, hint, to) ==
      if Candidate(st, st.keys[i], piece, kind, hint, to) then Ok(st.keys[i])
      else ScanPieces(st, i + 1, piece, kind, hint, to)
  {
    var s := st.keys[i];
    if st.vals[s] == piece && Contains(s, hint) {
      ReachAgrees(kind, st, s, to);
    }
  }

  /**
   * `_find_non_pawn` for a three- or four-character move: `piece[1]` picks the
   * test and the hint is `''` or `move[1]`; the answer is the first square in
   * the dict's order whose piece passes it, or `StopIteration`.
   */
  lemma FindNonPawnFirst(st: Dict, move: string, to: string, piece: string)
    requires st.Valid() && HasAllSquares(st) && IsSquare(to) && PieceOnSquares(st, piece)
    requires |piece| >= 2 && (|move| == 3 || |move| == 4)
    ensures var hint := if |move| == 3 then "" else [move[1]];
      FindNonPawn(st, move, to, piece).Ok? <==>
      exists j :: 0 <= j < |st.keys| && Candidate(st, st.keys[j], piece, piece[1], hint, to)
    ensures var hint := if |move| == 3 then "" else [move[1]];
      FindNonPawn(st, move, to, piece).Ok? ==>
      exists j :: 0 <= j < |st.keys| && FindNonPawn(st, move, to, piece).value == st.keys[j] &&
        Candidate(st, st.keys[j], piece, piece[1], hint, to) &&
        forall k :: 0 <= k < j ==> !Candidate(st, st.keys[k], piece, piece[1], hint, to)
    ensures FindNonPawn(st, move, to, piece).Err? ==> FindNonPawn(st, move, to, piece).error == StopIteration
  {
    var hint := if |move| == 3 then "" else [move[1]];
    assert FindNonPawn(st, move, to, piece) == ScanPieces(st, 0, piece, piece[1], hint, to);
    ScanPiecesFirst(st, 0, piece, piece[1], hint, to);
  }

  /**
   * A three- or four-character piece move (`Nf3`, `Rad1`) on a full board:
   * `push` succeeds iff some square holds the mover's piece of that kind,
   * contains the hint and reaches the destination; the first such square in
   * the dict's order moves there, and with none `StopIteration` is raised.
   */
  lemma PieceMove(st: Dict, white: bool, move: string)
    requires st.Valid() && HasAllSquares(st) && (|move| == 3 || |move| == 4)
    requires 'O' !in move && '=' !in move && !IsLower(move) && IsSquare(move[|move| - 2..])
    requires PieceOnSquares(st, Colour(white) + [Lower(move[0])])
    ensures var pt, dest, hint := Colour(white) + [Lower(move[0])], move[|move| - 2..], if |move| == 3 then "" else [move[1]];
      Apply(st, white, move).Ok? <==>
      exists j :: 0 <= j < |st.keys| && Candidate(st, st.keys[j], pt, pt[1], hint, dest)
    ensures var pt, dest, hint := Colour(white) + [Lower(move[0])], move[|move| - 2..], if |move| == 3 then "" else [move[1]];
      Apply(st, white, move).Ok? ==>
      exists j :: 0 <= j < |st.keys| && Candidate(st, st.keys[j], pt, pt[1], hint, dest) &&
        (forall k :: 0 <= k < j ==> !Candidate(st, st.keys[k], pt, pt[1], hint, dest)) &&
        Apply(st, white, move).value == Update(st, st.keys[j], dest, pt)
    ensures Apply(st, white, move).Err? ==> Apply(st, white, move).error == StopIteration
  {
    var pt, dest := Colour(white) + [Lower(move[0])], move[|move| - 2..];
    var found := FindNonPawn(st, move, dest, pt);
    assert Apply(st, white, move) == if found.Ok? then Ok(Update(st, found.value, dest, pt)) else Err(found.error);
    FindNonPawnFirst(st, move, dest, pt);
  }

  /**
   * A five-character piece move (`Nb1d2`) names its origin: `push` searches
   * nothing and moves the mover's piece from `move[1:3]` to `move[3:5]`.
   */
  lemma NamedPieceMove(st: Dict, white: bool, move: string)
    requires st.Valid() && |move| == 5 && 'O' !in move && '=' !in move && !IsLower(move)
    ensures Apply(st, white, move) == Ok(Update(st, move[1..3], move[3..5], Colour(white) + [Lower(move[0])]))
  {
    assert LastTwo(move) == move[3..5];
  }

  // ---------------------------------------------------------------------
  // The pawn scans
  // ---------------------------------------------------------------------

  /** The key `c + str(j)` holds `pt`. */
  ghost predicate HoldsAt(st: Dict, c: char, j: int, pt: string) {
    [c] + IntStr(j) in st.vals && st.vals[[c] + IntStr(j)] == pt
  }

  /**
   * When the file's keys from rank 1 up to `i` are present, the white scan
   * succeeds iff some rank `j` in 1..i holds `pt`, and then it answers the
   * highest such `j`; otherwise it raises `StopIteration`.
   */
  lemma {:induction false} ScanDownFirst(st: Dict, c: char, i: int, pt: string)
    requires forall j :: 1 <= j <= i ==> [c] + IntStr(j) in st.vals
    ensures ScanDown(st, c, i, pt).Ok? <==> exists j :: 1 <= j <= i && HoldsAt(st, c, j, pt)
    ensures ScanDown(st, c, i, pt).Ok? ==>
      exists j :: 1 <= j <= i && ScanDown(st, c, i, pt).value == IntStr(j) && HoldsAt(st, c, j, pt) &&
        forall k :: j < k <= i ==> !HoldsAt(st, c, k, pt)
    ensures ScanDown(st, c, i, pt).Err? ==> ScanDown(st, c, i, pt).error == StopIteration
    decreases i
  {
    if i > 0 && !HoldsAt(st, c, i, pt) {
      ScanDownFirst(st, c, i - 1, pt);
      if ScanDown(st, c, i - 1, pt).Ok? {
        var j :| 1 <= j <= i - 1 && ScanDown(st, c, i - 1, pt).value == IntStr(j) && HoldsAt(st, c, j, pt) &&
          forall k :: j < k <= i - 1 ==> !HoldsAt(st, c, k, pt);
        assert forall k :: j < k <= i ==> !HoldsAt(st, c, k, pt);
      }
    }
  }

  /**
   * When the file's keys from rank `i` up to 8 are present, the black scan
   * succeeds iff some rank `j` in i..8 holds `pt`, and then it answers the
   * lowest such `j`; otherwise it raises `StopIteration`.
   */
  lemma {:induction false} ScanUpFirst(st: Dict, c: char, i: int, pt: string)
    requires forall j :: i <= j <= 8 ==> [c] + IntStr(j) in st.vals
    ensures ScanUp(st, c, i, pt).Ok? <==> exists j :: i <= j <= 8 && HoldsAt(st, c, j, pt)
    ensures ScanUp(st, c, i, pt).Ok? ==>
      exists j :: i <= j <= 8 && ScanUp(st, c, i, pt).value == IntStr(j) && HoldsAt(st, c, j, pt) &&
        forall k :: i <= k < j ==> !HoldsAt(st, c, k, pt)
    ensures ScanUp(st, c, i, pt).Err? ==> ScanUp(st, c, i, pt).error == StopIteration
    decreases 9 - i
  {
    if i < 9 && !HoldsAt(st, c, i, pt) {
      ScanUpFirst(st, c, i + 1, pt);
      if ScanUp(st, c, i + 1, pt).Ok? {
        var j :| i + 1 <= j <= 8 && ScanUp(st, c, i + 1, pt).value == IntStr(j) && HoldsAt(st, c, j, pt) &&
          forall k :: i + 1 <= k < j ==> !HoldsAt(st, c, k, pt);
        assert forall k :: i <= k < j ==> !HoldsAt(st, c, k, pt);
      }
    }
  }

  /** Rank `j` is on the board and at or behind rank `r` from the mover's side. */
  ghost predicate PawnBehind(white: bool, r: int, j: int) {
    1 <= j <= 8 && if white then j <= r else r <= j
  }

  /** On file `c`, the key for rank `j` is the square's name. */
  lemma FileKeys(c: char)
    requires 'a' <= c <= 'h'
    ensures forall j :: 1 <= j <= 8 ==> [c] + IntStr(j) == SquareName(c as int - 'a' as int, j)
  {
    forall j | 1 <= j <= 8
      ensures [c] + IntStr(j) == SquareName(c as int - 'a' as int, j)
    {
      KeyAtOnBoard(AlongFile(c), j);
    }
  }

  /** The pawn scan of the mover's colour, from rank `r` of file `c`. */
  function PawnScan(st: Dict, white: bool, c: char, r: int): Result<string> {
    if white then ScanDown(st, c, r, "wp") else ScanUp(st, c, r, "bp")
  }

  /** Both scans at once: the nearest rank at or behind `r` that holds the mover's pawn. */
  lemma PawnScanFirst(st: Dict, white: bool, c: char, r: int)
    requires 1 <= r <= 8 && forall j :: 1 <= j <= 8 ==> [c] + IntStr(j) in st.vals
    ensures PawnScan(st, white, c, r).Ok? <==>
      exists j :: PawnBehind(white, r, j) && HoldsAt(st, c, j, Colour(white) + "p")
    ensures PawnScan(st, white, c, r).Ok? ==>
      exists j :: PawnBehind(white, r, j) && PawnScan(st, white, c, r).value == IntStr(j) &&
        HoldsAt(st, c, j, Colour(white) + "p") &&
        forall k :: PawnBehind(white, r, k) && (if white then j < k else k < j) ==> !HoldsAt(st, c, k, Colour(white) + "p")
    ensures PawnScan(st, white, c, r).Err? ==> PawnScan(st, white, c, r).error == StopIteration
  {
    if white {
      assert Colour(white) + "p" == "wp";
      ScanDownFirst(st, c, r, "wp");
    } else {
      assert Colour(white) + "p" == "bp";
      ScanUpFirst(st, c, r, "bp");
    }
  }

  /** On a full board every key `c + str(j)` of a file is present and names square (c, j). */
  lemma FileOnBoard(st: Dict, c: char)
    requires HasAllSquares(st) && 'a' <= c <= 'h'
    ensures forall j :: 1 <= j <= 8 ==>
      [c] + IntStr(j) == SquareName(c as int - 'a' as int, j) && [c] + IntStr(j) in st.vals
  {
    FileKeys(c);
  }

  /**
   * A two-character pawn move onto a square of a full board succeeds iff the
   * destination's file holds one of the mover's pawns at or behind the
   * destination (a white pawn scanning down, a black one up). The pawn nearest
   * the destination moves there, whatever stands between; with no pawn,
   * `StopIteration` is raised.
   */
  lemma PawnAdvance(st: Dict, white: bool, move: string)
    requires st.Valid() && HasAllSquares(st) && IsSquare(move)
    ensures var f, r, pawn := FileOf(move), RankOf(move), Colour(white) + "p";
      Apply(st, white, move).Ok? <==> exists j :: PawnBehind(white, r, j) && st.vals[SquareName(f, j)] == pawn
    ensures var f, r, pawn := FileOf(move), RankOf(move), Colour(white) + "p";
      Apply(st, white, move).Ok? ==>
        exists j :: PawnBehind(white, r, j) && st.vals[SquareName(f, j)] == pawn &&
          (forall k :: PawnBehind(white, r, k) && (if white then j < k else k < j) ==> st.vals[SquareName(f, k)] != pawn) &&
          Apply(st, white, move).value == Update(st, SquareName(f, j), move, pawn)
    ensures Apply(st, white, move).Err? ==> Apply(st, white, move).error == StopIteration
  {
    var c, f, r, pawn := move[0], FileOf(move), RankOf(move), Colour(white) + "p";
    var scan := PawnScan(st, white, c, r);
    PawnOriginTwoChars(st, white, move);
    FileOnBoard(st, c);
    PawnScanFirst(st, white, c, r);
    if scan.Ok? {
      var j :| PawnBehind(white, r, j) && scan.value == IntStr(j) && HoldsAt(st, c, j, pawn) &&
        forall k :: PawnBehind(white, r, k) && (if white then j < k else k < j) ==> !HoldsAt(st, c, k, pawn);
      assert [c] + scan.value == SquareName(f, j);
      assert st.vals[SquareName(f, j)] == pawn;
      forall k | PawnBehind(white, r, k) && (if white then j < k else k < j)
        ensures st.vals[SquareName(f, k)] != pawn
      {
        assert 1 <= k <= 8;
        assert [c] + IntStr(k) == SquareName(f, k);
        assert !HoldsAt(st, c, k, pawn);
      }
      assert Apply(st, white, move).value == Update(st, SquareName(f, j), move, pawn);
    } else {
      forall j | PawnBehind(white, r, j) ensures st.vals[SquareName(f, j)] != pawn {
        assert [c] + IntStr(j) == SquareName(f, j);
        assert !HoldsAt(st, c, j, pawn);
      }
    }
  }

  /** A two-character lower-case move is a pawn move, and `push` reduces to the pawn scan. */
  lemma PawnOriginTwoChars(st: Dict, white: bool, move: string)
    requires st.Valid() && IsSquare(move)
    ensures var scan := PawnScan(st, white, move[0], RankOf(move));
      Apply(st, white, move) ==
        if scan.Ok? then Ok(Update(st, [move[0]] + scan.value, move, Colour(white) + "p")) else Err(scan.error)
  {
    assert 'O' !in move && '=' !in move && IsLowerChar(move[0]);
    assert Index(move, -2) == Ok(move[0]) && DigitValue(move[1]) == Ok(RankOf(move));
    assert LastTwo(move) == move;
  }

  // ---------------------------------------------------------------------
  // Pawn captures (the `x` already removed), game.py:78-85
  // ---------------------------------------------------------------------

  /** A lower-case move longer than two characters whose last two name a square: a pawn capture. */
  ghost predicate PawnCapture(move: string) {
    |move| >= 3 && IsLower(move) && 'O' !in move && '=' !in move && IsSquare(LastTwo(move))
  }

  /**
   * `push` of a pawn capture: the pawn comes from file `move[0]`, one rank
   * behind the destination; when the destination is empty, the square behind
   * the destination on its own file is cleared first.
   */
  lemma PawnCaptureUnfold(st: Dict, white: bool, move: string)
    requires st.Valid() && PawnCapture(move) && LastTwo(move) in st.vals
    ensures var dest := LastTwo(move);
      var origin := [move[0]] + IntStr(Behind(white, RankOf(dest)));
      var board := if st.vals[dest] != "" then st else st.Set(CapturedKey(dest[0], RankOf(dest), white), "");
      Apply(st, white, move) == Ok(Update(board, origin, dest, Colour(white) + "p"))
  {
    var dest := LastTwo(move);
    var r := RankOf(dest);
    assert dest[0] == move[|move| - 2] && dest[1] == move[|move| - 1];
    assert !IsUpperChar(move[0]) && IsLowerChar(dest[0]);
    assert Index(move, -2) == Ok(dest[0]) && DigitValue(move[|move| - 1]) == Ok(r);
    DigitStr(Behind(white, r));
    var nps := CapturedKey(dest[0], r, white);
    assert nps[|nps| - 1] == DigitChar(Behind(white, r));
    var origin := [move[0]] + IntStr(Behind(white, r));
    var board := if st.vals[dest] != "" then st else st.Set(nps, "");
    assert |move| != 2;
    if st.vals[dest] != "" {
      assert PawnOrigin(st, white, move) == Ok(PawnFound(board, origin));
    } else {
      assert [move[0], nps[|nps| - 1]] == origin;
      assert PawnOrigin(st, white, move) == Ok(PawnFound(board, origin));
    }
  }

  /**
   * A pawn capture onto an occupied square: the pawn arrives, the square
   * behind the destination on file `move[0]` is emptied, nothing else changes.
   */
  lemma PawnCaptureEffect(st: Dict, white: bool, move: string)
    requires st.Valid() && PawnCapture(move) && LastTwo(move) in st.vals && st.vals[LastTwo(move)] != ""
    ensures Apply(st, white, move).Ok?
    ensures var dest, d := LastTwo(move), Apply(st, white, move).value;
      var origin := [move[0]] + IntStr(Behind(white, RankOf(dest)));
      d.vals[dest] == Colour(white) + "p" && origin in d.vals && d.vals[origin] == "" &&
      SameExcept(st, d, {origin, dest})
  {
    var dest := LastTwo(move);
    var origin := [move[0]] + IntStr(Behind(white, RankOf(dest)));
    PawnCaptureUnfold(st, white, move);
    assert origin[1] != dest[1];
    UpdateEffect(st, origin, dest, Colour(white) + "p");
  }

  /**
   * A pawn capture onto an empty square (en passant), for either colour:
   * besides origin and destination, the square behind the destination on its
   * own file is emptied, which removes the pawn taken; nothing else changes.
   */
  lemma EnPassantEffect(st: Dict, white: bool, move: string)
    requires st.Valid() && PawnCapture(move) && LastTwo(move) in st.vals && st.vals[LastTwo(move)] == ""
    ensures Apply(st, white, move).Ok?
    ensures var dest, d := LastTwo(move), Apply(st, white, move).value;
      var origin, captured := [move[0]] + IntStr(Behind(white, RankOf(dest))), CapturedKey(dest[0], RankOf(dest), white);
      d.vals[dest] == Colour(white) + "p" && origin in d.vals && d.vals[origin] == "" &&
      captured in d.vals && d.vals[captured] == "" &&
      SameExcept(st, d, {origin, captured, dest})
  {
    var dest := LastTwo(move);
    var b := Behind(white, RankOf(dest));
    var origin, captured := [move[0]] + IntStr(b), CapturedKey(dest[0], RankOf(dest), white);
    PawnCaptureUnfold(st, white, move);
    DigitStr(b);
    assert origin[1] != dest[1] && captured[1] != dest[1];
    ClearThenUpdate(st, captured, origin, dest, Colour(white) + "p");
  }

  /** Clearing key `k` and then moving from `origin` to `dest` writes those three keys only. */
  lemma ClearThenUpdate(st: Dict, k: string, origin: string, dest: string, pt: string)
    requires k != dest && origin != dest
    ensures var d := Update(st.Set(k, ""), origin, dest, pt);
      dest in d.vals && d.vals[dest] == pt && origin in d.vals && d.vals[origin] == "" &&
      k in d.vals && d.vals[k] == "" && SameExcept(st, d, {origin, k, dest})
  {
    assert Update(st.Set(k, ""), origin, dest, pt).vals == st.vals[k := ""][origin := ""][dest := pt];
  }

  /**
   * The key cleared names the square of the pawn taken en passant: same file
   * as the destination, one rank behind it from the mover's side. Line 83 as
   * written agrees for white and clears another key for black.
   */
  lemma CapturedSquare(dest: string, white: bool)
    requires IsSquare(dest) && 1 <= Behind(white, RankOf(dest)) <= 8
    ensures var k := CapturedKey(dest[0], RankOf(dest), white);
      IsSquare(k) && FileOf(k) == FileOf(dest) && RankOf(k) == Behind(white, RankOf(dest))
    ensures white <==> CapturedKey(dest[0], RankOf(dest), white) == CapturedKeyAsWritten(dest[0], RankOf(dest), white)
  {
    DigitStr(Behind(white, RankOf(dest)));
    DigitStr(RankOf(dest) + 1);
  }

  /**
   * On a full board, an en passant capture whose origin and captured square
   * lie on the board adds no key: the board keeps its keys in their order.
   */
  lemma EnPassantKeys(st: Dict, white: bool, move: string)
    requires st.Valid() && HasAllSquares(st) && PawnCapture(move)
    requires LastTwo(move) in st.vals && st.vals[LastTwo(move)] == ""
    requires 'a' <= move[0] <= 'h' && 1 <= Behind(white, RankOf(LastTwo(move))) <= 8
    ensures Apply(st, white, move).Ok? && Apply(st, white, move).value.keys == st.keys
  {
    var dest := LastTwo(move);
    var b := Behind(white, RankOf(dest));
    var captured, origin := CapturedKey(dest[0], RankOf(dest), white), [move[0]] + IntStr(b);
    PawnCaptureUnfold(st, white, move);
    CapturedSquare(dest, white);
    DigitStr(b);
    assert IsSquare(origin);
    SquareNameRoundTrip(0, 1, origin);
    SquareNameRoundTrip(0, 1, captured);
    assert origin in st.vals && captured in st.vals;
    ClearThenUpdateKeys(st, captured, origin, dest, Colour(white) + "p");
  }

  /** Clearing a present key and then moving between two present keys adds no key. */
  lemma ClearThenUpdateKeys(st: Dict, k: string, origin: string, dest: string, pt: string)
    requires k in st.vals && origin in st.vals && dest in st.vals
    ensures Update(st.Set(k, ""), origin, dest, pt).keys == st.keys
  {
    var mid := st.Set(k, "");
    assert mid.keys == st.keys;
    UpdateKeys(mid, origin, dest, pt);
  }

  // ---------------------------------------------------------------------
  // Line 83 as written
  // ---------------------------------------------------------------------

  /**
   * `nps = c + (str(r - 1)) if self.is_white_run else str(r + 1)`: the
   * conditional expression binds looser than `+`, so for black the key is the
   * bare rank.
   */
  function CapturedKeyAsWritten(c: char, r: int, white: bool): string {
    if white then [c] + IntStr(r - 1) else IntStr(r + 1)
  }

  /** Lines 83-85 as written: clear `nps` and return `move[0] + nps[-1]`. */
  function EmptyCaptureAsWritten(st: Dict, white: bool, move: string): Result<PawnFound> {
    var c :- Index(move, -2);
    var r :- DigitValue(move[|move| - 1]);
    var nps := CapturedKeyAsWritten(c, r, white);
    Ok(PawnFound(st.Set(nps, ""), [move[0], nps[|nps| - 1]]))
  }

  /**
   * Black captures onto an empty square as line 83 is written: the pawn
   * still comes from `move[0] + str(r + 1)`, but the key cleared is the bare
   * rank `str(r + 1)`, which is no square. On a board holding only squares
   * that key is added, and the captured white pawn's square (file of the
   * destination, rank r + 1) keeps what it held whenever the capturing pawn
   * comes from another file.
   */
  lemma BlackEnPassantAsWritten(st: Dict, white: bool, move: string)
    requires !white && |move| >= 2 && IsSquare(LastTwo(move))
    requires forall k :: k in st.vals ==> IsSquare(k)
    ensures EmptyCaptureAsWritten(st, white, move).Ok?
    ensures var dest, found := LastTwo(move), EmptyCaptureAsWritten(st, white, move).value;
      var d := Update(found.state, found.origin, dest, "bp");
      var stray, captured := IntStr(RankOf(dest) + 1), [dest[0]] + IntStr(RankOf(dest) + 1);
      found.origin == [move[0]] + stray &&
      !IsSquare(stray) && stray !in st.vals && stray in d.vals && d.vals[stray] == "" &&
      (move[0] != dest[0] && captured in st.vals ==> captured in d.vals && d.vals[captured] == st.vals[captured])
  {
    var dest := LastTwo(move);
    EmptyCaptureUnfold(st, white, move);
    DigitStr(RankOf(dest) + 1);
    StrayKeyBoard(st, IntStr(RankOf(dest) + 1), move[0], dest);
  }

  /** On a pawn capture, lines 83-85 as written clear `nps` and name the square `move[0]` + the rank behind. */
  lemma EmptyCaptureUnfold(st: Dict, white: bool, move: string)
    requires |move| >= 2 && IsSquare(LastTwo(move))
    ensures var dest := LastTwo(move);
      var nps := CapturedKeyAsWritten(dest[0], RankOf(dest), white);
      EmptyCaptureAsWritten(st, white, move) == Ok(PawnFound(st.Set(nps, ""), [move[0]] + IntStr(Behind(white, RankOf(dest)))))
  {
    var dest := LastTwo(move);
    var r := RankOf(dest);
    DigitStr(Behind(white, r));
    assert dest[0] == move[|move| - 2] && dest[1] == move[|move| - 1];
    assert Index(move, -2) == Ok(dest[0]) && DigitValue(move[|move| - 1]) == Ok(r);
    var nps := CapturedKeyAsWritten(dest[0], r, white);
    assert nps[|nps| - 1] == DigitChar(Behind(white, r));
    assert [move[0], nps[|nps| - 1]] == [move[0]] + IntStr(Behind(white, r));
  }

  /**
   * On a board holding only squares, clearing a one-character key and then
   * moving from `c + key` to `dest` adds that key and leaves every other
   * square except origin and destination as it was.
   */
  lemma StrayKeyBoard(st: Dict, key: string, c: char, dest: string)
    requires forall k :: k in st.vals ==> IsSquare(k)
    requires |key| == 1 && IsSquare(dest) && key[0] != dest[1]
    ensures var d := Update(st.Set(key, ""), [c] + key, dest, "bp");
      !IsSquare(key) && key !in st.vals && key in d.vals && d.vals[key] == "" &&
      (c != dest[0] && [dest[0]] + key in st.vals ==>
        [dest[0]] + key in d.vals && d.vals[[dest[0]] + key] == st.vals[[dest[0]] + key])
  {
    var origin, captured := [c] + key, [dest[0]] + key;
    assert origin[1] != dest[1] && key != dest;
    ClearThenUpdate(st, key, origin, dest, "bp");
    if c != dest[0] && captured in st.vals {
      assert captured != origin && captured != key && captured != dest;
    }
  }
}
