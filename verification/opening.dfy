/**
 * The first moves of a game replayed from `load_state('default')`: the
 * board-loading, scanning and updating lemmas composed on concrete moves.
 */
module Opening {
  import opened Wrappers
  import opened PyStr
  import opened PyDict
  import opened Chess
  import opened Geometry
  import opened Interpreter
  import opened Setup

  /** A well-formed board holding all 64 squares and no other key, each square holding its starting piece. */
  ghost predicate StartingBoard(d: Dict) {
    d.Valid() && HasAllSquares(d) &&
    forall k :: k in d.vals ==> IsSquare(k) && d.vals[k] == StartingPiece(FileOf(k), RankOf(k))
  }

  /** `load_state('default')`, when no file of that name exists, returns a starting board. */
  lemma DefaultIsStartingBoard(fileLayout: Dict)
    requires fileLayout.Valid()
    ensures StartingBoard(Loaded("default", false, fileLayout))
  {
    LoadedShape("default", false, fileLayout);
    LoadedDefault(fileLayout);
    var d := Loaded("default", false, fileLayout);
    forall k | k in d.vals
      ensures d.vals[k] == StartingPiece(FileOf(k), RankOf(k))
    {
      SquareNameRoundTrip(0, 1, k);
    }
  }

  /** Square (f, r) of a starting board holds its starting piece. */
  lemma StartingAt(d: Dict, f: int, r: int)
    requires StartingBoard(d) && OnBoard(f, r)
    ensures SquareName(f, r) in d.vals && d.vals[SquareName(f, r)] == StartingPiece(f, r)
  {
    SquareNameRoundTrip(f, r, "");
  }

  /**
   * A white pawn move to rank 3, 4, 5 or 6 of a file (`e3` to `e6`) from the
   * starting position moves that file's pawn from rank 2: the scan down the
   * file passes the empty ranks and stops at rank 2, and nothing checks that
   * the squares between are empty.
   */
  lemma WhitePawnFromStart(d: Dict, move: string)
    requires StartingBoard(d) && IsSquare(move) && 3 <= RankOf(move) <= 6
    ensures Apply(d, true, move) == Ok(Update(d, SquareName(FileOf(move), 2), move, "wp"))
  {
    var f, r := FileOf(move), RankOf(move);
    PawnOnSecondRank(d, f, r);
    PawnAdvance(d, true, move);
    var j :| PawnBehind(true, r, j) && d.vals[SquareName(f, j)] == "wp" &&
      Apply(d, true, move).value == Update(d, SquareName(f, j), move, "wp");
    PawnBehindIsHome(d, f, r, j);
  }

  /** The file's white pawn stands on rank 2, behind any rank from 3 to 6. */
  lemma PawnOnSecondRank(d: Dict, f: int, r: int)
    requires StartingBoard(d) && 0 <= f < 8 && 3 <= r <= 6
    ensures Colour(true) + "p" == "wp"
    ensures PawnBehind(true, r, 2) && d.vals[SquareName(f, 2)] == "wp"
  {
    StartingAt(d, f, 2);
  }

  /** On a starting board the only white pawn of a file is on rank 2. */
  lemma PawnBehindIsHome(d: Dict, f: int, r: int, j: int)
    requires StartingBoard(d) && 0 <= f < 8 && PawnBehind(true, r, j) && d.vals[SquareName(f, j)] == "wp"
    ensures j == 2
  {
    StartingAt(d, f, j);
    PawnHome(f, j);
  }

  /** White's pawns start on rank 2 and nowhere else. */
  lemma PawnHome(f: int, r: int)
    requires OnBoard(f, r) && StartingPiece(f, r) == "wp"
    ensures r == 2
  {
    var v := StartingPiece(f, r);
    assert v[1] == 'p';
    assert BACK_RANK[f] != 'p' by {
      assert f == 0 || f == 1 || f == 2 || f == 3 || f == 4 || f == 5 || f == 6 || f == 7;
    }
  }

  /** White's knights start on b1 and g1 and nowhere else. */
  lemma KnightHome(f: int, r: int)
    requires OnBoard(f, r) && StartingPiece(f, r) == "wn"
    ensures r == 1 && (f == 1 || f == 6)
  {
    var v := StartingPiece(f, r);
    assert |v| == 2 && v[0] == 'w' && v[1] == 'n';
    assert r == 1;
    assert BACK_RANK[f] == 'n';
    assert f == 0 || f == 1 || f == 2 || f == 3 || f == 4 || f == 5 || f == 6 || f == 7;
  }

  /** On a starting board the knight on g1 holds `wn` and reaches f3. */
  lemma G1Candidate(d: Dict)
    requires StartingBoard(d)
    ensures Candidate(d, SquareName(6, 1), "wn", 'n', "", SquareName(5, 3))
  {
    SquareNameRoundTrip(5, 3, "");
    SquareNameRoundTrip(6, 1, "");
    StartingAt(d, 6, 1);
    ContainsShort(SquareName(6, 1), "");
  }

  /** On a starting board g1 is one of the keys. */
  lemma G1Key(d: Dict)
    requires StartingBoard(d)
    ensures exists i :: 0 <= i < |d.keys| && d.keys[i] == SquareName(6, 1)
  {
    StartingAt(d, 6, 1);
  }

  /** The only square holding a white knight at the start that is a knight's jump from f3 is g1. */
  lemma OnlyG1(k: string)
    requires IsSquare(k) && StartingPiece(FileOf(k), RankOf(k)) == "wn" && KnightJump(k, SquareName(5, 3))
    ensures k == SquareName(6, 1)
  {
    SquareNameRoundTrip(5, 3, "");
    SquareNameRoundTrip(0, 1, k);
    KnightHome(FileOf(k), RankOf(k));
    assert FileOf(k) == 6;
  }

  /** On a starting board a square holding a white knight that reaches f3 is g1. */
  lemma KnightCandidateIsG1(d: Dict, k: string)
    requires StartingBoard(d) && Candidate(d, k, "wn", 'n', "", SquareName(5, 3))
    ensures k == SquareName(6, 1)
  {
    assert KnightJump(k, SquareName(5, 3));
    OnlyG1(k);
  }

  /** `Nf3` is a three-character piece move of the white knight to f3. */
  lemma KnightMoveShape(move: string)
    requires |move| == 3 && move[0] == 'N' && move[1] == 'f' && move[2] == '3'
    ensures 'O' !in move && '=' !in move && !IsLower(move)
    ensures move[|move| - 2..] == SquareName(5, 3) && IsSquare(SquareName(5, 3))
    ensures Colour(true) + [Lower(move[0])] == "wn"
  {
    SquareNameChars(5, 3);
    assert move[1..] == [move[1], move[2]];
    assert IsUpperChar(move[0]);
  }

  /** On a starting board every key is a square, whatever it holds. */
  lemma StartingSquares(d: Dict, piece: string)
    requires StartingBoard(d)
    ensures PieceOnSquares(d, piece)
  {
  }

  /**
   * White's `Nf3` from the starting position moves the knight on g1: the
   * other white knight, on b1, is no knight's jump from f3.
   */
  lemma KingKnightOpening(d: Dict, move: string)
    requires StartingBoard(d) && |move| == 3 && move[0] == 'N' && move[1] == 'f' && move[2] == '3'
    ensures Apply(d, true, move) == Ok(Update(d, SquareName(6, 1), SquareName(5, 3), "wn"))
  {
    var dest, g1 := SquareName(5, 3), SquareName(6, 1);
    KnightMoveShape(move);
    StartingSquares(d, "wn");
    PieceMove(d, true, move);
    G1Candidate(d);
    G1Key(d);
    var j :| 0 <= j < |d.keys| && Candidate(d, d.keys[j], "wn", 'n', "", dest) &&
      Apply(d, true, move).value == Update(d, d.keys[j], dest, "wn");
    KnightCandidateIsG1(d, d.keys[j]);
  }

  /**
   * From `load_state('default')` white may open with a pawn move to ranks 3-6
   * of a file, which moves that file's pawn from rank 2, or with `Nf3`, which
   * moves the knight on g1.
   */
  lemma DefaultOpenings(fileLayout: Dict, pawnMove: string, knightMove: string)
    requires fileLayout.Valid() && IsSquare(pawnMove) && 3 <= RankOf(pawnMove) <= 6
    requires |knightMove| == 3 && knightMove[0] == 'N' && knightMove[1] == 'f' && knightMove[2] == '3'
    ensures var d := Loaded("default", false, fileLayout);
      d.Valid() &&
      Apply(d, true, pawnMove) == Ok(Update(d, SquareName(FileOf(pawnMove), 2), pawnMove, "wp")) &&
      Apply(d, true, knightMove) == Ok(Update(d, SquareName(6, 1), SquareName(5, 3), "wn"))
  {
    DefaultIsStartingBoard(fileLayout);
    WhitePawnFromStart(Loaded("default", false, fileLayout), pawnMove);
    KingKnightOpening(Loaded("default", false, fileLayout), knightMove);
  }
}
