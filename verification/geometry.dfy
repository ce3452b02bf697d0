/**
 * The three reachability tests of `Game` (chess/game.py:12-45), as functions
 * of the board they read. Each one parses its square arguments the way the
 * source does (`ord(s[0])`, `int(s[1])`) and walks the squares strictly
 * between them, stopping at the first occupied one, as `all(...)` does.
 */
module Geometry {
  import opened Wrappers
  import opened PyStr
  import opened PyDict
  import opened Chess

  function Abs(x: int): nat {
    if x < 0 then -x else x
  }

  function Min(a: int, b: int): int {
    if a < b then a else b
  }

  function Max(a: int, b: int): int {
    if a < b then b else a
  }

  /** `COLUMNS[i]`: a negative index counts from the end. */
  function ColumnAt(i: int): Result<string> {
    if 0 <= i < 8 then Ok(COLUMNS[i])
    else if -8 <= i < 0 then Ok(COLUMNS[8 + i])
    else Err(IndexError)
  }

  /** The squares one `all(...)` generator visits, by their index `i`. */
  datatype Walk =
    | AlongRank(rank: int)     // COLUMNS[i] + str(rank), game.py:24
    | AlongFile(col: char)     // col + str(i), game.py:26
    | AlongDiagonal(col0: int, row0: int, colUp: bool, rowUp: bool)
                               // COLUMNS[col0 +/- i] + str(row0 +/- i), game.py:39-43
  {
    function FileAt(i: int): int {
      match this
      case AlongRank(_) => i
      case AlongFile(c) => c as int - 'a' as int
      case AlongDiagonal(c0, _, up, _) => if up then c0 + i else c0 - i
    }

    function RankAt(i: int): int {
      match this
      case AlongRank(r) => r
      case AlongFile(_) => i
      case AlongDiagonal(_, r0, _, up) => if up then r0 + i else r0 - i
    }

    /** The dict key the generator builds for index `i`. */
    function KeyAt(i: int): Result<string> {
      match this
      case AlongFile(c) => Ok([c] + IntStr(i))
      case _ =>
        var col :- ColumnAt(FileAt(i));
        Ok(col + IntStr(RankAt(i)))
    }
  }

  /**
   * `all(state[key] == '' for i in range(i, hi))`: true when every visited
   * square is empty; stops at the first occupied one; raises on a key the
   * board does not hold.
   */
  function AllEmpty(st: Dict, w: Walk, i: int, hi: int): Result<bool>
    decreases hi - i
  {
    if i >= hi then Ok(true)
    else
      var key :- w.KeyAt(i);
      if key !in st.vals then Err(KeyError(key))
      else if st.vals[key] != "" then Ok(false)
      else AllEmpty(st, w, i + 1, hi)
  }

  /** `_check_knight_move` (game.py:12-15): it reads no board. */
  function CheckKnightMove(sqr1: string, sqr2: string): Result<bool> {
    var c1 :- Index(sqr1, 0);
    var c2 :- Index(sqr2, 0);
    var cd := Abs(c1 as int - c2 as int);
    var x1 :- Index(sqr1, 1);
    var r1 :- DigitValue(x1);
    var x2 :- Index(sqr2, 1);
    var r2 :- DigitValue(x2);
    var rd := Abs(r1 - r2);
    Ok((cd == 2 && rd == 1) || (cd == 1 && rd == 2))
  }

  /** `_check_line` (game.py:17-28). */
  function CheckLine(st: Dict, sqr1: string, sqr2: string): Result<bool> {
    var c1 :- Index(sqr1, 0);
    var c2 :- Index(sqr2, 0);
    var x1 :- Index(sqr1, 1);
    var r1 :- DigitValue(x1);
    var x2 :- Index(sqr2, 1);
    var r2 :- DigitValue(x2);
    if r1 == r2 then
      var i1, i2 := c1 as int - 'a' as int, c2 as int - 'a' as int;
      AllEmpty(st, AlongRank(r1), Min(i1, i2) + 1, Max(i1, i2))
    else if c1 == c2 then
      AllEmpty(st, AlongFile(c1), Min(r1, r2) + 1, Max(r1, r2))
    else
      Ok(false)
  }

  /** `_check_diagonal` (game.py:30-45). */
  function CheckDiagonal(st: Dict, sqr1: string, sqr2: string): Result<bool> {
    var x1 :- Index(sqr1, 0);
    var x2 :- Index(sqr2, 0);
    var c1, c2 := x1 as int - 'a' as int, x2 as int - 'a' as int;
    var y1 :- Index(sqr1, 1);
    var r1 :- DigitValue(y1);
    var y2 :- Index(sqr2, 1);
    var r2 :- DigitValue(y2);
    if Abs(c1 - c2) == Abs(r1 - r2) then
      if (c1 > c2 && r1 > r2) || (c2 > c1 && r2 > r1) then
        AllEmpty(st, AlongDiagonal(Min(c1, c2), Min(r1, r2), true, true), 1, Abs(c1 - c2))
      else if c1 > c2 && r2 > r1 then
        AllEmpty(st, AlongDiagonal(c2, r2, true, false), 1, c1 - c2)
      else
        AllEmpty(st, AlongDiagonal(c2, r2, false, true), 1, c2 - c1)
    else
      Ok(false)
  }

  // ---------------------------------------------------------------------
  // Reference definitions, stated on (file, rank) coordinates
  // ---------------------------------------------------------------------

  /** The board holds every one of the 64 squares as a key. */
  ghost predicate HasAllSquares(st: Dict) {
    forall f, r :: OnBoard(f, r) ==> SquareName(f, r) in st.vals
  }

  /** Square (f, r) is a key of the board and holds `''`. */
  ghost predicate EmptyAt(st: Dict, f: int, r: int)
    requires OnBoard(f, r)
  {
    SquareName(f, r) in st.vals && st.vals[SquareName(f, r)] == ""
  }

  /** A knight's jump: the squared distance between the two squares is 5. */
  ghost predicate KnightJump(a: string, b: string)
    requires |a| >= 2 && |b| >= 2
  {
    var df, dr := FileOf(a) - FileOf(b), RankOf(a) - RankOf(b);
    df * df + dr * dr == 5
  }

  /** (f, r) lies strictly between `a` and `b` on their common rank or file. */
  ghost predicate BetweenOnLine(a: string, b: string, f: int, r: int)
    requires IsSquare(a) && IsSquare(b)
  {
    (r == RankOf(a) == RankOf(b) && Min(FileOf(a), FileOf(b)) < f < Max(FileOf(a), FileOf(b))) ||
    (f == FileOf(a) == FileOf(b) && Min(RankOf(a), RankOf(b)) < r < Max(RankOf(a), RankOf(b)))
  }

  /** `a` and `b` share a rank or a file and nothing stands between them. */
  ghost predicate LineClear(st: Dict, a: string, b: string)
    requires IsSquare(a) && IsSquare(b)
  {
    (RankOf(a) == RankOf(b) || FileOf(a) == FileOf(b)) &&
    forall f, r :: OnBoard(f, r) && BetweenOnLine(a, b, f, r) ==> EmptyAt(st, f, r)
  }

  /**
   * (f, r) is diagonal to both `a` and `b` and its file lies strictly between
   * theirs: when `a` and `b` share a diagonal, exactly the squares between them.
   */
  ghost predicate BetweenOnDiagonal(a: string, b: string, f: int, r: int)
    requires IsSquare(a) && IsSquare(b)
  {
    Abs(f - FileOf(a)) == Abs(r - RankOf(a)) &&
    Abs(f - FileOf(b)) == Abs(r - RankOf(b)) &&
    Min(FileOf(a), FileOf(b)) < f < Max(FileOf(a), FileOf(b))
  }

  /** `a` and `b` share a diagonal and nothing stands between them. */
  ghost predicate DiagonalClear(st: Dict, a: string, b: string)
    requires IsSquare(a) && IsSquare(b)
  {
    Abs(FileOf(a) - FileOf(b)) == Abs(RankOf(a) - RankOf(b)) &&
    forall f, r :: OnBoard(f, r) && BetweenOnDiagonal(a, b, f, r) ==> EmptyAt(st, f, r)
  }

  // ---------------------------------------------------------------------
  // The tests agree with the reference definitions
  // ---------------------------------------------------------------------

  /** On the board, the generator's key for index `i` is the square's name. */
  lemma KeyAtOnBoard(w: Walk, i: int)
    requires OnBoard(w.FileAt(i), w.RankAt(i))
    ensures w.KeyAt(i) == Ok(SquareName(w.FileAt(i), w.RankAt(i)))
  {
    AlphabetsInOrder();
    if w.AlongFile? {
      assert [w.col] == COLUMNS[w.FileAt(i)];
    }
  }

  /** One step of `AllEmpty` at an on-board square the board holds. */
  lemma AllEmptyStep(st: Dict, w: Walk, lo: int, hi: int)
    requires lo < hi && OnBoard(w.FileAt(lo), w.RankAt(lo))
    requires SquareName(w.FileAt(lo), w.RankAt(lo)) in st.vals
    ensures AllEmpty(st, w, lo, hi) ==
      if EmptyAt(st, w.FileAt(lo), w.RankAt(lo)) then AllEmpty(st, w, lo + 1, hi) else Ok(false)
  {
    KeyAtOnBoard(w, lo);
  }

  /** Every walk square in `[lo, hi)` is empty. */
  ghost predicate WalkEmpty(st: Dict, w: Walk, lo: int, hi: int)
    requires forall i :: lo <= i < hi ==> OnBoard(w.FileAt(i), w.RankAt(i))
  {
    forall i :: lo <= i < hi ==> EmptyAt(st, w.FileAt(i), w.RankAt(i))
  }

  /** Over on-board squares of a full board, `AllEmpty` never raises and means "all of them empty". */
  lemma {:induction false} AllEmptyOnBoard(st: Dict, w: Walk, lo: int, hi: int)
    requires HasAllSquares(st)
    requires forall i :: lo <= i < hi ==> OnBoard(w.FileAt(i), w.RankAt(i))
    ensures AllEmpty(st, w, lo, hi) == Ok(WalkEmpty(st, w, lo, hi))
    decreases hi - lo
  {
    if lo < hi {
      var f, r := w.FileAt(lo), w.RankAt(lo);
      assert SquareName(f, r) in st.vals;
      AllEmptyStep(st, w, lo, hi);
      AllEmptyOnBoard(st, w, lo + 1, hi);
      if !EmptyAt(st, f, r) {
        assert !WalkEmpty(st, w, lo, hi);
      } else if WalkEmpty(st, w, lo + 1, hi) {
        assert WalkEmpty(st, w, lo, hi);
      } else {
        var i :| lo + 1 <= i < hi && !EmptyAt(st, w.FileAt(i), w.RankAt(i));
        assert !WalkEmpty(st, w, lo, hi);
      }
    }
  }

  /**
   * `_check_knight_move` never raises on two strings with a digit second, and
   * it is true iff the two squares are a knight's jump apart.
   */
  lemma CheckKnightMoveIff(a: string, b: string)
    requires |a| >= 2 && |b| >= 2 && '0' <= a[1] <= '9' && '0' <= b[1] <= '9'
    ensures CheckKnightMove(a, b) == Ok(KnightJump(a, b))
  {
    var df, dr := FileOf(a) - FileOf(b), RankOf(a) - RankOf(b);
    SquaresSumToFive(df, dr);
  }

  /** x^2 + y^2 = 5 exactly when {|x|, |y|} = {1, 2}. */
  lemma SquaresSumToFive(x: int, y: int)
    ensures x * x + y * y == 5 <==> (Abs(x) == 2 && Abs(y) == 1) || (Abs(x) == 1 && Abs(y) == 2)
  {
    assert x * x == Abs(x) * Abs(x) && y * y == Abs(y) * Abs(y);
    if Abs(x) >= 3 {
      assert Abs(x) * Abs(x) >= 3 * Abs(x) >= 9;
    } else if Abs(y) >= 3 {
      assert Abs(y) * Abs(y) >= 3 * Abs(y) >= 9;
    }
  }

  /** On a full board, `_check_line` never raises, and it is true iff the line is clear. */
  lemma CheckLineIff(st: Dict, a: string, b: string)
    requires HasAllSquares(st) && IsSquare(a) && IsSquare(b)
    ensures CheckLine(st, a, b) == Ok(LineClear(st, a, b))
  {
    CheckLineUnfold(st, a, b);
    if RankOf(a) == RankOf(b) {
      RankWalkClear(st, a, b);
    } else if a[0] == b[0] {
      FileWalkClear(st, a, b);
    }
  }

  /** On two squares, `_check_line` walks the common rank, the common file, or answers false. */
  lemma CheckLineUnfold(st: Dict, a: string, b: string)
    requires IsSquare(a) && IsSquare(b)
    ensures CheckLine(st, a, b) ==
      if RankOf(a) == RankOf(b) then
        AllEmpty(st, AlongRank(RankOf(a)), Min(FileOf(a), FileOf(b)) + 1, Max(FileOf(a), FileOf(b)))
      else if a[0] == b[0] then
        AllEmpty(st, AlongFile(a[0]), Min(RankOf(a), RankOf(b)) + 1, Max(RankOf(a), RankOf(b)))
      else Ok(false)
  {
  }

  /** The walk along a shared rank finds every square between `a` and `b` empty iff the line is clear. */
  lemma RankWalkClear(st: Dict, a: string, b: string)
    requires HasAllSquares(st) && IsSquare(a) && IsSquare(b) && RankOf(a) == RankOf(b)
    ensures AllEmpty(st, AlongRank(RankOf(a)), Min(FileOf(a), FileOf(b)) + 1, Max(FileOf(a), FileOf(b))) ==
            Ok(LineClear(st, a, b))
  {
    var w, lo, hi := AlongRank(RankOf(a)), Min(FileOf(a), FileOf(b)) + 1, Max(FileOf(a), FileOf(b));
    AllEmptyOnBoard(st, w, lo, hi);
    if WalkEmpty(st, w, lo, hi) {
      forall f, r | OnBoard(f, r) && BetweenOnLine(a, b, f, r)
        ensures EmptyAt(st, f, r)
      {
        assert w.FileAt(f) == f && w.RankAt(f) == r;
      }
    } else {
      var i :| lo <= i < hi && !EmptyAt(st, w.FileAt(i), w.RankAt(i));
      assert BetweenOnLine(a, b, i, RankOf(a));
    }
  }

  /** The walk along a shared file finds every square between `a` and `b` empty iff the line is clear. */
  lemma FileWalkClear(st: Dict, a: string, b: string)
    requires HasAllSquares(st) && IsSquare(a) && IsSquare(b) && RankOf(a) != RankOf(b) && a[0] == b[0]
    ensures AllEmpty(st, AlongFile(a[0]), Min(RankOf(a), RankOf(b)) + 1, Max(RankOf(a), RankOf(b))) ==
            Ok(LineClear(st, a, b))
  {
    var w, lo, hi := AlongFile(a[0]), Min(RankOf(a), RankOf(b)) + 1, Max(RankOf(a), RankOf(b));
    AllEmptyOnBoard(st, w, lo, hi);
    if WalkEmpty(st, w, lo, hi) {
      forall f, r | OnBoard(f, r) && BetweenOnLine(a, b, f, r)
        ensures EmptyAt(st, f, r)
      {
        assert w.FileAt(r) == f && w.RankAt(r) == r;
      }
    } else {
      var i :| lo <= i < hi && !EmptyAt(st, w.FileAt(i), w.RankAt(i));
      assert BetweenOnLine(a, b, FileOf(a), i);
    }
  }

  /**
   * A diagonal walk that starts at one of `a`, `b` and reaches the other after
   * `n` steps visits, at indices 1 .. n-1, exactly the squares between them.
   */
  lemma DiagonalWalkBetween(a: string, b: string, w: Walk, n: int)
    requires IsSquare(a) && IsSquare(b) && w.AlongDiagonal?
    requires n == Abs(FileOf(a) - FileOf(b)) == Abs(RankOf(a) - RankOf(b))
    requires (w.FileAt(0), w.RankAt(0), w.FileAt(n), w.RankAt(n)) == (FileOf(a), RankOf(a), FileOf(b), RankOf(b)) ||
             (w.FileAt(0), w.RankAt(0), w.FileAt(n), w.RankAt(n)) == (FileOf(b), RankOf(b), FileOf(a), RankOf(a))
    ensures forall i :: 1 <= i < n ==>
      OnBoard(w.FileAt(i), w.RankAt(i)) && BetweenOnDiagonal(a, b, w.FileAt(i), w.RankAt(i))
    ensures forall f, r :: BetweenOnDiagonal(a, b, f, r) ==>
      1 <= Abs(f - w.col0) < n && w.FileAt(Abs(f - w.col0)) == f && w.RankAt(Abs(f - w.col0)) == r
  {
  }

  /** The walk `_check_diagonal` takes from `a` towards `b`, chosen by the directions between them. */
  function DiagonalWalk(a: string, b: string): Walk
    requires IsSquare(a) && IsSquare(b)
  {
    var fa, ra, fb, rb := FileOf(a), RankOf(a), FileOf(b), RankOf(b);
    if (fa > fb && ra > rb) || (fb > fa && rb > ra) then AlongDiagonal(Min(fa, fb), Min(ra, rb), true, true)
    else if fa > fb && rb > ra then AlongDiagonal(fb, rb, true, false)
    else AlongDiagonal(fb, rb, false, true)
  }

  /** On two squares, `_check_diagonal` walks the shared diagonal or answers false. */
  lemma CheckDiagonalUnfold(st: Dict, a: string, b: string)
    requires IsSquare(a) && IsSquare(b)
    ensures CheckDiagonal(st, a, b) ==
      if Abs(FileOf(a) - FileOf(b)) == Abs(RankOf(a) - RankOf(b)) then
        AllEmpty(st, DiagonalWalk(a, b), 1, Abs(FileOf(a) - FileOf(b)))
      else Ok(false)
  {
  }

  /** On a full board, `_check_diagonal` never raises, and it is true iff the diagonal is clear. */
  lemma CheckDiagonalIff(st: Dict, a: string, b: string)
    requires HasAllSquares(st) && IsSquare(a) && IsSquare(b)
    ensures CheckDiagonal(st, a, b) == Ok(DiagonalClear(st, a, b))
  {
    CheckDiagonalUnfold(st, a, b);
    var n := Abs(FileOf(a) - FileOf(b));
    if n == Abs(RankOf(a) - RankOf(b)) {
      var w := DiagonalWalk(a, b);
      DiagonalWalkBetween(a, b, w, n);
      AllEmptyOnBoard(st, w, 1, n);
      if WalkEmpty(st, w, 1, n) {
        forall f, r | OnBoard(f, r) && BetweenOnDiagonal(a, b, f, r)
          ensures EmptyAt(st, f, r)
        {
          var i := Abs(f - w.col0);
          assert EmptyAt(st, w.FileAt(i), w.RankAt(i));
        }
      } else {
        var i :| 1 <= i < n && !EmptyAt(st, w.FileAt(i), w.RankAt(i));
        assert BetweenOnDiagonal(a, b, w.FileAt(i), w.RankAt(i));
      }
    }
  }

  // ---------------------------------------------------------------------
  // Symmetry and the cases the unit tests check
  // ---------------------------------------------------------------------

  /** `_check_knight_move` gives the same answer with its arguments swapped. */
  lemma CheckKnightMoveSymmetric(a: string, b: string)
    requires |a| >= 2 && |b| >= 2 && '0' <= a[1] <= '9' && '0' <= b[1] <= '9'
    ensures CheckKnightMove(a, b) == CheckKnightMove(b, a)
  {
    CheckKnightMoveIff(a, b);
    CheckKnightMoveIff(b, a);
    var df, dr := FileOf(a) - FileOf(b), RankOf(a) - RankOf(b);
    assert (-df) * (-df) == df * df && (-dr) * (-dr) == dr * dr;
  }

  /** On a full board `_check_line` gives the same answer with its arguments swapped. */
  lemma CheckLineSymmetric(st: Dict, a: string, b: string)
    requires HasAllSquares(st) && IsSquare(a) && IsSquare(b)
    ensures CheckLine(st, a, b) == CheckLine(st, b, a)
  {
    CheckLineIff(st, a, b);
    CheckLineIff(st, b, a);
    forall f, r | OnBoard(f, r)
      ensures BetweenOnLine(a, b, f, r) == BetweenOnLine(b, a, f, r)
    {
    }
  }

  /** On a full board `_check_diagonal` gives the same answer with its arguments swapped. */
  lemma CheckDiagonalSymmetric(st: Dict, a: string, b: string)
    requires HasAllSquares(st) && IsSquare(a) && IsSquare(b)
    ensures CheckDiagonal(st, a, b) == CheckDiagonal(st, b, a)
  {
    CheckDiagonalIff(st, a, b);
    CheckDiagonalIff(st, b, a);
    forall f, r | OnBoard(f, r)
      ensures BetweenOnDiagonal(a, b, f, r) == BetweenOnDiagonal(b, a, f, r)
    {
    }
  }

  /** A square is in line with itself, and on the same diagonal as itself. */
  lemma CheckSameSquare(st: Dict, a: string)
    requires HasAllSquares(st) && IsSquare(a)
    ensures CheckLine(st, a, a) == Ok(true)
    ensures CheckDiagonal(st, a, a) == Ok(true)
  {
    CheckLineIff(st, a, a);
    CheckDiagonalIff(st, a, a);
  }

  /** On an empty board a4-e4 and h4-e4 are in line, a5-e4 is not. */
  lemma CheckLineOnEmptyBoard(st: Dict)
    requires forall f, r :: OnBoard(f, r) ==> EmptyAt(st, f, r)
    ensures CheckLine(st, "a4", "e4") == Ok(true)
    ensures CheckLine(st, "h4", "e4") == Ok(true)
    ensures CheckLine(st, "a5", "e4") == Ok(false)
  {
    CheckLineIff(st, "a4", "e4");
    CheckLineIff(st, "h4", "e4");
    CheckLineIff(st, "a5", "e4");
  }

  /** d4-e6 and e6-d4 are knight jumps, d4-f7 is not. */
  lemma CheckKnightMoveCases()
    ensures CheckKnightMove("d4", "e6") == Ok(true)
    ensures CheckKnightMove("e6", "d4") == Ok(true)
    ensures CheckKnightMove("d4", "f7") == Ok(false)
  {
  }
}
