/**
 * The board vocabulary of the `chess` package: the column and row alphabets,
 * square names, occupant codes and the initial layout `DEFAULT_STATE`.
 */
module Chess {
  import opened PyStr
  import opened PyDict

  /** `chr(ord(base) + i)` as a one-character string. */
  function Shifted(base: char, i: nat): string
    requires base as int + i < 0xD800
  {
    [(base as int + i) as char]
  }

  /** `[chr(ord(base) + i) for i in range(n)]`. */
  function Alphabet(base: char, n: nat): (s: seq<string>)
    requires base as int + n <= 0xD800
    ensures |s| == n
    ensures forall i :: 0 <= i < n ==> s[i] == Shifted(base, i)
  {
    if n == 0 then [] else Alphabet(base, n - 1) + [Shifted(base, n - 1)]
  }

  /** `COLUMNS`: the files 'a' to 'h', as one-character strings. */
  const COLUMNS: seq<string> := Alphabet('a', 8)

  /** `ROWS`: the ranks '1' to '8', as one-character strings. */
  const ROWS: seq<string> := Alphabet('1', 8)

  /** File index `f` (0 for 'a') and rank `r` (1 to 8) name a square of the board. */
  predicate OnBoard(f: int, r: int) {
    0 <= f < 8 && 1 <= r <= 8
  }

  /** The square name `COLUMNS[f] + ROWS[r - 1]`, e.g. "e4" for f = 4, r = 4. */
  function SquareName(f: int, r: int): (s: string)
    requires OnBoard(f, r)
  {
    COLUMNS[f] + ROWS[r - 1]
  }

  /** A square's name is its file letter followed by its rank digit. */
  lemma SquareNameChars(f: int, r: int)
    requires OnBoard(f, r)
    ensures SquareName(f, r) == [('a' as int + f) as char, ('0' as int + r) as char]
  {
    assert COLUMNS[f] == Shifted('a', f) && ROWS[r - 1] == Shifted('1', r - 1);
  }

  /** `s` is one of the 64 names `[a-h][1-8]`. */
  predicate IsSquare(s: string) {
    |s| == 2 && 'a' <= s[0] <= 'h' && '1' <= s[1] <= '8'
  }

  /** `ord(s[0]) - ord('a')`. */
  function FileOf(s: string): int
    requires |s| >= 1
  {
    s[0] as int - 'a' as int
  }

  /** `int(s[1])` when `s[1]` is a digit. */
  function RankOf(s: string): int
    requires |s| >= 2
  {
    s[1] as int - '0' as int
  }

  const COLOURS: string := "wb"
  const KINDS: string := "kqbnrp"

  /** An occupant code: a colour `w`/`b` followed by a kind `k q b n r p`. */
  predicate IsPieceCode(v: string) {
    |v| == 2 && v[0] in COLOURS && v[1] in KINDS
  }

  /** `DEFAULT_STATE`, entry by entry, in the order of the literal. */
  const DEFAULT_PAIRS: seq<(string, string)> := [
    ("a8", "br"), ("b8", "bn"), ("c8", "bb"), ("d8", "bq"),
    ("e8", "bk"), ("f8", "bb"), ("g8", "bn"), ("h8", "br"),
    ("a7", "bp"), ("b7", "bp"), ("c7", "bp"), ("d7", "bp"),
    ("e7", "bp"), ("f7", "bp"), ("g7", "bp"), ("h7", "bp"),
    ("a2", "wp"), ("b2", "wp"), ("c2", "wp"), ("d2", "wp"),
    ("e2", "wp"), ("f2", "wp"), ("g2", "wp"), ("h2", "wp"),
    ("a1", "wr"), ("b1", "wn"), ("c1", "wb"), ("d1", "wq"),
    ("e1", "wk"), ("f1", "wb"), ("g1", "wn"), ("h1", "wr")
  ]

  /** The starting position as the dict literal builds it. */
  const DEFAULT_STATE: Dict := FromPairs(DEFAULT_PAIRS)

  /** The back rank, from file a to file h. */
  const BACK_RANK: string := "rnbqkbnr"

  /**
   * The occupant of square (f, r) in the standard starting position, as a
   * reference independent of the literal: white on ranks 1 and 2, black on
   * 7 and 8, pawns on 2 and 7, the back rank r n b q k b n r, nothing else.
   */
  function StartingPiece(f: int, r: int): (v: string)
    requires OnBoard(f, r)
  {
    if r == 1 then "w" + [BACK_RANK[f]]
    else if r == 2 then "wp"
    else if r == 7 then "bp"
    else if r == 8 then "b" + [BACK_RANK[f]]
    else ""
  }

  /** Both alphabets are in order, and `str(r)` is row `r`'s name. */
  lemma AlphabetsInOrder()
    ensures COLUMNS == ["a", "b", "c", "d", "e", "f", "g", "h"]
    ensures ROWS == ["1", "2", "3", "4", "5", "6", "7", "8"]
    ensures forall r :: 1 <= r <= 8 ==> ROWS[r - 1] == IntStr(r)
  {
  }

  /** Square names and (file, rank) pairs convert into each other both ways. */
  lemma SquareNameRoundTrip(f: int, r: int, s: string)
    ensures OnBoard(f, r) ==>
      IsSquare(SquareName(f, r)) && FileOf(SquareName(f, r)) == f && RankOf(SquareName(f, r)) == r
    ensures IsSquare(s) ==> OnBoard(FileOf(s), RankOf(s)) && SquareName(FileOf(s), RankOf(s)) == s
  {
    if IsSquare(s) {
      assert SquareName(FileOf(s), RankOf(s)) == [s[0]] + [s[1]] == s;
    }
  }

  /** The rank of the `i`-th entry of `DEFAULT_PAIRS`: the literal lists ranks 8, 7, 2, 1, each from a to h. */
  function DefaultEntryRank(i: int): int
    requires 0 <= i < 32
  {
    [8, 7, 2, 1][i / 8]
  }

  /** Entry `i` of the literal is file `i % 8` of rank `DefaultEntryRank(i)`, holding the starting piece. */
  lemma DefaultEntries()
    ensures forall i :: 0 <= i < 32 ==>
      OnBoard(i % 8, DefaultEntryRank(i)) &&
      DEFAULT_PAIRS[i].0 == SquareName(i % 8, DefaultEntryRank(i)) &&
      DEFAULT_PAIRS[i].1 == StartingPiece(i % 8, DefaultEntryRank(i))
  {
    forall i | 0 <= i < 32
      ensures OnBoard(i % 8, DefaultEntryRank(i))
      ensures DEFAULT_PAIRS[i].0 == SquareName(i % 8, DefaultEntryRank(i))
      ensures DEFAULT_PAIRS[i].1 == StartingPiece(i % 8, DefaultEntryRank(i))
    {
      DefaultEntry(i);
    }
  }

  /** Entry `i` of the literal, by the rank it falls in. */
  lemma DefaultEntry(i: int)
    requires 0 <= i < 32
    ensures OnBoard(i % 8, DefaultEntryRank(i))
    ensures DEFAULT_PAIRS[i].0 == SquareName(i % 8, DefaultEntryRank(i))
    ensures DEFAULT_PAIRS[i].1 == StartingPiece(i % 8, DefaultEntryRank(i))
  {
    var f, r := i % 8, DefaultEntryRank(i);
    if i < 8 {
      DefaultEntriesRank8(i);
    } else if i < 16 {
      DefaultEntriesRank7(i);
    } else if i < 24 {
      DefaultEntriesRank2(i);
    } else {
      DefaultEntriesRank1(i);
    }
    SquareNameChars(f, r);
    var (k, v) := DEFAULT_PAIRS[i];
    assert k == [k[0], k[1]] && v == [v[0], v[1]];
  }

  /**
   * Entry `i` of the literal is the square of file `i % 8` and rank `r`
   * holding colour `colour` and kind `kind`, character by character.
   */
  ghost predicate EntryChars(i: int, r: int, colour: char, kind: char)
    requires 0 <= i < 32 && 1 <= r <= 8
  {
    var (k, v) := DEFAULT_PAIRS[i];
    |k| == 2 && k[0] == ('a' as int + i % 8) as char && k[1] == ('0' as int + r) as char &&
    |v| == 2 && v[0] == colour && v[1] == kind
  }

  /** Entries 0 to 7 of the literal: rank 8, files a to h. */
  lemma DefaultEntriesRank8(i: int)
    requires 0 <= i < 8
    ensures DefaultEntryRank(i) == 8 && EntryChars(i, 8, 'b', BACK_RANK[i % 8])
  {
    assert i == 0 || i == 1 || i == 2 || i == 3 || i == 4 || i == 5 || i == 6 || i == 7;
  }

  /** Entries 8 to 15 of the literal: rank 7, files a to h. */
  lemma DefaultEntriesRank7(i: int)
    requires 8 <= i < 16
    ensures DefaultEntryRank(i) == 7 && EntryChars(i, 7, 'b', 'p')
  {
    assert i == 8 || i == 9 || i == 10 || i == 11 || i == 12 || i == 13 || i == 14 || i == 15;
  }

  /** Entries 16 to 23 of the literal: rank 2, files a to h. */
  lemma DefaultEntriesRank2(i: int)
    requires 16 <= i < 24
    ensures DefaultEntryRank(i) == 2 && EntryChars(i, 2, 'w', 'p')
  {
    assert i == 16 || i == 17 || i == 18 || i == 19 || i == 20 || i == 21 || i == 22 || i == 23;
  }

  /** Entries 24 to 31 of the literal: rank 1, files a to h. */
  lemma DefaultEntriesRank1(i: int)
    requires 24 <= i < 32
    ensures DefaultEntryRank(i) == 1 && EntryChars(i, 1, 'w', BACK_RANK[i % 8])
  {
    assert i == 24 || i == 25 || i == 26 || i == 27 || i == 28 || i == 29 || i == 30 || i == 31;
  }

  /** No square is listed twice in the literal. */
  lemma DefaultKeysDistinct()
    ensures DistinctKeys(DEFAULT_PAIRS)
  {
    DefaultEntries();
    forall i, j | 0 <= i < j < 32
      ensures DEFAULT_PAIRS[i].0 != DEFAULT_PAIRS[j].0
    {
      SquareNameRoundTrip(i % 8, DefaultEntryRank(i), "");
      SquareNameRoundTrip(j % 8, DefaultEntryRank(j), "");
    }
  }

  /** Where the literal lists square (f, r). */
  function DefaultEntryIndex(f: int, r: int): (i: int)
    requires OnBoard(f, r) && r in {1, 2, 7, 8}
    ensures 0 <= i < 32 && i % 8 == f && DefaultEntryRank(i) == r
  {
    if r == 8 then f else if r == 7 then 8 + f else if r == 2 then 16 + f else 24 + f
  }

  /** The literal's entries, in terms of their index. */
  ghost predicate ListsStartingPosition(pairs: seq<(string, string)>) {
    |pairs| == 32 &&
    forall i :: 0 <= i < 32 ==>
      OnBoard(i % 8, DefaultEntryRank(i)) &&
      pairs[i].0 == SquareName(i % 8, DefaultEntryRank(i)) &&
      pairs[i].1 == StartingPiece(i % 8, DefaultEntryRank(i))
  }

  /** Ranks 1, 2, 7 and 8 of the starting position hold piece codes: w on 1 and 2, b on 7 and 8. */
  lemma StartingPieceCode(f: int, r: int)
    requires OnBoard(f, r) && r in {1, 2, 7, 8}
    ensures IsPieceCode(StartingPiece(f, r))
    ensures StartingPiece(f, r)[0] == (if r <= 2 then 'w' else 'b')
  {
    assert BACK_RANK[f] in KINDS by {
      assert f == 0 || f == 1 || f == 2 || f == 3 || f == 4 || f == 5 || f == 6 || f == 7;
    }
  }

  lemma StartingEntry(pairs: seq<(string, string)>, i: int)
    requires ListsStartingPosition(pairs) && 0 <= i < 32
    ensures IsSquare(pairs[i].0) && RankOf(pairs[i].0) in {1, 2, 7, 8} && IsPieceCode(pairs[i].1)
    ensures pairs[i].1 == StartingPiece(FileOf(pairs[i].0), RankOf(pairs[i].0))
  {
    var f, r := i % 8, DefaultEntryRank(i);
    SquareNameRoundTrip(f, r, "");
    StartingPieceCode(f, r);
  }

  /** Every key of the literal's dict is a square holding its starting piece. */
  lemma {:induction false} StartingPositionKeys(pairs: seq<(string, string)>)
    requires ListsStartingPosition(pairs) && DistinctKeys(pairs)
    ensures FromPairs(pairs).Valid() && |FromPairs(pairs).keys| == 32
    ensures forall k :: k in FromPairs(pairs).vals ==>
      IsSquare(k) && RankOf(k) in {1, 2, 7, 8} &&
      IsPieceCode(FromPairs(pairs).vals[k]) &&
      FromPairs(pairs).vals[k] == StartingPiece(FileOf(k), RankOf(k))
  {
    FromPairsDistinct(pairs);
    var d := FromPairs(pairs);
    forall k | k in d.vals
      ensures IsSquare(k) && RankOf(k) in {1, 2, 7, 8} && IsPieceCode(d.vals[k])
      ensures d.vals[k] == StartingPiece(FileOf(k), RankOf(k))
    {
      var i :| 0 <= i < 32 && d.keys[i] == k;
      StartingEntry(pairs, i);
    }
  }

  /** Every square of ranks 1, 2, 7 and 8 is a key of the literal's dict. */
  lemma {:induction false} StartingPositionCovers(pairs: seq<(string, string)>)
    requires ListsStartingPosition(pairs) && DistinctKeys(pairs)
    ensures forall f, r :: OnBoard(f, r) && r in {1, 2, 7, 8} ==> SquareName(f, r) in FromPairs(pairs).vals
  {
    FromPairsDistinct(pairs);
    var d := FromPairs(pairs);
    forall f, r | OnBoard(f, r) && r in {1, 2, 7, 8}
      ensures SquareName(f, r) in d.vals
    {
      var i := DefaultEntryIndex(f, r);
      assert d.keys[i] == pairs[i].0;
    }
  }

  /**
   * `DEFAULT_STATE` is a dict of 32 distinct squares. Every key is a square of
   * rank 1, 2, 7 or 8 holding a piece code, and exactly the piece the starting
   * position puts there; every square of those four ranks is present, so ranks
   * 3 to 6 are the absent ones.
   */
  lemma DefaultStateLayout()
    ensures DEFAULT_STATE.Valid() && |DEFAULT_STATE.keys| == 32
    ensures forall k :: k in DEFAULT_STATE.vals ==>
      IsSquare(k) && RankOf(k) in {1, 2, 7, 8} &&
      IsPieceCode(DEFAULT_STATE.vals[k]) &&
      DEFAULT_STATE.vals[k] == StartingPiece(FileOf(k), RankOf(k))
    ensures forall f, r :: OnBoard(f, r) && r in {1, 2, 7, 8} ==> SquareName(f, r) in DEFAULT_STATE.vals
  {
    DefaultKeysDistinct();
    DefaultEntries();
    StartingPositionKeys(DEFAULT_PAIRS);
    StartingPositionCovers(DEFAULT_PAIRS);
  }

  /** A dict laid out as the starting position has the white rook on a1 and the black king on e8. */
  lemma StartingCorners(d: Dict)
    requires forall k :: k in d.vals ==> IsSquare(k) && d.vals[k] == StartingPiece(FileOf(k), RankOf(k))
    requires forall f, r :: OnBoard(f, r) && r in {1, 2, 7, 8} ==> SquareName(f, r) in d.vals
    ensures "a1" in d.vals && d.vals["a1"] == "wr"
    ensures "e8" in d.vals && d.vals["e8"] == "bk"
  {
    assert SquareName(0, 1) == "a1" && SquareName(4, 8) == "e8" by {
      AlphabetsInOrder();
    }
    assert StartingPiece(0, 1) == "wr" && StartingPiece(4, 8) == "bk";
  }

  /** Two entries the starting position is known by: a1 holds the white rook, e8 the black king. */
  lemma DefaultStateCorners()
    ensures "a1" in DEFAULT_STATE.vals && DEFAULT_STATE.vals["a1"] == "wr"
    ensures "e8" in DEFAULT_STATE.vals && DEFAULT_STATE.vals["e8"] == "bk"
  {
    DefaultStateLayout();
    StartingCorners(DEFAULT_STATE);
  }

}
