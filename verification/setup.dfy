/**
 * `load_state` of `main.py` (lines 17-36): the board a game starts from. A
 * dict of all 64 squares, every one `''`, is built first; then a layout is
 * chosen by the argument and each of its entries is written over the board.
 * Whether the argument names a file, and the layout read from that file, are
 * parameters here.
 */
module Setup {
  import opened PyDict
  import opened Chess
  import opened Geometry

  /** The `i`-th key of `{c + r: '' for c in COLUMNS for r in ROWS}`: files outer, ranks inner. */
  function SquareOrder(i: int): (s: string)
    requires 0 <= i < 64
  {
    SquareName(i / 8, i % 8 + 1)
  }

  /**
   * `{c + r: '' for c in COLUMNS for r in ROWS}`: the 64 squares in the order
   * the comprehension inserts them, each mapped to `''`.
   */
  function EmptyBoard(): Dict {
    var keys := seq(64, i requires 0 <= i < 64 => SquareOrder(i));
    Dict(keys, map k | k in keys :: "")
  }

  /** Every key `c + r` of the comprehension is a square of file `c` and rank `r`. */
  lemma SquareOrderSquares()
    ensures forall i :: 0 <= i < 64 ==>
      IsSquare(SquareOrder(i)) && FileOf(SquareOrder(i)) == i / 8 && RankOf(SquareOrder(i)) == i % 8 + 1
  {
    forall i | 0 <= i < 64
      ensures IsSquare(SquareOrder(i)) && FileOf(SquareOrder(i)) == i / 8 && RankOf(SquareOrder(i)) == i % 8 + 1
    {
      SquareNameRoundTrip(i / 8, i % 8 + 1, "");
    }
  }

  /** The comprehension produces no key twice. */
  lemma SquareOrderDistinct()
    ensures forall i, j :: 0 <= i < j < 64 ==> SquareOrder(i) != SquareOrder(j)
  {
    SquareOrderSquares();
  }

  /** Square (f, r) is the comprehension's key number `8 * f + r - 1`. */
  lemma SquareOrderAt()
    ensures forall f, r :: OnBoard(f, r) ==> SquareOrder(8 * f + r - 1) == SquareName(f, r)
  {
    forall f, r | OnBoard(f, r)
      ensures SquareOrder(8 * f + r - 1) == SquareName(f, r)
    {
      var i := 8 * f + r - 1;
      assert i / 8 == f && i % 8 + 1 == r;
    }
  }

  /** The starting board is a well-formed dict. */
  lemma EmptyBoardValid()
    ensures EmptyBoard().Valid()
  {
    SquareOrderDistinct();
  }

  /** The starting board lists the 64 squares, files a to h each from rank 1 to 8. */
  lemma EmptyBoardKeys()
    ensures |EmptyBoard().keys| == 64
    ensures forall i :: 0 <= i < 64 ==> EmptyBoard().keys[i] == SquareOrder(i)
  {
  }

  /** Every key of the starting board is a square holding `''`. */
  lemma EmptyBoardSquares()
    ensures forall k :: k in EmptyBoard().vals ==> IsSquare(k) && EmptyBoard().vals[k] == ""
  {
    SquareOrderSquares();
    var d := EmptyBoard();
    forall k | k in d.vals
      ensures IsSquare(k)
    {
      var i :| 0 <= i < 64 && d.keys[i] == k;
    }
  }

  /** Every square is a key of the starting board. */
  lemma EmptyBoardFull()
    ensures HasAllSquares(EmptyBoard())
  {
    var d := EmptyBoard();
    forall f, r | OnBoard(f, r)
      ensures SquareName(f, r) in d.vals
    {
      var i := 8 * f + r - 1;
      assert i / 8 == f && i % 8 + 1 == r;
      assert d.keys[i] == SquareName(f, r);
      assert d.keys[i] in d.keys;
    }
  }

  /** The layout `load_state` lays over the empty board: the file's, `DEFAULT_STATE`, or none. */
  function InitialLayout(arg: string, isFile: bool, fileLayout: Dict): (layout: Dict)
    requires fileLayout.Valid()
    ensures layout.Valid()
  {
    if isFile then fileLayout
    else if arg != "empty" && arg != "default" then EMPTY
    else if arg == "default" then DEFAULT_STATE
    else EMPTY
  }

  /** `state[cord] = tp` for the first `n` entries of `layout`, in its order. */
  function Overlay(base: Dict, layout: Dict, n: nat): Dict
    requires layout.Valid() && n <= |layout.keys|
  {
    if n == 0 then base
    else
      var k := layout.keys[n - 1];
      Overlay(base, layout, n - 1).Set(k, layout.vals[k])
  }

  /** The board `load_state(arg)` returns. */
  function Loaded(arg: string, isFile: bool, fileLayout: Dict): Dict
    requires fileLayout.Valid()
  {
    var layout := InitialLayout(arg, isFile, fileLayout);
    Overlay(EmptyBoard(), layout, |layout.keys|)
  }

  /** `load_state(arg)`, with `os.path.isfile(arg)` and the file's contents given. */
  method LoadState(arg: string, isFile: bool, fileLayout: Dict) returns (state: Dict)
    requires fileLayout.Valid()
    ensures state == Loaded(arg, isFile, fileLayout)
  {
    state := EmptyBoard();
    var current := InitialLayout(arg, isFile, fileLayout);
    var i := 0;
    while i < |current.keys|
      invariant 0 <= i <= |current.keys|
      invariant state == Overlay(EmptyBoard(), current, i)
    {
      var cord := current.keys[i];
      state := state.Set(cord, current.vals[cord]);
      i := i + 1;
    }
  }

  // ---------------------------------------------------------------------
  // What the overlay does
  // ---------------------------------------------------------------------

  /**
   * After the first `n` entries of `layout` are written, key `k` is present iff
   * it was in `base` or among those entries, and an entry written wins over
   * what `base` held.
   */
  lemma {:induction false} OverlayAt(base: Dict, layout: Dict, n: nat, k: string)
    requires layout.Valid() && n <= |layout.keys|
    ensures k in Overlay(base, layout, n).vals <==> k in base.vals || k in layout.keys[..n]
    ensures k in Overlay(base, layout, n).vals ==>
      Overlay(base, layout, n).vals[k] == if k in layout.keys[..n] then layout.vals[k] else base.vals[k]
  {
    if n > 0 {
      var key := layout.keys[n - 1];
      var d := Overlay(base, layout, n - 1);
      OverlayAt(base, layout, n - 1, k);
      assert Overlay(base, layout, n).vals == d.vals[key := layout.vals[key]];
      assert (k in layout.keys[..n]) == (k in layout.keys[..n - 1] || k == key) by {
        assert layout.keys[..n] == layout.keys[..n - 1] + [key];
      }
      if k != key {
        assert (k in Overlay(base, layout, n).vals) == (k in d.vals);
      }
    }
  }

  /** Writing entries into a well-formed dict keeps it well formed. */
  lemma {:induction false} OverlayValid(base: Dict, layout: Dict, n: nat)
    requires base.Valid() && layout.Valid() && n <= |layout.keys|
    ensures Overlay(base, layout, n).Valid()
  {
    if n > 0 {
      OverlayValid(base, layout, n - 1);
    }
  }

  /** Writing a whole valid layout over `base` gives `base`'s map updated by the layout's: the overlay wins. */
  lemma OverlayAll(base: Dict, layout: Dict)
    requires layout.Valid()
    ensures Overlay(base, layout, |layout.keys|).vals == base.vals + layout.vals
  {
    assert layout.keys[..|layout.keys|] == layout.keys;
    forall k | true
      ensures k in Overlay(base, layout, |layout.keys|).vals <==> k in (base.vals + layout.vals)
      ensures k in layout.vals ==> Overlay(base, layout, |layout.keys|).vals[k] == layout.vals[k]
      ensures k !in layout.vals && k in base.vals ==> Overlay(base, layout, |layout.keys|).vals[k] == base.vals[k]
    {
      OverlayAt(base, layout, |layout.keys|, k);
    }
  }

  /** When every key of the layout is already on the board, the overlay adds no key and keeps their order. */
  lemma {:induction false} OverlayKeys(base: Dict, layout: Dict, n: nat)
    requires layout.Valid() && n <= |layout.keys|
    requires forall k :: k in layout.vals ==> k in base.vals
    ensures Overlay(base, layout, n).keys == base.keys
  {
    if n > 0 {
      var k := layout.keys[n - 1];
      var d := Overlay(base, layout, n - 1);
      OverlayKeys(base, layout, n - 1);
      OverlayAt(base, layout, n - 1, k);
      SetEffect(d, k, layout.vals[k]);
      assert d.Set(k, layout.vals[k]).keys == d.Set(k, layout.vals[k]).keys[..|d.keys|];
    }
  }

  // ---------------------------------------------------------------------
  // The boards `load_state` returns
  // ---------------------------------------------------------------------

  /**
   * When the chosen layout's keys are all squares, the board keeps the 64
   * squares in comprehension order and no other key; squares the layout
   * lists take its value and the rest stay `''`.
   */
  lemma LoadedShape(arg: string, isFile: bool, fileLayout: Dict)
    requires fileLayout.Valid()
    requires isFile ==> forall k :: k in fileLayout.vals ==> IsSquare(k)
    ensures var d, layout := Loaded(arg, isFile, fileLayout), InitialLayout(arg, isFile, fileLayout);
      d.Valid() && |d.keys| == 64 && (forall i :: 0 <= i < 64 ==> d.keys[i] == SquareOrder(i)) &&
      HasAllSquares(d) && (forall k :: k in d.vals ==> IsSquare(k)) &&
      forall k :: k in d.vals ==> d.vals[k] == if k in layout.vals then layout.vals[k] else ""
  {
    var layout := InitialLayout(arg, isFile, fileLayout);
    EmptyBoardValid();
    EmptyBoardKeys();
    EmptyBoardSquares();
    EmptyBoardFull();
    DefaultStateLayout();
    assert forall k :: k in layout.vals ==> IsSquare(k);
    assert forall k :: k in layout.vals ==> k in EmptyBoard().vals by {
      forall k | k in layout.vals ensures k in EmptyBoard().vals {
        SquareNameRoundTrip(0, 1, k);
      }
    }
    OverlayKeys(EmptyBoard(), layout, |layout.keys|);
    OverlayAll(EmptyBoard(), layout);
    OverlayValid(EmptyBoard(), layout, |layout.keys|);
  }

  /**
   * `load_state('default')`, when no file of that name exists, is the
   * standard starting position: all 64 squares in order, each holding exactly
   * the starting piece (`''` on ranks 3 to 6).
   */
  lemma LoadedDefault(fileLayout: Dict)
    requires fileLayout.Valid()
    ensures var d := Loaded("default", false, fileLayout);
      |d.keys| == 64 && (forall i :: 0 <= i < 64 ==> d.keys[i] == SquareOrder(i)) &&
      forall f, r :: OnBoard(f, r) ==> SquareName(f, r) in d.vals && d.vals[SquareName(f, r)] == StartingPiece(f, r)
  {
    LoadedShape("default", false, fileLayout);
    DefaultStateLayout();
    var d := Loaded("default", false, fileLayout);
    forall f, r | OnBoard(f, r)
      ensures d.vals[SquareName(f, r)] == StartingPiece(f, r)
    {
      var k := SquareName(f, r);
      SquareNameRoundTrip(f, r, "");
      if k !in DEFAULT_STATE.vals {
        assert r !in {1, 2, 7, 8};
      }
    }
  }

  /**
   * `load_state('empty')`, or with any argument that is neither a file nor
   * `'default'`, is the empty board: 64 squares, all `''`.
   */
  lemma LoadedEmpty(arg: string, fileLayout: Dict)
    requires fileLayout.Valid() && arg != "default"
    ensures var d := Loaded(arg, false, fileLayout);
      |d.keys| == 64 && (forall i :: 0 <= i < 64 ==> d.keys[i] == SquareOrder(i)) &&
      HasAllSquares(d) && forall k :: k in d.vals ==> d.vals[k] == ""
    ensures var d := Loaded(arg, false, fileLayout);
      "a1" in d.vals && d.vals["a1"] == ""
  {
    LoadedShape(arg, false, fileLayout);
    var d := Loaded(arg, false, fileLayout);
    assert SquareName(0, 1) == "a1" by {
      AlphabetsInOrder();
    }
  }
}
