/**
 The tic-tac-toe game engine: a 3x3 board held in a 9-cell array, the player to
 move, and a flag that locks the board once the game is won or drawn.

 The engine is specified by the pure transition function `Play` on `GameState`
 values; the class `Game` keeps the state in mutable fields, as the page does.
 Its click handler is proved to follow `Play`; its constructor and its restart
 are proved to produce `Initial`.
 */
module TicTacToe {

  datatype Option<T> = None | Some(value: T)

  /** A cell holds nothing (the page's empty string) or one of the two marks. */
  datatype Cell = Empty | X | O

  /** The player to move is always a mark, never an empty cell. */
  type Player = c: Cell | c != Empty witness X

  /** Cells are numbered 0..8 in row-major order. */
  const Size: nat := 9

  type Index = i: int | 0 <= i < 9

  /** A winning line is a triple of cell indices. */
  type Line = (Index, Index, Index)

  /** The 8 winning lines, in the order they are checked: rows, columns, diagonals. */
  const WinLines: seq<Line> := [
    (0, 1, 2), (3, 4, 5), (6, 7, 8),
    (0, 3, 6), (1, 4, 7), (2, 5, 8),
    (0, 4, 8), (2, 4, 6)
  ]

  function Other(p: Player): (q: Player)
    ensures q != p
  {
    if p == X then O else X
  }

  /** All three cells of `l` hold the same mark. */
  predicate Complete(b: seq<Cell>, l: Line)
    requires |b| == Size
    ensures Complete(b, l) <==>
            (b[l.0] == X && b[l.1] == X && b[l.2] == X) || (b[l.0] == O && b[l.1] == O && b[l.2] == O)
  {
    b[l.0] != Empty && b[l.0] == b[l.1] && b[l.0] == b[l.2]
  }

  /** The index of the first complete line at or after `k`, or |WinLines| if there is none. */
  function FirstComplete(b: seq<Cell>, k: nat): (j: nat)
    requires |b| == Size && k <= |WinLines|
    ensures k <= j <= |WinLines|
    ensures j < |WinLines| ==> Complete(b, WinLines[j])
    ensures forall i :: k <= i < j ==> !Complete(b, WinLines[i])
    decreases |WinLines| - k
  {
    if k == |WinLines| then k
    else if Complete(b, WinLines[k]) then k
    else FirstComplete(b, k + 1)
  }

  /** Line number `i` is complete and no line checked before it is. */
  predicate FirstCompleteAt(b: seq<Cell>, i: int)
    requires |b| == Size
  {
    0 <= i < |WinLines| && Complete(b, WinLines[i]) &&
    forall j :: 0 <= j < i ==> !Complete(b, WinLines[j])
  }

  /** The first complete line in declared order, or None when no line is complete. */
  function WinningLine(b: seq<Cell>): (r: Option<Line>)
    requires |b| == Size
    ensures r.None? <==> forall i :: 0 <= i < |WinLines| ==> !Complete(b, WinLines[i])
    ensures r.Some? ==> exists i :: FirstCompleteAt(b, i) && WinLines[i] == r.value
  {
    var j := FirstComplete(b, 0);
    if j < |WinLines| then Some(WinLines[j]) else None
  }

  /** The scan over the winning lines with an early return, as the page runs it. */
  method GetWinningLine(b: array<Cell>) returns (r: Option<Line>)
    requires b.Length == Size
    ensures r == WinningLine(b[..])
  {
    var k := 0;
    while k < |WinLines|
      invariant 0 <= k <= |WinLines|
      invariant FirstComplete(b[..], k) == FirstComplete(b[..], 0)
    {
      var (x, y, z) := WinLines[k];
      if b[x] != Empty && b[x] == b[y] && b[x] == b[z] {
        return Some(WinLines[k]);
      }
      k := k + 1;
    }
    return None;
  }

  /** Every cell is taken. */
  function IsDraw(b: seq<Cell>): (full: bool)
    ensures full <==> Empty !in b
  {
    forall i :: 0 <= i < |b| ==> b[i] != Empty
  }

  /** The number of cells of `b` holding `c`. */
  function Count(b: seq<Cell>, c: Cell): (n: nat)
    ensures n <= |b|
  {
    if b == [] then 0 else (if b[0] == c then 1 else 0) + Count(b[1..], c)
  }

  /** Writing `v` into cell `i` moves one unit of count from the old content to `v`. */
  lemma {:induction false} CountUpdate(b: seq<Cell>, i: int, v: Cell, c: Cell)
    requires 0 <= i < |b|
    ensures Count(b[i := v], c) ==
            Count(b, c) - (if b[i] == c then 1 else 0) + (if v == c then 1 else 0)
  {
    if i == 0 {
      assert b[i := v][1..] == b[1..];
    } else {
      assert b[i := v][1..] == b[1..][i - 1 := v];
      CountUpdate(b[1..], i - 1, v, c);
    }
  }

  /** A mark that does not occur is counted zero times. */
  lemma {:induction false} CountAbsent(b: seq<Cell>, c: Cell)
    requires c !in b
    ensures Count(b, c) == 0
  {
    if b != [] {
      assert c !in b[1..] by {
        forall k | 0 <= k < |b[1..]| ensures b[1..][k] != c { assert b[1..][k] == b[k + 1]; }
      }
      CountAbsent(b[1..], c);
    }
  }

  /** The whole observable state of a game. */
  datatype GameState = GameState(board: seq<Cell>, current: Player, over: bool)

  /** What a move reports; everything except `Ignored` replaces the status line. */
  datatype Outcome = Ignored | Won(winner: Player, line: Line) | Draw | NextTurn(player: Player)

  /** The state on page load and after a restart. */
  const Initial: GameState := GameState(seq(Size, _ => Empty), X, false)

  /**
   What the page reads at `board[index]`: the cell inside the board, and nothing
   (`undefined`, which differs from every cell value) outside it.
   */
  function CellAt(b: seq<Cell>, index: int): Option<Cell>
  {
    if 0 <= index < |b| then Some(b[index]) else None
  }

  /**
   A move is accepted only before the end, inside the board and onto an empty
   cell: the page returns early when the game is over or when the value read
   at the index is not the empty cell.
   */
  predicate Legal(s: GameState, index: int)
    requires |s.board| == Size
    ensures Legal(s, index) <==> !s.over && CellAt(s.board, index) == Some(Empty)
  {
    !s.over && 0 <= index < Size && s.board[index] == Empty
  }

  /**
   The effect of clicking cell `index`: write the mover's mark, then check for a
   win before a draw, and hand the turn over only when the game goes on.
   */
  function Play(s: GameState, index: int): (r: (GameState, Outcome))
    requires |s.board| == Size
    ensures |r.0.board| == Size
    ensures r.1 == Ignored <==> !Legal(s, index)
    ensures r.1 == Ignored ==> r.0 == s
    // exactly the clicked cell changes, and it receives the mover's mark
    ensures Legal(s, index) ==> r.0.board[index] == s.current
    ensures forall i :: 0 <= i < Size && i != index ==> r.0.board[i] == s.board[i]
    // the reported result: a win takes precedence over a full board
    ensures r.1.Won? <==> Legal(s, index) && WinningLine(r.0.board).Some?
    ensures r.1.Won? ==> r.1.winner == s.current && Some(r.1.line) == WinningLine(r.0.board)
    ensures r.1.Draw? <==> Legal(s, index) && WinningLine(r.0.board).None? && IsDraw(r.0.board)
    // the game ends exactly on a win or a draw, and the turn passes only otherwise
    ensures r.0.over <==> s.over || r.1.Won? || r.1.Draw?
    ensures r.0.current == (if r.1.NextTurn? then Other(s.current) else s.current)
    ensures r.1.NextTurn? ==> r.1.player == r.0.current
  {
    if !Legal(s, index) then (s, Ignored)
    else
      var b := s.board[index := s.current];
      match WinningLine(b)
      case Some(l) => (GameState(b, s.current, true), Won(s.current, l))
      case None =>
        if IsDraw(b) then (GameState(b, s.current, true), Draw)
        else (GameState(b, Other(s.current), false), NextTurn(Other(s.current)))
  }

  /** The cell's button is disabled exactly when a click on it would be ignored. */
  function CellDisabled(s: GameState, i: Index): (disabled: bool)
    requires |s.board| == Size
    ensures disabled <==> Play(s, i).1 == Ignored
  {
    s.over || s.board[i] != Empty
  }

  /** The letter a mark is shown as, on its cell and in the status line. */
  function MarkText(p: Player): (t: string)
    ensures |t| == 1
    ensures p == X <==> t == "X"
    ensures p == O <==> t == "O"
  {
    if p == X then "X" else "O"
  }

  /** The status line written after an accepted move. */
  function StatusText(o: Outcome): (t: string)
    requires !o.Ignored?
    ensures t == "Draw!" <==> o.Draw?
    ensures o.Won? ==> |t| > 0 && t[0] == MarkText(o.winner)[0]
    ensures o.NextTurn? ==> |t| > 0 && t[0] == MarkText(o.player)[0]
  {
    match o
    case Won(p, _) => MarkText(p) + " wins!"
    case Draw => "Draw!"
    case NextTurn(p) => MarkText(p) + "\U{2019}s turn"
  }

  /** The state after a sequence of clicks. */
  function PlayAll(s: GameState, moves: seq<int>): (r: GameState)
    requires |s.board| == Size
    ensures |r.board| == Size
    decreases |moves|
  {
    if moves == [] then s else PlayAll(Play(s, moves[0]).0, moves[1..])
  }

  /**
   The invariant of every state reachable by clicks from `Initial`: X moves
   first and the marks alternate, the game is over exactly when a line is
   complete or the board is full, and a complete line belongs to the player
   who is still recorded as current (the one who made the last move).
   */
  ghost predicate Consistent(s: GameState)
  {
    |s.board| == Size &&
    var nx, no := Count(s.board, X), Count(s.board, O);
    (nx == no || nx == no + 1) &&
    (!s.over ==> (s.current == X <==> nx == no)) &&
    (s.over ==> (s.current == X <==> nx == no + 1)) &&
    (!s.over ==> WinningLine(s.board).None? && !IsDraw(s.board)) &&
    (s.over ==> WinningLine(s.board).Some? || IsDraw(s.board)) &&
    (s.over && WinningLine(s.board).Some? ==> s.board[WinningLine(s.board).value.0] == s.current)
  }

  lemma InitialConsistent()
    ensures Consistent(Initial)
  {
    var b := Initial.board;
    assert X !in b && O !in b;
    CountAbsent(b, X);
    CountAbsent(b, O);
    assert !Complete(b, WinLines[0]);
    assert b[0] == Empty;
  }

  /** A line completed by writing `p` into an empty cell of a board without a complete line runs through that cell and holds `p`. */
  lemma {:induction false} NewLineThroughMove(b: seq<Cell>, index: Index, p: Player, l: Line)
    requires |b| == Size && b[index] == Empty
    requires l in WinLines && !Complete(b, l)
    requires Complete(b[index := p], l)
    ensures index == l.0 || index == l.1 || index == l.2
    ensures b[index := p][l.0] == p
  {
  }

  /** Every accepted or ignored click keeps a reachable state reachable. */
  lemma {:induction false} PlayPreservesConsistent(s: GameState, index: int)
    requires Consistent(s)
    ensures Consistent(Play(s, index).0)
  {
    if Legal(s, index) {
      var b := s.board[index := s.current];
      CountUpdate(s.board, index, s.current, X);
      CountUpdate(s.board, index, s.current, O);
      var w := WinningLine(b);
      if w.Some? {
        var i :| FirstCompleteAt(b, i) && WinLines[i] == w.value;
        assert !Complete(s.board, WinLines[i]);
        NewLineThroughMove(s.board, index, s.current, w.value);
      } else if IsDraw(b) {
        // the ninth mark is X's: nine cells, five X and four O
        assert !IsDraw(s.board);
        assert Count(b, X) + Count(b, O) == Size by { CountFull(b); }
      } else {
        assert Empty in b;
      }
    }
  }

  /** On a full board the two marks account for every cell. */
  lemma {:induction false} CountFull(b: seq<Cell>)
    requires Empty !in b
    ensures Count(b, X) + Count(b, O) == |b|
  {
    if b != [] {
      assert Empty !in b[1..] by {
        forall k | 0 <= k < |b[1..]| ensures b[1..][k] != Empty { assert b[1..][k] == b[k + 1]; }
      }
      CountFull(b[1..]);
    }
  }

  /** Any sequence of clicks from a reachable state stays reachable. */
  lemma {:induction false} PlayAllPreservesConsistent(s: GameState, moves: seq<int>)
    requires Consistent(s)
    ensures Consistent(PlayAll(s, moves))
    decreases |moves|
  {
    if moves != [] {
      PlayPreservesConsistent(s, moves[0]);
      PlayAllPreservesConsistent(Play(s, moves[0]).0, moves[1..]);
    }
  }

  /**
   From the empty board, while the game goes on X has made as many moves as O
   or one more, and it is X's turn exactly when the counts are equal.
   */
  lemma TurnsAlternate(moves: seq<int>)
    ensures var s := PlayAll(Initial, moves);
            var nx, no := Count(s.board, X), Count(s.board, O);
            (nx == no || nx == no + 1) &&
            (!s.over ==> (s.current == X <==> nx == no))
  {
    InitialConsistent();
    PlayAllPreservesConsistent(Initial, moves);
  }

  /** A mark, once written, survives every later click. */
  lemma {:induction false} MarksAreNeverOverwritten(s: GameState, moves: seq<int>, i: Index)
    requires |s.board| == Size && s.board[i] != Empty
    ensures PlayAll(s, moves).board[i] == s.board[i]
    decreases |moves|
  {
    if moves != [] {
      MarksAreNeverOverwritten(Play(s, moves[0]).0, moves[1..], i);
    }
  }

  /** Once the game is over, no click changes anything until a restart. */
  lemma {:induction false} OverIsFinal(s: GameState, moves: seq<int>)
    requires |s.board| == Size && s.over
    ensures PlayAll(s, moves) == s
    decreases |moves|
  {
    if moves != [] {
      OverIsFinal(Play(s, moves[0]).0, moves[1..]);
    }
  }

  /** No line is complete, spelled out line by line so that concrete boards can be checked. */
  ghost predicate NoLineOn(b: seq<Cell>)
    requires |b| == Size
  {
    !Complete(b, WinLines[0]) && !Complete(b, WinLines[1]) && !Complete(b, WinLines[2]) &&
    !Complete(b, WinLines[3]) && !Complete(b, WinLines[4]) && !Complete(b, WinLines[5]) &&
    !Complete(b, WinLines[6]) && !Complete(b, WinLines[7])
  }

  /** A legal move that completes no line and leaves an empty cell hands the turn over. */
  lemma QuietMove(s: GameState, index: Index, spare: Index)
    requires |s.board| == Size && Legal(s, index)
    requires spare != index && s.board[spare] == Empty
    requires NoLineOn(s.board[index := s.current])
    ensures Play(s, index) ==
            (GameState(s.board[index := s.current], Other(s.current), false), NextTurn(Other(s.current)))
  {
    var b := s.board[index := s.current];
    assert b[spare] == Empty;
    forall k | 0 <= k < |WinLines| ensures !Complete(b, WinLines[k]) {
      assert k == 0 || k == 1 || k == 2 || k == 3 || k == 4 || k == 5 || k == 6 || k == 7;
    }
  }

  /** X@0, O@4, X@1, O@5, X@2: X completes the top row. */
  lemma TopRowWin()
    ensures var s := PlayAll(Initial, [0, 4, 1, 5]);
            !s.over && Play(s, 2).1 == Won(X, (0, 1, 2))
  {
    var s1 := GameState(Initial.board[0 := X], O, false);
    var s2 := GameState(s1.board[4 := O], X, false);
    var s3 := GameState(s2.board[1 := X], O, false);
    var s4 := GameState(s3.board[5 := O], X, false);
    QuietMove(Initial, 0, 8);
    QuietMove(s1, 4, 8);
    QuietMove(s2, 1, 8);
    QuietMove(s3, 5, 8);
    assert PlayAll(s3, [5]) == s4;
    assert PlayAll(s2, [1, 5]) == s4;
    assert PlayAll(s1, [4, 1, 5]) == s4;
    assert PlayAll(Initial, [0, 4, 1, 5]) == s4;
    assert Complete(s4.board[2 := X], WinLines[0]);
  }

  /** Clicks played one after another: a sequence of clicks may be split anywhere. */
  lemma {:induction false} PlayAllAppend(s: GameState, a: seq<int>, b: seq<int>)
    requires |s.board| == Size
    ensures PlayAll(s, a + b) == PlayAll(PlayAll(s, a), b)
    decreases |a|
  {
    if a == [] {
      assert a + b == b;
    } else {
      assert (a + b)[0] == a[0] && (a + b)[1..] == a[1..] + b;
      PlayAllAppend(Play(s, a[0]).0, a[1..], b);
    }
  }

  /** X@0, O@1 from the empty board completes no line. */
  lemma OpeningPartOne()
    ensures PlayAll(Initial, [0, 1]) ==
            GameState([X, O, Empty, Empty, Empty, Empty, Empty, Empty, Empty], X, false)
  {
    var s0 := Initial;
    var s1 := GameState(s0.board[0 := X], O, false);
    var s2 := GameState(s1.board[1 := O], X, false);
    QuietMove(s0, 0, 8);
    QuietMove(s1, 1, 8);
    assert PlayAll(s0, [0, 1]) == s2;
    assert s2.board == [X, O, Empty, Empty, Empty, Empty, Empty, Empty, Empty];
  }

  /** Then X@2, O@3 completes no line and leaves X to move. */
  lemma OpeningPartTwo()
    ensures PlayAll(GameState([X, O, Empty, Empty, Empty, Empty, Empty, Empty, Empty], X, false), [2, 3]) ==
            GameState([X, O, X, O, Empty, Empty, Empty, Empty, Empty], X, false)
  {
    var s0 := GameState([X, O, Empty, Empty, Empty, Empty, Empty, Empty, Empty], X, false);
    var s1 := GameState(s0.board[2 := X], O, false);
    var s2 := GameState(s1.board[3 := O], X, false);
    QuietMove(s0, 2, 8);
    QuietMove(s1, 3, 8);
    assert PlayAll(s0, [2, 3]) == s2;
    assert s2.board == [X, O, X, O, Empty, Empty, Empty, Empty, Empty];
  }

  /** After the opening, X@4, O@6 completes no line. */
  lemma DoubleLinePartOne()
    ensures PlayAll(GameState([X, O, X, O, Empty, Empty, Empty, Empty, Empty], X, false), [4, 6]) ==
            GameState([X, O, X, O, X, Empty, O, Empty, Empty], X, false)
  {
    var s0 := GameState([X, O, X, O, Empty, Empty, Empty, Empty, Empty], X, false);
    var s1 := GameState(s0.board[4 := X], O, false);
    var s2 := GameState(s1.board[6 := O], X, false);
    QuietMove(s0, 4, 8);
    QuietMove(s1, 6, 8);
    assert PlayAll(s0, [4, 6]) == s2;
    assert s2.board == [X, O, X, O, X, Empty, O, Empty, Empty];
  }

  /** Then X@5, O@7 completes no line and leaves X to move. */
  lemma DoubleLinePartTwo()
    ensures PlayAll(GameState([X, O, X, O, X, Empty, O, Empty, Empty], X, false), [5, 7]) ==
            GameState([X, O, X, O, X, X, O, O, Empty], X, false)
  {
    var s0 := GameState([X, O, X, O, X, Empty, O, Empty, Empty], X, false);
    var s1 := GameState(s0.board[5 := X], O, false);
    var s2 := GameState(s1.board[7 := O], X, false);
    QuietMove(s0, 5, 8);
    QuietMove(s1, 7, 8);
    assert PlayAll(s0, [5, 7]) == s2;
    assert s2.board == [X, O, X, O, X, X, O, O, Empty];
  }

  /**
   X@8 after `OpeningPartOne`, `OpeningPartTwo`, `DoubleLinePartOne` and `DoubleLinePartTwo`
   completes both the right column and the main diagonal; the column, checked first, is reported and the game ends.
   */
  lemma DoubleLineWin()
    ensures Play(GameState([X, O, X, O, X, X, O, O, Empty], X, false), 8) ==
            (GameState([X, O, X, O, X, X, O, O, X], X, true), Won(X, (2, 5, 8)))
  {
    var b := [X, O, X, O, X, X, O, O, X];
    assert [X, O, X, O, X, X, O, O, Empty][8 := X] == b;
    assert !Complete(b, WinLines[0]) && !Complete(b, WinLines[1]) && !Complete(b, WinLines[2]);
    assert !Complete(b, WinLines[3]) && !Complete(b, WinLines[4]) && Complete(b, WinLines[5]);
    assert FirstComplete(b, 0) == 5;
  }

  /** After the opening, X@5, O@8 completes no line. */
  lemma FullBoardPartOne()
    ensures PlayAll(GameState([X, O, X, O, Empty, Empty, Empty, Empty, Empty], X, false), [5, 8]) ==
            GameState([X, O, X, O, Empty, X, Empty, Empty, O], X, false)
  {
    var s0 := GameState([X, O, X, O, Empty, Empty, Empty, Empty, Empty], X, false);
    var s1 := GameState(s0.board[5 := X], O, false);
    var s2 := GameState(s1.board[8 := O], X, false);
    QuietMove(s0, 5, 7);
    QuietMove(s1, 8, 7);
    assert PlayAll(s0, [5, 8]) == s2;
    assert s2.board == [X, O, X, O, Empty, X, Empty, Empty, O];
  }

  /** Then X@6, O@4 completes no line and leaves X to move. */
  lemma FullBoardPartTwo()
    ensures PlayAll(GameState([X, O, X, O, Empty, X, Empty, Empty, O], X, false), [6, 4]) ==
            GameState([X, O, X, O, O, X, X, Empty, O], X, false)
  {
    var s0 := GameState([X, O, X, O, Empty, X, Empty, Empty, O], X, false);
    var s1 := GameState(s0.board[6 := X], O, false);
    var s2 := GameState(s1.board[4 := O], X, false);
    QuietMove(s0, 6, 7);
    QuietMove(s1, 4, 7);
    assert PlayAll(s0, [6, 4]) == s2;
    assert s2.board == [X, O, X, O, O, X, X, Empty, O];
  }

  /** X@7 after `OpeningPartOne`, `OpeningPartTwo`, `FullBoardPartOne` and
      `FullBoardPartTwo` fills the board with no line: a draw. */
  lemma FullBoardDraw()
    ensures Play(GameState([X, O, X, O, O, X, X, Empty, O], X, false), 7) ==
            (GameState([X, O, X, O, O, X, X, X, O], X, true), Draw)
  {
    var s := GameState([X, O, X, O, O, X, X, Empty, O], X, false);
    assert s.board[7 := X] == [X, O, X, O, O, X, X, X, O];
    forall k | 0 <= k < Size && k != 7 ensures s.board[k] != Empty {
      assert k == 0 || k == 1 || k == 2 || k == 3 || k == 4 || k == 5 || k == 6 || k == 8;
    }
    FillingMove(s, 7);
  }

  /**
   The nine clicks X@0, O@1, X@2, O@3, X@4, O@6, X@5, O@7, X@8 from the empty
   board, given as four pairs and a last click: the first eight complete no
   line, and the ninth wins on the right column.
   */
  lemma DoubleLineFromStart(a: seq<int>, b: seq<int>, c: seq<int>, d: seq<int>)
    requires a == [0, 1] && b == [2, 3] && c == [4, 6] && d == [5, 7]
    ensures PlayAll(Initial, a + b + c + d) == GameState([X, O, X, O, X, X, O, O, Empty], X, false)
    ensures Play(PlayAll(Initial, a + b + c + d), 8).1 == Won(X, (2, 5, 8))
  {
    OpeningPartOne();
    OpeningPartTwo();
    DoubleLinePartOne();
    DoubleLinePartTwo();
    DoubleLineWin();
    PlayAllAppend(Initial, a, b);
    PlayAllAppend(Initial, a + b, c);
    PlayAllAppend(Initial, a + b + c, d);
  }

  /**
   The nine clicks X@0, O@1, X@2, O@3, X@5, O@8, X@6, O@4, X@7 from the empty
   board, given as four pairs and a last click: the first eight complete no
   line, and the ninth fills the board in a draw.
   */
  lemma DrawFromStart(a: seq<int>, b: seq<int>, c: seq<int>, d: seq<int>)
    requires a == [0, 1] && b == [2, 3] && c == [5, 8] && d == [6, 4]
    ensures PlayAll(Initial, a + b + c + d) == GameState([X, O, X, O, O, X, X, Empty, O], X, false)
    ensures Play(PlayAll(Initial, a + b + c + d), 7).1 == Draw
  {
    OpeningPartOne();
    OpeningPartTwo();
    FullBoardPartOne();
    FullBoardPartTwo();
    FullBoardDraw();
    PlayAllAppend(Initial, a, b);
    PlayAllAppend(Initial, a + b, c);
    PlayAllAppend(Initial, a + b + c, d);
  }

  /** A legal move into the last empty cell that completes no line ends the game in a draw. */
  lemma FillingMove(s: GameState, index: Index)
    requires |s.board| == Size && Legal(s, index)
    requires forall k :: 0 <= k < Size && k != index ==> s.board[k] != Empty
    requires NoLineOn(s.board[index := s.current])
    ensures Play(s, index).1 == Draw
  {
    var b := s.board[index := s.current];
    forall k | 0 <= k < |WinLines| ensures !Complete(b, WinLines[k]) {
      assert k == 0 || k == 1 || k == 2 || k == 3 || k == 4 || k == 5 || k == 6 || k == 7;
    }
    assert IsDraw(b);
  }

  /** A second click on cell 0, now by O, is ignored and X's mark stays. */
  lemma SecondClickOnSameCell()
    ensures var s := Play(Initial, 0).0;
            Play(s, 0).1 == Ignored && Play(s, 0).0.board[0] == X
  {
  }

  /** The engine as the page holds it: an array of cells and two variables. */
  class Game {
    var board: array<Cell>
    var currentPlayer: Player
    var gameOver: bool

    ghost predicate Valid()
      reads this
    {
      board.Length == Size
    }

    ghost function State(): GameState
      reads this, board
      requires Valid()
    {
      GameState(board[..], currentPlayer, gameOver)
    }

    /** The state on page load: an empty board with X to move. */
    constructor ()
      ensures Valid() && fresh(board) && State() == Initial
    {
      board := new Cell[Size](_ => Empty);
      currentPlayer := X;
      gameOver := false;
      new;
      assert board[..] == Initial.board;
    }

    /** A click on cell `index`; a cell outside the board reads as taken and is ignored. */
    method OnCellClick(index: int) returns (outcome: Outcome)
      requires Valid()
      modifies this, board
      ensures Valid() && board == old(board)
      ensures (State(), outcome) == Play(old(State()), index)
    {
      if gameOver {
        return Ignored;
      }
      if !(0 <= index < Size) || board[index] != Empty {
        return Ignored;
      }
      board[index] := currentPlayer;
      assert board[..] == old(board[..])[index := currentPlayer];
      var winLine := GetWinningLine(board);
      if winLine.Some? {
        gameOver := true;
        return Won(currentPlayer, winLine.value);
      }
      if IsDraw(board[..]) {
        gameOver := true;
        return Draw;
      }
      currentPlayer := Other(currentPlayer);
      return NextTurn(currentPlayer);
    }

    /** Start over on a new empty board with X to move, whatever came before. */
    method RestartGame()
      modifies this
      ensures Valid() && fresh(board) && State() == Initial
    {
      board := new Cell[Size](_ => Empty);
      currentPlayer := X;
      gameOver := false;
      assert board[..] == Initial.board;
    }
  }
}
