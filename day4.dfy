// Day 4: bingo against a squid. Boards record the called numbers that
// appear on them; a board wins when the row or the column of the cell just
// called is fully called. Part 1 scores the first winner, part 2 the last.

module Day4 {
  import opened Results

  /** A board's numbers, row by row. */
  type Grid = seq<seq<int>>

  datatype Error =
    | NoInput          // `iterator.next().unwrap()` on an empty input
    | MissingColumn    // `row.get(j).unwrap()` on a row too short for column `j`
    | NoWinner         // part 1's `panic!("no winner!")`, part 2's `completed.last().unwrap()`

  // ---------------------------------------------------------------------
  // Looking a number up
  // ---------------------------------------------------------------------

  predicate OnBoard(g: Grid, n: int)
  {
    exists i, j :: 0 <= i < |g| && 0 <= j < |g[i]| && g[i][j] == n
  }

  /** The first column at or after `j` of `row` holding `n`. */
  function IndexFrom(row: seq<int>, n: int, j: nat): Option<nat>
    decreases |row| - j
  {
    if j >= |row| then None
    else if row[j] == n then Some(j)
    else IndexFrom(row, n, j + 1)
  }

  /** The scan of a row stops at the first entry holding `n`. */
  lemma {:induction false} IndexFromSpec(row: seq<int>, n: int, j: nat)
    ensures var r := IndexFrom(row, n, j);
            (r.Some? ==> j <= r.value < |row| && row[r.value] == n && forall k :: j <= k < r.value ==> row[k] != n)
            && (r.None? ==> forall k :: j <= k < |row| ==> row[k] != n)
    decreases |row| - j
  {
    if j < |row| && row[j] != n {
      IndexFromSpec(row, n, j + 1);
    }
  }

  /** The first cell, in row-major order from row `i` on, holding `n`. */
  function FindFrom(g: Grid, n: int, i: nat): Option<(nat, nat)>
    decreases |g| - i
  {
    if i >= |g| then None
    else
      match IndexFrom(g[i], n, 0)
      case Some(j) => Some((i, j))
      case None => FindFrom(g, n, i + 1)
  }

  /** The scan of the board stops at the first cell, row by row, holding
      `n`. */
  lemma {:induction false} FindFromSpec(g: Grid, n: int, i: nat)
    ensures var r := FindFrom(g, n, i);
            (r.Some? ==> var (a, b) := r.value;
                         i <= a < |g| && b < |g[a]| && g[a][b] == n
                         && (forall k :: 0 <= k < b ==> g[a][k] != n)
                         && forall x, y :: i <= x < a && 0 <= y < |g[x]| ==> g[x][y] != n)
            && (r.None? ==> forall x, y :: i <= x < |g| && 0 <= y < |g[x]| ==> g[x][y] != n)
    decreases |g| - i
  {
    if i < |g| {
      IndexFromSpec(g[i], n, 0);
      if IndexFrom(g[i], n, 0).None? {
        FindFromSpec(g, n, i + 1);
      }
    }
  }

  /** The loops of `Board::call` stop at the first cell holding the number,
      and find one exactly when the number is on the board. */
  lemma FindSpec(g: Grid, n: int)
    ensures FindFrom(g, n, 0).Some? <==> OnBoard(g, n)
  {
    FindFromSpec(g, n, 0);
    if FindFrom(g, n, 0).Some? {
      var (a, b) := FindFrom(g, n, 0).value;
      assert g[a][b] == n;
    }
  }

  // ---------------------------------------------------------------------
  // check
  // ---------------------------------------------------------------------

  /** How many entries of `row` are called. */
  function CountIn(row: seq<int>, calls: set<int>): (r: nat)
    ensures r <= |row|
  {
    if row == [] then 0 else (if row[0] in calls then 1 else 0) + CountIn(row[1..], calls)
  }

  /** How many rows have their entry in column `j` called; a row without
      such an entry is the panic of `row.get(j).unwrap()`. */
  function ColHits(g: Grid, calls: set<int>, j: nat): (r: Result<nat, Error>)
    ensures r.Ok? ==> r.value <= |g|
  {
    if g == [] then Ok(0)
    else if j >= |g[0]| then Err(MissingColumn)
    else
      var rest :- ColHits(g[1..], calls, j);
      Ok((if g[0][j] in calls then 1 else 0) + rest)
  }

  /** `Board::check(i, j)`: no bingo with fewer than five calls; otherwise
      five called entries on row `i`, or failing that five rows with their
      column-`j` entry called. */
  function Bingo(g: Grid, calls: set<int>, i: nat, j: nat): (r: Result<bool, Error>)
    requires i < |g|
    ensures |calls| < 5 ==> r == Ok(false)
    ensures r == Ok(true) ==> |calls| >= 5 && (CountIn(g[i], calls) == 5 || ColHits(g, calls, j) == Ok(5))
    ensures r.Err? ==> ColHits(g, calls, j).Err?
  {
    if |calls| < 5 then Ok(false)
    else if CountIn(g[i], calls) == 5 then Ok(true)
    else
      var c :- ColHits(g, calls, j);
      Ok(c == 5)
  }

  predicate RowDone(g: Grid, calls: set<int>, i: nat)
    requires i < |g|
  {
    forall k :: 0 <= k < |g[i]| ==> g[i][k] in calls
  }

  predicate ColDone(g: Grid, calls: set<int>, j: nat)
  {
    forall k :: 0 <= k < |g| ==> j < |g[k]| && g[k][j] in calls
  }

  /** A row is fully called iff all its entries count. */
  lemma {:induction false} CountInFull(row: seq<int>, calls: set<int>)
    ensures CountIn(row, calls) == |row| <==> forall k :: 0 <= k < |row| ==> row[k] in calls
  {
    if row != [] {
      CountInFull(row[1..], calls);
      if forall k :: 0 <= k < |row| - 1 ==> row[1..][k] in calls {
        assert forall k :: 1 <= k < |row| ==> row[k] == row[1..][k - 1];
      }
    }
  }

  /** A column is fully called iff every row has an entry there and all of
      those count. */
  lemma {:induction false} ColHitsFull(g: Grid, calls: set<int>, j: nat)
    ensures ColHits(g, calls, j).Ok? <==> forall k :: 0 <= k < |g| ==> j < |g[k]|
    ensures ColHits(g, calls, j) == Ok(|g|) <==> ColDone(g, calls, j)
  {
    if g != [] {
      ColHitsFull(g[1..], calls, j);
      assert forall k :: 1 <= k < |g| ==> g[k] == g[1..][k - 1];
    }
  }

  predicate Square(g: Grid)
  {
    |g| == 5 && forall k :: 0 <= k < 5 ==> |g[k]| == 5
  }

  /** On a 5×5 board with at least five calls, `check(i, j)` is bingo iff
      row `i` or column `j` is fully called. */
  lemma BingoSquare(g: Grid, calls: set<int>, i: nat, j: nat)
    requires Square(g) && i < 5 && j < 5 && |calls| >= 5
    ensures Bingo(g, calls, i, j) == Ok(RowDone(g, calls, i) || ColDone(g, calls, j))
  {
    CountInFull(g[i], calls);
    ColHitsFull(g, calls, j);
  }

  // ---------------------------------------------------------------------
  // sum
  // ---------------------------------------------------------------------

  function RowUnmarked(row: seq<int>, calls: set<int>): int
  {
    if row == [] then 0 else (if row[0] in calls then 0 else row[0]) + RowUnmarked(row[1..], calls)
  }

  /** `Board::sum`: the total of the entries not called. */
  function Unmarked(g: Grid, calls: set<int>): int
  {
    if g == [] then 0 else RowUnmarked(g[0], calls) + Unmarked(g[1..], calls)
  }

  function RowOccurrences(row: seq<int>, n: int): nat
  {
    if row == [] then 0 else (if row[0] == n then 1 else 0) + RowOccurrences(row[1..], n)
  }

  /** How many cells hold `n`. */
  function Occurrences(g: Grid, n: int): nat
  {
    if g == [] then 0 else RowOccurrences(g[0], n) + Occurrences(g[1..], n)
  }

  lemma {:induction false} RowUnmarkedCall(row: seq<int>, calls: set<int>, n: int)
    requires n !in calls
    ensures RowUnmarked(row, calls + {n}) == RowUnmarked(row, calls) - n * RowOccurrences(row, n)
  {
    if row != [] {
      RowUnmarkedCall(row[1..], calls, n);
    }
  }

  /** Calling a new number removes each of its cells from the sum. */
  lemma {:induction false} UnmarkedCall(g: Grid, calls: set<int>, n: int)
    requires n !in calls
    ensures Unmarked(g, calls + {n}) == Unmarked(g, calls) - n * Occurrences(g, n)
  {
    if g != [] {
      RowUnmarkedCall(g[0], calls, n);
      UnmarkedCall(g[1..], calls, n);
      var a, b := RowOccurrences(g[0], n), Occurrences(g[1..], n);
      assert n * (a + b) == n * a + n * b;
    }
  }

  lemma {:induction false} RowUnmarkedDone(row: seq<int>, calls: set<int>)
    requires forall k :: 0 <= k < |row| ==> row[k] in calls
    ensures RowUnmarked(row, calls) == 0
  {
    if row != [] {
      assert forall k :: 0 <= k < |row| - 1 ==> row[1..][k] == row[k + 1];
      RowUnmarkedDone(row[1..], calls);
    }
  }

  /** Once every entry is called the sum is 0. */
  lemma {:induction false} UnmarkedDone(g: Grid, calls: set<int>)
    requires forall i, j :: 0 <= i < |g| && 0 <= j < |g[i]| ==> g[i][j] in calls
    ensures Unmarked(g, calls) == 0
  {
    if g != [] {
      RowUnmarkedDone(g[0], calls);
      assert forall i :: 0 <= i < |g| - 1 ==> g[1..][i] == g[i + 1];
      UnmarkedDone(g[1..], calls);
    }
  }

  // ---------------------------------------------------------------------
  // call
  // ---------------------------------------------------------------------

  /** A board as a value: its numbers and the numbers called on it. */
  datatype Card = Card(data: Grid, calls: set<int>)

  /** `Board::call(n)` as a value: the number is dabbed at its first cell and
      that cell's row and column are checked; a number not on the board
      changes nothing and is no bingo. */
  function Dab(c: Card, n: int): (Card, Result<bool, Error>)
  {
    FindFromSpec(c.data, n, 0);
    match FindFrom(c.data, n, 0)
    case None => (c, Ok(false))
    case Some((i, j)) => (Card(c.data, c.calls + {n}), Bingo(c.data, c.calls + {n}, i, j))
  }

  /** A call keeps the board's numbers; it dabs the number iff it is on
      the board, and otherwise changes nothing and is no bingo. */
  lemma DabSpec(c: Card, n: int)
    ensures Dab(c, n).0.data == c.data
    ensures OnBoard(c.data, n) ==> Dab(c, n).0.calls == c.calls + {n}
    ensures !OnBoard(c.data, n) ==> Dab(c, n) == (c, Ok(false))
  {
    FindSpec(c.data, n);
  }

  /** The called numbers of a card are all on it. */
  predicate Dabbed(c: Card)
  {
    forall x :: x in c.calls ==> OnBoard(c.data, x)
  }

  /** Every number `calls` holds is on the board, and a call keeps it so. */
  lemma DabKeepsDabbed(c: Card, n: int)
    requires Dabbed(c)
    ensures Dabbed(Dab(c, n).0)
  {
    DabSpec(c, n);
  }

  /** A bingo board; `calls` are the numbers dabbed on it. */
  class Board {
    const data: Grid
    var calls: set<int>

    ghost predicate Valid()
      reads this
    {
      Dabbed(Card(data, calls))
    }

    constructor (data: Grid)
      ensures this.data == data && calls == {}
      ensures Valid()
    {
      this.data := data;
      calls := {};
    }

    function Snapshot(): Card
      reads this
    {
      Card(data, calls)
    }

    /** `Board::call`: scan the rows and columns in order; at the first cell
        holding `number`, dab it and check that cell's row and column. */
    method Call(number: int) returns (r: Result<bool, Error>)
      modifies this
      ensures (Snapshot(), r) == Dab(old(Snapshot()), number)
      ensures old(Valid()) ==> Valid()
    {
      if Valid() {
        DabKeepsDabbed(Card(data, calls), number);
      }
      for i := 0 to |data|
        invariant calls == old(calls)
        invariant FindFrom(data, number, 0) == FindFrom(data, number, i)
      {
        for j := 0 to |data[i]|
          invariant calls == old(calls)
          invariant IndexFrom(data[i], number, 0) == IndexFrom(data[i], number, j)
        {
          if data[i][j] == number {
            calls := calls + {number};
            return Bingo(data, calls, i, j);
          }
        }
      }
      return Ok(false);
    }
  }

  // ---------------------------------------------------------------------
  // Input
  // ---------------------------------------------------------------------

  /** The lines that are not blank, in order. */
  function NonBlank(lines: seq<seq<int>>): (r: seq<seq<int>>)
    ensures forall k :: 0 <= k < |r| ==> r[k] != []
  {
    if lines == [] then []
    else (if lines[0] == [] then [] else [lines[0]]) + NonBlank(lines[1..])
  }

  /** `chunks(n)`: consecutive runs of `n`, the last one possibly shorter. */
  function Chunks<T>(xs: seq<T>, n: nat): (r: seq<seq<T>>)
    requires n > 0
    ensures forall k :: 0 <= k < |r| ==> 0 < |r[k]| <= n
    ensures forall k :: 0 <= k < |r| - 1 ==> |r[k]| == n
    decreases |xs|
  {
    if xs == [] then []
    else if |xs| <= n then [xs]
    else [xs[..n]] + Chunks(xs[n..], n)
  }

  function Flatten<T>(xss: seq<seq<T>>): seq<T>
  {
    if xss == [] then [] else xss[0] + Flatten(xss[1..])
  }

  /** Chunking loses nothing and reorders nothing. */
  lemma {:induction false} ChunksFlatten<T>(xs: seq<T>, n: nat)
    requires n > 0
    ensures Flatten(Chunks(xs, n)) == xs
    decreases |xs|
  {
    if |xs| > n {
      ChunksFlatten(xs[n..], n);
      assert Chunks(xs, n)[1..] == Chunks(xs[n..], n);
      assert xs == xs[..n] + xs[n..];
    } else if xs != [] {
      assert Chunks(xs, n)[1..] == [];
      assert xs + [] == xs;
    }
  }

  /** `Day4::parse_input` over lines already split into numbers (a blank
      line is an empty one): the first line is the calls, the other
      non-blank lines are the boards, five rows each. */
  function ParseInput(lines: seq<seq<int>>): (r: Result<(seq<int>, seq<Grid>), Error>)
    ensures r.Err? <==> lines == []
    ensures r.Ok? ==> r.value.0 == lines[0] && Flatten(r.value.1) == NonBlank(lines[1..])
  {
    if lines == [] then Err(NoInput)
    else
      ChunksFlatten(NonBlank(lines[1..]), 5);
      Ok((lines[0], Chunks(NonBlank(lines[1..]), 5)))
  }

  /** Fresh boards, nothing called yet. */
  function Fresh(grids: seq<Grid>): (r: seq<Card>)
    ensures |r| == |grids| && forall k :: 0 <= k < |r| ==> r[k] == Card(grids[k], {})
  {
    if grids == [] then [] else [Card(grids[0], {})] + Fresh(grids[1..])
  }

  // ---------------------------------------------------------------------
  // A round: one call on every board
  // ---------------------------------------------------------------------

  /** One call on every board in order: the boards afterwards and which of
      them reported bingo; the first board that panics ends the game. */
  function Round(pile: seq<Card>, n: int): (r: Result<(seq<Card>, seq<bool>), Error>)
    ensures r.Ok? ==> |r.value.0| == |pile| && |r.value.1| == |pile|
  {
    if pile == [] then Ok(([], []))
    else
      var (cards, wins) :- Round(pile[..|pile| - 1], n);
      var (c, res) := Dab(pile[|pile| - 1], n);
      var b :- res;
      Ok((cards + [c], wins + [b]))
  }

  /** A round is every board's own call: it fails iff some board panics,
      and otherwise each board's new state and answer are those of its
      call. */
  lemma {:induction false} RoundEach(pile: seq<Card>, n: int)
    ensures Round(pile, n).Ok? ==> forall k :: 0 <= k < |pile| ==> Dab(pile[k], n) == (Round(pile, n).value.0[k], Ok(Round(pile, n).value.1[k]))
    ensures Round(pile, n).Ok? <==> forall k :: 0 <= k < |pile| ==> Dab(pile[k], n).1.Ok?
  {
    if pile != [] {
      var init := pile[..|pile| - 1];
      RoundEach(init, n);
      assert forall k :: 0 <= k < |init| ==> init[k] == pile[k];
    }
  }

  /** A round grows one board at a time. */
  lemma RoundStep(pile: seq<Card>, k: nat, n: int)
    requires k < |pile| && Round(pile[..k], n).Ok? && Dab(pile[k], n).1.Ok?
    ensures Round(pile[..k + 1], n)
            == Ok((Round(pile[..k], n).value.0 + [Dab(pile[k], n).0], Round(pile[..k], n).value.1 + [Dab(pile[k], n).1.value]))
  {
    assert pile[..k + 1][..k] == pile[..k];
  }

  /** A board that panics after the boards before it answered ends the
      round with its error. */
  lemma {:induction false} RoundFails(pile: seq<Card>, k: nat, n: int)
    requires k < |pile| && Round(pile[..k], n).Ok? && Dab(pile[k], n).1.Err?
    ensures Round(pile, n) == Err(Dab(pile[k], n).1.error)
  {
    if k + 1 < |pile| {
      assert pile[..|pile| - 1][..k] == pile[..k];
      RoundFails(pile[..|pile| - 1], k, n);
    } else {
      assert pile[..|pile| - 1] == pile[..k];
    }
  }

  /** The boards' states, in order. */
  function Snapshots(bs: seq<Board>): (r: seq<Card>)
    reads set b | b in bs
    ensures |r| == |bs| && forall k :: 0 <= k < |bs| ==> r[k] == bs[k].Snapshot()
  {
    if bs == [] then [] else Snapshots(bs[..|bs| - 1]) + [bs[|bs| - 1].Snapshot()]
  }

  predicate Distinct<T(==)>(xs: seq<T>)
  {
    forall a, b :: 0 <= a < b < |xs| ==> xs[a] != xs[b]
  }

  /** `Board::new` for every grid. */
  method NewBoards(grids: seq<Grid>) returns (boards: seq<Board>)
    ensures |boards| == |grids| && Distinct(boards)
    ensures forall k :: 0 <= k < |boards| ==> fresh(boards[k]) && boards[k].Snapshot() == Card(grids[k], {})
  {
    boards := [];
    for k := 0 to |grids|
      invariant |boards| == k && Distinct(boards)
      invariant forall m :: 0 <= m < k ==> fresh(boards[m]) && boards[m].Snapshot() == Card(grids[m], {})
    {
      var b := new Board(grids[k]);
      boards := boards + [b];
    }
  }

  /** `board.call(n)` on every board in order, as both parts do; the
      answers, or the panic of the first board that panics. */
  method CallAll(boards: seq<Board>, n: int) returns (res: Result<seq<bool>, Error>)
    requires Distinct(boards)
    modifies set b | b in boards
    ensures var before := old(Snapshots(boards));
            Round(before, n).Err? ==> res == Err(Round(before, n).error)
    ensures var before := old(Snapshots(boards));
            Round(before, n).Ok? ==> res == Ok(Round(before, n).value.1) && Snapshots(boards) == Round(before, n).value.0
  {
    ghost var before := Snapshots(boards);
    var wins: seq<bool> := [];
    for k := 0 to |boards|
      invariant |wins| == k
      invariant forall m :: k <= m < |boards| ==> boards[m].Snapshot() == before[m]
      invariant Round(before[..k], n) == Ok((Snapshots(boards[..k]), wins))
    {
      ghost var done := Snapshots(boards[..k]);
      assert boards[k] !in boards[..k];
      var r := boards[k].Call(n);
      if r.Err? {
        RoundFails(before, k, n);
        return Err(r.error);
      }
      RoundStep(before, k, n);
      assert Snapshots(boards[..k]) == done;
      assert boards[..k + 1][..k] == boards[..k];
      wins := wins + [r.value];
    }
    assert before[..|boards|] == before && boards[..|boards|] == boards;
    return Ok(wins);
  }

  /** The entries of `xs` whose flag in `wins` is `b`, in order. */
  function Select<T>(xs: seq<T>, wins: seq<bool>, b: bool): (r: seq<T>)
    requires |xs| == |wins|
    ensures |r| <= |xs|
  {
    if xs == [] then []
    else Select(xs[..|xs| - 1], wins[..|wins| - 1], b) + (if wins[|wins| - 1] == b then [xs[|xs| - 1]] else [])
  }

  /** What `Select` keeps: exactly the entries flagged `b`. */
  lemma {:induction false} SelectMembers<T>(xs: seq<T>, wins: seq<bool>, b: bool)
    requires |xs| == |wins|
    ensures forall y :: y in Select(xs, wins, b) <==> exists k :: 0 <= k < |xs| && wins[k] == b && xs[k] == y
  {
    if xs != [] {
      var init := xs[..|xs| - 1];
      SelectMembers(init, wins[..|wins| - 1], b);
      assert forall k :: 0 <= k < |init| ==> init[k] == xs[k];
    }
  }

  lemma {:induction false} SelectWithin<T>(xs: seq<T>, wins: seq<bool>, b: bool)
    requires |xs| == |wins|
    ensures forall y :: y in Select(xs, wins, b) ==> y in xs
  {
    if xs != [] {
      SelectWithin(xs[..|xs| - 1], wins[..|wins| - 1], b);
    }
  }

  /** Every entry goes to exactly one side. */
  lemma {:induction false} SelectSplit<T>(xs: seq<T>, wins: seq<bool>)
    requires |xs| == |wins|
    ensures multiset(Select(xs, wins, false)) + multiset(Select(xs, wins, true)) == multiset(xs)
  {
    if xs != [] {
      var init := xs[..|xs| - 1];
      SelectSplit(init, wins[..|wins| - 1]);
      assert xs == init + [xs[|xs| - 1]];
    }
  }

  /** The first flagged entry heads the selection. */
  lemma {:induction false} SelectFirst<T>(xs: seq<T>, wins: seq<bool>)
    requires |xs| == |wins|
    ensures (Select(xs, wins, true) == []) == FirstWin(wins).None?
    ensures Select(xs, wins, true) != [] ==> Select(xs, wins, true)[0] == xs[FirstWin(wins).value]
  {
    if xs != [] {
      var init, w := xs[..|xs| - 1], wins[..|wins| - 1];
      SelectFirst(init, w);
      if Select(init, w, true) != [] {
        assert Select(xs, wins, true)[0] == Select(init, w, true)[0];
      }
    }
  }

  /** Selecting from distinct entries gives distinct entries, and the two
      sides share none. */
  lemma {:induction false} SelectDistinct<T>(xs: seq<T>, wins: seq<bool>)
    requires |xs| == |wins| && Distinct(xs)
    ensures Distinct(Select(xs, wins, false)) && Distinct(Select(xs, wins, true))
    ensures forall y :: y in Select(xs, wins, false) ==> y !in Select(xs, wins, true)
  {
    SelectMembers(xs, wins, false);
    SelectMembers(xs, wins, true);
    if xs != [] {
      var init, w, last := xs[..|xs| - 1], wins[..|wins| - 1], xs[|xs| - 1];
      SelectDistinct(init, w);
      SelectMembers(init, w, false);
      SelectMembers(init, w, true);
      assert last !in Select(init, w, false) && last !in Select(init, w, true);
    }
  }

  /** Selecting boards and then taking their states is taking the states
      and then selecting. */
  lemma {:induction false} SnapshotsSelect(bs: seq<Board>, wins: seq<bool>, b: bool)
    requires |bs| == |wins|
    ensures Snapshots(Select(bs, wins, b)) == Select(Snapshots(bs), wins, b)
  {
    if bs != [] {
      var init := bs[..|bs| - 1];
      SnapshotsSelect(init, wins[..|wins| - 1], b);
      assert Snapshots(bs)[..|bs| - 1] == Snapshots(init);
    }
  }

  // ---------------------------------------------------------------------
  // Part 1: the first winner
  // ---------------------------------------------------------------------

  /** The first board that reported bingo. */
  function FirstWin(wins: seq<bool>): (r: Option<nat>)
    ensures r.Some? ==> r.value < |wins| && wins[r.value] && forall k :: 0 <= k < r.value ==> !wins[k]
    ensures r.None? ==> forall k :: 0 <= k < |wins| ==> !wins[k]
  {
    if wins == [] then None
    else
      match FirstWin(wins[..|wins| - 1])
      case Some(k) => Some(k)
      case None => if wins[|wins| - 1] then Some(|wins| - 1) else None
  }

  /** Part 1 as a value: call the numbers in turn until a round has a winner,
      then score the first winner of that round by its sum times the call. */
  function Game1(pile: seq<Card>, calls: seq<int>): Result<int, Error>
    decreases |calls|
  {
    if calls == [] then Err(NoWinner)
    else
      var (cards, wins) :- Round(pile, calls[0]);
      match FirstWin(wins)
      case Some(k) => Ok(Unmarked(cards[k].data, cards[k].calls) * calls[0])
      case None => Game1(cards, calls[1..])
  }

  /** The pile after the first `t` calls, while no board has won. */
  function Quiet(pile: seq<Card>, calls: seq<int>, t: nat): (r: Result<seq<Card>, Error>)
    requires t <= |calls|
    decreases t
  {
    if t == 0 then Ok(pile)
    else
      var before :- Quiet(pile, calls, t - 1);
      var (cards, wins) :- Round(before, calls[t - 1]);
      if FirstWin(wins).Some? then Err(NoWinner) else Ok(cards)
  }

  /** The score of the first winner of a round with a winner. */
  function FirstScore(pile: seq<Card>, n: int): int
    requires Round(pile, n).Ok? && FirstWin(Round(pile, n).value.1).Some?
  {
    var (cards, wins) := Round(pile, n).value;
    Unmarked(cards[FirstWin(wins).value].data, cards[FirstWin(wins).value].calls) * n
  }

  /** Part 1 scores the first winner at the earliest call that produces one:
      every earlier call is a round without bingo. */
  lemma {:induction false} Game1Earliest(pile: seq<Card>, calls: seq<int>)
    ensures Game1(pile, calls).Ok? ==>
              exists t :: 0 <= t < |calls| && Quiet(pile, calls, t).Ok?
                && Round(Quiet(pile, calls, t).value, calls[t]).Ok?
                && FirstWin(Round(Quiet(pile, calls, t).value, calls[t]).value.1).Some?
                && Game1(pile, calls) == Ok(FirstScore(Quiet(pile, calls, t).value, calls[t]))
    decreases |calls|
  {
    if calls != [] && Game1(pile, calls).Ok? {
      var (cards, wins) := Round(pile, calls[0]).value;
      if FirstWin(wins).Some? {
        assert Quiet(pile, calls, 0) == Ok(pile);
      } else {
        Game1Earliest(cards, calls[1..]);
        var t :| 0 <= t < |calls| - 1 && Quiet(cards, calls[1..], t).Ok?
                 && Round(Quiet(cards, calls[1..], t).value, calls[1..][t]).Ok?
                 && FirstWin(Round(Quiet(cards, calls[1..], t).value, calls[1..][t]).value.1).Some?
                 && Game1(cards, calls[1..]) == Ok(FirstScore(Quiet(cards, calls[1..], t).value, calls[1..][t]));
        QuietShift(pile, calls, t);
        assert calls[1..][t] == calls[t + 1];
      }
    }
  }

  /** The quiet rounds after a quiet first round are those of the rest. */
  lemma {:induction false} QuietShift(pile: seq<Card>, calls: seq<int>, t: nat)
    requires t < |calls|
    requires Round(pile, calls[0]).Ok? && FirstWin(Round(pile, calls[0]).value.1).None?
    ensures Quiet(pile, calls, t + 1) == Quiet(Round(pile, calls[0]).value.0, calls[1..], t)
    decreases t
  {
    if t > 0 {
      QuietShift(pile, calls, t - 1);
      assert calls[1..][t - 1] == calls[t];
    }
  }

  /** `Day4::part_1` as a value. */
  function Solve1(lines: seq<seq<int>>): Result<int, Error>
  {
    var (calls, grids) :- ParseInput(lines);
    Game1(Fresh(grids), calls)
  }

  /** Part 1's game loop: each call on every board, until a call has a
      winner. */
  method Play1(boards: seq<Board>, calls: seq<int>) returns (r: Result<int, Error>)
    requires Distinct(boards)
    modifies set b | b in boards
    ensures r == Game1(old(Snapshots(boards)), calls)
  {
    for t := 0 to |calls|
      invariant Game1(old(Snapshots(boards)), calls) == Game1(Snapshots(boards), calls[t..])
    {
      var n := calls[t];
      var res := CallAll(boards, n);
      if res.Err? {
        assert calls[t..][0] == n;
        return Err(res.error);
      }
      var results := Select(boards, res.value, true);
      SelectFirst(boards, res.value);
      if |results| > 0 {
        var first := results[0];
        return Ok(Unmarked(first.data, first.calls) * n);
      }
      assert calls[t..][1..] == calls[t + 1..];
    }
    assert calls[|calls|..] == [];
    return Err(NoWinner);
  }

  /** `part_1`: call each number on every board; the first call with a
      winner ends the game with the first winner's sum times the call. */
  method Part1(lines: seq<seq<int>>) returns (r: Result<int, Error>)
    ensures r == Solve1(lines)
  {
    var parsed := ParseInput(lines);
    if parsed.Err? {
      return Err(parsed.error);
    }
    var (calls, grids) := parsed.value;
    var boards := NewBoards(grids);
    assert Snapshots(boards) == Fresh(grids);
    r := Play1(boards, calls);
  }

  // ---------------------------------------------------------------------
  // Part 2: the last winner
  // ---------------------------------------------------------------------

  /** One call of part 2 on the boards still in play: those that stay and,
      in order, those that win and leave. */
  function Round2(pile: seq<Card>, n: int): Result<(seq<Card>, seq<Card>), Error>
  {
    var (cards, wins) :- Round(pile, n);
    Ok((Select(cards, wins, false), Select(cards, wins, true)))
  }

  /** Each of `won` paired with the call it won on. */
  function Tag<T>(n: int, won: seq<T>): (r: seq<(int, T)>)
    ensures |r| == |won| && forall k :: 0 <= k < |r| ==> r[k] == (n, won[k])
  {
    if won == [] then [] else Tag(n, won[..|won| - 1]) + [(n, won[|won| - 1])]
  }

  /** Part 2's `completed` as a value: each winner with its winning call,
      in winning order. */
  function Game2(pile: seq<Card>, calls: seq<int>): Result<seq<(int, Card)>, Error>
    decreases |calls|
  {
    if calls == [] then Ok([])
    else
      var (kept, won) :- Round2(pile, calls[0]);
      var rest :- Game2(kept, calls[1..]);
      Ok(Tag(calls[0], won) + rest)
  }

  function Datas(cards: seq<Card>): (r: seq<Grid>)
    ensures |r| == |cards| && forall k :: 0 <= k < |r| ==> r[k] == cards[k].data
  {
    if cards == [] then [] else Datas(cards[..|cards| - 1]) + [cards[|cards| - 1].data]
  }

  function DoneDatas(done: seq<(int, Card)>): (r: seq<Grid>)
    ensures |r| == |done| && forall k :: 0 <= k < |r| ==> r[k] == done[k].1.data
  {
    if done == [] then [] else DoneDatas(done[..|done| - 1]) + [done[|done| - 1].1.data]
  }

  lemma DoneDatasAppend(xs: seq<(int, Card)>, ys: seq<(int, Card)>)
    ensures DoneDatas(xs + ys) == DoneDatas(xs) + DoneDatas(ys)
  {
  }

  lemma {:induction false} DatasSelect(cards: seq<Card>, wins: seq<bool>, b: bool)
    requires |cards| == |wins|
    ensures Datas(Select(cards, wins, b)) == Select(Datas(cards), wins, b)
  {
    if cards != [] {
      var init := cards[..|cards| - 1];
      DatasSelect(init, wins[..|wins| - 1], b);
      assert Datas(cards)[..|cards| - 1] == Datas(init);
    }
  }

  /** A round sends every board either back to play or to the winners: the
      boards' numbers are split between them, none lost or repeated. */
  lemma Round2Splits(pile: seq<Card>, n: int)
    requires Round2(pile, n).Ok?
    ensures multiset(Datas(Round2(pile, n).value.0)) + multiset(Datas(Round2(pile, n).value.1))
            == multiset(Datas(pile))
  {
    var (cards, wins) := Round(pile, n).value;
    RoundEach(pile, n);
    assert Datas(cards) == Datas(pile);
    DatasSelect(cards, wins, false);
    DatasSelect(cards, wins, true);
    SelectSplit(Datas(cards), wins);
  }

  /** The winners of a round are the boards whose call reported bingo, and
      the boards that stay are the others, each in its state after the
      call. */
  lemma Round2Members(pile: seq<Card>, n: int)
    requires Round2(pile, n).Ok?
    ensures forall w :: w in Round2(pile, n).value.1 ==> exists k :: 0 <= k < |pile| && Dab(pile[k], n) == (w, Ok(true))
    ensures forall c :: c in Round2(pile, n).value.0 ==> exists k :: 0 <= k < |pile| && Dab(pile[k], n) == (c, Ok(false))
  {
    var (cards, wins) := Round(pile, n).value;
    RoundEach(pile, n);
    SelectMembers(cards, wins, false);
    SelectMembers(cards, wins, true);
  }

  /** Each board enters `completed` at most once: the winners' numbers are
      a sub-multiset of the boards' numbers. */
  lemma {:induction false} Game2AtMostOnce(pile: seq<Card>, calls: seq<int>)
    requires Game2(pile, calls).Ok?
    ensures multiset(DoneDatas(Game2(pile, calls).value)) <= multiset(Datas(pile))
    decreases |calls|
  {
    if calls != [] {
      var (kept, won) := Round2(pile, calls[0]).value;
      Round2Splits(pile, calls[0]);
      Game2AtMostOnce(kept, calls[1..]);
      var rest := Game2(kept, calls[1..]).value;
      DoneDatasAppend(Tag(calls[0], won), rest);
      assert DoneDatas(Tag(calls[0], won)) == Datas(won);
    }
  }

  /** `w` is what some board became when a call of `n` on it was bingo. */
  ghost predicate WonOn(w: Card, n: int)
  {
    exists c :: Dab(c, n) == (w, Ok(true))
  }

  /** Each entry of `completed` is a board that reported bingo on the call
      it is paired with. */
  lemma {:induction false} Game2Winners(pile: seq<Card>, calls: seq<int>)
    requires Game2(pile, calls).Ok?
    ensures forall e :: e in Game2(pile, calls).value ==> e.0 in calls && WonOn(e.1, e.0)
    decreases |calls|
  {
    if calls != [] {
      var (kept, won) := Round2(pile, calls[0]).value;
      Round2Members(pile, calls[0]);
      Game2Winners(kept, calls[1..]);
      var rest := Game2(kept, calls[1..]).value;
      forall e | e in Tag(calls[0], won) + rest
        ensures e.0 in calls && WonOn(e.1, e.0)
      {
        if e in Tag(calls[0], won) {
          var k :| 0 <= k < |won| && Tag(calls[0], won)[k] == e;
          assert won[k] in won;
        } else {
          assert e in rest;
          assert e.0 in calls[1..];
        }
      }
    }
  }

  /** Prepend the winners so far to the winners still to come. */
  function Prepend(done: seq<(int, Card)>, r: Result<seq<(int, Card)>, Error>): Result<seq<(int, Card)>, Error>
  {
    if r.Ok? then Ok(done + r.value) else r
  }

  lemma PrependNothing(r: Result<seq<(int, Card)>, Error>)
    ensures Prepend([], r) == r
  {
    if r.Ok? {
      assert [] + r.value == r.value;
    }
  }

  /** The winners of a call come before the winners of later calls. */
  lemma Game2Unfold(pile: seq<Card>, calls: seq<int>, t: nat, done: seq<(int, Card)>)
    requires t < |calls| && Round2(pile, calls[t]).Ok?
    ensures var (kept, won) := Round2(pile, calls[t]).value;
            Prepend(done, Game2(pile, calls[t..])) == Prepend(done + Tag(calls[t], won), Game2(kept, calls[t + 1..]))
  {
    assert calls[t..][1..] == calls[t + 1..];
    var (kept, won) := Round2(pile, calls[t]).value;
    var g := Game2(kept, calls[t + 1..]);
    if g.Ok? {
      assert done + (Tag(calls[t], won) + g.value) == done + Tag(calls[t], won) + g.value;
    }
  }

  /** `Day4::part_2` as a value: the last winner's sum times its call. */
  function Solve2(lines: seq<seq<int>>): Result<int, Error>
  {
    var (calls, grids) :- ParseInput(lines);
    var done :- Game2(Fresh(grids), calls);
    if done == [] then Err(NoWinner)
    else
      var (n, last) := done[|done| - 1];
      Ok(Unmarked(last.data, last.calls) * n)
  }

  lemma Solve2Fails(lines: seq<seq<int>>, calls: seq<int>, grids: seq<Grid>, e: Error)
    requires ParseInput(lines) == Ok((calls, grids)) && Game2(Fresh(grids), calls) == Err(e)
    ensures Solve2(lines) == Err(e)
  {
  }

  lemma Solve2Done(lines: seq<seq<int>>, calls: seq<int>, grids: seq<Grid>, done: seq<(int, Card)>)
    requires ParseInput(lines) == Ok((calls, grids)) && Game2(Fresh(grids), calls) == Ok(done)
    ensures done == [] ==> Solve2(lines) == Err(NoWinner)
    ensures done != [] ==> Solve2(lines) == Ok(Unmarked(done[|done| - 1].1.data, done[|done| - 1].1.calls) * done[|done| - 1].0)
  {
  }

  /** One call of part 2 on the boards still in play: `board.call(n)` on
      each in order, those that win leaving play. */
  method CallRemaining(boards: seq<Board>, n: int) returns (res: Result<(seq<Board>, seq<Board>), Error>)
    requires Distinct(boards)
    modifies set b | b in boards
    ensures var before := old(Snapshots(boards));
            Round2(before, n).Err? ==> res == Err(Round2(before, n).error)
    ensures var before := old(Snapshots(boards));
            Round2(before, n).Ok? ==> res.Ok? && Round2(before, n).value == (Snapshots(res.value.0), Snapshots(res.value.1))
    ensures res.Ok? ==> var (kept, won) := res.value;
              Distinct(kept) && Distinct(won)
              && (forall b :: b in kept ==> b in boards && b !in won)
              && (forall b :: b in won ==> b in boards)
  {
    var r := CallAll(boards, n);
    if r.Err? {
      return Err(r.error);
    }
    var wins := r.value;
    SelectDistinct(boards, wins);
    SelectWithin(boards, wins, false);
    SelectWithin(boards, wins, true);
    SnapshotsSelect(boards, wins, false);
    SnapshotsSelect(boards, wins, true);
    return Ok((Select(boards, wins, false), Select(boards, wins, true)));
  }

  /** The boards out of play stay out of play: none of them is among the
      boards kept for the next call. */
  lemma Retired(boards: seq<Board>, pile: seq<Board>, kept: seq<Board>, won: seq<Board>, completed: seq<(int, Board)>, n: int)
    requires forall b :: b in pile ==> b in boards
    requires forall b :: b in kept ==> b in pile && b !in won
    requires forall b :: b in won ==> b in pile
    requires forall m :: 0 <= m < |completed| ==> completed[m].1 in boards && completed[m].1 !in pile
    ensures forall m :: 0 <= m < |completed + Tag(n, won)| ==>
              (completed + Tag(n, won))[m].1 in boards && (completed + Tag(n, won))[m].1 !in kept
  {
    forall m | 0 <= m < |completed + Tag(n, won)|
      ensures (completed + Tag(n, won))[m].1 in boards && (completed + Tag(n, won))[m].1 !in kept
    {
      if m >= |completed| {
        var j := m - |completed|;
        assert (completed + Tag(n, won))[m].1 == won[j];
        assert won[j] in won;
      }
    }
  }

  /** The completed boards as values, with their calls. */
  function Taken(cs: seq<(int, Board)>): (r: seq<(int, Card)>)
    reads set p | p in cs :: p.1
    ensures |r| == |cs| && forall k :: 0 <= k < |cs| ==> r[k] == (cs[k].0, cs[k].1.Snapshot())
  {
    if cs == [] then [] else Taken(cs[..|cs| - 1]) + [(cs[|cs| - 1].0, cs[|cs| - 1].1.Snapshot())]
  }

  lemma TakenAppend(cs: seq<(int, Board)>, n: int, won: seq<Board>)
    ensures Taken(cs + Tag(n, won)) == Taken(cs) + Tag(n, Snapshots(won))
  {
    var l, r := Taken(cs + Tag(n, won)), Taken(cs) + Tag(n, Snapshots(won));
    forall k | 0 <= k < |l|
      ensures l[k] == r[k]
    {
      if k >= |cs| {
        var j := k - |cs|;
        assert (cs + Tag(n, won))[k] == (n, won[j]);
      }
    }
  }

  /** Part 2's game loop: each call on the boards still in play, each
      winner pushed onto `completed` with the call. */
  method Play2(boards: seq<Board>, calls: seq<int>) returns (res: Result<seq<(int, Board)>, Error>)
    requires Distinct(boards)
    modifies set b | b in boards
    ensures var g := Game2(old(Snapshots(boards)), calls);
            g.Err? ==> res == Err(g.error)
    ensures var g := Game2(old(Snapshots(boards)), calls);
            g.Ok? ==> res.Ok? && Taken(res.value) == g.value
  {
    var pile := boards;
    var completed: seq<(int, Board)> := [];
    assert calls[0..] == calls;
    PrependNothing(Game2(Snapshots(boards), calls));
    for t := 0 to |calls|
      invariant Distinct(pile) && forall b :: b in pile ==> b in boards
      invariant forall m :: 0 <= m < |completed| ==> completed[m].1 in boards && completed[m].1 !in pile
      invariant Game2(old(Snapshots(boards)), calls) == Prepend(Taken(completed), Game2(Snapshots(pile), calls[t..]))
    {
      var n := calls[t];
      ghost var before := Snapshots(pile);
      ghost var done := Taken(completed);
      var r := CallRemaining(pile, n);
      if r.Err? {
        assert calls[t..][0] == n;
        assert Game2(before, calls[t..]) == Err(r.error);
        return Err(r.error);
      }
      assert Taken(completed) == done;
      var (kept, won) := r.value;
      Game2Unfold(before, calls, t, done);
      Retired(boards, pile, kept, won, completed, n);
      TakenAppend(completed, n, won);
      completed := completed + Tag(n, won);
      pile := kept;
    }
    assert Game2(Snapshots(pile), calls[|calls|..]) == Ok([]);
    assert Taken(completed) + [] == Taken(completed);
    return Ok(completed);
  }

  /** `part_2`: call each number on the boards still in play; a board that
      wins leaves play and joins `completed` with the call; the answer is
      the last completed board's sum times its call. */
  method Part2(lines: seq<seq<int>>) returns (r: Result<int, Error>)
    ensures r == Solve2(lines)
  {
    var parsed := ParseInput(lines);
    if parsed.Err? {
      return Err(parsed.error);
    }
    var (calls, grids) := parsed.value;
    var boards := NewBoards(grids);
    assert Snapshots(boards) == Fresh(grids);
    var played := Play2(boards, calls);
    if played.Err? {
      Solve2Fails(lines, calls, grids, played.error);
      return Err(played.error);
    }
    var completed := played.value;
    Solve2Done(lines, calls, grids, Game2(Fresh(grids), calls).value);
    if |completed| == 0 {
      return Err(NoWinner);
    }
    var (n, last) := completed[|completed| - 1];
    return Ok(Unmarked(last.data, last.calls) * n);
  }
}
