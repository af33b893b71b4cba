# Advent of Code 2021, days 1–4 and 6, modelled in Dafny

This project models the puzzle solutions of the `advent2021` crate
(`src/challenges/dayN.rs`). Each solution takes the lines of a puzzle input
and returns the answer, and each day is one Dafny module:

- **Day 1, sonar sweep** (`day1.dfy`). Part 1 counts the depth measurements
  that are larger than the one before. Part 2 counts the increases between
  consecutive sums of a three-measurement sliding window. Both are shown to
  be the same count at lag 1 and lag 3.
- **Day 2, dive** (`day2.dfy`). `Direction::from` parses `"forward 5"`-style
  commands, splitting on single spaces and reading the distance as a `u32`.
  A bad command is an error that carries the text. `Position` and `Attitude`
  are classes whose `Go` methods update in place their int fields, which
  stand for the `i32` ones. The
  `distance as i32` cast wraps explicitly. Both parts are folds over the
  parsed commands.
- **Day 3, binary diagnostic** (`day3.dfy`). Part 1 folds each line's digits
  into a balance map keyed by column, counted from the right: a `1` adds one
  and a `0` subtracts one. Gamma and epsilon are assembled bit by bit from
  that map. Part 2 narrows a `LeftRight` partition, splitting on one digit
  after another, until a rating remains. The tie rules are the source's own
  (oxygen favours ones, CO2 favours zeros). The ratings are then read in
  base 2.
- **Day 4, giant squid bingo** (`day4.dfy`). `Board` is a class. Its `data`
  is fixed and its `calls` set grows. `Call` dabs the first cell holding the
  number and checks that cell's row and column. Part 1 scores the first
  winner: the board's unmarked sum times the call. Part 2 takes winners out
  of play and scores the last one.
- **Day 6, lanternfish** (`day6.dfy`). `Community` is a class holding a
  map from timer value to the number of fish. `Next` ages every fish by one
  day. Each fish at 0 goes back to 6 and spawns a new fish at 8. `Next` then
  returns the population. Part 1 reads the population after 80 days and
  part 2 after 256. The example of the puzzle, `3,4,3,1,2`, is followed
  to both answers in `day6_example.dfy`.

Day 5's two parts are `unimplemented!()` (`src/challenges/day5.rs:10-16`),
so day 5 is not modelled.

Errors are modelled as values. Each panic, and each failing `unwrap()` the
code can reach, becomes an `Err` of the day's `Error` type. The shared
`Result` and `Option` types are in `results.dfy`.

## Model

| member | source | states |
|---|---|---|
| Day1.Increases | src/challenges/day1.rs:18-26 | no increase is counted over fewer than two measurements, and at most one per adjacent pair |
| Day1.WindowSums | src/challenges/day1.rs:38-42 | there is one window per three consecutive measurements (none for fewer than three), and window `i` sums measurements `i`, `i+1` and `i+2` |
| Day1.Part1 | src/challenges/day1.rs:12-28 | `part_1` is the increase count of the measurements (a definition; its properties are the contracts of `Day1.Part1Counts`) |
| Day1.Part2 | src/challenges/day1.rs:30-54 | `part_2` is the increase count of the window sums (a definition; its properties are the contracts of `Day1.Part2Counts`) |
| Day1.Part1Counts | src/challenges/day1.rs:12-28 | part 1 is the number of positions whose measurement exceeds the one before |
| Day1.Part2Counts | src/challenges/day1.rs:30-54 | part 2 is the number of positions whose measurement exceeds the one three places earlier: comparing consecutive window sums is comparing those two measurements |
| Day1.ExampleAnswers | src/challenges/day1.rs:63-88 | the example sweep gives 7 for part 1 and 5 for part 2 |
| Day2.AsI32 | src/challenges/day2.rs:47-49 | `distance as i32` lands in the `i32` range, keeps the distance modulo 2^32, and is the distance itself below 2^31 |
| Day2.Split | src/challenges/day2.rs:16 | `split(" ")` gives at least one piece, and no piece holds a space |
| Day2.SplitJoin | src/challenges/day2.rs:16 | joining the pieces with single spaces gives back the text |
| Day2.SplitWord | src/challenges/day2.rs:16 | a space-free word followed by a space splits off as the first piece |
| Day2.SplitNoSpace | src/challenges/day2.rs:16 | a space-free text is a single piece |
| Day2.ParseU32 | src/challenges/day2.rs:21 | `parse::<u32>()` accepts only non-empty text |
| Day2.DigitChar | src/challenges/day2.rs:21 | each decimal digit value has a digit character |
| Day2.Decimal | src/challenges/day2.rs:21 | a decimal rendering is non-empty and all digits, with no sign or space in front |
| Day2.DecimalValue | src/challenges/day2.rs:21 | a rendered number's digits have the number's value |
| Day2.ParseDecimal | src/challenges/day2.rs:21 | `parse::<u32>()` reads back every rendered `u32` |
| Day2.DirectionFrom | src/challenges/day2.rs:12-28 | a line is accepted iff it has at least two pieces, the first `up`, `down` or `forward` and the second a `u32`; the command then has that keyword and distance, and a failure is the "malformed direction" panic carrying the text |
| Day2.RenderRoundTrip | src/challenges/day2.rs:21-26 | `"up n"`, `"down n"` and `"forward n"` parse to the command they name |
| Day2.RenderIgnoresTail | src/challenges/day2.rs:21-26 | anything after a second space is ignored |
| Day2.Position.constructor | src/challenges/day2.rs:37-42 | a new position is at horizontal 0, depth 0 |
| Day2.Position.Go | src/challenges/day2.rs:45-51 | up and down change only the depth and forward changes only the horizontal position, each by the cast distance |
| Day2.Attitude.constructor | src/challenges/day2.rs:61-66 | a new attitude has aim 0 and a fresh position at the origin |
| Day2.Attitude.Go | src/challenges/day2.rs:71-80 | up and down change only the aim; forward adds the distance to the horizontal position and aim times distance to the depth |
| Day2.Travel | src/challenges/day2.rs:100-105 | where `Position::go` leaves the submarine after the commands, from the origin (a definition; its properties are the contracts of `Day2.HorizontalAgrees`, `Day2.AimIsDepth` and `Day2.Part1`) |
| Day2.Steer | src/challenges/day2.rs:116-121 | where `Attitude::go` leaves the submarine after the commands, from aim 0 at the origin (a definition; its properties are the contracts of `Day2.HorizontalAgrees`, `Day2.AimIsDepth` and `Day2.Part2`) |
| Day2.HorizontalAgrees | src/challenges/day2.rs:92-122 | both parts agree on the horizontal position: the sum of the forward distances |
| Day2.AimIsDepth | src/challenges/day2.rs:92-122 | part 2's aim ends where part 1's depth does |
| Day2.ParseAll | src/challenges/day2.rs:93-96 | all lines parse, one command per line, or the error is that of some line |
| Day2.Part1 | src/challenges/day2.rs:92-106 | parses every line, moves a `Position` through the commands, and returns horizontal times depth, or the first line's panic |
| Day2.Part2 | src/challenges/day2.rs:108-122 | the same with an `Attitude` |
| Day2.ParsePrefixExtends | src/challenges/day2.rs:93-96 | parsing one more good line appends its command |
| Day2.ParsePrefixFails | src/challenges/day2.rs:93-96 | the first bad line decides the error of the whole input |
| Day2.ParseAllAccepts | src/challenges/day2.rs:93-96 | lines that each parse give exactly their commands |
| Day2.ExampleParses | src/challenges/day2.rs:131-139 | the example course parses to its six commands |
| Day2.ExampleAnswers | src/challenges/day2.rs:141-152 | the example course gives 150 for part 1 and 900 for part 2 |
| Day3.Bucket | src/challenges/day3.rs:20-33 | a bucket is no longer than its input |
| Day3.Malformed | src/challenges/day3.rs:31 | no item has a stray character at the index iff none is reported; otherwise the report is the first such item |
| Day3.Partition | src/challenges/day3.rs:13-36 | `LeftRight::new` as a value: the panic on the first item without a binary digit at the index, or the `0` and `1` buckets (a definition; its properties are the contracts of `Day3.PartitionSplits`) |
| Day3.LeftRight.New | src/challenges/day3.rs:13-36 | the one-pass loop builds exactly `Partition`: the buckets, or the panic on the first bad item |
| Day3.LeftRight.Left | src/challenges/day3.rs:40-42 | the zeros re-split at the next index |
| Day3.LeftRight.Right | src/challenges/day3.rs:46-48 | the ones re-split at the next index |
| Day3.BucketMembers | src/challenges/day3.rs:23-28 | an item is in bucket `c` iff it has `c` at the index |
| Day3.BucketAppend | src/challenges/day3.rs:20-33 | items keep their input order in the buckets |
| Day3.BucketsPermute | src/challenges/day3.rs:20-33 | when all items split, the two buckets together are a permutation of the input |
| Day3.PartitionSplits | src/challenges/day3.rs:13-36 | a partition succeeds iff every item has a binary digit at the index; then left holds the `0` items, right the `1` items, and together they are a permutation of the input |
| Day3.EmptyStaysEmpty | src/challenges/day3.rs:40-48 | an empty partition re-splits into an empty one, so the part-2 loop cannot leave it |
| Day3.MaxLen | src/challenges/day3.rs:61-87 | the width of the balance map is the longest line length, which some line reaches |
| Day3.TallyCounts | src/challenges/day3.rs:69-73 | a column's balance is its ones minus its zeros |
| Day3.TallyBeyond | src/challenges/day3.rs:61-87 | no line contributes beyond its own length |
| Day3.TallyAppend | src/challenges/day3.rs:61-87 | balances add up over concatenated reports |
| Day3.AddLine | src/challenges/day3.rs:66-85 | the fold of one line's digits, rightmost first, into the balance map, or the panic on a non-binary character (a definition; its properties are the contracts of `Day3.AddLineSpec`) |
| Day3.Balance | src/challenges/day3.rs:61-87 | the fold of all lines into the balance map (a definition; its properties are the contracts of `Day3.BalanceStep` and `Day3.BalanceSpec`) |
| Day3.AddLineSpec | src/challenges/day3.rs:66-85 | folding one line succeeds iff all its characters are binary digits; then every column of the line moves by its sign and nothing else changes |
| Day3.BalanceStep | src/challenges/day3.rs:65-87 | one more line keeps the map equal to the column balances |
| Day3.BalanceSpec | src/challenges/day3.rs:61-87 | the fold succeeds iff the report is all binary digits; then the keys are the columns below the longest line, each mapped to ones minus zeros |
| Day3.Rate | src/challenges/day3.rs:89-109 | the gamma or epsilon fold over the columns, column 0 as the lowest bit (a definition; its properties are the contracts of `Day3.RateBelow`, `Day3.RateBits`, `Day3.RatesDisjoint` and `Day3.RatesComplement`) |
| Day3.Part1 | src/challenges/day3.rs:58-112 | `part_1`: the balance fold, then gamma times epsilon over the report's width (a definition; its properties are the contracts of `Day3.ExamplePart1`) |
| Day3.RateBelow | src/challenges/day3.rs:89-109 | a rate over `w` columns is below 2^w |
| Day3.RateBits | src/challenges/day3.rs:89-109 | bit `i` of gamma is set iff column `i` has more ones; bit `i` of epsilon iff it has more zeros; no bit is set beyond the width |
| Day3.RatesDisjoint | src/challenges/day3.rs:89-109 | gamma and epsilon never share a set bit |
| Day3.RatesComplement | src/challenges/day3.rs:89-109 | without a tied column, gamma plus epsilon is 2^w - 1 |
| Day3.ExampleColumn0 | src/challenges/day3.rs:171-184 | in the example report, column 0 (the rightmost) has 2 more zeros than ones |
| Day3.ExampleColumn1 | src/challenges/day3.rs:171-184 | column 1 has 2 more ones |
| Day3.ExampleColumn2 | src/challenges/day3.rs:171-184 | column 2 has 4 more ones |
| Day3.ExampleColumn3 | src/challenges/day3.rs:171-184 | column 3 has 2 more zeros |
| Day3.ExampleColumn4 | src/challenges/day3.rs:171-184 | column 4 has 2 more ones |
| Day3.ExampleBinary | src/challenges/day3.rs:171-184 | the example report is all binary digits |
| Day3.ExampleWidth | src/challenges/day3.rs:171-184 | the example report is five columns wide |
| Day3.ExampleRates | src/challenges/day3.rs:89-111 | five columns with the example's balances give gamma 22 and epsilon 9 |
| Day3.ExamplePart1 | src/challenges/day3.rs:186-191 | the example report gives 198 for part 1 |
| Day3.Group | src/challenges/day3.rs:116-152 | the items under a prefix are items of the report that start with it |
| Day3.GroupAll | src/challenges/day3.rs:116-117 | every item is under the empty prefix, where both searches start |
| Day3.PrefixStep | src/challenges/day3.rs:40-48 | one more digit of prefix means one more matching character |
| Day3.GroupBucket | src/challenges/day3.rs:40-48 | bucketing a prefix group at the next index gives the group of the one-longer prefix |
| Day3.GroupHalves | src/challenges/day3.rs:125 | a group that splits cleanly is as large as its two halves together |
| Day3.GroupShrinks | src/challenges/day3.rs:124-152 | a longer prefix selects no more items |
| Day3.NarrowBelow | src/challenges/day3.rs:127-131 | once a group has at most one item, so does every group below it |
| Day3.RoomBelow | src/challenges/day3.rs:124-152 | an item longer than the prefix leaves room for another step |
| Day3.Search | src/challenges/day3.rs:124-152 | the rating search from the group under a prefix, step for step as the part-2 loop (a definition; its properties are the contracts of `Day3.SearchStops`, `Day3.SearchEmpty`, `Day3.SearchDescends` and `Day3.SearchSelects`) |
| Day3.SearchStops | src/challenges/day3.rs:129-131 | the stopping states (1,0), (0,1) and (1,1) give the popped item; oxygen breaks a (1,1) tie to the right, CO2 (line 146) to the left |
| Day3.SearchEmpty | src/challenges/day3.rs:124-137 | a (0,0) state never stops |
| Day3.SearchDescends | src/challenges/day3.rs:133-135 | any other state descends into the bucket the rule keeps |
| Day3.StopSelects | src/challenges/day3.rs:127-131 | a rating taken at a stop obeys the selection rule |
| Day3.SearchSelects | src/challenges/day3.rs:124-152 | a rating is an item of the report that, at each digit where at least two candidates remain, has the majority digit (ties to 1) for oxygen and the minority digit (ties to 0) for CO2 |
| Day3.PartitionGroup | src/challenges/day3.rs:40-48 | a re-split fails exactly as the search does, or gives the two next groups |
| Day3.StopStep | src/challenges/day3.rs:127-131 | a loop pass that stops pops the search's rating |
| Day3.DescendStep | src/challenges/day3.rs:133-135 | a loop pass that re-splits moves the search one prefix down, or fails with the search's error |
| Day3.KeptBucket | src/challenges/day3.rs:133-135 | the bucket kept is the group of the prefix extended by the picked digit |
| Day3.FindRating | src/challenges/day3.rs:124-152 | the `while` loop of part 2 computes the search from the empty prefix |
| Day3.ParseBinary | src/challenges/day3.rs:157 | `i64::from_str_radix(_, 2)`: the base-2 value of a non-empty string of binary digits, or an error carrying the string |
| Day3.Part2 | src/challenges/day3.rs:114-162 | `part_2` as a value: both searches, both ratings read in base 2, and their product (a definition; its properties are the contracts of `Day3.LifeSupport`) |
| Day3.ExampleFirstDigits | src/challenges/day3.rs:139-140 | in the report ["10", "11"] no item begins with `0` and both begin with `1` |
| Day3.ExampleEmptyBucket | src/challenges/day3.rs:139-152 | once the CO2 search of ["10", "11"] has kept the empty `0` bucket, it can never stop |
| Day3.CO2KeepsEmptyBucket | src/challenges/day3.rs:139-152 | the CO2 loop on ["10", "11"] sees no zeros and two ones, keeps the empty left bucket (line 150) and never stops |
| Day3.LifeSupport | src/challenges/day3.rs:114-162 | part 2 is the oxygen rating times the CO2 rating, each read in base 2, or the first error |
| Day4.IndexFromSpec | src/challenges/day4.rs:24-25 | the column scan finds the first cell of a row holding the number, and finds nothing iff the row lacks it |
| Day4.FindFromSpec | src/challenges/day4.rs:23-25 | the row-by-row scan finds the first cell holding the number in row-major order |
| Day4.FindSpec | src/challenges/day4.rs:22-36 | the scan finds a cell iff the number is on the board |
| Day4.CountIn | src/challenges/day4.rs:46-48 | the count of dabbed cells in a row is at most its length |
| Day4.ColHits | src/challenges/day4.rs:54-56 | the count of dabbed cells in a column is at most the number of rows |
| Day4.Bingo | src/challenges/day4.rs:39-62 | fewer than five calls is never bingo; bingo needs the row or the column to count five; a failure is the panic of a short row |
| Day4.CountInFull | src/challenges/day4.rs:46-49 | a row counts its full length iff all its numbers are called |
| Day4.ColHitsFull | src/challenges/day4.rs:54-57 | the column count succeeds iff every row is long enough, and counts every row iff the column is all called |
| Day4.RowDone | src/challenges/day4.rs:45-51 | every number of the row is called (what a row count of its full length means, by `Day4.CountInFull`) |
| Day4.ColDone | src/challenges/day4.rs:53-59 | every row reaches the column and its number there is called (the meaning of a full column count, by `Day4.ColHitsFull`) |
| Day4.BingoSquare | src/challenges/day4.rs:39-62 | on a 5×5 board with five calls or more, bingo is exactly "the row or the column is all called" |
| Day4.RowUnmarkedCall | src/challenges/day4.rs:65-71 | calling a number lowers a row's unmarked sum by the number times its occurrences |
| Day4.Unmarked | src/challenges/day4.rs:65-71 | `Board::sum`: the total of the board's numbers not called (a definition; its properties are the contracts of `Day4.UnmarkedCall` and `Day4.UnmarkedDone`) |
| Day4.UnmarkedCall | src/challenges/day4.rs:65-71 | calling a number lowers the board's unmarked sum by the number times its occurrences |
| Day4.RowUnmarkedDone | src/challenges/day4.rs:65-71 | a fully called row has unmarked sum 0 |
| Day4.UnmarkedDone | src/challenges/day4.rs:65-71 | a fully called board has unmarked sum 0 |
| Day4.DabSpec | src/challenges/day4.rs:22-36 | a call keeps the board's numbers, dabs the number iff it is on the board, and otherwise changes nothing and is no bingo |
| Day4.DabKeepsDabbed | src/challenges/day4.rs:22-36 | every dabbed number is on the board, before and after a call |
| Day4.Dab | src/challenges/day4.rs:22-36 | `Board::call` as a value: the first cell holding the number is dabbed and its row and column checked (a definition; its properties are the contracts of `Day4.DabSpec`, `Day4.DabKeepsDabbed` and `Day4.Board.Call`) |
| Day4.Board.constructor | src/challenges/day4.rs:12-17 | a new board has the given numbers and no calls |
| Day4.Board.Call | src/challenges/day4.rs:22-36 | the nested scan changes the board and answers exactly as `Dab`, and keeps the board valid |
| Day4.NonBlank | src/challenges/day4.rs:117 | no blank line remains |
| Day4.Chunks | src/challenges/day4.rs:121 | chunks are non-empty, at most five lines, and all but the last have exactly five |
| Day4.ChunksFlatten | src/challenges/day4.rs:119-121 | chunking loses and reorders nothing |
| Day4.ParseInput | src/challenges/day4.rs:95-140 | an empty input is the first `unwrap()` panic; otherwise the first line is the calls and the boards' rows are the remaining non-blank lines, in order |
| Day4.Fresh | src/challenges/day4.rs:124 | one board per grid, with no calls |
| Day4.Round | src/challenges/day4.rs:150-160 | one answer and one new state per board |
| Day4.RoundEach | src/challenges/day4.rs:150-160 | a round is each board's own call, and fails iff some board's call fails |
| Day4.RoundStep | src/challenges/day4.rs:150-160 | a round grows one board at a time |
| Day4.RoundFails | src/challenges/day4.rs:150-160 | the first board that panics ends the round with its error |
| Day4.Snapshots | src/challenges/day4.rs:150 | one state per board, in order |
| Day4.NewBoards | src/challenges/day4.rs:124-134 | one fresh, distinct board per grid, with no calls |
| Day4.CallAll | src/challenges/day4.rs:150-160 | calling every board is the round on their states |
| Day4.Select | src/challenges/day4.rs:153-160 | the filter keeps no more boards than it is given |
| Day4.SelectMembers | src/challenges/day4.rs:153-160 | the filter keeps exactly the boards with the chosen answer |
| Day4.SelectWithin | src/challenges/day4.rs:153-160 | the filter keeps only given boards |
| Day4.SelectSplit | src/challenges/day4.rs:184-194 | winners and the rest together are a permutation of the boards |
| Day4.SelectFirst | src/challenges/day4.rs:163-164 | there are winners iff some board won, and the first of them is the first board that won |
| Day4.SelectDistinct | src/challenges/day4.rs:184-194 | the two piles are duplicate-free and share no board |
| Day4.SnapshotsSelect | src/challenges/day4.rs:184-194 | filtering boards and filtering their states agree |
| Day4.FirstWin | src/challenges/day4.rs:163-164 | the index of the first winner, and none iff nobody won |
| Day4.Game1 | src/challenges/day4.rs:149-168 | part 1's game as a value: call the numbers in turn until a round has a winner, and score the first winner (a definition; its properties are the contracts of `Day4.Game1Earliest` and `Day4.Play1`) |
| Day4.Game1Earliest | src/challenges/day4.rs:149-166 | a part-1 score is the first winner's score at the earliest call that has a winner |
| Day4.QuietShift | src/challenges/day4.rs:149-166 | the quiet rounds after a quiet first round are those of the rest of the calls |
| Day4.Play1 | src/challenges/day4.rs:149-168 | the game loop computes part 1's value, including "no winner!" when the calls run out |
| Day4.Solve1 | src/challenges/day4.rs:144-169 | `part_1` as a value: parse, then the game (a definition; its properties are the contracts of `Day4.Part1`) |
| Day4.Part1 | src/challenges/day4.rs:144-169 | part 1 is parsing followed by the game |
| Day4.Tag | src/challenges/day4.rs:188 | each winner is paired with the call it won on |
| Day4.Datas | src/challenges/day4.rs:171-201 | the numbers of each board, in order |
| Day4.DoneDatas | src/challenges/day4.rs:188 | the numbers of each completed board, in order |
| Day4.DoneDatasAppend | src/challenges/day4.rs:188 | completing boards appends to the completed list |
| Day4.DatasSelect | src/challenges/day4.rs:184-194 | the filter on boards and on their numbers agree |
| Day4.Round2Splits | src/challenges/day4.rs:181-195 | the kept and the won boards together are a permutation of the boards in play |
| Day4.Round2Members | src/challenges/day4.rs:181-195 | a won board is one whose call said bingo; a kept board is one whose call did not |
| Day4.Game2AtMostOnce | src/challenges/day4.rs:178-196 | no board is completed more than once |
| Day4.Game2Winners | src/challenges/day4.rs:178-196 | every completed entry holds one of the calls and a board that won on it |
| Day4.Game2 | src/challenges/day4.rs:176-196 | part 2's `completed` list as a value: each call's winners with that call, in winning order (a definition; its properties are the contracts of `Day4.Game2AtMostOnce`, `Day4.Game2Winners`, `Day4.Game2Unfold` and `Day4.Play2`) |
| Day4.PrependNothing | src/challenges/day4.rs:176 | the completed list starts empty |
| Day4.Game2Unfold | src/challenges/day4.rs:178-196 | one more call appends that call's winners to the completed list |
| Day4.Solve2Fails | src/challenges/day4.rs:171-201 | a panic during the game is part 2's error |
| Day4.Solve2Done | src/challenges/day4.rs:198-200 | no winner at all is the `last().unwrap()` panic; otherwise part 2 is the last winner's unmarked sum times its call |
| Day4.Solve2 | src/challenges/day4.rs:171-201 | `part_2` as a value: parse, the game, and the last winner's score (a definition; its properties are the contracts of `Day4.Solve2Fails`, `Day4.Solve2Done` and `Day4.Part2`) |
| Day4.CallRemaining | src/challenges/day4.rs:181-195 | one call of part 2 splits the boards in play into the kept and the won, as `Round2` does |
| Day4.Retired | src/challenges/day4.rs:181-195 | boards taken out of play never come back |
| Day4.Taken | src/challenges/day4.rs:188 | the states of the completed boards, with their calls |
| Day4.TakenAppend | src/challenges/day4.rs:188 | completing boards appends their states |
| Day4.Play2 | src/challenges/day4.rs:176-196 | the game loop builds exactly part 2's completed list |
| Day4.Part2 | src/challenges/day4.rs:171-201 | part 2 is parsing, the game, and the last winner's score |
| Day6.HistogramCounts | src/challenges/day6.rs:11-21 | the community holds, for each timer value, its number of fish in the input, and has a key iff some fish has that timer |
| Day6.Histogram | src/challenges/day6.rs:11-21 | the map `Community::new` builds, one fish at a time (a definition; its properties are the contracts of `Day6.HistogramCounts`, `Day6.HistogramTotal` and `Day6.HistogramYoung`) |
| Day6.TotalBump | src/challenges/day6.rs:14-16 | adding one fish raises the population by one |
| Day6.HistogramTotal | src/challenges/day6.rs:11-21 | the population is the number of fish in the input |
| Day6.TotalRemove | src/challenges/day6.rs:66 | a key's count comes out of the population when the key is removed |
| Day6.EmptyTotal | src/challenges/day6.rs:66 | an empty community has no fish |
| Day6.Community.constructor | src/challenges/day6.rs:11-21 | the loop builds the timer histogram of the input |
| Day6.MoveSpec | src/challenges/day6.rs:51-62 | one arm of the match adds the amount to 6 and 8 for timer 0, and to `a - 1` otherwise, and inserts only those keys |
| Day6.InflowAdd | src/challenges/day6.rs:50-63 | visiting one more key adds its count to the timers it feeds |
| Day6.Community.Aged | src/challenges/day6.rs:49-63 | the loop over the keys, in any order, builds exactly the next day's histogram |
| Day6.Community.Sum | src/challenges/day6.rs:66 | summing the values gives the population |
| Day6.Community.Next | src/challenges/day6.rs:48-67 | the community becomes the next day's histogram, and the answer is its population |
| Day6.Step | src/challenges/day6.rs:48-65 | the community a day later (a definition; its properties are the contracts of `Day6.StepCounts`, `Day6.StepTotal` and `Day6.StepYoung`) |
| Day6.StepCounts | src/challenges/day6.rs:48-67 | each timer `b` has the next timer's fish the next day, and timers 6 and 8 also get the fish at 0 |
| Day6.StepTotalFrom | src/challenges/day6.rs:48-67 | the population from timer `lo` up moves one timer down, plus the fish at 0 for 6 and for 8 |
| Day6.StepTotal | src/challenges/day6.rs:48-67 | a day adds exactly one fish per fish at timer 0, and never shrinks the population |
| Day6.StepYoung | src/challenges/day6.rs:48-67 | timers above 8 never appear once absent |
| Day6.Simulate | src/challenges/day6.rs:87 | the community after `k` days, `k` applications of the day (a definition; its properties are the contracts of `Day6.Observe` and `Day6.SimulateRotates`) |
| Day6.Observe | src/challenges/day6.rs:87 | `skip(days - 1).next()` is the population after `days` days |
| Day6.Part1 | src/challenges/day6.rs:79-88 | the population after 80 days, and an error exactly when there are no fish (the panic of `keys().max().unwrap()` at line 26) |
| Day6.Part2 | src/challenges/day6.rs:90-98 | the population after 256 days |
| Day6.YoungTotalFrom | src/challenges/day6.rs:48-67 | with timers of at most 8, no fish sit at 9 or above |
| Day6.YoungTotal | src/challenges/day6.rs:48-67 | with timers of at most 8, the population is the sum of nine counters |
| Day6.StepRotates | src/challenges/day6.rs:48-67 | with timers of at most 8, a day is the rotation of nine counters that adds the fish at 0 to counter 6 |
| Day6.RotateFrom | src/challenges/day6.rs:48-67 | a map with the rotated counts has the rotated counters |
| Day6.SimulateRotates | src/challenges/day6.rs:48-67 | any number of days is that many rotations, and timers stay at most 8 |
| Day6.SimulateCount | src/challenges/day6.rs:79-98 | the population after `k` days is the sum of the counters after `k` rotations |
| Day6.HistogramYoung | src/challenges/day6.rs:11-21 | the community has timers of at most 8 iff every input fish does |
| Day6Example.ExampleHistogram | src/challenges/day6.rs:11-21 | the example school 3,4,3,1,2 has one fish at timers 1, 2 and 4 and two at 3, all at most 8 |
| Day6Example.Example80 | src/challenges/day6.rs:79-88 | from the example's counters, 80 rotations leave 5934 fish |
| Day6Example.Example256 | src/challenges/day6.rs:90-98 | from the example's counters, 256 rotations leave 26984457539 fish |
| Day6Example.ExampleTotal80 | src/challenges/day6.rs:79-88 | a community with the example's counts has 5934 fish after 80 days |
| Day6Example.ExampleTotal256 | src/challenges/day6.rs:90-98 | the same community has 26984457539 fish after 256 days |
| Day6Example.ExampleAnswers | src/challenges/day6.rs:106-120 | the example input gives 5934 for part 1 and 26984457539 for part 2 |

## Left out

- Reading input files, `main.rs` and the `Challenge` dispatch in `mod.rs` are not modelled. Each part takes its input lines as a parameter and returns its answer as a number rather than formatted text.
- Day 5 is not modelled, because its two parts are `unimplemented!()`.
- Number parsing on days 1, 4 and 6 is not modelled. Each model takes the numbers already parsed: day 1 a sequence of integers, day 4 lines already split into integers (a blank line is an empty one), day 6 lines of timer values. So `parse::<i64>()`, `parse::<i32>()`, `parse::<u8>()`, `split(",")`, `trim()` and `split_whitespace()`, and the panics of their `unwrap()`, are outside the model. Day 2's parsing is modelled.
- `Display for Community` (`src/challenges/day6.rs:24-43`) and its `println!` are not modelled, apart from the panic of `keys().max().unwrap()` on an empty community, which is `Day6.Part1`'s error. Its `max + 1` overflowing when a fish has timer 255 is left out too.
- Day1.Increases: unbounded integers stand in for `i64`.
- Day1.WindowSums: overflow of a three-measurement window sum is not modelled.
- Day2.Position.Go: unbounded integers stand in for the `i32` fields. Only the `as i32` cast wraps; overflow of `+=`, `-=`, and of `aim * distance` in `Day2.Attitude.Go`, is not modelled. The results of `Day2.Part1` and `Day2.Part2` are likewise unbounded.
- Day3.RateBits: the shift `n << i` and the `i32` balances are unbounded. In the code a report of 32 columns already reaches the sign bit of the `i32` rate (`1 << 31`), and a wider one overflows the shift; neither is modelled.
- Day3.Part1: the product `gamma_rate * epsilon_rate` (`src/challenges/day3.rs:111`) is unbounded. In the code it is an `i32`, which overflows from 17 columns on (for example 87381 × 43690 = 3817675890).
- Day3.LifeSupport: `i64::from_str_radix` is modelled without its 64-bit overflow, and the product of the two ratings is unbounded.
- Day3.FindRating: where the code's loop would run forever, on an empty partition, the model returns `Err(Diverges)` instead. An empty report starts there. A non-empty report reaches it too: when two or more CO2 candidates all have `1` at the next index, line 150 keeps the empty left bucket, as `Day3.CO2KeepsEmptyBucket` shows for ["10", "11"].
- Day4.Part1: `sum() * call` is unbounded rather than `i32`.
- Day6.Part2: the counts are unbounded rather than `usize`.
- Iteration order of `HashMap` and `HashSet` is not modelled. `Day6.Community.Aged` and `Day6.Community.Sum` visit keys in an arbitrary order, and their results are shown to be the same for every order.
- The example answers of day 3 part 2 (230) and day 4 (4512 and 1924) are not proved. Evaluating those searches and games on the literal inputs is beyond what the verifier can do here. The day 6 answers are proved, by `Day6Example.ExampleAnswers`.
