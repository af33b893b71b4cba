/** Sonar sweep (src/challenges/day1.rs): count how often a depth reading
    increases, directly (part 1) or over sums of three-reading windows (part 2). */
module Day1 {

  /** Strict increases over every adjacent pair `[x, y]` of `a`, as
      `windows(2).fold` counts them; equal neighbours do not count. */
  function Increases(a: seq<int>): (r: nat)
    ensures |a| < 2 ==> r == 0
    ensures |a| >= 2 ==> r <= |a| - 1
  {
    if |a| < 2 then 0
    else (if a[1] > a[0] then 1 else 0) + Increases(a[1..])
  }

  /** Reference definition: the number of indices `i` with `a[i + k] > a[i]`. */
  function CountLag(a: seq<int>, k: nat): (r: nat)
    decreases |a|
  {
    if |a| <= k then 0
    else (if a[k] > a[0] then 1 else 0) + CountLag(a[1..], k)
  }

  /** The sums of the consecutive three-element windows of `a`, in order. */
  function WindowSums(a: seq<int>): (r: seq<int>)
    ensures |r| == if |a| < 3 then 0 else |a| - 2
    ensures forall i :: 0 <= i < |r| ==> r[i] == a[i] + a[i + 1] + a[i + 2]
  {
    if |a| < 3 then [] else [a[0] + a[1] + a[2]] + WindowSums(a[1..])
  }

  /** Part 1 of the puzzle. */
  function Part1(a: seq<int>): nat
  {
    Increases(a)
  }

  /** Part 2 of the puzzle. */
  function Part2(a: seq<int>): nat
  {
    Increases(WindowSums(a))
  }

  /** Part 1 counts exactly the indices `i` with `a[i + 1] > a[i]`. */
  lemma {:induction false} Part1Counts(a: seq<int>)
    ensures Part1(a) == CountLag(a, 1)
  {
    if |a| >= 2 {
      Part1Counts(a[1..]);
    }
  }

  /** Comparing neighbouring window sums is comparing readings three apart:
      the two middle readings are shared by both windows. */
  lemma {:induction false} Part2Counts(a: seq<int>)
    ensures Part2(a) == CountLag(a, 3)
  {
    if |a| >= 4 {
      Part2Counts(a[1..]);
      assert WindowSums(a)[1..] == WindowSums(a[1..]);
    }
  }

  /** The example readings of the puzzle statement. */
  const Example: seq<int> := [199, 200, 208, 210, 200, 207, 240, 269, 260, 263]

  lemma ExampleAnswers()
    ensures Part1(Example) == 7
    ensures Part2(Example) == 5
  {
    Part2Counts(Example);
  }
}
