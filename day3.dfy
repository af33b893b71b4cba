/** Binary diagnostic (src/challenges/day3.rs): gamma and epsilon rates from
    the per-column balance of ones and zeros (part 1), and the oxygen and CO2
    ratings found by narrowing a left/right partition of the report (part 2). */
module Day3 {
  import opened Results

  datatype Error =
    | InvalidBinary(item: string)  // `panic!("invalid binary number: ...")` and a failed `from_str_radix`
    | InvalidDigit                 // `panic!("invalid binary")` in part 1
    | Diverges                     // the search loop of part 2 can never stop

  /** The character at `idx` exists and is a binary digit. */
  predicate SplitsAt(item: string, idx: nat)
  {
    idx < |item| && (item[idx] == '0' || item[idx] == '1')
  }

  /** The items whose character at `idx` is `c`, in input order. */
  function Bucket(items: seq<string>, idx: nat, c: char): (r: seq<string>)
    ensures |r| <= |items|
  {
    if items == [] then []
    else (if idx < |items[0]| && items[0][idx] == c then [items[0]] else []) + Bucket(items[1..], idx, c)
  }

  /** The first item whose character at `idx` is missing or not a binary digit. */
  function Malformed(items: seq<string>, idx: nat): (r: Option<string>)
    ensures r.None? <==> forall k :: 0 <= k < |items| ==> SplitsAt(items[k], idx)
    ensures r.Some? ==> exists k :: 0 <= k < |items| && items[k] == r.value && !SplitsAt(items[k], idx)
                                    && forall m :: 0 <= m < k ==> SplitsAt(items[m], idx)
  {
    if items == [] then None
    else if !SplitsAt(items[0], idx) then Some(items[0])
    else
      var r := Malformed(items[1..], idx);
      assert r.Some? ==> exists k :: 1 <= k < |items| && items[k] == r.value && !SplitsAt(items[k], idx)
                                    && forall m :: 0 <= m < k ==> SplitsAt(items[m], idx) by {
        if r.Some? {
          var k :| 0 <= k < |items| - 1 && items[1..][k] == r.value && !SplitsAt(items[1..][k], idx)
                   && forall m :: 0 <= m < k ==> SplitsAt(items[1..][m], idx);
          assert forall m :: 0 <= m < k + 1 ==> SplitsAt(items[m], idx) by {
            forall m | 0 <= m < k + 1 ensures SplitsAt(items[m], idx) {
              if m > 0 { assert items[m] == items[1..][m - 1]; }
            }
          }
        }
      }
      r
  }

  /** `LeftRight`: the items with a '0' at `sortIndex` and those with a '1'. */
  datatype LeftRight = LeftRight(sortIndex: nat, left: seq<string>, right: seq<string>)
  {
    /** `LeftRight::new`: one pass over the input, appending each item to the
        bucket its character at `sortIndex` names; the first item without a
        binary digit there is a panic. */
    static method New(input: seq<string>, sortIndex: nat) returns (r: Result<LeftRight, Error>)
      ensures r == Partition(input, sortIndex)
    {
      var left, right := [], [];
      for k := 0 to |input|
        invariant forall m :: 0 <= m < k ==> SplitsAt(input[m], sortIndex)
        invariant left == Bucket(input[..k], sortIndex, '0')
        invariant right == Bucket(input[..k], sortIndex, '1')
      {
        var item := input[k];
        assert input[..k + 1] == input[..k] + [item];
        BucketAppend(input[..k], [item], sortIndex, '0');
        BucketAppend(input[..k], [item], sortIndex, '1');
        if sortIndex < |item| && item[sortIndex] == '0' {
          left := left + [item];
        } else if sortIndex < |item| && item[sortIndex] == '1' {
          right := right + [item];
        } else {
          assert !SplitsAt(input[k], sortIndex);
          return Err(InvalidBinary(item));
        }
      }
      assert input[..|input|] == input;
      r := Ok(LeftRight(sortIndex, left, right));
    }

    /** `left()`: keep the zeros and split them again at the next index. */
    method Left() returns (r: Result<LeftRight, Error>)
      ensures r == Partition(left, sortIndex + 1)
    {
      r := New(left, sortIndex + 1);
    }

    /** `right()`: keep the ones and split them again at the next index. */
    method Right() returns (r: Result<LeftRight, Error>)
      ensures r == Partition(right, sortIndex + 1)
    {
      r := New(right, sortIndex + 1);
    }
  }

  /** What `LeftRight::new` produces, as a value. */
  function Partition(input: seq<string>, idx: nat): Result<LeftRight, Error>
  {
    match Malformed(input, idx)
    case Some(x) => Err(InvalidBinary(x))
    case None => Ok(LeftRight(idx, Bucket(input, idx, '0'), Bucket(input, idx, '1')))
  }

  lemma {:induction false} BucketMembers(items: seq<string>, idx: nat, c: char, x: string)
    ensures x in Bucket(items, idx, c) <==> x in items && idx < |x| && x[idx] == c
  {
    if items != [] {
      BucketMembers(items[1..], idx, c, x);
      assert items == [items[0]] + items[1..];
    }
  }

  /** Bucketing keeps input order: it distributes over concatenation. */
  lemma {:induction false} BucketAppend(xs: seq<string>, ys: seq<string>, idx: nat, c: char)
    ensures Bucket(xs + ys, idx, c) == Bucket(xs, idx, c) + Bucket(ys, idx, c)
  {
    if xs != [] {
      BucketAppend(xs[1..], ys, idx, c);
      assert (xs + ys)[1..] == xs[1..] + ys;
    } else {
      assert xs + ys == ys;
    }
  }

  lemma {:induction false} BucketsPermute(items: seq<string>, idx: nat)
    requires forall k :: 0 <= k < |items| ==> SplitsAt(items[k], idx)
    ensures multiset(Bucket(items, idx, '0')) + multiset(Bucket(items, idx, '1')) == multiset(items)
  {
    if items != [] {
      assert items == [items[0]] + items[1..];
      BucketsPermute(items[1..], idx);
      assert SplitsAt(items[0], idx);
    }
  }

  /** `LeftRight::new` puts an item on the left iff it has a '0' at the index
      and on the right iff it has a '1'; together the two buckets are a
      permutation of the input, and a stray character fails the whole call. */
  lemma PartitionSplits(input: seq<string>, idx: nat)
    ensures Partition(input, idx).Ok? <==> forall k :: 0 <= k < |input| ==> SplitsAt(input[k], idx)
    ensures Partition(input, idx).Ok? ==>
              var lr := Partition(input, idx).value;
              && lr.sortIndex == idx
              && (forall x :: x in lr.left <==> x in input && x[idx] == '0')
              && (forall x :: x in lr.right <==> x in input && x[idx] == '1')
              && multiset(lr.left + lr.right) == multiset(input)
  {
    if Partition(input, idx).Ok? {
      forall x ensures x in Bucket(input, idx, '0') <==> x in input && x[idx] == '0' {
        BucketMembers(input, idx, '0', x);
      }
      forall x ensures x in Bucket(input, idx, '1') <==> x in input && x[idx] == '1' {
        BucketMembers(input, idx, '1', x);
      }
      BucketsPermute(input, idx);
      assert multiset(Bucket(input, idx, '0') + Bucket(input, idx, '1'))
          == multiset(Bucket(input, idx, '0')) + multiset(Bucket(input, idx, '1'));
    }
  }

  // ---------------------------------------------------------------------
  // Part 1: balance, gamma and epsilon
  // ---------------------------------------------------------------------

  /** The longest line length. */
  function MaxLen(lines: seq<string>): (r: nat)
    ensures forall k :: 0 <= k < |lines| ==> |lines[k]| <= r
    ensures lines != [] ==> exists k :: 0 <= k < |lines| && |lines[k]| == r
  {
    if lines == [] then 0
    else
      var m := MaxLen(lines[1..]);
      assert forall k :: 1 <= k < |lines| ==> lines[k] == lines[1..][k - 1];
      if |lines[0]| > m then |lines[0]| else m
  }

  lemma {:induction false} MaxLenAppend(init: seq<string>, last: string)
    ensures MaxLen(init + [last]) == if |last| > MaxLen(init) then |last| else MaxLen(init)
  {
    if init != [] {
      MaxLenAppend(init[1..], last);
      assert (init + [last])[1..] == init[1..] + [last];
    }
  }

  predicate IsBit(c: char) { c == '0' || c == '1' }

  predicate AllBinary(lines: seq<string>)
  {
    forall k, c :: 0 <= k < |lines| && 0 <= c < |lines[k]| ==> IsBit(lines[k][c])
  }

  /** The digit `i` places from the right of `line`, if it has one. */
  predicate DigitAt(line: string, i: nat, c: char)
  {
    i < |line| && line[|line| - 1 - i] == c
  }

  /** How many lines have the digit `c` in column `i`, counted from the right. */
  function Count(lines: seq<string>, i: nat, c: char): nat
  {
    if lines == [] then 0
    else (if DigitAt(lines[0], i, c) then 1 else 0) + Count(lines[1..], i, c)
  }

  /** What one line contributes to the balance of column `i`. */
  function LineSign(line: string, i: nat): int
  {
    if DigitAt(line, i, '1') then 1 else if DigitAt(line, i, '0') then -1 else 0
  }

  /** The balance of column `i`: the contributions of all lines. */
  function Tally(lines: seq<string>, i: nat): int
  {
    if lines == [] then 0 else LineSign(lines[0], i) + Tally(lines[1..], i)
  }

  /** The balance is the ones minus the zeros of the column. */
  lemma {:induction false} TallyCounts(lines: seq<string>, i: nat)
    ensures Tally(lines, i) == Count(lines, i, '1') - Count(lines, i, '0')
  {
    if lines != [] {
      TallyCounts(lines[1..], i);
    }
  }

  lemma {:induction false} TallyBeyond(lines: seq<string>, i: nat)
    requires MaxLen(lines) <= i
    ensures Tally(lines, i) == 0
  {
    if lines != [] {
      TallyBeyond(lines[1..], i);
    }
  }

  lemma {:induction false} TallyAppend(xs: seq<string>, ys: seq<string>, i: nat)
    ensures Tally(xs + ys, i) == Tally(xs, i) + Tally(ys, i)
  {
    if xs != [] {
      TallyAppend(xs[1..], ys, i);
      assert (xs + ys)[1..] == xs[1..] + ys;
    } else {
      assert xs + ys == ys;
    }
  }

  /** '0' counts -1 and '1' counts +1; anything else is a panic. */
  function Sign(c: char): Result<int, Error>
  {
    match c
    case '0' => Ok(-1)
    case '1' => Ok(1)
    case _ => Err(InvalidDigit)
  }

  function Get(m: map<nat, int>, i: nat): int
  {
    if i in m then m[i] else 0
  }

  /** Add `n` at key `i`, inserting the key when it is absent. */
  function Bump(acc: map<nat, int>, i: nat, n: int): map<nat, int>
  {
    if i in acc then acc[i := acc[i] + n] else acc[i := n]
  }

  /** Fold the digits of `line` into the balance, from its rightmost digit
      (position 0) leftwards, starting at position `i`. */
  function AddLine(acc: map<nat, int>, line: string, i: nat): Result<map<nat, int>, Error>
    requires i <= |line|
    decreases |line| - i
  {
    if i == |line| then Ok(acc)
    else
      var n :- Sign(line[|line| - 1 - i]);
      AddLine(Bump(acc, i, n), line, i + 1)
  }

  function SignOf(c: char): int { if c == '1' then 1 else -1 }

  lemma {:induction false} AddLineSpec(acc: map<nat, int>, line: string, i: nat)
    requires i <= |line|
    ensures AddLine(acc, line, i).Ok? <==> forall c :: 0 <= c < |line| - i ==> IsBit(line[c])
    ensures AddLine(acc, line, i).Ok? ==>
              var m := AddLine(acc, line, i).value;
              && (forall k :: k in m <==> k in acc || i <= k < |line|)
              && forall k :: k in m ==> m[k] == Get(acc, k) + (if i <= k < |line| then SignOf(line[|line| - 1 - k]) else 0)
    decreases |line| - i
  {
    if i < |line| {
      var c := line[|line| - 1 - i];
      if IsBit(c) {
        AddLineSpec(Bump(acc, i, SignOf(c)), line, i + 1);
      }
    }
  }

  /** Part 1's fold of all lines into the balance map. */
  function Balance(lines: seq<string>): Result<map<nat, int>, Error>
  {
    if lines == [] then Ok(map[])
    else
      var acc :- Balance(lines[..|lines| - 1]);
      AddLine(acc, lines[|lines| - 1], 0)
  }

  lemma AllBinaryAppend(init: seq<string>, last: string)
    ensures AllBinary(init + [last]) <==> AllBinary(init) && forall c :: 0 <= c < |last| ==> IsBit(last[c])
  {
    var lines := init + [last];
    if AllBinary(init) && forall c :: 0 <= c < |last| ==> IsBit(last[c]) {
      forall k, c | 0 <= k < |lines| && 0 <= c < |lines[k]| ensures IsBit(lines[k][c]) {
        if k < |init| { assert lines[k] == init[k]; }
      }
    }
    if AllBinary(lines) {
      forall k, c | 0 <= k < |init| && 0 <= c < |init[k]| ensures IsBit(init[k][c]) {
        assert init[k] == lines[k];
      }
      assert lines[|init|] == last;
    }
  }

  /** One step of the fold keeps the balance equal to the column tallies. */
  lemma BalanceStep(init: seq<string>, last: string, acc: map<nat, int>)
    requires forall i: nat :: i in acc <==> i < MaxLen(init)
    requires forall i :: i in acc ==> acc[i] == Tally(init, i)
    requires AddLine(acc, last, 0).Ok?
    ensures forall i: nat :: i in AddLine(acc, last, 0).value <==> i < MaxLen(init + [last])
    ensures forall i :: i in AddLine(acc, last, 0).value ==> AddLine(acc, last, 0).value[i] == Tally(init + [last], i)
  {
    AddLineSpec(acc, last, 0);
    MaxLenAppend(init, last);
    var m := AddLine(acc, last, 0).value;
    forall i | i in m ensures m[i] == Tally(init + [last], i) {
      TallyAppend(init, [last], i);
      assert [last][1..] == [];
      assert Tally([last], i) == LineSign(last, i);
      if i < |last| {
        assert IsBit(last[|last| - 1 - i]);
      }
      if i !in acc {
        TallyBeyond(init, i);
      }
    }
  }

  /** The fold succeeds iff every character is a binary digit; the balance
      then has one key per column, counted from the right, up to the longest
      line, and holds ones minus zeros of that column. */
  lemma {:induction false} BalanceSpec(lines: seq<string>)
    ensures Balance(lines).Ok? <==> AllBinary(lines)
    ensures Balance(lines).Ok? ==>
              && (forall i: nat :: i in Balance(lines).value <==> i < MaxLen(lines))
              && forall i :: i in Balance(lines).value ==> Balance(lines).value[i] == Tally(lines, i)
  {
    if lines != [] {
      var init := lines[..|lines| - 1];
      var last := lines[|lines| - 1];
      BalanceSpec(init);
      assert lines == init + [last];
      AllBinaryAppend(init, last);
      if Balance(init).Ok? {
        var acc := Balance(init).value;
        AddLineSpec(acc, last, 0);
        assert Balance(lines) == AddLine(acc, last, 0);
        if AddLine(acc, last, 0).Ok? {
          BalanceStep(init, last, acc);
        }
      }
    }
  }

  function Pow2(i: nat): (r: nat)
    ensures r >= 1
  {
    if i == 0 then 1 else 2 * Pow2(i - 1)
  }

  /** Gamma takes a 1 where ones are in the majority, epsilon where zeros are;
      a tied column gives 0 to both. */
  predicate RateDigit(b: int, gamma: bool)
  {
    if gamma then b > 0 else b < 0
  }

  /** The rate over columns k .. w-1, column k in the lowest bit: the OR of
      single bits at distinct positions, which is their sum. */
  function Rate(m: map<nat, int>, k: nat, w: nat, gamma: bool): nat
    requires forall i :: k <= i < w ==> i in m
    decreases w - k
  {
    if k >= w then 0
    else (if RateDigit(m[k], gamma) then 1 else 0) + 2 * Rate(m, k + 1, w, gamma)
  }

  /** Bit `i` of `x`. */
  function Bit(x: nat, i: nat): nat
  {
    if i == 0 then x % 2 else Bit(x / 2, i - 1)
  }

  predicate Covers(m: map<nat, int>, w: nat)
  {
    forall i :: 0 <= i < w ==> i in m
  }

  /** Part 1: gamma times epsilon. */
  function Part1(lines: seq<string>): Result<int, Error>
  {
    var m :- Balance(lines);
    var w := MaxLen(lines);
    BalanceSpec(lines);
    Ok(Rate(m, 0, w, true) * Rate(m, 0, w, false))
  }

  lemma {:induction false} RateBelow(m: map<nat, int>, k: nat, w: nat, gamma: bool)
    requires k <= w
    requires forall i :: k <= i < w ==> i in m
    ensures Rate(m, k, w, gamma) < Pow2(w - k)
    decreases w - k
  {
    if k < w {
      RateBelow(m, k + 1, w, gamma);
      assert Pow2(w - k) == 2 * Pow2(w - (k + 1));
    }
  }

  lemma {:induction false} BitsAbove(x: nat, j: nat, i: nat)
    requires x < Pow2(j) && j <= i
    ensures Bit(x, i) == 0
  {
    if i > 0 {
      if j > 0 {
        BitsAbove(x / 2, j - 1, i - 1);
      } else {
        BitsAbove(x / 2, 0, i - 1);
      }
    }
  }

  /** Bit `i` of a rate is that column's rate digit, and 0 beyond the width. */
  lemma {:induction false} RateBits(m: map<nat, int>, k: nat, w: nat, gamma: bool, i: nat)
    requires forall j :: k <= j < w ==> j in m
    ensures Bit(Rate(m, k, w, gamma), i) == if k + i < w && RateDigit(m[k + i], gamma) then 1 else 0
    decreases w - k
  {
    if k >= w {
      BitsAbove(0, 0, i);
    } else if i > 0 {
      var x := Rate(m, k, w, gamma);
      assert x / 2 == Rate(m, k + 1, w, gamma);
      RateBits(m, k + 1, w, gamma, i - 1);
    }
  }

  /** Gamma and epsilon never share a set bit: `gamma & epsilon == 0`. */
  lemma RatesDisjoint(m: map<nat, int>, w: nat, i: nat)
    requires Covers(m, w)
    ensures Bit(Rate(m, 0, w, true), i) * Bit(Rate(m, 0, w, false), i) == 0
  {
    RateBits(m, 0, w, true, i);
    RateBits(m, 0, w, false, i);
  }

  /** Without a tied column, epsilon is gamma's complement over the width. */
  lemma {:induction false} RatesComplement(m: map<nat, int>, k: nat, w: nat)
    requires k <= w
    requires forall i :: k <= i < w ==> i in m && m[i] != 0
    ensures Rate(m, k, w, true) + Rate(m, k, w, false) == Pow2(w - k) - 1
    decreases w - k
  {
    if k < w {
      RatesComplement(m, k + 1, w);
      assert Pow2(w - k) == 2 * Pow2(w - (k + 1));
    }
  }

  // ---------------------------------------------------------------------
  // Part 2: the oxygen and CO2 searches
  // ---------------------------------------------------------------------

  predicate HasPrefix(x: string, p: string)
  {
    |p| <= |x| && x[..|p|] == p
  }

  /** The items that begin with `p`, in input order. */
  function Group(xs: seq<string>, p: string): (r: seq<string>)
    ensures |r| <= |xs|
    ensures forall x :: x in r ==> x in xs && HasPrefix(x, p)
  {
    if xs == [] then []
    else (if HasPrefix(xs[0], p) then [xs[0]] else []) + Group(xs[1..], p)
  }

  /** Which bucket a non-final step keeps: oxygen follows the majority and
      takes the ones on a tie; CO2 takes the ones only when they are strictly
      fewer than the zeros. */
  predicate KeepsRight(l: nat, r: nat, oxygen: bool)
  {
    if oxygen then r >= l else l > r
  }

  /** The rating search from the group of items beginning with `p`, as the
      `while` loops of part 2 carry it out. */
  function Search(input: seq<string>, p: string, oxygen: bool): Result<string, Error>
    decreases MaxLen(input) - |p|
  {
    var g := Group(input, p);
    match Malformed(g, |p|)
    case Some(x) => Err(InvalidBinary(x))
    case None =>
      var l, r := Group(input, p + "0"), Group(input, p + "1");
      if |l| == 0 && |r| == 0 then Err(Diverges)
      else if |l| == 1 && |r| == 0 then Ok(l[0])
      else if |l| == 0 && |r| == 1 then Ok(r[0])
      else if |l| == 1 && |r| == 1 then Ok(if oxygen then r[0] else l[0])
      else
        var next := p + [if KeepsRight(|l|, |r|, oxygen) then '1' else '0'];
        var x := if |l| > 0 then l[0] else r[0];
        assert x in input && |x| >= |p| + 1;
        assert |p| + 1 <= MaxLen(input) by {
          var k :| 0 <= k < |input| && input[k] == x;
        }
        Search(input, next, oxygen)
  }

  lemma {:induction false} GroupAll(xs: seq<string>)
    ensures Group(xs, "") == xs
  {
    if xs != [] {
      GroupAll(xs[1..]);
      assert xs[0][..0] == "";
      assert xs == [xs[0]] + xs[1..];
    }
  }

  /** `x` begins with `p + [c]` iff it begins with `p` and has `c` right after. */
  lemma PrefixStep(x: string, p: string, c: char)
    ensures HasPrefix(x, p + [c]) <==> HasPrefix(x, p) && |p| < |x| && x[|p|] == c
  {
    if |p| < |x| {
      assert x[..|p| + 1] == x[..|p|] + [x[|p|]];
    }
    if HasPrefix(x, p + [c]) {
      assert x[..|p|] == x[..|p| + 1][..|p|];
    }
  }

  /** Splitting the group of prefix `p` at position `|p|` gives the groups of
      the two one-longer prefixes. */
  lemma {:induction false} GroupBucket(xs: seq<string>, p: string, c: char)
    ensures Bucket(Group(xs, p), |p|, c) == Group(xs, p + [c])
  {
    if xs != [] {
      var first, rest := xs[0], xs[1..];
      GroupBucket(rest, p, c);
      var g := Group(rest, p);
      PrefixStep(first, p, c);
      if HasPrefix(first, p) {
        assert ([first] + g)[1..] == g;
      } else {
        assert [] + g == g;
      }
    }
  }

  /** A group whose items all split at `|p|` is exactly as large as its two halves. */
  lemma GroupHalves(xs: seq<string>, p: string)
    requires Malformed(Group(xs, p), |p|) == None
    ensures |Group(xs, p)| == |Group(xs, p + "0")| + |Group(xs, p + "1")|
  {
    var g := Group(xs, p);
    BucketsPermute(g, |p|);
    GroupBucket(xs, p, '0');
    GroupBucket(xs, p, '1');
    assert |multiset(g)| == |g|;
    assert |multiset(Group(xs, p + "0"))| == |Group(xs, p + "0")|;
    assert |multiset(Group(xs, p + "1"))| == |Group(xs, p + "1")|;
  }

  /** A longer prefix selects no more items. */
  lemma {:induction false} GroupShrinks(xs: seq<string>, p: string, q: string)
    requires HasPrefix(q, p)
    ensures |Group(xs, q)| <= |Group(xs, p)|
  {
    if xs != [] {
      GroupShrinks(xs[1..], p, q);
      if HasPrefix(xs[0], q) {
        assert xs[0][..|p|] == xs[0][..|q|][..|p|];
      }
    }
  }

  /** Once a group has at most one item, so has every group below it. */
  lemma NarrowBelow(xs: seq<string>, v: string, q: string, j: nat)
    requires HasPrefix(v, q) && |Group(xs, q)| <= 1 && |q| <= j <= |v|
    ensures |Group(xs, v[..j])| <= 1
  {
    assert v[..j][..|q|] == v[..|q|];
    GroupShrinks(xs, q, v[..j]);
  }

  /** The digit the tie-break rule picks at position `|q|` below prefix `q`. */
  function Pick(input: seq<string>, q: string, oxygen: bool): char
  {
    if KeepsRight(|Group(input, q + "0")|, |Group(input, q + "1")|, oxygen) then '1' else '0'
  }

  /** Where at least two items share the first `j` digits of `v`, `v` carries
      the digit the rule picks. */
  predicate PicksAt(input: seq<string>, v: string, j: nat, oxygen: bool)
    requires j < |v|
  {
    |Group(input, v[..j])| >= 2 ==> v[j] == Pick(input, v[..j], oxygen)
  }

  /** `v` is an item of the report beginning with `p` that follows the rule
      from position `|p|` on. */
  predicate Selected(input: seq<string>, p: string, v: string, oxygen: bool)
  {
    && v in input && HasPrefix(v, p) && |p| < |v|
    && forall j :: |p| <= j < |v| ==> PicksAt(input, v, j, oxygen)
  }

  /** A group with an item of length beyond `|p|` leaves room in the longest line. */
  lemma RoomBelow(input: seq<string>, p: string, x: string)
    requires x in input && |x| > |p|
    ensures |p| + 1 <= MaxLen(input)
  {
    var k :| 0 <= k < |input| && input[k] == x;
  }

  /** The three ways the search stops with a rating. */
  lemma SearchStops(input: seq<string>, p: string, oxygen: bool)
    requires Malformed(Group(input, p), |p|) == None
    requires var l, r := |Group(input, p + "0")|, |Group(input, p + "1")|;
             (l == 1 && r == 0) || (l == 0 && r == 1) || (l == 1 && r == 1)
    ensures var l, r := Group(input, p + "0"), Group(input, p + "1");
            Search(input, p, oxygen)
              == Ok(if |r| == 0 || (|l| == 1 && !oxygen) then l[|l| - 1] else r[|r| - 1])
  {
  }

  /** An empty group: the search can never stop. */
  lemma SearchEmpty(input: seq<string>, p: string, oxygen: bool)
    requires Malformed(Group(input, p), |p|) == None
    requires |Group(input, p + "0")| == 0 && |Group(input, p + "1")| == 0
    ensures Search(input, p, oxygen) == Err(Diverges)
  {
  }

  /** Otherwise the search goes one level down, into the bucket the rule picks. */
  lemma SearchDescends(input: seq<string>, p: string, oxygen: bool)
    requires Malformed(Group(input, p), |p|) == None
    requires var l, r := |Group(input, p + "0")|, |Group(input, p + "1")|;
             !(l <= 1 && r <= 1)
    ensures |p| + 1 <= MaxLen(input)
    ensures Search(input, p, oxygen) == Search(input, p + [Pick(input, p, oxygen)], oxygen)
  {
    var l, r := Group(input, p + "0"), Group(input, p + "1");
    RoomBelow(input, p, if |l| > 0 then l[0] else r[0]);
  }

  /** A rating taken at a stop follows the rule: the stop's own position is
      either a tie the rule settles or a group of one, and below it no two
      items share a prefix. */
  lemma StopSelects(input: seq<string>, p: string, oxygen: bool)
    requires Malformed(Group(input, p), |p|) == None
    requires var l, r := |Group(input, p + "0")|, |Group(input, p + "1")|;
             (l == 1 && r == 0) || (l == 0 && r == 1) || (l == 1 && r == 1)
    ensures Search(input, p, oxygen).Ok? && Selected(input, p, Search(input, p, oxygen).value, oxygen)
  {
    var l, r := Group(input, p + "0"), Group(input, p + "1");
    SearchStops(input, p, oxygen);
    GroupHalves(input, p);
    var v := Search(input, p, oxygen).value;
    var q := if |r| == 0 || (|l| == 1 && !oxygen) then p + "0" else p + "1";
    assert v in Group(input, q) && |Group(input, q)| <= 1;
    assert v[..|p|] == v[..|q|][..|p|];
    forall j | |p| <= j < |v| ensures PicksAt(input, v, j, oxygen) {
      if j == |p| {
        assert v[..j] == p;
      } else {
        NarrowBelow(input, v, q, j);
      }
    }
  }

  /** Whatever the search returns is an item of the report beginning with
      `p`, and at every position from `|p|` on where at least two items share
      its prefix, it carries the digit the tie-break rule picks: the majority
      digit (ties to '1') for oxygen, the minority digit (ties to '0') for CO2. */
  lemma {:induction false} SearchSelects(input: seq<string>, p: string, oxygen: bool)
    ensures Search(input, p, oxygen).Ok? ==> Selected(input, p, Search(input, p, oxygen).value, oxygen)
    decreases MaxLen(input) - |p|
  {
    if Malformed(Group(input, p), |p|).None? {
      var l, r := |Group(input, p + "0")|, |Group(input, p + "1")|;
      if l == 0 && r == 0 {
        SearchEmpty(input, p, oxygen);
      } else if l <= 1 && r <= 1 {
        StopSelects(input, p, oxygen);
      } else {
        SearchDescends(input, p, oxygen);
        var next := p + [Pick(input, p, oxygen)];
        SearchSelects(input, next, oxygen);
        if Search(input, next, oxygen).Ok? {
          var v := Search(input, next, oxygen).value;
          assert Selected(input, next, v, oxygen);
          assert v[..|p|] == v[..|next|][..|p|];
          assert v[..|p|] == p && v[|p|] == next[|p|];
          forall j | |p| <= j < |v| ensures PicksAt(input, v, j, oxygen) {
            if j == |p| {
              assert v[..j] == p;
            }
          }
          assert Selected(input, p, v, oxygen);
        }
      }
    }
  }

  /** An empty partition only ever re-splits into an empty partition, so a
      search that reaches one repeats forever. */
  lemma EmptyStaysEmpty(idx: nat)
    ensures Partition([], idx) == Ok(LeftRight(idx, [], []))
  {
  }

  /** Splitting the group of prefix `q` either fails just as the search from
      `q` does, or gives the groups of the two one-longer prefixes. */
  lemma PartitionGroup(input: seq<string>, q: string, oxygen: bool)
    ensures Partition(Group(input, q), |q|).Err? ==>
              Search(input, q, oxygen) == Err(Partition(Group(input, q), |q|).error)
    ensures Partition(Group(input, q), |q|).Ok? ==>
              var lr := Partition(Group(input, q), |q|).value;
              && Malformed(Group(input, q), |q|) == None
              && lr.sortIndex == |q|
              && lr.left == Group(input, q + "0") && lr.right == Group(input, q + "1")
  {
    GroupBucket(input, q, '0');
    GroupBucket(input, q, '1');
  }

  /** The loop's state at prefix `p`: a partition of the group of `p`. */
  predicate AtPrefix(input: seq<string>, p: string, lr: LeftRight)
  {
    && lr.sortIndex == |p|
    && Malformed(Group(input, p), |p|) == None
    && lr.left == Group(input, p + "0") && lr.right == Group(input, p + "1")
  }

  /** A pass of the loop that stops pops the rating off the bucket the rule names. */
  lemma StopStep(input: seq<string>, p: string, oxygen: bool, lr: LeftRight)
    requires AtPrefix(input, p, lr)
    requires var l, r := |lr.left|, |lr.right|; (l == 1 && r == 0) || (l == 0 && r == 1) || (l == 1 && r == 1)
    ensures var l, r := lr.left, lr.right;
            Search(input, p, oxygen)
              == Ok(if |r| == 0 || (|l| == 1 && !oxygen) then l[|l| - 1] else r[|r| - 1])
  {
    SearchStops(input, p, oxygen);
  }

  /** One pass of the loop that neither stops nor diverges: re-splitting the
      bucket the rule keeps is the search one level down. */
  lemma DescendStep(input: seq<string>, p: string, oxygen: bool, lr: LeftRight, next: Result<LeftRight, Error>)
    requires AtPrefix(input, p, lr)
    requires !(|lr.left| <= 1 && |lr.right| <= 1)
    requires next == Partition(if KeepsRight(|lr.left|, |lr.right|, oxygen) then lr.right else lr.left, lr.sortIndex + 1)
    ensures |p| + 1 <= MaxLen(input)
    ensures Search(input, p, oxygen) == Search(input, p + [Pick(input, p, oxygen)], oxygen)
    ensures next.Err? ==> Search(input, p, oxygen) == Err(next.error)
    ensures next.Ok? ==> AtPrefix(input, p + [Pick(input, p, oxygen)], next.value)
  {
    SearchDescends(input, p, oxygen);
    var c := Pick(input, p, oxygen);
    KeptBucket(input, p, oxygen, lr);
    assert next == Partition(Group(input, p + [c]), |p + [c]|);
    PartitionGroup(input, p + [c], oxygen);
  }

  /** The bucket the loop keeps is the group of the prefix extended by the
      digit the rule picks. */
  lemma KeptBucket(input: seq<string>, p: string, oxygen: bool, lr: LeftRight)
    requires AtPrefix(input, p, lr)
    ensures (if KeepsRight(|lr.left|, |lr.right|, oxygen) then lr.right else lr.left)
              == Group(input, p + [Pick(input, p, oxygen)])
    ensures lr.sortIndex + 1 == |p + [Pick(input, p, oxygen)]|
  {
  }

  /** Part 2's selection loop for one rating: split, keep the bucket the rule
      picks, split again, until a bucket pair of sizes (1,0), (0,1) or (1,1)
      ends it; ratings are popped off the end of their bucket. */
  method FindRating(input: seq<string>, oxygen: bool) returns (rating: Result<string, Error>)
    ensures rating == Search(input, "", oxygen)
  {
    GroupAll(input);
    ghost var p: string := "";
    PartitionGroup(input, p, oxygen);
    var start := LeftRight.New(input, 0);
    if start.Err? {
      return Err(start.error);
    }
    var lr := start.value;
    while true
      invariant AtPrefix(input, p, lr)
      invariant Search(input, p, oxygen) == Search(input, "", oxygen)
      decreases MaxLen(input) - |p|
    {
      var l, r := |lr.left|, |lr.right|;
      if (l == 1 && r == 0) || (l == 0 && r == 1) || (l == 1 && r == 1) {
        StopStep(input, p, oxygen, lr);
        if r == 0 || (l == 1 && !oxygen) {
          return Ok(lr.left[l - 1]);
        } else {
          return Ok(lr.right[r - 1]);
        }
      } else if l == 0 && r == 0 {
        SearchEmpty(input, p, oxygen);
        EmptyStaysEmpty(lr.sortIndex + 1);
        return Err(Diverges);
      }
      var next;
      if KeepsRight(l, r, oxygen) {
        next := lr.Right();
      } else {
        next := lr.Left();
      }
      DescendStep(input, p, oxygen, lr, next);
      p := p + [Pick(input, p, oxygen)];
      if next.Err? {
        return Err(next.error);
      }
      lr := next.value;
    }
  }

  /** `from_str_radix(_, 2)` on a rating: its binary digits, most significant first. */
  function BinaryValue(s: string): nat
  {
    if s == [] then 0 else 2 * BinaryValue(s[..|s| - 1]) + (if s[|s| - 1] == '1' then 1 else 0)
  }

  function ParseBinary(s: string): Result<nat, Error>
  {
    if |s| > 0 && forall c :: 0 <= c < |s| ==> IsBit(s[c]) then Ok(BinaryValue(s))
    else Err(InvalidBinary(s))
  }

  /** Part 2 as a value: the oxygen rating times the CO2 rating. */
  function Part2(input: seq<string>): Result<int, Error>
  {
    var o2 :- Search(input, "", true);
    var co2 :- Search(input, "", false);
    var a :- ParseBinary(o2);
    var b :- ParseBinary(co2);
    Ok(a * b)
  }

  /** Part 2: the two searches one after the other, then the product. */
  method LifeSupport(input: seq<string>) returns (r: Result<int, Error>)
    ensures r == Part2(input)
  {
    var o2 := FindRating(input, true);
    if o2.Err? {
      return Err(o2.error);
    }
    var co2 := FindRating(input, false);
    if co2.Err? {
      return Err(co2.error);
    }
    var a := ParseBinary(o2.value);
    var b := ParseBinary(co2.value);
    if a.Err? {
      return Err(a.error);
    }
    if b.Err? {
      return Err(b.error);
    }
    r := Ok(a.value * b.value);
  }

  /** The example report of the puzzle statement. */
  const Example: seq<string> := ["00100", "11110", "10110", "10111", "10101", "01111",
                                 "00111", "11100", "10000", "11001", "00010", "01010"]

  lemma ExampleColumn0()
    ensures Tally(Example, 0) == -2
  {
  }

  lemma ExampleColumn1()
    ensures Tally(Example, 1) == 2
  {
  }

  lemma ExampleColumn2()
    ensures Tally(Example, 2) == 4
  {
  }

  lemma ExampleColumn3()
    ensures Tally(Example, 3) == -2
  {
  }

  lemma ExampleColumn4()
    ensures Tally(Example, 4) == 2
  {
  }

  lemma ExampleBinary()
    ensures AllBinary(Example)
  {
    forall k, c | 0 <= k < |Example| && 0 <= c < |Example[k]| ensures IsBit(Example[k][c]) {
      assert |Example[k]| == 5;
    }
  }

  lemma ExampleWidth()
    ensures MaxLen(Example) == 5
  {
  }

  /** A five-column report with the example's balances gives gamma 10110
      and epsilon 01001. */
  lemma ExampleRates(lines: seq<string>)
    requires AllBinary(lines) && MaxLen(lines) == 5
    requires Tally(lines, 0) == -2 && Tally(lines, 1) == 2 && Tally(lines, 2) == 4
    requires Tally(lines, 3) == -2 && Tally(lines, 4) == 2
    ensures Part1(lines) == Ok(22 * 9)
  {
    BalanceSpec(lines);
    var m := Balance(lines).value;
    assert Rate(m, 0, 5, true) == 22;
    assert Rate(m, 0, 5, false) == 9;
  }

  /** The report of the puzzle statement gives 198. */
  lemma ExamplePart1()
    ensures Part1(Example) == Ok(198)
  {
    ExampleBinary();
    ExampleWidth();
    ExampleColumn0();
    ExampleColumn1();
    ExampleColumn2();
    ExampleColumn3();
    ExampleColumn4();
    ExampleRates(Example);
  }

  /** In the report ["10", "11"] no item begins with a zero and both begin
      with a one. */
  lemma ExampleFirstDigits(input: seq<string>)
    requires input == ["10", "11"]
    ensures Group(input, "0") == [] && Group(input, "1") == input
  {
    assert input[1..][1..] == [];
    assert Group(input, "0") == [] by {
      assert input[0][..1][0] == '1' && input[1][..1][0] == '1';
      assert !HasPrefix(input[0], "0") && !HasPrefix(input[1], "0");
      assert Group(input[1..], "0") == Group(input[1..][1..], "0");
    }
    assert input[0][..1] == "1" && input[1][..1] == "1";
    assert HasPrefix(input[0], "1") && HasPrefix(input[1], "1");
    assert Group(input[1..], "1") == [input[1]] + Group(input[1..][1..], "1");
  }

  /** Once the CO2 search has kept the empty bucket "0" of ["10", "11"],
      both of its buckets are empty. */
  lemma ExampleEmptyBucket(input: seq<string>)
    requires input == ["10", "11"]
    ensures Search(input, "0", false) == Err(Diverges)
  {
    ExampleFirstDigits(input);
    GroupShrinks(input, "0", "00");
    GroupShrinks(input, "0", "01");
    assert "0" + "0" == "00" && "0" + "1" == "01";
    assert Malformed(Group(input, "0"), 1) == None;
  }

  /** The CO2 search empties its partition on a two-item report whose items
      share their first digit: with no zeros and two ones, `l > r` fails and
      the empty left bucket is kept, so the loop never stops. */
  lemma CO2KeepsEmptyBucket()
    ensures Search(["10", "11"], "", false) == Err(Diverges)
  {
    var input := ["10", "11"];
    GroupAll(input);
    ExampleFirstDigits(input);
    ExampleEmptyBucket(input);
    assert "" + "0" == "0" && "" + "1" == "1";
    assert KeepsRight(0, 2, false) == false;
  }
}
