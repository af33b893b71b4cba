// Day 6: lanternfish. A community is a histogram from timer value to the
// number of fish with that timer; each day every timer counts down, and a
// fish at 0 restarts at 6 and spawns a new fish at 8.

module Day6 {
  import opened Results

  /** A timer, stored by the source as an unsigned byte. */
  type Age = x: int | 0 <= x < 256

  /** How many fish `m` has at timer `a`: `HashMap::get` defaulting to 0. */
  function Get(m: map<Age, nat>, a: Age): nat
  {
    if a in m then m[a] else 0
  }

  /** The number of fish with timer `lo` or above. */
  function TotalFrom(m: map<Age, nat>, lo: nat): nat
    decreases 256 - lo
  {
    if lo >= 256 then 0 else Get(m, lo) + TotalFrom(m, lo + 1)
  }

  /** The size of the community: the sum of all the counts. */
  function Total(m: map<Age, nat>): nat
  {
    TotalFrom(m, 0)
  }

  // ---------------------------------------------------------------------
  // Community::new
  // ---------------------------------------------------------------------

  /** One more fish at timer `a`. */
  function Bump(m: map<Age, nat>, a: Age): map<Age, nat>
  {
    m[a := Get(m, a) + 1]
  }

  /** The histogram `Community::new` builds, one fish at a time. */
  function Histogram(xs: seq<Age>): map<Age, nat>
  {
    if xs == [] then map[] else Bump(Histogram(xs[..|xs| - 1]), xs[|xs| - 1])
  }

  /** Each timer is mapped to the number of fish that have it, and only
      the timers some fish has are keys. */
  lemma {:induction false} HistogramCounts(xs: seq<Age>)
    ensures forall a: Age :: Get(Histogram(xs), a) == multiset(xs)[a]
    ensures forall a: Age :: a in Histogram(xs) <==> a in xs
  {
    if xs != [] {
      var init, last := xs[..|xs| - 1], xs[|xs| - 1];
      HistogramCounts(init);
      assert xs == init + [last];
    }
  }

  lemma {:induction false} TotalBump(m: map<Age, nat>, a: Age, lo: nat)
    ensures TotalFrom(Bump(m, a), lo) == TotalFrom(m, lo) + (if lo <= a then 1 else 0)
    decreases 256 - lo
  {
    if lo < 256 {
      TotalBump(m, a, lo + 1);
    }
  }

  /** The histogram counts every fish once. */
  lemma {:induction false} HistogramTotal(xs: seq<Age>)
    ensures Total(Histogram(xs)) == |xs|
  {
    if xs != [] {
      var init, last := xs[..|xs| - 1], xs[|xs| - 1];
      HistogramTotal(init);
      TotalBump(Histogram(init), last, 0);
      assert Histogram(xs) == Bump(Histogram(init), last);
    } else {
      EmptyTotal(0);
    }
  }

  lemma {:induction false} TotalRemove(m: map<Age, nat>, a: Age, lo: nat)
    requires a in m
    ensures TotalFrom(m, lo) == TotalFrom(m - {a}, lo) + (if lo <= a then m[a] else 0)
    decreases 256 - lo
  {
    if lo < 256 {
      TotalRemove(m, a, lo + 1);
    }
  }

  // ---------------------------------------------------------------------
  // Community::next
  // ---------------------------------------------------------------------

  /** Whether some counted timer among `keys` flows into timer `b` in a
      day: `b + 1` counts down to it, and 0 restarts at 6 and spawns at 8. */
  predicate Feeds(keys: set<Age>, b: Age)
  {
    (b < 255 && (b + 1) in keys) || ((b == 6 || b == 8) && 0 in keys)
  }

  /** What the timers among `keys` contribute to timer `b` in a day. */
  function Inflow(m: map<Age, nat>, keys: set<Age>, b: Age): nat
    requires keys <= m.Keys
  {
    (if b < 255 && (b + 1) in keys then m[b + 1] else 0)
    + (if (b == 6 || b == 8) && 0 in keys then m[0] else 0)
  }

  /** Whether the fish at timer `a` are at timer `b` a day later. */
  predicate Into(a: Age, b: Age)
  {
    (a > 0 && b == a - 1) || (a == 0 && (b == 6 || b == 8))
  }

  /** One arm of the match in `Iterator::next`: add `amount` fish at timer
      `a` to where they are a day later, `map_or` starting a missing
      count from `amount`. */
  function Move(update: map<Age, nat>, a: Age, amount: nat): map<Age, nat>
  {
    if a == 0 then
      var u := update[6 := Get(update, 6) + amount];
      u[8 := Get(u, 8) + amount]
    else
      update[a - 1 := Get(update, a - 1) + amount]
  }

  /** A move adds the fish to exactly the timers they go to. */
  lemma MoveSpec(update: map<Age, nat>, a: Age, amount: nat)
    ensures forall b: Age :: b in Move(update, a, amount) <==> b in update || Into(a, b)
    ensures forall b: Age :: Get(Move(update, a, amount), b) == Get(update, b) + (if Into(a, b) then amount else 0)
  {
  }

  /** Visiting one more timer adds its count where it goes. */
  lemma InflowAdd(m: map<Age, nat>, keys: set<Age>, a: Age)
    requires keys <= m.Keys && a in m && a !in keys
    ensures forall b: Age :: Feeds(keys + {a}, b) <==> Feeds(keys, b) || Into(a, b)
    ensures forall b: Age :: Inflow(m, keys + {a}, b) == Inflow(m, keys, b) + (if Into(a, b) then m[a] else 0)
  {
  }

  /** The community a day later. */
  function Step(m: map<Age, nat>): map<Age, nat>
  {
    map b: Age | 0 <= b < 256 && Feeds(m.Keys, b) :: Inflow(m, m.Keys, b)
  }

  /** A day moves the fish at each timer `a > 0` to `a - 1`, and those at 0
      to both 6 and 8. */
  lemma StepCounts(m: map<Age, nat>, b: Age)
    ensures Get(Step(m), b) == (if b < 255 then Get(m, b + 1) else 0) + (if b == 6 || b == 8 then Get(m, 0) else 0)
  {
  }

  lemma {:induction false} StepTotalFrom(m: map<Age, nat>, lo: nat)
    requires lo <= 256
    ensures TotalFrom(Step(m), lo) == TotalFrom(m, lo + 1) + (if lo <= 6 then Get(m, 0) else 0) + (if lo <= 8 then Get(m, 0) else 0)
    decreases 256 - lo
  {
    if lo < 256 {
      StepTotalFrom(m, lo + 1);
      StepCounts(m, lo);
    }
  }

  /** A day adds one fish per fish at timer 0, so the community never
      shrinks. */
  lemma StepTotal(m: map<Age, nat>)
    ensures Total(Step(m)) == Total(m) + Get(m, 0)
    ensures Total(Step(m)) >= Total(m)
  {
    StepTotalFrom(m, 0);
  }

  /** Every timer is at most 8. */
  predicate Young(m: map<Age, nat>)
  {
    forall a :: a in m ==> a <= 8
  }

  /** Timers at most 8 stay at most 8. */
  lemma StepYoung(m: map<Age, nat>)
    requires Young(m)
    ensures Young(Step(m))
  {
  }

  /** The community after `k` days. */
  function Simulate(m: map<Age, nat>, k: nat): map<Age, nat>
    decreases k
  {
    if k == 0 then m else Step(Simulate(m, k - 1))
  }

  /** A school of lanternfish, counted by timer. */
  class Community {
    var ages: map<Age, nat>

    /** `Community::new`: count the fish at each timer. */
    constructor (individuals: seq<Age>)
      ensures ages == Histogram(individuals)
    {
      var ageMap: map<Age, nat> := map[];
      for k := 0 to |individuals|
        invariant ageMap == Histogram(individuals[..k])
      {
        var age := individuals[k];
        assert individuals[..k + 1][..k] == individuals[..k];
        if age in ageMap {
          ageMap := ageMap[age := ageMap[age] + 1];
        } else {
          ageMap := ageMap[age := 1];
        }
      }
      assert individuals[..|individuals|] == individuals;
      ages := ageMap;
    }

    /** `Iterator::next`: replace the counts by those a day later; then
        the new size of the community. */
    method Next() returns (r: Option<nat>)
      modifies this
      ensures ages == Step(old(ages))
      ensures r == Some(Total(ages))
    {
      var update := Aged();
      ages := update;
      var sum := Sum();
      return Some(sum);
    }

    /** The loop of `Iterator::next`: move every count to where its timer
        goes in a day, visiting the timers in no particular order. */
    method Aged() returns (update: map<Age, nat>)
      ensures update == Step(ages)
    {
      update := map[];
      var todo := ages.Keys;
      ghost var done: set<Age> := {};
      while todo != {}
        invariant todo !! done && todo + done == ages.Keys
        invariant forall b: Age :: b in update <==> Feeds(done, b)
        invariant forall b: Age :: Get(update, b) == Inflow(ages, done, b)
        decreases |todo|
      {
        var age :| age in todo;
        var amount := ages[age];
        InflowAdd(ages, done, age);
        MoveSpec(update, age, amount);
        update := Move(update, age, amount);
        todo, done := todo - {age}, done + {age};
      }
      assert forall b: Age :: b in update ==> update[b] == Get(update, b);
    }

    /** `self.ages.values().sum()`, the counts taken in no particular
        order. */
    method Sum() returns (sum: nat)
      ensures sum == Total(ages)
    {
      sum := 0;
      var rest := ages;
      while rest != map[]
        invariant sum + Total(rest) == Total(ages)
        decreases |rest|
      {
        var age :| age in rest;
        TotalRemove(rest, age, 0);
        sum := sum + rest[age];
        rest := rest - {age};
      }
      assert Total(map[]) == 0 by {
        EmptyTotal(0);
      }
    }
  }

  lemma {:induction false} EmptyTotal(lo: nat)
    ensures TotalFrom(map[], lo) == 0
    decreases 256 - lo
  {
    if lo < 256 {
      EmptyTotal(lo + 1);
    }
  }

  // ---------------------------------------------------------------------
  // part_1, part_2
  // ---------------------------------------------------------------------

  function Flatten(lines: seq<seq<Age>>): seq<Age>
  {
    if lines == [] then [] else lines[0] + Flatten(lines[1..])
  }

  /** `community.skip(days - 1).next().unwrap()`: the size of the
      community after `days` days. */
  method Observe(individuals: seq<Age>, days: nat) returns (r: nat)
    requires days > 0
    ensures r == Total(Simulate(Histogram(individuals), days))
  {
    var community := new Community(individuals);
    var last := community.Next();
    for k := 1 to days
      invariant community.ages == Simulate(Histogram(individuals), k)
      invariant last == Some(Total(community.ages))
    {
      last := community.Next();
    }
    return last.value;
  }

  /** Why `Day6::part_1` panics: printing the community takes the largest
      timer, and an empty community has none. */
  datatype Error = NoFish

  /** `Day6::part_1`: the size after 80 days of the fish on the input's
      comma-separated lines. */
  method Part1(lines: seq<seq<Age>>) returns (r: Result<nat, Error>)
    ensures Flatten(lines) == [] <==> r.Err?
    ensures r.Ok? ==> r.value == Total(Simulate(Histogram(Flatten(lines)), 80))
  {
    var individuals := Flatten(lines);
    if individuals == [] {
      return Err(NoFish);
    }
    var n := Observe(individuals, 80);
    return Ok(n);
  }

  /** `Day6::part_2`: the size after 256 days. */
  method Part2(lines: seq<seq<Age>>) returns (r: nat)
    ensures r == Total(Simulate(Histogram(Flatten(lines)), 256))
  {
    r := Observe(Flatten(lines), 256);
  }

  // ---------------------------------------------------------------------
  // A reference: nine counters
  // ---------------------------------------------------------------------

  /** The counts at timers 0 to 8, the only timers a young community has. */
  datatype Timers = Timers(t0: nat, t1: nat, t2: nat, t3: nat, t4: nat, t5: nat, t6: nat, t7: nat, t8: nat)

  function ToTimers(m: map<Age, nat>): Timers
  {
    Timers(Get(m, 0), Get(m, 1), Get(m, 2), Get(m, 3), Get(m, 4), Get(m, 5), Get(m, 6), Get(m, 7), Get(m, 8))
  }

  function Count(t: Timers): nat
  {
    t.t0 + t.t1 + t.t2 + t.t3 + t.t4 + t.t5 + t.t6 + t.t7 + t.t8
  }

  /** A day on nine counters: everything shifts down one, and the fish at
      0 go to 6 and to 8. */
  function Rotate(t: Timers): Timers
  {
    Timers(t.t1, t.t2, t.t3, t.t4, t.t5, t.t6, t.t7 + t.t0, t.t8, t.t0)
  }

  /** `k` days on nine counters. */
  function Iterate(t: Timers, k: nat): Timers
    decreases k
  {
    if k == 0 then t else Rotate(Iterate(t, k - 1))
  }

  lemma {:induction false} YoungTotalFrom(m: map<Age, nat>, lo: nat)
    requires Young(m) && 9 <= lo
    ensures TotalFrom(m, lo) == 0
    decreases 256 - lo
  {
    if lo < 256 {
      YoungTotalFrom(m, lo + 1);
    }
  }

  /** A young community's size is the sum of its nine counters. */
  lemma YoungTotal(m: map<Age, nat>)
    requires Young(m)
    ensures Total(m) == Count(ToTimers(m))
  {
    YoungTotalFrom(m, 9);
    assert Total(m) == Get(m, 0) + Get(m, 1) + Get(m, 2) + Get(m, 3) + Get(m, 4)
                       + Get(m, 5) + Get(m, 6) + Get(m, 7) + Get(m, 8) + TotalFrom(m, 9);
  }

  /** On a young community a day is a rotation of the nine counters. */
  lemma StepRotates(m: map<Age, nat>)
    requires Young(m)
    ensures ToTimers(Step(m)) == Rotate(ToTimers(m))
  {
    var s := Step(m);
    assert Get(m, 9) == 0;
    StepCounts(m, 0); StepCounts(m, 1); StepCounts(m, 2);
    StepCounts(m, 3); StepCounts(m, 4); StepCounts(m, 5);
    StepCounts(m, 6); StepCounts(m, 7); StepCounts(m, 8);
    RotateFrom(m, s);
  }

  lemma RotateFrom(m: map<Age, nat>, s: map<Age, nat>)
    requires Get(s, 0) == Get(m, 1) && Get(s, 1) == Get(m, 2) && Get(s, 2) == Get(m, 3)
    requires Get(s, 3) == Get(m, 4) && Get(s, 4) == Get(m, 5) && Get(s, 5) == Get(m, 6)
    requires Get(s, 6) == Get(m, 7) + Get(m, 0) && Get(s, 7) == Get(m, 8) && Get(s, 8) == Get(m, 0)
    ensures ToTimers(s) == Rotate(ToTimers(m))
  {
  }

  /** Days on a young community are rotations of its nine counters:
      `later` is the community `k` days on. */
  lemma {:induction false} SimulateRotates(m: map<Age, nat>, k: nat, later: map<Age, nat>)
    requires Young(m) && later == Simulate(m, k)
    ensures Young(later) && ToTimers(later) == Iterate(ToTimers(m), k)
    decreases k
  {
    if k > 0 {
      var earlier := Simulate(m, k - 1);
      SimulateRotates(m, k - 1, earlier);
      StepYoung(earlier);
      StepRotates(earlier);
    }
  }

  /** The size of a young community `k` days on, read off the nine
      counters. */
  lemma SimulateCount(m: map<Age, nat>, k: nat)
    requires Young(m)
    ensures Total(Simulate(m, k)) == Count(Iterate(ToTimers(m), k))
  {
    var later := Simulate(m, k);
    SimulateRotates(m, k, later);
    YoungTotal(later);
  }

  /** A histogram is young exactly when every fish's timer is at most 8. */
  lemma HistogramYoung(xs: seq<Age>)
    ensures Young(Histogram(xs)) <==> forall i :: 0 <= i < |xs| ==> xs[i] <= 8
  {
    HistogramCounts(xs);
    if Young(Histogram(xs)) {
      forall i | 0 <= i < |xs|
        ensures xs[i] <= 8
      {
        assert xs[i] in xs;
      }
    }
  }
}
