/** The lanternfish example of the puzzle statement, "3,4,3,1,2", followed
    day by day on nine counters: 5934 fish after 80 days and 26984457539
    after 256. */
module Day6Example {
  import opened Day6

  /** One more day on the counters. */
  lemma IterStep(t: Timers, k: nat, u: Timers)
    requires Iterate(t, k) == u
    ensures Iterate(t, k + 1) == Rotate(u)
  {
  }

  /** Days 0 to 16 of the example. */
  lemma Days0(t: Timers)
    requires Iterate(t, 0) == Timers(0, 1, 1, 2, 1, 0, 0, 0, 0)
    ensures Iterate(t, 16) == Timers(1, 4, 3, 5, 3, 2, 2, 0, 1)
  {
    IterStep(t, 0, Timers(0, 1, 1, 2, 1, 0, 0, 0, 0));
    IterStep(t, 1, Timers(1, 1, 2, 1, 0, 0, 0, 0, 0));
    IterStep(t, 2, Timers(1, 2, 1, 0, 0, 0, 1, 0, 1));
    IterStep(t, 3, Timers(2, 1, 0, 0, 0, 1, 1, 1, 1));
    IterStep(t, 4, Timers(1, 0, 0, 0, 1, 1, 3, 1, 2));
    IterStep(t, 5, Timers(0, 0, 0, 1, 1, 3, 2, 2, 1));
    IterStep(t, 6, Timers(0, 0, 1, 1, 3, 2, 2, 1, 0));
    IterStep(t, 7, Timers(0, 1, 1, 3, 2, 2, 1, 0, 0));
    IterStep(t, 8, Timers(1, 1, 3, 2, 2, 1, 0, 0, 0));
    IterStep(t, 9, Timers(1, 3, 2, 2, 1, 0, 1, 0, 1));
    IterStep(t, 10, Timers(3, 2, 2, 1, 0, 1, 1, 1, 1));
    IterStep(t, 11, Timers(2, 2, 1, 0, 1, 1, 4, 1, 3));
    IterStep(t, 12, Timers(2, 1, 0, 1, 1, 4, 3, 3, 2));
    IterStep(t, 13, Timers(1, 0, 1, 1, 4, 3, 5, 2, 2));
    IterStep(t, 14, Timers(0, 1, 1, 4, 3, 5, 3, 2, 1));
    IterStep(t, 15, Timers(1, 1, 4, 3, 5, 3, 2, 1, 0));
  }

  /** Days 16 to 32 of the example. */
  lemma Days16(t: Timers)
    requires Iterate(t, 16) == Timers(1, 4, 3, 5, 3, 2, 2, 0, 1)
    ensures Iterate(t, 32) == Timers(5, 14, 10, 16, 11, 10, 12, 3, 7)
  {
    IterStep(t, 16, Timers(1, 4, 3, 5, 3, 2, 2, 0, 1));
    IterStep(t, 17, Timers(4, 3, 5, 3, 2, 2, 1, 1, 1));
    IterStep(t, 18, Timers(3, 5, 3, 2, 2, 1, 5, 1, 4));
    IterStep(t, 19, Timers(5, 3, 2, 2, 1, 5, 4, 4, 3));
    IterStep(t, 20, Timers(3, 2, 2, 1, 5, 4, 9, 3, 5));
    IterStep(t, 21, Timers(2, 2, 1, 5, 4, 9, 6, 5, 3));
    IterStep(t, 22, Timers(2, 1, 5, 4, 9, 6, 7, 3, 2));
    IterStep(t, 23, Timers(1, 5, 4, 9, 6, 7, 5, 2, 2));
    IterStep(t, 24, Timers(5, 4, 9, 6, 7, 5, 3, 2, 1));
    IterStep(t, 25, Timers(4, 9, 6, 7, 5, 3, 7, 1, 5));
    IterStep(t, 26, Timers(9, 6, 7, 5, 3, 7, 5, 5, 4));
    IterStep(t, 27, Timers(6, 7, 5, 3, 7, 5, 14, 4, 9));
    IterStep(t, 28, Timers(7, 5, 3, 7, 5, 14, 10, 9, 6));
    IterStep(t, 29, Timers(5, 3, 7, 5, 14, 10, 16, 6, 7));
    IterStep(t, 30, Timers(3, 7, 5, 14, 10, 16, 11, 7, 5));
    IterStep(t, 31, Timers(7, 5, 14, 10, 16, 11, 10, 5, 3));
  }

  /** Days 32 to 48 of the example. */
  lemma Days32(t: Timers)
    requires Iterate(t, 32) == Timers(5, 14, 10, 16, 11, 10, 12, 3, 7)
    ensures Iterate(t, 48) == Timers(23, 51, 36, 56, 44, 44, 56, 18, 33)
  {
    IterStep(t, 32, Timers(5, 14, 10, 16, 11, 10, 12, 3, 7));
    IterStep(t, 33, Timers(14, 10, 16, 11, 10, 12, 8, 7, 5));
    IterStep(t, 34, Timers(10, 16, 11, 10, 12, 8, 21, 5, 14));
    IterStep(t, 35, Timers(16, 11, 10, 12, 8, 21, 15, 14, 10));
    IterStep(t, 36, Timers(11, 10, 12, 8, 21, 15, 30, 10, 16));
    IterStep(t, 37, Timers(10, 12, 8, 21, 15, 30, 21, 16, 11));
    IterStep(t, 38, Timers(12, 8, 21, 15, 30, 21, 26, 11, 10));
    IterStep(t, 39, Timers(8, 21, 15, 30, 21, 26, 23, 10, 12));
    IterStep(t, 40, Timers(21, 15, 30, 21, 26, 23, 18, 12, 8));
    IterStep(t, 41, Timers(15, 30, 21, 26, 23, 18, 33, 8, 21));
    IterStep(t, 42, Timers(30, 21, 26, 23, 18, 33, 23, 21, 15));
    IterStep(t, 43, Timers(21, 26, 23, 18, 33, 23, 51, 15, 30));
    IterStep(t, 44, Timers(26, 23, 18, 33, 23, 51, 36, 30, 21));
    IterStep(t, 45, Timers(23, 18, 33, 23, 51, 36, 56, 21, 26));
    IterStep(t, 46, Timers(18, 33, 23, 51, 36, 56, 44, 26, 23));
    IterStep(t, 47, Timers(33, 23, 51, 36, 56, 44, 44, 23, 18));
  }

  /** Days 48 to 64 of the example. */
  lemma Days48(t: Timers)
    requires Iterate(t, 48) == Timers(23, 51, 36, 56, 44, 44, 56, 18, 33)
    ensures Iterate(t, 64) == Timers(100, 191, 139, 207, 180, 185, 240, 85, 140)
  {
    IterStep(t, 48, Timers(23, 51, 36, 56, 44, 44, 56, 18, 33));
    IterStep(t, 49, Timers(51, 36, 56, 44, 44, 56, 41, 33, 23));
    IterStep(t, 50, Timers(36, 56, 44, 44, 56, 41, 84, 23, 51));
    IterStep(t, 51, Timers(56, 44, 44, 56, 41, 84, 59, 51, 36));
    IterStep(t, 52, Timers(44, 44, 56, 41, 84, 59, 107, 36, 56));
    IterStep(t, 53, Timers(44, 56, 41, 84, 59, 107, 80, 56, 44));
    IterStep(t, 54, Timers(56, 41, 84, 59, 107, 80, 100, 44, 44));
    IterStep(t, 55, Timers(41, 84, 59, 107, 80, 100, 100, 44, 56));
    IterStep(t, 56, Timers(84, 59, 107, 80, 100, 100, 85, 56, 41));
    IterStep(t, 57, Timers(59, 107, 80, 100, 100, 85, 140, 41, 84));
    IterStep(t, 58, Timers(107, 80, 100, 100, 85, 140, 100, 84, 59));
    IterStep(t, 59, Timers(80, 100, 100, 85, 140, 100, 191, 59, 107));
    IterStep(t, 60, Timers(100, 100, 85, 140, 100, 191, 139, 107, 80));
    IterStep(t, 61, Timers(100, 85, 140, 100, 191, 139, 207, 80, 100));
    IterStep(t, 62, Timers(85, 140, 100, 191, 139, 207, 180, 100, 100));
    IterStep(t, 63, Timers(140, 100, 191, 139, 207, 180, 185, 100, 85));
  }

  /** Days 64 to 80 of the example. */
  lemma Days64(t: Timers)
    requires Iterate(t, 64) == Timers(100, 191, 139, 207, 180, 185, 240, 85, 140)
    ensures Iterate(t, 80) == Timers(424, 729, 558, 790, 739, 762, 991, 370, 571)
  {
    IterStep(t, 64, Timers(100, 191, 139, 207, 180, 185, 240, 85, 140));
    IterStep(t, 65, Timers(191, 139, 207, 180, 185, 240, 185, 140, 100));
    IterStep(t, 66, Timers(139, 207, 180, 185, 240, 185, 331, 100, 191));
    IterStep(t, 67, Timers(207, 180, 185, 240, 185, 331, 239, 191, 139));
    IterStep(t, 68, Timers(180, 185, 240, 185, 331, 239, 398, 139, 207));
    IterStep(t, 69, Timers(185, 240, 185, 331, 239, 398, 319, 207, 180));
    IterStep(t, 70, Timers(240, 185, 331, 239, 398, 319, 392, 180, 185));
    IterStep(t, 71, Timers(185, 331, 239, 398, 319, 392, 420, 185, 240));
    IterStep(t, 72, Timers(331, 239, 398, 319, 392, 420, 370, 240, 185));
    IterStep(t, 73, Timers(239, 398, 319, 392, 420, 370, 571, 185, 331));
    IterStep(t, 74, Timers(398, 319, 392, 420, 370, 571, 424, 331, 239));
    IterStep(t, 75, Timers(319, 392, 420, 370, 571, 424, 729, 239, 398));
    IterStep(t, 76, Timers(392, 420, 370, 571, 424, 729, 558, 398, 319));
    IterStep(t, 77, Timers(420, 370, 571, 424, 729, 558, 790, 319, 392));
    IterStep(t, 78, Timers(370, 571, 424, 729, 558, 790, 739, 392, 420));
    IterStep(t, 79, Timers(571, 424, 729, 558, 790, 739, 762, 420, 370));
  }

  /** Days 80 to 96 of the example. */
  lemma Days80(t: Timers)
    requires Iterate(t, 80) == Timers(424, 729, 558, 790, 739, 762, 991, 370, 571)
    ensures Iterate(t, 96) == Timers(1776, 2819, 2279, 3071, 3027, 3108, 4021, 1556, 2291)
  {
    IterStep(t, 80, Timers(424, 729, 558, 790, 739, 762, 991, 370, 571));
    IterStep(t, 81, Timers(729, 558, 790, 739, 762, 991, 794, 571, 424));
    IterStep(t, 82, Timers(558, 790, 739, 762, 991, 794, 1300, 424, 729));
    IterStep(t, 83, Timers(790, 739, 762, 991, 794, 1300, 982, 729, 558));
    IterStep(t, 84, Timers(739, 762, 991, 794, 1300, 982, 1519, 558, 790));
    IterStep(t, 85, Timers(762, 991, 794, 1300, 982, 1519, 1297, 790, 739));
    IterStep(t, 86, Timers(991, 794, 1300, 982, 1519, 1297, 1552, 739, 762));
    IterStep(t, 87, Timers(794, 1300, 982, 1519, 1297, 1552, 1730, 762, 991));
    IterStep(t, 88, Timers(1300, 982, 1519, 1297, 1552, 1730, 1556, 991, 794));
    IterStep(t, 89, Timers(982, 1519, 1297, 1552, 1730, 1556, 2291, 794, 1300));
    IterStep(t, 90, Timers(1519, 1297, 1552, 1730, 1556, 2291, 1776, 1300, 982));
    IterStep(t, 91, Timers(1297, 1552, 1730, 1556, 2291, 1776, 2819, 982, 1519));
    IterStep(t, 92, Timers(1552, 1730, 1556, 2291, 1776, 2819, 2279, 1519, 1297));
    IterStep(t, 93, Timers(1730, 1556, 2291, 1776, 2819, 2279, 3071, 1297, 1552));
    IterStep(t, 94, Timers(1556, 2291, 1776, 2819, 2279, 3071, 3027, 1552, 1730));
    IterStep(t, 95, Timers(2291, 1776, 2819, 2279, 3071, 3027, 3108, 1730, 1556));
  }

  /** Days 96 to 112 of the example. */
  lemma Days96(t: Timers)
    requires Iterate(t, 96) == Timers(1776, 2819, 2279, 3071, 3027, 3108, 4021, 1556, 2291)
    ensures Iterate(t, 112) == Timers(7387, 11000, 9361, 12069, 12354, 12619, 16179, 6440, 9131)
  {
    IterStep(t, 96, Timers(1776, 2819, 2279, 3071, 3027, 3108, 4021, 1556, 2291));
    IterStep(t, 97, Timers(2819, 2279, 3071, 3027, 3108, 4021, 3332, 2291, 1776));
    IterStep(t, 98, Timers(2279, 3071, 3027, 3108, 4021, 3332, 5110, 1776, 2819));
    IterStep(t, 99, Timers(3071, 3027, 3108, 4021, 3332, 5110, 4055, 2819, 2279));
    IterStep(t, 100, Timers(3027, 3108, 4021, 3332, 5110, 4055, 5890, 2279, 3071));
    IterStep(t, 101, Timers(3108, 4021, 3332, 5110, 4055, 5890, 5306, 3071, 3027));
    IterStep(t, 102, Timers(4021, 3332, 5110, 4055, 5890, 5306, 6179, 3027, 3108));
    IterStep(t, 103, Timers(3332, 5110, 4055, 5890, 5306, 6179, 7048, 3108, 4021));
    IterStep(t, 104, Timers(5110, 4055, 5890, 5306, 6179, 7048, 6440, 4021, 3332));
    IterStep(t, 105, Timers(4055, 5890, 5306, 6179, 7048, 6440, 9131, 3332, 5110));
    IterStep(t, 106, Timers(5890, 5306, 6179, 7048, 6440, 9131, 7387, 5110, 4055));
    IterStep(t, 107, Timers(5306, 6179, 7048, 6440, 9131, 7387, 11000, 4055, 5890));
    IterStep(t, 108, Timers(6179, 7048, 6440, 9131, 7387, 11000, 9361, 5890, 5306));
    IterStep(t, 109, Timers(7048, 6440, 9131, 7387, 11000, 9361, 12069, 5306, 6179));
    IterStep(t, 110, Timers(6440, 9131, 7387, 11000, 9361, 12069, 12354, 6179, 7048));
    IterStep(t, 111, Timers(9131, 7387, 11000, 9361, 12069, 12354, 12619, 7048, 6440));
  }

  /** Days 112 to 128 of the example. */
  lemma Days112(t: Timers)
    requires Iterate(t, 112) == Timers(7387, 11000, 9361, 12069, 12354, 12619, 16179, 6440, 9131)
    ensures Iterate(t, 128) == Timers(30575, 43200, 38463, 47757, 50248, 51134, 64843, 26446, 36310)
  {
    IterStep(t, 112, Timers(7387, 11000, 9361, 12069, 12354, 12619, 16179, 6440, 9131));
    IterStep(t, 113, Timers(11000, 9361, 12069, 12354, 12619, 16179, 13827, 9131, 7387));
    IterStep(t, 114, Timers(9361, 12069, 12354, 12619, 16179, 13827, 20131, 7387, 11000));
    IterStep(t, 115, Timers(12069, 12354, 12619, 16179, 13827, 20131, 16748, 11000, 9361));
    IterStep(t, 116, Timers(12354, 12619, 16179, 13827, 20131, 16748, 23069, 9361, 12069));
    IterStep(t, 117, Timers(12619, 16179, 13827, 20131, 16748, 23069, 21715, 12069, 12354));
    IterStep(t, 118, Timers(16179, 13827, 20131, 16748, 23069, 21715, 24688, 12354, 12619));
    IterStep(t, 119, Timers(13827, 20131, 16748, 23069, 21715, 24688, 28533, 12619, 16179));
    IterStep(t, 120, Timers(20131, 16748, 23069, 21715, 24688, 28533, 26446, 16179, 13827));
    IterStep(t, 121, Timers(16748, 23069, 21715, 24688, 28533, 26446, 36310, 13827, 20131));
    IterStep(t, 122, Timers(23069, 21715, 24688, 28533, 26446, 36310, 30575, 20131, 16748));
    IterStep(t, 123, Timers(21715, 24688, 28533, 26446, 36310, 30575, 43200, 16748, 23069));
    IterStep(t, 124, Timers(24688, 28533, 26446, 36310, 30575, 43200, 38463, 23069, 21715));
    IterStep(t, 125, Timers(28533, 26446, 36310, 30575, 43200, 38463, 47757, 21715, 24688));
    IterStep(t, 126, Timers(26446, 36310, 30575, 43200, 38463, 47757, 50248, 24688, 28533));
    IterStep(t, 127, Timers(36310, 30575, 43200, 38463, 47757, 50248, 51134, 28533, 26446));
  }

  /** Days 128 to 144 of the example. */
  lemma Days128(t: Timers)
    requires Iterate(t, 128) == Timers(30575, 43200, 38463, 47757, 50248, 51134, 64843, 26446, 36310)
    ensures Iterate(t, 144) == Timers(126059, 170467, 157749, 189848, 203802, 207046, 259444, 108155, 144353)
  {
    IterStep(t, 128, Timers(30575, 43200, 38463, 47757, 50248, 51134, 64843, 26446, 36310));
    IterStep(t, 129, Timers(43200, 38463, 47757, 50248, 51134, 64843, 57021, 36310, 30575));
    IterStep(t, 130, Timers(38463, 47757, 50248, 51134, 64843, 57021, 79510, 30575, 43200));
    IterStep(t, 131, Timers(47757, 50248, 51134, 64843, 57021, 79510, 69038, 43200, 38463));
    IterStep(t, 132, Timers(50248, 51134, 64843, 57021, 79510, 69038, 90957, 38463, 47757));
    IterStep(t, 133, Timers(51134, 64843, 57021, 79510, 69038, 90957, 88711, 47757, 50248));
    IterStep(t, 134, Timers(64843, 57021, 79510, 69038, 90957, 88711, 98891, 50248, 51134));
    IterStep(t, 135, Timers(57021, 79510, 69038, 90957, 88711, 98891, 115091, 51134, 64843));
    IterStep(t, 136, Timers(79510, 69038, 90957, 88711, 98891, 115091, 108155, 64843, 57021));
    IterStep(t, 137, Timers(69038, 90957, 88711, 98891, 115091, 108155, 144353, 57021, 79510));
    IterStep(t, 138, Timers(90957, 88711, 98891, 115091, 108155, 144353, 126059, 79510, 69038));
    IterStep(t, 139, Timers(88711, 98891, 115091, 108155, 144353, 126059, 170467, 69038, 90957));
    IterStep(t, 140, Timers(98891, 115091, 108155, 144353, 126059, 170467, 157749, 90957, 88711));
    IterStep(t, 141, Timers(115091, 108155, 144353, 126059, 170467, 157749, 189848, 88711, 98891));
    IterStep(t, 142, Timers(108155, 144353, 126059, 170467, 157749, 189848, 203802, 98891, 115091));
    IterStep(t, 143, Timers(144353, 126059, 170467, 157749, 189848, 203802, 207046, 115091, 108155));
  }

  /** Days 144 to 160 of the example. */
  lemma Days144(t: Timers)
    requires Iterate(t, 144) == Timers(126059, 170467, 157749, 189848, 203802, 207046, 259444, 108155, 144353)
    ensures Iterate(t, 160) == Timers(518022, 675135, 645359, 757209, 824797, 838154, 1037510, 441260, 574264)
  {
    IterStep(t, 144, Timers(126059, 170467, 157749, 189848, 203802, 207046, 259444, 108155, 144353));
    IterStep(t, 145, Timers(170467, 157749, 189848, 203802, 207046, 259444, 234214, 144353, 126059));
    IterStep(t, 146, Timers(157749, 189848, 203802, 207046, 259444, 234214, 314820, 126059, 170467));
    IterStep(t, 147, Timers(189848, 203802, 207046, 259444, 234214, 314820, 283808, 170467, 157749));
    IterStep(t, 148, Timers(203802, 207046, 259444, 234214, 314820, 283808, 360315, 157749, 189848));
    IterStep(t, 149, Timers(207046, 259444, 234214, 314820, 283808, 360315, 361551, 189848, 203802));
    IterStep(t, 150, Timers(259444, 234214, 314820, 283808, 360315, 361551, 396894, 203802, 207046));
    IterStep(t, 151, Timers(234214, 314820, 283808, 360315, 361551, 396894, 463246, 207046, 259444));
    IterStep(t, 152, Timers(314820, 283808, 360315, 361551, 396894, 463246, 441260, 259444, 234214));
    IterStep(t, 153, Timers(283808, 360315, 361551, 396894, 463246, 441260, 574264, 234214, 314820));
    IterStep(t, 154, Timers(360315, 361551, 396894, 463246, 441260, 574264, 518022, 314820, 283808));
    IterStep(t, 155, Timers(361551, 396894, 463246, 441260, 574264, 518022, 675135, 283808, 360315));
    IterStep(t, 156, Timers(396894, 463246, 441260, 574264, 518022, 675135, 645359, 360315, 361551));
    IterStep(t, 157, Timers(463246, 441260, 574264, 518022, 675135, 645359, 757209, 361551, 396894));
    IterStep(t, 158, Timers(441260, 574264, 518022, 675135, 645359, 757209, 824797, 396894, 463246));
    IterStep(t, 159, Timers(574264, 518022, 675135, 645359, 757209, 824797, 838154, 463246, 441260));
  }

  /** Days 160 to 176 of the example. */
  lemma Days160(t: Timers)
    requires Iterate(t, 160) == Timers(518022, 675135, 645359, 757209, 824797, 838154, 1037510, 441260, 574264)
    ensures Iterate(t, 176) == Timers(2122663, 2681743, 2633537, 3027707, 3332463, 3392799, 4149216, 1797436, 2286909)
  {
    IterStep(t, 160, Timers(518022, 675135, 645359, 757209, 824797, 838154, 1037510, 441260, 574264));
    IterStep(t, 161, Timers(675135, 645359, 757209, 824797, 838154, 1037510, 959282, 574264, 518022));
    IterStep(t, 162, Timers(645359, 757209, 824797, 838154, 1037510, 959282, 1249399, 518022, 675135));
    IterStep(t, 163, Timers(757209, 824797, 838154, 1037510, 959282, 1249399, 1163381, 675135, 645359));
    IterStep(t, 164, Timers(824797, 838154, 1037510, 959282, 1249399, 1163381, 1432344, 645359, 757209));
    IterStep(t, 165, Timers(838154, 1037510, 959282, 1249399, 1163381, 1432344, 1470156, 757209, 824797));
    IterStep(t, 166, Timers(1037510, 959282, 1249399, 1163381, 1432344, 1470156, 1595363, 824797, 838154));
    IterStep(t, 167, Timers(959282, 1249399, 1163381, 1432344, 1470156, 1595363, 1862307, 838154, 1037510));
    IterStep(t, 168, Timers(1249399, 1163381, 1432344, 1470156, 1595363, 1862307, 1797436, 1037510, 959282));
    IterStep(t, 169, Timers(1163381, 1432344, 1470156, 1595363, 1862307, 1797436, 2286909, 959282, 1249399));
    IterStep(t, 170, Timers(1432344, 1470156, 1595363, 1862307, 1797436, 2286909, 2122663, 1249399, 1163381));
    IterStep(t, 171, Timers(1470156, 1595363, 1862307, 1797436, 2286909, 2122663, 2681743, 1163381, 1432344));
    IterStep(t, 172, Timers(1595363, 1862307, 1797436, 2286909, 2122663, 2681743, 2633537, 1432344, 1470156));
    IterStep(t, 173, Timers(1862307, 1797436, 2286909, 2122663, 2681743, 2633537, 3027707, 1470156, 1595363));
    IterStep(t, 174, Timers(1797436, 2286909, 2122663, 2681743, 2633537, 3027707, 3332463, 1595363, 1862307));
    IterStep(t, 175, Timers(2286909, 2122663, 2681743, 2633537, 3027707, 3332463, 3392799, 1862307, 1797436));
  }

  /** Days 176 to 192 of the example. */
  lemma Days176(t: Timers)
    requires Iterate(t, 176) == Timers(2122663, 2681743, 2633537, 3027707, 3332463, 3392799, 4149216, 1797436, 2286909)
    ensures Iterate(t, 192) == Timers(8676299, 10678102, 10722200, 12129956, 13447679, 13733404, 16599547, 7312898, 9117868)
  {
    IterStep(t, 176, Timers(2122663, 2681743, 2633537, 3027707, 3332463, 3392799, 4149216, 1797436, 2286909));
    IterStep(t, 177, Timers(2681743, 2633537, 3027707, 3332463, 3392799, 4149216, 3920099, 2286909, 2122663));
    IterStep(t, 178, Timers(2633537, 3027707, 3332463, 3392799, 4149216, 3920099, 4968652, 2122663, 2681743));
    IterStep(t, 179, Timers(3027707, 3332463, 3392799, 4149216, 3920099, 4968652, 4756200, 2681743, 2633537));
    IterStep(t, 180, Timers(3332463, 3392799, 4149216, 3920099, 4968652, 4756200, 5709450, 2633537, 3027707));
    IterStep(t, 181, Timers(3392799, 4149216, 3920099, 4968652, 4756200, 5709450, 5966000, 3027707, 3332463));
    IterStep(t, 182, Timers(4149216, 3920099, 4968652, 4756200, 5709450, 5966000, 6420506, 3332463, 3392799));
    IterStep(t, 183, Timers(3920099, 4968652, 4756200, 5709450, 5966000, 6420506, 7481679, 3392799, 4149216));
    IterStep(t, 184, Timers(4968652, 4756200, 5709450, 5966000, 6420506, 7481679, 7312898, 4149216, 3920099));
    IterStep(t, 185, Timers(4756200, 5709450, 5966000, 6420506, 7481679, 7312898, 9117868, 3920099, 4968652));
    IterStep(t, 186, Timers(5709450, 5966000, 6420506, 7481679, 7312898, 9117868, 8676299, 4968652, 4756200));
    IterStep(t, 187, Timers(5966000, 6420506, 7481679, 7312898, 9117868, 8676299, 10678102, 4756200, 5709450));
    IterStep(t, 188, Timers(6420506, 7481679, 7312898, 9117868, 8676299, 10678102, 10722200, 5709450, 5966000));
    IterStep(t, 189, Timers(7481679, 7312898, 9117868, 8676299, 10678102, 10722200, 12129956, 5966000, 6420506));
    IterStep(t, 190, Timers(7312898, 9117868, 8676299, 10678102, 10722200, 12129956, 13447679, 6420506, 7481679));
    IterStep(t, 191, Timers(9117868, 8676299, 10678102, 10722200, 12129956, 13447679, 13733404, 7481679, 7312898));
  }

  /** Days 192 to 208 of the example. */
  lemma Days192(t: Timers)
    requires Iterate(t, 192) == Timers(8676299, 10678102, 10722200, 12129956, 13447679, 13733404, 16599547, 7312898, 9117868)
    ensures Iterate(t, 208) == Timers(35387696, 42604028, 43568378, 48671418, 54217105, 55585961, 66442743, 29722601, 36395517)
  {
    IterStep(t, 192, Timers(8676299, 10678102, 10722200, 12129956, 13447679, 13733404, 16599547, 7312898, 9117868));
    IterStep(t, 193, Timers(10678102, 10722200, 12129956, 13447679, 13733404, 16599547, 15989197, 9117868, 8676299));
    IterStep(t, 194, Timers(10722200, 12129956, 13447679, 13733404, 16599547, 15989197, 19795970, 8676299, 10678102));
    IterStep(t, 195, Timers(12129956, 13447679, 13733404, 16599547, 15989197, 19795970, 19398499, 10678102, 10722200));
    IterStep(t, 196, Timers(13447679, 13733404, 16599547, 15989197, 19795970, 19398499, 22808058, 10722200, 12129956));
    IterStep(t, 197, Timers(13733404, 16599547, 15989197, 19795970, 19398499, 22808058, 24169879, 12129956, 13447679));
    IterStep(t, 198, Timers(16599547, 15989197, 19795970, 19398499, 22808058, 24169879, 25863360, 13447679, 13733404));
    IterStep(t, 199, Timers(15989197, 19795970, 19398499, 22808058, 24169879, 25863360, 30047226, 13733404, 16599547));
    IterStep(t, 200, Timers(19795970, 19398499, 22808058, 24169879, 25863360, 30047226, 29722601, 16599547, 15989197));
    IterStep(t, 201, Timers(19398499, 22808058, 24169879, 25863360, 30047226, 29722601, 36395517, 15989197, 19795970));
    IterStep(t, 202, Timers(22808058, 24169879, 25863360, 30047226, 29722601, 36395517, 35387696, 19795970, 19398499));
    IterStep(t, 203, Timers(24169879, 25863360, 30047226, 29722601, 36395517, 35387696, 42604028, 19398499, 22808058));
    IterStep(t, 204, Timers(25863360, 30047226, 29722601, 36395517, 35387696, 42604028, 43568378, 22808058, 24169879));
    IterStep(t, 205, Timers(30047226, 29722601, 36395517, 35387696, 42604028, 43568378, 48671418, 24169879, 25863360));
    IterStep(t, 206, Timers(29722601, 36395517, 35387696, 42604028, 43568378, 48671418, 54217105, 25863360, 30047226));
    IterStep(t, 207, Timers(36395517, 35387696, 42604028, 43568378, 48671418, 54217105, 55585961, 30047226, 29722601));
  }

  /** Days 208 to 224 of the example. */
  lemma Days208(t: Timers)
    requires Iterate(t, 208) == Timers(35387696, 42604028, 43568378, 48671418, 54217105, 55585961, 66442743, 29722601, 36395517)
    ensures Iterate(t, 224) == Timers(144066371, 170274991, 176741557, 195532825, 218445331, 224953637, 266102136, 120696258, 145442288)
  {
    IterStep(t, 208, Timers(35387696, 42604028, 43568378, 48671418, 54217105, 55585961, 66442743, 29722601, 36395517));
    IterStep(t, 209, Timers(42604028, 43568378, 48671418, 54217105, 55585961, 66442743, 65110297, 36395517, 35387696));
    IterStep(t, 210, Timers(43568378, 48671418, 54217105, 55585961, 66442743, 65110297, 78999545, 35387696, 42604028));
    IterStep(t, 211, Timers(48671418, 54217105, 55585961, 66442743, 65110297, 78999545, 78956074, 42604028, 43568378));
    IterStep(t, 212, Timers(54217105, 55585961, 66442743, 65110297, 78999545, 78956074, 91275446, 43568378, 48671418));
    IterStep(t, 213, Timers(55585961, 66442743, 65110297, 78999545, 78956074, 91275446, 97785483, 48671418, 54217105));
    IterStep(t, 214, Timers(66442743, 65110297, 78999545, 78956074, 91275446, 97785483, 104257379, 54217105, 55585961));
    IterStep(t, 215, Timers(65110297, 78999545, 78956074, 91275446, 97785483, 104257379, 120659848, 55585961, 66442743));
    IterStep(t, 216, Timers(78999545, 78956074, 91275446, 97785483, 104257379, 120659848, 120696258, 66442743, 65110297));
    IterStep(t, 217, Timers(78956074, 91275446, 97785483, 104257379, 120659848, 120696258, 145442288, 65110297, 78999545));
    IterStep(t, 218, Timers(91275446, 97785483, 104257379, 120659848, 120696258, 145442288, 144066371, 78999545, 78956074));
    IterStep(t, 219, Timers(97785483, 104257379, 120659848, 120696258, 145442288, 144066371, 170274991, 78956074, 91275446));
    IterStep(t, 220, Timers(104257379, 120659848, 120696258, 145442288, 144066371, 170274991, 176741557, 91275446, 97785483));
    IterStep(t, 221, Timers(120659848, 120696258, 145442288, 144066371, 170274991, 176741557, 195532825, 97785483, 104257379));
    IterStep(t, 222, Timers(120696258, 145442288, 144066371, 170274991, 176741557, 195532825, 218445331, 104257379, 120659848));
    IterStep(t, 223, Timers(145442288, 144066371, 170274991, 176741557, 195532825, 218445331, 224953637, 120659848, 120696258));
  }

  /** Days 224 to 240 of the example. */
  lemma Days224(t: Timers)
    requires Iterate(t, 224) == Timers(144066371, 170274991, 176741557, 195532825, 218445331, 224953637, 266102136, 120696258, 145442288)
    ensures Iterate(t, 240) == Timers(585570557, 681525095, 715994816, 786294278, 879734355, 910202728, 1066366882, 489716266, 581819415)
  {
    IterStep(t, 224, Timers(144066371, 170274991, 176741557, 195532825, 218445331, 224953637, 266102136, 120696258, 145442288));
    IterStep(t, 225, Timers(170274991, 176741557, 195532825, 218445331, 224953637, 266102136, 264762629, 145442288, 144066371));
    IterStep(t, 226, Timers(176741557, 195532825, 218445331, 224953637, 266102136, 264762629, 315717279, 144066371, 170274991));
    IterStep(t, 227, Timers(195532825, 218445331, 224953637, 266102136, 264762629, 315717279, 320807928, 170274991, 176741557));
    IterStep(t, 228, Timers(218445331, 224953637, 266102136, 264762629, 315717279, 320807928, 365807816, 176741557, 195532825));
    IterStep(t, 229, Timers(224953637, 266102136, 264762629, 315717279, 320807928, 365807816, 395186888, 195532825, 218445331));
    IterStep(t, 230, Timers(266102136, 264762629, 315717279, 320807928, 365807816, 395186888, 420486462, 218445331, 224953637));
    IterStep(t, 231, Timers(264762629, 315717279, 320807928, 365807816, 395186888, 420486462, 484547467, 224953637, 266102136));
    IterStep(t, 232, Timers(315717279, 320807928, 365807816, 395186888, 420486462, 484547467, 489716266, 266102136, 264762629));
    IterStep(t, 233, Timers(320807928, 365807816, 395186888, 420486462, 484547467, 489716266, 581819415, 264762629, 315717279));
    IterStep(t, 234, Timers(365807816, 395186888, 420486462, 484547467, 489716266, 581819415, 585570557, 315717279, 320807928));
    IterStep(t, 235, Timers(395186888, 420486462, 484547467, 489716266, 581819415, 585570557, 681525095, 320807928, 365807816));
    IterStep(t, 236, Timers(420486462, 484547467, 489716266, 581819415, 585570557, 681525095, 715994816, 365807816, 395186888));
    IterStep(t, 237, Timers(484547467, 489716266, 581819415, 585570557, 681525095, 715994816, 786294278, 395186888, 420486462));
    IterStep(t, 238, Timers(489716266, 581819415, 585570557, 681525095, 715994816, 786294278, 879734355, 420486462, 484547467));
    IterStep(t, 239, Timers(581819415, 585570557, 681525095, 715994816, 786294278, 879734355, 910202728, 484547467, 489716266));
  }

  /** Days 240 to 256 of the example. */
  lemma Days240(t: Timers)
    requires Iterate(t, 240) == Timers(585570557, 681525095, 715994816, 786294278, 879734355, 910202728, 1066366882, 489716266, 581819415)
    ensures Iterate(t, 256) == Timers(2376852196, 2731163883, 2897294544, 3164316379, 3541830408, 3681986557, 4275812629, 1985489551, 2329711392)
  {
    IterStep(t, 240, Timers(585570557, 681525095, 715994816, 786294278, 879734355, 910202728, 1066366882, 489716266, 581819415));
    IterStep(t, 241, Timers(681525095, 715994816, 786294278, 879734355, 910202728, 1066366882, 1075286823, 581819415, 585570557));
    IterStep(t, 242, Timers(715994816, 786294278, 879734355, 910202728, 1066366882, 1075286823, 1263344510, 585570557, 681525095));
    IterStep(t, 243, Timers(786294278, 879734355, 910202728, 1066366882, 1075286823, 1263344510, 1301565373, 681525095, 715994816));
    IterStep(t, 244, Timers(879734355, 910202728, 1066366882, 1075286823, 1263344510, 1301565373, 1467819373, 715994816, 786294278));
    IterStep(t, 245, Timers(910202728, 1066366882, 1075286823, 1263344510, 1301565373, 1467819373, 1595729171, 786294278, 879734355));
    IterStep(t, 246, Timers(1066366882, 1075286823, 1263344510, 1301565373, 1467819373, 1595729171, 1696497006, 879734355, 910202728));
    IterStep(t, 247, Timers(1075286823, 1263344510, 1301565373, 1467819373, 1595729171, 1696497006, 1946101237, 910202728, 1066366882));
    IterStep(t, 248, Timers(1263344510, 1301565373, 1467819373, 1595729171, 1696497006, 1946101237, 1985489551, 1066366882, 1075286823));
    IterStep(t, 249, Timers(1301565373, 1467819373, 1595729171, 1696497006, 1946101237, 1985489551, 2329711392, 1075286823, 1263344510));
    IterStep(t, 250, Timers(1467819373, 1595729171, 1696497006, 1946101237, 1985489551, 2329711392, 2376852196, 1263344510, 1301565373));
    IterStep(t, 251, Timers(1595729171, 1696497006, 1946101237, 1985489551, 2329711392, 2376852196, 2731163883, 1301565373, 1467819373));
    IterStep(t, 252, Timers(1696497006, 1946101237, 1985489551, 2329711392, 2376852196, 2731163883, 2897294544, 1467819373, 1595729171));
    IterStep(t, 253, Timers(1946101237, 1985489551, 2329711392, 2376852196, 2731163883, 2897294544, 3164316379, 1595729171, 1696497006));
    IterStep(t, 254, Timers(1985489551, 2329711392, 2376852196, 2731163883, 2897294544, 3164316379, 3541830408, 1696497006, 1946101237));
    IterStep(t, 255, Timers(2329711392, 2376852196, 2731163883, 2897294544, 3164316379, 3541830408, 3681986557, 1946101237, 1985489551));
  }

  /** `Community::new` on the example's fish. */
  lemma ExampleHistogram(xs: seq<Age>)
    requires xs == [3, 4, 3, 1, 2]
    ensures Histogram(xs) == map[1 := 1, 2 := 1, 3 := 2, 4 := 1]
    ensures Young(Histogram(xs))
  {
    assert xs[..1][..0] == [] && xs[..2][..1] == xs[..1] && xs[..3][..2] == xs[..2];
    assert xs[..4][..3] == xs[..3] && xs[..5][..4] == xs[..4] && xs[..5] == xs;
    assert Histogram(xs[..1]) == map[3 := 1];
    assert Histogram(xs[..2]) == map[3 := 1, 4 := 1];
    assert Histogram(xs[..3]) == map[3 := 1, 4 := 1][3 := 2];
    assert Histogram(xs[..4]) == map[3 := 2, 4 := 1][1 := 1];
  }

  /** The first 64 days. */
  lemma Days0To64(t: Timers)
    requires Iterate(t, 0) == Timers(0, 1, 1, 2, 1, 0, 0, 0, 0)
    ensures Iterate(t, 64) == Timers(100, 191, 139, 207, 180, 185, 240, 85, 140)
  {
    Days0(t);
    Days16(t);
    Days32(t);
    Days48(t);
  }

  /** Days 64 to 128. */
  lemma Days64To128(t: Timers)
    requires Iterate(t, 64) == Timers(100, 191, 139, 207, 180, 185, 240, 85, 140)
    ensures Iterate(t, 128) == Timers(30575, 43200, 38463, 47757, 50248, 51134, 64843, 26446, 36310)
  {
    Days64(t);
    Days80(t);
    Days96(t);
    Days112(t);
  }

  /** Days 128 to 192. */
  lemma Days128To192(t: Timers)
    requires Iterate(t, 128) == Timers(30575, 43200, 38463, 47757, 50248, 51134, 64843, 26446, 36310)
    ensures Iterate(t, 192) == Timers(8676299, 10678102, 10722200, 12129956, 13447679, 13733404, 16599547, 7312898, 9117868)
  {
    Days128(t);
    Days144(t);
    Days160(t);
    Days176(t);
  }

  /** Days 192 to 256. */
  lemma Days192To256(t: Timers)
    requires Iterate(t, 192) == Timers(8676299, 10678102, 10722200, 12129956, 13447679, 13733404, 16599547, 7312898, 9117868)
    ensures Iterate(t, 256) == Timers(2376852196, 2731163883, 2897294544, 3164316379, 3541830408, 3681986557, 4275812629, 1985489551, 2329711392)
  {
    Days192(t);
    Days208(t);
    Days224(t);
    Days240(t);
  }

  /** The example's counts: one fish at timers 1, 2 and 4 and two at 3. */
  predicate ExampleStart(m: map<Age, nat>)
  {
    Get(m, 0) == 0 && Get(m, 1) == 1 && Get(m, 2) == 1 && Get(m, 3) == 2 && Get(m, 4) == 1
    && Get(m, 5) == 0 && Get(m, 6) == 0 && Get(m, 7) == 0 && Get(m, 8) == 0
  }

  /** 80 days from the example's counters leave 5934 fish. */
  lemma Example80(m: map<Age, nat>)
    requires ExampleStart(m)
    ensures Count(Iterate(ToTimers(m), 80)) == 5934
  {
    var t := ToTimers(m);
    Days0To64(t);
    Days64(t);
  }

  /** 256 days from the example's counters leave 26984457539 fish. */
  lemma Example256(m: map<Age, nat>)
    requires ExampleStart(m)
    ensures Count(Iterate(ToTimers(m), 256)) == 26984457539
  {
    var t := ToTimers(m);
    Days0To64(t);
    Days64To128(t);
    Days128To192(t);
    Days192To256(t);
  }

  /** A young community with the example's counts has 5934 fish after 80 days. */
  lemma ExampleTotal80(m: map<Age, nat>)
    requires Young(m) && ExampleStart(m)
    ensures Total(Simulate(m, 80)) == 5934
  {
    SimulateCount(m, 80);
    Example80(m);
  }

  /** The same community has 26984457539 fish after 256 days. */
  lemma ExampleTotal256(m: map<Age, nat>)
    requires Young(m) && ExampleStart(m)
    ensures Total(Simulate(m, 256)) == 26984457539
  {
    SimulateCount(m, 256);
    Example256(m);
  }

  /** The answers of both parts on the example: 5934 after 80 days and
      26984457539 after 256. */
  lemma ExampleAnswers(lines: seq<seq<Age>>)
    requires lines == [[3, 4, 3, 1, 2]]
    ensures Total(Simulate(Histogram(Flatten(lines)), 80)) == 5934
    ensures Total(Simulate(Histogram(Flatten(lines)), 256)) == 26984457539
  {
    var xs := Flatten(lines);
    assert xs == [3, 4, 3, 1, 2] by {
      assert Flatten(lines[1..]) == [];
      assert lines[0] + [] == lines[0];
    }
    ExampleHistogram(xs);
    ExampleTotal80(Histogram(xs));
    ExampleTotal256(Histogram(xs));
  }
}
