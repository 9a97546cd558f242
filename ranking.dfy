/**
 Classification of a 300-point total: the rank ladder of judge_rank and the
 separate pass / border / fail banner shown after scoring.
 */
module Ranking {

  /** The ranks judge_rank can return, from best (S) to worst (D). */
  datatype Rank = S | A | B | C | D

  /** Position of a rank in the order S > A > B > C > D. */
  function Level(r: Rank): nat {
    match r
    case S => 4
    case A => 3
    case B => 2
    case C => 1
    case D => 0
  }

  /** r1 is no better than r2. */
  predicate AtMost(r1: Rank, r2: Rank) {
    Level(r1) <= Level(r2)
  }

  /** judge_rank: a descending threshold ladder over the total. */
  function JudgeRank(total: int): Rank {
    if total >= 270 then S
    else if total >= 240 then A
    else if total >= 210 then B
    else if total >= 180 then C
    else D
  }

  /** The breakpoints of the ladder, best rank first. */
  const Thresholds: seq<int> := [270, 240, 210, 180]

  /** How many of the breakpoints in ths the total reaches. */
  function Reached(total: int, ths: seq<int>): (n: nat)
    ensures n <= |ths|
  {
    if ths == [] then 0
    else (if total >= ths[0] then 1 else 0) + Reached(total, ths[1..])
  }

  /** The rank bands: S from 270, A for 240..269, B for 210..239, C for 180..209, D below 180. */
  lemma JudgeRankBands(total: int)
    ensures JudgeRank(total) == S <==> 270 <= total
    ensures JudgeRank(total) == A <==> 240 <= total < 270
    ensures JudgeRank(total) == B <==> 210 <= total < 240
    ensures JudgeRank(total) == C <==> 180 <= total < 210
    ensures JudgeRank(total) == D <==> total < 180
  {
  }

  /** The rank is determined by the number of breakpoints reached: each one reached lifts it by one. */
  lemma {:induction false} JudgeRankCountsThresholds(total: int)
    ensures Level(JudgeRank(total)) == Reached(total, Thresholds)
  {
    var one := if total >= 180 then 1 else 0;
    assert [180][1..] == [];
    assert Reached(total, [180]) == one;
    assert [210, 180][1..] == [180];
    assert Reached(total, [210, 180]) == (if total >= 210 then 1 else 0) + one;
    assert [240, 210, 180][1..] == [210, 180];
    assert Thresholds[1..] == [240, 210, 180];
  }

  /** Reaching breakpoints is monotone in the total, whatever the breakpoints are. */
  lemma {:induction false} ReachedMonotone(t1: int, t2: int, ths: seq<int>)
    requires t1 <= t2
    ensures Reached(t1, ths) <= Reached(t2, ths)
  {
    if ths != [] {
      ReachedMonotone(t1, t2, ths[1..]);
    }
  }

  /** judge_rank is monotone: a larger total never gets a worse rank. */
  lemma JudgeRankMonotone(t1: int, t2: int)
    requires t1 <= t2
    ensures AtMost(JudgeRank(t1), JudgeRank(t2))
  {
  }

  /** The three banners shown below the score. */
  datatype Banner = Pass | Border | Fail

  /** The banner ladder of the button handler, with its own breakpoints 210 and 180. */
  function BannerFor(total: int): Banner {
    if total >= 210 then Pass
    else if total >= 180 then Border
    else Fail
  }

  /** Position of a banner in the order pass > border > fail. */
  function BannerLevel(b: Banner): nat {
    match b
    case Pass => 2
    case Border => 1
    case Fail => 0
  }

  /** The banner is determined by the number of its breakpoints 210 and 180 the total reaches. */
  lemma BannerCountsThresholds(total: int)
    ensures BannerLevel(BannerFor(total)) == Reached(total, [210, 180])
  {
  }

  /** The banner agrees with the rank: pass for S, A and B, border for C, fail for D. */
  lemma BannerAgreesWithRank(total: int)
    ensures BannerFor(total) == Pass <==> JudgeRank(total) in {S, A, B}
    ensures BannerFor(total) == Border <==> JudgeRank(total) == C
    ensures BannerFor(total) == Fail <==> JudgeRank(total) == D
    ensures BannerFor(total) == Pass <==> total >= 210
  {
  }
}
