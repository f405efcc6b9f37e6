/** The rank tier shown on a profile, derived from a point total. */
module Ranks {

  datatype Rank = Bronze | Silver | Gold | Platinum

  /** Position of a tier in the order Bronze < Silver < Gold < Platinum. */
  function Tier(r: Rank): nat {
    match r
    case Bronze => 0
    case Silver => 1
    case Gold => 2
    case Platinum => 3
  }

  /**
   * Descending inclusive thresholds 300, 194 and 84, tried from the highest
   * down, so each tier covers exactly the band below the next threshold.
   */
  function RankOf(points: int): (r: Rank)
    ensures r == Platinum <==> points >= 300
    ensures r == Gold <==> 194 <= points < 300
    ensures r == Silver <==> 84 <= points < 194
    ensures r == Bronze <==> points < 84
  {
    if points >= 300 then Platinum
    else if points >= 194 then Gold
    else if points >= 84 then Silver
    else Bronze
  }

  /** More points never give a lower tier. */
  lemma RankMonotone(p: int, q: int)
    requires p <= q
    ensures Tier(RankOf(p)) <= Tier(RankOf(q))
  {
  }
}
