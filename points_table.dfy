/** The constant table of points per division and statistic kind. */
module PointsTable {
  import opened Wrappers
  import opened Domain

  /** Points one occurrence of kind k is worth in division d. */
  function Points(d: Division, k: Kind): (r: int)
    ensures 2 <= r <= 12
  {
    match d
    case Div1 =>
      (match k
       case Goal => 9 case Assist => 7 case DefenderCleansheet => 10
       case GoalkeeperCleansheet => 12 case Motm => 8 case Totw => 8)
    case Div2 =>
      (match k
       case Goal => 6 case Assist => 5 case DefenderCleansheet => 8
       case GoalkeeperCleansheet => 10 case Motm => 6 case Totw => 6)
    case Div3 =>
      (match k
       case Goal => 3 case Assist => 2 case DefenderCleansheet => 6
       case GoalkeeperCleansheet => 8 case Motm => 3 case Totw => 3)
  }

  /** For every kind, a higher division pays strictly more points. */
  lemma HigherDivisionPaysMore(k: Kind)
    ensures Points(Div1, k) > Points(Div2, k) > Points(Div3, k)
  {
  }

  /**
   * The guarded two-level lookup on stored strings: a value exists only when
   * the division string and the kind string are both keys of the table.
   */
  function LookupPoints(division: string, kind: string): (r: Option<int>)
    ensures r.Some? <==> DivisionOfName(division).Some? && KindOfName(kind).Some?
    ensures r.Some? ==> 2 <= r.value <= 12
  {
    match (DivisionOfName(division), KindOfName(kind))
    case (Some(d), Some(k)) => Some(Points(d, k))
    case _ => None
  }

  /** The table is total over the three divisions and six kinds. */
  lemma LookupPointsTotal(d: Division, k: Kind)
    ensures LookupPoints(DivisionName(d), KindName(k)) == Some(Points(d, k))
  {
  }
}
