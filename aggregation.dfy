/**
 * What the aggregates promise: points are the grouped (kind, division)
 * evaluation, order does not matter, and appending or deleting one row moves
 * each total by exactly that row's share.
 */
module Aggregation {
  import opened Wrappers
  import opened Domain
  import opened PointsTable
  import opened Ledger

  /** One (kind, division) group's points: its SUM(count) times the table value. */
  function GroupPoints(s: seq<Event>, u: UserId, d: Division, k: Kind): int {
    Points(d, k) * DivisionKindTotal(s, u, d, k)
  }

  /** Points earned in one division, group by group. */
  function DivisionPoints(s: seq<Event>, u: UserId, d: Division): int {
    GroupPoints(s, u, d, Goal) + GroupPoints(s, u, d, Assist)
    + GroupPoints(s, u, d, DefenderCleansheet) + GroupPoints(s, u, d, GoalkeeperCleansheet)
    + GroupPoints(s, u, d, Totw) + GroupPoints(s, u, d, Motm)
  }

  /**
   * Points evaluated the grouped way: SUM(count) per (kind, division) group,
   * times the table value, summed over the eighteen groups of the table.
   */
  function GroupedPoints(s: seq<Event>, u: UserId): (r: int)
    ensures (forall i :: 0 <= i < |s| ==> s[i].user != u) ==> r == 0
  {
    DivisionPoints(s, u, Div1) + DivisionPoints(s, u, Div2) + DivisionPoints(s, u, Div3)
  }

  /** A row counts towards group (d, k) exactly when its stored strings name d and k. */
  lemma GroupWeight(e: Event, u: UserId, d: Division, k: Kind)
    ensures Weight(DivisionKindCount(u, d, k), e) ==
              if e.user == u && DivisionOfName(e.division) == Some(d) && KindOfName(e.kind) == Some(k)
              then e.count else 0
  {
  }

  /** A single row's grouped points are its own points. */
  lemma GroupedPointsOfRow(e: Event, u: UserId)
    ensures GroupedPoints([e], u) == Weight(PointTotal(u), e)
  {
    forall d: Division, k: Kind
      ensures DivisionKindTotal([e], u, d, k) == Weight(DivisionKindCount(u, d, k), e)
    {
      SumAppend([], e, DivisionKindCount(u, d, k));
      assert [] + [e] == [e];
    }
    forall d: Division, k: Kind ensures Weight(DivisionKindCount(u, d, k), e) ==
        if e.user == u && DivisionOfName(e.division) == Some(d) && KindOfName(e.kind) == Some(k)
        then e.count else 0
    {
      GroupWeight(e, u, d, k);
    }
  }

  lemma GroupPointsAppend(s: seq<Event>, e: Event, u: UserId, d: Division, k: Kind)
    ensures GroupPoints(s + [e], u, d, k) == GroupPoints(s, u, d, k) + GroupPoints([e], u, d, k)
  {
    SumConcat(s, [e], DivisionKindCount(u, d, k));
    var p, x, y := Points(d, k), DivisionKindTotal(s, u, d, k), DivisionKindTotal([e], u, d, k);
    assert p * (x + y) == p * x + p * y;
  }

  /** Appending a row adds its grouped points to the grouped total. */
  lemma GroupedPointsAppend(s: seq<Event>, e: Event, u: UserId)
    ensures GroupedPoints(s + [e], u) == GroupedPoints(s, u) + GroupedPoints([e], u)
  {
    forall d: Division, k: Kind
      ensures GroupPoints(s + [e], u, d, k) == GroupPoints(s, u, d, k) + GroupPoints([e], u, d, k)
    {
      GroupPointsAppend(s, e, u, d, k);
    }
  }

  /**
   * The grouped evaluation of points and the row-by-row sum agree on every
   * ledger: grouping the rows by (kind, division) before multiplying changes nothing.
   */
  lemma {:induction false} GroupedPointsIsTotalPoints(s: seq<Event>, u: UserId)
    ensures GroupedPoints(s, u) == TotalPoints(s, u)
    decreases |s|
  {
    if s == [] {
    } else {
      var s', e := s[..|s| - 1], s[|s| - 1];
      assert s == s' + [e];
      GroupedPointsIsTotalPoints(s', u);
      GroupedPointsAppend(s', e, u);
      GroupedPointsOfRow(e, u);
    }
  }

  /**
   * One more row moves a player's per-kind totals and points by that row's
   * share: its count for its own recognised kind, its points, nothing else.
   */
  lemma AppendRowShare(s: seq<Event>, e: Event, u: UserId)
    ensures forall k :: KindTotal(s + [e], u, k) ==
              KindTotal(s, u, k) + if e.user == u && KindOfName(e.kind) == Some(k) then e.count else 0
    ensures TotalPoints(s + [e], u) == TotalPoints(s, u) + if e.user == u then EventPoints(e) else 0
  {
    forall k ensures KindTotal(s + [e], u, k) ==
              KindTotal(s, u, k) + if e.user == u && KindOfName(e.kind) == Some(k) then e.count else 0 {
      SumAppend(s, e, KindCount(u, k));
    }
    SumAppend(s, e, PointTotal(u));
  }

  /** Totals and points depend only on which rows are present, not on their order. */
  lemma OrderIndependent(a: seq<Event>, b: seq<Event>, u: UserId)
    requires multiset(a) == multiset(b)
    ensures TotalPoints(a, u) == TotalPoints(b, u)
    ensures forall k :: KindTotal(a, u, k) == KindTotal(b, u, k)
  {
    SumPermutation(a, b, PointTotal(u));
    forall k ensures KindTotal(a, u, k) == KindTotal(b, u, k) {
      SumPermutation(a, b, KindCount(u, k));
    }
  }

  /**
   * Recording count occurrences of kind k in division d for player u raises
   * u's total of k by count, leaves u's other kinds alone, raises u's points by
   * the table value times count, and leaves every other player untouched.
   */
  lemma RecordEffect(s: seq<Event>, u: UserId, gw: int, season: int, k: Kind, count: int, d: Division)
    ensures var s' := s + [Event(u, gw, season, KindName(k), count, DivisionName(d))];
      && KindTotal(s', u, k) == KindTotal(s, u, k) + count
      && (forall k' :: k' != k ==> KindTotal(s', u, k') == KindTotal(s, u, k'))
      && DivisionKindTotal(s', u, d, k) == DivisionKindTotal(s, u, d, k) + count
      && TotalPoints(s', u) == TotalPoints(s, u) + Points(d, k) * count
      && (forall v, k' :: v != u ==> KindTotal(s', v, k') == KindTotal(s, v, k'))
      && (forall v :: v != u ==> TotalPoints(s', v) == TotalPoints(s, v))
  {
  }

  /** A row whose division or kind is not in the table adds nothing to the points. */
  lemma UnrecognisedRowScoresNothing(s: seq<Event>, e: Event, u: UserId)
    requires DivisionOfName(e.division).None? || KindOfName(e.kind).None?
    ensures TotalPoints(s + [e], u) == TotalPoints(s, u)
    ensures KindOfName(e.kind).None? ==> forall k :: KindTotal(s + [e], u, k) == KindTotal(s, u, k)
  {
  }

  /** On a ledger of well-formed rows no total and no point sum is negative. */
  lemma TotalsNonNegative(s: seq<Event>, u: UserId)
    requires LedgerWellFormed(s)
    ensures TotalPoints(s, u) >= 0
    ensures forall k :: KindTotal(s, u, k) >= 0
  {
    forall i | 0 <= i < |s| ensures Weight(PointTotal(u), s[i]) >= 0 {
      var e := s[i];
      assert WellFormed(e);
      var p := LookupPoints(e.division, e.kind).value;
      assert p >= 2 && e.count > 0;
      assert EventPoints(e) == p * e.count;
    }
    SumNonNegative(s, PointTotal(u));
    forall k ensures KindTotal(s, u, k) >= 0 {
      SumNonNegative(s, KindCount(u, k));
    }
  }

  /** The COUNT(*) pre-check finds no row exactly when there is no row to delete. */
  lemma MatchCountZeroIffNoMatch(s: seq<Event>, key: Key)
    ensures MatchCount(s, key) >= 0
    ensures MatchCount(s, key) == 0 <==> FirstMatch(s, key).None?
  {
    SumNonNegative(s, MatchingRows(key));
    match FirstMatch(s, key)
    case None =>
      SumOfZeroWeights(s, MatchingRows(key));
    case Some(i) =>
      SumRemoveAt(s, i, MatchingRows(key));
      SumNonNegative(RemoveAt(s, i), MatchingRows(key));
  }

  /**
   * Deleting the first row that matches a key removes exactly one matching
   * row and keeps every other row.
   */
  lemma RemovalDeletesOneMatch(s: seq<Event>, key: Key)
    requires FirstMatch(s, key).Some?
    ensures var i := FirstMatch(s, key).value;
      && Matches(s[i], key)
      && multiset(RemoveAt(s, i)) + multiset{s[i]} == multiset(s)
      && MatchCount(RemoveAt(s, i), key) == MatchCount(s, key) - 1
  {
    var i := FirstMatch(s, key).value;
    MultisetRemoveAt(s, i);
    SumRemoveAt(s, i, MatchingRows(key));
  }

  /** Deleting a row lowers its player's points and per-kind totals by that row's share. */
  lemma RemovalLowersTotals(s: seq<Event>, i: nat)
    requires i < |s|
    ensures TotalPoints(RemoveAt(s, i), s[i].user) == TotalPoints(s, s[i].user) - EventPoints(s[i])
    ensures forall k :: KindOfName(s[i].kind) == Some(k) ==>
              KindTotal(RemoveAt(s, i), s[i].user, k) == KindTotal(s, s[i].user, k) - s[i].count
    ensures forall k :: KindOfName(s[i].kind) != Some(k) ==>
              KindTotal(RemoveAt(s, i), s[i].user, k) == KindTotal(s, s[i].user, k)
  {
    SumRemoveAt(s, i, PointTotal(s[i].user));
    forall k ensures KindTotal(RemoveAt(s, i), s[i].user, k) == KindTotal(s, s[i].user, k) - Weight(KindCount(s[i].user, k), s[i]) {
      SumRemoveAt(s, i, KindCount(s[i].user, k));
    }
  }
}
