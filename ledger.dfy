/**
 * The stat ledger (the per-gameweek stat table) and the aggregates computed
 * from it. Every total is a fresh sum over the rows; nothing is cached.
 */
module Ledger {
  import opened Wrappers
  import opened Domain
  import opened PointsTable

  /** A player's platform user id. */
  type UserId = int

  /**
   * One row of the stat table. The kind and the division are the strings
   * stored in the table, so rows written by other means are representable.
   */
  datatype Event = Event(user: UserId, gw: int, season: int, kind: string, count: int, division: string)

  /** The columns a removal matches on. */
  datatype Key = Key(user: UserId, gw: int, season: int, kind: string, division: string)

  predicate Matches(e: Event, key: Key) {
    e.user == key.user && e.gw == key.gw && e.season == key.season &&
    e.kind == key.kind && e.division == key.division
  }

  /** A row whose every field lies in its domain, as /addstat only ever writes. */
  predicate WellFormed(e: Event) {
    GwInRange(e.gw) && SeasonValid(e.season) && KindOfName(e.kind).Some? &&
    DivisionOfName(e.division).Some? && e.count > 0
  }

  predicate LedgerWellFormed(s: seq<Event>) {
    forall i :: 0 <= i < |s| ==> WellFormed(s[i])
  }

  /** Points a row is worth; zero when its division or kind is not in the table. */
  function EventPoints(e: Event): (r: int)
    ensures LookupPoints(e.division, e.kind).None? ==> r == 0
    ensures LookupPoints(e.division, e.kind).Some? && e.count >= 0 ==> 2 * e.count <= r <= 12 * e.count
  {
    match LookupPoints(e.division, e.kind)
    case Some(p) => ScaledBounds(p, e.count); p * e.count
    case None => 0
  }

  lemma ScaledBounds(p: int, c: int)
    requires 2 <= p <= 12
    ensures c >= 0 ==> 2 * c <= p * c <= 12 * c
  {
    if c >= 0 {
      assert (p - 2) * c >= 0 && (12 - p) * c >= 0;
    }
  }

  /** No row carries a negative count; /addstat only writes positive counts. */
  predicate NonNegativeCounts(s: seq<Event>) {
    forall i :: 0 <= i < |s| ==> s[i].count >= 0
  }

  /** The quantities summed over the ledger. */
  datatype Tally =
    | KindCount(user: UserId, kind: Kind)                             // one player's count of a kind, any division
    | DivisionKindCount(user: UserId, division: Division, kind: Kind) // one player's count of a kind in a division
    | PointTotal(user: UserId)                                        // one player's points
    | MatchingRows(key: Key)                                          // rows a removal would match

  /** What one row adds to a tally. */
  function Weight(t: Tally, e: Event): int {
    match t
    case KindCount(u, k) => if e.user == u && e.kind == KindName(k) then e.count else 0
    case DivisionKindCount(u, d, k) =>
      if e.user == u && e.division == DivisionName(d) && e.kind == KindName(k) then e.count else 0
    case PointTotal(u) => if e.user == u then EventPoints(e) else 0
    case MatchingRows(key) => if Matches(e, key) then 1 else 0
  }

  /** A tally summed over the rows of a ledger. */
  function Sum(s: seq<Event>, t: Tally): int
    decreases |s|
  {
    if s == [] then 0 else Sum(s[..|s| - 1], t) + Weight(t, s[|s| - 1])
  }

  /**
   * SUM(count) over a player's rows of one kind, whatever the division;
   * zero when the player has no such row.
   */
  function KindTotal(s: seq<Event>, u: UserId, k: Kind): (r: int)
    ensures (forall i :: 0 <= i < |s| ==> s[i].user != u || s[i].kind != KindName(k)) ==> r == 0
    ensures NonNegativeCounts(s) ==> r >= 0
  {
    SumOfZeroWeights(s, KindCount(u, k));
    SumNonNegative(s, KindCount(u, k));
    Sum(s, KindCount(u, k))
  }

  /**
   * SUM(count) over a player's rows of one kind in one division; zero when
   * the player has no such row.
   */
  function DivisionKindTotal(s: seq<Event>, u: UserId, d: Division, k: Kind): (r: int)
    ensures (forall i :: 0 <= i < |s| ==>
               s[i].user != u || s[i].division != DivisionName(d) || s[i].kind != KindName(k)) ==> r == 0
  {
    SumOfZeroWeights(s, DivisionKindCount(u, d, k));
    Sum(s, DivisionKindCount(u, d, k))
  }

  /**
   * A player's points: each row's table value times its count. Zero when the
   * player has no row, and never negative when no count is.
   */
  function TotalPoints(s: seq<Event>, u: UserId): (r: int)
    ensures (forall i :: 0 <= i < |s| ==> s[i].user != u) ==> r == 0
    ensures NonNegativeCounts(s) ==> r >= 0
  {
    SumOfZeroWeights(s, PointTotal(u));
    SumNonNegative(s, PointTotal(u));
    Sum(s, PointTotal(u))
  }

  /** COUNT(*) of the rows matching a removal key: never negative, never more than the rows. */
  function MatchCount(s: seq<Event>, key: Key): (r: int)
    ensures 0 <= r <= |s|
  {
    SumNonNegative(s, MatchingRows(key));
    MatchCountAtMostRows(s, key);
    Sum(s, MatchingRows(key))
  }

  /**
   * A player's per-kind totals in one division. Every kind is present, and
   * with non-negative counts each lies between zero and the kind's total
   * over all divisions.
   */
  function DivisionTotals(s: seq<Event>, u: UserId, d: Division): (r: map<Kind, int>)
    ensures forall k :: k in r
    ensures NonNegativeCounts(s) ==> forall k :: 0 <= r[k] <= KindTotal(s, u, k)
  {
    EveryKindListed();
    DivisionTotalsBounded(s, u, d);
    map k | k in AllKinds :: DivisionKindTotal(s, u, d, k)
  }

  /** Position of the first row matching a key: the row a one-row delete removes. */
  function FirstMatch(s: seq<Event>, key: Key): (r: Option<nat>)
    ensures r.Some? ==> r.value < |s| && Matches(s[r.value], key)
    ensures r.Some? ==> forall j :: 0 <= j < r.value ==> !Matches(s[j], key)
    ensures r.None? ==> forall j :: 0 <= j < |s| ==> !Matches(s[j], key)
  {
    if s == [] then None
    else if Matches(s[0], key) then Some(0)
    else match FirstMatch(s[1..], key)
      case None => None
      case Some(i) => Some(i + 1)
  }

  /** The ledger with the row at position i deleted. */
  function RemoveAt(s: seq<Event>, i: nat): seq<Event>
    requires i < |s|
  {
    s[..i] + s[i + 1..]
  }

  // ---------------------------------------------------------------------
  // Sums over the ledger

  lemma SumAppend(s: seq<Event>, e: Event, t: Tally)
    ensures Sum(s + [e], t) == Sum(s, t) + Weight(t, e)
  {
  }

  lemma {:induction false} SumConcat(a: seq<Event>, b: seq<Event>, t: Tally)
    ensures Sum(a + b, t) == Sum(a, t) + Sum(b, t)
    decreases |b|
  {
    if b == [] {
      assert a + b == a;
    } else {
      var b', x := b[..|b| - 1], b[|b| - 1];
      assert b == b' + [x];
      assert a + b == (a + b') + [x];
      SumConcat(a, b', t);
      SumAppend(a + b', x, t);
      SumAppend(b', x, t);
    }
  }

  /** Deleting one row takes exactly that row's weight off every tally. */
  lemma SumRemoveAt(s: seq<Event>, i: nat, t: Tally)
    requires i < |s|
    ensures Sum(RemoveAt(s, i), t) == Sum(s, t) - Weight(t, s[i])
  {
    assert s == (s[..i] + [s[i]]) + s[i + 1..];
    SumConcat(s[..i] + [s[i]], s[i + 1..], t);
    SumAppend(s[..i], s[i], t);
    SumConcat(s[..i], s[i + 1..], t);
  }

  /** Deleting one row takes exactly that row out of the ledger's multiset of rows. */
  lemma MultisetRemoveAt(s: seq<Event>, i: nat)
    requires i < |s|
    ensures multiset(s) == multiset(RemoveAt(s, i)) + multiset{s[i]}
  {
    assert s == (s[..i] + [s[i]]) + s[i + 1..];
  }

  /** Every tally depends only on the rows present, not on their order. */
  lemma {:induction false} SumPermutation(a: seq<Event>, b: seq<Event>, t: Tally)
    requires multiset(a) == multiset(b)
    ensures Sum(a, t) == Sum(b, t)
    decreases |a|
  {
    if a == [] {
      assert |b| == |multiset(b)| == 0;
    } else {
      var a', x := a[..|a| - 1], a[|a| - 1];
      assert a == a' + [x];
      assert multiset(a) == multiset(a') + multiset{x};
      assert x in multiset(b);
      var i :| 0 <= i < |b| && b[i] == x;
      MultisetRemoveAt(b, i);
      assert multiset(RemoveAt(b, i)) == multiset(b) - multiset{x};
      assert multiset(a') == multiset(a) - multiset{x};
      SumPermutation(a', RemoveAt(b, i), t);
      SumAppend(a', x, t);
      SumRemoveAt(b, i, t);
    }
  }

  lemma {:induction false} SumNonNegative(s: seq<Event>, t: Tally)
    ensures (forall i :: 0 <= i < |s| ==> Weight(t, s[i]) >= 0) ==> Sum(s, t) >= 0
    decreases |s|
  {
    if s != [] {
      SumNonNegative(s[..|s| - 1], t);
    }
  }

  lemma {:induction false} SumOfZeroWeights(s: seq<Event>, t: Tally)
    ensures (forall i :: 0 <= i < |s| ==> Weight(t, s[i]) == 0) ==> Sum(s, t) == 0
    decreases |s|
  {
    if s != [] {
      SumOfZeroWeights(s[..|s| - 1], t);
    }
  }

  lemma {:induction false} MatchCountAtMostRows(s: seq<Event>, key: Key)
    ensures Sum(s, MatchingRows(key)) <= |s|
    decreases |s|
  {
    if s != [] {
      MatchCountAtMostRows(s[..|s| - 1], key);
    }
  }

  /** A player's total of a kind in one division never exceeds the total over all divisions. */
  lemma {:induction false} DivisionTotalAtMostKindTotal(s: seq<Event>, u: UserId, d: Division, k: Kind)
    requires NonNegativeCounts(s)
    ensures 0 <= Sum(s, DivisionKindCount(u, d, k)) <= Sum(s, KindCount(u, k))
    decreases |s|
  {
    if s != [] {
      DivisionTotalAtMostKindTotal(s[..|s| - 1], u, d, k);
    }
  }

  lemma EveryKindListed()
    ensures forall k: Kind :: k in AllKinds
  {
    forall k: Kind ensures k in AllKinds {
      match k
      case Goal => case Assist => case DefenderCleansheet =>
      case GoalkeeperCleansheet => case Totw => case Motm =>
    }
  }

  lemma DivisionTotalsBounded(s: seq<Event>, u: UserId, d: Division)
    ensures NonNegativeCounts(s) ==> forall k :: 0 <= DivisionKindTotal(s, u, d, k) <= KindTotal(s, u, k)
  {
    if NonNegativeCounts(s) {
      forall k ensures 0 <= DivisionKindTotal(s, u, d, k) <= KindTotal(s, u, k) {
        DivisionTotalAtMostKindTotal(s, u, d, k);
      }
    }
  }
}
