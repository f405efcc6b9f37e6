/**
 * The closed vocabularies of the stat engine: the six statistic kinds, the
 * three divisions, the gameweek and season ranges, and the parse step that
 * turns a moderator's free-text stat type into a kind.
 */
module Domain {
  import opened Wrappers

  /** The statistic kinds a moderator can record for a player. */
  datatype Kind = Goal | Assist | DefenderCleansheet | GoalkeeperCleansheet | Totw | Motm

  /** The six kinds, the keys of every per-kind totals table. */
  const AllKinds: set<Kind> := {Goal, Assist, DefenderCleansheet, GoalkeeperCleansheet, Totw, Motm}

  /** The divisions of the league; Div1 is the highest tier. */
  datatype Division = Div1 | Div2 | Div3

  /** A gameweek is a round of fixtures numbered 1 to 22. */
  predicate GwInRange(gw: int) {
    1 <= gw <= 22
  }

  /** A season is one of 1, 2 or 3. */
  predicate SeasonValid(season: int) {
    season in [1, 2, 3]
  }

  /** The lower-case name under which a kind is written to the stat ledger. */
  function KindName(k: Kind): string {
    match k
    case Goal => "goal"
    case Assist => "assist"
    case DefenderCleansheet => "defender cleansheet"
    case GoalkeeperCleansheet => "goalkeeper cleansheet"
    case Totw => "totw"
    case Motm => "motm"
  }

  /** The name under which a division is written to the stat ledger. */
  function DivisionName(d: Division): string {
    match d
    case Div1 => "Div 1"
    case Div2 => "Div 2"
    case Div3 => "Div 3"
  }

  lemma KindNameInjective(k1: Kind, k2: Kind)
    requires KindName(k1) == KindName(k2)
    ensures k1 == k2
  {
  }

  /**
   * Exact, case-sensitive lookup of a stored kind name, as a membership test
   * on a dictionary keyed by the six names.
   */
  function KindOfName(s: string): (r: Option<Kind>)
    ensures forall k :: r == Some(k) <==> s == KindName(k)
  {
    if s == "goal" then Some(Goal)
    else if s == "assist" then Some(Assist)
    else if s == "defender cleansheet" then Some(DefenderCleansheet)
    else if s == "goalkeeper cleansheet" then Some(GoalkeeperCleansheet)
    else if s == "totw" then Some(Totw)
    else if s == "motm" then Some(Motm)
    else None
  }

  /** Exact lookup of a stored division name. */
  function DivisionOfName(s: string): (r: Option<Division>)
    ensures forall d :: r == Some(d) <==> s == DivisionName(d)
  {
    if s == "Div 1" then Some(Div1)
    else if s == "Div 2" then Some(Div2)
    else if s == "Div 3" then Some(Div3)
    else None
  }

  /**
   * Lower-casing of one character. ASCII capitals map to their lower-case
   * letter and the Kelvin sign to 'k'; these are the only characters whose
   * lower-case form is ASCII, so every other character is kept as it is.
   */
  function LowerChar(c: char): char {
    if 'A' <= c <= 'Z' then (c as int + 32) as char
    else if c == '\U{212A}' then 'k'
    else c
  }

  /**
   * Lower-casing of a string, character by character: no capital that
   * lower-cases to ASCII is left, and every other character is kept.
   */
  function Lower(s: string): (r: string)
    ensures |r| == |s|
    ensures forall i :: 0 <= i < |r| ==> !('A' <= r[i] <= 'Z') && r[i] != '\U{212A}'
    ensures forall i :: 0 <= i < |s| && !('A' <= s[i] <= 'Z') && s[i] != '\U{212A}' ==> r[i] == s[i]
  {
    seq(|s|, i requires 0 <= i < |s| => LowerChar(s[i]))
  }

  /**
   * The parse step for a moderator-supplied stat type: the input is accepted
   * exactly when its lower-cased form is one of the six kind names.
   */
  function ParseKind(s: string): (r: Option<Kind>)
    ensures forall k :: r == Some(k) <==> Lower(s) == KindName(k)
  {
    KindOfName(Lower(s))
  }

  /** Parsing ignores letter case, and every stored name parses to its own kind. */
  lemma ParseKindIgnoresCase(s: string, k: Kind)
    ensures ParseKind(Lower(s)) == ParseKind(s)
    ensures ParseKind(KindName(k)) == Some(k)
  {
    var l := Lower(s);
    assert Lower(l) == l by {
      assert forall i :: 0 <= i < |l| ==> Lower(l)[i] == l[i];
    }
    var n := KindName(k);
    assert Lower(n) == n by {
      assert forall i :: 0 <= i < |n| ==> !('A' <= n[i] <= 'Z') && n[i] != '\U{212A}';
    }
  }
}
