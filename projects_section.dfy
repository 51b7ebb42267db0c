/**
 * The home-page projects section: the shared catalogue filter (module
 * `Catalogue`) plus the tech badges of a project card.
 */
module ProjectsSection {
  import opened Wrappers
  import opened Text

  /** Badges on a card: the first tech names, and a `+k` badge for the ones not shown. */
  datatype BadgeRow = BadgeRow(shown: seq<string>, overflow: Option<nat>)

  const MaxBadges: nat := 4

  function TechBadges(tech: seq<string>): (r: BadgeRow)
    ensures |r.shown| <= MaxBadges && r.shown <= tech
    ensures r.overflow.Some? <==> |tech| > MaxBadges
    ensures |r.shown| + r.overflow.GetOr(0) == |tech|
  {
    if |tech| > MaxBadges then BadgeRow(tech[..MaxBadges], Some(|tech| - MaxBadges))
    else BadgeRow(tech, None)
  }

  /** The text of the overflow badge. */
  function OverflowLabel(k: nat): (s: string)
    ensures |s| >= 2 && s[0] == '+'
    ensures forall i :: 0 <= i < |s[1..]| ==> '0' <= s[1..][i] <= '9'
    ensures DigitsValue(s[1..]) == k
  {
    NatToStringRoundTrip(k);
    var s := "+" + NatToString(k);
    assert s[1..] == NatToString(k);
    s
  }
}
