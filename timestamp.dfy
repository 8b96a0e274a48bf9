/**
 * The string step of the timestamp normalisation (ddb_eventprocessor.js line 69):
 * `created_at.replace(/( \+)/, ' UTC$1')`. The regular expression has no `g` flag,
 * so only the first space-plus pair is rewritten, to " UTC +".
 */
module Timestamp {
  import opened Wrappers

  /** A space followed by a plus sign starts at index j of s. */
  predicate SpacePlusAt(s: string, j: int) {
    0 <= j && j + 1 < |s| && s[j] == ' ' && s[j + 1] == '+'
  }

  /** Index i is the first place where a space-plus pair starts. */
  predicate FirstSpacePlus(s: string, i: int) {
    SpacePlusAt(s, i) && forall j :: 0 <= j < i ==> !SpacePlusAt(s, j)
  }

  /** The match position of the regular expression `/( \+)/`, if any. */
  function FindSpacePlus(s: string): (r: Option<nat>)
    ensures r.Some? ==> FirstSpacePlus(s, r.value)
    ensures r.None? ==> forall j :: !SpacePlusAt(s, j)
  {
    if |s| < 2 then None
    else if s[0] == ' ' && s[1] == '+' then Some(0)
    else
      match FindSpacePlus(s[1..])
      case None =>
        assert forall j :: SpacePlusAt(s, j) && j > 0 ==> SpacePlusAt(s[1..], j - 1);
        None
      case Some(i) =>
        assert forall j :: 0 < j <= i ==> (SpacePlusAt(s, j) <==> SpacePlusAt(s[1..], j - 1));
        Some(i + 1)
  }

  /** `replace(/( \+)/, ' UTC$1')`: inserts " UTC" before the first " +", if there is one. */
  function InsertUtc(s: string): (r: string)
    ensures (forall j :: !SpacePlusAt(s, j)) ==> r == s
    ensures forall i :: FirstSpacePlus(s, i) ==> r == s[..i] + " UTC" + s[i..]
  {
    match FindSpacePlus(s)
    case None => s
    case Some(i) =>
      s[..i] + " UTC" + s[i..]
  }
}
