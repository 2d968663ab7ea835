/**
 * The calculator's copy button: the text copied is the shown result up to the
 * first `" ("`, which is where the fraction form `" (n/d)"` begins.
 */
module CopyText {

  predicate OccursAt(s: string, pat: string, j: int) {
    0 <= j && j + |pat| <= |s| && s[j..j + |pat|] == pat
  }

  /**
   * `s.indexOf(pat, from)` for a non-empty `pat` or a `from` within `s`: the
   * first index at or after `from` where `pat` occurs, or -1. (For an empty
   * `pat` past the end JavaScript answers `|s|`; the core only asks from 0.)
   */
  function IndexOfFrom(s: string, pat: string, from: nat): (k: int)
    ensures k == -1 || (from <= k && OccursAt(s, pat, k))
    ensures forall j :: from <= j && (k == -1 || j < k) ==> !OccursAt(s, pat, j)
    decreases |s| - from
  {
    if from + |pat| > |s| then -1
    else if s[from..from + |pat|] == pat then from
    else IndexOfFrom(s, pat, from + 1)
  }

  function IndexOf(s: string, pat: string): int {
    IndexOfFrom(s, pat, 0)
  }

  const Separator: string := " ("

  /**
   * The copied text is a prefix of the result; it is the whole result exactly
   * when `" ("` never occurs, and otherwise it stops right before the first
   * occurrence.
   */
  function TextToCopy(resultText: string): (t: string)
    ensures t <= resultText
    ensures forall j :: 0 <= j < |t| ==> !OccursAt(resultText, Separator, j)
    ensures t == resultText <==> forall j :: 0 <= j ==> !OccursAt(resultText, Separator, j)
    ensures t != resultText ==> OccursAt(resultText, Separator, |t|)
  {
    var endIndexBracket := IndexOf(resultText, Separator);
    if endIndexBracket != -1 then resultText[..endIndexBracket] else resultText
  }

  /** The result line `value (n/d)` copies as just `value`, when `value` itself has no `" ("`. */
  lemma CopyDropsFraction(value: string, fraction: string)
    requires forall j :: 0 <= j ==> !OccursAt(value, Separator, j)
    ensures TextToCopy(value + Separator + fraction + ")") == value
  {
    var s := value + Separator + fraction + ")";
    assert OccursAt(s, Separator, |value|);
    forall j | 0 <= j < |value|
      ensures !OccursAt(s, Separator, j)
    {
      if j + 2 <= |value| {
        assert s[j..j + 2] == value[j..j + 2];
        assert !OccursAt(value, Separator, j);
      } else {
        assert s[j + 1] == ' ';
      }
    }
    var k := IndexOf(s, Separator);
    assert k == |value|;
    assert s[..|value|] == value;
  }
}
