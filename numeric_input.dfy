/**
 * `restrictInput`, the keydown filter on the price and weight fields: a key
 * is let through when Ctrl or Meta is held, when it is an editing key, or when
 * the field's value with the key appended is an amount of the form
 * `^\d+(\.\d{0,2})?$`; otherwise its default action is prevented.
 */
module NumericInput {

  /** `\d` without the Unicode flag: an ASCII digit. */
  predicate IsDigit(c: char) { '0' <= c <= '9' }

  predicate AllDigits(s: string) {
    forall i :: 0 <= i < |s| ==> IsDigit(s[i])
  }

  /** The keys that always pass. */
  const EditingKeys: seq<string> := ["Backspace", "ArrowLeft", "ArrowRight", "Delete", "Tab", "Enter"]

  /** The length of the run of digits that starts `s`. */
  function LeadingDigits(s: string): (n: nat)
    ensures n <= |s|
    ensures AllDigits(s[..n])
    ensures n < |s| ==> !IsDigit(s[n])
  {
    if s != [] && IsDigit(s[0]) then
      assert s[..1 + LeadingDigits(s[1..])] == [s[0]] + s[1..][..LeadingDigits(s[1..])];
      1 + LeadingDigits(s[1..])
    else 0
  }

  /** A digit prefix that is followed by a non-digit or by the end is the leading digit run. */
  lemma {:induction false} DigitRunIsLeading(s: string, n: nat)
    requires n <= |s| && AllDigits(s[..n])
    requires n < |s| ==> !IsDigit(s[n])
    ensures LeadingDigits(s) == n
  {
  }

  /** The field check as one left-to-right pass: a digit run, then nothing, or a point and at most two digits. */
  predicate IsAmount(s: string) {
    var n := LeadingDigits(s);
    && n >= 1
    && (n == |s| || (s[n] == '.' && |s| - n - 1 <= 2 && AllDigits(s[n + 1..])))
  }

  /** `(\.\d{0,2})?` */
  predicate OptionalFraction(t: string) {
    t == [] || (t[0] == '.' && |t| <= 3 && AllDigits(t[1..]))
  }

  /** `^\d+(\.\d{0,2})?$` read as a grammar: the string splits into one or more digits and an optional fraction. */
  ghost predicate MatchesAmountPattern(s: string) {
    exists n :: 1 <= n <= |s| && AllDigits(s[..n]) && OptionalFraction(s[n..])
  }

  /** The one-pass check accepts exactly the strings of the pattern. */
  lemma IsAmountMatchesPattern(s: string)
    ensures IsAmount(s) <==> MatchesAmountPattern(s)
  {
  }

  /**
   * Whether `restrictInput` calls `preventDefault` for this key on a field
   * holding `value`: exactly when no modifier is held, the key is not an
   * editing key, and the value with the key appended is not an amount.
   */
  function RestrictInput(key: string, ctrlKey: bool, metaKey: bool, value: string): (prevented: bool)
    ensures prevented <==> !ctrlKey && !metaKey && key !in EditingKeys && !MatchesAmountPattern(value + key)
  {
    IsAmountMatchesPattern(value + key);
    if ctrlKey || metaKey || key in EditingKeys then false
    else !IsAmount(value + key)
  }
}
