/**
 * The calculator input's keydown handler: typing an opening bracket while a
 * non-empty range is selected wraps the selection in that bracket pair and
 * puts the caret just past the closer.
 */
module SelectionWrap {
  import opened Wrappers

  /** The text field: its value and its selection, which the browser keeps within the value. */
  datatype TextField = TextField(value: string, selectionStart: nat, selectionEnd: nat)

  predicate WellFormed(f: TextField) {
    f.selectionStart <= f.selectionEnd <= |f.value|
  }

  datatype KeyEvent = KeyEvent(key: string, ctrlKey: bool)

  /** What the handler leaves: whether it called `preventDefault`, and the field. */
  datatype KeyOutcome = KeyOutcome(prevented: bool, field: TextField)

  /** The handler's `pairs` table, looked up by key. */
  function PairOf(key: string): Option<string> {
    if key == "(" then Some(")")
    else if key == "[" then Some("]")
    else if key == "{" then Some("}")
    else None
  }

  function KeyDown(f: TextField, e: KeyEvent): (o: KeyOutcome)
    requires WellFormed(f)
    ensures WellFormed(o.field)
  {
    match PairOf(e.key)
    case Some(close) =>
      if !e.ctrlKey && f.selectionStart != f.selectionEnd then
        var before := f.value[..f.selectionStart];
        var selected := f.value[f.selectionStart..f.selectionEnd];
        var after := f.value[f.selectionEnd..];
        var caret := f.selectionStart + |e.key| + |selected| + |close|;
        KeyOutcome(true, TextField(before + e.key + selected + close + after, caret, caret))
      else
        KeyOutcome(false, f)
    case None => KeyOutcome(false, f)
  }

  /** The handler acts exactly for a bracket key without Ctrl over a non-empty selection, and otherwise leaves the field alone. */
  lemma KeyDownActsIff(f: TextField, e: KeyEvent)
    requires WellFormed(f)
    ensures KeyDown(f, e).prevented <==> PairOf(e.key).Some? && !e.ctrlKey && f.selectionStart != f.selectionEnd
    ensures !KeyDown(f, e).prevented ==> KeyDown(f, e).field == f
  {
  }

  /**
   * Wrapping: the opener lands at the selection start, the selected text moves
   * one place right, its closer follows it, the text around is kept, and the
   * caret collapses to the old selection end plus two.
   */
  lemma WrapEnclosesSelection(f: TextField, e: KeyEvent)
    requires WellFormed(f)
    requires KeyDown(f, e).prevented
    ensures var g := KeyDown(f, e).field;
      var s, t := f.selectionStart, f.selectionEnd;
      && |g.value| == |f.value| + 2
      && g.value[..s] == f.value[..s]
      && [g.value[s]] == e.key
      && g.value[s + 1..t + 1] == f.value[s..t]
      && [g.value[t + 1]] == PairOf(e.key).value
      && g.value[t + 2..] == f.value[t..]
      && g.selectionStart == g.selectionEnd == t + 2
  {
  }

  /** Deleting the two inserted brackets gives back the original text: the edit is a pure insertion. */
  lemma WrapUndo(f: TextField, e: KeyEvent)
    requires WellFormed(f)
    requires KeyDown(f, e).prevented
    ensures var g := KeyDown(f, e).field.value;
      var s, t := f.selectionStart, f.selectionEnd;
      g[..s] + g[s + 1..t + 1] + g[t + 2..] == f.value
  {
    WrapEnclosesSelection(f, e);
    var s, t := f.selectionStart, f.selectionEnd;
    assert f.value == f.value[..s] + f.value[s..t] + f.value[t..];
  }
}
