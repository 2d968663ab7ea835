/**
 * The calculator's bracket balancer (`parseBrackets`): a scan with a stack of
 * open brackets, then the closers still owed appended innermost first, then
 * every square and curly bracket rewritten to a round one.
 */
module Brackets {

  predicate IsOpener(c: char) { c == '(' || c == '[' || c == '{' }

  predicate IsCloser(c: char) { c == ')' || c == ']' || c == '}' }

  /** The `pairs` table: the closer that matches an opener. */
  function CloserOf(c: char): (r: char)
    requires IsOpener(c)
    ensures IsCloser(r)
  {
    if c == '(' then ')' else if c == '[' then ']' else '}'
  }

  predicate AllOpeners(st: seq<char>) {
    forall i :: 0 <= i < |st| ==> IsOpener(st[i])
  }

  /** One iteration of the scanning loop: push an opener; pop only for the closer of the innermost opener. */
  function Step(st: seq<char>, ch: char): (r: seq<char>)
    requires AllOpeners(st)
    ensures AllOpeners(r)
  {
    if IsOpener(ch) then st + [ch]
    else if IsCloser(ch) && |st| != 0 && CloserOf(st[|st| - 1]) == ch then st[..|st| - 1]
    else st
  }

  /** The stack after scanning `s`, starting from the stack `st`. */
  function Scan(st: seq<char>, s: seq<char>): (r: seq<char>)
    requires AllOpeners(st)
    ensures AllOpeners(r)
    decreases |s|
  {
    if s == [] then st else Step(Scan(st, s[..|s| - 1]), s[|s| - 1])
  }

  /** The openers of `s` left unmatched by the scan, outermost first. */
  function OpenStack(s: seq<char>): (r: seq<char>)
    ensures AllOpeners(r)
  {
    Scan([], s)
  }

  /** The closers the `while` loop appends for a stack: popped from the top, so innermost first. */
  function Owed(st: seq<char>): seq<char>
    requires AllOpeners(st)
    decreases |st|
  {
    if st == [] then [] else [CloserOf(st[|st| - 1])] + Owed(st[..|st| - 1])
  }

  /** The two `replace` calls on one character. */
  function NormalizeChar(c: char): char {
    if c == '[' || c == '{' then '(' else if c == ']' || c == '}' then ')' else c
  }

  /** `.replace(/[\[\{]/g, "(").replace(/[\]\}]/g, ")")` */
  function Normalize(s: seq<char>): (r: seq<char>)
    ensures |r| == |s|
    ensures forall i :: 0 <= i < |s| ==> r[i] == NormalizeChar(s[i])
  {
    seq(|s|, i requires 0 <= i < |s| => NormalizeChar(s[i]))
  }

  method ParseBrackets(expression: string) returns (r: string)
    ensures r == Normalize(expression + Owed(OpenStack(expression)))
  {
    var stack: seq<char> := [];
    for i := 0 to |expression|
      invariant stack == OpenStack(expression[..i])
    {
      var ch := expression[i];
      assert expression[..i + 1][..i] == expression[..i];
      if IsOpener(ch) {
        stack := stack + [ch];
      } else if IsCloser(ch) {
        if |stack| != 0 {
          var lastOpen := stack[|stack| - 1];
          if CloserOf(lastOpen) == ch {
            stack := stack[..|stack| - 1];
          }
        }
      }
    }
    assert expression[..|expression|] == expression;
    ghost var owed := Owed(stack);
    var text := expression;
    while |stack| > 0
      invariant AllOpeners(stack)
      invariant text + Owed(stack) == expression + owed
      decreases |stack|
    {
      var top := stack[|stack| - 1];
      assert Owed(stack) == [CloserOf(top)] + Owed(stack[..|stack| - 1]);
      text := text + [CloserOf(top)];
      stack := stack[..|stack| - 1];
    }
    r := Normalize(text);
  }

  /** The closers owed, read from the back of the stack: one per opener, in reverse order of opening. */
  lemma {:induction false} OwedReversesStack(st: seq<char>)
    requires AllOpeners(st)
    ensures |Owed(st)| == |st|
    ensures forall k :: 0 <= k < |st| ==> Owed(st)[k] == CloserOf(st[|st| - 1 - k])
  {
    if st != [] {
      var n := |st|;
      var init := st[..n - 1];
      var rest := Owed(init);
      OwedReversesStack(init);
      assert Owed(st) == [CloserOf(st[n - 1])] + rest;
      forall k | 0 <= k < n
        ensures Owed(st)[k] == CloserOf(st[n - 1 - k])
      {
        if k > 0 {
          assert init[n - 1 - k] == st[n - 1 - k];
          assert rest[k - 1] == CloserOf(init[|init| - 1 - (k - 1)]);
        }
      }
    }
  }

  /** Scanning a concatenation is scanning the second part from the stack the first part leaves. */
  lemma {:induction false} ScanAppend(st: seq<char>, a: seq<char>, b: seq<char>)
    requires AllOpeners(st)
    ensures Scan(st, a + b) == Scan(Scan(st, a), b)
    decreases |b|
  {
    if b == [] {
      assert a + b == a;
    } else {
      var b' := b[..|b| - 1];
      assert (a + b)[..|a + b| - 1] == a + b';
      assert (a + b)[|a + b| - 1] == b[|b| - 1];
      ScanAppend(st, a, b');
    }
  }

  /** The appended closers pop the whole stack they were computed from. */
  lemma {:induction false} OwedEmptiesStack(st: seq<char>)
    requires AllOpeners(st)
    ensures Scan(st, Owed(st)) == []
    decreases |st|
  {
    if st != [] {
      var init := st[..|st| - 1];
      var c := CloserOf(st[|st| - 1]);
      assert Scan(st, [c]) == Step(Scan(st, []), c);
      ScanAppend(st, [c], Owed(init));
      OwedEmptiesStack(init);
    }
  }

  /** Before the rewriting step the output leaves no opener unmatched: the appended closers complete every bracket. */
  lemma ParseBracketsCompletes(expression: string)
    ensures OpenStack(expression + Owed(OpenStack(expression))) == []
  {
    ScanAppend([], expression, Owed(OpenStack(expression)));
    OwedEmptiesStack(OpenStack(expression));
  }

  /**
   * The shape of the output: every input character kept in place (square and
   * curly brackets rewritten to round ones), followed by one `)` per opener
   * still open, and no square or curly bracket anywhere.
   */
  lemma ParseBracketsShape(expression: string, r: string)
    requires r == Normalize(expression + Owed(OpenStack(expression)))
    ensures |r| == |expression| + |OpenStack(expression)|
    ensures forall i :: 0 <= i < |expression| ==> r[i] == NormalizeChar(expression[i])
    ensures forall i :: |expression| <= i < |r| ==> r[i] == ')'
    ensures forall i :: 0 <= i < |r| ==> r[i] != '[' && r[i] != ']' && r[i] != '{' && r[i] != '}'
  {
    var st := OpenStack(expression);
    OwedReversesStack(st);
    var t := expression + Owed(st);
    forall i | |expression| <= i < |r|
      ensures r[i] == ')'
    {
      var k := i - |expression|;
      assert t[i] == Owed(st)[k] == CloserOf(st[|st| - 1 - k]);
    }
  }

  /** A closer that does not close the innermost open bracket (or meets an empty stack) pops nothing; ParseBracketsShape keeps it in the text. */
  lemma UnmatchedCloserKept(prefix: string, ch: char)
    requires IsCloser(ch)
    requires OpenStack(prefix) == [] || CloserOf(OpenStack(prefix)[|OpenStack(prefix)| - 1]) != ch
    ensures OpenStack(prefix + [ch]) == OpenStack(prefix)
  {
  }
}
