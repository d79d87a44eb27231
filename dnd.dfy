/**
 * The drag-and-drop list parser: a dropped file list is one string in which
 * paths are separated by spaces and a path containing spaces is wrapped in
 * braces, `{C:\my dir\a.udf} C:\b.bin`.
 *
 * The parser is a character loop over three variables: the finished
 * elements, the element being built and whether a brace is open.  A closing
 * brace emits the current element but does not clear it, so the element is
 * emitted a second time by the next separating space or at the end of the
 * input; the drop handler's duplicate check absorbs the repeat.
 */
module DragDrop {

  datatype Scan = Scan(out: seq<string>, cur: string, inBrace: bool)

  const Start: Scan := Scan([], "", false)

  /** One iteration of the character loop. */
  function Step(st: Scan, ch: char): Scan
  {
    if ch == '{' then st.(inBrace := true, cur := "")
    else if ch == '}' then st.(inBrace := false, out := st.out + [st.cur])
    else if ch == ' ' && !st.inBrace then
      (if st.cur != "" then st.(out := st.out + [st.cur], cur := "") else st)
    else st.(cur := st.cur + [ch])
  }

  /** The loop state after the whole of `s`. */
  function Fold(st: Scan, s: string): Scan
    decreases |s|
  {
    if s == [] then st else Fold(Step(st, s[0]), s[1..])
  }

  /** After the loop, a non-empty current element is emitted. */
  function Finish(st: Scan): seq<string>
  {
    if st.cur != "" then st.out + [st.cur] else st.out
  }

  function Parse(data: string): seq<string>
  {
    Finish(Fold(Start, data))
  }

  /** `_parse_dnd_list`. */
  method ParseDndList(data: string) returns (out: seq<string>)
    ensures out == Parse(data)
  {
    out := [];
    var cur: string := "";
    var inBrace := false;
    var i := 0;
    while i < |data|
      invariant 0 <= i <= |data|
      invariant Fold(Scan(out, cur, inBrace), data[i..]) == Fold(Start, data)
    {
      var ch := data[i];
      assert data[i..][1..] == data[i + 1..];
      if ch == '{' {
        inBrace, cur := true, "";
      } else if ch == '}' {
        inBrace, out := false, out + [cur];
      } else if ch == ' ' && !inBrace {
        if cur != "" {
          out := out + [cur];
          cur := "";
        }
      } else {
        cur := cur + [ch];
      }
      i := i + 1;
    }
    if cur != "" {
      out := out + [cur];
    }
  }

  // ---------------------------------------------------------------------
  // Properties.
  // ---------------------------------------------------------------------

  predicate NoBrace(s: string)
  {
    forall i :: 0 <= i < |s| ==> s[i] != '{' && s[i] != '}'
  }

  predicate NoSpace(s: string)
  {
    forall i :: 0 <= i < |s| ==> s[i] != ' '
  }

  predicate Clean(st: Scan)
  {
    NoBrace(st.cur) && forall e :: e in st.out ==> NoBrace(e)
  }

  lemma {:induction false} FoldClean(st: Scan, s: string)
    requires Clean(st)
    ensures Clean(Fold(st, s))
    decreases |s|
  {
    if s != [] {
      FoldClean(Step(st, s[0]), s[1..]);
    }
  }

  /** No parsed element contains a brace. */
  lemma ParsedHaveNoBraces(data: string)
    ensures forall e :: e in Parse(data) ==> NoBrace(e)
  {
    FoldClean(Start, data);
  }

  lemma {:induction false} FoldAppend(st: Scan, a: string, b: string)
    ensures Fold(st, a + b) == Fold(Fold(st, a), b)
    decreases |a|
  {
    if a == [] {
      assert a + b == b;
    } else {
      assert (a + b)[0] == a[0] && (a + b)[1..] == a[1..] + b;
      FoldAppend(Step(st, a[0]), a[1..], b);
    }
  }

  /** Inside braces every character, spaces included, extends the element. */
  lemma {:induction false} FoldInBrace(out: seq<string>, cur: string, s: string)
    requires NoBrace(s)
    ensures Fold(Scan(out, cur, true), s) == Scan(out, cur + s, true)
    decreases |s|
  {
    if s == [] {
      assert cur + s == cur;
    } else {
      assert (cur + [s[0]]) + s[1..] == cur + s;
      FoldInBrace(out, cur + [s[0]], s[1..]);
    }
  }

  /** A braced group is emitted as one element, spaces and all, whatever
      came before it; the element stays current after the closing brace. */
  lemma BracedGroup(st: Scan, s: string)
    requires NoBrace(s)
    ensures Fold(st, "{" + s + "}") == Scan(st.out + [s], s, false)
  {
    FoldAppend(st, "{" + s, "}");
    FoldAppend(st, "{", s);
    assert Fold(st, "{") == Scan(st.out, "", true);
    FoldInBrace(st.out, "", s);
    assert "" + s == s;
  }

  /** A single braced path is therefore parsed twice. */
  lemma SingleBracedPathRepeats(s: string)
    requires NoBrace(s) && s != ""
    ensures Parse("{" + s + "}") == [s, s]
  {
    BracedGroup(Start, s);
  }

  // ---------------------------------------------------------------------
  // Without braces: splitting on spaces.
  // ---------------------------------------------------------------------

  /** Length of the leading run of non-space characters. */
  function WordLen(s: string): (n: nat)
    ensures n <= |s|
    ensures NoSpace(s[..n])
    ensures n < |s| ==> s[n] == ' '
  {
    if s == [] || s[0] == ' ' then 0 else 1 + WordLen(s[1..])
  }

  /** The space-separated words of `s`: maximal runs of non-space characters. */
  function Words(s: string): (r: seq<string>)
    ensures forall w :: w in r ==> w != "" && NoSpace(w)
    decreases |s|
  {
    if s == [] then []
    else if s[0] == ' ' then Words(s[1..])
    else [s[..WordLen(s)]] + Words(s[WordLen(s)..])
  }

  lemma {:induction false} WordLenOfWord(w: string, r: string)
    requires NoSpace(w)
    requires r == [] || r[0] == ' '
    ensures WordLen(w + r) == |w|
  {
    if w != [] {
      assert (w + r)[1..] == w[1..] + r;
      WordLenOfWord(w[1..], r);
    } else {
      assert w + r == r;
    }
  }

  /** The words of "w r", for a space-free w, are w (when non-empty) then the words of r. */
  lemma WordsAfter(w: string, r: string)
    requires NoSpace(w)
    requires r == [] || r[0] == ' '
    ensures Words(w + r) == (if w == "" then [] else [w]) + Words(r)
  {
    if w == "" {
      assert w + r == r;
    } else {
      WordLenOfWord(w, r);
      assert (w + r)[..|w|] == w && (w + r)[|w|..] == r;
    }
  }

  /** A separating space outside braces: the next words come from the rest. */
  lemma WordsAtSpace(out: seq<string>, cur: string, s: string)
    requires NoSpace(cur) && s != [] && s[0] == ' '
    ensures Step(Scan(out, cur, false), s[0]) == Scan(if cur != "" then out + [cur] else out, "", false)
    ensures (if cur != "" then out + [cur] else out) + Words("" + s[1..]) == out + Words(cur + s)
  {
    WordsAfter(cur, s);
    assert "" + s[1..] == s[1..];
    assert Words(s) == Words(s[1..]);
  }

  lemma {:induction false} FoldWords(out: seq<string>, cur: string, s: string)
    requires NoBrace(s) && NoSpace(cur)
    ensures Finish(Fold(Scan(out, cur, false), s)) == out + Words(cur + s)
    decreases |s|
  {
    if s == [] {
      WordsAfter(cur, []);
      assert cur + s == cur + [];
    } else if s[0] == ' ' {
      WordsAtSpace(out, cur, s);
      FoldWords(if cur != "" then out + [cur] else out, "", s[1..]);
    } else {
      assert Step(Scan(out, cur, false), s[0]) == Scan(out, cur + [s[0]], false);
      assert (cur + [s[0]]) + s[1..] == cur + s;
      FoldWords(out, cur + [s[0]], s[1..]);
    }
  }

  /** Without braces, the parser yields exactly the non-empty space-separated
      tokens of its input, in order. */
  lemma ParseWithoutBraces(data: string)
    requires NoBrace(data)
    ensures Parse(data) == Words(data)
  {
    FoldWords([], "", data);
    assert "" + data == data;
  }
}
