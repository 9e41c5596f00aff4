// Greedy word wrapping: every word kept in order, lines that fit, and no layout with fewer lines.
module Wrapping {
  import opened Text

  // ---------- words ----------

  predicate Word(w: string) { w != "" && forall ch <- w :: !Space(ch) }

  /** Length of the run of non-space characters at the front. */
  function Run(s: string): (n: nat)
    ensures n <= |s| && (forall i :: 0 <= i < n ==> !Space(s[i])) && (n < |s| ==> Space(s[n]))
  {
    if s == "" || Space(s[0]) then 0 else 1 + Run(s[1..])
  }

  /** `strings.Fields`. */
  function Fields(s: string): (ws: seq<string>)
    ensures forall w <- ws :: Word(w)
  {
    if s == "" then []
    else if Space(s[0]) then Fields(s[1..])
    else [s[..Run(s)]] + Fields(s[Run(s)..])
  }

  /** There is a word exactly when some character is not a space. */
  lemma {:induction false} FieldsEmpty(s: string)
    ensures Fields(s) == [] <==> Blank(s)
  {
    hide Space;
    if s != "" && Space(s[0]) {
      FieldsEmpty(s[1..]);
      BlankTail(s);
    }
  }

  lemma BlankTail(s: string)
    requires s != "" && Space(s[0])
    ensures Blank(s) <==> Blank(s[1..])
  {
    hide Space;
    if Blank(s[1..]) {
      forall i | 0 <= i < |s| ensures Space(s[i]) { if i > 0 { assert s[i] == s[1..][i - 1]; } }
    }
  }

  // ---------- layouts ----------

  type Layout = seq<seq<string>>

  function Flat(layout: Layout): seq<string> {
    if layout == [] then [] else layout[0] + Flat(layout[1..])
  }

  /** Runes on a line: the indent, the words, and a space between words. */
  function Width(indent: nat, ws: seq<string>): nat {
    if ws == [] then indent
    else Width(indent, ws[..|ws| - 1]) + |ws[|ws| - 1]| + if |ws| > 1 then 1 else 0
  }

  predicate Fits(width: int, indent: nat, ws: seq<string>) { Width(indent, ws) <= width }

  /** A line that may be set: within the width, or a single word. */
  predicate Settable(width: int, indent: nat, ws: seq<string>) { |ws| == 1 || (|ws| > 1 && Fits(width, indent, ws)) }

  ghost predicate LayoutOf(width: int, indent: nat, ws: seq<string>, layout: Layout) {
    Flat(layout) == ws && forall i | 0 <= i < |layout| :: Settable(width, indent, layout[i])
  }

  /** The loop: `cur` is the line being filled. */
  function Fill(width: int, indent: nat, cur: seq<string>, rest: seq<string>): Layout
    decreases |rest|
  {
    if rest == [] then if cur == [] then [] else [cur]
    else if cur != [] && !Fits(width, indent, cur + [rest[0]]) then [cur] + Fill(width, indent, [rest[0]], rest[1..])
    else Fill(width, indent, cur + [rest[0]], rest[1..])
  }

  lemma FlatSingle(cur: seq<string>)
    ensures Flat([cur]) == cur
  {
    assert [cur][1..] == [];
  }

  lemma FlatCons(cur: seq<string>, layout: Layout)
    ensures Flat([cur] + layout) == cur + Flat(layout)
  {
    assert ([cur] + layout)[1..] == layout;
  }

  /** Greedy filling is a layout of the words it was given. */
  lemma {:induction false} FillIsLayout(width: int, indent: nat, cur: seq<string>, rest: seq<string>)
    requires cur != [] ==> Settable(width, indent, cur)
    ensures LayoutOf(width, indent, cur + rest, Fill(width, indent, cur, rest))
    decreases |rest|
  {
    if rest == [] {
      FlatSingle(cur);
      assert cur + rest == cur;
    } else if cur != [] && !Fits(width, indent, cur + [rest[0]]) {
      FillIsLayout(width, indent, [rest[0]], rest[1..]);
      FlatCons(cur, Fill(width, indent, [rest[0]], rest[1..]));
      assert [rest[0]] + rest[1..] == rest;
    } else {
      FillIsLayout(width, indent, cur + [rest[0]], rest[1..]);
      assert cur + [rest[0]] + rest[1..] == cur + rest;
    }
  }

  // ---------- fewest lines ----------

  /** Dropping the first word makes a line no wider. */
  lemma {:induction false} WidthDrop(indent: nat, ws: seq<string>)
    requires |ws| > 0
    ensures Width(indent, ws[1..]) <= Width(indent, ws)
  {
    if |ws| > 1 {
      var init := ws[..|ws| - 1];
      WidthDrop(indent, init);
      assert ws[1..][..|ws| - 2] == init[1..];
      assert ws[1..][|ws| - 2] == ws[|ws| - 1];
    }
  }

  lemma {:induction false} WidthSuffix(indent: nat, ws: seq<string>, k: nat)
    requires k <= |ws|
    ensures Width(indent, ws[k..]) <= Width(indent, ws)
    decreases k
  {
    if k > 0 {
      WidthSuffix(indent, ws, k - 1);
      WidthDrop(indent, ws[k - 1..]);
      assert ws[k - 1..][1..] == ws[k..];
    } else {
      assert ws[0..] == ws;
    }
  }

  lemma {:induction false} WidthPrefix(indent: nat, ws: seq<string>, k: nat)
    requires k <= |ws|
    ensures Width(indent, ws[..k]) <= Width(indent, ws)
    decreases |ws|
  {
    if k < |ws| {
      WidthPrefix(indent, ws[..|ws| - 1], k);
      assert ws[..|ws| - 1][..k] == ws[..k];
    } else {
      assert ws[..k] == ws;
    }
  }

  lemma FirstLine(width: int, indent: nat, ws: seq<string>, layout: Layout)
    requires LayoutOf(width, indent, ws, layout) && ws != []
    ensures layout != [] && layout[0] != [] && layout[0][0] == ws[0] && layout[0] + Flat(layout[1..]) == ws
    ensures LayoutOf(width, indent, Flat(layout[1..]), layout[1..])
  {
  }

  /** The same layout with its first word gone has no more lines. */
  lemma DropFirst(width: int, indent: nat, ws: seq<string>, layout: Layout) returns (less: Layout)
    requires LayoutOf(width, indent, ws, layout) && ws != []
    ensures LayoutOf(width, indent, ws[1..], less) && |less| <= |layout|
  {
    FirstLine(width, indent, ws, layout);
    if |layout[0]| == 1 {
      less := layout[1..];
    } else {
      WidthDrop(indent, layout[0]);
      less := [layout[0][1..]] + layout[1..];
      FlatCons(layout[0][1..], layout[1..]);
      assert ws[1..] == layout[0][1..] + Flat(layout[1..]);
    }
  }

  /** With a line already begun, greedy needs at most one line more than any layout of the rest. */
  lemma {:induction false} OneMoreLine(width: int, indent: nat, cur: seq<string>, rest: seq<string>, layout: Layout)
    requires cur != [] && LayoutOf(width, indent, rest, layout)
    ensures |Fill(width, indent, cur, rest)| <= 1 + |layout|
    decreases |rest|, 0
  {
    if rest != [] {
      FirstLine(width, indent, rest, layout);
      if Fits(width, indent, cur + [rest[0]]) {
        var less := DropFirst(width, indent, rest, layout);
        OneMoreLine(width, indent, cur + [rest[0]], rest[1..], less);
      } else {
        StaysAhead(width, indent, [rest[0]], rest[1..], [rest[0]], layout);
      }
    }
  }

  lemma PrefixMore(line: seq<string>, tail: seq<string>, t: seq<string>, rest: seq<string>)
    requires line + tail == t + rest && |line| > |t| && rest != []
    ensures line[..|t| + 1] == t + [rest[0]]
  {
    assert line[..|t| + 1] == (line + tail)[..|t| + 1];
    assert (t + rest)[..|t| + 1] == t + [rest[0]];
  }

  /** `layout`'s first line begins with `t`, of which greedy's current line is the tail: greedy ends no later. */
  lemma {:induction false} StaysAhead(width: int, indent: nat, cur: seq<string>, rest: seq<string>, t: seq<string>,
                                      layout: Layout)
    requires cur != [] && |cur| <= |t| && t[|t| - |cur|..] == cur
    requires LayoutOf(width, indent, t + rest, layout) && layout != [] && |t| <= |layout[0]| && layout[0][..|t|] == t
    ensures |Fill(width, indent, cur, rest)| <= |layout|
    decreases |rest|, 1
  {
    FirstLine(width, indent, t + rest, layout);
    if rest == [] {
    } else if |layout[0]| == |t| {
      assert layout[0] == t && Flat(layout[1..]) == rest by {
        assert (layout[0] + Flat(layout[1..]))[|t|..] == (t + rest)[|t|..];
      }
      OneMoreLine(width, indent, cur, rest, layout[1..]);
    } else {
      var t1, cur1 := t + [rest[0]], cur + [rest[0]];
      PrefixMore(layout[0], Flat(layout[1..]), t, rest);
      WidthPrefix(indent, layout[0], |t1|);
      assert t1[|t1| - |cur1|..] == cur1;
      WidthSuffix(indent, t1, |t1| - |cur1|);
      assert t1 + rest[1..] == t + rest;
      StaysAhead(width, indent, cur1, rest[1..], t1, layout);
    }
  }

  /** Greedy filling has the fewest lines of all layouts of the same words. */
  lemma FewestLines(width: int, indent: nat, ws: seq<string>, other: Layout)
    requires LayoutOf(width, indent, ws, other)
    ensures |Fill(width, indent, [], ws)| <= |other|
  {
    if ws != [] {
      FirstLine(width, indent, ws, other);
      assert [ws[0]] + ws[1..] == ws && [] + [ws[0]] == [ws[0]];
      StaysAhead(width, indent, [ws[0]], ws[1..], [ws[0]], other);
    }
  }

  // ---------- text ----------

  function Spaced(ws: seq<string>): string {
    if ws == [] then "" else Spaced(ws[..|ws| - 1]) + (if |ws| > 1 then " " else "") + ws[|ws| - 1]
  }

  /** `strings.Join` with newlines. */
  function Joined(lines: seq<string>): string {
    if lines == [] then "" else Joined(lines[..|lines| - 1]) + (if |lines| > 1 then "\n" else "") + lines[|lines| - 1]
  }

  function SetLine(indent: string, ws: seq<string>): string { indent + Spaced(ws) }

  function SetLines(indent: string, layout: Layout): (lines: seq<string>)
    ensures |lines| == |layout|
  {
    seq(|layout|, i requires 0 <= i < |layout| => SetLine(indent, layout[i]))
  }

  /** A set line is as wide as its words make it. */
  lemma {:induction false} SetLineWidth(indent: string, ws: seq<string>)
    ensures |SetLine(indent, ws)| == Width(|indent|, ws)
  {
    if ws != [] {
      var init := ws[..|ws| - 1];
      SetLineWidth(indent, init);
      assert |SetLine(indent, init)| == |indent| + |Spaced(init)|;
      assert |Spaced(ws)| == |Spaced(init)| + (if |ws| > 1 then 1 else 0) + |ws[|ws| - 1]|;
    }
  }

  lemma SetMore(indent: string, ws: seq<string>, w: string)
    ensures SetLine(indent, ws + [w]) == SetLine(indent, ws) + (if ws == [] then "" else " ") + w
  {
    assert (ws + [w])[..|ws|] == ws;
  }

  /** What the loop compares with the limit is the width of the line with the next word on it. */
  lemma LineTest(indent: string, ws: seq<string>, w: string)
    ensures |SetLine(indent, ws)| + |w| + (if ws == [] then 0 else 1) == Width(|indent|, ws + [w])
  {
    SetMore(indent, ws, w);
    SetLineWidth(indent, ws + [w]);
  }

  /** One word placed, on the current line or on a new one. */
  lemma Placed(width: int, indent: nat, laid: Layout, cur: seq<string>, words: seq<string>, k: nat)
    requires k < |words|
    ensures laid + Fill(width, indent, cur, words[k..])
            == if cur != [] && Width(indent, cur + [words[k]]) > width
               then laid + [cur] + Fill(width, indent, [words[k]], words[k + 1..])
               else laid + Fill(width, indent, cur + [words[k]], words[k + 1..])
  {
    assert words[k..][0] == words[k] && words[k..][1..] == words[k + 1..];
  }

  lemma SetLinesMore(indent: string, layout: Layout, ws: seq<string>)
    ensures SetLines(indent, layout + [ws]) == SetLines(indent, layout) + [SetLine(indent, ws)]
  {
  }

  method WrapIndent(width: int, indent: string, text: string) returns (out: string)
    ensures Blank(text) ==> out == indent
    ensures !Blank(text) ==> out == Joined(SetLines(indent,
        Fill(if width < 1 then 1 else width, |indent|, [], Fields(text))))
  {
    hide Space, Fill, Width, Spaced, SetLine, SetLines, Joined, Blank;
    var limit := if width < 1 then 1 else width;
    var words := Fields(text);
    FieldsEmpty(text);
    if words == [] { return indent; }
    var lines: seq<string>, cur, used := [], indent, |indent|;
    ghost var laid: Layout, line: seq<string> := [], [];
    NothingSet(indent);
    ghost var goal := Fill(limit, |indent|, [], words);
    assert words[0..] == words && [] + goal == goal;
    for k := 0 to |words|
      invariant laid + Fill(limit, |indent|, line, words[k..]) == goal
      invariant lines == SetLines(indent, laid)
      invariant cur == SetLine(indent, line) && used == |cur|
      invariant if k == 0 then line == [] && |cur| == |indent| else line != [] && |cur| > |indent|
    {
      var word := words[k];
      assert Word(word) && |word| > 0;
      Placed(limit, |indent|, laid, line, words, k);
      LineTest(indent, line, word);
      SetMore(indent, line, word);
      var extra := |word|;
      if |cur| > |indent| { extra := extra + 1; }
      if used + extra > limit && |cur| > |indent| {
        SetLinesMore(indent, laid, line);
        lines := lines + [cur];
        laid := laid + [line];
        cur, used, line := indent, |indent|, [];
        assert [] + [word] == [word];
        SetMore(indent, line, word);
      }
      if |cur| > |indent| {
        cur := cur + " ";
        used := used + 1;
      }
      cur := cur + word;
      used := used + |word|;
      line := line + [word];
    }
    assert words[|words|..] == [];
    LastLine(limit, |indent|, line);
    SetLinesMore(indent, laid, line);
    if |cur| > 0 { lines := lines + [cur]; }
    out := Joined(lines);
  }

  lemma NothingSet(indent: string)
    ensures SetLine(indent, []) == indent && SetLines(indent, []) == []
  {
  }

  lemma LastLine(width: int, indent: nat, cur: seq<string>)
    requires cur != []
    ensures Fill(width, indent, cur, []) == [cur]
  {
  }

  /** What the wrapped text is: a layout of the text's words, lines within the width unless they hold one word, and no
      other such layout has fewer lines. */
  lemma WrappedBest(width: int, indent: string, text: string, other: Layout)
    requires width >= 1 && LayoutOf(width, |indent|, Fields(text), other)
    ensures var layout := Fill(width, |indent|, [], Fields(text));
            && LayoutOf(width, |indent|, Fields(text), layout) && |layout| <= |other|
            && forall i | 0 <= i < |layout| :: |SetLines(indent, layout)[i]| <= width || |layout[i]| == 1
  {
    var layout := Fill(width, |indent|, [], Fields(text));
    FillIsLayout(width, |indent|, [], Fields(text));
    assert [] + Fields(text) == Fields(text);
    FewestLines(width, |indent|, Fields(text), other);
    forall i | 0 <= i < |layout| ensures |SetLines(indent, layout)[i]| <= width || |layout[i]| == 1 {
      assert Settable(width, |indent|, layout[i]);
      SetLineWidth(indent, layout[i]);
    }
  }

  // ---------- reading the wrapped text back ----------

  lemma {:induction false} RunStops(a: string, x: char, b: string)
    requires Space(x)
    ensures Run(a + [x] + b) == Run(a)
  {
    if a != "" && !Space(a[0]) {
      RunStops(a[1..], x, b);
      assert (a + [x] + b)[1..] == a[1..] + [x] + b;
    }
  }

  lemma FieldsStep(s: string)
    requires s != ""
    ensures Fields(s) == if Space(s[0]) then Fields(s[1..]) else [s[..Run(s)]] + Fields(s[Run(s)..])
  {
  }

  lemma CutBefore(a: string, x: char, b: string, n: nat)
    requires n <= |a|
    ensures (a + [x] + b)[n..] == a[n..] + [x] + b && (a + [x] + b)[..n] == a[..n]
  {
  }

  lemma RunIsPositive(a: string)
    requires a != "" && !Space(a[0])
    ensures Run(a) >= 1
  {
  }

  /** A space between two texts keeps their words apart. */
  lemma {:induction false} FieldsApart(a: string, x: char, b: string)
    requires Space(x)
    ensures Fields(a + [x] + b) == Fields(a) + Fields(b)
    decreases |a|
  {
    hide Space, Fields;
    var t := a + [x] + b;
    FieldsStep(t);
    if a == "" {
      BlankReads();
      assert t[1..] == b;
    } else if Space(a[0]) {
      FieldsStep(a);
      FieldsApart(a[1..], x, b);
      CutBefore(a, x, b, 1);
    } else {
      FieldsStep(a);
      var n := Run(a);
      RunIsPositive(a);
      RunStops(a, x, b);
      FieldsApart(a[n..], x, b);
      CutBefore(a, x, b, n);
    }
  }

  lemma {:induction false} RunWord(w: string)
    requires Word(w)
    ensures Run(w) == |w|
  {
    if |w| > 1 { RunWord(w[1..]); }
  }

  lemma {:induction false} FieldsIndented(indent: string, w: string)
    requires Blank(indent) && Word(w)
    ensures Fields(indent + w) == [w]
    decreases |indent|
  {
    if indent == "" {
      RunWord(w);
      assert indent + w == w && w[|w|..] == "" && w[..|w|] == w;
    } else {
      assert (indent + w)[1..] == indent[1..] + w && Space(indent[0]);
      FieldsIndented(indent[1..], w);
    }
  }

  lemma {:induction false} LineReads(indent: string, ws: seq<string>)
    requires Blank(indent) && ws != [] && forall w <- ws :: Word(w)
    ensures Fields(SetLine(indent, ws)) == ws
  {
    hide Space, Fields;
    var init, last := ws[..|ws| - 1], ws[|ws| - 1];
    assert ws == init + [last];
    SetMore(indent, init, last);
    if init == [] {
      NothingSet(indent);
      FieldsIndented(indent, last);
      assert indent + "" + last == indent + last;
    } else {
      LineReads(indent, init);
      SpaceIsSpace();
      FieldsApart(SetLine(indent, init), ' ', last);
      FieldsIndented("", last);
      assert "" + last == last;
    }
  }

  lemma SpaceIsSpace()
    ensures Space(' ') && Space('\n')
  {
  }

  lemma {:induction false} FlatLast(layout: Layout)
    requires layout != []
    ensures Flat(layout) == Flat(layout[..|layout| - 1]) + layout[|layout| - 1]
  {
    if |layout| > 1 {
      FlatLast(layout[1..]);
      assert layout[1..][..|layout| - 2] == layout[..|layout| - 1][1..];
    }
  }

  /** Whatever the indent of blanks, the wrapped text read back is the words laid out, in order. */
  lemma {:induction false} WrappedReads(indent: string, layout: Layout)
    requires Blank(indent) && forall ws <- layout :: ws != [] && forall w <- ws :: Word(w)
    ensures Fields(Joined(SetLines(indent, layout))) == Flat(layout)
  {
    hide Space, Fields, SetLine, Blank;
    if layout == [] {
      BlankReads();
    } else {
      var init, last := layout[..|layout| - 1], layout[|layout| - 1];
      assert layout == init + [last] && last in layout && forall ws <- init :: ws in layout;
      SetLinesMore(indent, init, last);
      var lines := SetLines(indent, layout);
      assert lines[..|lines| - 1] == SetLines(indent, init) && lines[|lines| - 1] == SetLine(indent, last);
      WrappedReads(indent, init);
      FlatLast(layout);
      LineReads(indent, last);
      if init != [] {
        SpaceIsSpace();
        FieldsApart(Joined(SetLines(indent, init)), '\n', SetLine(indent, last));
      } else {
        assert "" + "" + SetLine(indent, last) == SetLine(indent, last);
      }
    }
  }

  lemma BlankReads()
    ensures Fields("") == []
  {
  }

  /** Wrapping loses no word, adds none and changes none: the result has the words of the text. */
  lemma WrapKeepsWords(width: int, indent: string, text: string)
    requires Blank(indent)
    ensures Fields(Joined(SetLines(indent, Fill(width, |indent|, [], Fields(text))))) == Fields(text)
  {
    var ws, layout := Fields(text), Fill(width, |indent|, [], Fields(text));
    FillIsLayout(width, |indent|, [], ws);
    assert [] + ws == ws;
    hide Space, Fields;
    forall line | line in layout ensures line != [] && forall w <- line :: Word(w) {
      var i :| 0 <= i < |layout| && layout[i] == line;
      assert Settable(width, |indent|, layout[i]);
      InFlat(layout, i);
    }
    WrappedReads(indent, layout);
  }

  lemma {:induction false} InFlat(layout: Layout, i: nat)
    requires i < |layout|
    ensures forall w <- layout[i] :: w in Flat(layout)
  {
    if i > 0 {
      InFlat(layout[1..], i - 1);
      assert layout[1..][i - 1] == layout[i];
    }
  }
}
