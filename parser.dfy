/**
 * keymapc/grid.go's gridParser: the block state machine fed one line at a time,
 * as a class whose methods are proved against the pure transition functions
 * Step and Finish.
 */
module Parser {
  import opened Wrappers
  import opened Strings
  import opened Keys
  import opened Grid

  /** The parser's fields, as a value. */
  datatype State = State(title: string, grid: bool, lines: Lines, cur: Keymap, keymaps: seq<Keymap>)

  /** A zeroed gridParser. */
  const Init: State := State("", false, [], Keymap("", []), [])

  /** What finishGrid does to the fields. */
  function Finish(st: State): State
  {
    if st.lines == [] then st.(grid := false)
    else
      var cur := Keymap(st.title, Detect(st.lines));
      st.(grid := false, lines := [], cur := cur,
          keymaps := if cur.keys != [] then st.keymaps + [cur] else st.keymaps)
  }

  /** Does the trimmed line open a block? */
  predicate Opens(s: string)
  {
    HasPrefix(TrimSpace(s), "/*")
  }

  /** Does the trimmed line close a block? */
  predicate Closes(s: string)
  {
    TrimSpace(s) == "*/"
  }

  /** The title of an opening line: the raw line without its first two runes, trimmed. */
  function Title(s: string): string
    requires Opens(s)
  {
    TrimSpace(s[2..])
  }

  /** A line starting with the opening marker still starts with it once trimmed. */
  lemma MarkerSurvivesTrim(rest: string)
    ensures HasPrefix(TrimSpace("/*" + rest), "/*")
  {
    var t := "/*" + rest;
    assert TrimLeftSpace(t) == t;
    TrimRightSpacePrefix(t);
    var r := TrimRightSpace(t);
    TrimRightSpaceKeeps(t, 1);
    assert r[..2] == t[..2];
  }

  /**
   * Every line made of white space w, the opening marker and the rest opens a block.
   * The title is cut from the raw line, not the trimmed one: it is the trimmed rest
   * when the marker starts the line, and an opening line indented by two runes or
   * more keeps its whole marker in the title.
   */
  lemma OpenerTitle(w: string, rest: string)
    requires AllSpace(w)
    ensures Opens(w + "/*" + rest)
    ensures |w| == 0 ==> Title(w + "/*" + rest) == TrimSpace(rest)
    ensures |w| == 1 ==> Title(w + "/*" + rest) == TrimSpace("*" + rest)
    ensures |w| >= 2 ==> Title(w + "/*" + rest) == TrimSpace("/*" + rest)
  {
    var s := w + "/*" + rest;
    assert s == w + ("/*" + rest);
    TrimLeftSpaceAfterSpace(w, "/*" + rest);
    MarkerSurvivesTrim(rest);
    if |w| == 0 {
      assert s[2..] == rest;
    } else if |w| == 1 {
      assert s[2..] == "*" + rest;
    } else {
      assert s[2..] == w[2..] + ("/*" + rest);
      assert forall i :: 0 <= i < |w[2..]| ==> w[2..][i] == w[i + 2];
      TrimLeftSpaceAfterSpace(w[2..], "/*" + rest);
    }
  }

  /** What line(s) does to the fields. */
  function Step(st: State, s: string): State
  {
    if Opens(s) then st.(title := Title(s), grid := true)
    else if !st.grid then st
    else if Closes(s) then Finish(st)
    else
      var l := TrimmedGridLine(s);
      if l != [] then st.(lines := st.lines + [l]) else st
  }

  /** The fields after feeding ls, in order, to a parser in state st. */
  function Feed(st: State, ls: seq<string>): State
  {
    if ls == [] then st else Step(Feed(st, ls[..|ls| - 1]), ls[|ls| - 1])
  }

  /** The number of closing lines in ls. */
  function Closings(ls: seq<string>): (n: nat)
    ensures n <= |ls|
  {
    if ls == [] then 0 else Closings(ls[..|ls| - 1]) + (if Closes(ls[|ls| - 1]) then 1 else 0)
  }

  /** The shape of every key addKey appends: at least 2x2, anchored at non-negative coordinates, label unpadded. */
  ghost predicate KeyShape(k: Key)
  {
    && k.dx >= 2 && k.dy >= 2 && k.x >= 0 && k.y >= 0
    && (k.labelText != [] ==> !IsSpace(k.labelText[0]) && !IsSpace(k.labelText[|k.labelText| - 1]))
  }

  /** A keymap as finishGrid appends it: non-empty, keys well shaped, corners in scan order. */
  ghost predicate WellFormed(km: Keymap)
  {
    && km.keys != []
    && (forall k :: k in km.keys ==> KeyShape(k))
    && (forall i, j :: 0 <= i < j < |km.keys| ==> Before(km.keys[i], km.keys[j]))
  }

  /** No line both opens and closes a block, so a closing line is never taken for a title. */
  lemma OpensOrCloses(s: string)
    ensures !(Opens(s) && Closes(s))
  {
    if Closes(s) {
      assert TrimSpace(s)[0] == '*';
    }
  }

  /** finishGrid clears the block and appends exactly one keymap, with the block's title, iff it detected a key. */
  lemma FinishEffects(st: State)
    ensures !Finish(st).grid && Finish(st).lines == []
    ensures Finish(st).title == st.title
    ensures var added := st.lines != [] && Detect(st.lines) != [];
      Finish(st).keymaps == st.keymaps + (if added then [Keymap(st.title, Detect(st.lines))] else [])
  {
  }

  /** A line changes the keymap list only when it closes an open block that holds keys. */
  lemma StepKeymaps(st: State, s: string)
    ensures var closed := st.grid && Closes(s) && st.lines != [] && Detect(st.lines) != [];
      Step(st, s).keymaps == st.keymaps + (if closed then [Keymap(st.title, Detect(st.lines))] else [])
  {
    OpensOrCloses(s);
    FinishEffects(st);
  }

  /** Outside a block every line but an opening one is ignored; an opening line never touches lines or keymaps. */
  lemma StepOutsideBlock(st: State, s: string)
    ensures !st.grid && !Opens(s) ==> Step(st, s) == st
    ensures Opens(s) ==> Step(st, s).grid && Step(st, s).lines == st.lines && Step(st, s).keymaps == st.keymaps
  {
  }

  /**
   * Inside a block, a line that neither opens nor closes it adds its trimmed form to
   * the grid when it holds a grid rune; any other line (blank, white space, prose)
   * leaves the state unchanged.
   */
  lemma StepInBlock(st: State, s: string)
    requires st.grid && !Opens(s) && !Closes(s)
    ensures (forall i :: 0 <= i < |s| ==> !IsGridChar(s[i])) ==> Step(st, s) == st
    ensures (exists i :: 0 <= i < |s| && IsGridChar(s[i])) ==>
      Step(st, s) == st.(lines := st.lines + [TrimmedGridLine(s)])
  {
    TrimmedGridLineShape(s);
  }

  /** Feeding ls then rest is feeding ls + rest. */
  lemma {:induction false} FeedAppend(st: State, ls: seq<string>, rest: seq<string>)
    ensures Feed(st, ls + rest) == Feed(Feed(st, ls), rest)
    decreases |rest|
  {
    if rest == [] {
      assert ls + rest == ls;
    } else {
      var init := rest[..|rest| - 1];
      FeedAppend(st, ls, init);
      assert (ls + rest)[..|ls + rest| - 1] == ls + init;
      assert (ls + rest)[|ls + rest| - 1] == rest[|rest| - 1];
    }
  }

  /** Keymaps are only ever appended, at most one per closing line. */
  lemma {:induction false} FeedKeymapsGrow(st: State, ls: seq<string>)
    ensures st.keymaps <= Feed(st, ls).keymaps
    ensures |Feed(st, ls).keymaps| <= |st.keymaps| + Closings(ls)
  {
    if ls != [] {
      var s := ls[|ls| - 1];
      FeedKeymapsGrow(st, ls[..|ls| - 1]);
      StepKeymaps(Feed(st, ls[..|ls| - 1]), s);
    }
  }

  /** Lines with no closing line among them add no keymap. */
  lemma {:induction false} UnclosedAddsNothing(st: State, ls: seq<string>)
    requires forall i :: 0 <= i < |ls| ==> !Closes(ls[i])
    ensures Feed(st, ls).keymaps == st.keymaps
  {
    if ls != [] {
      UnclosedAddsNothing(st, ls[..|ls| - 1]);
      StepKeymaps(Feed(st, ls[..|ls| - 1]), ls[|ls| - 1]);
    }
  }

  /** A framed key has the shape addKey promises. */
  lemma FramedShape(g: Lines, k: Key)
    requires Framed(g, k)
    ensures KeyShape(k)
  {
    TrimSpaceTrims(Interior(g, k.x, k.y, k.dx, k.dy));
  }

  /** Every keymap finishGrid appends is well formed. */
  lemma DetectWellFormed(title: string, g: Lines)
    requires Detect(g) != []
    ensures WellFormed(Keymap(title, Detect(g)))
  {
    DetectSound(g);
    DetectOrdered(g);
    forall k | k in Detect(g)
      ensures KeyShape(k)
    {
      FramedShape(g, k);
    }
  }

  /** Feeding lines keeps every collected keymap well formed. */
  lemma {:induction false} FeedWellFormed(st: State, ls: seq<string>)
    requires forall km :: km in st.keymaps ==> WellFormed(km)
    ensures forall km :: km in Feed(st, ls).keymaps ==> WellFormed(km)
  {
    if ls != [] {
      var prev := Feed(st, ls[..|ls| - 1]);
      FeedWellFormed(st, ls[..|ls| - 1]);
      StepKeymaps(prev, ls[|ls| - 1]);
      if prev.lines != [] && Detect(prev.lines) != [] {
        DetectWellFormed(prev.title, prev.lines);
      }
    }
  }

  /** One column of finishGrid's inner loop: what it appends and where the cursor moves. */
  lemma ScanStep(g: Lines, dx: nat, y: int, x: nat)
    ensures RowKeys(g, dx, y, x + 1) == RowKeys(g, dx, y, x) +
      (if Gc(g, x, y) || !(Gc(g, x + 1, y) && Gc(g, x, y + 1)) then []
       else OptionToSeq(CandidateKey(g, Cursor(g, dx, x, y), x + 1, y + 1)))
    ensures Cursor(g, dx, x + 1, y) == if Gc(g, x, y) then x else Cursor(g, dx, x, y)
  {
    assert RowEmit(g, dx, y)(x) == Emitted(g, dx, x, y);
  }

  /** One row of finishGrid's outer loop. */
  lemma ScanRow(g: Lines, dx: nat, y: nat)
    ensures ScanKeys(g, dx, y + 1) == ScanKeys(g, dx, y) + RowKeys(g, dx, y, dx)
  {
    assert Rows(g, dx)(y) == RowEmit(g, dx, y);
  }

  lemma AppendAssoc<T>(a: seq<T>, b: seq<T>, c: seq<T>)
    ensures a + b + c == a + (b + c)
  {
  }

  class GridParser {
    var title: string
    var grid: bool
    var lines: Lines
    var cur: Keymap
    var keymaps: seq<Keymap>

    /** The fields as a State value. */
    function Model(): State
      reads this
    {
      State(title, grid, lines, cur, keymaps)
    }

    /** Go's zero value of gridParser. */
    constructor ()
      ensures Model() == Init
    {
      title, grid, lines, cur, keymaps := "", false, [], Keymap("", []), [];
    }

    /** gridParser.line */
    method Line(s: string)
      modifies this
      ensures Model() == Step(old(Model()), s)
    {
      var trimd := TrimSpace(s);
      if HasPrefix(trimd, "/*") {
        title := TrimSpace(s[2..]);
        grid := true;
        return;
      }
      if !grid {
        return;
      }
      if trimd == "*/" {
        FinishGrid();
        return;
      }
      var l := TrimGridLine(s);
      if l != [] {
        lines := lines + [l];
      }
    }

    /** gridParser.finishGrid */
    method FinishGrid()
      modifies this
      ensures Model() == Finish(old(Model()))
    {
      grid := false;
      if |lines| == 0 {
        return;
      }
      var dx, dy := DimLines();
      cur := Keymap(title, []);
      for y := 0 to dy
        invariant cur == Keymap(title, ScanKeys(lines, dx, y))
        invariant title == old(title) && lines == old(lines) && keymaps == old(keymaps) && !grid
      {
        var sx := dx;
        for x := 0 to dx
          invariant cur == Keymap(title, ScanKeys(lines, dx, y) + RowKeys(lines, dx, y, x))
          invariant sx == Cursor(lines, dx, x, y)
          invariant title == old(title) && lines == old(lines) && keymaps == old(keymaps) && !grid
        {
          ScanStep(lines, dx, y, x);
          ghost var done, row := ScanKeys(lines, dx, y), RowKeys(lines, dx, y, x);
          if Gc(lines, x, y) {
            sx := x;
            assert RowKeys(lines, dx, y, x + 1) == row + [] == row;
          } else if Gc(lines, x + 1, y) && Gc(lines, x, y + 1) {
            ghost var found := OptionToSeq(CandidateKey(lines, sx, x + 1, y + 1));
            AddKey(sx, x + 1, y + 1);
            AppendAssoc(done, row, found);
            assert cur.keys == done + RowKeys(lines, dx, y, x + 1);
          } else {
            assert RowKeys(lines, dx, y, x + 1) == row + [] == row;
          }
        }
        ScanRow(lines, dx, y);
      }
      if |cur.keys| != 0 {
        keymaps := keymaps + [cur];
      }
      lines := [];
    }

    /** gridParser.addKey */
    method AddKey(left: int, right: int, bottom: int)
      modifies this
      ensures cur == old(cur).(keys := old(cur.keys) + OptionToSeq(CandidateKey(lines, left, right, bottom)))
      ensures title == old(title) && grid == old(grid) && lines == old(lines) && keymaps == old(keymaps)
    {
      if left + 1 >= right || Gc(lines, left + 1, bottom - 1) {
        return;
      }
      var top := bottom - 1;
      while top > 0 && !Gc(lines, left + 1, top)
        invariant TopEdge(lines, left + 1, top) == TopEdge(lines, left + 1, bottom - 1)
        decreases top
      {
        top := top - 1;
      }
      var text, ok := KeyText(left, top, right, bottom);
      if !ok {
        return;
      }
      cur := cur.(keys := cur.keys + [Key(left, top, right - left, bottom - top, text)]);
    }

    /** gridParser.keyText: checks the border of [l, r) x [t, b) and collects its interior. */
    method KeyText(l: int, t: int, r: int, b: int) returns (text: string, ok: bool)
      ensures ok == BorderOk(lines, l, t, r, b)
      ensures text == if ok then TrimSpace(Interior(lines, l, t, r - l, b - t)) else ""
    {
      var builder := [];
      var y := t;
      while y < b
        invariant y == t || t < y <= b
        invariant BorderOk(lines, l, t, r, y)
        invariant builder == Interior(lines, l, t, r - l, y - t)
        decreases b - y
      {
        var x := l;
        while x < r
          invariant x == l || l < x <= r
          invariant forall c :: l <= c < x ==> (Gc(lines, c, y) <==> (c == l || y == t))
          invariant builder == Interior(lines, l, t, r - l, y - t) + (if y == t then [] else RowSpan(lines, l + 1, x, y))
          decreases r - x
        {
          var isEdge := x == l || y == t;
          if Gc(lines, x, y) != isEdge {
            return "", false;
          }
          if !isEdge {
            builder := builder + [At(lines, x, y)];
          }
          x := x + 1;
        }
        assert RowSpan(lines, l + 1, x, y) == RowSpan(lines, l + 1, r, y);
        assert y > t ==> Interior(lines, l, t, r - l, y + 1 - t) == Interior(lines, l, t, r - l, y - t) + RowSpan(lines, l + 1, r, y);
        y := y + 1;
      }
      assert Interior(lines, l, t, r - l, y - t) == Interior(lines, l, t, r - l, b - t);
      return TrimSpace(builder), true;
    }

    /** gridParser.dimLines: the longest row's length and the number of rows. */
    method DimLines() returns (dx: int, dy: int)
      ensures dx == Width(lines) && dy == |lines|
    {
      dx := 0;
      for i := 0 to |lines|
        invariant dx == Width(lines[..i])
      {
        assert lines[..i + 1][..i] == lines[..i];
        if |lines[i]| > dx {
          dx := |lines[i]|;
        }
      }
      assert lines[..|lines|] == lines;
      dy := |lines|;
    }
  }
}
