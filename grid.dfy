/**
 * The pure part of keymapc/grid.go: the box-drawing classifier, the line trimmer,
 * the bounds-checked grid accessor, and the specification of the cell detector
 * (which positions trigger a key candidate, and which candidates are accepted).
 */
module Grid {
  import opened Wrappers
  import opened Strings
  import opened Keys

  /** Connectivity flags, one bit per direction (Go's `uint` constants). */
  type Flags = bv8

  const GridN: Flags := 1
  const GridS: Flags := 2
  const GridW: Flags := 4
  const GridE: Flags := 8

  /** The eleven glyphs the diagrams are drawn with. */
  const GridGlyphs: set<char> := {'─', '│', '┌', '┐', '└', '┘', '├', '┤', '┴', '┬', '┼'}

  /**
   * gridCharMap lookup: every glyph connects in some of the four directions and in
   * no others, and every rune outside the table has no flag.
   */
  function GridFlags(r: char): (f: Flags)
    ensures f & !(GridN | GridS | GridW | GridE) == 0
    ensures f != 0 <==> r in GridGlyphs
  {
    match r
    case '─' => GridW | GridE
    case '│' => GridN | GridS
    case '┌' => GridS | GridE
    case '┐' => GridS | GridW
    case '└' => GridN | GridE
    case '┘' => GridN | GridW
    case '├' => GridN | GridS | GridE
    case '┤' => GridN | GridS | GridW
    case '┴' => GridN | GridW | GridE
    case '┬' => GridS | GridW | GridE
    case '┼' => GridN | GridS | GridW | GridE
    case _ => 0
  }

  /** A rune is a grid rune exactly when it is one of the eleven glyphs. */
  function IsGridChar(r: char): (b: bool)
    ensures b <==> r in GridGlyphs
  {
    GridFlags(r) != 0
  }

  // ---------------------------------------------------------------------
  // The accumulated grid and its bounds-checked accessor

  /** The rows of one block, each already trimmed; rows may differ in length. */
  type Lines = seq<seq<char>>

  /** gridParser.at: the rune at column x of row y, a blank outside the grid. */
  function At(g: Lines, x: int, y: int): char
  {
    if y < 0 || y >= |g| then ' '
    else if x < 0 || x >= |g[y]| then ' '
    else g[y][x]
  }

  /** gridParser.gc */
  predicate Gc(g: Lines, x: int, y: int)
  {
    IsGridChar(At(g, x, y))
  }

  /** Reads outside the grid (negative, past the last row, past a ragged row's end) see a blank. */
  lemma OutsideIsBlank(g: Lines, x: int, y: int)
    requires !(0 <= y < |g| && 0 <= x < |g[y]|)
    ensures At(g, x, y) == ' ' && !Gc(g, x, y)
  {
  }

  /** dimLines' dx: the length of the longest row. */
  function Width(g: Lines): (w: nat)
    ensures forall y :: 0 <= y < |g| ==> |g[y]| <= w
    ensures g == [] ==> w == 0
    ensures g != [] ==> exists y :: 0 <= y < |g| && |g[y]| == w
  {
    if g == [] then 0
    else
      var w0 := Width(g[..|g| - 1]);
      assert forall y :: 0 <= y < |g| - 1 ==> g[..|g| - 1][y] == g[y];
      if |g[|g| - 1]| > w0 then |g[|g| - 1]| else w0
  }

  // ---------------------------------------------------------------------
  // The line trimmer

  /** One past the index of the last grid rune of s, or 0 when s has none. */
  function LastGridEnd(s: seq<char>): (n: nat)
    ensures n <= |s|
    ensures n > 0 ==> IsGridChar(s[n - 1])
    ensures forall i :: n <= i < |s| ==> !IsGridChar(s[i])
  {
    if s == [] then 0
    else if IsGridChar(s[|s| - 1]) then |s|
    else LastGridEnd(s[..|s| - 1])
  }

  /** The index of the first grid rune of s, or |s| when s has none. */
  function FirstGrid(s: seq<char>): (n: nat)
    ensures n <= |s|
    ensures n < |s| ==> IsGridChar(s[n])
    ensures forall i :: 0 <= i < n ==> !IsGridChar(s[i])
  {
    if s == [] then 0
    else if IsGridChar(s[0]) then 0
    else 1 + FirstGrid(s[1..])
  }

  /**
   * What trimGridLine computes: the runes of s up to and including its last grid
   * rune, with those before its first grid rune blanked; empty (Go's nil) when s
   * has no grid rune.
   */
  function TrimmedGridLine(s: seq<char>): seq<char>
  {
    var n, f := LastGridEnd(s), FirstGrid(s);
    seq(n, i requires 0 <= i < n => if i < f then ' ' else s[i])
  }

  /** The trimmer's shape, stated on the raw line alone. */
  lemma TrimmedGridLineShape(s: seq<char>)
    ensures var v := TrimmedGridLine(s);
      && (v == [] <==> forall i :: 0 <= i < |s| ==> !IsGridChar(s[i]))
      && |v| <= |s|
      && (v != [] ==> v[|v| - 1] == s[|v| - 1] && IsGridChar(v[|v| - 1]))
      && (forall j :: |v| <= j < |s| ==> !IsGridChar(s[j]))
      && (forall i :: 0 <= i < |v| && (forall j :: 0 <= j <= i ==> !IsGridChar(s[j])) ==> v[i] == ' ')
      && (forall i, j :: 0 <= j <= i < |v| && IsGridChar(s[j]) ==> v[i] == s[i])
  {
    var v := TrimmedGridLine(s);
    var n, f := LastGridEnd(s), FirstGrid(s);
    assert f < |s| ==> IsGridChar(s[f]);
    assert n > 0 ==> IsGridChar(s[n - 1]);
    assert n == 0 ==> f == |s|;
    assert n > 0 ==> f < n;
  }

  /** trimGridLine: two passes over the runes of s, as the source makes them. */
  method TrimGridLine(s: seq<char>) returns (v: seq<char>)
    ensures v == TrimmedGridLine(s)
  {
    var has := false;
    var i, last := 0, 0;
    for k := 0 to |s|
      invariant i == k
      invariant last == LastGridEnd(s[..k])
      invariant has <==> last > 0
    {
      i := i + 1;
      assert s[..k + 1][..k] == s[..k];
      if IsGridChar(s[k]) {
        has := true;
        last := i;
      }
    }
    assert s[..|s|] == s;

    if !has {
      return [];
    }

    v := [];
    var inGrid := false;
    ghost var f := FirstGrid(s);
    for k := 0 to |s|
      invariant |v| == k < last
      invariant inGrid <==> f < k
      invariant v == TrimmedGridLine(s)[..k]
    {
      var r := s[k];
      if IsGridChar(r) {
        inGrid := true;
      }
      if !inGrid {
        r := ' ';
      }
      v := v + [r];
      if |v| == last {
        break;
      }
    }
  }

  // ---------------------------------------------------------------------
  // The candidate check: addKey and keyText

  /** keyText's border test: top row and left column are grid runes, every other cell is not. */
  predicate BorderOk(g: Lines, l: int, t: int, r: int, b: int)
  {
    forall y, x :: t <= y < b && l <= x < r ==> (Gc(g, x, y) <==> (x == l || y == t))
  }

  /** The runes of row y in columns [from, to). */
  function RowSpan(g: Lines, from: int, to: int, y: int): (s: seq<char>)
    ensures |s| == if to > from then to - from else 0
  {
    seq(if to > from then to - from else 0, i => At(g, from + i, y))
  }

  /**
   * The non-edge runes of the w-by-h rectangle at (l, t), row by row, with no
   * separator: rows t+1 .. t+h-1, columns l+1 .. l+w-1.
   */
  function Interior(g: Lines, l: int, t: int, w: int, h: int): seq<char>
    decreases h
  {
    if h <= 1 then [] else Interior(g, l, t, w, h - 1) + RowSpan(g, l + 1, l + w, t + h - 1)
  }

  /** addKey's upward search for the top edge in column col, starting at row top. */
  function TopEdge(g: Lines, col: int, top: int): (t: int)
    ensures t <= top
    decreases top
  {
    if top > 0 && !Gc(g, col, top) then TopEdge(g, col, top - 1) else top
  }

  /** The search stops at the nearest grid rune at or above row top, or at row 0. */
  lemma {:induction false} TopEdgeNearest(g: Lines, col: int, top: int)
    ensures var t := TopEdge(g, col, top);
      && (t == top || t >= 0)
      && (t <= 0 || Gc(g, col, t))
      && forall y :: t < y <= top ==> !Gc(g, col, y)
    decreases top
  {
    if top > 0 && !Gc(g, col, top) {
      TopEdgeNearest(g, col, top - 1);
    }
  }

  /** What addKey(left, right, bottom) appends: a key, or nothing when the candidate is rejected. */
  function CandidateKey(g: Lines, left: int, right: int, bottom: int): Option<Key>
  {
    if left + 1 >= right || Gc(g, left + 1, bottom - 1) then None
    else
      var top := TopEdge(g, left + 1, bottom - 1);
      if BorderOk(g, left, top, right, bottom)
      then Some(Key(left, top, right - left, bottom - top, TrimSpace(Interior(g, left, top, right - left, bottom - top))))
      else None
  }

  /** An emitted key: at least 2x2, anchored inside the grid, border and label as keyText checks them. */
  ghost predicate Framed(g: Lines, k: Key)
  {
    && k.dx >= 2 && k.dy >= 2
    && 0 <= k.y < |g| && 0 <= k.x < |g[k.y]|
    && BorderOk(g, k.x, k.y, k.x + k.dx, k.y + k.dy)
    && k.labelText == TrimSpace(Interior(g, k.x, k.y, k.dx, k.dy))
  }

  /** Every key addKey accepts spans [left, right) x [top, bottom) and is framed. */
  lemma AcceptedKey(g: Lines, left: int, right: int, bottom: int, k: Key)
    requires CandidateKey(g, left, right, bottom) == Some(k)
    ensures k.x == left && k.x + k.dx == right && k.y + k.dy == bottom
    ensures Framed(g, k)
  {
    var top := TopEdge(g, left + 1, bottom - 1);
    TopEdgeNearest(g, left + 1, bottom - 1);
    assert BorderOk(g, left, top, right, bottom);
    assert k == Key(left, top, right - left, bottom - top, TrimSpace(Interior(g, left, top, right - left, bottom - top)));
    // the top-left corner lies on the top row, so it is a grid rune
    assert Gc(g, left, top);
    // the cell right of the left edge on the bottom row is not a grid rune, so it is not on the top row
    assert !Gc(g, left + 1, bottom - 1);
    assert top < bottom - 1;
    if !(0 <= top < |g| && 0 <= left < |g[top]|) {
      OutsideIsBlank(g, left, top);
    }
  }

  // ---------------------------------------------------------------------
  // The cell detector: finishGrid's scan

  /**
   * finishGrid's cursor sx at column x of row y: the column of the last grid rune
   * left of x on that row, or dx when there is none.
   */
  function Cursor(g: Lines, dx: int, x: int, y: int): int
    decreases x
  {
    if x <= 0 then dx
    else if Gc(g, x - 1, y) then x - 1
    else Cursor(g, dx, x - 1, y)
  }

  /** The cursor is the last grid column before x, or dx when the row has none there. */
  lemma {:induction false} CursorLastGrid(g: Lines, dx: int, x: int, y: int)
    ensures var sx := Cursor(g, dx, x, y);
      || (sx == dx && forall c :: 0 <= c < x ==> !Gc(g, c, y))
      || (0 <= sx < x && Gc(g, sx, y) && forall c :: sx < c < x ==> !Gc(g, c, y))
    decreases x
  {
    if x > 0 && !Gc(g, x - 1, y) {
      CursorLastGrid(g, dx, x - 1, y);
    }
  }

  /** The scan's trigger: a non-grid cell whose right and lower neighbours are grid runes. */
  predicate Trigger(g: Lines, x: int, y: int)
  {
    !Gc(g, x, y) && Gc(g, x + 1, y) && Gc(g, x, y + 1)
  }

  /** The key, if any, the scan appends at cell (x, y). */
  function Emitted(g: Lines, dx: int, x: int, y: int): Option<Key>
  {
    if Trigger(g, x, y) then CandidateKey(g, Cursor(g, dx, x, y), x + 1, y + 1) else None
  }

  /** emit(0), ..., emit(n - 1), keeping the keys that are present. */
  function Collect(emit: int -> Option<Key>, n: nat): seq<Key>
  {
    if n == 0 then [] else Collect(emit, n - 1) + OptionToSeq(emit(n - 1))
  }

  /** Collect over rows 0 .. m - 1, each over columns 0 .. dx - 1. */
  function Scan(rows: int -> (int -> Option<Key>), dx: nat, m: nat): seq<Key>
  {
    if m == 0 then [] else Scan(rows, dx, m - 1) + Collect(rows(m - 1), dx)
  }

  /** Row y of the scan, as a function of the column. */
  function RowEmit(g: Lines, dx: int, y: int): int -> Option<Key>
  {
    x => Emitted(g, dx, x, y)
  }

  /** All rows of the scan. */
  function Rows(g: Lines, dx: int): int -> (int -> Option<Key>)
  {
    y => RowEmit(g, dx, y)
  }

  /** Keys the scan appends in row y at columns [0, n). */
  function RowKeys(g: Lines, dx: int, y: int, n: nat): seq<Key>
  {
    Collect(RowEmit(g, dx, y), n)
  }

  /** Keys the scan appends in rows [0, m), each row scanned over columns [0, dx). */
  function ScanKeys(g: Lines, dx: nat, m: nat): seq<Key>
  {
    Scan(Rows(g, dx), dx, m)
  }

  /** The keys finishGrid detects in a block. */
  function Detect(g: Lines): seq<Key>
  {
    ScanKeys(g, Width(g), |g|)
  }

  /** The bottom-right border intersection a key was found at. */
  function Corner(k: Key): (int, int)
  {
    (k.x + k.dx, k.y + k.dy)
  }

  /** Strict row-major order of corners: the order the scan visits them. */
  predicate Before(a: Key, b: Key)
  {
    a.y + a.dy < b.y + b.dy || (a.y + a.dy == b.y + b.dy && a.x + a.dx < b.x + b.dx)
  }

  /** Collect keeps exactly the present values: each one comes from some column, and none is lost. */
  lemma {:induction false} CollectMembers(emit: int -> Option<Key>, n: nat)
    ensures forall k :: k in Collect(emit, n) ==> exists x :: 0 <= x < n && emit(x) == Some(k)
    ensures forall x :: 0 <= x < n && emit(x).Some? ==> emit(x).value in Collect(emit, n)
  {
    if n > 0 {
      CollectMembers(emit, n - 1);
    }
  }

  /** Scan keeps exactly the present values of rows [0, m) and columns [0, dx). */
  lemma {:induction false} ScanMembers(rows: int -> (int -> Option<Key>), dx: nat, m: nat)
    ensures forall k :: k in Scan(rows, dx, m) ==>
      exists x, y :: 0 <= y < m && 0 <= x < dx && rows(y)(x) == Some(k)
    ensures forall y, x :: 0 <= y < m && 0 <= x < dx && rows(y)(x).Some? ==> rows(y)(x).value in Scan(rows, dx, m)
  {
    if m > 0 {
      ScanMembers(rows, dx, m - 1);
      CollectMembers(rows(m - 1), dx);
      forall k | k in Scan(rows, dx, m)
        ensures exists x, y :: 0 <= y < m && 0 <= x < dx && rows(y)(x) == Some(k)
      {
        if k in Collect(rows(m - 1), dx) {
          var x :| 0 <= x < dx && rows(m - 1)(x) == Some(k);
        } else {
          assert k in Scan(rows, dx, m - 1);
          var x, y :| 0 <= y < m - 1 && 0 <= x < dx && rows(y)(x) == Some(k);
        }
      }
    }
  }

  /** A key emitted at (x, y) has its corner at (x + 1, y + 1), and the dx fallback is never accepted. */
  lemma EmittedCorner(g: Lines, dx: int, x: int, y: int, k: Key)
    requires Emitted(g, dx, x, y) == Some(k)
    ensures Corner(k) == (x + 1, y + 1)
    ensures k.x == Cursor(g, dx, x, y) < x
  {
  }

  /** A key emitted at (x, y) is framed and was found at a trigger cell, starting at the cursor. */
  lemma EmittedSound(g: Lines, dx: int, x: int, y: int, k: Key)
    requires Emitted(g, dx, x, y) == Some(k)
    ensures Framed(g, k)
    ensures Trigger(g, k.x + k.dx - 1, k.y + k.dy - 1)
    ensures 0 <= k.x < k.x + k.dx - 1
    ensures k.x == Cursor(g, dx, k.x + k.dx - 1, k.y + k.dy - 1)
  {
    EmittedCorner(g, dx, x, y, k);
    AcceptedKey(g, Cursor(g, dx, x, y), x + 1, y + 1, k);
    assert k.x + k.dx - 1 == x && k.y + k.dy - 1 == y;
  }

  /** Rows(g, dx) applied to a cell is that cell's emitted key. */
  lemma RowsAt(g: Lines, dx: int, x: int, y: int)
    ensures Rows(g, dx)(y)(x) == Emitted(g, dx, x, y)
  {
    assert RowEmit(g, dx, y)(x) == Emitted(g, dx, x, y);
  }

  /** Every key the scan of rows [0, m) and columns [0, dx) appends is emitted by one of those cells. */
  lemma ScanKeysFrom(g: Lines, dx: nat, m: nat)
    ensures forall k :: k in ScanKeys(g, dx, m) ==>
      exists x, y :: 0 <= y < m && 0 <= x < dx && Emitted(g, dx, x, y) == Some(k)
  {
    var rows := Rows(g, dx);
    forall k | k in ScanKeys(g, dx, m)
      ensures exists x, y :: 0 <= y < m && 0 <= x < dx && Emitted(g, dx, x, y) == Some(k)
    {
      ScanMembers(rows, dx, m);
      var x, y :| 0 <= y < m && 0 <= x < dx && rows(y)(x) == Some(k);
      RowsAt(g, dx, x, y);
    }
  }

  /** Every key one of the cells of rows [0, m) and columns [0, dx) emits is appended by the scan. */
  lemma ScanKeysAll(g: Lines, dx: nat, m: nat)
    ensures forall x, y :: 0 <= y < m && 0 <= x < dx && Emitted(g, dx, x, y).Some? ==>
      Emitted(g, dx, x, y).value in ScanKeys(g, dx, m)
  {
    var rows := Rows(g, dx);
    forall x, y | 0 <= y < m && 0 <= x < dx && Emitted(g, dx, x, y).Some?
      ensures Emitted(g, dx, x, y).value in ScanKeys(g, dx, m)
    {
      ScanMembers(rows, dx, m);
      RowsAt(g, dx, x, y);
    }
  }

  /** Some cell of the scanned area of g emits k. */
  ghost predicate EmittedIn(g: Lines, k: Key)
  {
    exists x, y :: 0 <= y < |g| && 0 <= x < Width(g) && Emitted(g, Width(g), x, y) == Some(k)
  }

  /** Every detected key is emitted by a cell of the scanned area. */
  lemma DetectFrom(g: Lines)
    ensures forall k :: k in Detect(g) ==> EmittedIn(g, k)
  {
    forall k | k in Detect(g)
      ensures EmittedIn(g, k)
    {
      ScanKeysFrom(g, Width(g), |g|);
      var x, y :| 0 <= y < |g| && 0 <= x < Width(g) && Emitted(g, Width(g), x, y) == Some(k);
    }
  }

  /** Every key a cell of the scanned area emits is detected. */
  lemma DetectAll(g: Lines)
    ensures forall x, y :: 0 <= y < |g| && 0 <= x < Width(g) && Emitted(g, Width(g), x, y).Some? ==>
      Emitted(g, Width(g), x, y).value in Detect(g)
  {
    ScanKeysAll(g, Width(g), |g|);
  }

  /** A key is detected exactly when some cell of the scanned area emits it. */
  lemma DetectExact(g: Lines)
    ensures forall k :: k in Detect(g) <==> EmittedIn(g, k)
  {
    DetectFrom(g);
    forall k | EmittedIn(g, k)
      ensures k in Detect(g)
    {
      var x, y :| 0 <= y < |g| && 0 <= x < Width(g) && Emitted(g, Width(g), x, y) == Some(k);
      DetectAll(g);
    }
  }

  /**
   * The converse of DetectSound: a framed key whose lower-right corner cell is a
   * trigger and whose left edge is that row's cursor is detected.
   */
  lemma DetectComplete(g: Lines, k: Key)
    requires Framed(g, k)
    requires Trigger(g, k.x + k.dx - 1, k.y + k.dy - 1)
    requires k.x == Cursor(g, Width(g), k.x + k.dx - 1, k.y + k.dy - 1)
    ensures k in Detect(g)
  {
    var x, y := k.x + k.dx - 1, k.y + k.dy - 1;
    // the trigger's right neighbour is a grid rune, so the cell lies inside the scan
    if !(0 <= y < |g| && 0 <= x + 1 < |g[y]|) {
      OutsideIsBlank(g, x + 1, y);
    }
    assert 0 <= x < Width(g);
    // the column right of the left edge is blank below the top row and a grid rune on it
    assert !Gc(g, k.x + 1, y);
    TopEdgeNearest(g, k.x + 1, y);
    assert Gc(g, k.x + 1, k.y);
    assert TopEdge(g, k.x + 1, y) == k.y;
    assert CandidateKey(g, k.x, x + 1, y + 1) == Some(k);
    assert Emitted(g, Width(g), x, y) == Some(k);
    DetectAll(g);
  }

  /** Every detected key is framed, sits at a trigger cell, and starts at that row's cursor. */
  lemma DetectSound(g: Lines)
    ensures forall k :: k in Detect(g) ==>
      && Framed(g, k)
      && Trigger(g, k.x + k.dx - 1, k.y + k.dy - 1)
      && 0 <= k.x < k.x + k.dx - 1
      && k.x == Cursor(g, Width(g), k.x + k.dx - 1, k.y + k.dy - 1)
  {
    DetectFrom(g);
    forall k | k in Detect(g)
      ensures && Framed(g, k)
              && Trigger(g, k.x + k.dx - 1, k.y + k.dy - 1)
              && 0 <= k.x < k.x + k.dx - 1
              && k.x == Cursor(g, Width(g), k.x + k.dx - 1, k.y + k.dy - 1)
    {
      var x, y :| 0 <= y < |g| && 0 <= x < Width(g) && Emitted(g, Width(g), x, y) == Some(k);
      EmittedSound(g, Width(g), x, y, k);
    }
  }

  lemma {:induction false} CollectOrdered(emit: int -> Option<Key>, n: nat, y: int)
    requires forall x :: 0 <= x < n && emit(x).Some? ==> Corner(emit(x).value) == (x + 1, y + 1)
    ensures forall k :: k in Collect(emit, n) ==> k.y + k.dy == y + 1 && k.x + k.dx <= n
    ensures forall i, j :: 0 <= i < j < |Collect(emit, n)| ==> Before(Collect(emit, n)[i], Collect(emit, n)[j])
  {
    if n > 0 {
      CollectOrdered(emit, n - 1, y);
    }
  }

  lemma {:induction false} ScanOrdered(rows: int -> (int -> Option<Key>), dx: nat, m: nat)
    requires forall y, x :: 0 <= y < m && 0 <= x < dx && rows(y)(x).Some? ==>
      Corner(rows(y)(x).value) == (x + 1, y + 1)
    ensures forall k :: k in Scan(rows, dx, m) ==> k.y + k.dy <= m
    ensures forall i, j :: 0 <= i < j < |Scan(rows, dx, m)| ==>
      Before(Scan(rows, dx, m)[i], Scan(rows, dx, m)[j])
  {
    if m > 0 {
      ScanOrdered(rows, dx, m - 1);
      CollectOrdered(rows(m - 1), dx, m - 1);
      var a, b := Scan(rows, dx, m - 1), Collect(rows(m - 1), dx);
      assert Scan(rows, dx, m) == a + b;
      forall i, j | 0 <= i < j < |a + b| ensures Before((a + b)[i], (a + b)[j]) {
        if j < |a| {
          assert (a + b)[i] == a[i] && (a + b)[j] == a[j];
        } else if i >= |a| {
          assert (a + b)[i] == b[i - |a|] && (a + b)[j] == b[j - |a|];
        } else {
          assert (a + b)[i] == a[i] && a[i] in a;
          assert (a + b)[j] == b[j - |a|] && b[j - |a|] in b;
        }
      }
    }
  }

  /** Keys come out in the row-major order of their bottom-right corners, so no two share one. */
  lemma DetectOrdered(g: Lines)
    ensures forall i, j :: 0 <= i < j < |Detect(g)| ==> Before(Detect(g)[i], Detect(g)[j])
  {
    var rows := Rows(g, Width(g));
    forall y, x | 0 <= y < |g| && 0 <= x < Width(g) && rows(y)(x).Some?
      ensures Corner(rows(y)(x).value) == (x + 1, y + 1)
    {
      EmittedCorner(g, Width(g), x, y, rows(y)(x).value);
    }
    ScanOrdered(rows, Width(g), |g|);
  }
}
