/**
 * The integer layout rules of render.go: which keymaps are drawn, the canvas
 * bounding box, grid-to-pixel conversion, and where each label is placed.
 * Fonts, pixels and PNG output are not modelled; the text measurement that
 * freetype performs is a parameter.
 */
module Render {
  import opened Wrappers
  import opened Strings
  import opened Keys

  // ---------------------------------------------------------------------
  // Go integer division and the image package's geometry

  function Abs(a: int): nat
  {
    if a < 0 then -a else a
  }

  /** Division by a positive d, truncated toward zero. */
  function QuotPos(a: int, d: int): int
    requires d > 0
  {
    if a >= 0 then a / d else -((-a) / d)
  }

  /** Go's integer `/`: the quotient truncated toward zero. */
  function Quot(a: int, b: int): int
    requires b != 0
  {
    if b > 0 then QuotPos(a, b) else -QuotPos(a, -b)
  }

  lemma DivMod(n: nat, d: nat)
    requires d > 0
    ensures n == (n / d) * d + n % d && 0 <= n % d < d
  {
  }

  lemma QuotPosRemainder(a: int, d: int)
    requires d > 0
    ensures var r := a - QuotPos(a, d) * d;
      (a >= 0 ==> 0 <= r < d) && (a < 0 ==> -d < r <= 0)
  {
    if a >= 0 {
      DivMod(a, d);
    } else {
      DivMod(-a, d);
      assert QuotPos(a, d) * d == -(((-a) / d) * d);
    }
  }

  /** Truncating division leaves a remainder smaller than the divisor, carrying the dividend's sign. */
  lemma QuotRemainder(a: int, b: int)
    requires b != 0
    ensures var r := a - Quot(a, b) * b;
      (a >= 0 ==> 0 <= r < Abs(b)) && (a < 0 ==> 0 < r + Abs(b) && r <= 0)
  {
    if b > 0 {
      assert Quot(a, b) == QuotPos(a, b);
      QuotPosRemainder(a, b);
    } else {
      var q := QuotPos(a, -b);
      assert Quot(a, b) == -q;
      QuotPosRemainder(a, -b);
      assert -q * b == q * -b;
    }
  }

  /** Halving truncates toward zero: 2 * Quot(a, 2) is a, or one step closer to zero. */
  lemma QuotTwo(a: int)
    ensures a >= 0 ==> a - 1 <= 2 * Quot(a, 2) <= a
    ensures a < 0 ==> a <= 2 * Quot(a, 2) <= a + 1
  {
    QuotRemainder(a, 2);
  }

  lemma MulLe(x: int, y: int, b: int)
    requires x <= y && b >= 0
    ensures x * b <= y * b
  {
  }

  lemma QuotSign(a: int, b: int)
    requires b > 0
    ensures a >= 0 ==> Quot(a, b) >= 0
    ensures a < 0 ==> Quot(a, b) <= 0
  {
  }

  /** Truncating division by a positive number is non-decreasing in the dividend. */
  lemma QuotMonotone(a: int, a': int, b: int)
    requires b > 0 && a <= a'
    ensures Quot(a, b) <= Quot(a', b)
  {
    var q, q' := Quot(a, b), Quot(a', b);
    QuotRemainder(a, b);
    QuotRemainder(a', b);
    QuotSign(a, b);
    QuotSign(a', b);
    if q > q' {
      MulLe(q' + 1, q, b);
    }
  }

  /** n grid units in pixels, at unit pixels per per grid units: Go's n*unit/per. */
  function Scale(n: int, unit: int, per: int): int
    requires per != 0
  {
    Quot(n * unit, per)
  }

  /** Zero units are zero pixels, and with a non-negative unit and positive per, more units are never fewer pixels. */
  lemma ScaleMonotone(n: int, n': int, unit: int, per: int)
    requires per > 0 && unit >= 0 && n <= n'
    ensures Scale(0, unit, per) == 0
    ensures Scale(n, unit, per) <= Scale(n', unit, per)
  {
    MulLe(n, n', unit);
    QuotMonotone(n * unit, n' * unit, per);
  }

  datatype Point = Point(x: int, y: int)

  /** image.Rectangle: Min is inclusive, Max exclusive. */
  datatype Rectangle = Rectangle(min: Point, max: Point)

  predicate WellOrdered(r: Rectangle)
  {
    r.min.x <= r.max.x && r.min.y <= r.max.y
  }

  /** image.Rect: the rectangle with corners (x0, y0) and (x1, y1), coordinates swapped into order. */
  function Rect(x0: int, y0: int, x1: int, y1: int): (r: Rectangle)
    ensures WellOrdered(r)
    ensures (r.min.x, r.max.x) == (x0, x1) || (r.min.x, r.max.x) == (x1, x0)
    ensures (r.min.y, r.max.y) == (y0, y1) || (r.min.y, r.max.y) == (y1, y0)
    ensures x0 <= x1 && y0 <= y1 ==> r == Rectangle(Point(x0, y0), Point(x1, y1))
  {
    var (lx, hx) := if x0 > x1 then (x1, x0) else (x0, x1);
    var (ly, hy) := if y0 > y1 then (y1, y0) else (y0, y1);
    Rectangle(Point(lx, ly), Point(hx, hy))
  }

  /** rectCenter */
  function RectCenter(r: Rectangle): Point
  {
    Point(Quot(r.min.x + r.max.x, 2), Quot(r.min.y + r.max.y, 2))
  }

  /** The centre of a well-ordered rectangle lies within it (on its closed hull). */
  lemma RectCenterInside(r: Rectangle)
    requires WellOrdered(r)
    ensures var c := RectCenter(r);
      r.min.x <= c.x <= r.max.x && r.min.y <= c.y <= r.max.y
  {
    QuotTwo(r.min.x + r.max.x);
    QuotTwo(r.min.y + r.max.y);
  }

  /**
   * adjustText: the offset that moves the text box tr into the label box lr,
   * centred by default, or flush with the edge that rel names.
   */
  function AdjustText(rel: string, tr: Rectangle, lr: Rectangle): (p: Point)
    ensures HasPrefix(rel, "top") ==> tr.min.y + p.y == lr.min.y
    ensures !HasPrefix(rel, "top") && HasPrefix(rel, "bottom") ==> tr.max.y + p.y == lr.max.y
    ensures HasSuffix(rel, "left") ==> tr.min.x + p.x == lr.min.x
    ensures !HasSuffix(rel, "left") && HasSuffix(rel, "right") ==> tr.max.x + p.x == lr.max.x
  {
    var lc := RectCenter(lr);
    var tc := RectCenter(tr);
    var x := if HasSuffix(rel, "left") then lr.min.x - tr.min.x
             else if HasSuffix(rel, "right") then lr.max.x - tr.max.x
             else lc.x - tc.x;
    var y := if HasPrefix(rel, "top") then lr.min.y - tr.min.y
             else if HasPrefix(rel, "bottom") then lr.max.y - tr.max.y
             else lc.y - tc.y;
    Point(x, y)
  }

  /**
   * On an axis rel does not anchor, the moved text box's centre is the label
   * box's centre to within one pixel (the sums of the two edges differ by at most 2).
   */
  lemma AdjustTextCentres(rel: string, tr: Rectangle, lr: Rectangle)
    ensures var p := AdjustText(rel, tr, lr);
      !HasSuffix(rel, "left") && !HasSuffix(rel, "right") ==>
        -2 <= (tr.min.x + p.x) + (tr.max.x + p.x) - (lr.min.x + lr.max.x) <= 2
    ensures var p := AdjustText(rel, tr, lr);
      !HasPrefix(rel, "top") && !HasPrefix(rel, "bottom") ==>
        -2 <= (tr.min.y + p.y) + (tr.max.y + p.y) - (lr.min.y + lr.max.y) <= 2
  {
    QuotTwo(tr.min.x + tr.max.x);
    QuotTwo(lr.min.x + lr.max.x);
    QuotTwo(tr.min.y + tr.max.y);
    QuotTwo(lr.min.y + lr.max.y);
  }

  // ---------------------------------------------------------------------
  // Configuration and the keymap selection rules

  /** A [[Label]] table of the configuration: which layer to print, where, and which labels to skip. */
  datatype LabelSpec = LabelSpec(layer: string, position: string, main: bool, ignore: seq<string>)

  /** The configuration fields the layout reads (Source.HScale/VScale, Render.Dx/Dy/KeyBorder/ImageBorder, Label, Remap). */
  datatype Config = Config(
    hScale: int, vScale: int,
    dx: int, dy: int,
    keyBorder: int, imageBorder: int,
    labels: seq<LabelSpec>,
    remap: map<string, string>)

  /** The first keymap titled title, if any. */
  function FindTitled(kms: seq<Keymap>, title: string): Option<Keymap>
  {
    if kms == [] then None
    else if kms[0].title == title then Some(kms[0])
    else FindTitled(kms[1..], title)
  }

  /** FindTitled finds a keymap exactly when one has the title, and then the first such one. */
  lemma {:induction false} FindTitledFirst(kms: seq<Keymap>, title: string)
    ensures FindTitled(kms, title).None? <==> forall i :: 0 <= i < |kms| ==> kms[i].title != title
    ensures FindTitled(kms, title).Some? ==>
      exists i :: 0 <= i < |kms| && kms[i] == FindTitled(kms, title).value && kms[i].title == title
                  && forall j :: 0 <= j < i ==> kms[j].title != title
  {
    if kms != [] && kms[0].title != title {
      FindTitledFirst(kms[1..], title);
      if FindTitled(kms, title).Some? {
        var i :| 0 <= i < |kms[1..]| && kms[1..][i] == FindTitled(kms, title).value && kms[1..][i].title == title
                 && forall j :: 0 <= j < i ==> kms[1..][j].title != title;
        assert kms[i + 1] == kms[1..][i];
        assert forall j :: 1 <= j < i + 1 ==> kms[j] == kms[1..][j - 1];
      } else {
        assert forall i :: 1 <= i < |kms| ==> kms[i] == kms[1..][i - 1];
      }
    }
  }

  /** The first label spec marked main, if any. */
  function FirstMain(labels: seq<LabelSpec>): Option<LabelSpec>
  {
    if labels == [] then None
    else if labels[0].main then Some(labels[0])
    else FirstMain(labels[1..])
  }

  /** The keymap of the first label spec whose layer exists, if any. */
  function FirstPresent(labels: seq<LabelSpec>, kms: seq<Keymap>): Option<Keymap>
  {
    if labels == [] then None
    else if FindTitled(kms, labels[0].layer).Some? then FindTitled(kms, labels[0].layer)
    else FirstPresent(labels[1..], kms)
  }

  /** mainKeymap's choice: the main label's layer, else the first printed layer that exists, else the first keymap. */
  function MainChoice(labels: seq<LabelSpec>, kms: seq<Keymap>): Keymap
    requires kms != []
  {
    var main := FirstMain(labels);
    if main.Some? && FindTitled(kms, main.value.layer).Some? then FindTitled(kms, main.value.layer).value
    else if FirstPresent(labels, kms).Some? then FirstPresent(labels, kms).value
    else kms[0]
  }

  /** A found keymap is one of the list, with the title asked for. */
  lemma {:induction false} FindTitledMember(kms: seq<Keymap>, title: string)
    ensures FindTitled(kms, title).Some? ==>
      FindTitled(kms, title).value in kms && FindTitled(kms, title).value.title == title
  {
    if kms != [] && kms[0].title != title {
      FindTitledMember(kms[1..], title);
    }
  }

  /** FirstPresent yields a keymap of the list whose title is some label spec's layer. */
  lemma {:induction false} FirstPresentMember(labels: seq<LabelSpec>, kms: seq<Keymap>)
    ensures FirstPresent(labels, kms).Some? ==>
      FirstPresent(labels, kms).value in kms
      && exists l :: l in labels && l.layer == FirstPresent(labels, kms).value.title
  {
    if labels != [] {
      FindTitledMember(kms, labels[0].layer);
      FirstPresentMember(labels[1..], kms);
      if FirstPresent(labels, kms).Some? && FindTitled(kms, labels[0].layer).None? {
        var l :| l in labels[1..] && l.layer == FirstPresent(labels, kms).value.title;
        assert l in labels;
      }
    }
  }

  /** Some label spec's layer exists exactly when FirstPresent finds one. */
  lemma {:induction false} FirstPresentExists(labels: seq<LabelSpec>, kms: seq<Keymap>)
    ensures FirstPresent(labels, kms).None? ==>
      forall l :: l in labels ==> FindTitled(kms, l.layer).None?
  {
    if labels != [] {
      FirstPresentExists(labels[1..], kms);
    }
  }

  /** FirstMain finds a spec exactly when one is marked main, and then the first such one. */
  lemma {:induction false} FirstMainFirst(labels: seq<LabelSpec>)
    ensures FirstMain(labels).None? <==> forall i :: 0 <= i < |labels| ==> !labels[i].main
    ensures FirstMain(labels).Some? ==>
      exists i :: 0 <= i < |labels| && labels[i] == FirstMain(labels).value && labels[i].main
                  && forall j :: 0 <= j < i ==> !labels[j].main
  {
    if labels != [] && !labels[0].main {
      FirstMainFirst(labels[1..]);
      assert forall i :: 1 <= i < |labels| ==> labels[i] == labels[1..][i - 1];
      if FirstMain(labels).Some? {
        var i :| 0 <= i < |labels[1..]| && labels[1..][i] == FirstMain(labels).value && labels[1..][i].main
                 && forall j :: 0 <= j < i ==> !labels[1..][j].main;
        assert labels[i + 1] == labels[1..][i];
      }
    }
  }

  /**
   * FirstPresent finds a keymap exactly when some spec's layer names one, and then
   * it is the keymap of the first such spec.
   */
  lemma {:induction false} FirstPresentFirst(labels: seq<LabelSpec>, kms: seq<Keymap>)
    ensures FirstPresent(labels, kms).None? <==> forall i :: 0 <= i < |labels| ==> FindTitled(kms, labels[i].layer).None?
    ensures FirstPresent(labels, kms).Some? ==>
      exists i :: 0 <= i < |labels| && FirstPresent(labels, kms) == FindTitled(kms, labels[i].layer)
                  && forall j :: 0 <= j < i ==> FindTitled(kms, labels[j].layer).None?
  {
    if labels != [] && FindTitled(kms, labels[0].layer).None? {
      FirstPresentFirst(labels[1..], kms);
      assert forall i :: 1 <= i < |labels| ==> labels[i] == labels[1..][i - 1];
      if FirstPresent(labels, kms).Some? {
        var i :| 0 <= i < |labels[1..]| && FirstPresent(labels, kms) == FindTitled(kms, labels[1..][i].layer)
                 && forall j :: 0 <= j < i ==> FindTitled(kms, labels[1..][j].layer).None?;
        assert labels[i + 1] == labels[1..][i];
      }
    }
  }

  /**
   * The main keymap is always one of the keymaps: the first keymap titled by the main
   * label's layer when that exists, else the keymap of the first printed layer that
   * exists, and the first keymap only when no printed layer exists.
   */
  lemma MainChoiceRule(labels: seq<LabelSpec>, kms: seq<Keymap>)
    requires kms != []
    ensures MainChoice(labels, kms) in kms
    ensures FirstMain(labels).Some? && FindTitled(kms, FirstMain(labels).value.layer).Some? ==>
      MainChoice(labels, kms) == FindTitled(kms, FirstMain(labels).value.layer).value
      && MainChoice(labels, kms).title == FirstMain(labels).value.layer
    ensures ((FirstMain(labels).None? || FindTitled(kms, FirstMain(labels).value.layer).None?)
             && FirstPresent(labels, kms).Some?) ==>
      MainChoice(labels, kms) == FirstPresent(labels, kms).value
    ensures (forall l :: l in labels ==> FindTitled(kms, l.layer).None?) ==> MainChoice(labels, kms) == kms[0]
  {
    var main := FirstMain(labels);
    if main.Some? {
      FindTitledMember(kms, main.value.layer);
    }
    FirstPresentMember(labels, kms);
    if forall l :: l in labels ==> FindTitled(kms, l.layer).None? {
      if FirstPresent(labels, kms).Some? {
        var l :| l in labels && l.layer == FirstPresent(labels, kms).value.title;
        FindTitledFirst(kms, l.layer);
        FindTitledMember(kms, l.layer);
        assert false;
      }
      if main.Some? {
        FirstMainMember(labels);
      }
    }
  }

  /** The main label spec is one of the label specs. */
  lemma {:induction false} FirstMainMember(labels: seq<LabelSpec>)
    ensures FirstMain(labels).Some? ==> FirstMain(labels).value in labels && FirstMain(labels).value.main
  {
    if labels != [] && !labels[0].main {
      FirstMainMember(labels[1..]);
    }
  }

  // ---------------------------------------------------------------------
  // The bounding box of all keys

  /** The largest 32-bit int, initImage's seed for the minima. */
  const MaxInt32: int := 0x7fff_ffff

  /** initImage's running extremes: minima of X and Y, maxima of X+Dx and Y+Dy. */
  datatype Extent = Extent(xmi: int, ymi: int, xma: int, yma: int)

  /** The keys of all keymaps, in order. */
  function AllKeys(kms: seq<Keymap>): seq<Key>
  {
    if kms == [] then [] else AllKeys(kms[..|kms| - 1]) + kms[|kms| - 1].keys
  }

  /** initImage's loop body for one key. */
  function Widen(e: Extent, k: Key): Extent
  {
    Extent(
      if k.x < e.xmi then k.x else e.xmi,
      if k.y < e.ymi then k.y else e.ymi,
      if k.x + k.dx > e.xma then k.x + k.dx else e.xma,
      if k.y + k.dy > e.yma then k.y + k.dy else e.yma)
  }

  /** The seeds initImage starts from: MaxInt32 for the minima, 0 for the maxima. */
  const Seed: Extent := Extent(MaxInt32, MaxInt32, 0, 0)

  /** e widened by the keys of ks, in order: initImage's inner loop. */
  function WidenAll(e: Extent, ks: seq<Key>): Extent
  {
    if ks == [] then e else Widen(WidenAll(e, ks[..|ks| - 1]), ks[|ks| - 1])
  }

  /** The extremes over the keys ks, from the seeds. */
  function ExtentOf(ks: seq<Key>): Extent
  {
    WidenAll(Seed, ks)
  }

  /** The extremes initImage's two loops compute over the keymaps kms, one keymap at a time. */
  function MapsExtent(kms: seq<Keymap>): Extent
  {
    if kms == [] then Seed else WidenAll(MapsExtent(kms[..|kms| - 1]), kms[|kms| - 1].keys)
  }

  /** Widening by a + b is widening by a, then by b. */
  lemma {:induction false} WidenAllConcat(e: Extent, a: seq<Key>, b: seq<Key>)
    ensures WidenAll(e, a + b) == WidenAll(WidenAll(e, a), b)
    decreases |b|
  {
    if b != [] {
      var b' := b[..|b| - 1];
      WidenAllConcat(e, a, b');
      assert (a + b)[..|a + b| - 1] == a + b';
    } else {
      assert a + b == a;
    }
  }

  /** Scanning keymap by keymap visits the same keys as scanning all keys at once. */
  lemma {:induction false} MapsExtentFlat(kms: seq<Keymap>)
    ensures MapsExtent(kms) == ExtentOf(AllKeys(kms))
  {
    if kms != [] {
      var init := kms[..|kms| - 1];
      MapsExtentFlat(init);
      WidenAllConcat(Seed, AllKeys(init), kms[|kms| - 1].keys);
    }
  }

  /**
   * The extent bounds every key, and each extreme is either its seed or is
   * attained by some key.
   */
  lemma {:induction false} ExtentBounds(ks: seq<Key>)
    ensures var e := ExtentOf(ks);
      && e.xmi <= MaxInt32 && e.ymi <= MaxInt32 && e.xma >= 0 && e.yma >= 0
      && (forall k :: k in ks ==> e.xmi <= k.x && e.ymi <= k.y && k.x + k.dx <= e.xma && k.y + k.dy <= e.yma)
      && (e.xmi == MaxInt32 || exists k :: k in ks && k.x == e.xmi)
      && (e.ymi == MaxInt32 || exists k :: k in ks && k.y == e.ymi)
      && (e.xma == 0 || exists k :: k in ks && k.x + k.dx == e.xma)
      && (e.yma == 0 || exists k :: k in ks && k.y + k.dy == e.yma)
  {
    if ks != [] {
      var init := ks[..|ks| - 1];
      ExtentBounds(init);
      assert ks == init + [ks[|ks| - 1]];
      assert forall k :: k in init ==> k in ks;
    }
  }

  /** The canvas initImage allocates for extent e. */
  function Canvas(conf: Config, e: Extent): Rectangle
    requires conf.hScale != 0 && conf.vScale != 0
  {
    Rect(0, 0,
         2 * conf.imageBorder + Scale(e.xma - e.xmi, conf.dx, conf.hScale),
         2 * conf.imageBorder + Scale(e.yma - e.ymi, conf.dy, conf.vScale))
  }

  // ---------------------------------------------------------------------
  // Placing keys and labels

  /** pt: the pixel of grid position (kx, ky) once initImage has set the origin (sx, sy). */
  function Pt(conf: Config, sx: int, sy: int, kx: int, ky: int): Point
    requires conf.hScale != 0 && conf.vScale != 0
  {
    Point(conf.imageBorder + Scale(kx - sx, conf.dx, conf.hScale),
          conf.imageBorder + Scale(ky - sy, conf.dy, conf.vScale))
  }

  /** The origin maps onto the image border, and pt never decreases along the x axis. */
  lemma PtOrderX(conf: Config, sx: int, sy: int, kx: int, ky: int, kx': int, ky': int)
    requires conf.hScale > 0 && conf.vScale > 0 && conf.dx >= 0
    ensures Pt(conf, sx, sy, sx, sy).x == conf.imageBorder
    ensures kx <= kx' ==> Pt(conf, sx, sy, kx, ky).x <= Pt(conf, sx, sy, kx', ky').x
  {
    ScaleMonotone(0, 0, conf.dx, conf.hScale);
    if kx <= kx' {
      ScaleMonotone(kx - sx, kx' - sx, conf.dx, conf.hScale);
    }
  }

  /** The origin maps onto the image border, and pt never decreases along the y axis. */
  lemma PtOrderY(conf: Config, sx: int, sy: int, kx: int, ky: int, kx': int, ky': int)
    requires conf.hScale > 0 && conf.vScale > 0 && conf.dy >= 0
    ensures Pt(conf, sx, sy, sx, sy).y == conf.imageBorder
    ensures ky <= ky' ==> Pt(conf, sx, sy, kx, ky).y <= Pt(conf, sx, sy, kx', ky').y
  {
    ScaleMonotone(0, 0, conf.dy, conf.vScale);
    if ky <= ky' {
      ScaleMonotone(ky - sy, ky' - sy, conf.dy, conf.vScale);
    }
  }

  /** The canvas of an extent that bounds at least one key spans its scaled size plus a border on each side. */
  lemma CanvasSize(conf: Config, e: Extent)
    requires conf.hScale > 0 && conf.vScale > 0 && conf.dx >= 0 && conf.dy >= 0 && conf.imageBorder >= 0
    requires e.xmi <= e.xma && e.ymi <= e.yma
    ensures Canvas(conf, e) == Rectangle(Point(0, 0),
      Point(2 * conf.imageBorder + Scale(e.xma - e.xmi, conf.dx, conf.hScale),
            2 * conf.imageBorder + Scale(e.yma - e.ymi, conf.dy, conf.vScale)))
  {
    ScaleMonotone(0, e.xma - e.xmi, conf.dx, conf.hScale);
    ScaleMonotone(0, e.yma - e.ymi, conf.dy, conf.vScale);
  }

  /**
   * With the origin and canvas initImage computes, every key of every keymap,
   * drawn from pt(X, Y) to pt(X+Dx, Y+Dy), lies on the canvas with the image
   * border kept clear on the left and on the right.
   */
  lemma KeysOnCanvasX(conf: Config, keymap: seq<Keymap>, k: Key)
    requires conf.hScale > 0 && conf.vScale > 0 && conf.dx >= 0 && conf.dy >= 0 && conf.imageBorder >= 0
    requires k in AllKeys(keymap) && k.dx >= 0 && k.dy >= 0
    ensures Canvas(conf, ExtentOf(AllKeys(keymap))).min == Point(0, 0)
    ensures var e := ExtentOf(AllKeys(keymap));
      conf.imageBorder <= Pt(conf, e.xmi, e.ymi, k.x, k.y).x
      && Pt(conf, e.xmi, e.ymi, k.x + k.dx, k.y + k.dy).x + conf.imageBorder <= Canvas(conf, e).max.x
  {
    var e := ExtentOf(AllKeys(keymap));
    ExtentBounds(AllKeys(keymap));
    assert e.xmi <= k.x && k.x + k.dx <= e.xma && e.ymi <= k.y && k.y + k.dy <= e.yma;
    CanvasSize(conf, e);
    PtOrderX(conf, e.xmi, e.ymi, e.xmi, e.ymi, k.x, k.y);
    PtOrderX(conf, e.xmi, e.ymi, k.x + k.dx, k.y + k.dy, e.xma, e.yma);
  }

  /** The same on the vertical axis: the image border stays clear above and below every key. */
  lemma KeysOnCanvasY(conf: Config, keymap: seq<Keymap>, k: Key)
    requires conf.hScale > 0 && conf.vScale > 0 && conf.dx >= 0 && conf.dy >= 0 && conf.imageBorder >= 0
    requires k in AllKeys(keymap) && k.dx >= 0 && k.dy >= 0
    ensures var e := ExtentOf(AllKeys(keymap));
      conf.imageBorder <= Pt(conf, e.xmi, e.ymi, k.x, k.y).y
      && Pt(conf, e.xmi, e.ymi, k.x + k.dx, k.y + k.dy).y + conf.imageBorder <= Canvas(conf, e).max.y
  {
    var e := ExtentOf(AllKeys(keymap));
    ExtentBounds(AllKeys(keymap));
    assert e.xmi <= k.x && k.x + k.dx <= e.xma && e.ymi <= k.y && k.y + k.dy <= e.yma;
    CanvasSize(conf, e);
    PtOrderY(conf, e.xmi, e.ymi, e.xmi, e.ymi, k.x, k.y);
    PtOrderY(conf, e.xmi, e.ymi, k.x + k.dx, k.y + k.dy, e.xma, e.yma);
  }

  /** The label box of a key: its pixel rectangle shrunk on every side by one and a half key borders. */
  function LabelBox(conf: Config, sx: int, sy: int, k: Key): Rectangle
    requires conf.hScale != 0 && conf.vScale != 0
  {
    var b := Quot(conf.keyBorder * 3, 2);
    var p0 := Pt(conf, sx, sy, k.x, k.y);
    var p1 := Pt(conf, sx, sy, k.x + k.dx, k.y + k.dy);
    Rect(p0.x + b, p0.y + b, p1.x - b, p1.y - b)
  }

  /** One label drawKeyLabels paints: the text, the clip box, and the text origin. */
  datatype Draw = Draw(text: string, clip: Rectangle, at: Point)

  /** The text drawn for a key label: its Remap entry when there is one; None when that is empty or ignored. */
  function Shown(remap: map<string, string>, ignore: seq<string>, name: string): Option<string>
  {
    var text := if name in remap then remap[name] else name;
    if text == "" || text in ignore then None else Some(text)
  }

  /** What drawKeyLabels paints for key k, with the font's text measurement textRect. */
  function DrawOf(conf: Config, sx: int, sy: int, l: LabelSpec, textRect: string -> Rectangle, k: Key): Option<Draw>
    requires conf.hScale != 0 && conf.vScale != 0
  {
    match Shown(conf.remap, l.ignore, k.labelText)
    case None => None
    case Some(text) =>
      var lr := LabelBox(conf, sx, sy, k);
      Some(Draw(text, lr, AdjustText(l.position, textRect(text), lr)))
  }

  /** A key whose shown text is None is not drawn. */
  lemma DrawOfHidden(conf: Config, sx: int, sy: int, l: LabelSpec, textRect: string -> Rectangle, k: Key)
    requires conf.hScale != 0 && conf.vScale != 0
    requires Shown(conf.remap, l.ignore, k.labelText) == None
    ensures DrawOf(conf, sx, sy, l, textRect, k) == None
  {
  }

  /** DrawOf spelled out as drawKeyLabels computes it, from b and the pixels of the key's two corners. */
  lemma DrawOfShown(conf: Config, sx: int, sy: int, l: LabelSpec, textRect: string -> Rectangle, k: Key,
                    text: string, b: int, p0: Point, p1: Point, lr: Rectangle)
    requires conf.hScale != 0 && conf.vScale != 0
    requires Shown(conf.remap, l.ignore, k.labelText) == Some(text)
    requires b == Quot(conf.keyBorder * 3, 2)
    requires p0 == Pt(conf, sx, sy, k.x, k.y) && p1 == Pt(conf, sx, sy, k.x + k.dx, k.y + k.dy)
    requires lr == Rect(p0.x + b, p0.y + b, p1.x - b, p1.y - b)
    ensures DrawOf(conf, sx, sy, l, textRect, k) == Some(Draw(text, lr, AdjustText(l.position, textRect(text), lr)))
  {
    assert LabelBox(conf, sx, sy, k) == lr;
  }

  /** The draws a per-key choice yields over keys, in key order. */
  function DrawAll(draw: Key -> Option<Draw>, keys: seq<Key>): seq<Draw>
  {
    if keys == [] then [] else DrawAll(draw, keys[..|keys| - 1]) + OptionToSeq(draw(keys[|keys| - 1]))
  }

  /** DrawAll one key further. */
  lemma DrawAllStep(draw: Key -> Option<Draw>, keys: seq<Key>, i: nat)
    requires i < |keys|
    ensures DrawAll(draw, keys[..i + 1]) == DrawAll(draw, keys[..i]) + OptionToSeq(draw(keys[i]))
  {
    assert keys[..i + 1][..i] == keys[..i];
  }

  /** Every draw comes from a key, and every key with a draw has it in the list. */
  lemma {:induction false} DrawAllMembers(draw: Key -> Option<Draw>, keys: seq<Key>)
    ensures |DrawAll(draw, keys)| <= |keys|
    ensures forall d :: d in DrawAll(draw, keys) ==> exists k :: k in keys && draw(k) == Some(d)
    ensures forall k :: k in keys && draw(k).Some? ==> draw(k).value in DrawAll(draw, keys)
  {
    if keys != [] {
      var init := keys[..|keys| - 1];
      var k := keys[|keys| - 1];
      DrawAllMembers(draw, init);
      assert keys == init + [k];
      forall d | d in DrawAll(draw, keys)
        ensures exists k' :: k' in keys && draw(k') == Some(d)
      {
        if d in DrawAll(draw, init) {
          var k' :| k' in init && draw(k') == Some(d);
          assert k' in keys;
        }
      }
    }
  }

  /** What drawKeyLabels paints for the keys of a keymap. */
  function Draws(conf: Config, sx: int, sy: int, l: LabelSpec, keys: seq<Key>, textRect: string -> Rectangle): seq<Draw>
    requires conf.hScale != 0 && conf.vScale != 0
  {
    DrawAll(k => DrawOf(conf, sx, sy, l, textRect, k), keys)
  }

  /**
   * Exactly the keys whose shown text is non-empty and not ignored are drawn,
   * each with its remapped text, clipped to its own label box and placed by
   * adjustText inside it.
   */
  lemma DrawsFilter(conf: Config, sx: int, sy: int, l: LabelSpec, keys: seq<Key>, textRect: string -> Rectangle)
    requires conf.hScale != 0 && conf.vScale != 0
    ensures |Draws(conf, sx, sy, l, keys, textRect)| <= |keys|
    ensures forall d :: d in Draws(conf, sx, sy, l, keys, textRect) ==>
      && d.text != "" && d.text !in l.ignore
      && d.at == AdjustText(l.position, textRect(d.text), d.clip)
      && exists k :: k in keys && Shown(conf.remap, l.ignore, k.labelText) == Some(d.text) && d.clip == LabelBox(conf, sx, sy, k)
    ensures forall k :: k in keys && Shown(conf.remap, l.ignore, k.labelText).Some? ==>
      Draw(Shown(conf.remap, l.ignore, k.labelText).value, LabelBox(conf, sx, sy, k),
           AdjustText(l.position, textRect(Shown(conf.remap, l.ignore, k.labelText).value), LabelBox(conf, sx, sy, k)))
        in Draws(conf, sx, sy, l, keys, textRect)
  {
    var draw := k => DrawOf(conf, sx, sy, l, textRect, k);
    DrawAllMembers(draw, keys);
    forall d | d in Draws(conf, sx, sy, l, keys, textRect)
      ensures && d.text != "" && d.text !in l.ignore
              && d.at == AdjustText(l.position, textRect(d.text), d.clip)
              && exists k :: k in keys && Shown(conf.remap, l.ignore, k.labelText) == Some(d.text) && d.clip == LabelBox(conf, sx, sy, k)
    {
      var k :| k in keys && draw(k) == Some(d);
      assert DrawOf(conf, sx, sy, l, textRect, k) == Some(d);
    }
    forall k | k in keys && Shown(conf.remap, l.ignore, k.labelText).Some?
      ensures Draw(Shown(conf.remap, l.ignore, k.labelText).value, LabelBox(conf, sx, sy, k),
                   AdjustText(l.position, textRect(Shown(conf.remap, l.ignore, k.labelText).value), LabelBox(conf, sx, sy, k)))
                in Draws(conf, sx, sy, l, keys, textRect)
    {
      assert draw(k) == DrawOf(conf, sx, sy, l, textRect, k);
    }
  }

  /** Draws one key further. */
  lemma DrawsStep(conf: Config, sx: int, sy: int, l: LabelSpec, textRect: string -> Rectangle, keys: seq<Key>, i: nat)
    requires conf.hScale != 0 && conf.vScale != 0
    requires i < |keys|
    ensures Draws(conf, sx, sy, l, keys[..i + 1], textRect)
         == Draws(conf, sx, sy, l, keys[..i], textRect) + OptionToSeq(DrawOf(conf, sx, sy, l, textRect, keys[i]))
  {
    DrawAllStep(k => DrawOf(conf, sx, sy, l, textRect, k), keys, i);
  }

  /** The renderer's layout state: the configuration, the parsed keymaps, the top-left origin and the canvas. */
  class Renderer {
    const conf: Config
    const keymap: seq<Keymap>
    var sx: int
    var sy: int
    var canvas: Rectangle

    constructor (conf: Config, keymap: seq<Keymap>)
      ensures this.conf == conf && this.keymap == keymap
      ensures sx == 0 && sy == 0 && canvas == Rectangle(Point(0, 0), Point(0, 0))
    {
      this.conf := conf;
      this.keymap := keymap;
      sx, sy := 0, 0;
      canvas := Rectangle(Point(0, 0), Point(0, 0));
    }

    /** initImage without the pixel fill: the origin and the canvas size. */
    method InitImage()
      requires conf.hScale != 0 && conf.vScale != 0
      modifies this
      ensures var e := ExtentOf(AllKeys(keymap));
        sx == e.xmi && sy == e.ymi && canvas == Canvas(conf, e)
    {
      var xmi, xma := MaxInt32, 0;
      var ymi, yma := MaxInt32, 0;
      for i := 0 to |keymap|
        invariant Extent(xmi, ymi, xma, yma) == MapsExtent(keymap[..i])
      {
        var keys := keymap[i].keys;
        ghost var start := Extent(xmi, ymi, xma, yma);
        assert keymap[..i + 1][..i] == keymap[..i];
        for j := 0 to |keys|
          invariant Extent(xmi, ymi, xma, yma) == WidenAll(start, keys[..j])
        {
          var k := keys[j];
          assert keys[..j + 1][..j] == keys[..j];
          var l, t := k.x, k.y;
          var r, b := k.x + k.dx, k.y + k.dy;
          if l < xmi {
            xmi := l;
          }
          if t < ymi {
            ymi := t;
          }
          if r > xma {
            xma := r;
          }
          if b > yma {
            yma := b;
          }
        }
        assert keys[..|keys|] == keys;
      }
      assert keymap[..|keymap|] == keymap;
      MapsExtentFlat(keymap);
      sx := xmi;
      sy := ymi;
      var dx := 2 * conf.imageBorder + Scale(xma - xmi, conf.dx, conf.hScale);
      var dy := 2 * conf.imageBorder + Scale(yma - ymi, conf.dy, conf.vScale);
      canvas := Rect(0, 0, dx, dy);
    }

    /** findKeymap */
    method FindKeymap(title: string) returns (m: Keymap, ok: bool)
      ensures ok == FindTitled(keymap, title).Some?
      ensures m == if ok then FindTitled(keymap, title).value else Keymap("", [])
    {
      for i := 0 to |keymap|
        invariant FindTitled(keymap[i..], title) == FindTitled(keymap, title)
      {
        assert keymap[i..][1..] == keymap[i + 1..];
        if keymap[i].title == title {
          return keymap[i], true;
        }
      }
      return Keymap("", []), false;
    }

    /** mainKeymap */
    method MainKeymap() returns (m: Keymap)
      requires keymap != []
      ensures m == MainChoice(conf.labels, keymap)
    {
      var labels := conf.labels;
      var ml: LabelSpec;
      var found := false;
      for i := 0 to |labels|
        invariant FirstMain(labels[i..]) == FirstMain(labels)
        invariant !found
      {
        assert labels[i..][1..] == labels[i + 1..];
        if labels[i].main {
          ml := labels[i];
          found := true;
          break;
        }
      }
      if found {
        var mk, ok := FindKeymap(ml.layer);
        if ok {
          return mk;
        }
      }
      for i := 0 to |labels|
        invariant FirstPresent(labels[i..], keymap) == FirstPresent(labels, keymap)
      {
        assert labels[i..][1..] == labels[i + 1..];
        var mk, ok := FindKeymap(labels[i].layer);
        if ok {
          return mk;
        }
      }
      return keymap[0];
    }

    /**
     * drawKeyLabels without the painting: the remap and ignore filter over the
     * keys of km, in key order, and where each remaining label goes.
     */
    method DrawKeyLabels(l: LabelSpec, km: Keymap, textRect: string -> Rectangle) returns (draws: seq<Draw>)
      requires conf.hScale != 0 && conf.vScale != 0
      ensures draws == Draws(conf, sx, sy, l, km.keys, textRect)
    {
      ghost var ox, oy := sx, sy;
      var b := Quot(conf.keyBorder * 3, 2);
      draws := [];
      for i := 0 to |km.keys|
        invariant draws == Draws(conf, ox, oy, l, km.keys[..i], textRect)
      {
        var k := km.keys[i];
        DrawsStep(conf, ox, oy, l, textRect, km.keys, i);
        var text := k.labelText;
        if text in conf.remap {
          text := conf.remap[text];
        }
        if text == "" {
          DrawOfHidden(conf, ox, oy, l, textRect, k);
          continue;
        }
        var ignored := false;
        for j := 0 to |l.ignore|
          invariant ignored <==> text in l.ignore[..j]
        {
          assert (text in l.ignore[..j + 1]) == (text in l.ignore[..j] || text == l.ignore[j]) by {
            assert l.ignore[..j + 1] == l.ignore[..j] + [l.ignore[j]];
          }
          if text == l.ignore[j] {
            ignored := true;
          }
        }
        assert l.ignore[..|l.ignore|] == l.ignore;
        if ignored {
          DrawOfHidden(conf, ox, oy, l, textRect, k);
          continue;
        }
        var tr := textRect(text);
        var p0 := Pt(conf, sx, sy, k.x, k.y);
        var p1 := Pt(conf, sx, sy, k.x + k.dx, k.y + k.dy);
        var lr := Rect(p0.x + b, p0.y + b, p1.x - b, p1.y - b);
        var p := AdjustText(l.position, tr, lr);
        DrawOfShown(conf, ox, oy, l, textRect, k, text, b, p0, p1, lr);
        draws := draws + [Draw(text, lr, p)];
      }
      assert km.keys[..|km.keys|] == km.keys;
    }
  }
}
