# renderkbd keymap parser and label layout, in Dafny

This project models the core of `renderkbd`, a tool that reads keyboard layouts
drawn as box-drawing art inside `/* ... */` comment blocks of a keymap source
file and renders them as an image.

The model covers two parts.

- **The keymap parser** (`keymapc`):
  - the classification of box-drawing runes into the directions they connect;
  - the trimming of a grid line;
  - the line-by-line state machine of the grid parser;
  - the key detector that scans a finished grid for lower-right corners, finds
    each key's top edge, checks its frame and reads its label;
  - the `ParseKeymaps` driver with its two errors.
- **The geometry of the renderer**:
  - the bounding box of all keys;
  - the canvas size;
  - the key-unit to pixel transform `pt`;
  - `rectCenter`;
  - the label anchoring of `adjustText`;
  - the remap and ignore filter of `drawKeyLabels`, which decides which label is
    drawn, with what clip rectangle and at what origin;
  - the choice of a keymap by title (`findKeymap`, `mainKeymap`).

Files:

- `strings.dfy`: `Wrappers` (Option) and `Strings`, the parts of Go's
  `strings.TrimSpace`, `HasPrefix` and `HasSuffix` and of `unicode.IsSpace` the
  parser uses.
- `keys.dfy`: `Keys`, the `Key` and `Keymap` records.
- `grid.dfy`: `Grid`, covering:
  - the rune classifier, `at` and `gc`, `dimLines` as a width, and `trimGridLine`;
  - the key detector as specification functions (`Detect`, `CandidateKey`);
  - the lemmas about exactly which keys the scan emits and in what order.
- `parser.dfy`: `Parser`, covering:
  - the parser state as a value, with `Step` for one line and `Feed` for many;
  - the class `GridParser`, whose methods `Line`, `FinishGrid`, `AddKey`,
    `KeyText` and `DimLines` keep the Go loops and are proved against those
    functions;
  - lemmas about the state machine.
- `keymapc.dfy`: `Keymapc`, covering `ParseKeymaps` and lemmas about what it
  returns.
- `render.dfy`: `Render`, covering:
  - Go's truncating integer division (`Quot`);
  - `image.Rect`, `rectCenter`, `adjustText` and `pt`;
  - the keymap choice;
  - the bounding box, stated by specification functions;
  - the class `Renderer`, whose `InitImage`, `FindKeymap`, `MainKeymap` and
    `DrawKeyLabels` keep the Go loops.

### Behaviour of the code worth noting

- **Read errors.** When the line reader fails, `ParseKeymaps` returns the keymaps
  collected so far together with the reader's error (keymapc.go:29-33).
  `ErrNotFound` is only reported when there was no read error.
- **Key size.** Every detected key is at least 2 by 2 in grid units, because its
  frame is part of it (`Parser.FramedShape`). No key of width or height 1 can
  come out (grid.go:101 and 125-137).
- **Indented titles.** The title is cut from the raw line, not the trimmed one
  (grid.go:49). So an opening line with leading white space keeps part of its
  `/*` marker in the title (`Parser.OpenerTitle`).

## Model

| member | source | states |
|---|---|---|
| Grid.IsGridChar | keymapc/grid.go:7-34 | a rune is a grid rune exactly when it is one of the box-drawing glyphs of the direction table |
| Grid.GridFlags | keymapc/grid.go:7-30 | the direction lookup: every rune's flags are a subset of N, S, W and E, and they are non-zero exactly for the table's eleven glyphs |
| Grid.At | keymapc/grid.go:151-160 | the bounds-checked read of column x of row y; its out-of-range behaviour is stated by OutsideIsBlank |
| Grid.Gc | keymapc/grid.go:162-164 | whether the cell holds a grid rune, read through At |
| Grid.OutsideIsBlank | keymapc/grid.go:151-164 | reading above, below, left or right of the stored lines yields a space, which is not a grid rune |
| Grid.Width | keymapc/grid.go:142-149 | the grid width is the length of the longest line: no line is longer, some line reaches it, and it is 0 for no lines |
| Grid.LastGridEnd | keymapc/grid.go:171-179 | the end of the last grid rune: the rune just before it is a grid rune and none follows it |
| Grid.FirstGrid | keymapc/grid.go:187-194 | the index of the first grid rune: no grid rune comes before it |
| Grid.TrimmedGridLineShape | keymapc/grid.go:166-202 | the trimmed line is empty exactly when the line has no grid rune; otherwise it ends with the last grid rune, runes before the first grid rune are spaces, and all others are kept |
| Grid.TrimGridLine | keymapc/grid.go:170-202 | the two-pass loop returns exactly the trimmed line of the specification |
| Grid.TopEdge | keymapc/grid.go:105-109 | the upward search for the top edge; bounded by its start row, and TopEdgeNearest states where it stops |
| Grid.TopEdgeNearest | keymapc/grid.go:105-109 | the top search stops at the nearest grid rune at or above its starting row in its column, or at row 0 |
| Grid.CandidateKey | keymapc/grid.go:100-123 | what addKey appends for a candidate: nothing when it is too narrow or its bottom row is framed, else the key found by the top search when keyText accepts its frame; AcceptedKey states its shape |
| Grid.AcceptedKey | keymapc/grid.go:100-140 | an accepted key spans from the left edge to the right edge and ends at the bottom row, and its whole frame is present with a frame-free interior |
| Grid.CursorLastGrid | keymapc/grid.go:82-91 | the row cursor is the column of the last grid rune left of x in the row, or the grid width when there is none |
| Grid.EmittedCorner | keymapc/grid.go:82-103 | a key emitted at (x, y) has its lower-right corner at (x+1, y+1) and its left edge at the cursor, left of x |
| Grid.EmittedSound | keymapc/grid.go:82-140 | every emitted key is framed, sits on a corner trigger, and is at least two columns wide with its left edge at the cursor |
| Grid.CollectMembers | keymapc/grid.go:84-90 | one row of the scan yields exactly the keys emitted at its columns |
| Grid.ScanMembers | keymapc/grid.go:82-91 | the whole scan yields exactly the keys emitted at its cells |
| Grid.ScanKeysFrom | keymapc/grid.go:82-91 | every key the scan yields was emitted at some cell of the grid |
| Grid.ScanKeysAll | keymapc/grid.go:82-91 | every key emitted at a cell of the grid is among the keys the scan yields |
| Grid.Detect | keymapc/grid.go:76-91 | the keys the scan of the whole grid yields, in scan order; DetectExact, DetectSound, DetectComplete and DetectOrdered state what they are |
| Grid.DetectFrom | keymapc/grid.go:76-91 | every detected key was emitted at some cell within the grid's width and height |
| Grid.DetectAll | keymapc/grid.go:76-91 | every key emitted within the grid's width and height is detected |
| Grid.DetectExact | keymapc/grid.go:76-91 | a key is detected if and only if it is emitted at some cell of the grid |
| Grid.DetectSound | keymapc/grid.go:76-140 | every detected key is framed in the grid, lies on a corner trigger and is at least two columns wide |
| Grid.DetectComplete | keymapc/grid.go:76-140 | every framed key whose lower-right cell is a trigger and whose left edge is that row's cursor is detected: the converse of DetectSound |
| Grid.CollectOrdered | keymapc/grid.go:84-90 | keys of one row come out with strictly increasing right edges on that row |
| Grid.ScanOrdered | keymapc/grid.go:82-91 | keys come out in order of their lower-right corner, row by row and then column by column |
| Grid.DetectOrdered | keymapc/grid.go:82-91 | the detected keys are sorted by bottom edge, then by right edge |
| Parser.Closings | keymapc/grid.go:58-61 | the closing lines are counted, and they are at most all the lines |
| Parser.MarkerSurvivesTrim | keymapc/grid.go:47-48 | a line that starts with the opening marker still starts with it after trimming, so it opens a block |
| Parser.OpenerTitle | keymapc/grid.go:46-52 | every line of white space, the marker and a rest opens a block; its title is the trimmed rest when the marker starts the line, the trimmed `*` and rest after one rune of indent, and the trimmed marker and rest after two or more |
| Parser.Step | keymapc/grid.go:46-67 | one line's effect on the parser fields; StepOutsideBlock, StepInBlock and StepKeymaps state it case by case |
| Parser.StepInBlock | keymapc/grid.go:54-66 | inside a block, a line that neither opens nor closes it appends its trimmed grid line when it holds a grid rune, and otherwise changes nothing |
| Parser.Finish | keymapc/grid.go:69-98 | finishGrid's effect on the parser fields; FinishEffects states it |
| Parser.OpensOrCloses | keymapc/grid.go:46-61 | no line both opens and closes a block |
| Parser.FinishEffects | keymapc/grid.go:69-98 | closing a block leaves grid mode, clears the lines, keeps the title, and appends one keymap of the detected keys exactly when there were lines and keys |
| Parser.StepKeymaps | keymapc/grid.go:46-98 | a line appends one keymap exactly when it closes an open block whose grid holds keys, and otherwise leaves the keymaps alone |
| Parser.StepOutsideBlock | keymapc/grid.go:46-56 | outside a block only an opening line changes anything; an opening line enters grid mode and keeps the lines and keymaps |
| Parser.FeedAppend | keymapc/keymapc.go:26-28 | feeding two runs of lines is feeding their concatenation |
| Parser.FeedKeymapsGrow | keymapc/grid.go:93-95 | lines only append keymaps, at most one per closing line |
| Parser.UnclosedAddsNothing | keymapc/grid.go:58-61 | lines none of which closes a block add no keymap |
| Parser.FramedShape | keymapc/grid.go:100-140 | a framed key is at least 2x2 in grid units with an unpadded label |
| Parser.DetectWellFormed | keymapc/grid.go:69-140 | the keymap made of a grid's detected keys is well formed: keys at least 2x2, unpadded labels, in scan order |
| Parser.FeedWellFormed | keymapc/grid.go:46-140 | every keymap the parser produces is well formed |
| Parser.ScanStep | keymapc/grid.go:84-90 | one column of the Go loop emits what the specification emits there and moves the cursor as the specification does |
| Parser.ScanRow | keymapc/grid.go:82-91 | one row of the Go loop appends that row's keys to the scan |
| Parser.GridParser.constructor | keymapc/keymapc.go:24 | a new parser is the zero state: outside a block, no title, lines or keymaps |
| Parser.GridParser.Line | keymapc/grid.go:46-67 | a line moves the parser exactly as one step of the state machine does |
| Parser.GridParser.FinishGrid | keymapc/grid.go:69-98 | finishing a block moves the parser exactly as the specification's Finish does, scanning the grid in the Go loop order |
| Parser.GridParser.AddKey | keymapc/grid.go:100-123 | the current keymap gains the candidate key when it is accepted and nothing otherwise; nothing else changes |
| Parser.GridParser.KeyText | keymapc/grid.go:125-140 | reports success exactly when the frame is intact and the interior frame-free, with the trimmed interior as label |
| Parser.GridParser.DimLines | keymapc/grid.go:142-149 | returns the width of the widest line and the number of lines |
| Keymapc.ParseKeymaps | keymapc/keymapc.go:23-34 | returns the keymaps of the lines in order; a read error is reported as such; otherwise NotFound exactly when there is no keymap |
| Keymapc.KeymapsWellFormed | keymapc/keymapc.go:23-34 | every keymap returned is well formed |
| Keymapc.UnterminatedBlock | keymapc/keymapc.go:26-33 | lines that never close a block, including an unterminated block, add nothing to the result |
| Keymapc.KeymapsExtend | keymapc/keymapc.go:26-33 | more input only appends keymaps after the earlier ones, at most one per closing line |
| Keymapc.NoClosingNotFound | keymapc/keymapc.go:29-32 | input without a closing line yields no keymap |
| Strings.IsSpace | keymapc/grid.go:47 | Go's unicode.IsSpace: the Latin-1 white space and the other White_Space runes |
| Strings.TrimSpace | keymapc/grid.go:49 | strings.TrimSpace, never longer than its input; TrimSpaceTrims states exactly what it removes |
| Strings.TrimSpaceTrims | keymapc/grid.go:139 | TrimSpace removes exactly the leading and trailing white space, and the result neither starts nor ends with white space |
| Strings.TrimSpaceIdempotent | keymapc/grid.go:139 | trimming a trimmed label changes nothing |
| Render.Quot | render.go:107-108 | Go's integer division, truncating toward zero; QuotRemainder states it |
| Render.QuotRemainder | render.go:268-272 | Go's division truncates toward zero: the remainder has the dividend's sign and is smaller than the divisor |
| Render.QuotTwo | render.go:268-272 | halving with Go's division is off by at most one, toward zero |
| Render.QuotMonotone | render.go:247-255 | truncating division by a positive divisor is monotone |
| Render.ScaleMonotone | render.go:247-255 | the key-unit to pixel scaling maps 0 to 0 and is monotone for a positive source scale and a non-negative pixel unit |
| Render.Rect | render.go:210 | image.Rect swaps coordinates so that min is at most max, and keeps ordered coordinates as given |
| Render.RectCenter | render.go:268-272 | the midpoint of a rectangle under Go's halving; RectCenterInside states it lies inside |
| Render.RectCenterInside | render.go:268-272 | the centre of a well-ordered rectangle lies within it |
| Render.AdjustText | render.go:223-245 | "top" or "bottom" aligns the text's top or bottom with the label box, and "left" or "right" aligns its left or right edge |
| Render.AdjustTextCentres | render.go:223-245 | on an axis with no anchor word the text's centre lands on the label box's centre, up to the rounding of Go's halving |
| Render.FindTitledFirst | render.go:117-124 | a keymap is found exactly when one has the title, and it is the first with that title |
| Render.FindTitledMember | render.go:117-124 | a found keymap is one of the keymaps and carries the title |
| Render.FirstMainMember | render.go:128-135 | the main label spec is one of the specs and is marked main |
| Render.FirstPresentMember | render.go:143-148 | the first printed layer's keymap is one of the keymaps, found by the layer of some label spec |
| Render.FirstPresentExists | render.go:143-148 | no printed layer is found only when no label spec's layer names a keymap |
| Render.FirstMainFirst | render.go:129-135 | a main spec is found exactly when some spec is marked main, and it is the first such spec |
| Render.FirstPresentFirst | render.go:144-148 | a printed layer's keymap is found exactly when some spec's layer names a keymap, and it is the one of the first such spec |
| Render.MainChoiceRule | render.go:126-151 | the main keymap is one of the keymaps: the first keymap titled by the first main spec's layer when there is one, else the keymap of the first spec whose layer exists, else the first keymap |
| Render.WidenAllConcat | render.go:82-98 | widening the box by two runs of keys is widening by their concatenation |
| Render.MapsExtentFlat | render.go:82-98 | the box of the nested keymap loops is the box of all keys in one sequence |
| Render.ExtentBounds | render.go:79-98 | the box holds every key, and each of its edges is reached by some key unless it still has its starting value (MaxInt32 or 0) |
| Render.CanvasSize | render.go:100-110 | the canvas is anchored at (0, 0) and spans twice the border plus the scaled box |
| Render.Pt | render.go:247-255 | the key-unit to pixel transform; PtOrderX and PtOrderY state its origin and monotonicity |
| Render.PtOrderX | render.go:247-255 | pt maps the box's left edge to the image border and preserves order horizontally |
| Render.PtOrderY | render.go:247-255 | pt maps the box's top edge to the image border and preserves order vertically |
| Render.KeysOnCanvasX | render.go:78-110 | the canvas starts at (0, 0), and every key's left and right pixel stay an image border away from the canvas edges |
| Render.KeysOnCanvasY | render.go:78-110 | every key's top and bottom pixel stay an image border away from the canvas edges |
| Render.Shown | render.go:190-203 | the label drawn for a key: its remapped label, or none when that is empty or ignored; DrawsFilter states it |
| Render.DrawOfHidden | render.go:195-203 | a key whose remapped label is empty or ignored draws nothing |
| Render.DrawOfShown | render.go:205-212 | a shown key draws its label clipped to the key rectangle inset by one and a half borders, placed by adjustText |
| Render.DrawAllStep | render.go:189-220 | the loop over keys appends each key's draw, if any, in order |
| Render.DrawAllMembers | render.go:189-220 | there is at most one draw per key, every draw comes from a key, and every key's draw is present |
| Render.DrawsFilter | render.go:186-220 | every drawn label is non-empty and not ignored, comes from a key whose remapped label it is, is clipped to that key's label box and placed by adjustText; every shown key is drawn |
| Render.DrawsStep | render.go:188-220 | one more key appends its draw when shown and nothing otherwise |
| Render.Renderer.constructor | render.go:33-36 | a renderer holds the configuration and the keymaps, with a zero origin and canvas |
| Render.Renderer.InitImage | render.go:78-110 | the origin becomes the box's top-left corner and the canvas the one of the box of all keys, computed by the Go loops |
| Render.Renderer.FindKeymap | render.go:117-124 | returns the first keymap with the title and true, or an empty keymap and false |
| Render.Renderer.MainKeymap | render.go:126-151 | returns the main keymap by the rule of MainChoiceRule |
| Render.Renderer.DrawKeyLabels | render.go:174-221 | returns exactly the draws of the filter specification for the keymap's keys, in key order |

## Left out

- Fonts, FreeType and glyph measurement are left out. `textRect` is a parameter
  of `DrawKeyLabels` and of the draw specification.
- The label `Scale` only sets the font size, so it is left out. Nothing about
  `Scale` is modelled: not its default of 1, and not the font size it produces.
- Painting is left out: the white fill of the image, the pixels of glyphs,
  `drawKeyShapes`, PNG encoding and file output. A drawn label is modelled as its
  text, clip rectangle and origin.
- Configuration loading (TOML), the command-line driver, and font lookup and
  download are left out. They are I/O or network code around the core. The
  configuration is a value.
- The multi-line label layout of label.go is left out: the line splitting, the
  advance from line to line and the alignment in font units (`fixed.Int26_6`
  metrics). The model stops at the anchor point that `AdjustText` gives.
- The `bufio.Scanner` is modelled as the sequence of lines it delivers plus an
  optional error. Its 64 KiB token limit is one of those errors.
- Lines are sequences of runes. Go slices the title line `s[2:]` by byte, so a
  line with multi-byte runes before the marker may be cut mid-rune there. The
  model cuts after two runes.
- Go's `int` is 32 or 64 bits wide, depending on the platform. The model uses
  unbounded integers, so it does not capture wrap-around. On a 32-bit platform
  the product `(xma-xmi)*rc.Dx` in `initImage` and the products in `pt` can wrap
  for large layouts or pixel units.
- Render.Renderer.InitImage: requires non-zero horizontal and vertical source
  scales. The source divides by them and panics when the configuration leaves a
  scale out, since nothing sets a default. The same holds for Render.Pt,
  Render.Scale, Render.Canvas, Render.LabelBox, Render.DrawOf and
  Render.Renderer.DrawKeyLabels.
- Render.Pt: requires non-zero source scales; the source panics on a zero one.
- Render.Renderer.DrawKeyLabels: requires non-zero source scales; the source
  panics on a zero one.
- Render.Renderer.MainKeymap: requires at least one keymap, because the source
  indexes `r.keymap[0]` and would panic on an empty list.
- Render.PtOrderX: proved for positive source scales and a non-negative pixel
  unit only. Configurations with negative or zero scales are not covered.
- Render.PtOrderY: proved for positive source scales and a non-negative pixel
  unit only.
- Render.KeysOnCanvasX: proved for keys of non-negative size and positive
  scales. The parser only produces such keys.
- Render.KeysOnCanvasY: proved for keys of non-negative size and positive
  scales.
