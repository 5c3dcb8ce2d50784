/**
 * The drawing side of the RGUI menu: the checkerboard fillers, fill_rect on the 16-bit frame
 * buffer, the background frame, the message box with its truncation, and the layout
 * arithmetic of render_text (the visible window of the folder list and the trimming of long
 * file names). Glyph drawing (blit_line and the font) is not part of this model.
 */
module RguiRender {
  import opened Wrappers
  import opened Globals
  import opened RguiTypes

  // Screen geometry of the RGUI frame buffer and its bitmap font.
  const RguiWidth: nat := 320
  const RguiHeight: nat := 240
  const FontWidth: nat := 5
  const FontHeight: nat := 10
  const FontWidthStride: nat := FontWidth + 1
  const FontHeightStride: nat := FontHeight + 1
  const TermStartX: nat := 15
  const TermStartY: nat := 27
  /** Characters per text row: 48. */
  const TermWidth: nat := (RguiWidth - TermStartX - 15) / FontWidthStride
  /** Text rows of the folder list: 17. */
  const TermHeight: nat := (RguiHeight - TermStartY - 15) / FontHeightStride - 1

  /** size_t arithmetic is carried out modulo 2^64. */
  const SizeMod: nat := 0x1_0000_0000_0000_0000

  /** The conversion of a signed value to size_t. */
  function ToSize(x: int): (r: nat)
    ensures 0 <= x < SizeMod ==> r == x
    ensures r < SizeMod
  {
    x % SizeMod
  }

  // ---------------------------------------------------------------- fillers

  /** The two colour callbacks handed to fill_rect. */
  datatype Filler = Gray | Green

  /** The shade index (1 or 2) of the 2x2 tile holding pixel (x, y). */
  function Shade(x: nat, y: nat): bv16
  {
    if (x / 2 + y / 2) % 2 == 0 then 1 else 2
  }

  /** gray_filler and green_filler: RGB4A3 colours built from the shade index. */
  function FillerColor(f: Filler, x: nat, y: nat): bv16
  {
    var col := Shade(x, y);
    match f
    case Gray => 0x6000 | (col << 8) | (col << 4) | col
    case Green => 0x6000 | (col << 8) | (col << 5) | col
  }

  /**
   * Each filler draws a checkerboard of 2x2 tiles in two colours: two pixels get the same colour
   * exactly when their tiles have the same parity, and the gray and green fillers never agree.
   */
  lemma FillerCheckerboard(f: Filler, x: nat, y: nat, x': nat, y': nat)
    ensures f == Gray ==> FillerColor(f, x, y) in {0x6111, 0x6222}
    ensures f == Green ==> FillerColor(f, x, y) in {0x6121, 0x6242}
    ensures FillerColor(f, x, y) == FillerColor(f, x', y') <==> (x / 2 + y / 2) % 2 == (x' / 2 + y' / 2) % 2
    ensures FillerColor(Gray, x, y) != FillerColor(Green, x', y')
  {
    var c, c' := (x / 2 + y / 2) % 2, (x' / 2 + y' / 2) % 2;
    assert Shade(x, y) == if c == 0 then 1 else 2;
    assert Shade(x', y') == if c' == 0 then 1 else 2;
  }

  // ---------------------------------------------------------------- fill_rect

  /** Whether buffer cell k lies in the rectangle [x, x+w) x [y, y+h) of rows of length stride. */
  predicate InRect(k: nat, stride: nat, x: nat, y: nat, w: nat, h: nat)
  {
    stride > 0 && y <= k / stride < y + h && x <= k % stride < x + w
  }

  /** The buffer after painting a rectangle with a filler; every other cell keeps its value. */
  function Paint(s: seq<bv16>, stride: nat, x: nat, y: nat, w: nat, h: nat, f: Filler): seq<bv16>
  {
    seq(|s|, k requires 0 <= k < |s| =>
      if InRect(k, stride, x, y, w, h) then FillerColor(f, k % stride, k / stride) else s[k])
  }

  /** Row-major addressing: cell j*stride+i is column i of row j. */
  lemma RowMajor(stride: nat, i: nat, j: nat)
    requires i < stride
    ensures (j * stride + i) / stride == j && (j * stride + i) % stride == i
  {
    var k := j * stride + i;
    var q, r := k / stride, k % stride;
    assert k == stride * q + r;
    assert stride * (j - q) == r - i;
    if j - q >= 1 {
      MulMono(1, j - q, stride);
    } else if j - q <= -1 {
      MulMono(1, q - j, stride);
    }
  }

  /**
   * fill_rect writes the cell j*stride+i of every (i, j) in the rectangle with the filler's
   * colour at (i, j).
   */
  lemma PaintCell(s: seq<bv16>, stride: nat, x: nat, y: nat, w: nat, h: nat, f: Filler, i: nat, j: nat)
    requires x + w <= stride && (y + h) * stride <= |s|
    requires x <= i < x + w && y <= j < y + h
    ensures j * stride + i < |s| && Paint(s, stride, x, y, w, h, f)[j * stride + i] == FillerColor(f, i, j)
  {
    var k := j * stride + i;
    RowMajor(stride, i, j);
    MulMono(j + 1, y + h, stride);
    MulSucc(j, stride);
    assert k < |s|;
    assert InRect(k, stride, x, y, w, h);
  }

  lemma MulSucc(j: nat, stride: nat)
    ensures (j + 1) * stride == j * stride + stride
  {
  }

  /** fill_rect leaves every cell outside the rectangle alone. */
  lemma PaintOutside(s: seq<bv16>, stride: nat, x: nat, y: nat, w: nat, h: nat, f: Filler, k: nat)
    requires k < |s| && !InRect(k, stride, x, y, w, h)
    ensures Paint(s, stride, x, y, w, h, f)[k] == s[k]
  {
  }

  lemma MulMono(a: nat, b: nat, c: nat)
    requires a <= b
    ensures a * c <= b * c
  {
  }

  /** Painting one more cell at the end of a row extends the painted row by one column. */
  lemma PaintStep(s: seq<bv16>, stride: nat, x: nat, j: nat, i: nat, f: Filler)
    requires x <= i < stride && (j + 1) * stride <= |s|
    ensures j * stride + i < |s|
    ensures Paint(s, stride, x, j, i + 1 - x, 1, f)
         == Paint(s, stride, x, j, i - x, 1, f)[j * stride + i := FillerColor(f, i, j)]
  {
    RowMajor(stride, i, j);
    var a := Paint(s, stride, x, j, i + 1 - x, 1, f);
    var b := Paint(s, stride, x, j, i - x, 1, f)[j * stride + i := FillerColor(f, i, j)];
    forall k | 0 <= k < |s|
      ensures a[k] == b[k]
    {
      if k / stride == j && k % stride == i {
        assert k == j * stride + i;
      }
    }
  }

  /** A completed row added to the rows painted so far. */
  lemma PaintRow(s: seq<bv16>, stride: nat, x: nat, y: nat, w: nat, n: nat, f: Filler)
    ensures Paint(Paint(s, stride, x, y, w, n, f), stride, x, y + n, w, 1, f)
         == Paint(s, stride, x, y, w, n + 1, f)
  {
  }

  /** Painting an empty row changes nothing. */
  lemma PaintEmpty(s: seq<bv16>, stride: nat, x: nat, y: nat, w: nat, f: Filler)
    ensures Paint(s, stride, x, y, 0, 1, f) == s
    ensures Paint(s, stride, x, y, w, 0, f) == s
  {
  }

  /** fill_rect: the loop over the rows j of the rectangle. */
  method FillRect(buf: array<bv16>, pitch: nat, x: nat, y: nat, width: nat, height: nat, f: Filler)
    requires width > 0 && height > 0 ==> x + width <= pitch / 4 && (y + height) * (pitch / 4) <= buf.Length
    modifies buf
    ensures buf[..] == Paint(old(buf[..]), pitch / 4, x, y, width, height, f)
  {
    var stride := pitch / 4;
    var j := y;
    while j < y + height
      invariant y <= j <= y + height || height == 0
      invariant height == 0 ==> j == y
      invariant buf[..] == Paint(old(buf[..]), stride, x, y, width, j - y, f)
    {
      assert width > 0 ==> (j + 1) * stride <= buf.Length by {
        if width > 0 {
          MulMono(j + 1, y + height, stride);
        }
      }
      FillRow(buf, stride, x, j, width, f);
      PaintRow(old(buf[..]), stride, x, y, width, j - y, f);
      j := j + 1;
    }
  }

  /** fill_rect: the loop over the columns i of row j, writing buf[j*stride+i]. */
  method FillRow(buf: array<bv16>, stride: nat, x: nat, j: nat, width: nat, f: Filler)
    requires stride > 0 || width == 0
    requires width > 0 ==> x + width <= stride && (j + 1) * stride <= buf.Length
    modifies buf
    ensures buf[..] == Paint(old(buf[..]), stride, x, j, width, 1, f)
  {
    PaintEmpty(buf[..], stride, x, j, width, f);
    var row := j * stride;
    var i := x;
    while i < x + width
      invariant x <= i <= x + width || width == 0
      invariant width == 0 ==> i == x
      invariant buf[..] == Paint(old(buf[..]), stride, x, j, i - x, 1, f)
    {
      PaintStep(old(buf[..]), stride, x, j, i, f);
      ghost var before := buf[..];
      var k := row + i;
      buf[k] := FillerColor(f, i, j);
      assert buf[..] == before[k := FillerColor(f, i, j)];
      i := i + 1;
    }
  }

  // ---------------------------------------------------------------- sequences of fill_rect calls

  /** The arguments of one fill_rect call. */
  datatype Rect = Rect(x: nat, y: nat, w: nat, h: nat, f: Filler)

  /** The buffer after the fill_rect calls rs, made in order. */
  function PaintAll(s: seq<bv16>, stride: nat, rs: seq<Rect>): (r: seq<bv16>)
    ensures |r| == |s|
    decreases |rs|
  {
    if |rs| == 0 then s
    else
      var q := rs[|rs| - 1];
      Paint(PaintAll(s, stride, rs[..|rs| - 1]), stride, q.x, q.y, q.w, q.h, q.f)
  }

  /** Painting rs and then qs is painting rs + qs. */
  lemma {:induction false} PaintAllAppend(s: seq<bv16>, stride: nat, rs: seq<Rect>, qs: seq<Rect>)
    ensures PaintAll(PaintAll(s, stride, rs), stride, qs) == PaintAll(s, stride, rs + qs)
    decreases |qs|
  {
    if |qs| > 0 {
      var q := qs[|qs| - 1];
      assert (rs + qs)[..|rs + qs| - 1] == rs + qs[..|qs| - 1];
      PaintAllAppend(s, stride, rs, qs[..|qs| - 1]);
    } else {
      assert rs + qs == rs;
    }
  }

  /** A fill_rect call made on top of earlier ones. */
  method FillRectAfter(buf: array<bv16>, pitch: nat, ghost s: seq<bv16>, ghost rs: seq<Rect>, q: Rect)
    requires q.w > 0 && q.h > 0 ==> q.x + q.w <= pitch / 4 && (q.y + q.h) * (pitch / 4) <= buf.Length
    requires buf[..] == PaintAll(s, pitch / 4, rs)
    modifies buf
    ensures buf[..] == PaintAll(s, pitch / 4, rs + [q])
  {
    FillRect(buf, pitch, q.x, q.y, q.w, q.h, q.f);
    assert (rs + [q])[..|rs|] == rs;
  }

  // ---------------------------------------------------------------- background

  /** render_background: the gray checkerboard screen with a green frame 5 pixels in from the edge. */
  function BackgroundRects(): seq<Rect>
  {
    [Rect(0, 0, RguiWidth, RguiHeight, Gray),
     Rect(5, 5, RguiWidth - 10, 5, Green),
     Rect(5, RguiHeight - 10, RguiWidth - 10, 5, Green),
     Rect(5, 5, 5, RguiHeight - 10, Green),
     Rect(RguiWidth - 10, 5, 5, RguiHeight - 10, Green)]
  }

  /** The frame buffer holds at least RGUI_HEIGHT rows of at least RGUI_WIDTH pixels. */
  predicate ScreenFits(len: nat, pitch: nat)
  {
    pitch / 4 >= RguiWidth && RguiHeight * (pitch / 4) <= len
  }

  method RenderBackground(buf: array<bv16>, pitch: nat)
    requires ScreenFits(buf.Length, pitch)
    modifies buf
    ensures buf[..] == PaintAll(old(buf[..]), pitch / 4, BackgroundRects())
  {
    ghost var s := buf[..];
    var rs := BackgroundRects();
    assert PaintAll(s, pitch / 4, []) == s;
    FillRectAfter(buf, pitch, s, [], rs[0]);
    FillRectAfter(buf, pitch, s, rs[..1], rs[1]);
    assert rs[..1] + [rs[1]] == rs[..2];
    FillRectAfter(buf, pitch, s, rs[..2], rs[2]);
    assert rs[..2] + [rs[2]] == rs[..3];
    FillRectAfter(buf, pitch, s, rs[..3], rs[3]);
    assert rs[..3] + [rs[3]] == rs[..4];
    FillRectAfter(buf, pitch, s, rs[..4], rs[4]);
    assert rs[..4] + [rs[4]] == rs;
  }

  /** The whole screen is painted: every pixel of the 320x240 area gets a filler colour. */
  lemma BackgroundCoversScreen(s: seq<bv16>, stride: nat, i: nat, j: nat)
    requires stride >= RguiWidth && RguiHeight * stride <= |s|
    requires i < RguiWidth && j < RguiHeight
    ensures j * stride + i < |s|
    ensures PaintAll(s, stride, BackgroundRects())[j * stride + i] in {FillerColor(Gray, i, j), FillerColor(Green, i, j)}
  {
    var rs := BackgroundRects();
    PaintCell(s, stride, 0, 0, RguiWidth, RguiHeight, Gray, i, j);
    var s1 := PaintAll(s, stride, rs[..1]);
    assert rs[..1][..0] == [];
    assert PaintAll(s, stride, []) == s;
    assert s1 == Paint(s, stride, 0, 0, RguiWidth, RguiHeight, Gray);
    FillersStay(s1, stride, rs[1..], i, j);
    PaintAllAppend(s, stride, rs[..1], rs[1..]);
    assert rs[..1] + rs[1..] == rs;
  }

  /** A pixel holding a filler colour keeps one under any further fill_rect calls. */
  lemma {:induction false} FillersStay(s: seq<bv16>, stride: nat, rs: seq<Rect>, i: nat, j: nat)
    requires i < stride && j * stride + i < |s|
    requires s[j * stride + i] in {FillerColor(Gray, i, j), FillerColor(Green, i, j)}
    ensures PaintAll(s, stride, rs)[j * stride + i] in {FillerColor(Gray, i, j), FillerColor(Green, i, j)}
    decreases |rs|
  {
    if |rs| > 0 {
      var prev := PaintAll(s, stride, rs[..|rs| - 1]);
      FillersStay(s, stride, rs[..|rs| - 1], i, j);
      var q := rs[|rs| - 1];
      var k := j * stride + i;
      RowMajor(stride, i, j);
      if !InRect(k, stride, q.x, q.y, q.w, q.h) {
        PaintOutside(prev, stride, q.x, q.y, q.w, q.h, q.f, k);
      }
    }
  }

  // ---------------------------------------------------------------- message box

  /** A C string: no NUL inside. */
  predicate IsCString(s: string)
  {
    forall i :: 0 <= i < |s| ==> s[i] != '\0'
  }

  /**
   * The text shown in the message box: a message longer than TERM_WIDTH keeps its first
   * TERM_WIDTH-2 characters followed by "...".
   */
  function Truncated(s: string): string
  {
    if |s| > TermWidth then s[..TermWidth - 2] + "..." else s
  }

  /** The truncated text is at most TERM_WIDTH+1 long; a long message becomes exactly that long. */
  lemma TruncatedShape(s: string)
    ensures |s| <= TermWidth ==> Truncated(s) == s
    ensures |s| > TermWidth ==>
      |Truncated(s)| == TermWidth + 1
      && Truncated(s)[..TermWidth - 2] == s[..TermWidth - 2]
      && Truncated(s)[TermWidth - 2..] == "..."
    ensures |Truncated(s)| <= TermWidth + 1
  {
  }

  /**
   * strdup followed by the in-place truncation and strlen of render_messagebox: the returned
   * buffer holds the truncated message, NUL-terminated at len.
   */
  method DupTruncated(message: string) returns (msg: array<char>, len: nat)
    requires IsCString(message)
    ensures len < msg.Length && msg[len] == '\0'
    ensures msg[..len] == Truncated(message)
  {
    msg := new char[|message| + 1](i => if 0 <= i < |message| then message[i] else '\0');
    ghost var target := Truncated(message);
    if |message| > TermWidth {
      msg[TermWidth - 2] := '.';
      msg[TermWidth - 1] := '.';
      msg[TermWidth - 0] := '.';
      msg[TermWidth + 1] := '\0';
    }
    assert |target| < msg.Length && msg[|target|] == '\0';
    assert forall i :: 0 <= i < |target| ==> msg[i] == target[i];
    len := 0;
    while msg[len] != '\0'
      invariant len <= |target|
      invariant forall i :: 0 <= i < len ==> msg[i] != '\0'
      decreases |target| - len
    {
      len := len + 1;
    }
    assert msg[..len] == target;
  }

  /** The message box placement for a text of len characters. */
  datatype Box = Box(x: nat, y: nat, width: nat, height: nat)

  function BoxFor(len: nat): (b: Box)
    requires len >= 1
  {
    var width := len * FontWidthStride - 1 + 6 + 10;
    var height := FontHeight + 6 + 10;
    Box(Wrap32(RguiWidth - width) / 2, Wrap32(RguiHeight - height) / 2, width, height)
  }

  /**
   * Thanks to the truncation, the box of any non-empty message is centred on the screen and
   * fits in it (no unsigned wrap-around in its position).
   */
  lemma BoxFitsScreen(s: string)
    requires |s| >= 1
    ensures |Truncated(s)| >= 1
    ensures var b := BoxFor(|Truncated(s)|);
      b.x >= 5 && b.x + b.width <= RguiWidth && b.y + b.height <= RguiHeight
      && RguiWidth - (b.x + b.width) - b.x <= 1
  {
  }

  /** The five fill_rect calls of render_messagebox: a gray panel inside a green frame. */
  function BoxRects(b: Box): seq<Rect>
    requires b.width >= 10 && b.height >= 10
  {
    [Rect(b.x + 5, b.y + 5, b.width - 10, b.height - 10, Gray),
     Rect(b.x, b.y, b.width - 5, 5, Green),
     Rect(b.x + b.width - 5, b.y, 5, b.height - 5, Green),
     Rect(b.x + 5, b.y + b.height - 5, b.width - 5, 5, Green),
     Rect(b.x, b.y + 5, 5, b.height - 5, Green)]
  }

  /** The fill_rect calls of render_messagebox: none for a NULL or empty message. */
  function MessageRects(message: Option<string>): seq<Rect>
  {
    if message.None? || |message.value| == 0 then []
    else
      var t := Truncated(message.value);
      BoxRects(BoxFor(|t|))
  }

  /** render_messagebox, without the glyphs of the text itself. */
  method RenderMessagebox(buf: array<bv16>, pitch: nat, message: Option<string>)
    requires message.Some? ==> IsCString(message.value)
    requires ScreenFits(buf.Length, pitch)
    modifies buf
    ensures buf[..] == PaintAll(old(buf[..]), pitch / 4, MessageRects(message))
  {
    if message.None? || |message.value| == 0 {
      return;
    }
    var msg, len := DupTruncated(message.value);
    BoxFitsScreen(message.value);
    var b := BoxFor(len);
    FillBox(buf, pitch, b);
  }

  /** The five fill_rect calls of render_messagebox, for a box inside the screen. */
  method FillBox(buf: array<bv16>, pitch: nat, b: Box)
    requires ScreenFits(buf.Length, pitch)
    requires b.width >= 10 && b.height >= 10 && b.x + b.width <= RguiWidth && b.y + b.height <= RguiHeight
    modifies buf
    ensures buf[..] == PaintAll(old(buf[..]), pitch / 4, BoxRects(b))
  {
    ghost var s := buf[..];
    var stride := pitch / 4;
    MulMono(b.y + b.height, RguiHeight, stride);
    var rs := BoxRects(b);
    assert PaintAll(s, stride, []) == s;
    FillRectAfter(buf, pitch, s, [], rs[0]);
    FillRectAfter(buf, pitch, s, rs[..1], rs[1]);
    assert rs[..1] + [rs[1]] == rs[..2];
    FillRectAfter(buf, pitch, s, rs[..2], rs[2]);
    assert rs[..2] + [rs[2]] == rs[..3];
    FillRectAfter(buf, pitch, s, rs[..3], rs[3]);
    assert rs[..3] + [rs[3]] == rs[..4];
    FillRectAfter(buf, pitch, s, rs[..4], rs[4]);
    assert rs[..4] + [rs[4]] == rs;
  }

  // ---------------------------------------------------------------- render_text layout

  /** The rows [begin, end) of the folder list shown around the cursor, in size_t arithmetic. */
  function VisibleWindow(ptr: int, size: nat): (nat, nat)
  {
    var begin := if ptr >= TermHeight / 2 then ToSize(ptr - TermHeight / 2) else 0;
    var end := if ToSize(ptr + TermHeight) <= size then ToSize(ptr + TermHeight) else size;
    if ToSize(end - begin) > TermHeight then (begin, ToSize(begin + TermHeight)) else (begin, end)
  }

  /**
   * While the cursor is at most TERM_HEIGHT/2 past the end of the list, the window lies within
   * the list and holds at most TERM_HEIGHT rows; a cursor on an entry is inside the window.
   */
  lemma WindowBounds(ptr: int, size: nat)
    requires -1 <= ptr <= size + TermHeight / 2 && size < SizeMod - 2 * TermHeight
    ensures var (begin, end) := VisibleWindow(ptr, size);
      begin <= end <= size && end - begin <= TermHeight
      && (0 <= ptr < size ==> begin <= ptr < end)
  {
    assert TermHeight == 17;
    var begin := if ptr >= 8 then ptr - 8 else 0;
    var end := if ptr + 17 <= size then ptr + 17 else size;
    assert begin <= end <= size;
    assert TermHeight / 2 == 8;
    assert ptr >= 8 ==> ToSize(ptr - 8) == ptr - 8;
    assert ToSize(ptr + 17) == ptr + 17;
    assert ToSize(end - begin) == end - begin;
    assert VisibleWindow(ptr, size) == if end - begin > 17 then (begin, begin + 17) else (begin, end);
  }

  /**
   * A cursor further past the end makes end - begin wrap around, and the window then reaches
   * beyond the list: the row loop would read entries that do not exist.
   */
  lemma WindowOverrun(size: nat)
    requires size < SizeMod - 2 * TermHeight
    ensures var (begin, end) := VisibleWindow(size + TermHeight / 2 + 1, size);
      end > size && end - begin == TermHeight
  {
    assert TermHeight == 17;
  }

  /** The width given to the type column of a folder entry of kind PLAIN or DIRECTORY. */
  function TypeColumnWidth(kind: FileType): nat
  {
    if kind == FilePlain then 6 else 5
  }

  /**
   * The title shown for a folder entry: a plain file or directory whose name does not fit in
   * the name column keeps its first characters, then "...", then its last five characters.
   */
  function EntryTitle(path: string, kind: FileType): string
  {
    if kind == FilePlain || kind == FileDirectory then
      var room := TermWidth - (TypeColumnWidth(kind) + 1 + 2);
      if |path| > room then path[..room - 8] + "..." + path[|path| - 5..] else path
    else path
  }

  /** A trimmed name fills the name column exactly and keeps both ends of the path. */
  lemma EntryTitleFits(path: string, kind: FileType)
    requires kind == FilePlain || kind == FileDirectory
    ensures var room := TermWidth - (TypeColumnWidth(kind) + 3);
      var t := EntryTitle(path, kind);
      |t| <= room
      && (|path| <= room ==> t == path)
      && (|path| > room ==> t[..room - 8] == path[..room - 8] && t[room - 8..room - 5] == "..."
                            && t[room - 5..] == path[|path| - 5..])
  {
  }

  /**
   * snprintf into a buffer of n bytes: the string itself when it fits in n-1 characters, else
   * its first n-1 characters.
   */
  function Clip(s: string, n: nat): (c: string)
    requires n >= 1
    ensures c <= s
    ensures |c| == if |s| < n then |s| else n - 1
  {
    if |s| < n then s else s[..n - 1]
  }

  /**
   * The heading of the screen, chosen by the type of the menu on top of the stack: "CORE
   * SELECTION" in the core list, "SETTINGS: " and the path in a settings, controller or viewport
   * menu, "FILE BROWSER: " and the path in any other; the longest start of it that fits in a
   * buffer of TERM_WIDTH bytes.
   */
  function ScreenTitle(top: Entry): (t: string)
    ensures |t| < TermWidth
    ensures top.kind == SettingsCore ==> t == "CORE SELECTION"
    ensures var h := "SETTINGS: " + top.path;
      IsSettingsMenu(top.kind) || IsViewportMenu(top.kind) ==>
        t <= h && |t| == if |h| < TermWidth then |h| else TermWidth - 1
    ensures var h := "FILE BROWSER: " + top.path;
      !IsSettingsMenu(top.kind) && !IsViewportMenu(top.kind) && top.kind != SettingsCore ==>
        t <= h && |t| == if |h| < TermWidth then |h| else TermWidth - 1
  {
    if top.kind == SettingsCore then "CORE SELECTION"
    else if IsControllerMenu(top.kind) || IsViewportMenu(top.kind) || top.kind == SettingsMenu then
      Clip("SETTINGS: " + top.path, TermWidth)
    else Clip("FILE BROWSER: " + top.path, TermWidth)
  }
}
