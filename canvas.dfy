/** Canvases: the header's flat character grid with bounds-checked set/get
    (include/blot_canvas.h), and the library's bitmap canvas and its
    constructor (lib/blot_canvas.c).  The two come from different revisions
    of the record and are modelled separately. */
module BlotCanvas {

  import opened BlotTypes
  import opened BlotUtils
  import opened BlotBraille

  // ---- cell indexing (include/blot_canvas.h:37,55) ----

  /** `unsigned idx = (row * can->columns) + col`, computed in 32 bits. */
  function CellIndex(columns: u32, col: u32, row: u32): (idx: u32)
    ensures row * columns + col < 0x1_0000_0000 ==> idx == row * columns + col
  {
    U32(row * columns + col)
  }

  /** For an in-range cell the index does not wrap and lies below columns*rows,
      so the invariant columns*rows <= data_size keeps every access in bounds. */
  lemma CellIndexInGrid(columns: u32, rows: u32, col: u32, row: u32)
    requires col < columns && row < rows
    ensures row * columns + col < columns * rows
    ensures columns * rows <= 0x1_0000_0000 ==> CellIndex(columns, col, row) == row * columns + col
    ensures CellIndex(columns, col, row) < columns * rows
  {
    MulSubDistrib(rows, row, columns);
    MulAtLeast(rows - row, columns);
    assert columns * rows == rows * columns;
  }

  /** Distinct in-range cells have distinct indices while the grid fits 32 bits. */
  lemma CellIndexInjective(columns: u32, rows: u32, c1: u32, r1: u32, c2: u32, r2: u32)
    requires c1 < columns && r1 < rows && c2 < columns && r2 < rows
    requires columns * rows <= 0x1_0000_0000
    requires CellIndex(columns, c1, r1) == CellIndex(columns, c2, r2)
    ensures c1 == c2 && r1 == r2
  {
    CellIndexInGrid(columns, rows, c1, r1);
    CellIndexInGrid(columns, rows, c2, r2);
    if r1 < r2 {
      MulSubDistrib(r2, r1, columns);
      MulAtLeast(r2 - r1, columns);
    } else if r2 < r1 {
      MulSubDistrib(r1, r2, columns);
      MulAtLeast(r1 - r2, columns);
    }
  }

  /** blot_canvas_get on a snapshot of the cells: 0 outside the grid, else the
      cell at the 32-bit index. */
  function CellAt(cells: seq<char>, columns: u32, rows: u32, col: u32, row: u32): (ch: char)
    requires columns * rows <= |cells|
    ensures (col >= columns || row >= rows) ==> ch == 0 as char
  {
    if col >= columns then 0 as char
    else if row >= rows then 0 as char
    else
      CellIndexInGrid(columns, rows, col, row);
      cells[CellIndex(columns, col, row)]
  }

  /** Reading a cell after writing one: the written cell reads back as the new
      character and every other cell reads as before. */
  lemma SetThenGet(cells: seq<char>, columns: u32, rows: u32, col: u32, row: u32, ch: char, c: u32, r: u32)
    requires columns * rows <= |cells| && columns * rows <= 0x1_0000_0000
    requires col < columns && row < rows
    ensures CellIndex(columns, col, row) < |cells|
    ensures CellAt(cells[CellIndex(columns, col, row) := ch], columns, rows, c, r)
         == if c == col && r == row then ch else CellAt(cells, columns, rows, c, r)
  {
    CellIndexInGrid(columns, rows, col, row);
    if c < columns && r < rows && (c != col || r != row) {
      CellIndexInGrid(columns, rows, c, r);
      if CellIndex(columns, col, row) == CellIndex(columns, c, r) {
        CellIndexInjective(columns, rows, col, row, c, r);
      }
    }
  }

  /** A canvas as a value: what blot_canvas_get sees of it. */
  datatype CanvasView = CanvasView(columns: u32, rows: u32, color: nat, cells: seq<char>)
  {
    predicate Valid()
    {
      columns * rows <= |cells|
    }

    function Get(col: u32, row: u32): char
      requires Valid()
    {
      CellAt(cells, columns, rows, col, row)
    }
  }

  /** The header's canvas: a grid of columns x rows characters, 0 for empty. */
  class Canvas {
    var columns: u32
    var rows: u32
    var flags: RenderFlags
    var color: nat
    var dataSize: nat
    var data: array<char>

    ghost predicate Valid()
      reads this
    {
      data.Length == dataSize && columns * rows <= dataSize
    }

    constructor(columns: u32, rows: u32, flags: RenderFlags, color: nat, data: array<char>)
      requires columns * rows <= data.Length
      ensures Valid()
      ensures this.columns == columns && this.rows == rows && this.flags == flags
      ensures this.color == color && this.data == data
    {
      this.columns := columns;
      this.rows := rows;
      this.flags := flags;
      this.color := color;
      this.dataSize := data.Length;
      this.data := data;
    }

    /** blot_canvas_get: 0 for a cell outside the grid, else its character. */
    function Get(col: u32, row: u32): (ch: char)
      reads this, data
      requires Valid()
      ensures (col >= columns || row >= rows) ==> ch == 0 as char
    {
      CellAt(data[..], columns, rows, col, row)
    }

    /** The canvas's current contents, as a value. */
    function View(): (v: CanvasView)
      reads this, data
      requires Valid()
      ensures v.Valid() && forall col, row :: v.Get(col, row) == Get(col, row)
    {
      CanvasView(columns, rows, color, data[..])
    }

    /** blot_canvas_set: refuses an out-of-range cell and changes nothing;
        otherwise stores ch at the cell's index and reports success. */
    method Set(col: u32, row: u32, ch: char) returns (ok: bool)
      requires Valid()
      modifies data
      ensures Valid()
      ensures ok <==> col < columns && row < rows
      ensures !ok ==> data[..] == old(data[..])
      ensures ok ==> CellIndex(columns, col, row) < data.Length
      ensures ok ==> data[..] == old(data[..])[CellIndex(columns, col, row) := ch]
      ensures ok ==> Get(col, row) == ch
    {
      if col >= columns {
        return false;
      }
      if row >= rows {
        return false;
      }
      var idx := CellIndex(columns, col, row);
      CellIndexInGrid(columns, rows, col, row);
      data[idx] := ch;
      assert data[..] == old(data[..])[idx := ch];
      ok := true;
    }
  }

  // ---- the library's bitmap canvas (lib/blot_canvas.c) ----

  /** The per-kind part of a bitmap canvas: the dot masks of a Braille canvas,
      or the character a plain canvas plots. */
  datatype Style = BrailleStyle(masks: seq<bv8>) | PlainStyle(plotChar: char)

  const BULLET: char := 0x2022 as char

  /** The geometry blot_canvas_new settles on before allocating. */
  datatype Geometry = Geometry(dim: Dimensions, bitmapSize: nat, bitmapBytes: nat, style: Style)

  /** ceil(size / cellSize), as `(size + cellSize - 1) / cellSize`. */
  function BitmapBytes(size: nat, cellSize: nat): nat
    requires cellSize >= 1
  {
    (size + cellSize - 1) / cellSize
  }

  /** The bitmap covers every cell, with less than one unit of slack. */
  lemma BitmapCoversGrid(size: nat, cellSize: nat)
    requires cellSize >= 1
    ensures BitmapBytes(size, cellSize) * cellSize >= size
    ensures size > 0 ==> (BitmapBytes(size, cellSize) - 1) * cellSize < size
    ensures size == 0 <==> BitmapBytes(size, cellSize) == 0
  {
    var b := BitmapBytes(size, cellSize);
    DivMod(size + cellSize - 1, cellSize);
    var m := (size + cellSize - 1) % cellSize;
    assert b * cellSize + m == size + cellSize - 1;
    if size > 0 {
      MulSubDistrib(b, 1, cellSize);
    }
    if b > 0 {
      MulAtLeast(b, cellSize);
    }
  }

  /** The choices blot_canvas_new makes: the error checks, the Braille scaling
      (in 32-bit unsigned arithmetic), the bitmap size, and the masks or plot
      character. */
  function Plan(cols: u32, rows: u32, flags: RenderFlags, cellSize: nat): (r: Outcome<Geometry>)
    requires cellSize >= 1
    ensures r == Fail(EINVAL) <==> cols == 0 || rows == 0
    ensures r == Fail(Callee) <==> cols > 0 && rows > 0 && Has(flags, RENDER_BRAILLE) && Has(flags, RENDER_NO_UNICODE)
    ensures r.Ok? || r.Fail?
    ensures r.Ok? ==> r.value.bitmapSize == r.value.dim.cols * r.value.dim.rows
    ensures r.Ok? ==> r.value.bitmapBytes * cellSize >= r.value.bitmapSize
    ensures r.Ok? && !Has(flags, RENDER_BRAILLE) ==> r.value.dim == Dimensions(cols, rows)
  {
    if cols == 0 || rows == 0 then Fail(EINVAL)
    else if Has(flags, RENDER_BRAILLE) && Has(flags, RENDER_NO_UNICODE) then Fail(Callee)
    else
      var dim := if Has(flags, RENDER_BRAILLE)
                 then Dimensions(U32(cols * GLYPH_COLS), U32(rows * GLYPH_ROWS))
                 else Dimensions(cols, rows);
      var size := dim.cols * dim.rows;
      var style := if !Has(flags, RENDER_BRAILLE) then PlainStyle(if Has(flags, RENDER_NO_UNICODE) then '*' else BULLET)
                   else if Has(flags, RENDER_DONT_INVERT_Y_AXIS) then BrailleStyle(MASKS)
                   else BrailleStyle(UPSIDEDOWN_MASKS);
      BitmapCoversGrid(size, cellSize);
      Ok(Geometry(dim, size, BitmapBytes(size, cellSize), style))
  }

  /** A Braille canvas of a sane size holds 2 x 4 dots per character cell and
      draws with the table matching its Y direction; a plain canvas plots '*'
      when Unicode is off and a bullet otherwise. */
  lemma PlanChoices(cols: u32, rows: u32, flags: RenderFlags, cellSize: nat)
    requires cellSize >= 1 && cols > 0 && rows > 0
    ensures var r := Plan(cols, rows, flags, cellSize);
      && (Has(flags, RENDER_BRAILLE) && !Has(flags, RENDER_NO_UNICODE) && cols < 0x8000_0000 && rows < 0x4000_0000 ==>
           r.Ok? && r.value.dim == Dimensions(2 * cols, 4 * rows) && r.value.bitmapSize == 8 * cols * rows
           && r.value.style == BrailleStyle(if Has(flags, RENDER_DONT_INVERT_Y_AXIS) then MASKS else UPSIDEDOWN_MASKS))
      && (!Has(flags, RENDER_BRAILLE) ==>
           r.Ok? && r.value.style == PlainStyle(if Has(flags, RENDER_NO_UNICODE) then '*' else BULLET)
           && r.value.bitmapSize == cols * rows && r.value.bitmapSize > 0)
  {
  }

  /** The library's canvas record. */
  class BitmapCanvas {
    var dim: Dimensions
    var flags: RenderFlags
    var color: nat
    var bitmapSize: nat
    var bitmapBytes: nat
    var style: Style
    var bitmap: array<bv8>

    constructor(g: Geometry, flags: RenderFlags, color: nat)
      ensures dim == g.dim && bitmapSize == g.bitmapSize && bitmapBytes == g.bitmapBytes && style == g.style
      ensures this.flags == flags && this.color == color
      ensures bitmap.Length == g.bitmapBytes && fresh(bitmap)
    {
      dim := g.dim;
      this.flags := flags;
      this.color := color;
      bitmapSize := g.bitmapSize;
      bitmapBytes := g.bitmapBytes;
      style := g.style;
      bitmap := new bv8[g.bitmapBytes];
    }

    /** blot_canvas_new: the checks and choices of Plan, then a fresh record
        whose bitmap is cleared byte by byte. */
    static method New(cols: u32, rows: u32, flags: RenderFlags, color: nat, cellSize: nat)
      returns (r: Outcome<BitmapCanvas>)
      requires cellSize >= 1
      ensures r.Ok? <==> Plan(cols, rows, flags, cellSize).Ok?
      ensures r.Fail? ==> Plan(cols, rows, flags, cellSize) == Fail(r.code)
      ensures r.Ok? || r.Fail?
      ensures r.Ok? ==> var g := Plan(cols, rows, flags, cellSize).value;
        && fresh(r.value) && fresh(r.value.bitmap)
        && r.value.dim == g.dim && r.value.bitmapSize == g.bitmapSize
        && r.value.bitmapBytes == g.bitmapBytes && r.value.style == g.style
        && r.value.flags == flags && r.value.color == color
        && r.value.bitmap.Length == g.bitmapBytes
        && (forall i | 0 <= i < r.value.bitmap.Length :: r.value.bitmap[i] == 0)
    {
      var plan := Plan(cols, rows, flags, cellSize);
      if plan.Fail? {
        return Fail(plan.code);
      }
      var can := new BitmapCanvas(plan.value, flags, color);
      var bitmap := can.bitmap;
      var i := 0;
      while i < bitmap.Length
        invariant 0 <= i <= bitmap.Length
        invariant forall k | 0 <= k < i :: bitmap[k] == 0
        modifies bitmap
      {
        bitmap[i] := 0;
        i := i + 1;
      }
      r := Ok(can);
    }
  }
}
