/** The screen: a character buffer sized for the worst case, into which the
    canvases are merged row by row (lib/blot_screen.c). */
module BlotScreen {

  import opened BlotTypes
  import opened BlotUtils
  import BlotColor
  import opened BlotCanvas

  /** blot_screen_new's estimate: columns*rows in 32-bit arithmetic, one more
      cell for the clear-screen escape, and 16 bytes per cell. */
  function DataSize(columns: u32, rows: u32, flags: RenderFlags): (n: nat)
    ensures n % 16 == 0
    ensures Has(flags, RENDER_CLEAR) ==> n >= 16
    ensures n == 0 <==> !Has(flags, RENDER_CLEAR) && U32(columns * rows) == 0
  {
    (U32(columns * rows) + (if Has(flags, RENDER_CLEAR) then 1 else 0)) * 16
  }

  /** The text merge starts with: the clear-screen escape when asked for. */
  function Prefix(flags: RenderFlags): (s: string)
    ensures |s| == if Has(flags, RENDER_CLEAR) then 7 else 0
  {
    BlotColor.EscapeConstants();
    if Has(flags, RENDER_CLEAR) then BlotColor.CLR_SCR else []
  }

  predicate AllValid(cans: seq<CanvasView>)
  {
    forall i | 0 <= i < |cans| :: cans[i].Valid()
  }

  /** The character of the topmost of the first n canvases that has one at
      (x, y), or 0 when none of them has. */
  function TopChar(cans: seq<CanvasView>, n: nat, x: u32, y: u32): (ch: char)
    requires AllValid(cans) && n <= |cans|
  {
    if n == 0 then 0 as char
    else
      var ch := cans[n - 1].Get(x, y);
      if ch != 0 as char then ch else TopChar(cans, n - 1, x, y)
  }

  /** The last canvas with a character at (x, y) wins: TopChar is 0 exactly
      when no canvas has one, and otherwise it is the character of canvas i
      where every later canvas is empty there. */
  lemma {:induction false} TopCharIsLastNonEmpty(cans: seq<CanvasView>, n: nat, x: u32, y: u32)
    requires AllValid(cans) && n <= |cans|
    ensures TopChar(cans, n, x, y) == 0 as char <==> forall i | 0 <= i < n :: cans[i].Get(x, y) == 0 as char
    ensures TopChar(cans, n, x, y) != 0 as char ==>
      exists i | 0 <= i < n :: cans[i].Get(x, y) == TopChar(cans, n, x, y)
        && forall j | i < j < n :: cans[j].Get(x, y) == 0 as char
  {
    if n > 0 {
      TopCharIsLastNonEmpty(cans, n - 1, x, y);
      if cans[n - 1].Get(x, y) != 0 as char {
        assert cans[n - 1].Get(x, y) == TopChar(cans, n, x, y);
      } else if TopChar(cans, n, x, y) != 0 as char {
        var i :| 0 <= i < n - 1 && cans[i].Get(x, y) == TopChar(cans, n - 1, x, y)
          && forall j | i < j < n - 1 :: cans[j].Get(x, y) == 0 as char;
        assert forall j | i < j < n :: cans[j].Get(x, y) == 0 as char;
      }
    }
  }

  /** The screen character of cell (x, y): the top canvas character, else ' '. */
  function CellChar(cans: seq<CanvasView>, x: u32, y: u32): char
    requires AllValid(cans)
  {
    var t := TopChar(cans, |cans|, x, y);
    if t != 0 as char then t else ' '
  }

  /** The first n cells of row y. */
  function RowText(cans: seq<CanvasView>, y: u32, n: nat): (s: string)
    requires AllValid(cans) && n < 0x1_0000_0000
    ensures |s| == n
  {
    if n == 0 then [] else RowText(cans, y, n - 1) + [CellChar(cans, (n - 1) as u32, y)]
  }

  /** The first m rows of a screen `columns` wide, each ended by a newline. */
  function Rows(cans: seq<CanvasView>, columns: u32, m: nat): (s: string)
    requires AllValid(cans) && m < 0x1_0000_0000
  {
    if m == 0 then [] else Rows(cans, columns, m - 1) + RowText(cans, (m - 1) as u32, columns) + ['\n']
  }

  /** The whole text blot_screen_merge produces (without the closing NUL). */
  function ScreenText(cans: seq<CanvasView>, flags: RenderFlags, columns: u32, rows: u32): string
    requires AllValid(cans)
  {
    Prefix(flags) + Rows(cans, columns, rows)
  }

  /** Every row is `columns` cells and a newline. */
  lemma {:induction false} RowsLength(cans: seq<CanvasView>, columns: u32, m: nat)
    requires AllValid(cans) && m < 0x1_0000_0000
    ensures |Rows(cans, columns, m)| == m * (columns + 1)
  {
    if m > 0 {
      RowsLength(cans, columns, m - 1);
      assert m * (columns + 1) == (m - 1) * (columns + 1) + columns + 1;
    }
  }

  /** The text is (CLEAR ? 7 : 0) + rows * (columns + 1) characters long. */
  lemma ScreenTextLength(cans: seq<CanvasView>, flags: RenderFlags, columns: u32, rows: u32)
    requires AllValid(cans)
    ensures |ScreenText(cans, flags, columns, rows)| == |Prefix(flags)| + rows * (columns + 1)
  {
    RowsLength(cans, columns, rows);
  }

  /** The text of the first y rows is a prefix of that of the first m >= y rows. */
  lemma {:induction false} RowsPrefix(cans: seq<CanvasView>, columns: u32, y: nat, m: nat)
    requires AllValid(cans) && y <= m < 0x1_0000_0000
    ensures Rows(cans, columns, y) <= Rows(cans, columns, m)
    decreases m - y
  {
    if y < m {
      RowsPrefix(cans, columns, y, m - 1);
      var prev := Rows(cans, columns, m - 1);
      assert Rows(cans, columns, m) == prev + (RowText(cans, (m - 1) as u32, columns) + ['\n']);
    }
  }

  /** Cell x of row y sits |first y rows| + x characters into the text and is
      that cell's screen character; position `columns` of the row is its newline. */
  lemma RowsAt(cans: seq<CanvasView>, columns: u32, m: nat, y: nat, x: nat)
    requires AllValid(cans) && m < 0x1_0000_0000 && y < m && x <= columns
    ensures |Rows(cans, columns, y)| + x < |Rows(cans, columns, m)|
    ensures Rows(cans, columns, m)[|Rows(cans, columns, y)| + x] ==
      if x == columns then '\n' else CellChar(cans, x as u32, y as u32)
  {
    var pre := Rows(cans, columns, y);
    var row := RowText(cans, y as u32, columns);
    var next := Rows(cans, columns, y + 1);
    var full := Rows(cans, columns, m);
    assert next <= full by { RowsPrefix(cans, columns, y + 1, m); }
    assert next == pre + row + ['\n'];
    var i := |pre| + x;
    assert full[i] == next[i];
    if x < columns {
      assert next[i] == row[x];
      RowTextAt(cans, y as u32, columns, x);
    } else {
      assert next[i] == '\n';
    }
  }

  lemma {:induction false} RowTextAt(cans: seq<CanvasView>, y: u32, n: nat, x: nat)
    requires AllValid(cans) && n < 0x1_0000_0000 && x < n
    ensures RowText(cans, y, n)[x] == CellChar(cans, x as u32, y)
    decreases n
  {
    if x < n - 1 {
      RowTextAt(cans, y, n - 1, x);
    }
  }

  /** For a screen of at least one column and row whose cell count fits 32
      bits, the text and its NUL fit the estimate with room to spare. */
  lemma MergedTextFits(cans: seq<CanvasView>, flags: RenderFlags, columns: u32, rows: u32)
    requires AllValid(cans) && columns >= 1 && rows >= 1 && columns * rows < 0x1_0000_0000
    ensures |ScreenText(cans, flags, columns, rows)| < DataSize(columns, rows, flags)
  {
    ScreenTextLength(cans, flags, columns, rows);
    assert rows * (columns + 1) <= 2 * (columns * rows) by {
      assert rows * (columns + 1) == rows * columns + rows;
      MulAtLeast(columns, rows);
    }
  }

  /** A zero-sized screen: no columns (or no rows) and no CLEAR flag. */
  lemma ZeroSizedScreens(flags: RenderFlags, n: u32)
    requires !Has(flags, RENDER_CLEAR)
    ensures DataSize(0, n, flags) == 0 && DataSize(n, 0, flags) == 0
  {
  }

  /** blot_screen_new with the evidently intended check of canvas_new: zero
      dimensions are refused before a zero-sized buffer is allocated. */
  function NewChecked(columns: u32, rows: u32, flags: RenderFlags): (r: Outcome<nat>)
    ensures r.Fail? <==> columns == 0 || rows == 0
    ensures r.Ok? ==> r.value == DataSize(columns, rows, flags)
  {
    if columns == 0 || rows == 0 then Fail(EINVAL) else Ok(DataSize(columns, rows, flags))
  }

  /** With the check, every screen that merge can be asked to fill has a
      non-empty buffer and, while its cell count fits 32 bits, room for the
      whole text. */
  lemma CheckedScreensFit(cans: seq<CanvasView>, flags: RenderFlags, columns: u32, rows: u32)
    requires AllValid(cans) && NewChecked(columns, rows, flags).Ok? && columns * rows < 0x1_0000_0000
    ensures NewChecked(columns, rows, flags).value > 0
    ensures |ScreenText(cans, flags, columns, rows)| < NewChecked(columns, rows, flags).value
  {
    MergedTextFits(cans, flags, columns, rows);
  }

  /** The library's blot_screen. */
  class Screen {
    var flags: RenderFlags
    var columns: u32
    var rows: u32
    var dataSize: nat
    var dataUsed: nat
    var data: array<char>

    ghost predicate Valid()
      reads this
    {
      data.Length == dataSize && dataSize == DataSize(columns, rows, flags) && dataUsed <= dataSize
    }

    /** blot_screen_new (allocation cannot fail here). */
    constructor(columns: u32, rows: u32, flags: RenderFlags)
      ensures Valid() && fresh(data)
      ensures this.flags == flags && this.columns == columns && this.rows == rows
      ensures dataSize == DataSize(columns, rows, flags) && dataUsed == 0
    {
      var size: nat := U32(columns * rows);
      if Has(flags, RENDER_CLEAR) {
        size := size + 1;
      }
      size := size * 16;
      this.flags := flags;
      this.columns := columns;
      this.rows := rows;
      dataSize := size;
      dataUsed := 0;
      data := new char[size];
    }

    /** blot_screen_get_text: EFAULT for a NULL screen, else the used text. */
    static function GetText(scr: Screen?): (r: Outcome<string>)
      reads scr, if scr != null then {scr.data} else {}
      requires scr != null ==> scr.Valid()
      ensures r == Fail(EFAULT) <==> scr == null
      ensures r.Ok? ==> |r.value| == scr.dataUsed && r.value == scr.data[..scr.dataUsed]
    {
      if scr == null then Fail(EFAULT) else Ok(scr.data[..scr.dataUsed])
    }

    /** The topmost character the canvases hold at (x, y), and its colour
        (read, but never used). */
    static method TopCell(cans: seq<CanvasView>, x: u32, y: u32) returns (topCh: char, topCol: nat)
      requires AllValid(cans)
      ensures topCh == TopChar(cans, |cans|, x, y)
    {
      topCh := 0 as char;
      topCol := 0;
      var ci := 0;
      while ci < |cans|
        invariant 0 <= ci <= |cans|
        invariant topCh == TopChar(cans, ci, x, y)
      {
        var ch := cans[ci].Get(x, y);
        if ch != 0 as char {
          topCh := ch;
          topCol := cans[ci].color;
        }
        ci := ci + 1;
      }
    }

    /** blot_screen_merge: EFAULT for a NULL screen, else MergeInto. */
    static method Merge(scr: Screen?, cans: seq<CanvasView>) returns (r: Outcome<bool>)
      requires scr != null ==> scr.Valid()
      requires AllValid(cans)
      modifies if scr != null then {scr, scr.data} else {}
      ensures r == Fail(EFAULT) <==> scr == null
      ensures scr != null ==>
        && scr.flags == old(scr.flags) && scr.columns == old(scr.columns) && scr.rows == old(scr.rows)
        && scr.dataSize == old(scr.dataSize) && scr.data == old(scr.data)
      ensures scr != null ==> (r.Overrun? <==> scr.dataSize == 0)
      ensures scr != null && scr.dataSize > 0 ==>
        (r.Abort? <==> |ScreenText(cans, scr.flags, scr.columns, scr.rows)| >= scr.dataSize)
      ensures r.Ok? ==> var text := ScreenText(cans, scr.flags, scr.columns, scr.rows);
        && scr.Valid() && scr.dataUsed == |text| < scr.data.Length
        && scr.data[..scr.dataUsed] == text && scr.data[scr.dataUsed] == 0 as char
    {
      if scr == null {
        return Fail(EFAULT);
      }
      r := scr.MergeInto(cans);
    }

    /** The body of blot_screen_merge on a screen: writes the clear-screen
        escape if asked for, then every row's cells and a newline, checking
        after each character that the buffer has room left, then a NUL. */
    method MergeInto(cans: seq<CanvasView>) returns (r: Outcome<bool>)
      requires Valid() && AllValid(cans)
      modifies this, data
      ensures flags == old(flags) && columns == old(columns) && rows == old(rows)
      ensures dataSize == old(dataSize) && data == old(data)
      ensures r.Overrun? <==> dataSize == 0
      ensures dataSize > 0 ==> (r.Abort? <==> |ScreenText(cans, flags, columns, rows)| >= dataSize)
      ensures r.Ok? || r.Abort? || r.Overrun?
      ensures r.Ok? ==> var text := ScreenText(cans, flags, columns, rows);
        && Valid() && dataUsed == |text| < data.Length
        && data[..dataUsed] == text && data[dataUsed] == 0 as char
    {
      var data := this.data;
      var p := WritePrefix(data, flags);
      var body := MergeRows(data, p, cans, columns, rows, Prefix(flags));
      if !body.Ok? {
        return if body.Abort? then Abort else Overrun;
      }
      p := body.value;
      if p >= data.Length {
        return Overrun;
      }
      data[p] := 0 as char;
      dataUsed := p;
      r := Ok(true);
    }

    /** The clear-screen escape, copied to the start of the buffer when CLEAR is set. */
    static method WritePrefix(data: array<char>, flags: RenderFlags) returns (p: nat)
      requires Has(flags, RENDER_CLEAR) ==> data.Length >= 16
      modifies data
      ensures p == |Prefix(flags)| && data[..p] == Prefix(flags)
      ensures p < data.Length || (p == 0 && data.Length == 0)
    {
      p := 0;
      if Has(flags, RENDER_CLEAR) {
        BlotColor.EscapeConstants();
        var k := 0;
        while k < |BlotColor.CLR_SCR|
          invariant 0 <= k <= |BlotColor.CLR_SCR| && p == k
          invariant data[..p] == BlotColor.CLR_SCR[..k]
          modifies data
        {
          p := Put(data, p, BlotColor.CLR_SCR[k], BlotColor.CLR_SCR[..k]);
          assert BlotColor.CLR_SCR[..k] + [BlotColor.CLR_SCR[k]] == BlotColor.CLR_SCR[..k + 1];
          k := k + 1;
        }
      }
    }

    /** The rows loop of blot_screen_merge, starting at p0 after `before`. */
    static method MergeRows(data: array<char>, p0: nat, cans: seq<CanvasView>, columns: u32, rows: u32,
                            ghost before: string)
      returns (r: Outcome<nat>)
      requires AllValid(cans)
      requires p0 < data.Length || (p0 == 0 && data.Length == 0)
      requires data[..p0] == before
      modifies data
      ensures r.Ok? || r.Abort? || r.Overrun?
      ensures r.Overrun? <==> data.Length == 0 && rows > 0
      ensures r.Abort? ==> data.Length > 0
      ensures data.Length > 0 ==> (r.Abort? <==> |before + Rows(cans, columns, rows)| >= data.Length)
      ensures r.Ok? ==>
        && (r.value < data.Length || (r.value == 0 && data.Length == 0))
        && data[..r.value] == before + Rows(cans, columns, rows)
    {
      var p: nat := p0;
      var y: u32 := 0;
      while y < rows
        invariant 0 <= y <= rows
        invariant p < data.Length || (p == 0 && data.Length == 0)
        invariant data[..p] == before + Rows(cans, columns, y)
        modifies data
      {
        var row := MergeRow(data, p, cans, columns, y, before + Rows(cans, columns, y));
        if !row.Ok? {
          if row.Abort? {
            RowsPrefix(cans, columns, y + 1, rows);
            return Abort;
          }
          return Overrun;
        }
        p := row.value;
        assert data[..p] == before + Rows(cans, columns, y + 1);
        y := y + 1;
      }
      r := Ok(p);
    }

    /** Writes ch at p and moves past it. */
    static method Put(data: array<char>, p: nat, ch: char, ghost before: string) returns (q: nat)
      requires p < data.Length && data[..p] == before
      modifies data
      ensures q == p + 1 && data[..q] == before + [ch]
      ensures forall k | q <= k < data.Length :: data[k] == old(data[k])
    {
      data[p] := ch;
      q := p + 1;
      assert data[..q] == data[..p] + [ch];
    }

    /** One row of blot_screen_merge: each cell's top character (or ' ') and a
        newline, with the end-of-buffer check after each character. */
    static method MergeRow(data: array<char>, p0: nat, cans: seq<CanvasView>, columns: u32, y: u32, ghost before: string)
      returns (r: Outcome<nat>)
      requires AllValid(cans)
      requires p0 < data.Length || (p0 == 0 && data.Length == 0)
      requires data[..p0] == before
      modifies data
      ensures r.Overrun? <==> data.Length == 0
      ensures r.Abort? ==> data.Length > 0 && p0 + columns + 1 >= data.Length
      ensures r.Ok? || r.Abort? || r.Overrun?
      ensures data.Length > 0 && p0 + columns + 1 >= data.Length ==> r.Abort?
      ensures r.Ok? ==>
        && r.value == p0 + columns + 1 < data.Length
        && data[..r.value] == before + RowText(cans, y, columns) + ['\n']
    {
      var p := p0;
      var x: u32 := 0;
      while x < columns
        invariant 0 <= x <= columns && p == p0 + x
        invariant p < data.Length || (p == 0 && data.Length == 0)
        invariant data[..p] == before + RowText(cans, y, x)
        modifies data
      {
        var topCh, topCol := TopCell(cans, x, y);
        if p >= data.Length {
          return Overrun;
        }
        if topCh != 0 as char {
          p := Put(data, p, topCh, before + RowText(cans, y, x));
        } else {
          p := Put(data, p, ' ', before + RowText(cans, y, x));
        }
        if p >= data.Length {
          return Abort;
        }
        x := x + 1;
      }
      if p >= data.Length {
        return Overrun;
      }
      p := Put(data, p, '\n', before + RowText(cans, y, columns));
      if p >= data.Length {
        return Abort;
      }
      r := Ok(p);
    }
  }

  /** As written: a screen of 0 columns and 24 rows without CLEAR gets an
      empty buffer, and merging any canvases into it writes past that buffer
      (the newline ending the first row). */
  method ZeroColumnsMergeOverruns(cans: seq<CanvasView>) returns (r: Outcome<bool>)
    requires AllValid(cans)
    ensures r == Overrun
  {
    assert !Has(RENDER_NONE, RENDER_CLEAR);
    ZeroSizedScreens(RENDER_NONE, 24);
    var scr := new Screen(0, 24, RENDER_NONE);
    assert scr.dataSize == 0;
    r := Screen.Merge(scr, cans);
  }

}
