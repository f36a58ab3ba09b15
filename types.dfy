/** Enumerations, bit masks and small records shared by the whole library
    (include/blot_types.h), plus the error outcome every fallible call returns. */
module BlotTypes {

  /** The errno codes the library stores in a GError.  `Callee` stands for
      whatever code a callee outside this model (or the C `errno`) left behind. */
  datatype Errno = EINVAL | EFAULT | ENOENT | ERANGE | Callee

  /** The result of a call that can fail: a value, a reported error, the
      process being stopped by g_error / g_assert / exit(1), or a write past
      the end of a buffer (undefined behaviour in C). */
  datatype Outcome<+T> = Ok(value: T) | Fail(code: Errno) | Abort | Overrun

  type u8 = x: int | 0 <= x < 0x100
  type u32 = x: int | 0 <= x < 0x1_0000_0000

  /** C `unsigned` arithmetic wraps modulo 2^32. */
  function U32(x: int): (r: u32)
    ensures 0 <= x < 0x1_0000_0000 ==> r == x
  {
    x % 0x1_0000_0000
  }

  // ---- blot_plot_type (an unsigned enum; out-of-range values can be passed) ----

  const SCATTER: nat := 0
  const LINE: nat := 1
  const BAR: nat := 2
  const PLOT_TYPE_MAX: nat := 3

  predicate ValidPlotType(t: nat) { t < PLOT_TYPE_MAX }

  // ---- blot_data_type: X kind in the low nibble, Y kind in the high nibble ----

  type DataType = bv32

  const X_MASK: DataType := 0x000F
  const X_INT16: DataType := 0x0000
  const X_INT32: DataType := 0x0001
  const X_INT64: DataType := 0x0002
  const X_FLOAT: DataType := 0x0003
  const X_DOUBLE: DataType := 0x0004

  const Y_MASK: DataType := 0x00F0
  const Y_INT16: DataType := 0x0000
  const Y_INT32: DataType := 0x0010
  const Y_INT64: DataType := 0x0020
  const Y_FLOAT: DataType := 0x0030
  const Y_DOUBLE: DataType := 0x0040

  /** The five element kinds a data array may hold. */
  datatype NumKind = Int16 | Int32 | Int64 | Float | Double

  /** The X_* constant of a kind (its code in the low nibble). */
  function XCode(k: NumKind): DataType
  {
    match k
    case Int16 => X_INT16
    case Int32 => X_INT32
    case Int64 => X_INT64
    case Float => X_FLOAT
    case Double => X_DOUBLE
  }

  /** The Y_* constant of a kind (its code in the high nibble). */
  function YCode(k: NumKind): DataType
  {
    match k
    case Int16 => Y_INT16
    case Int32 => Y_INT32
    case Int64 => Y_INT64
    case Float => Y_FLOAT
    case Double => Y_DOUBLE
  }

  /** The macro BLOT_DATA_(X,Y): the X constant OR the Y constant. */
  function DataCode(x: NumKind, y: NumKind): (t: DataType)
    ensures t & X_MASK == XCode(x) && t & Y_MASK == YCode(y)
  {
    XCode(x) | YCode(y)
  }

  const DATA_INT16: DataType := DataCode(Int16, Int16)
  const DATA_INT32: DataType := DataCode(Int32, Int32)
  const DATA_INT64: DataType := DataCode(Int64, Int64)
  const DATA_FLOAT: DataType := DataCode(Float, Float)
  const DATA_DOUBLE: DataType := DataCode(Double, Double)
  const DATA_TYPE_MAX: DataType := X_MASK | Y_MASK

  /** The macro BLOT_DATA_TYPE(x,y): the X part of x combined with the Y part of y. */
  function CombineDataType(x: DataType, y: DataType): (r: DataType)
    ensures r & X_MASK == x & X_MASK
    ensures r & Y_MASK == y & Y_MASK
    ensures r & !(X_MASK | Y_MASK) == 0
  {
    (x & X_MASK) | (y & Y_MASK)
  }

  /** Decoding of the low nibble: the kinds 0..4, anything else is unknown. */
  function XKindOf(t: DataType): (r: Option<NumKind>)
    ensures r.Some? <==> t & X_MASK <= 4
    ensures r.Some? ==> XCode(r.value) == t & X_MASK
  {
    var n := t & X_MASK;
    if n == X_INT16 then Some(Int16)
    else if n == X_INT32 then Some(Int32)
    else if n == X_INT64 then Some(Int64)
    else if n == X_FLOAT then Some(Float)
    else if n == X_DOUBLE then Some(Double)
    else None
  }

  /** Decoding of the high nibble: the kinds 0x00..0x40, anything else is unknown. */
  function YKindOf(t: DataType): (r: Option<NumKind>)
    ensures r.Some? <==> t & Y_MASK <= 0x40
    ensures r.Some? ==> YCode(r.value) == t & Y_MASK
  {
    var n := t & Y_MASK;
    if n == Y_INT16 then Some(Int16)
    else if n == Y_INT32 then Some(Int32)
    else if n == Y_INT64 then Some(Int64)
    else if n == Y_FLOAT then Some(Float)
    else if n == Y_DOUBLE then Some(Double)
    else None
  }

  datatype Option<+T> = None | Some(value: T)

  /** Masking a composite code recovers each kind: the nibbles do not overlap. */
  lemma DataCodeRoundTrip(x: NumKind, y: NumKind)
    ensures XKindOf(DataCode(x, y)) == Some(x)
    ensures YKindOf(DataCode(x, y)) == Some(y)
    ensures DataCode(x, y) <= DATA_TYPE_MAX
  {
    match x
    case Int16 => match y { case Int16 => case Int32 => case Int64 => case Float => case Double => }
    case Int32 => match y { case Int16 => case Int32 => case Int64 => case Float => case Double => }
    case Int64 => match y { case Int16 => case Int32 => case Int64 => case Float => case Double => }
    case Float => match y { case Int16 => case Int32 => case Int64 => case Float => case Double => }
    case Double => match y { case Int16 => case Int32 => case Int64 => case Float => case Double => }
  }

  /** Distinct kind pairs give distinct codes. */
  lemma DataCodeInjective(x1: NumKind, y1: NumKind, x2: NumKind, y2: NumKind)
    requires DataCode(x1, y1) == DataCode(x2, y2)
    ensures x1 == x2 && y1 == y2
  {
    DataCodeRoundTrip(x1, y1);
    DataCodeRoundTrip(x2, y2);
  }

  /** The homogeneous codes are 0x00, 0x11, 0x22, 0x33, 0x44 and the maximum is 0xFF. */
  lemma HomogeneousCodes()
    ensures DATA_INT16 == 0x00 && DATA_INT32 == 0x11 && DATA_INT64 == 0x22
    ensures DATA_FLOAT == 0x33 && DATA_DOUBLE == 0x44
    ensures DATA_TYPE_MAX == 0xFF
  {
  }

  // ---- blot_render_flags: a bitmask ----

  type RenderFlags = bv32

  const RENDER_NONE: RenderFlags := 0x000
  const RENDER_CLEAR: RenderFlags := 0x001
  const RENDER_BRAILLE: RenderFlags := 0x002
  const RENDER_DONT_INVERT_Y_AXIS: RenderFlags := 0x004
  const RENDER_NO_UNICODE: RenderFlags := 0x008
  const RENDER_NO_COLOR: RenderFlags := 0x010
  const RENDER_LEGEND_ABOVE: RenderFlags := 0x020
  const RENDER_LEGEND_BELOW: RenderFlags := 0x040
  const RENDER_NO_X_AXIS: RenderFlags := 0x080
  const RENDER_NO_Y_AXIS: RenderFlags := 0x100
  const RENDER_LEGEND_DETAILS: RenderFlags := 0x200

  /** All flags other than NONE, in declaration order. */
  const ALL_FLAGS: seq<RenderFlags> := [RENDER_CLEAR, RENDER_BRAILLE, RENDER_DONT_INVERT_Y_AXIS,
    RENDER_NO_UNICODE, RENDER_NO_COLOR, RENDER_LEGEND_ABOVE, RENDER_LEGEND_BELOW,
    RENDER_NO_X_AXIS, RENDER_NO_Y_AXIS, RENDER_LEGEND_DETAILS]

  /** The test `flags & f` that every consumer of the flags performs. */
  predicate Has(flags: RenderFlags, f: RenderFlags)
  {
    flags & f != 0
  }

  /** Every flag is a single bit, and they are pairwise distinct. */
  lemma FlagsAreDistinctBits()
    ensures forall i | 0 <= i < |ALL_FLAGS| :: ALL_FLAGS[i] != 0 && ALL_FLAGS[i] & (ALL_FLAGS[i] - 1) == 0
    ensures forall i, j | 0 <= i < j < |ALL_FLAGS| :: ALL_FLAGS[i] & ALL_FLAGS[j] == 0
  {
  }

  /** Setting one flag never changes the test of another one. */
  lemma SetFlagKeepsOthers(flags: RenderFlags, i: nat, j: nat)
    requires i < |ALL_FLAGS| && j < |ALL_FLAGS| && i != j
    ensures Has(flags | ALL_FLAGS[i], ALL_FLAGS[j]) == Has(flags, ALL_FLAGS[j])
    ensures Has(flags | ALL_FLAGS[i], ALL_FLAGS[i])
  {
    FlagsAreDistinctBits();
  }

  // ---- records ----

  /** blot_xy_limits: the data-space bounding box. */
  datatype XYLimits = XYLimits(xMin: real, xMax: real, yMin: real, yMax: real)

  /** blot_margins, in character cells. */
  datatype Margins = Margins(left: u32, right: u32, top: u32, bottom: u32)

  /** blot_dimensions, in character cells. */
  datatype Dimensions = Dimensions(cols: u32, rows: u32)
}
