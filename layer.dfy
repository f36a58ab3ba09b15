/** Layers: the header's record with its typed element readers
    (include/blot_layer.h) and the library's constructor (lib/blot_layer.c),
    each on its own revision of the record. */
module BlotLayer {

  import opened BlotTypes

  /** A data array the caller owns: the kind its elements were stored as and
      their values (every kind converts exactly to a double). */
  datatype Buffer = Buffer(kind: NumKind, elems: seq<real>)

  /** The values a kind can hold (floating kinds are not constrained here). */
  predicate Fits(k: NumKind, v: real)
  {
    match k
    case Int16 => v.Floor as real == v && -0x8000 <= v.Floor < 0x8000
    case Int32 => v.Floor as real == v && -0x8000_0000 <= v.Floor < 0x8000_0000
    case Int64 => v.Floor as real == v && -0x8000_0000_0000_0000 <= v.Floor < 0x8000_0000_0000_0000
    case Float => true
    case Double => true
  }

  /** The outcome of reading one element: a value, a reported error, a
      g_error abort, or a read C leaves undefined (past the end of the array,
      or at a width other than the one the data was stored with). */
  datatype Read<+T> = Got(v: T) | Failed(code: Errno) | Aborted | Undefined

  /** `((const T *)buf)[index]` for the kind T the data type names. */
  function ReadAs(buf: Buffer, k: NumKind, index: nat): (r: Read<real>)
    ensures r.Got? <==> k == buf.kind && index < |buf.elems|
    ensures r.Got? ==> r.v == buf.elems[index]
    ensures !r.Got? ==> r == Undefined
  {
    if k == buf.kind && index < |buf.elems| then Got(buf.elems[index]) else Undefined
  }

  /** The header's blot_layer: the data arrays are borrowed, NULL is None. */
  datatype LayerView = LayerView(plotType: nat, dataType: DataType, count: nat,
                                 xs: Option<Buffer>, ys: Option<Buffer>,
                                 color: nat, caption: string)

  /** blot_layer_get_x, as written: the range check lets index == count through. */
  function GetX(lay: LayerView, index: u32): (r: Read<real>)
    ensures r == Failed(ERANGE) <==> index > lay.count
    ensures index <= lay.count && lay.xs.None? ==> r == Got(index as real)
    ensures r == Aborted <==> index <= lay.count && lay.xs.Some? && XKindOf(lay.dataType).None?
    ensures index <= lay.count && lay.xs.Some? && XKindOf(lay.dataType).Some? ==>
      r == ReadAs(lay.xs.value, XKindOf(lay.dataType).value, index)
  {
    if index > lay.count then Failed(ERANGE)
    else if lay.xs.None? then Got(index as real)
    else match XKindOf(lay.dataType)
      case None => Aborted
      case Some(k) => ReadAs(lay.xs.value, k, index)
  }

  /** blot_layer_get_y, as written: NULL ys is reported before the range check. */
  function GetY(lay: LayerView, index: u32): (r: Read<real>)
    ensures lay.ys.None? ==> r == Failed(ENOENT)
    ensures r == Failed(ERANGE) <==> lay.ys.Some? && index > lay.count
    ensures r == Aborted <==> lay.ys.Some? && index <= lay.count && YKindOf(lay.dataType).None?
    ensures lay.ys.Some? && index <= lay.count && YKindOf(lay.dataType).Some? ==>
      r == ReadAs(lay.ys.value, YKindOf(lay.dataType).value, index)
  {
    if lay.ys.None? then Failed(ENOENT)
    else if index > lay.count then Failed(ERANGE)
    else match YKindOf(lay.dataType)
      case None => Aborted
      case Some(k) => ReadAs(lay.ys.value, k, index)
  }

  /** blot_layer_get_x_y: stops at the first failure of get_x, so y is only
      read when x was. */
  function GetXY(lay: LayerView, index: u32): (r: Read<(real, real)>)
    ensures !GetX(lay, index).Got? ==> r == Lift(GetX(lay, index))
    ensures GetX(lay, index).Got? && GetY(lay, index).Got? ==> r == Got((GetX(lay, index).v, GetY(lay, index).v))
    ensures GetX(lay, index).Got? && !GetY(lay, index).Got? ==> r == Lift(GetY(lay, index))
  {
    var x := GetX(lay, index);
    if !x.Got? then Lift(x)
    else
      var y := GetY(lay, index);
      if !y.Got? then Lift(y) else Got((x.v, y.v))
  }

  /** A failed read of one coordinate, as a failed read of the pair. */
  function Lift(r: Read<real>): Read<(real, real)>
    requires !r.Got?
  {
    match r
    case Failed(c) => Failed(c)
    case Aborted => Aborted
    case Undefined => Undefined
  }

  /** A layer whose arrays hold `count` elements of the kinds its data type
      names, as the library's callers set it up. */
  predicate WellFormed(lay: LayerView)
  {
    && XKindOf(lay.dataType).Some? && YKindOf(lay.dataType).Some?
    && (lay.xs.Some? ==> lay.xs.value.kind == XKindOf(lay.dataType).value && |lay.xs.value.elems| == lay.count)
    && (lay.ys.Some? ==> lay.ys.value.kind == YKindOf(lay.dataType).value && |lay.ys.value.elems| == lay.count)
    && (lay.xs.Some? ==> forall i | 0 <= i < |lay.xs.value.elems| :: Fits(lay.xs.value.kind, lay.xs.value.elems[i]))
    && (lay.ys.Some? ==> forall i | 0 <= i < |lay.ys.value.elems| :: Fits(lay.ys.value.kind, lay.ys.value.elems[i]))
  }

  /** The reference meaning of element i of a well-formed layer: its X is the
      stored value, or i itself when there is no X array. */
  function XOf(lay: LayerView, i: nat): real
    requires WellFormed(lay) && i < lay.count
  {
    if lay.xs.None? then i as real else lay.xs.value.elems[i]
  }

  /** In range, the readers return the stored element of a well-formed layer. */
  lemma GetXYInRange(lay: LayerView, index: u32)
    requires WellFormed(lay) && lay.ys.Some? && index < lay.count
    ensures GetXY(lay, index) == Got((XOf(lay, index), lay.ys.value.elems[index]))
  {
  }

  /** The X reader depends on the low nibble only and the Y reader on the high
      nibble only, so a mixed code reads each array at its own width. */
  lemma NibblesDecodeIndependently(lay: LayerView, index: u32, other: DataType)
    ensures other & X_MASK == lay.dataType & X_MASK ==>
      GetX(lay.(dataType := other), index) == GetX(lay, index)
    ensures other & Y_MASK == lay.dataType & Y_MASK ==>
      GetY(lay.(dataType := other), index) == GetY(lay, index)
  {
  }

  /** The unit test's mixed layer: X read as doubles, Y as 32-bit integers. */
  lemma MixedCodeExample()
    ensures var lay := LayerView(SCATTER, DataCode(Double, Int32), 2,
                                 Some(Buffer(Double, [0.5, 1.5])), Some(Buffer(Int32, [7.0, 8.0])), 1, "mixed");
      GetXY(lay, 1) == Got((1.5, 8.0)) && GetXY(lay, 3) == Failed(ERANGE)
  {
    DataCodeRoundTrip(Double, Int32);
  }

  /** As written, index == count passes the range check, and with an array of
      exactly `count` elements the read falls one past its end. */
  lemma GetXReadsPastEnd()
    ensures var lay := LayerView(SCATTER, DATA_INT32, 3, Some(Buffer(Int32, [1.0, 2.0, 3.0])),
                                 Some(Buffer(Int32, [4.0, 5.0, 6.0])), 1, "label");
      WellFormed(lay) && GetX(lay, 3) == Undefined && GetY(lay, 3) == Undefined && GetX(lay, 4) == Failed(ERANGE)
  {
    DataCodeRoundTrip(Int32, Int32);
  }

  /** get_x with the evidently intended check `index >= count`. */
  function GetXChecked(lay: LayerView, index: u32): (r: Read<real>)
  {
    if index >= lay.count then Failed(ERANGE) else GetX(lay, index)
  }

  /** get_y with the evidently intended check `index >= count`. */
  function GetYChecked(lay: LayerView, index: u32): (r: Read<real>)
  {
    if lay.ys.None? then Failed(ENOENT)
    else if index >= lay.count then Failed(ERANGE)
    else GetY(lay, index)
  }

  /** With the corrected check a well-formed layer never reads out of bounds:
      every index below count yields its element, every other index ERANGE. */
  lemma CheckedReadersAreDefined(lay: LayerView, index: u32)
    requires WellFormed(lay)
    ensures GetXChecked(lay, index).Got? <==> index < lay.count
    ensures index < lay.count ==> GetXChecked(lay, index) == Got(XOf(lay, index))
    ensures index >= lay.count ==> GetXChecked(lay, index) == Failed(ERANGE)
    ensures lay.ys.Some? ==> (GetYChecked(lay, index).Got? <==> index < lay.count)
    ensures lay.ys.Some? && index < lay.count ==> GetYChecked(lay, index) == Got(lay.ys.value.elems[index])
    ensures lay.ys.Some? && index >= lay.count ==> GetYChecked(lay, index) == Failed(ERANGE)
    ensures lay.ys.None? ==> GetYChecked(lay, index) == Failed(ENOENT)
  {
  }

  // ---- lib/blot_layer.c ----

  /** The library's layer record: everything blot_layer_new was given. */
  class LayerRecord {
    const plotType: nat
    const dataType: DataType
    const dataCount: nat
    const dataXs: Option<Buffer>
    const dataYs: Option<Buffer>
    const dataColor: nat
    const dataLabel: string

    constructor(plotType: nat, dataType: DataType, dataCount: nat, dataXs: Option<Buffer>,
                dataYs: Option<Buffer>, dataColor: nat, dataLabel: string)
      ensures this.plotType == plotType && this.dataType == dataType && this.dataCount == dataCount
      ensures this.dataXs == dataXs && this.dataYs == dataYs
      ensures this.dataColor == dataColor && this.dataLabel == dataLabel
    {
      this.plotType := plotType;
      this.dataType := dataType;
      this.dataCount := dataCount;
      this.dataXs := dataXs;
      this.dataYs := dataYs;
      this.dataColor := dataColor;
      this.dataLabel := dataLabel;
    }

    /** blot_layer_new: EINVAL for an unknown plot type; nothing else is checked
        (a zero count, missing arrays and an unknown data type are accepted),
        and every argument is stored unchanged. */
    static method New(plotType: nat, dataType: DataType, dataCount: nat, dataXs: Option<Buffer>,
                      dataYs: Option<Buffer>, dataColor: nat, dataLabel: string)
      returns (r: Outcome<LayerRecord>)
      ensures r == Fail(EINVAL) <==> !ValidPlotType(plotType)
      ensures r.Ok? <==> ValidPlotType(plotType)
      ensures r.Ok? ==> fresh(r.value)
      ensures r.Ok? ==>
        && r.value.plotType == plotType && r.value.dataType == dataType
        && r.value.dataCount == dataCount && r.value.dataXs == dataXs && r.value.dataYs == dataYs
        && r.value.dataColor == dataColor && r.value.dataLabel == dataLabel
    {
      if plotType >= PLOT_TYPE_MAX {
        return Fail(EINVAL);
      }
      var lay := new LayerRecord(plotType, dataType, dataCount, dataXs, dataYs, dataColor, dataLabel);
      r := Ok(lay);
    }
  }
}
