/** The argument checks of the C++ wrapper (include/blot.hpp): the element
    type of a std::vector selects the data-type tag, and Blot::Figure checks
    its vectors before handing them to the C figure; every failure is thrown
    as an exception carrying an errno code, here a Fail outcome. */
module BlotCpp {

  import opened BlotTypes
  import opened BlotLayer
  import opened BlotFigure

  /** The element type T of a std::vector: one of the five supported kinds,
      or any other type. */
  datatype ElemType = Supported(kind: NumKind) | Unsupported

  /** data_type<T>(): the homogeneous tag of T, or EINVAL thrown for a type
      the library cannot read. */
  function DataTypeOf(t: ElemType): (r: Outcome<DataType>)
    ensures r.Ok? <==> t.Supported?
    ensures r.Fail? ==> r.code == EINVAL
  {
    match t
    case Supported(k) => Ok(DataCode(k, k))
    case Unsupported => Fail(EINVAL)
  }

  /** The tags of the five supported types are the homogeneous codes, and each
      decodes back to its kind in both nibbles. */
  lemma DataTypeOfDecodes(k: NumKind)
    ensures DataTypeOf(Supported(k)).Ok?
    ensures XKindOf(DataTypeOf(Supported(k)).value) == Some(k)
    ensures YKindOf(DataTypeOf(Supported(k)).value) == Some(k)
    ensures k == Int16 ==> DataTypeOf(Supported(k)).value == DATA_INT16
    ensures k == Int32 ==> DataTypeOf(Supported(k)).value == DATA_INT32
    ensures k == Int64 ==> DataTypeOf(Supported(k)).value == DATA_INT64
    ensures k == Float ==> DataTypeOf(Supported(k)).value == DATA_FLOAT
    ensures k == Double ==> DataTypeOf(Supported(k)).value == DATA_DOUBLE
  {
    DataCodeRoundTrip(k, k);
  }

  /** The tag `plot` computes for X elements of kind x and Y elements of kind
      y reads each array at its own kind. */
  lemma CombinedTagDecodes(x: NumKind, y: NumKind)
    ensures CombineDataType(DataCode(x, x), DataCode(y, y)) == DataCode(x, y)
    ensures XKindOf(CombineDataType(DataCode(x, x), DataCode(y, y))) == Some(x)
    ensures YKindOf(CombineDataType(DataCode(x, x), DataCode(y, y))) == Some(y)
  {
    DataCodeRoundTrip(x, y);
    match x
    case Int16 => match y { case Int16 => case Int32 => case Int64 => case Float => case Double => }
    case Int32 => match y { case Int16 => case Int32 => case Int64 => case Float => case Double => }
    case Int64 => match y { case Int16 => case Int32 => case Int64 => case Float => case Double => }
    case Float => match y { case Int16 => case Int32 => case Int64 => case Float => case Double => }
    case Double => match y { case Int16 => case Int32 => case Int64 => case Float => case Double => }
  }

  /** Figure::plot<T,U>: EINVAL when there is no Y value or when a non-empty
      X vector differs in size from Y; an empty X vector becomes a NULL X
      array (X is then the index); the count is the size of Y and the tag
      combines the X kind of T with the Y kind of U; blot_figure_plot's
      failure is rethrown with its code. */
  method Plot(fig: Figure, plotType: nat, xs: seq<real>, xt: ElemType, ys: seq<real>, yt: ElemType,
              dataColor: nat, dataLabel: string) returns (r: Outcome<()>)
    modifies fig
    ensures r.Ok? <==> |ys| > 0 && (|xs| == 0 || |xs| == |ys|) && xt.Supported? && yt.Supported?
                       && ValidPlotType(plotType)
    ensures r.Ok? || r == Fail(EINVAL)
    ensures r.Fail? ==> fig.View() == old(fig.View())
    ensures r.Ok? ==> |fig.layers| == |old(fig.layers)| + 1 && fig.layers[..|old(fig.layers)|] == old(fig.layers)
    ensures r.Ok? ==> fig.View() == old(fig.View()).(layers := fig.layers)
    ensures r.Ok? ==> var lay := fig.layers[|old(fig.layers)|];
      && lay.plotType == plotType && lay.dataCount == |ys|
      && lay.dataType == DataCode(xt.kind, yt.kind)
      && lay.dataXs == (if |xs| == 0 then None else Some(Buffer(xt.kind, xs)))
      && lay.dataYs == Some(Buffer(yt.kind, ys))
      && lay.dataColor == dataColor && lay.dataLabel == dataLabel
  {
    if |ys| == 0 {
      return Fail(EINVAL);
    }
    if |xs| != 0 && |xs| != |ys| {
      return Fail(EINVAL);
    }
    var xType := DataTypeOf(xt);
    if xType.Fail? {
      return Fail(xType.code);
    }
    var yType := DataTypeOf(yt);
    if yType.Fail? {
      return Fail(yType.code);
    }
    var ptrYs := Buffer(yt.kind, ys);
    var ptrXs := if |xs| != 0 then Some(Buffer(xt.kind, xs)) else None;
    CombinedTagDecodes(xt.kind, yt.kind);
    r := fig.Plot(plotType, CombineDataType(xType.value, yType.value), |ys|, ptrXs, Some(ptrYs), dataColor, dataLabel);
  }

  /** Figure::set_x_axis_labels: EINVAL for an empty vector; otherwise its
      size and contents are stored, which the C call always accepts. */
  method SetXAxisLabels(fig: Figure, labels: seq<string>) returns (r: Outcome<()>)
    modifies fig
    ensures r.Ok? <==> |labels| > 0
    ensures r.Ok? || r == Fail(EINVAL)
    ensures r.Fail? ==> fig.View() == old(fig.View())
    ensures r.Ok? ==> fig.View() == old(fig.View()).(xlabels := LabelVector(|labels|, Some(labels)))
  {
    if |labels| == 0 {
      return Fail(EINVAL);
    }
    r := fig.SetXAxisLabels(|labels|, Some(labels));
  }
}
