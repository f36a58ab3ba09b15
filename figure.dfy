/** The top-level figure (include/blot_figure.h, lib/blot_figure.c): validated
    configuration setters, appending layers, and the render pipeline that
    settles the screen size, the data limits, the margins and the usable area
    before building one canvas per layer and handing everything to a screen. */
module BlotFigure {

  import opened BlotTypes
  import opened BlotUtils
  import BlotColor
  import opened BlotLayer

  const MIN_COLS: nat := 10
  const MIN_ROWS: nat := 10
  const MAX_COLS: nat := 1000
  const MAX_ROWS: nat := 1000

  /** blot_strv: a label count and the string array, which may be NULL (None). */
  datatype LabelVector = LabelVector(count: nat, strings: Option<seq<string>>)

  /** The fields of a blot_figure, as a value. */
  datatype FigureView = FigureView(
    axisColor: nat,
    screenDimensionsSet: bool,
    dim: Dimensions,
    xLimitsSet: bool,
    yLimitsSet: bool,
    lim: XYLimits,
    xlabels: LabelVector,
    layers: seq<LayerRecord>)
  {
    /** What the setters and blot_figure_plot guarantee about the configuration. */
    predicate Valid()
    {
      && (screenDimensionsSet ==> MIN_COLS <= dim.cols <= MAX_COLS && MIN_ROWS <= dim.rows <= MAX_ROWS)
      && (xLimitsSet ==> lim.xMin < lim.xMax)
      && (yLimitsSet ==> lim.yMin < lim.yMax)
      && ((xlabels.count != 0) == xlabels.strings.Some?)
      && (forall i | 0 <= i < |layers| :: ValidPlotType(layers[i].plotType))
    }
  }

  // ---- blot_figure_finalize_dimensions ----

  /** The configured size when one was set; otherwise the terminal size
      (`terminal`, None when blot_terminal_get_size fails) less a one-cell
      border, computed as max_t(unsigned, cols - 2, BLOT_MIN_COLS). */
  function FinalizeDimensions(sizeSet: bool, dim: Dimensions, terminal: Option<Dimensions>): (r: Outcome<Dimensions>)
    ensures r.Ok? || r.Fail?
    ensures sizeSet ==> r == Ok(dim)
    ensures !sizeSet && terminal.None? ==> r == Fail(Callee)
  {
    if sizeSet then Ok(dim)
    else if terminal.None? then Fail(Callee)
    else
      var cols := MaxT(UINT32, terminal.value.cols - 2, MIN_COLS);
      var rows := MaxT(UINT32, terminal.value.rows - 2, MIN_ROWS);
      if cols < MIN_COLS then Fail(EINVAL)
      else if rows < MIN_ROWS then Fail(EINVAL)
      else Ok(Dimensions(cols, rows))
  }

  /** As written: a terminal size is always accepted (the EINVAL checks after
      max_t cannot fire); from 12 cells on, the border is taken off; below 12
      the minimum is used, except that 0 or 1 wraps around in the unsigned
      subtraction and yields a size near 2^32. */
  lemma FinalizeDimensionsFromTerminal(dim: Dimensions, t: Dimensions)
    ensures FinalizeDimensions(false, dim, Some(t)).Ok?
    ensures var d := FinalizeDimensions(false, dim, Some(t)).value;
      && d.cols >= MIN_COLS && d.rows >= MIN_ROWS
      && (t.cols >= MIN_COLS + 2 ==> d.cols == t.cols - 2)
      && (2 <= t.cols < MIN_COLS + 2 ==> d.cols == MIN_COLS)
      && (t.cols < 2 ==> d.cols == 0x1_0000_0000 + t.cols - 2)
      && (t.rows >= MIN_ROWS + 2 ==> d.rows == t.rows - 2)
      && (2 <= t.rows < MIN_ROWS + 2 ==> d.rows == MIN_ROWS)
      && (t.rows < 2 ==> d.rows == 0x1_0000_0000 + t.rows - 2)
  {
    BorderedSide(t.cols, MIN_COLS);
    BorderedSide(t.rows, MIN_ROWS);
  }

  /** max_t(unsigned, n - 2, minimum) for one side of the terminal. */
  lemma BorderedSide(n: u32, minimum: nat)
    requires minimum <= 0xFFFF_FFFE
    ensures var s := MaxT(UINT32, n - 2, minimum);
      && s >= minimum
      && (n >= minimum + 2 ==> s == n - 2)
      && (2 <= n < minimum + 2 ==> s == minimum)
      && (n < 2 ==> s == 0x1_0000_0000 + n - 2)
  {
    UnsignedBorder(n);
    LemmaModUnique(minimum, 0x1_0000_0000, 0, minimum);
  }

  /** n - 2 in unsigned arithmetic: n - 2, or n - 2 + 2^32 when n < 2. */
  lemma UnsignedBorder(n: u32)
    ensures Conv(UINT32, n - 2) == if n >= 2 then n - 2 else 0x1_0000_0000 + n - 2
  {
    if n >= 2 {
      LemmaModUnique(n - 2, 0x1_0000_0000, 0, n - 2);
    } else {
      LemmaModUnique(n - 2, 0x1_0000_0000, -1, 0x1_0000_0000 + n - 2);
    }
  }

  /** The discrepancy: a terminal that reports one column gives a figure
      4294967295 columns wide. */
  lemma TinyTerminalWraps()
    ensures FinalizeDimensions(false, Dimensions(0, 0), Some(Dimensions(1, 24))) == Ok(Dimensions(0xFFFF_FFFF, 22))
  {
    FinalizeDimensionsFromTerminal(Dimensions(0, 0), Dimensions(1, 24));
  }

  /** finalize_dimensions with the evidently intended max(cols - 2, minimum)
      taken without wrap-around. */
  function FinalizeDimensionsChecked(sizeSet: bool, dim: Dimensions, terminal: Option<Dimensions>): (r: Outcome<Dimensions>)
  {
    if sizeSet then Ok(dim)
    else if terminal.None? then Fail(Callee)
    else
      var t := terminal.value;
      Ok(Dimensions(if t.cols >= MIN_COLS + 2 then t.cols - 2 else MIN_COLS,
                    if t.rows >= MIN_ROWS + 2 then t.rows - 2 else MIN_ROWS))
  }

  /** The corrected size is never below the minimum and never wider or taller
      than the terminal unless the terminal is below the minimum itself; it
      agrees with the code as written whenever the terminal reports at least
      two columns and two rows. */
  lemma CheckedDimensionsFitTerminal(dim: Dimensions, t: Dimensions)
    ensures FinalizeDimensionsChecked(false, dim, Some(t)).Ok?
    ensures var d := FinalizeDimensionsChecked(false, dim, Some(t)).value;
      && MIN_COLS <= d.cols && MIN_ROWS <= d.rows
      && (d.cols <= t.cols || d.cols == MIN_COLS)
      && (d.rows <= t.rows || d.rows == MIN_ROWS)
    ensures t.cols >= 2 && t.rows >= 2 ==>
      FinalizeDimensionsChecked(false, dim, Some(t)) == FinalizeDimensions(false, dim, Some(t))
  {
    if t.cols >= 2 && t.rows >= 2 {
      FinalizeDimensionsFromTerminal(dim, t);
    }
  }

  // ---- blot_figure_finalize_limits ----

  /** The bounding box of two boxes: min_t / max_t on each side. */
  function Union(a: XYLimits, b: XYLimits): (r: XYLimits)
  {
    XYLimits(MinR(a.xMin, b.xMin), MaxR(a.xMax, b.xMax), MinR(a.yMin, b.yMin), MaxR(a.yMax, b.yMax))
  }

  predicate Ordered(l: XYLimits)
  {
    l.xMin <= l.xMax && l.yMin <= l.yMax
  }

  /** Box `a` lies inside box `b`. */
  predicate Inside(a: XYLimits, b: XYLimits)
  {
    b.xMin <= a.xMin && a.xMax <= b.xMax && b.yMin <= a.yMin && a.yMax <= b.yMax
  }

  /** Where the loop of finalize_limits stands: no non-empty layer seen yet,
      the union of those seen, or a failure of blot_layer_get_lim. */
  datatype Scan = Nothing | Box(u: XYLimits) | LimFailed

  /** The loop of finalize_limits over a prefix of the layers: empty layers are
      skipped, the first failure of blot_layer_get_lim (`getLim` yields None)
      stops it, and otherwise it holds the union seen so far. */
  function Accumulate(layers: seq<LayerRecord>, getLim: LayerRecord -> Option<XYLimits>): (s: Scan)
    ensures s.Box? ==> exists i | 0 <= i < |layers| :: layers[i].dataCount > 0 && getLim(layers[i]).Some?
    decreases |layers|
  {
    if layers == [] then Nothing
    else
      var acc := Accumulate(layers[..|layers| - 1], getLim);
      var lay := layers[|layers| - 1];
      if acc.LimFailed? || lay.dataCount == 0 then acc
      else if getLim(lay).None? then LimFailed
      else if acc.Nothing? then Box(getLim(lay).value)
      else Box(Union(acc.u, getLim(lay).value))
  }

  /** The 0.1% of the range, else 10% of the magnitude of the single value,
      else 0.1 when that value is zero. */
  function Fudge(lo: real, hi: real): real
  {
    var range := hi - lo;
    if range != 0.0 then range * 0.001
    else if lo == 0.0 then 0.1
    else if lo * 0.1 >= 0.0 then lo * 0.1 else -(lo * 0.1)
  }

  /** Widening of the union on both sides of both axes. */
  function Widen(l: XYLimits): XYLimits
  {
    var fx := Fudge(l.xMin, l.xMax);
    var fy := Fudge(l.yMin, l.yMax);
    XYLimits(l.xMin - fx, l.xMax + fx, l.yMin - fy, l.yMax + fy)
  }

  /** blot_figure_finalize_limits: the explicit limits when both X and Y were
      set (one alone is ignored); otherwise the widened union of the non-empty
      layers' limits, ENOENT when there is none. */
  function LimitsOf(v: FigureView, getLim: LayerRecord -> Option<XYLimits>): (r: Outcome<XYLimits>)
    ensures r.Ok? || r.Fail?
    ensures v.xLimitsSet && v.yLimitsSet ==> r == Ok(v.lim)
    ensures r.Fail? ==> r.code == ENOENT || r.code == Callee
  {
    if v.xLimitsSet && v.yLimitsSet then Ok(v.lim)
    else
      match Accumulate(v.layers, getLim)
      case Nothing => Fail(ENOENT)
      case Box(u) => Ok(Widen(u))
      case LimFailed => Fail(Callee)
  }

  /** A failure of the loop is final: later layers do not change it. */
  lemma {:induction false} AccumulateFailureSticks(layers: seq<LayerRecord>, k: nat, getLim: LayerRecord -> Option<XYLimits>)
    requires k <= |layers|
    requires Accumulate(layers[..k], getLim).LimFailed?
    ensures Accumulate(layers, getLim) == Accumulate(layers[..k], getLim)
    decreases |layers|
  {
    if k < |layers| {
      assert layers[..|layers| - 1][..k] == layers[..k];
      AccumulateFailureSticks(layers[..|layers| - 1], k, getLim);
    } else {
      assert layers[..k] == layers;
    }
  }

  /** The loop only ever fails with get_lim's error, and it does so exactly
      when some non-empty layer's limits cannot be obtained. */
  lemma {:induction false} AccumulateFails(layers: seq<LayerRecord>, getLim: LayerRecord -> Option<XYLimits>)
    ensures Accumulate(layers, getLim).LimFailed? <==>
      exists i | 0 <= i < |layers| :: layers[i].dataCount > 0 && getLim(layers[i]).None?
    decreases |layers|
  {
    if layers != [] {
      var init := layers[..|layers| - 1];
      AccumulateFails(init, getLim);
      if exists i | 0 <= i < |init| :: init[i].dataCount > 0 && getLim(init[i]).None? {
        var i :| 0 <= i < |init| && init[i].dataCount > 0 && getLim(init[i]).None?;
        assert layers[i] == init[i];
      }
    }
  }

  /** The loop finds nothing (and ENOENT follows) exactly when every layer is
      empty, in which case get_lim is never consulted. */
  lemma {:induction false} AccumulateNothing(layers: seq<LayerRecord>, getLim: LayerRecord -> Option<XYLimits>)
    ensures Accumulate(layers, getLim).Nothing? <==> forall i | 0 <= i < |layers| :: layers[i].dataCount == 0
    decreases |layers|
  {
    if layers != [] {
      var init := layers[..|layers| - 1];
      AccumulateNothing(init, getLim);
      assert forall i | 0 <= i < |init| :: init[i] == layers[i];
    }
  }

  /** The union contains the limits of every non-empty layer, and is itself
      ordered when each layer's limits are. */
  lemma {:induction false} AccumulateContains(layers: seq<LayerRecord>, getLim: LayerRecord -> Option<XYLimits>, u: XYLimits)
    requires Accumulate(layers, getLim) == Box(u)
    ensures forall i | 0 <= i < |layers| && layers[i].dataCount > 0 ::
      getLim(layers[i]).Some? && Inside(getLim(layers[i]).value, u)
    ensures (forall i | 0 <= i < |layers| && getLim(layers[i]).Some? :: Ordered(getLim(layers[i]).value)) ==> Ordered(u)
    decreases |layers|
  {
    var init := layers[..|layers| - 1];
    var lay := layers[|layers| - 1];
    var acc := Accumulate(init, getLim);
    assert forall i | 0 <= i < |init| :: init[i] == layers[i];
    if acc == Box(u) {
      AccumulateContains(init, getLim, u);
    } else if acc.Nothing? {
      AccumulateNothing(init, getLim);
    } else if acc.Box? {
      AccumulateContains(init, getLim, acc.u);
    }
  }

  /** Widening keeps the box around the union and makes both sides strictly
      ordered, so the renderer never sees an empty range. */
  lemma WidenOrders(l: XYLimits)
    requires Ordered(l)
    ensures Widen(l).xMin < Widen(l).xMax && Widen(l).yMin < Widen(l).yMax
    ensures Inside(l, Widen(l))
  {
  }

  /** The limits the render settles on: explicit limits when both pairs were
      set; otherwise a strictly ordered box containing every non-empty layer. */
  lemma LimitsOfProperties(v: FigureView, getLim: LayerRecord -> Option<XYLimits>)
    requires v.Valid()
    requires forall i | 0 <= i < |v.layers| && getLim(v.layers[i]).Some? :: Ordered(getLim(v.layers[i]).value)
    ensures v.xLimitsSet && v.yLimitsSet ==> LimitsOf(v, getLim) == Ok(v.lim)
    ensures LimitsOf(v, getLim).Ok? ==> LimitsOf(v, getLim).value.xMin < LimitsOf(v, getLim).value.xMax
    ensures LimitsOf(v, getLim).Ok? ==> LimitsOf(v, getLim).value.yMin < LimitsOf(v, getLim).value.yMax
    ensures !(v.xLimitsSet && v.yLimitsSet) && LimitsOf(v, getLim).Ok? ==>
      forall i | 0 <= i < |v.layers| && v.layers[i].dataCount > 0 ::
        getLim(v.layers[i]).Some? && Inside(getLim(v.layers[i]).value, LimitsOf(v, getLim).value)
    ensures !(v.xLimitsSet && v.yLimitsSet) ==>
      (LimitsOf(v, getLim) == Fail(ENOENT) <==> forall i | 0 <= i < |v.layers| :: v.layers[i].dataCount == 0)
  {
    AccumulateNothing(v.layers, getLim);
    AccumulateFails(v.layers, getLim);
    var acc := Accumulate(v.layers, getLim);
    if !(v.xLimitsSet && v.yLimitsSet) && acc.Box? {
      AccumulateContains(v.layers, getLim, acc.u);
      WidenOrders(acc.u);
    }
  }

  // ---- blot_figure_finalize_margins / blot_figure_finalize_usable ----

  /** The characters ceil(log10(|v|)) predicts for v, one more for a minus
      sign; 1 for zero.  `ceilLog10` stands for ceil(log10(·)) of the C library. */
  function NumberWidth(v: real, ceilLog10: real -> int): int
  {
    if v == 0.0 then 1
    else if v < 0.0 then ceilLog10(-v) + 1
    else ceilLog10(v)
  }

  /** The columns the Y axis asks for on the left: 3 + digits + 4, where the
      digit counts pass through (unsigned) and the sums wrap; none without a
      Y axis. */
  function LeftWanted(flags: RenderFlags, lim: XYLimits, ceilLog10: real -> int): u32
  {
    var digits := MaxT(UINT32, NumberWidth(lim.yMin, ceilLog10), NumberWidth(lim.yMax, ceilLog10));
    if Has(flags, RENDER_NO_Y_AXIS) then 0 else U32(U32(3 + digits) + 4)
  }

  /** The rows the legends ask for above: one per layer for each legend flag
      (an unsigned sum). */
  function TopWanted(flags: RenderFlags, layerCount: nat): u32
  {
    var above := if Has(flags, RENDER_LEGEND_ABOVE) then U32(layerCount) else 0;
    if Has(flags, RENDER_LEGEND_BELOW) then U32(above + layerCount) else above
  }

  /** The rows the X axis asks for below. */
  function BottomWanted(flags: RenderFlags): u32
  {
    if Has(flags, RENDER_NO_X_AXIS) then 0 else 2
  }

  /** blot_figure_finalize_margins: the margin each side asks for, clamped to
      half its dimension; nothing on the right. */
  function FinalizeMargins(flags: RenderFlags, lim: XYLimits, dim: Dimensions, layerCount: nat,
                           ceilLog10: real -> int): (m: Margins)
    ensures m.right == 0
    ensures m.left <= dim.cols / 2 && m.top <= dim.rows / 2 && m.bottom <= dim.rows / 2
  {
    LemmaModUnique(dim.cols / 2, 0x1_0000_0000, 0, dim.cols / 2);
    LemmaModUnique(dim.rows / 2, 0x1_0000_0000, 0, dim.rows / 2);
    LemmaModUnique(0, 0x1_0000_0000, 0, 0);
    Margins(MinT(UINT32, LeftWanted(flags, lim, ceilLog10), dim.cols / 2), MinT(UINT32, 0, dim.cols / 2),
            MinT(UINT32, TopWanted(flags, layerCount), dim.rows / 2), MinT(UINT32, BottomWanted(flags), dim.rows / 2))
  }

  /** Without legends no row is asked for; each legend flag asks for one row
      per layer while the count fits. */
  lemma TopWantedCases(flags: RenderFlags, layerCount: nat)
    requires 2 * layerCount < 0x1_0000_0000
    ensures !Has(flags, RENDER_LEGEND_ABOVE) && !Has(flags, RENDER_LEGEND_BELOW) ==> TopWanted(flags, layerCount) == 0
    ensures Has(flags, RENDER_LEGEND_ABOVE) != Has(flags, RENDER_LEGEND_BELOW) ==> TopWanted(flags, layerCount) == layerCount
    ensures Has(flags, RENDER_LEGEND_ABOVE) && Has(flags, RENDER_LEGEND_BELOW) ==> TopWanted(flags, layerCount) == 2 * layerCount
  {
  }

  /** Each margin is what its flag asks for, clamped to half the screen, so the
      left and right margins together never exceed the width and the top and
      bottom ones never exceed the height. */
  lemma MarginsClamped(flags: RenderFlags, lim: XYLimits, dim: Dimensions, layerCount: nat, ceilLog10: real -> int)
    ensures var m := FinalizeMargins(flags, lim, dim, layerCount, ceilLog10);
      && m.left <= dim.cols / 2 && m.right <= dim.cols / 2
      && m.top <= dim.rows / 2 && m.bottom <= dim.rows / 2
      && m.left + m.right <= dim.cols && m.top + m.bottom <= dim.rows
      && m.right == 0
      && m.bottom == (if Has(flags, RENDER_NO_X_AXIS) then 0 else (if 2 < dim.rows / 2 then 2 else dim.rows / 2))
      && (Has(flags, RENDER_NO_Y_AXIS) ==> m.left == 0)
      && (!Has(flags, RENDER_LEGEND_ABOVE) && !Has(flags, RENDER_LEGEND_BELOW) ==> m.top == 0)
      && (Has(flags, RENDER_LEGEND_ABOVE) && !Has(flags, RENDER_LEGEND_BELOW) && layerCount <= dim.rows / 2 ==> m.top == layerCount)
      && (Has(flags, RENDER_LEGEND_ABOVE) && Has(flags, RENDER_LEGEND_BELOW) && 2 * layerCount <= dim.rows / 2 ==> m.top == 2 * layerCount)
  {
    var m := FinalizeMargins(flags, lim, dim, layerCount, ceilLog10);
    var left, top, bottom := LeftWanted(flags, lim, ceilLog10), TopWanted(flags, layerCount), BottomWanted(flags);
    var halfCols, halfRows := dim.cols / 2, dim.rows / 2;
    assert m.left == (if left < halfCols then left else halfCols) by { MinMaxUnsigned32(left, halfCols); }
    assert m.right == 0 by { MinMaxUnsigned32(0, halfCols); }
    assert m.top == (if top < halfRows then top else halfRows) by { MinMaxUnsigned32(top, halfRows); }
    assert m.bottom == (if bottom < halfRows then bottom else halfRows) by { MinMaxUnsigned32(bottom, halfRows); }
    if layerCount <= halfRows {
      TopWantedCases(flags, layerCount);
    }
  }

  /** With a Y axis, the left margin is 7 plus the wider of the two limits'
      digit counts, unless that exceeds half the width. */
  lemma LeftMarginFromDigits(flags: RenderFlags, lim: XYLimits, dim: Dimensions, layerCount: nat, ceilLog10: real -> int)
    requires !Has(flags, RENDER_NO_Y_AXIS)
    requires var w1, w2 := NumberWidth(lim.yMin, ceilLog10), NumberWidth(lim.yMax, ceilLog10);
      0 <= w1 && 0 <= w2 && 7 + w1 <= dim.cols / 2 && 7 + w2 <= dim.cols / 2
    ensures FinalizeMargins(flags, lim, dim, layerCount, ceilLog10).left ==
      7 + (if NumberWidth(lim.yMin, ceilLog10) > NumberWidth(lim.yMax, ceilLog10)
           then NumberWidth(lim.yMin, ceilLog10) else NumberWidth(lim.yMax, ceilLog10))
  {
    var w1, w2 := NumberWidth(lim.yMin, ceilLog10), NumberWidth(lim.yMax, ceilLog10);
    var w := if w1 > w2 then w1 else w2;
    var digits := MaxT(UINT32, w1, w2);
    assert digits == w by { MinMaxUnsigned32(w1, w2); }
    var left := LeftWanted(flags, lim, ceilLog10);
    assert left == 7 + w;
    assert MinT(UINT32, left, dim.cols / 2) == left by { MinMaxUnsigned32(left, dim.cols / 2); }
  }

  /** blot_figure_finalize_usable: the screen less the margins; EFAULT when the
      margins exceed the screen, EINVAL when a side ends up below the minimum. */
  function FinalizeUsable(dim: Dimensions, mrg: Margins): (r: Outcome<Dimensions>)
    ensures r.Fail? ==> r.code == EFAULT || r.code == EINVAL
    ensures r.Ok? ==> MIN_COLS <= r.value.cols <= dim.cols && MIN_ROWS <= r.value.rows <= dim.rows
  {
    var mrgCols := U32(mrg.left + mrg.right);
    var mrgRows := U32(mrg.top + mrg.bottom);
    if mrgCols > dim.cols then Fail(EFAULT)
    else if mrgRows > dim.rows then Fail(EFAULT)
    else
      var use := Dimensions(dim.cols - mrgCols, dim.rows - mrgRows);
      if use.cols < MIN_COLS then Fail(EINVAL)
      else if use.rows < MIN_ROWS then Fail(EINVAL)
      else Ok(use)
  }

  /** For the margins finalize_margins produces, the EFAULT check cannot fire:
      the usable area fails only with EINVAL, exactly when a side is below the
      minimum, and otherwise it is the screen less the margins. */
  lemma UsableAfterMargins(flags: RenderFlags, lim: XYLimits, dim: Dimensions, layerCount: nat, ceilLog10: real -> int)
    ensures var m := FinalizeMargins(flags, lim, dim, layerCount, ceilLog10);
      var u := FinalizeUsable(dim, m);
      && u != Fail(EFAULT)
      && (u.Ok? <==> dim.cols - m.left - m.right >= MIN_COLS && dim.rows - m.top - m.bottom >= MIN_ROWS)
      && (u.Ok? ==> u.value.cols + m.left + m.right == dim.cols && u.value.rows + m.top + m.bottom == dim.rows)
  {
    MarginsClamped(flags, lim, dim, layerCount, ceilLog10);
  }

  // ---- blot_figure_render ----

  /** What render settles before building the canvases, and hands on: the
      screen size, the limits, the margins, the usable area and the lengths
      given to the X and Y axes. */
  datatype Frame = Frame(dim: Dimensions, lim: XYLimits, mrg: Margins, use: Dimensions,
                         xAxisLength: u32, yAxisLength: u32)

  /** The callees of render whose code is not part of this model, as their
      outcomes: the terminal size, blot_layer_get_lim, ceil(log10(·)), the
      error (if any) blot_layer_render reports for layer i (its other arguments
      are fixed for one render), and the errors of the two blot_axis_new
      calls, blot_screen_new and blot_screen_render. */
  datatype RenderEnv = RenderEnv(
    terminal: Option<Dimensions>,
    getLim: LayerRecord -> Option<XYLimits>,
    ceilLog10: real -> int,
    layerRender: nat -> Option<Errno>,
    xAxisNew: Option<Errno>,
    yAxisNew: Option<Errno>,
    screenNew: Option<Errno>,
    screenRender: Option<Errno>)

  /** The first of layers 0..n-1 whose canvas cannot be built, if any. */
  function FirstFailure(n: nat, fails: nat -> Option<Errno>): (r: Option<nat>)
    ensures r.Some? ==> r.value < n && fails(r.value).Some?
    ensures r.Some? ==> forall i: nat | i < r.value :: fails(i).None?
    ensures r.None? ==> forall i: nat | i < n :: fails(i).None?
  {
    if n == 0 then None
    else
      var f := FirstFailure(n - 1, fails);
      if f.Some? then f
      else if fails(n - 1).Some? then Some(n - 1)
      else None
  }

  /** Dimensions, limits, margins and usable area, in that order, each failure
      ending the render. */
  function Settle(v: FigureView, flags: RenderFlags, env: RenderEnv): (r: Outcome<Frame>)
    ensures r.Ok? || r.Fail?
  {
    var d := FinalizeDimensions(v.screenDimensionsSet, v.dim, env.terminal);
    if d.Fail? then Fail(d.code)
    else
      var l := LimitsOf(v, env.getLim);
      if l.Fail? then Fail(l.code)
      else FrameOf(d.value, l.value, flags, |v.layers|, env.ceilLog10)
  }

  /** Margins and usable area for settled dimensions and limits; the axes get
      the screen less the margins, computed in unsigned arithmetic. */
  function FrameOf(d: Dimensions, l: XYLimits, flags: RenderFlags, layerCount: nat, ceilLog10: real -> int): (r: Outcome<Frame>)
    ensures r.Ok? || r.Fail?
  {
    var m := FinalizeMargins(flags, l, d, layerCount, ceilLog10);
    var u := FinalizeUsable(d, m);
    if u.Fail? then Fail(u.code)
    else Ok(Frame(d, l, m, u.value, U32(U32(d.cols - m.left) - m.right), U32(U32(d.rows - m.top) - m.bottom)))
  }

  /** blot_figure_render's outcome: EINVAL without layers, then the settled
      frame, unless a canvas, an axis or the screen fails. */
  function RenderSpec(v: FigureView, flags: RenderFlags, env: RenderEnv): (r: Outcome<Frame>)
    ensures |v.layers| == 0 ==> r == Fail(EINVAL)
    ensures r.Ok? ==> r == Settle(v, flags, env)
    ensures r.Ok? ==> FirstFailure(|v.layers|, env.layerRender).None? && TailError(env).None?
  {
    if |v.layers| == 0 then Fail(EINVAL)
    else
      var s := Settle(v, flags, env);
      var f := FirstFailure(|v.layers|, env.layerRender);
      if s.Fail? then s
      else if f.Some? then Fail(env.layerRender(f.value).value)
      else if TailError(env).Some? then Fail(TailError(env).value)
      else s
  }

  /** The first error among the X axis, the Y axis, the screen and the
      rendering onto it, in the order render meets them. */
  function TailError(env: RenderEnv): Option<Errno>
  {
    if env.xAxisNew.Some? then env.xAxisNew
    else if env.yAxisNew.Some? then env.yAxisNew
    else if env.screenNew.Some? then env.screenNew
    else env.screenRender
  }

  /** What a successful render guarantees: a usable area of at least the
      minimum size that, with the margins, fills the screen and is the length
      each axis receives; the configured size and limits when they were set;
      otherwise strictly ordered limits around every non-empty layer. */
  lemma RenderedFrame(v: FigureView, flags: RenderFlags, env: RenderEnv)
    requires v.Valid()
    requires forall i | 0 <= i < |v.layers| && env.getLim(v.layers[i]).Some? :: Ordered(env.getLim(v.layers[i]).value)
    requires RenderSpec(v, flags, env).Ok?
    ensures var f := RenderSpec(v, flags, env).value;
      && f.use.cols >= MIN_COLS && f.use.rows >= MIN_ROWS
      && f.use.cols + f.mrg.left + f.mrg.right == f.dim.cols
      && f.use.rows + f.mrg.top + f.mrg.bottom == f.dim.rows
      && f.xAxisLength == f.use.cols && f.yAxisLength == f.use.rows
      && f.lim.xMin < f.lim.xMax && f.lim.yMin < f.lim.yMax
      && (v.screenDimensionsSet ==> f.dim == v.dim)
      && (v.xLimitsSet && v.yLimitsSet ==> f.lim == v.lim)
      && (!(v.xLimitsSet && v.yLimitsSet) ==>
            forall i | 0 <= i < |v.layers| && v.layers[i].dataCount > 0 ::
              env.getLim(v.layers[i]).Some? && Inside(env.getLim(v.layers[i]).value, f.lim))
  {
    var d := FinalizeDimensions(v.screenDimensionsSet, v.dim, env.terminal);
    var l := LimitsOf(v, env.getLim);
    LimitsOfProperties(v, env.getLim);
    assert Settle(v, flags, env) == FrameOf(d.value, l.value, flags, |v.layers|, env.ceilLog10);
    FrameOfProperties(d.value, l.value, flags, |v.layers|, env.ceilLog10);
  }

  /** A frame, once margins and usable area succeed: the usable area is at
      least the minimum, fills the screen with the margins, and is exactly the
      length each axis is given (the unsigned subtractions do not wrap). */
  lemma FrameOfProperties(d: Dimensions, l: XYLimits, flags: RenderFlags, layerCount: nat, ceilLog10: real -> int)
    requires FrameOf(d, l, flags, layerCount, ceilLog10).Ok?
    ensures var f := FrameOf(d, l, flags, layerCount, ceilLog10).value;
      && f.dim == d && f.lim == l && f.mrg == FinalizeMargins(flags, l, d, layerCount, ceilLog10)
      && f.use.cols >= MIN_COLS && f.use.rows >= MIN_ROWS
      && f.use.cols + f.mrg.left + f.mrg.right == d.cols
      && f.use.rows + f.mrg.top + f.mrg.bottom == d.rows
      && f.xAxisLength == f.use.cols && f.yAxisLength == f.use.rows
  {
    UsableAfterMargins(flags, l, d, layerCount, ceilLog10);
  }

  /** A canvas built by blot_layer_render; `live` until blot_canvas_delete. */
  class CanvasHandle {
    const layer: nat
    var live: bool

    constructor(layer: nat)
      ensures this.layer == layer && live
    {
      this.layer := layer;
      live := true;
    }

    /** blot_canvas_delete: a canvas may be deleted once. */
    method Delete()
      requires live
      modifies this
      ensures !live
    {
      live := false;
    }
  }

  /** __free_canvases_array: deletes every non-NULL canvas among the first
      `count` entries and clears its slot; each is live and none appears twice. */
  method FreeCanvasesArray(cans: array<CanvasHandle?>, count: nat)
    requires count <= cans.Length
    requires forall i | 0 <= i < count && cans[i] != null :: cans[i].live
    requires forall i, j | 0 <= i < j < count && cans[i] != null :: cans[i] != cans[j]
    modifies cans, set i | 0 <= i < count && cans[i] != null :: cans[i]
    ensures forall i | 0 <= i < count :: cans[i] == null
    ensures forall i | count <= i < cans.Length :: cans[i] == old(cans[i])
    ensures forall i | 0 <= i < count && old(cans[i]) != null :: !old(cans[i]).live
  {
    var ci := 0;
    while ci < count
      invariant 0 <= ci <= count
      invariant forall i | 0 <= i < ci :: cans[i] == null
      invariant forall i | ci <= i < cans.Length :: cans[i] == old(cans[i])
      invariant forall i | 0 <= i < ci && old(cans[i]) != null :: !old(cans[i]).live
      invariant forall i | ci <= i < count && old(cans[i]) != null :: old(cans[i]).live
    {
      if cans[ci] != null {
        cans[ci].Delete();
        cans[ci] := null;
      }
      ci := ci + 1;
    }
  }

  /** The canvas loop of render: one canvas per layer, in order; when layer li
      fails, canvases 0..li-1 are deleted and its error is reported. */
  method BuildCanvases(n: nat, layerRender: nat -> Option<Errno>)
    returns (cans: array<CanvasHandle?>, made: seq<CanvasHandle>, err: Option<Errno>)
    ensures fresh(cans) && cans.Length == n
    ensures forall i | 0 <= i < |made| :: fresh(made[i])
    ensures var f := FirstFailure(n, layerRender);
      && (f.Some? ==> err == layerRender(f.value) && |made| == f.value)
      && (f.None? ==> err.None? && |made| == n)
    ensures err.Some? ==> forall i | 0 <= i < |made| :: !made[i].live
    ensures err.None? ==> forall i | 0 <= i < n :: cans[i] == made[i] && made[i].live
    ensures err.None? ==> forall i, j | 0 <= i < j < n :: made[i] != made[j]
  {
    cans := new CanvasHandle?[n](_ => null);
    made := [];
    var li := 0;
    while li < n
      invariant 0 <= li <= n && |made| == li
      invariant FirstFailure(li, layerRender).None?
      invariant forall i | 0 <= i < li :: fresh(made[i]) && cans[i] == made[i] && made[i].live
      invariant forall i | li <= i < n :: cans[i] == null
      invariant forall i, j | 0 <= i < j < li :: made[i] != made[j]
    {
      if layerRender(li).Some? {
        FreeCanvasesArray(cans, li);
        return cans, made, layerRender(li);
      }
      var c := new CanvasHandle(li);
      cans[li] := c;
      made := made + [c];
      li := li + 1;
    }
    err := None;
  }

  /** The part of render after the canvas loop: each of the two axes and the
      screen may fail, and the canvases are deleted on each of those exits,
      and after blot_screen_render whether or not it succeeds. */
  method FinishRender(cans: array<CanvasHandle?>, made: seq<CanvasHandle>, env: RenderEnv)
    returns (err: Option<Errno>)
    requires cans.Length == |made|
    requires forall i | 0 <= i < |made| :: cans[i] == made[i] && made[i].live
    requires forall i, j | 0 <= i < j < |made| :: made[i] != made[j]
    modifies cans, set i | 0 <= i < |made| :: made[i]
    ensures err == TailError(env)
    ensures forall i | 0 <= i < |made| :: !made[i].live
  {
    var n := |made|;
    if env.xAxisNew.Some? {
      FreeCanvasesArray(cans, n);
      return env.xAxisNew;
    }
    if env.yAxisNew.Some? {
      FreeCanvasesArray(cans, n);
      return env.yAxisNew;
    }
    if env.screenNew.Some? {
      FreeCanvasesArray(cans, n);
      return env.screenNew;
    }
    FreeCanvasesArray(cans, n);
    err := env.screenRender;
  }

  // ---- the figure object ----

  class Figure {
    var axisColor: nat
    var screenDimensionsSet: bool
    var dim: Dimensions
    var xLimitsSet: bool
    var yLimitsSet: bool
    var lim: XYLimits
    var xlabels: LabelVector
    var layers: seq<LayerRecord>

    function View(): (v: FigureView)
      reads this
      ensures v.layers == layers && v.lim == lim && v.dim == dim
    {
      FigureView(axisColor, screenDimensionsSet, dim, xLimitsSet, yLimitsSet, lim, xlabels, layers)
    }

    predicate Valid()
      reads this
    {
      View().Valid()
    }

    /** blot_figure_init / blot_figure_new: everything zero, no layers, and
        white axes. */
    constructor()
      ensures View() == FigureView(BlotColor.WHITE, false, Dimensions(0, 0), false, false,
                                   XYLimits(0.0, 0.0, 0.0, 0.0), LabelVector(0, None), [])
      ensures Valid()
    {
      axisColor := BlotColor.WHITE;
      screenDimensionsSet := false;
      dim := Dimensions(0, 0);
      xLimitsSet := false;
      yLimitsSet := false;
      lim := XYLimits(0.0, 0.0, 0.0, 0.0);
      xlabels := LabelVector(0, None);
      layers := [];
    }

    /** blot_figure_set_axis_color: any colour is accepted. */
    method SetAxisColor(color: nat) returns (r: Outcome<()>)
      modifies this
      ensures r.Ok?
      ensures View() == old(View()).(axisColor := color)
      ensures old(Valid()) ==> Valid()
    {
      axisColor := color;
      r := Ok(());
    }

    /** blot_figure_set_screen_size: both sides within 10..1000, else EINVAL
        and nothing changes. */
    method SetScreenSize(cols: u32, rows: u32) returns (r: Outcome<()>)
      modifies this
      ensures r.Ok? <==> MIN_COLS <= cols <= MAX_COLS && MIN_ROWS <= rows <= MAX_ROWS
      ensures r.Ok? || r == Fail(EINVAL)
      ensures r.Ok? ==> View() == old(View()).(screenDimensionsSet := true, dim := Dimensions(cols, rows))
      ensures r.Fail? ==> View() == old(View())
      ensures old(Valid()) ==> Valid()
    {
      if cols < MIN_COLS || rows < MIN_ROWS || cols > MAX_COLS || rows > MAX_ROWS {
        return Fail(EINVAL);
      }
      screenDimensionsSet := true;
      dim := Dimensions(cols, rows);
      r := Ok(());
    }

    /** blot_figure_set_x_limits: EINVAL unless xMin < xMax; only the X pair
        and its flag change. */
    method SetXLimits(xMin: real, xMax: real) returns (r: Outcome<()>)
      modifies this
      ensures r.Ok? <==> xMin < xMax
      ensures r.Ok? || r == Fail(EINVAL)
      ensures r.Ok? ==> View() == old(View()).(xLimitsSet := true, lim := old(lim).(xMin := xMin, xMax := xMax))
      ensures r.Fail? ==> View() == old(View())
      ensures old(Valid()) ==> Valid()
    {
      if xMin >= xMax {
        return Fail(EINVAL);
      }
      xLimitsSet := true;
      lim := lim.(xMin := xMin, xMax := xMax);
      r := Ok(());
    }

    /** blot_figure_set_y_limits: EINVAL unless yMin < yMax; only the Y pair
        and its flag change. */
    method SetYLimits(yMin: real, yMax: real) returns (r: Outcome<()>)
      modifies this
      ensures r.Ok? <==> yMin < yMax
      ensures r.Ok? || r == Fail(EINVAL)
      ensures r.Ok? ==> View() == old(View()).(yLimitsSet := true, lim := old(lim).(yMin := yMin, yMax := yMax))
      ensures r.Fail? ==> View() == old(View())
      ensures old(Valid()) ==> Valid()
    {
      if yMin >= yMax {
        return Fail(EINVAL);
      }
      yLimitsSet := true;
      lim := lim.(yMin := yMin, yMax := yMax);
      r := Ok(());
    }

    /** blot_figure_set_x_axis_labels: EINVAL when exactly one of the count and
        the array is zero / NULL; otherwise both are stored as given. */
    method SetXAxisLabels(count: nat, labels: Option<seq<string>>) returns (r: Outcome<()>)
      modifies this
      ensures r.Ok? <==> (count != 0) == labels.Some?
      ensures r.Ok? || r == Fail(EINVAL)
      ensures r.Ok? ==> View() == old(View()).(xlabels := LabelVector(count, labels))
      ensures r.Fail? ==> View() == old(View())
      ensures old(Valid()) ==> Valid()
    {
      if (count != 0) != labels.Some? {
        return Fail(EINVAL);
      }
      xlabels := LabelVector(count, labels);
      r := Ok(());
    }

    /** blot_figure_plot: a new layer holding the arguments is appended at
        index layer_count; when blot_layer_new fails (an unknown plot type)
        its error is reported and the figure is unchanged. */
    method Plot(plotType: nat, dataType: DataType, dataCount: nat, dataXs: Option<Buffer>,
                dataYs: Option<Buffer>, dataColor: nat, dataLabel: string) returns (r: Outcome<()>)
      modifies this
      ensures r.Ok? <==> ValidPlotType(plotType)
      ensures r.Ok? || r == Fail(EINVAL)
      ensures r.Fail? ==> View() == old(View())
      ensures r.Ok? ==> |layers| == |old(layers)| + 1 && layers[..|old(layers)|] == old(layers)
      ensures r.Ok? ==> View() == old(View()).(layers := layers)
      ensures r.Ok? ==> var lay := layers[|old(layers)|];
        && fresh(lay)
        && lay.plotType == plotType && lay.dataType == dataType && lay.dataCount == dataCount
        && lay.dataXs == dataXs && lay.dataYs == dataYs
        && lay.dataColor == dataColor && lay.dataLabel == dataLabel
      ensures old(Valid()) ==> Valid()
    {
      var lay := LayerRecord.New(plotType, dataType, dataCount, dataXs, dataYs, dataColor, dataLabel);
      if lay.Fail? {
        return Fail(lay.code);
      }
      layers := layers + [lay.value];
      r := Ok(());
    }

    /** blot_figure_scatter: blot_figure_plot with BLOT_SCATTER, which always
        succeeds. */
    method Scatter(dataType: DataType, dataCount: nat, dataXs: Option<Buffer>,
                   dataYs: Option<Buffer>, dataColor: nat, dataLabel: string) returns (r: Outcome<()>)
      modifies this
      ensures r.Ok?
      ensures |layers| == |old(layers)| + 1 && layers[..|old(layers)|] == old(layers)
      ensures View() == old(View()).(layers := layers)
      ensures var lay := layers[|old(layers)|];
        && fresh(lay) && lay.plotType == SCATTER && lay.dataType == dataType && lay.dataCount == dataCount
        && lay.dataXs == dataXs && lay.dataYs == dataYs && lay.dataColor == dataColor && lay.dataLabel == dataLabel
      ensures old(Valid()) ==> Valid()
    {
      r := Plot(SCATTER, dataType, dataCount, dataXs, dataYs, dataColor, dataLabel);
    }

    /** blot_figure_line: blot_figure_plot with BLOT_LINE. */
    method Line(dataType: DataType, dataCount: nat, dataXs: Option<Buffer>,
                dataYs: Option<Buffer>, dataColor: nat, dataLabel: string) returns (r: Outcome<()>)
      modifies this
      ensures r.Ok?
      ensures |layers| == |old(layers)| + 1 && layers[..|old(layers)|] == old(layers)
      ensures View() == old(View()).(layers := layers)
      ensures var lay := layers[|old(layers)|];
        && fresh(lay) && lay.plotType == LINE && lay.dataType == dataType && lay.dataCount == dataCount
        && lay.dataXs == dataXs && lay.dataYs == dataYs && lay.dataColor == dataColor && lay.dataLabel == dataLabel
      ensures old(Valid()) ==> Valid()
    {
      r := Plot(LINE, dataType, dataCount, dataXs, dataYs, dataColor, dataLabel);
    }

    /** blot_figure_bar: blot_figure_plot with BLOT_BAR. */
    method Bar(dataType: DataType, dataCount: nat, dataXs: Option<Buffer>,
               dataYs: Option<Buffer>, dataColor: nat, dataLabel: string) returns (r: Outcome<()>)
      modifies this
      ensures r.Ok?
      ensures |layers| == |old(layers)| + 1 && layers[..|old(layers)|] == old(layers)
      ensures View() == old(View()).(layers := layers)
      ensures var lay := layers[|old(layers)|];
        && fresh(lay) && lay.plotType == BAR && lay.dataType == dataType && lay.dataCount == dataCount
        && lay.dataXs == dataXs && lay.dataYs == dataYs && lay.dataColor == dataColor && lay.dataLabel == dataLabel
      ensures old(Valid()) ==> Valid()
    {
      r := Plot(BAR, dataType, dataCount, dataXs, dataYs, dataColor, dataLabel);
    }

    /** The loop of blot_figure_finalize_limits: a running min/max over the
        non-empty layers, then the widening. */
    method FinalizeLimits(getLim: LayerRecord -> Option<XYLimits>) returns (r: Outcome<XYLimits>)
      ensures r == LimitsOf(View(), getLim)
    {
      if xLimitsSet && yLimitsSet {
        return Ok(lim);
      }
      var acc := XYLimits(0.0, 0.0, 0.0, 0.0);
      var somethingSet := false;
      var li := 0;
      while li < |layers|
        invariant 0 <= li <= |layers|
        invariant Accumulate(layers[..li], getLim) == if somethingSet then Box(acc) else Nothing
      {
        var lay := layers[li];
        assert layers[..li + 1][..li] == layers[..li];
        if lay.dataCount == 0 {
          li := li + 1;
          continue;
        }
        var layLim := getLim(lay);
        if layLim.None? {
          AccumulateFailureSticks(layers, li + 1, getLim);
          return Fail(Callee);
        }
        if somethingSet {
          acc := XYLimits(MinR(acc.xMin, layLim.value.xMin), MaxR(acc.xMax, layLim.value.xMax),
                          MinR(acc.yMin, layLim.value.yMin), MaxR(acc.yMax, layLim.value.yMax));
        } else {
          acc := layLim.value;
          somethingSet := true;
        }
        li := li + 1;
      }
      assert layers[..li] == layers;
      if !somethingSet {
        return Fail(ENOENT);
      }
      var fx := Fudge(acc.xMin, acc.xMax);
      var fy := Fudge(acc.yMin, acc.yMax);
      r := Ok(XYLimits(acc.xMin - fx, acc.xMax + fx, acc.yMin - fy, acc.yMax + fy));
    }

    /** The first half of blot_figure_render: dimensions, limits (by the
        loop), margins and usable area, each failure ending the render. */
    method SettleFrame(flags: RenderFlags, env: RenderEnv) returns (s: Outcome<Frame>)
      ensures s == Settle(View(), flags, env)
    {
      var d := FinalizeDimensions(screenDimensionsSet, dim, env.terminal);
      if d.Fail? {
        return Fail(d.code);
      }
      var l := FinalizeLimits(env.getLim);
      if l.Fail? {
        return Fail(l.code);
      }
      s := FrameOf(d.value, l.value, flags, |layers|, env.ceilLog10);
    }

    /** blot_figure_render: EFAULT for NULL, EINVAL without layers, then the
        outcome RenderSpec describes; every canvas it builds is deleted before
        it returns: canvases 0..li-1 when canvas li fails, all of them on every
        later path, success included. */
    static method Render(fig: Figure?, flags: RenderFlags, env: RenderEnv)
      returns (r: Outcome<Frame>, made: seq<CanvasHandle>)
      ensures fig == null ==> r == Fail(EFAULT)
      ensures fig != null ==> r == RenderSpec(fig.View(), flags, env)
      ensures forall i | 0 <= i < |made| :: fresh(made[i]) && !made[i].live
      ensures fig != null && r.Ok? ==> |made| == |fig.layers|
      ensures fig != null && |fig.layers| > 0 && Settle(fig.View(), flags, env).Ok? ==>
        (FirstFailure(|fig.layers|, env.layerRender).Some? ==> |made| == FirstFailure(|fig.layers|, env.layerRender).value)
    {
      made := [];
      if fig == null {
        return Fail(EFAULT), made;
      }
      if |fig.layers| == 0 {
        return Fail(EINVAL), made;
      }
      var s := fig.SettleFrame(flags, env);
      if s.Fail? {
        return s, made;
      }
      var cans, err;
      cans, made, err := BuildCanvases(|fig.layers|, env.layerRender);
      if err.Some? {
        return Fail(err.value), made;
      }
      err := FinishRender(cans, made, env);
      if err.Some? {
        return Fail(err.value), made;
      }
      r := s;
    }
  }
}
