/** Axes: the header's record and its tick lookup (include/blot_axis.h), and
    the library's constructor that lays ticks out along the screen and builds
    the position -> tick table (lib/blot_axis.c).  The two are different
    revisions of the record and are modelled separately. */
module BlotAxis {

  import opened BlotTypes
  import opened BlotUtils
  import BlotColor

  /** blot_axis_tick: a data value and its label (NULL is None). */
  datatype Tick = Tick(value: real, text: Option<string>)

  // ---- include/blot_axis.h ----

  /** The header's blot_axis: one entry per screen position. */
  datatype AxisView = AxisView(isVertical: bool, isVisible: bool, color: nat, screenLength: u32,
                               dataMin: real, dataMax: real, entries: seq<Option<Tick>>)

  /** blot_axis_get_tick_at: EFAULT for a NULL axis; no tick and no error for
      an invisible axis or a position past the end; else the entry there. */
  function GetTickAt(axs: Option<AxisView>, screenIndex: u32): (r: Outcome<Option<Tick>>)
    requires axs.Some? ==> |axs.value.entries| == axs.value.screenLength
    ensures r == Fail(EFAULT) <==> axs.None?
    ensures axs.Some? ==> r.Ok?
    ensures r.Ok? && r.value.Some? ==>
      axs.value.isVisible && screenIndex < axs.value.screenLength && r.value == axs.value.entries[screenIndex]
  {
    if axs.None? then Fail(EFAULT)
    else if !axs.value.isVisible || screenIndex >= axs.value.screenLength then Ok(None)
    else Ok(axs.value.entries[screenIndex])
  }

  /** A visible axis hands out exactly its entries; an invisible one nothing. */
  lemma GetTickAtAgreesWithEntries(axs: AxisView, screenIndex: u32)
    requires |axs.entries| == axs.screenLength
    ensures !axs.isVisible ==> GetTickAt(Some(axs), screenIndex) == Ok(None)
    ensures screenIndex >= axs.screenLength ==> GetTickAt(Some(axs), screenIndex) == Ok(None)
    ensures axs.isVisible && screenIndex < axs.screenLength ==>
      GetTickAt(Some(axs), screenIndex) == Ok(axs.entries[screenIndex])
  {
  }

  // ---- lib/blot_axis.c: the layout the constructor computes ----

  const LABEL_MAX: nat := 16

  /** Explicit labels are used when a vector with at least one string is given. */
  predicate UseLabels(labels: Option<seq<string>>)
  {
    labels.Some? && |labels.value| > 0
  }

  /** The number of ticks: one per explicit label, else one every 5 rows on a
      vertical axis or every 10 columns on a horizontal one. */
  function TickCount(isVertical: bool, screenLength: u32, labels: Option<seq<string>>): (t: u32)
    ensures UseLabels(labels) && |labels.value| < 0x1_0000_0000 ==> t == |labels.value|
    ensures !UseLabels(labels) ==> t <= screenLength / 5
    ensures !UseLabels(labels) && screenLength > 0 ==> t < screenLength
  {
    if UseLabels(labels) then U32(|labels.value|)
    else if isVertical then screenLength / 5
    else screenLength / 10
  }

  /** Bytes reserved for generated labels: 128 + 17 per tick, none with explicit labels. */
  function StringBytes(tickCount: nat, labels: Option<seq<string>>): nat
  {
    if UseLabels(labels) then 0 else 128 + (LABEL_MAX + 1) * tickCount
  }

  /** The value of tick ti: ti steps of (max - min) / tick_count above min. */
  function TickValue(ti: nat, tickCount: nat, dataMin: real, dataMax: real): real
    requires tickCount > 0
  {
    ti as real * ((dataMax - dataMin) / tickCount as real) + dataMin
  }

  /** The screen position of tick ti: floor(ti * screen_length / tick_count). */
  function TickPos(ti: nat, tickCount: nat, screenLength: nat): nat
    requires tickCount > 0
  {
    (ti * screenLength) / tickCount
  }

  /** C's round(): halves go away from zero. */
  function RoundHalfAway(x: real): (n: int)
    ensures x - 0.5 <= n as real <= x + 0.5
  {
    if x >= 0.0 then (x + 0.5).Floor else -((-x + 0.5).Floor)
  }

  /** The label of tick ti: the explicit label at round(value) when that index
      exists (a negative index, which C converts to unsigned, counts as out of
      range), else the "%.3f" text cut to the 16-byte room. */
  function TickLabel(ti: nat, tickCount: nat, dataMin: real, dataMax: real,
                     labels: Option<seq<string>>, fmt: real -> string): (r: Option<string>)
    requires tickCount > 0
    ensures UseLabels(labels) && r.Some? ==> r.value in labels.value
    ensures !UseLabels(labels) ==> r.Some? && |r.value| < LABEL_MAX
  {
    var v := TickValue(ti, tickCount, dataMin, dataMax);
    if UseLabels(labels) then
      var li := RoundHalfAway(v);
      if 0 <= li < |labels.value| then Some(labels.value[li]) else None
    else Some(BlotColor.Snprintf(fmt(v), LABEL_MAX))
  }

  /** The tick the table holds at screen position s once ticks 0..n-1 are
      placed: the last of them that lands on s, or none. */
  function LastTickAt(s: nat, n: nat, tickCount: nat, screenLength: nat): (r: Option<nat>)
    requires tickCount > 0
    ensures r.Some? ==> r.value < n && TickPos(r.value, tickCount, screenLength) == s
    ensures r.Some? ==> forall k | r.value < k < n :: TickPos(k, tickCount, screenLength) != s
    ensures r.None? ==> forall k | 0 <= k < n :: TickPos(k, tickCount, screenLength) != s
  {
    if n == 0 then None
    else if TickPos(n - 1, tickCount, screenLength) == s then Some(n - 1)
    else LastTickAt(s, n - 1, tickCount, screenLength)
  }

  /** Every tick lands inside the screen when the screen is not empty. */
  lemma TickPosInRange(ti: nat, tickCount: nat, screenLength: nat)
    requires ti < tickCount && screenLength > 0
    ensures TickPos(ti, tickCount, screenLength) < screenLength
  {
    MulSubDistrib(tickCount, ti, screenLength);
    MulAtLeast(tickCount - ti, screenLength);
    assert ti * screenLength < screenLength * tickCount;
    DivBelow(ti * screenLength, tickCount, screenLength);
  }

  /** With no more ticks than positions, positions strictly increase. */
  lemma {:induction false} TickPosIncreasing(i: nat, j: nat, tickCount: nat, screenLength: nat)
    requires tickCount > 0 && tickCount <= screenLength && i < j
    ensures TickPos(i, tickCount, screenLength) < TickPos(j, tickCount, screenLength)
    decreases j - i
  {
    var a := i * screenLength;
    assert (i + 1) * screenLength == a + screenLength;
    DivStep(a, tickCount);
    DivMono(a + tickCount, a + screenLength, tickCount);
    if i + 1 < j {
      TickPosIncreasing(i + 1, j, tickCount, screenLength);
    }
  }

  /** So with no more ticks than positions every tick keeps its own entry; with
      more, a later tick replaces an earlier one at a shared position. */
  lemma EveryTickHasItsEntry(ti: nat, tickCount: nat, screenLength: nat)
    requires ti < tickCount && tickCount <= screenLength
    ensures LastTickAt(TickPos(ti, tickCount, screenLength), tickCount, tickCount, screenLength) == Some(ti)
  {
    var r := LastTickAt(TickPos(ti, tickCount, screenLength), tickCount, tickCount, screenLength);
    if r.Some? && r.value > ti {
      TickPosIncreasing(ti, r.value, tickCount, screenLength);
    }
  }

  /** Ticks start at min and stay below max when min < max. */
  lemma TickValuesSpanRange(ti: nat, tickCount: nat, dataMin: real, dataMax: real)
    requires tickCount > 0 && ti < tickCount && dataMin < dataMax
    ensures TickValue(0, tickCount, dataMin, dataMax) == dataMin
    ensures dataMin <= TickValue(ti, tickCount, dataMin, dataMax) < dataMax
  {
    var step := (dataMax - dataMin) / tickCount as real;
    assert step * tickCount as real == dataMax - dataMin;
    assert ti as real * step < tickCount as real * step;
  }

  /** The steps the constructor computes in floating point give the tick
      values and positions above. */
  lemma TickArithmetic(ti: nat, tickCount: nat, screenLength: nat, dJump: real, sJump: real,
                       dataMin: real, dataMax: real)
    requires tickCount > 0
    requires dJump == (dataMax - dataMin) / tickCount as real
    requires sJump == screenLength as real / tickCount as real
    ensures ti as real * dJump + dataMin == TickValue(ti, tickCount, dataMin, dataMax)
    ensures ti as real * sJump >= 0.0
    ensures (ti as real * sJump).Floor == TickPos(ti, tickCount, screenLength)
  {
    assert ti as real * sJump == (ti * screenLength) as real / tickCount as real;
    FloorOfRatio(ti * screenLength, tickCount);
  }

  /** The explicit-label example: three labels on a 3-cell axis over 0..2
      put "Label1" at position 1. */
  lemma ExplicitLabelExample()
    ensures var labels := Some(["Label0", "Label1", "Label2"]);
      && TickCount(true, 3, labels) == 3
      && TickPos(1, 3, 3) == 1
      && TickLabel(1, 3, 0.0, 2.0, labels, (x: real) => "") == Some("Label1")
  {
    assert TickValue(1, 3, 0.0, 2.0) == 2.0 / 3.0;
  }

  /** The library's blot_axis record: the constants, the position -> tick-index
      table `entries`, the ticks, and the size of the label area. */
  class AxisTable {
    var isVertical: bool
    var color: nat
    var screenLength: u32
    var dataMin: real
    var entries: array<Option<nat>>
    var ticks: array<Tick>
    var stringBytes: nat

    /** The constant fields, as assigned: data_max is written into data_min. */
    constructor(isVertical: bool, color: nat, screenLength: u32, dataMin: real, dataMax: real,
                tickCount: nat, stringBytes: nat)
      ensures this.isVertical == isVertical && this.color == color && this.screenLength == screenLength
      ensures this.dataMin == dataMax
      ensures entries.Length == screenLength && ticks.Length == tickCount
      ensures this.stringBytes == stringBytes
      ensures fresh(entries) && fresh(ticks)
    {
      this.isVertical := isVertical;
      this.color := color;
      this.screenLength := screenLength;
      this.dataMin := dataMin;
      this.dataMin := dataMax;
      entries := new Option<nat>[screenLength];
      ticks := new Tick[tickCount];
      this.stringBytes := stringBytes;
    }

    /** blot_axis_new.  Clears the table, then for each tick computes its value,
        position and label, stores it and points the table entry at it.  Aborts
        when a generated label is longer than 16 characters, and writes past the
        table when explicit labels meet an empty screen. */
    static method New(isVertical: bool, color: nat, screenLength: u32, dataMin: real, dataMax: real,
                      labels: Option<seq<string>>, fmt: real -> string)
      returns (r: Outcome<AxisTable>)
      ensures var t := TickCount(isVertical, screenLength, labels);
        r.Abort? <==> !UseLabels(labels) && exists k | 0 <= k < t :: |fmt(TickValue(k, t, dataMin, dataMax))| > LABEL_MAX
      ensures var t := TickCount(isVertical, screenLength, labels);
        r.Overrun? <==> UseLabels(labels) && screenLength == 0 && t > 0
      ensures r.Ok? || r.Abort? || r.Overrun?
      ensures r.Ok? ==> var t := TickCount(isVertical, screenLength, labels);
        && fresh(r.value) && fresh(r.value.entries) && fresh(r.value.ticks)
        && r.value.isVertical == isVertical && r.value.color == color
        && r.value.screenLength == screenLength && r.value.dataMin == dataMax
        && r.value.entries.Length == screenLength && r.value.ticks.Length == t
        && r.value.stringBytes == StringBytes(t, labels)
        && (forall s | 0 <= s < screenLength :: r.value.entries[s] == (if t == 0 then None else LastTickAt(s, t, t, screenLength)))
        && (forall k | 0 <= k < t ::
              r.value.ticks[k] == Tick(TickValue(k, t, dataMin, dataMax), TickLabel(k, t, dataMin, dataMax, labels, fmt)))
    {
      var useLabels := UseLabels(labels);
      var tickCount: u32;
      if useLabels {
        tickCount := U32(|labels.value|);
      } else if isVertical {
        tickCount := screenLength / 5;
      } else {
        tickCount := screenLength / 10;
      }
      assert tickCount == TickCount(isVertical, screenLength, labels);
      var stringBytes := 0;
      if !useLabels {
        stringBytes := 128 + (LABEL_MAX + 1) * tickCount;
      }

      var axs := new AxisTable(isVertical, color, screenLength, dataMin, dataMax, tickCount, stringBytes);
      var entries: array<Option<nat>> := axs.entries;
      var ticks := axs.ticks;

      var s := 0;
      while s < entries.Length
        invariant 0 <= s <= entries.Length
        invariant forall k | 0 <= k < s :: entries[k] == None
        modifies entries
      {
        entries[s] := None;
        s := s + 1;
      }

      var placed := PlaceTicks(entries, ticks, screenLength, tickCount, dataMin, dataMax, labels, fmt, stringBytes);
      if placed.Abort? {
        return Abort;
      } else if placed.Overrun? {
        return Overrun;
      }
      r := Ok(axs);
    }

    /** The tick loop of blot_axis_new over a cleared table: each tick's value,
        label and position, the entry at that position pointing at it.  The
        label area holds `stringBytes` bytes; with no explicit labels it has
        room for every tick. */
    static method PlaceTicks(entries: array<Option<nat>>, ticks: array<Tick>, screenLength: u32, tickCount: u32,
                             dataMin: real, dataMax: real, labels: Option<seq<string>>, fmt: real -> string,
                             stringBytes: nat)
      returns (r: Outcome<()>)
      requires entries.Length == screenLength && ticks.Length == tickCount
      requires forall p | 0 <= p < screenLength :: entries[p] == None
      requires !UseLabels(labels) ==> stringBytes == 128 + (LABEL_MAX + 1) * tickCount
      requires screenLength == 0 && tickCount > 0 ==> UseLabels(labels)
      modifies entries, ticks
      ensures r.Abort? <==>
        !UseLabels(labels) && exists k | 0 <= k < tickCount :: |fmt(TickValue(k, tickCount, dataMin, dataMax))| > LABEL_MAX
      ensures r.Overrun? <==> screenLength == 0 && tickCount > 0
      ensures r.Ok? || r.Abort? || r.Overrun?
      ensures r.Ok? ==> forall p | 0 <= p < screenLength ::
        entries[p] == (if tickCount == 0 then None else LastTickAt(p, tickCount, tickCount, screenLength))
      ensures r.Ok? ==> forall k | 0 <= k < tickCount ::
        ticks[k] == Tick(TickValue(k, tickCount, dataMin, dataMax), TickLabel(k, tickCount, dataMin, dataMax, labels, fmt))
    {
      var useLabels := UseLabels(labels);
      var dataRange := dataMax - dataMin;
      // with no ticks the steps are never used (C divides by zero here)
      var dJump := if tickCount > 0 then dataRange / tickCount as real else 0.0;
      var sJump := if tickCount > 0 then screenLength as real / tickCount as real else 0.0;
      assert tickCount > 0 ==> dJump == (dataMax - dataMin) / tickCount as real;
      // the cursor p into the label area, as an offset
      var used := 0;

      var ti := 0;
      while ti < tickCount
        invariant 0 <= ti <= tickCount
        invariant forall p | 0 <= p < screenLength ::
          entries[p] == (if tickCount == 0 then None else LastTickAt(p, ti, tickCount, screenLength))
        invariant forall k | 0 <= k < ti ::
          ticks[k] == Tick(TickValue(k, tickCount, dataMin, dataMax), TickLabel(k, tickCount, dataMin, dataMax, labels, fmt))
        invariant !useLabels ==> forall k | 0 <= k < ti :: |fmt(TickValue(k, tickCount, dataMin, dataMax))| <= LABEL_MAX
        invariant useLabels ==> screenLength > 0 || ti == 0
        invariant used <= (LABEL_MAX + 1) * ti
        invariant useLabels ==> used == 0
        modifies entries, ticks
      {
        TickArithmetic(ti, tickCount, screenLength, dJump, sJump, dataMin, dataMax);
        var dVal := ti as real * dJump + dataMin;
        var sVal: nat := (ti as real * sJump).Floor;

        var text: Option<string> := None;
        if useLabels {
          var li := RoundHalfAway(dVal);
          if 0 <= li < |labels.value| {
            text := Some(labels.value[li]);
          }
        } else {
          var room := if stringBytes - used < LABEL_MAX then stringBytes - used else LABEL_MAX;
          assert room == LABEL_MAX;
          var formatted := fmt(dVal);
          var rc := |formatted|;
          if rc > LABEL_MAX {
            assert |fmt(TickValue(ti, tickCount, dataMin, dataMax))| > LABEL_MAX;
            return Abort;
          }
          text := Some(BlotColor.Snprintf(formatted, room));
          used := used + rc + 1;
          assert used < stringBytes;
        }

        ticks[ti] := Tick(dVal, text);
        if screenLength > 0 {
          TickPosInRange(ti, tickCount, screenLength);
        }
        if sVal >= screenLength {
          return Overrun;
        }
        entries[sVal] := Some(ti);
        ti := ti + 1;
      }

      assert used <= stringBytes;
      r := Ok(());
    }
  }
}
