/** Braille glyph geometry (include/blot_braille.h) and the dot tables
    (lib/blot_braille.c): a 2 x 4 block of dots becomes the code point
    0x2800 OR-ed with one bit per lit dot. */
module BlotBraille {

  const GLYPH_BASE: nat := 0x2800
  const GLYPH_ROWS: nat := 4
  const GLYPH_COLS: nat := 2
  const GLYPH_SIZE: nat := GLYPH_ROWS * GLYPH_COLS

  /** BRAILLE_GLYPH_MAP_INDEX(x,y): the table slot of the dot in column x, row y. */
  function MapIndex(x: nat, y: nat): (i: nat)
    ensures x < GLYPH_COLS && y < GLYPH_ROWS ==> i < GLYPH_SIZE
  {
    y * GLYPH_COLS + x
  }

  /** MAP_INDEX is a bijection from {0,1} x {0..3} onto 0..7. */
  lemma MapIndexBijection()
    ensures GLYPH_SIZE == 8
    ensures forall x: nat, y: nat | x < GLYPH_COLS && y < GLYPH_ROWS :: MapIndex(x, y) < GLYPH_SIZE
    ensures forall i | 0 <= i < GLYPH_SIZE :: MapIndex(i % 2, i / 2) == i && i / 2 < GLYPH_ROWS
    ensures forall x1: nat, y1: nat, x2: nat, y2: nat | x1 < 2 && y1 < 4 && x2 < 2 && y2 < 4 && MapIndex(x1, y1) == MapIndex(x2, y2) ::
      x1 == x2 && y1 == y2
  {
  }

  /** The dot diagram of the header: the bit of the dot in column x, row y. */
  function DotBit(x: nat, y: nat): bv8
    requires x < GLYPH_COLS && y < GLYPH_ROWS
  {
    if x == 0 then [0x01, 0x02, 0x04, 0x40][y] else [0x08, 0x10, 0x20, 0x80][y]
  }

  const ORDER_MAP: seq<nat> := [0, 3, 1, 4, 2, 5, 6, 7]
  const UPSIDEDOWN_ORDER_MAP: seq<nat> := [6, 7, 2, 5, 1, 4, 0, 3]
  const MASKS: seq<bv8> := [0x01, 0x08, 0x02, 0x10, 0x04, 0x20, 0x40, 0x80]
  const UPSIDEDOWN_MASKS: seq<bv8> := [0x40, 0x80, 0x04, 0x20, 0x02, 0x10, 0x01, 0x08]

  /** The glyph of a block whose lit dots have the given OR-ed mask. */
  function Glyph(mask: bv8): (cp: nat)
    ensures GLYPH_BASE <= cp <= 0x28FF
  {
    GLYPH_BASE + mask as nat
  }

  /** OR of the masks of a list of slots of a table. */
  function OrOf(table: seq<bv8>, slots: seq<nat>): bv8
    requires forall i | 0 <= i < |slots| :: slots[i] < |table|
  {
    if slots == [] then 0 else OrOf(table, slots[..|slots| - 1]) | table[slots[|slots| - 1]]
  }

  predicate IsPermutationOf8(m: seq<nat>)
  {
    |m| == 8 && (forall i | 0 <= i < 8 :: m[i] < 8) &&
    (forall i, j | 0 <= i < j < 8 :: m[i] != m[j])
  }

  /** Both order maps are permutations of 0..7, and each mask is the bit its
      order map names. */
  lemma TablesAgreeWithOrderMaps()
    ensures IsPermutationOf8(ORDER_MAP) && IsPermutationOf8(UPSIDEDOWN_ORDER_MAP)
    ensures |MASKS| == |UPSIDEDOWN_MASKS| == 8
    ensures forall i | 0 <= i < 8 :: MASKS[i] == (1 as bv8) << ORDER_MAP[i]
    ensures forall i | 0 <= i < 8 :: UPSIDEDOWN_MASKS[i] == (1 as bv8) << UPSIDEDOWN_ORDER_MAP[i]
  {
    assert IsPermutationOf8(ORDER_MAP);
    assert IsPermutationOf8(UPSIDEDOWN_ORDER_MAP);
    forall i | 0 <= i < 8
      ensures MASKS[i] == (1 as bv8) << ORDER_MAP[i]
      ensures UPSIDEDOWN_MASKS[i] == (1 as bv8) << UPSIDEDOWN_ORDER_MAP[i]
    {
      assert i == 0 || i == 1 || i == 2 || i == 3 || i == 4 || i == 5 || i == 6 || i == 7;
    }
  }

  /** Every mask is a single bit, the eight are distinct, and together they
      light the whole glyph U+28FF. */
  lemma MasksAreDistinctBits()
    ensures forall i | 0 <= i < 8 :: MASKS[i] != 0 && MASKS[i] & (MASKS[i] - 1) == 0
    ensures forall i, j | 0 <= i < j < 8 :: MASKS[i] & MASKS[j] == 0
    ensures OrOf(MASKS, [0, 1, 2, 3, 4, 5, 6, 7]) == 0xFF
    ensures Glyph(OrOf(MASKS, [0, 1, 2, 3, 4, 5, 6, 7])) == 0x28FF
  {
    assert OrOf(MASKS, [0, 1, 2, 3, 4, 5, 6, 7]) == 0xFF by {
      assert [0, 1, 2, 3, 4, 5, 6, 7][..7] == [0, 1, 2, 3, 4, 5, 6];
      assert [0, 1, 2, 3, 4, 5, 6][..6] == [0, 1, 2, 3, 4, 5];
      assert [0, 1, 2, 3, 4, 5][..5] == [0, 1, 2, 3, 4];
      assert [0, 1, 2, 3, 4][..4] == [0, 1, 2, 3];
      assert [0, 1, 2, 3][..3] == [0, 1, 2];
      assert [0, 1, 2][..2] == [0, 1];
      assert [0, 1][..1] == [0];
      assert [0][..0] == [];
    }
  }

  /** The normal table matches the dot diagram; the upside-down table is the
      normal one with its four rows in reverse order (and so are the order maps). */
  lemma TablesMatchDiagram()
    ensures forall x: nat, y: nat | x < 2 && y < 4 :: MASKS[MapIndex(x, y)] == DotBit(x, y)
    ensures forall x: nat, y: nat | x < 2 && y < 4 :: UPSIDEDOWN_MASKS[MapIndex(x, y)] == MASKS[MapIndex(x, 3 - y)]
    ensures forall x: nat, y: nat | x < 2 && y < 4 :: UPSIDEDOWN_ORDER_MAP[MapIndex(x, y)] == ORDER_MAP[MapIndex(x, 3 - y)]
  {
    forall x: nat, y: nat | x < 2 && y < 4
      ensures MASKS[MapIndex(x, y)] == DotBit(x, y)
      ensures UPSIDEDOWN_MASKS[MapIndex(x, y)] == MASKS[MapIndex(x, 3 - y)]
      ensures UPSIDEDOWN_ORDER_MAP[MapIndex(x, y)] == ORDER_MAP[MapIndex(x, 3 - y)]
    {
      assert x == 0 || x == 1;
      assert y == 0 || y == 1 || y == 2 || y == 3;
    }
  }

  /** A lone dot at (0,0) of a canvas that keeps the Y axis as is gives U+2801. */
  lemma SingleDotGlyph()
    ensures Glyph(MASKS[MapIndex(0, 0)]) == 0x2801
    ensures Glyph(UPSIDEDOWN_MASKS[MapIndex(0, 3)]) == 0x2801
  {
  }
}
