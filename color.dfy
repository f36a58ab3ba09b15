/** ANSI 256-colour escapes (include/blot_color.h): the colour numbers, the
    ECMA-48 SGR `38;5;n` / `48;5;n` formats and the runtime and constant
    formatters. */
module BlotColor {

  import opened BlotTypes

  const BLACK: nat := 0
  const RED: nat := 1
  const GREEN: nat := 2
  const YELLOW: nat := 3
  const BLUE: nat := 4
  const MAGENTA: nat := 5
  const CYAN: nat := 6
  const WHITE: nat := 7

  /** The eight base colours; DIM_c is c itself and BRIGHT_c is c + 8. */
  const BASE_COLORS: seq<nat> := [BLACK, RED, GREEN, YELLOW, BLUE, MAGENTA, CYAN, WHITE]
  const BRIGHT_COLORS: seq<nat> := [8, 9, 10, 11, 12, 13, 14, 15]

  function Dim(c: nat): nat { c }

  lemma BrightIsBasePlusEight()
    ensures |BASE_COLORS| == |BRIGHT_COLORS| == 8
    ensures forall i | 0 <= i < 8 :: BRIGHT_COLORS[i] == BASE_COLORS[i] + 8 && Dim(BASE_COLORS[i]) == BASE_COLORS[i]
  {
  }

  const ESC_CHAR: char := 27 as char
  /** ESC is the control sequence introducer "\033[". */
  const ESC: string := [ESC_CHAR, '[']
  const COL_BUF_LEN: nat := 16

  const COL_FG_PREFIX: string := ESC + "38;5;"
  const COL_BG_PREFIX: string := ESC + "48;5;"
  const COL_SUFFIX: string := "m"

  const COL_RESET: string := ESC + "0" + COL_SUFFIX
  const CLR_SCR: string := ESC + "2J" + ESC + "H"

  lemma EscapeConstants()
    ensures COL_RESET == [ESC_CHAR, '[', '0', 'm'] && |COL_RESET| == 4
    ensures CLR_SCR == [ESC_CHAR, '[', '2', 'J', ESC_CHAR, '[', 'H'] && |CLR_SCR| == 7
  {
  }

  /** A printf format of the shape prefix "%d" suffix. */
  datatype IntFormat = IntFormat(prefix: string, suffix: string)

  const COL_FG_FMT: IntFormat := IntFormat(COL_FG_PREFIX, COL_SUFFIX)
  const COL_BG_FMT: IntFormat := IntFormat(COL_BG_PREFIX, COL_SUFFIX)

  function DigitChar(d: nat): (c: char)
    requires d < 10
    ensures '0' <= c <= '9'
  {
    ('0' as int + d) as char
  }

  /** "%d" of a non-negative number: its decimal digits, most significant first. */
  function Decimal(n: nat): (s: string)
    ensures |s| >= 1
    ensures forall i | 0 <= i < |s| :: '0' <= s[i] <= '9'
    decreases n
  {
    if n < 10 then [DigitChar(n)] else Decimal(n / 10) + [DigitChar(n % 10)]
  }

  /** The value of a string of decimal digits (the inverse of Decimal). */
  function DecimalValue(s: string): nat
    requires forall i | 0 <= i < |s| :: '0' <= s[i] <= '9'
  {
    if s == [] then 0
    else 10 * DecimalValue(s[..|s| - 1]) + (s[|s| - 1] as int - '0' as int)
  }

  /** Reading the digits back gives the number printed. */
  lemma {:induction false} DecimalRoundTrip(n: nat)
    ensures DecimalValue(Decimal(n)) == n
    decreases n
  {
    var s := Decimal(n);
    if n >= 10 {
      assert s[..|s| - 1] == Decimal(n / 10);
      DecimalRoundTrip(n / 10);
    } else {
      assert s[..|s| - 1] == [];
    }
  }

  /** A number below 10^k has at most k digits. */
  lemma {:induction false} DecimalLength(n: nat, k: nat, bound: nat)
    requires k >= 1 && bound == Pow10(k) && n < bound
    ensures |Decimal(n)| <= k
    decreases k
  {
    if n >= 10 {
      assert k >= 2;
      assert n / 10 < Pow10(k - 1);
      DecimalLength(n / 10, k - 1, Pow10(k - 1));
    }
  }

  function Pow10(k: nat): nat
  {
    if k == 0 then 1 else 10 * Pow10(k - 1)
  }

  /** The text that printf would produce for `fmt` and the value v. */
  function Format(fmt: IntFormat, v: nat): string
  {
    fmt.prefix + Decimal(v) + fmt.suffix
  }

  /** g_snprintf(buf, size, ...) keeps at most size - 1 characters (plus NUL). */
  function Snprintf(text: string, size: nat): (written: string)
    requires size >= 1
    ensures |written| < size
    ensures written <= text
    ensures |text| < size ==> written == text
  {
    if |text| < size then text else text[..size - 1]
  }

  /** mkcol_runtime(buf, size, fmt, col): formats the low 8 bits of col into a
      COL_BUF_LEN buffer; the `size` argument is not consulted. */
  function MkcolRuntime(size: nat, fmt: IntFormat, col: int): (s: string)
    ensures |s| < COL_BUF_LEN
  {
    Snprintf(Format(fmt, col % 0x100), COL_BUF_LEN)
  }

  /** mkcol_constant(prefix, col): the prefix, the literal spelling of col, and "m". */
  function MkcolConstant(prefix: string, col: nat): string
  {
    prefix + Decimal(col) + COL_SUFFIX
  }

  /** The foreground escape is ESC "[38;5;" + decimal(col & 0xFF) + "m", never
      truncated by the 16-byte buffer, whatever size the caller passes. */
  lemma MkcolRuntimeForeground(size: nat, col: int)
    ensures MkcolRuntime(size, COL_FG_FMT, col) == COL_FG_PREFIX + Decimal(col % 0x100) + "m"
    ensures |MkcolRuntime(size, COL_FG_FMT, col)| <= 11 < COL_BUF_LEN
  {
    DecimalLength(col % 0x100, 3, 1000);
    assert Pow10(3) == 1000;
  }

  /** The background escape is the same with "48;5;". */
  lemma MkcolRuntimeBackground(size: nat, col: int)
    ensures MkcolRuntime(size, COL_BG_FMT, col) == COL_BG_PREFIX + Decimal(col % 0x100) + "m"
    ensures |MkcolRuntime(size, COL_BG_FMT, col)| <= 11 < COL_BUF_LEN
  {
    DecimalLength(col % 0x100, 3, 1000);
    assert Pow10(3) == 1000;
  }

  /** The number in a foreground escape (the partner of MkcolRuntime). */
  function ParseForeground(s: string): (r: Option<nat>)
  {
    var p := |COL_FG_PREFIX|;
    if |s| > p + 1 && s[..p] == COL_FG_PREFIX && s[|s| - 1] == 'm'
       && (forall i | p <= i < |s| - 1 :: '0' <= s[i] <= '9')
    then Some(DecimalValue(s[p..|s| - 1]))
    else None
  }

  /** Parsing a formatted foreground escape gives back col & 0xFF, so only the
      low 8 bits of col reach the terminal. */
  lemma MkcolRuntimeRoundTrip(size: nat, col: int)
    ensures ParseForeground(MkcolRuntime(size, COL_FG_FMT, col)) == Some(col % 0x100)
    ensures col % 0x100 <= 255
  {
    MkcolRuntimeForeground(size, col);
    var s := MkcolRuntime(size, COL_FG_FMT, col);
    var d := Decimal(col % 0x100);
    var p := |COL_FG_PREFIX|;
    assert s[..p] == COL_FG_PREFIX;
    assert s[p..|s| - 1] == d;
    DecimalRoundTrip(col % 0x100);
  }

  /** The constant-expression form spells the same escape as the runtime form. */
  lemma MkcolConstantAgrees(size: nat, col: nat)
    requires col < 0x100
    ensures MkcolConstant(COL_FG_PREFIX, col) == MkcolRuntime(size, COL_FG_FMT, col)
    ensures MkcolConstant(COL_BG_PREFIX, col) == MkcolRuntime(size, COL_BG_FMT, col)
  {
    MkcolRuntimeForeground(size, col);
    MkcolRuntimeBackground(size, col);
  }

  /** The unit tests' examples. */
  lemma MkcolExamples(size: nat)
    ensures MkcolRuntime(size, COL_FG_FMT, 9) == [ESC_CHAR] + "[38;5;9m"
    ensures MkcolRuntime(size, COL_FG_FMT, 15) == [ESC_CHAR] + "[38;5;15m"
    ensures MkcolRuntime(size, COL_BG_FMT, WHITE) == [ESC_CHAR] + "[48;5;7m"
  {
    assert MkcolRuntime(size, COL_FG_FMT, 9) == [ESC_CHAR] + "[38;5;9m" by {
      MkcolRuntimeForeground(size, 9);
    }
    assert MkcolRuntime(size, COL_FG_FMT, 15) == [ESC_CHAR] + "[38;5;15m" by {
      MkcolRuntimeForeground(size, 15);
      assert Decimal(15) == "15";
    }
    assert MkcolRuntime(size, COL_BG_FMT, WHITE) == [ESC_CHAR] + "[48;5;7m" by {
      MkcolRuntimeBackground(size, WHITE);
    }
  }
}
