/**
  The latency cell of the dashboard (`format_ping` in poker.py): a probe result is
  classified into exactly one colour and its text is left-justified into a field of
  fixed width. A latency is kept in hundredths of a millisecond, the precision to
  which `get_ping` rounds it, so the two-decimal text can be modelled exactly.
 */
module PingFormat {
  import opened Wrappers

  /** Latency in hundredths of a millisecond. */
  type Latency = nat

  /** `ping_column_width`: the default width of the latency field. */
  const PING_COLUMN_WIDTH: nat := 16

  datatype Colour = Gray | Green | Yellow | Red

  /** A coloured, padded field: what `format_ping` wraps in colour escapes. */
  datatype Cell = Cell(colour: Colour, field: string)

  /** The latency in milliseconds. */
  function Millis(v: Latency): real
  {
    v as real / 100.0
  }

  // ---------------------------------------------------------------------------
  // Left justification (`{text:<{width}}`)

  function Spaces(n: nat): (r: string)
    ensures |r| == n
    ensures forall i :: 0 <= i < n ==> r[i] == ' '
  {
    seq(n, _ => ' ')
  }

  /** Python's `:<width` format: pad on the right, never truncate. */
  function PadRight(text: string, width: nat): (r: string)
    ensures |r| == if |text| < width then width else |text|
    ensures r[..|text|] == text
    ensures forall i :: |text| <= i < |r| ==> r[i] == ' '
  {
    if |text| < width then text + Spaces(width - |text|) else text
  }

  /** Drops trailing spaces: the reader's inverse of PadRight. */
  function TrimRight(s: string): (r: string)
    ensures |r| <= |s| && r == s[..|r|]
    ensures r == [] || r[|r| - 1] != ' '
  {
    if s != [] && s[|s| - 1] == ' ' then TrimRight(s[..|s| - 1]) else s
  }

  lemma {:induction false} TrimPadded(text: string, k: nat)
    requires text == [] || text[|text| - 1] != ' '
    ensures TrimRight(text + Spaces(k)) == text
    decreases k
  {
    if k == 0 {
      assert text + Spaces(0) == text;
    } else {
      var shorter := text + Spaces(k - 1);
      assert Spaces(k) == Spaces(k - 1) + [' '];
      assert text + Spaces(k) == shorter + [' '];
      assert (shorter + [' '])[..|shorter|] == shorter;
      TrimPadded(text, k - 1);
    }
  }

  // ---------------------------------------------------------------------------
  // Decimal text (`{ping_time:.2f} ms`)

  predicate IsDigit(c: char)
  {
    '0' <= c <= '9'
  }

  predicate AllDigits(s: string)
  {
    forall i :: 0 <= i < |s| ==> IsDigit(s[i])
  }

  function DigitChar(d: nat): (c: char)
    requires d < 10
    ensures IsDigit(c)
  {
    (48 + d) as char
  }

  function DigitValue(c: char): (d: nat)
    requires IsDigit(c)
    ensures d < 10 && DigitChar(d) == c
  {
    c as int - 48
  }

  /** The decimal numeral of n, without leading zeros. */
  function NatText(n: nat): (r: string)
    ensures |r| >= 1 && AllDigits(r)
    decreases n
  {
    if n < 10 then [DigitChar(n)] else NatText(n / 10) + [DigitChar(n % 10)]
  }

  /** The value of a string of decimal digits. */
  function ParseDigits(s: string): nat
    requires AllDigits(s)
  {
    if s == [] then 0 else 10 * ParseDigits(s[..|s| - 1]) + DigitValue(s[|s| - 1])
  }

  lemma {:induction false} ParseNatText(n: nat)
    ensures ParseDigits(NatText(n)) == n
    decreases n
  {
    if n >= 10 {
      var s := NatText(n);
      assert s[..|s| - 1] == NatText(n / 10);
      ParseNatText(n / 10);
    }
  }

  function Pow10(k: nat): (p: nat)
    ensures p >= 1
  {
    if k == 0 then 1 else 10 * Pow10(k - 1)
  }

  lemma {:induction false} NatTextLength(n: nat, k: nat)
    requires 1 <= k && n < Pow10(k)
    ensures |NatText(n)| <= k
    decreases k
  {
    if n >= 10 {
      assert k >= 2;
      NatTextLength(n / 10, k - 1);
    }
  }

  /** Two decimals, as `:.2f` prints a latency already rounded to hundredths. */
  function ShowLatency(v: Latency): (r: string)
    ensures |r| >= 7 && r[|r| - 3..] == " ms" && r[|r| - 6] == '.'
  {
    NatText(v / 100) + ['.', DigitChar(v / 10 % 10), DigitChar(v % 10)] + " ms"
  }

  /** The text of the latency cell before padding. */
  function LatencyText(p: Option<Latency>): string
  {
    match p
    case None => "Timeout"
    case Some(v) => ShowLatency(v)
  }

  /** Reads a latency back from its two-decimal text. */
  function ReadLatency(t: string): Option<Latency>
  {
    if |t| < 7 || t[|t| - 3..] != " ms" || t[|t| - 6] != '.' then None
    else
      var whole, d1, d2 := t[..|t| - 6], t[|t| - 5], t[|t| - 4];
      if AllDigits(whole) && IsDigit(d1) && IsDigit(d2)
      then Some(100 * ParseDigits(whole) + 10 * DigitValue(d1) + DigitValue(d2))
      else None
  }

  lemma ReadShowLatency(v: Latency)
    ensures ReadLatency(ShowLatency(v)) == Some(v)
  {
    var whole := NatText(v / 100);
    var t := ShowLatency(v);
    var k := |whole|;
    assert t[..k] == whole;
    assert t[k + 1] == DigitChar(v / 10 % 10) && t[k + 2] == DigitChar(v % 10);
    ParseNatText(v / 100);
    assert v == 100 * (v / 100) + 10 * (v / 10 % 10) + v % 10;
  }

  // ---------------------------------------------------------------------------
  // Classification

  /** The colour class of a probe result (poker.py:65-74). */
  function ColourOf(p: Option<Latency>): (c: Colour)
    ensures c == Gray <==> p.None?
    ensures p.Some? ==> (c == Green <==> Millis(p.value) < 100.0)
    ensures p.Some? ==> (c == Yellow <==> 100.0 <= Millis(p.value) < 200.0)
    ensures p.Some? ==> (c == Red <==> 200.0 <= Millis(p.value))
  {
    match p
    case None => Gray
    case Some(v) =>
      if v < 10000 then Green
      else if v < 20000 then Yellow
      else Red
  }

  /** `format_ping(ping_time, width)`. */
  function FormatPing(p: Option<Latency>, width: nat): (r: Cell)
    ensures r.colour == ColourOf(p)
    ensures |r.field| == if |LatencyText(p)| < width then width else |LatencyText(p)|
    ensures r.field[..|LatencyText(p)|] == LatencyText(p)
    ensures forall i :: |LatencyText(p)| <= i < |r.field| ==> r.field[i] == ' '
  {
    Cell(ColourOf(p), PadRight(LatencyText(p), width))
  }

  /** Recovers the probe result from a rendered cell, if the cell is one FormatPing makes. */
  function ReadCell(c: Cell): Option<Option<Latency>>
  {
    var t := TrimRight(c.field);
    if t == "Timeout" then
      if c.colour == Gray then Some(None) else None
    else
      match ReadLatency(t)
      case None => None
      case Some(v) => if c.colour == ColourOf(Some(v)) then Some(Some(v)) else None
  }

  /** The cell shows the probe result faithfully: it can be read back, so distinct results give distinct cells. */
  lemma ReadFormatPing(p: Option<Latency>, width: nat)
    ensures ReadCell(FormatPing(p, width)) == Some(p)
  {
    var text := LatencyText(p);
    assert text[|text| - 1] != ' ';
    var k := if |text| < width then width - |text| else 0;
    assert PadRight(text, width) == text + Spaces(k);
    TrimPadded(text, k);
    match p
    case None =>
    case Some(v) =>
      assert text[|text| - 1] == 's';
      assert text != "Timeout";
      ReadShowLatency(v);
  }

  lemma FormatPingInjective(p: Option<Latency>, q: Option<Latency>, width: nat)
    requires FormatPing(p, width) == FormatPing(q, width)
    ensures p == q
  {
    ReadFormatPing(p, width);
    ReadFormatPing(q, width);
  }

  /** A rank of the colours by how bad the latency is; the rank of Gray (timeout) is arbitrary. */
  function Severity(c: Colour): nat
  {
    match c
    case Green => 0
    case Yellow => 1
    case Red => 2
    case Gray => 3
  }

  /** A larger latency never gets a milder colour. */
  lemma ColourMonotone(v: Latency, w: Latency)
    requires v <= w
    ensures Severity(ColourOf(Some(v))) <= Severity(ColourOf(Some(w)))
  {
  }

  /**
    Column alignment: every latency below ten billion milliseconds, and the timeout,
    fill exactly the default field width, so all four colour branches are equally wide.
   */
  lemma AlignedField(p: Option<Latency>)
    requires p.Some? ==> p.value < 1_000_000_000_000
    ensures |FormatPing(p, PING_COLUMN_WIDTH).field| == PING_COLUMN_WIDTH
  {
    if p.Some? {
      assert Pow10(10) == 10_000_000_000;
      NatTextLength(p.value / 100, 10);
    }
  }
}
