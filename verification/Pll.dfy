/** PLL arithmetic of the tuner: tda18271_calc_main_pll and tda18271_calc_cal_pll in
    src/tda18271-common.c, on the tables of src/tda18271-maps.c. */
module Pll {
  import opened Words
  import opened Tables
  import opened Lookup

  /** No product of a divider and a frequency of its row, in kHz, reaches this. */
  const VCO_LIMIT: int := 8192000

  ghost predicate Dividing(t: PllMap) {
    forall i | 0 <= i < |t| :: 1 <= t[i].val.d && t[i].val.d * t[i].max < VCO_LIMIT
  }

  /** The divider a post-divider byte stands for: a mantissa in the low bits and a power of two in bits 6
      to 4. Bit 7 marks the calibration PLL, which has a mantissa of 7 as well. */
  function DividerOf(pd: byte): int {
    Mantissa(pd) * (if pd & 0x70 == 0x50 then 16 else if pd & 0x70 == 0x40 then 8 else if pd & 0x70 == 0x30 then 4
                    else if pd & 0x70 == 0x20 then 2 else 1)
  }

  function Mantissa(pd: byte): int {
    if pd & 0x8f == 0x83 then 7
    else if pd & 0x07 == 0 then 8 else if pd & 0x07 == 1 then 9
    else if pd & 0x07 == 2 then 10 else if pd & 0x07 == 3 then 11
    else if pd & 0x07 == 4 then 12 else if pd & 0x07 == 5 then 13 else if pd & 0x07 == 6 then 14 else 15
  }

  ghost predicate EncodedRow(e: Entry<PllDiv>) {
    e.val.d == DividerOf(e.val.pd)
  }

  /** The divider of every row is the one its post-divider stands for. */
  ghost predicate Encoded(t: PllMap) {
    forall i | 0 <= i < |t| :: EncodedRow(t[i])
  }

  /** A PLL table as the divider arithmetic needs it. */
  ghost predicate PllTable(t: PllMap) {
    WellFormed(t) && Dividing(t[..|t| - 1]) && Encoded(t[..|t| - 1])
  }

  /** The divider word in C: u32 multiplications, shift and division. */
  function DivWord(d: u8, freq: u32): u32 {
    ToU32(ToU32(d * (freq / 1000)) * 128) / 125
  }

  /** The three bytes the word is stored in; the mask 0x7f keeps seven bits of the first. */
  datatype DivBytes = DivBytes(b1: byte, b2: byte, b3: byte)

  function ByteOf(x: int): byte
    requires 0 <= x < 256
  {
    x as byte
  }

  function Pack(div: u32): DivBytes {
    DivBytes(ByteOf(div / 0x10000 % 0x80), ByteOf(div / 0x100 % 0x100), ByteOf(div % 0x100))
  }

  function Unpack(b: DivBytes): nat {
    b.b1 as nat * 0x10000 + b.b2 as nat * 0x100 + b.b3 as nat
  }

  /** The frequency in kHz that a stored divider word stands for. */
  function Recovered(d: u8, div: nat): nat
    requires d >= 1
  {
    (125 * div + 128 * d - 1) / (128 * d)
  }

  lemma Bv8Kept(x: int)
    requires 0 <= x < 256
    ensures (x as bv8) as int == x
  {
    if x < 128 {
      if x < 64 {
        if x < 32 { if x < 16 {} else {} } else { if x < 48 {} else {} }
      } else {
        if x < 96 { if x < 80 {} else {} } else { if x < 112 {} else {} }
      }
    } else {
      if x < 192 {
        if x < 160 { if x < 144 {} else {} } else { if x < 176 {} else {} }
      } else {
        if x < 224 { if x < 208 {} else {} } else { if x < 240 {} else {} }
      }
    }
  }

  lemma ByteKept(x: int)
    requires 0 <= x < 256
    ensures ByteOf(x) as int == x
  {
    Bv8Kept(x);
  }

  lemma BytesOfWord(div: nat)
    requires div < 0x80_0000
    ensures div / 0x10000 % 0x80 * 0x10000 + div / 0x100 % 0x100 * 0x100 + div % 0x100 == div
  {
  }

  /** Seven bits are enough for words below 2^23. */
  lemma PackLosesNothing(div: u32)
    requires div < 0x80_0000
    ensures Unpack(Pack(div)) == div
  {
    ByteKept(div / 0x10000 % 0x80);
    ByteKept(div / 0x100 % 0x100);
    ByteKept(div % 0x100);
    BytesOfWord(div);
  }

  /** Rounding down once and up once gives the frequency back. */
  lemma RoundingUndone(q: int, khz: int, div: int)
    requires q >= 128 && khz >= 0 && div == q * khz / 125
    ensures (125 * div + q - 1) / q == khz
  {
    var p := q * khz;
    assert 125 * div <= p < 125 * div + 125;
    QuotientIs(125 * div + q - 1, q, khz);
  }

  lemma SlotProduct(t: PllMap, freq: u32)
    requires PllTable(t) && InRange(t, freq)
    ensures var d := t[Slot(t, freq)].val.d; 1 <= d && 0 <= d * (freq / 1000) < VCO_LIMIT
  {
    SlotIsLeast(t, freq);
    var i := Slot(t, freq);
    assert t[..|t| - 1][i] == t[i];
    Monotone(t[i].val.d, freq / 1000, t[i].max);
  }

  lemma Monotone(d: int, a: int, b: int)
    requires d >= 0 && 0 <= a <= b
    ensures 0 <= d * a <= d * b
  {
  }

  lemma WordFits(p: int)
    requires 0 <= p < VCO_LIMIT
    ensures p * 128 < TWO_32 && ToU32(ToU32(p) * 128) == p * 128
    ensures p * 128 / 125 < 0x80_0000
  {
  }

  lemma Commute(d: int, khz: int)
    ensures d * khz * 128 == 128 * d * khz
  {
  }

  /** For every frequency in range of a PLL table the C arithmetic does not overflow, the stored bytes
      lose nothing, and they determine the frequency to the kHz. */
  lemma PllExact(t: PllMap, freq: u32)
    requires PllTable(t) && InRange(t, freq)
    ensures var d := t[Slot(t, freq)].val.d;
            && d * (freq / 1000) * 128 < TWO_32
            && DivWord(d, freq) < 0x80_0000
            && Unpack(Pack(DivWord(d, freq))) == DivWord(d, freq)
            && d >= 1 && Recovered(d, Unpack(Pack(DivWord(d, freq)))) == freq / 1000
  {
    SlotProduct(t, freq);
    var d := t[Slot(t, freq)].val.d;
    WordFits(d * (freq / 1000));
    PackLosesNothing(DivWord(d, freq));
    Commute(d, freq / 1000);
    RoundingUndone(128 * d, freq / 1000, DivWord(d, freq));
  }

  /** Three bytes, most significant first, are 128 * d / 125 times a frequency in kHz, rounded down. */
  predicate Divides(b1: byte, b2: byte, b3: byte, d: u8, khz: u32) {
    var word := 0x1_0000 * b1 as int + 0x100 * b2 as int + b3 as int;
    125 * word <= 128 * (d * khz) < 125 * (word + 1)
  }

  lemma PllDivides(t: PllMap, freq: u32)
    requires PllTable(t) && InRange(t, freq)
    ensures var d := t[Slot(t, freq)].val.d; var b := Pack(DivWord(d, freq));
            Divides(b.b1, b.b2, b.b3, d, freq / 1000)
  {
    SlotProduct(t, freq);
    var d := t[Slot(t, freq)].val.d;
    WordFits(d * (freq / 1000));
    PackLosesNothing(DivWord(d, freq));
    RoundedDown(d * (freq / 1000));
  }

  lemma RoundedDown(p: int)
    ensures 125 * (p * 128 / 125) <= 128 * p < 125 * (p * 128 / 125 + 1)
  {
  }

  lemma DividerOfRow(t: PllMap, i: nat)
    requires PllTable(t) && i <= Last(t)
    ensures EncodedRow(t[i])
  {
    assert t[..|t| - 1][i] == t[i];
  }

  lemma LowBits(a: byte, b: byte)
    requires a & 0x80 == 0x00 && b & 0x80 == 0x00 && 0x7f & a == 0x7f & b
    ensures a == b
  {
  }

  /** Post-divider and divider bytes together determine the frequency to the kHz. */
  lemma PllInjective(t: PllMap, f: u32, g: u32)
    requires PllTable(t) && InRange(t, f) && InRange(t, g)
    requires t[Slot(t, f)].val.pd == t[Slot(t, g)].val.pd
    requires Pack(DivWord(t[Slot(t, f)].val.d, f)) == Pack(DivWord(t[Slot(t, g)].val.d, g))
    ensures f / 1000 == g / 1000
  {
    DividerOfRow(t, Slot(t, f));
    DividerOfRow(t, Slot(t, g));
    PllExact(t, f);
    PllExact(t, g);
  }

  // ---------- The four tables ----------

  ghost predicate Piece(t: PllMap) {
    t != [] && Rising(t) && Dividing(t) && Encoded(t)
  }

  lemma PiecesJoin(a: PllMap, b: PllMap)
    requires Piece(a) && Piece(b) && a[|a| - 1].max < b[0].max
    ensures Piece(a + b) && (a + b)[|a + b| - 1] == b[|b| - 1]
  {
    RisingJoins(a, b);
  }

  lemma PiecesEnd(t: PllMap, v: PllDiv)
    requires Piece(t)
    ensures PllTable(t + [Entry(0, v)])
  {
    SentinelEnds(t, v);
    assert (t + [Entry(0, v)])[..|t|] == t;
  }

  ghost predicate RowOk(e: Entry<PllDiv>) {
    && 0 < e.max && e.max * 1000 < TWO_32 && 1 <= e.val.d && e.val.d * e.max < VCO_LIMIT
    && EncodedRow(e)
  }

  /** The post-dividers of the main PLL have bit 7 clear: it is used for the IF notch. */
  ghost predicate Low(t: PllMap) {
    forall i | 0 <= i < |t| :: LowRow(t[i])
  }

  ghost predicate LowRow(e: Entry<PllDiv>) {
    e.val.pd & 0x80 == 0x00
  }

  lemma EightRows(t: PllMap)
    requires |t| == 8 && RowOk(t[0]) && RowOk(t[1]) && RowOk(t[2]) && RowOk(t[3])
    requires RowOk(t[4]) && RowOk(t[5]) && RowOk(t[6]) && RowOk(t[7])
    requires t[0].max < t[1].max < t[2].max < t[3].max < t[4].max < t[5].max < t[6].max < t[7].max
    requires LowRow(t[0]) && LowRow(t[1]) && LowRow(t[2]) && LowRow(t[3]) && LowRow(t[4]) && LowRow(t[5])
    requires LowRow(t[6]) && LowRow(t[7])
    ensures Piece(t) && Low(t)
  {
  }

  lemma SevenRows(t: PllMap)
    requires |t| == 7 && RowOk(t[0]) && RowOk(t[1]) && RowOk(t[2]) && RowOk(t[3])
    requires RowOk(t[4]) && RowOk(t[5]) && RowOk(t[6])
    requires t[0].max < t[1].max < t[2].max < t[3].max < t[4].max < t[5].max < t[6].max
    ensures Piece(t)
  {
  }

  lemma SixRows(t: PllMap)
    requires |t| == 6 && RowOk(t[0]) && RowOk(t[1]) && RowOk(t[2])
    requires RowOk(t[3]) && RowOk(t[4]) && RowOk(t[5])
    requires t[0].max < t[1].max < t[2].max < t[3].max < t[4].max < t[5].max
    ensures Piece(t)
  {
  }

  lemma C1MainPiece0() ensures Piece(C1_MAIN_0) && Low(C1_MAIN_0) { EightRows(C1_MAIN_0); }
  lemma C1MainPiece1() ensures Piece(C1_MAIN_1) && Low(C1_MAIN_1) { EightRows(C1_MAIN_1); }
  lemma C1MainPiece2() ensures Piece(C1_MAIN_2) && Low(C1_MAIN_2) { EightRows(C1_MAIN_2); }
  lemma C1MainPiece3() ensures Piece(C1_MAIN_3) && Low(C1_MAIN_3) { EightRows(C1_MAIN_3); }
  lemma C1MainPiece4() ensures Piece(C1_MAIN_4) && Low(C1_MAIN_4) { EightRows(C1_MAIN_4); }

  lemma C1MainTable()
    ensures PllTable(C1_MAIN) && Low(C1_MAIN)
  {
    C1MainPiece0();
    C1MainPiece1();
    C1MainPiece2();
    C1MainPiece3();
    C1MainPiece4();
    PiecesJoin(C1_MAIN_0, C1_MAIN_1);
    PiecesJoin(C1_MAIN_0 + C1_MAIN_1, C1_MAIN_2);
    PiecesJoin(C1_MAIN_0 + C1_MAIN_1 + C1_MAIN_2, C1_MAIN_3);
    PiecesJoin(C1_MAIN_0 + C1_MAIN_1 + C1_MAIN_2 + C1_MAIN_3, C1_MAIN_4);
    PiecesEnd(C1_MAIN_0 + C1_MAIN_1 + C1_MAIN_2 + C1_MAIN_3 + C1_MAIN_4, PllDiv(0x00, 0));
  }

  lemma C2MainPiece0() ensures Piece(C2_MAIN_0) && Low(C2_MAIN_0) { EightRows(C2_MAIN_0); }
  lemma C2MainPiece1() ensures Piece(C2_MAIN_1) && Low(C2_MAIN_1) { EightRows(C2_MAIN_1); }
  lemma C2MainPiece2() ensures Piece(C2_MAIN_2) && Low(C2_MAIN_2) { EightRows(C2_MAIN_2); }
  lemma C2MainPiece3() ensures Piece(C2_MAIN_3) && Low(C2_MAIN_3) { EightRows(C2_MAIN_3); }
  lemma C2MainPiece4() ensures Piece(C2_MAIN_4) && Low(C2_MAIN_4) { EightRows(C2_MAIN_4); }

  lemma C2MainTable()
    ensures PllTable(C2_MAIN) && Low(C2_MAIN)
  {
    C2MainPiece0();
    C2MainPiece1();
    C2MainPiece2();
    C2MainPiece3();
    C2MainPiece4();
    PiecesJoin(C2_MAIN_0, C2_MAIN_1);
    PiecesJoin(C2_MAIN_0 + C2_MAIN_1, C2_MAIN_2);
    PiecesJoin(C2_MAIN_0 + C2_MAIN_1 + C2_MAIN_2, C2_MAIN_3);
    PiecesJoin(C2_MAIN_0 + C2_MAIN_1 + C2_MAIN_2 + C2_MAIN_3, C2_MAIN_4);
    PiecesEnd(C2_MAIN_0 + C2_MAIN_1 + C2_MAIN_2 + C2_MAIN_3 + C2_MAIN_4, PllDiv(0x00, 0));
  }

  lemma C1CalPiece0() ensures Piece(C1_CAL_0) { SevenRows(C1_CAL_0); }
  lemma C1CalPiece1() ensures Piece(C1_CAL_1) { SevenRows(C1_CAL_1); }
  lemma C1CalPiece2() ensures Piece(C1_CAL_2) { SevenRows(C1_CAL_2); }
  lemma C1CalPiece3() ensures Piece(C1_CAL_3) { SevenRows(C1_CAL_3); }
  lemma C1CalPiece4() ensures Piece(C1_CAL_4) { SevenRows(C1_CAL_4); }

  lemma C1CalTable()
    ensures PllTable(C1_CAL)
  {
    C1CalPiece0();
    C1CalPiece1();
    C1CalPiece2();
    C1CalPiece3();
    C1CalPiece4();
    PiecesJoin(C1_CAL_0, C1_CAL_1);
    PiecesJoin(C1_CAL_0 + C1_CAL_1, C1_CAL_2);
    PiecesJoin(C1_CAL_0 + C1_CAL_1 + C1_CAL_2, C1_CAL_3);
    PiecesJoin(C1_CAL_0 + C1_CAL_1 + C1_CAL_2 + C1_CAL_3, C1_CAL_4);
    PiecesEnd(C1_CAL_0 + C1_CAL_1 + C1_CAL_2 + C1_CAL_3 + C1_CAL_4, PllDiv(0x00, 0));
  }

  lemma C2CalPiece0() ensures Piece(C2_CAL_0) { SevenRows(C2_CAL_0); }
  lemma C2CalPiece1() ensures Piece(C2_CAL_1) { SevenRows(C2_CAL_1); }
  lemma C2CalPiece2() ensures Piece(C2_CAL_2) { SevenRows(C2_CAL_2); }
  lemma C2CalPiece3() ensures Piece(C2_CAL_3) { SevenRows(C2_CAL_3); }
  lemma C2CalPiece4() ensures Piece(C2_CAL_4) { SixRows(C2_CAL_4); }

  lemma C2CalTable()
    ensures PllTable(C2_CAL)
  {
    C2CalPiece0();
    C2CalPiece1();
    C2CalPiece2();
    C2CalPiece3();
    C2CalPiece4();
    PiecesJoin(C2_CAL_0, C2_CAL_1);
    PiecesJoin(C2_CAL_0 + C2_CAL_1, C2_CAL_2);
    PiecesJoin(C2_CAL_0 + C2_CAL_1 + C2_CAL_2, C2_CAL_3);
    PiecesJoin(C2_CAL_0 + C2_CAL_1 + C2_CAL_2 + C2_CAL_3, C2_CAL_4);
    PiecesEnd(C2_CAL_0 + C2_CAL_1 + C2_CAL_2 + C2_CAL_3 + C2_CAL_4, PllDiv(0x00, 0));
  }

  // ---------- The VCO window of the C2 main PLL ----------

  const VCO_LO: int := 7064000
  const VCO_HI: int := 7952000

  /** `below` is the maximum of the row in front. */
  predicate RowInWindow(e: Entry<PllDiv>, below: u32) {
    VCO_LO <= e.val.d * below && e.val.d * e.max <= VCO_HI
  }

  ghost predicate Window(t: PllMap, below: u32) {
    forall i | 0 <= i < |t| :: RowInWindow(t[i], if i == 0 then below else t[i - 1].max)
  }

  lemma SevenInWindow(t: PllMap, below: u32)
    requires |t| == 7 && RowInWindow(t[0], below) && RowInWindow(t[1], t[0].max) && RowInWindow(t[2], t[1].max)
    requires RowInWindow(t[3], t[2].max) && RowInWindow(t[4], t[3].max) && RowInWindow(t[5], t[4].max)
    requires RowInWindow(t[6], t[5].max)
    ensures Window(t, below)
  {
    hide RowInWindow;
  }

  lemma EightInWindow(t: PllMap, below: u32)
    requires |t| == 8 && RowInWindow(t[0], below) && RowInWindow(t[1], t[0].max) && RowInWindow(t[2], t[1].max)
    requires RowInWindow(t[3], t[2].max) && RowInWindow(t[4], t[3].max) && RowInWindow(t[5], t[4].max)
    requires RowInWindow(t[6], t[5].max) && RowInWindow(t[7], t[6].max)
    ensures Window(t, below)
  {
    hide RowInWindow;
  }

  lemma Window0() ensures Window(C2_MAIN_0[1..], 33125) { hide Window; SevenInWindow(C2_MAIN_0[1..], 33125); }
  lemma Window1() ensures Window(C2_MAIN_1, 62125) { hide Window; EightInWindow(C2_MAIN_1, 62125); }
  lemma Window2() ensures Window(C2_MAIN_2, 124250) { hide Window; EightInWindow(C2_MAIN_2, 124250); }
  lemma Window3() ensures Window(C2_MAIN_3, 248500) { hide Window; EightInWindow(C2_MAIN_3, 248500); }
  lemma Window4() ensures Window(C2_MAIN_4, 497000) { hide Window; EightInWindow(C2_MAIN_4, 497000); }

  lemma WindowAt(i: nat)
    requires 1 <= i < 40
    ensures VCO_LO <= C2_MAIN[i].val.d * C2_MAIN[i - 1].max && C2_MAIN[i].val.d * C2_MAIN[i].max <= VCO_HI
  {
    if i < 8 {
      Window0();
      assert C2_MAIN_0[1..][i - 1] == C2_MAIN[i];
      assert i > 1 ==> C2_MAIN_0[1..][i - 2] == C2_MAIN[i - 1];
    } else if i < 16 {
      Window1();
      assert C2_MAIN_1[i - 8] == C2_MAIN[i];
    } else if i < 24 {
      Window2();
      assert C2_MAIN_2[i - 16] == C2_MAIN[i];
    } else if i < 32 {
      Window3();
      assert C2_MAIN_3[i - 24] == C2_MAIN[i];
    } else {
      Window4();
      assert C2_MAIN_4[i - 32] == C2_MAIN[i];
    }
  }

  /** Above 33.125 MHz and up to 994 MHz the chosen divider keeps the oscillator between 7.064 and
      7.952 GHz. */
  lemma VcoWindow(freq: u32)
    requires 33125000 < freq <= 994000000
    ensures InRange(C2_MAIN, freq)
    ensures VCO_LO <= C2_MAIN[Slot(C2_MAIN, freq)].val.d * (freq / 1000) <= VCO_HI
  {
    C2MainTable();
    SlotIsLeast(C2_MAIN, freq);
    assert C2_MAIN[39].max == 994000 && |C2_MAIN| == 41;
    assert C2_MAIN[0].max == 33125;
    var i := Slot(C2_MAIN, freq);
    WindowAt(i);
    Monotone(C2_MAIN[i].val.d, C2_MAIN[i - 1].max, freq / 1000);
    Monotone(C2_MAIN[i].val.d, freq / 1000, C2_MAIN[i].max);
  }

  lemma TableEnds()
    ensures C1_MAIN[Last(C1_MAIN)].max == 987000 && C2_MAIN[Last(C2_MAIN)].max == 994000
    ensures C1_CAL[Last(C1_CAL)].max == 1010000 && C2_CAL[Last(C2_CAL)].max == 879000
  {
  }

  lemma IfFreqBound()
    ensures forall m | m in C1_STD_MAP + C2_STD_MAP :: m.ifFreq <= 7750
  {
  }
}
