/** The lookup loops of src/tda18271-maps.c, over any well-formed table. */
module Lookup {
  import opened Words
  import opened Tables

  const ERANGE := 34
  const EINVAL := 22

  /** Strictly ascending nonzero maxima that fit 32 bits in Hz, then the zero sentinel. */
  ghost predicate WellFormed<V>(t: seq<Entry<V>>) {
    && |t| >= 2 && t[|t| - 1].max == 0
    && (forall i | 0 <= i < |t| - 1 :: 0 < t[i].max && t[i].max * 1000 < TWO_32)
    && (forall i | 0 <= i < |t| - 2 :: t[i].max < t[i + 1].max)
  }

  /** A piece of a table, without the sentinel. */
  ghost predicate Rising<V>(t: seq<Entry<V>>) {
    && (forall i | 0 <= i < |t| :: 0 < t[i].max && t[i].max * 1000 < TWO_32)
    && (forall i | 0 <= i < |t| - 1 :: t[i].max < t[i + 1].max)
  }

  lemma RisingJoins<V>(a: seq<Entry<V>>, b: seq<Entry<V>>)
    requires Rising(a) && Rising(b) && a != [] && b != [] && a[|a| - 1].max < b[0].max
    ensures Rising(a + b) && (a + b)[|a + b| - 1] == b[|b| - 1]
  {
  }

  lemma SentinelEnds<V>(t: seq<Entry<V>>, v: V)
    requires Rising(t) && t != []
    ensures WellFormed(t + [Entry(0, v)])
  {
  }

  function Last<V>(t: seq<Entry<V>>): int { |t| - 2 }

  /** The frequency does not lie beyond the last real entry. */
  predicate InRange<V>(t: seq<Entry<V>>, freq: u32)
    requires |t| >= 2
  {
    freq <= 1000 * t[Last(t)].max
  }

  /** `i` is the entry for `freq`: the least one whose maximum is not exceeded, else the last real one. */
  ghost predicate IsSlot<V>(t: seq<Entry<V>>, freq: u32, i: int)
    requires |t| >= 2
  {
    && 0 <= i <= Last(t)
    && (forall j | 0 <= j < i :: 1000 * t[j].max < freq)
    && (if InRange(t, freq) then freq <= 1000 * t[i].max else i == Last(t))
  }

  function SlotFrom<V>(t: seq<Entry<V>>, freq: u32, i: nat): (s: nat)
    requires |t| >= 2 && i <= Last(t)
    ensures s <= Last(t)
    decreases |t| - i
  {
    if freq <= 1000 * t[i].max || i == Last(t) then i else SlotFrom(t, freq, i + 1)
  }

  function Slot<V>(t: seq<Entry<V>>, freq: u32): (s: nat)
    requires |t| >= 2
    ensures s <= Last(t)
  {
    SlotFrom(t, freq, 0)
  }

  lemma {:induction false} SlotFromIsSlot<V>(t: seq<Entry<V>>, freq: u32, i: nat)
    requires WellFormed(t) && i <= Last(t) && forall j | 0 <= j < i :: 1000 * t[j].max < freq
    ensures IsSlot(t, freq, SlotFrom(t, freq, i))
    decreases |t| - i
  {
    if !(freq <= 1000 * t[i].max || i == Last(t)) {
      SlotFromIsSlot(t, freq, i + 1);
    } else {
      Ascending(t, i, Last(t));
    }
  }

  /** The slot exists, is the only one, and is never the sentinel. */
  lemma SlotIsLeast<V>(t: seq<Entry<V>>, freq: u32)
    requires WellFormed(t)
    ensures IsSlot(t, freq, Slot(t, freq)) && Slot(t, freq) < |t| - 1
    ensures forall i | IsSlot(t, freq, i) :: i == Slot(t, freq)
  {
    SlotFromIsSlot(t, freq, 0);
  }

  lemma {:induction false} Ascending<V>(t: seq<Entry<V>>, i: nat, j: nat)
    requires WellFormed(t) && i <= j <= Last(t)
    ensures t[i].max <= t[j].max
    decreases j - i
  {
    if i < j { Ascending(t, i, j - 1); }
  }

  /** A frequency between two neighbouring maxima belongs to the upper one. */
  lemma SlotBetween<V>(t: seq<Entry<V>>, freq: u32, i: nat)
    requires WellFormed(t) && i <= Last(t) && freq <= 1000 * t[i].max && (i > 0 ==> 1000 * t[i - 1].max < freq)
    ensures Slot(t, freq) == i && InRange(t, freq)
  {
    SlotIsLeast(t, freq);
    Ascending(t, i, Last(t));
    forall j | 0 <= j < i ensures 1000 * t[j].max < freq { Ascending(t, j, i - 1); }
  }

  /** The table has this row, after one with the maximum `lo`. */
  ghost predicate HasRow<V>(t: seq<Entry<V>>, lo: u32, row: Entry<V>) {
    exists i :: 0 <= i < |t| - 2 && t[i].max == lo && t[i + 1] == row
  }

  lemma RowFound<V>(t: seq<Entry<V>>, lo: u32, row: Entry<V>, freq: u32)
    requires WellFormed(t) && HasRow(t, lo, row) && 1000 * lo < freq <= 1000 * row.max
    ensures t[Slot(t, freq)] == row
  {
    var i :| 0 <= i < |t| - 2 && t[i].max == lo && t[i + 1] == row;
    SlotBetween(t, freq, i + 1);
  }

  /** The loop shared by tda18271_lookup_pll_map and tda18271_lookup_map. */
  method LookupEntry<V>(table: seq<Entry<V>>, freq: u32) returns (ret: int, i: nat)
    requires WellFormed(table)
    ensures i == Slot(table, freq)
    ensures ret == if InRange(table, freq) then 0 else -ERANGE
  {
    i := 0;
    ret := 0;
    while ToU32(table[i].max * 1000) < freq
      invariant i <= Last(table) && ret == 0
      invariant forall j | 0 <= j < i :: 1000 * table[j].max < freq
      decreases |table| - i
    {
      if table[i + 1].max == 0 {
        ret := -ERANGE;
        break;
      }
      i := i + 1;
    }
    SlotIsLeast(table, freq);
    Ascending(table, i, Last(table));
    assert IsSlot(table, freq, i);
  }

  method LookupPllMap(table: PllMap, freq: u32) returns (ret: int, postDiv: byte, div: u8)
    requires WellFormed(table)
    ensures ret == if InRange(table, freq) then 0 else -ERANGE
    ensures PllDiv(postDiv, div) == table[Slot(table, freq)].val
  {
    var i;
    SlotIsLeast(table, freq);
    ret, i := LookupEntry(table, freq);
    postDiv, div := table[i].val.pd, table[i].val.d;
  }

  method LookupMap(table: Map, freq: u32) returns (ret: int, val: byte)
    requires WellFormed(table)
    ensures ret == if InRange(table, freq) then 0 else -ERANGE
    ensures val == table[Slot(table, freq)].val
  {
    var i;
    SlotIsLeast(table, freq);
    ret, i := LookupEntry(table, freq);
    val := table[i].val;
  }

  /** tda18271_lookup_cid_target does not report a frequency beyond the table. */
  method LookupCidTarget(freq: u32) returns (cidTarget: byte, countLimit: nat)
    requires WellFormed(CID_TARGET)
    ensures CidTarget(cidTarget, countLimit) == CID_TARGET[Slot(CID_TARGET, freq)].val
  {
    SlotIsLeast(CID_TARGET, freq);
    var _, i := LookupEntry(CID_TARGET, freq);
    cidTarget, countLimit := CID_TARGET[i].val.target, CID_TARGET[i].val.limit;
  }

  /** The static columns of the calibration state are those of the template. */
  ghost predicate Shaped(b: seq<RfCal>) {
    |b| == 8 && forall i | 0 <= i < 8 ::
      var t := RF_BAND_TEMPLATE[i];
      Band(b[i].rfmax, b[i].rfband, b[i].rf1Def, b[i].rf2Def, b[i].rf3Def) == t
  }

  lemma TemplateIsRfBand(b: seq<RfCal>)
    requires Shaped(b)
    ensures |RF_BAND| == 8 && forall i | 0 <= i < 8 :: b[i].rfmax == RF_BAND[i].max && b[i].rfband == RF_BAND[i].val
  {
    assert forall i | 0 <= i < 8 ::
              RF_BAND_TEMPLATE[i].rfmax == RF_BAND[i].max && RF_BAND_TEMPLATE[i].rfband == RF_BAND[i].val;
  }

  /** What tda18271_lookup_rf_band returns: the index of the band, or an error beyond the last one. */
  function BandIndex(freq: u32): (i: int)
    ensures i < 7
  {
    if InRange(RF_BAND, freq) then Slot(RF_BAND, freq) else -EINVAL
  }

  ghost predicate SameRowAs(table: array<RfCal>, i: nat)
    requires table.Length == 8 && i < 8
    reads table
  {
    && |RF_BAND| == 8 && table[i].rfmax == RF_BAND[i].max && table[i].rfband == RF_BAND[i].val
    && (table[i].rfmax == 0 <==> i == 7) && table[i].rfmax <= 865000
  }

  lemma SameRow(table: array<RfCal>, i: nat)
    requires Shaped(table[..]) && i < 8
    ensures table.Length == 8 && SameRowAs(table, i)
  {
    assert table[i] == table[..][i];
    TemplateIsRfBand(table[..]);
  }

  /** Where the loop stops. */
  lemma BandStops(freq: u32, i: nat)
    requires |RF_BAND| == 8 && i < 8 && forall j | 0 <= j < i :: 1000 * RF_BAND[j].max < freq
    requires i == 7 || freq <= 1000 * RF_BAND[i].max
    ensures if i == 7 then BandIndex(freq) == -EINVAL else BandIndex(freq) == Slot(RF_BAND, freq) == i
  {
    RfBandWellFormed();
    SlotIsLeast(RF_BAND, freq);
    if i < 7 {
      Ascending(RF_BAND, i, 6);
      assert IsSlot(RF_BAND, freq, i);
    }
  }

  /** tda18271_lookup_rf_band runs into the sentinel where the other loops stop in front of it, and yet
      agrees with the lookup in RF_BAND: it succeeds for the same frequencies, with the same band. */
  method LookupRfBand(table: array<RfCal>, freq: u32) returns (i: int, rfBand: byte)
    requires Shaped(table[..])
    ensures i == BandIndex(freq)
    ensures i >= 0 ==> i < 7 && rfBand == RF_BAND[Slot(RF_BAND, freq)].val
  {
    hide Shaped, BandIndex, Slot;
    i := 0;
    rfBand := 0;
    SameRow(table, 0);
    while ToU32(table[i].rfmax * 1000) < freq
      invariant 0 <= i < 8 && SameRowAs(table, i)
      invariant forall j | 0 <= j < i :: 1000 * RF_BAND[j].max < freq
      decreases 8 - i
    {
      if table[i].rfmax == 0 {
        BandStops(freq, i);
        return -EINVAL, 0;
      }
      i := i + 1;
      SameRow(table, i);
    }
    rfBand := table[i].rfband;
    BandStops(freq, i);
  }

  /** Temperature that a thermometer byte stands for. */
  function Temperature(tm: byte): u8 {
    NibbleSmall(tm);
    var row := THERMOMETER[(tm & 0x0f) as int];
    if tm & 0x20 == 0x20 then row.r1 else row.r0
  }

  lemma NibbleSmall(b: byte)
    ensures 0 <= (b & 0x0f) as int < 16
  {
  }

  /** tda18271_lookup_thermometer: the loop finds the row of the nibble. */
  method LookupThermometer(tm: byte) returns (val: u8)
    ensures val == Temperature(tm)
  {
    NibbleSmall(tm);
    var n := (tm & 0x0f) as int;
    var i := 0;
    while THERMOMETER[i].d < n
      invariant 0 <= i <= n < 16
      decreases 16 - i
    {
      if THERMOMETER[i + 1].d == 0 {
        break;
      }
      i := i + 1;
    }
    val := if tm & 0x20 == 0x20 then THERMOMETER[i].r1 else THERMOMETER[i].r0;
  }

  lemma TemperatureRange(tm: byte)
    ensures 60 <= Temperature(tm) <= 122
  {
    NibbleSmall(tm);
  }

  /** The nibble counts temperatures in steps of 2 as a Gray code, from 60 on or, in the high range, from 92. */
  lemma ThermometerCode(tm: byte, g: byte)
    requires g < 16 && tm & 0x0f == g ^ (g >> 1)
    ensures Temperature(tm) == (if tm & 0x20 == 0x20 then 92 else 60) + 2 * (g as int)
  {
    NibbleSmall(tm);
    Gray(tm & 0x0f, g);
  }

  lemma Gray(n: byte, g: byte)
    requires g < 16 && n == g ^ (g >> 1)
    ensures THERMOMETER[n as int].r0 == 60 + 2 * (g as int) && THERMOMETER[n as int].r1 == 92 + 2 * (g as int)
  {
    if g < 8 {
      if g < 4 {
        if g == 0 {} else if g == 1 {} else if g == 2 {} else { assert g == 3; }
      } else {
        if g == 4 {} else if g == 5 {} else if g == 6 {} else { assert g == 7; }
      }
    } else {
      if g < 12 {
        if g == 8 {} else if g == 9 {} else if g == 10 {} else { assert g == 11; }
      } else {
        if g == 12 {} else if g == 13 {} else if g == 14 {} else { assert g == 15; }
      }
    }
  }

  /** The reading is at the end of its range, towards the other one. */
  predicate Saturated(tm: byte) {
    Temperature(tm) == if tm & 0x20 == 0x20 then 92 else 90
  }

  /** No byte of the same range reads closer to the other one. */
  lemma SaturatedIsEnd(tm: byte)
    ensures Saturated(tm) <==>
            forall other: byte | other & 0x20 == tm & 0x20 ::
              if tm & 0x20 == 0x20 then Temperature(tm) <= Temperature(other) else Temperature(other) <= Temperature(tm)
  {
    hide Temperature;
    forall b: byte ensures if b & 0x20 == 0x20 then 92 <= Temperature(b) else Temperature(b) <= 90 {
      InsideRange(b);
    }
    RangeEnds();
    RangeBit(tm);
  }

  lemma RangeBit(b: byte)
    ensures b & 0x20 == 0x20 || b & 0x20 == 0x00
    ensures 0x20 as byte & 0x20 == 0x20 && 0x08 as byte & 0x20 == 0x00
  {
  }

  lemma InsideRange(tm: byte)
    ensures if tm & 0x20 == 0x20 then 92 <= Temperature(tm) else Temperature(tm) <= 90
  {
    NibbleSmall(tm);
  }

  lemma RangeEnds()
    ensures Temperature(0x20) == 92 && Temperature(0x08) == 90
  {
    assert 0x20 as byte & 0x0f == 0x00 && 0x20 as byte & 0x20 == 0x20;
    assert 0x08 as byte & 0x0f == 0x08 && 0x08 as byte & 0x20 == 0x00;
  }

  lemma SaturatedNibble(tm: byte)
    ensures Saturated(tm) <==>
            (tm & 0x0f == 0x00 && tm & 0x20 == 0x20) || (tm & 0x0f == 0x08 && tm & 0x20 == 0x00)
  {
    NibbleSmall(tm);
  }

  // ---------- The tables ----------

  ghost predicate Below(t: Map, limit: byte) {
    forall i | 0 <= i < |t| :: t[i].val <= limit
  }

  predicate DcRow(e: Entry<byte>) {
    0 < e.max && e.max * 1000 < TWO_32 && e.val <= 0x9a
  }

  lemma TenRows(t: Map)
    requires |t| == 10 && DcRow(t[0]) && DcRow(t[1]) && DcRow(t[2]) && DcRow(t[3]) && DcRow(t[4])
    requires DcRow(t[5]) && DcRow(t[6]) && DcRow(t[7]) && DcRow(t[8]) && DcRow(t[9])
    requires t[0].max < t[1].max < t[2].max < t[3].max < t[4].max < t[5].max
    requires t[5].max < t[6].max < t[7].max < t[8].max < t[9].max
    ensures Rising(t) && Below(t, 0x9a)
  {
    forall i | 0 <= i < 10 ensures DcRow(t[i]) && (i < 9 ==> t[i].max < t[i + 1].max) {
      if i < 5 {} else {}
    }
  }

  lemma DcPiece0() ensures Rising(DC_0) && Below(DC_0, 0x9a) { hide Rising, Below; TenRows(DC_0); }
  lemma DcPiece1() ensures Rising(DC_1) && Below(DC_1, 0x9a) { hide Rising, Below; TenRows(DC_1); }
  lemma DcPiece2() ensures Rising(DC_2) && Below(DC_2, 0x9a) { hide Rising, Below; TenRows(DC_2); }
  lemma DcPiece3() ensures Rising(DC_3) && Below(DC_3, 0x9a) { hide Rising, Below; TenRows(DC_3); }
  lemma DcPiece4() ensures Rising(DC_4) && Below(DC_4, 0x9a) { hide Rising, Below; TenRows(DC_4); }
  lemma DcPiece5() ensures Rising(DC_5) && Below(DC_5, 0x9a) { hide Rising, Below; TenRows(DC_5); }
  lemma DcPiece6() ensures Rising(DC_6) && Below(DC_6, 0x9a) { hide Rising, Below; TenRows(DC_6); }
  lemma DcPiece7() ensures Rising(DC_7) && Below(DC_7, 0x9a) { hide Rising, Below; TenRows(DC_7); }
  lemma DcPiece8() ensures Rising(DC_8) && Below(DC_8, 0x9a) { hide Rising, Below; TenRows(DC_8); }
  lemma DcPiece9() ensures Rising(DC_9) && Below(DC_9, 0x9a) { hide Rising, Below; TenRows(DC_9); }
  lemma DcPiece10() ensures Rising(DC_10) && Below(DC_10, 0x9a) {}

  lemma DcWellFormed()
    ensures WellFormed(DC)
  {
    DcPiece0();
    DcPiece1();
    DcPiece2();
    DcPiece3();
    DcPiece4();
    DcPiece5();
    DcPiece6();
    DcPiece7();
    DcPiece8();
    DcPiece9();
    DcPiece10();
    RisingJoins(DC_0, DC_1);
    RisingJoins(DC_0 + DC_1, DC_2);
    RisingJoins(DC_0 + DC_1 + DC_2, DC_3);
    RisingJoins(DC_0 + DC_1 + DC_2 + DC_3, DC_4);
    RisingJoins(DC_0 + DC_1 + DC_2 + DC_3 + DC_4, DC_5);
    RisingJoins(DC_0 + DC_1 + DC_2 + DC_3 + DC_4 + DC_5, DC_6);
    RisingJoins(DC_0 + DC_1 + DC_2 + DC_3 + DC_4 + DC_5 + DC_6, DC_7);
    RisingJoins(DC_0 + DC_1 + DC_2 + DC_3 + DC_4 + DC_5 + DC_6 + DC_7, DC_8);
    RisingJoins(DC_0 + DC_1 + DC_2 + DC_3 + DC_4 + DC_5 + DC_6 + DC_7 + DC_8, DC_9);
    RisingJoins(DC_0 + DC_1 + DC_2 + DC_3 + DC_4 + DC_5 + DC_6 + DC_7 + DC_8 + DC_9, DC_10);
    SentinelEnds(DC_0 + DC_1 + DC_2 + DC_3 + DC_4 + DC_5 + DC_6 + DC_7 + DC_8 + DC_9 + DC_10, DC[|DC| - 1].val);
  }

  lemma BelowJoins(a: Map, b: Map)
    requires Below(a, 0x9a) && Below(b, 0x9a)
    ensures Below(a + b, 0x9a)
  {
  }

  lemma DcBelow()
    ensures Below(DC, 0x9a)
  {
    DcPiece0();
    DcPiece1();
    DcPiece2();
    DcPiece3();
    DcPiece4();
    DcPiece5();
    DcPiece6();
    DcPiece7();
    DcPiece8();
    DcPiece9();
    DcPiece10();
    BelowJoins(DC_0, DC_1);
    BelowJoins(DC_0 + DC_1, DC_2);
    BelowJoins(DC_0 + DC_1 + DC_2, DC_3);
    BelowJoins(DC_0 + DC_1 + DC_2 + DC_3, DC_4);
    BelowJoins(DC_0 + DC_1 + DC_2 + DC_3 + DC_4, DC_5);
    BelowJoins(DC_0 + DC_1 + DC_2 + DC_3 + DC_4 + DC_5, DC_6);
    BelowJoins(DC_0 + DC_1 + DC_2 + DC_3 + DC_4 + DC_5 + DC_6, DC_7);
    BelowJoins(DC_0 + DC_1 + DC_2 + DC_3 + DC_4 + DC_5 + DC_6 + DC_7, DC_8);
    BelowJoins(DC_0 + DC_1 + DC_2 + DC_3 + DC_4 + DC_5 + DC_6 + DC_7 + DC_8, DC_9);
    BelowJoins(DC_0 + DC_1 + DC_2 + DC_3 + DC_4 + DC_5 + DC_6 + DC_7 + DC_8 + DC_9, DC_10);
    BelowJoins(DC[..|DC| - 1], [Entry(0, 0x00)]);
  }

  lemma RfBandWellFormed()
    ensures WellFormed(RF_BAND)
  {
  }

  lemma CidTargetWellFormed()
    ensures WellFormed(CID_TARGET)
  {
  }
}
