/** The arithmetic of the tracking-filter calibration (src/tda18271-fe.c): the line segments fitted
    through measured anchors, and the correction computed from them. */
module Bands {
  import opened Words
  import opened Tables
  import opened Lookup

  /** One measured point of a band: the frequency found by the power scan in Hz, the calibration byte
      the chip reported there (or the table's, when the scan found nothing), and the table's byte. */
  datatype Anchor = Anchor(freq: u32, cal: u8, tab: u8)

  function Default(e: RfCal, rf: nat): u32
    requires rf < 3
  {
    if rf == 0 then e.rf1Def else if rf == 1 then e.rf2Def else e.rf3Def
  }

  /** Starting frequency of the scan for anchor `rf`, in Hz. */
  function StartFreq(e: RfCal, rf: nat): u32
    requires rf < 3
  {
    ToU32(1000 * Default(e, rf))
  }

  /** (s32)(b - a) / 1000 on unsigned frequencies. */
  function Divisor(a: u32, b: u32): int {
    TruncDiv(ToS32(ToU32(b - a)), 1000)
  }

  function Dividend(a: Anchor, b: Anchor): int {
    b.cal - b.tab - a.cal + a.tab
  }

  /** What one turn of the anchor loop stores in the band; the divisor must not be zero. */
  function Fit(e: RfCal, anchors: seq<Anchor>): RfCal
    requires 1 <= |anchors| <= 3
    requires |anchors| == 2 ==> Divisor(anchors[0].freq, anchors[1].freq) != 0
    requires |anchors| == 3 ==> Divisor(anchors[1].freq, anchors[2].freq) != 0
  {
    if |anchors| == 1 then
      e.(rfA1 := 0, rfB1 := anchors[0].cal - anchors[0].tab, rf1 := anchors[0].freq / 1000)
    else if |anchors| == 2 then
      e.(rfA1 := TruncDiv(Dividend(anchors[0], anchors[1]), Divisor(anchors[0].freq, anchors[1].freq)),
         rf2 := anchors[1].freq / 1000)
    else
      e.(rfA2 := TruncDiv(Dividend(anchors[1], anchors[2]), Divisor(anchors[1].freq, anchors[2].freq)),
         rfB2 := anchors[1].cal - anchors[1].tab, rf3 := anchors[2].freq / 1000)
  }

  /** The scan moves an anchor by at most 4000 Hz. */
  predicate NearDefault(e: RfCal, rf: nat, freq: u32)
    requires rf < 3
  {
    Default(e, rf) != 0 && -4000 <= freq - StartFreq(e, rf) <= 4000
  }

  ghost predicate NearDefaults(e: RfCal, anchors: seq<Anchor>) {
    |anchors| <= 3 && forall rf | 0 <= rf < |anchors| :: NearDefault(e, rf, anchors[rf].freq)
  }

  /** The default frequencies of a band, as far as they are there, lie inside it and far apart. */
  ghost predicate Spaced(e: RfCal) {
    && 46000 <= e.rf1Def <= 842000 && (e.rf2Def == 0 ==> e.rf3Def == 0)
    && (e.rf2Def != 0 ==> e.rf1Def + 66700 <= e.rf2Def <= 842000)
    && (e.rf3Def != 0 ==> e.rf2Def + 66700 <= e.rf3Def <= 842000)
  }

  ghost predicate Inside(e: RfCal, lo: u32, hi: u32) {
    forall rf | 0 <= rf < 3 :: Default(e, rf) != 0 ==> lo + 4 < Default(e, rf) && Default(e, rf) + 4 <= hi
  }

  lemma TemplateSpaced(i: nat)
    requires i < 7
    ensures var t := RF_BAND_TEMPLATE[i];
            Spaced(t) && Inside(t, if i == 0 then 0 else RF_BAND[i - 1].max, RF_BAND[i].max)
  {
  }

  lemma BandSpaced(b: seq<RfCal>, i: nat)
    requires Shaped(b) && i < 7
    ensures Spaced(b[i]) && Inside(b[i], if i == 0 then 0 else RF_BAND[i - 1].max, RF_BAND[i].max)
  {
    TemplateSpaced(i);
    assert Band(b[i].rfmax, b[i].rfband, b[i].rf1Def, b[i].rf2Def, b[i].rf3Def) == RF_BAND_TEMPLATE[i];
    assert b[i].rf1Def == RF_BAND_TEMPLATE[i].rf1Def && b[i].rf2Def == RF_BAND_TEMPLATE[i].rf2Def;
    assert b[i].rf3Def == RF_BAND_TEMPLATE[i].rf3Def;
  }

  /** No divisor is zero: it is at least 66692 kHz. */
  lemma DivisorLarge(e: RfCal, rf: nat, f: u32, g: u32)
    requires Spaced(e) && rf < 2
    requires NearDefault(e, rf, f) && NearDefault(e, rf + 1, g)
    ensures Divisor(f, g) >= 66692 && f / 1000 < g / 1000
  {
    FarApart(g - f);
  }

  lemma FarApart(d: int)
    requires 66692000 <= d < 0x8000_0000
    ensures TruncDiv(ToS32(ToU32(d)), 1000) >= 66692
  {
  }

  /** The slope between two anchors is always stored as 0. */
  lemma SlopeVanishes(a: Anchor, b: Anchor, divisor: int)
    requires divisor >= 66692
    ensures Abs(Dividend(a, b)) <= 510 && TruncDiv(Dividend(a, b), divisor) == 0
  {
    TruncDivBelow(Dividend(a, b), divisor);
  }

  // ---------- The state of a band ----------

  /** In every reachable state: slopes 0, offsets that differences of bytes can be, and no anchor
      without a default. */
  ghost predicate Plausible(e: RfCal) {
    && e.rfA1 == 0 && e.rfA2 == 0 && Abs(e.rfB1) <= 255 && Abs(e.rfB2) <= 255
    && (e.rf2Def == 0 ==> e.rf2 == 0) && (e.rf3Def == 0 ==> e.rf3 == 0)
  }

  /** After a successful calibration: the anchors exist exactly where there are defaults, and ascend. */
  ghost predicate Calibrated(e: RfCal) {
    && Plausible(e) && e.rf1 != 0 && (e.rf2 != 0 <==> e.rf2Def != 0) && (e.rf3 != 0 <==> e.rf3Def != 0)
    && (e.rf2 != 0 ==> e.rf1 < e.rf2) && (e.rf3 != 0 ==> 0 < e.rf2 < e.rf3)
  }

  ghost predicate BandsPlausible(b: seq<RfCal>) {
    Shaped(b) && forall i | 0 <= i < 8 :: Plausible(b[i])
  }

  lemma TemplatePlausible()
    ensures BandsPlausible(RF_BAND_TEMPLATE)
  {
  }

  /** The anchors measured so far determine the band's record. */
  ghost predicate Fitted(e: RfCal, anchors: seq<Anchor>) {
    && |anchors| <= 3 && NearDefaults(e, anchors)
    && (|anchors| >= 1 ==> e.rf1 == anchors[0].freq / 1000 && e.rfB1 == anchors[0].cal - anchors[0].tab)
    && (|anchors| >= 2 ==> e.rf2 == anchors[1].freq / 1000)
    && (|anchors| >= 3 ==> e.rf3 == anchors[2].freq / 1000 && e.rfB2 == anchors[1].cal - anchors[1].tab)
  }

  /** One more anchor: the division is defined, and the record stays settled and fitted. */
  lemma FitExtends(e: RfCal, anchors: seq<Anchor>, a: Anchor)
    requires Spaced(e) && Plausible(e) && Fitted(e, anchors) && |anchors| < 3
    requires NearDefault(e, |anchors|, a.freq)
    ensures var all := anchors + [a];
            && (|all| == 2 ==> Divisor(all[0].freq, all[1].freq) >= 66692)
            && (|all| == 3 ==> Divisor(all[1].freq, all[2].freq) >= 66692)
            && Plausible(Fit(e, all)) && Fitted(Fit(e, all), all)
  {
    if |anchors| > 0 {
      var last := anchors[|anchors| - 1];
      DivisorLarge(e, |anchors| - 1, last.freq, a.freq);
      SlopeVanishes(last, a, Divisor(last.freq, a.freq));
    }
  }

  /** Storing a fitted record keeps the static columns. */
  lemma FitKeepsShape(b: seq<RfCal>, i: nat, anchors: seq<Anchor>)
    requires Shaped(b) && i < 8 && 1 <= |anchors| <= 3
    requires |anchors| == 2 ==> Divisor(anchors[0].freq, anchors[1].freq) != 0
    requires |anchors| == 3 ==> Divisor(anchors[1].freq, anchors[2].freq) != 0
    ensures Shaped(b[i := Fit(b[i], anchors)])
  {
  }

  lemma AnchorPositive(e: RfCal, rf: nat, freq: u32)
    requires Spaced(e) && rf < 3 && NearDefault(e, rf, freq)
    ensures freq / 1000 > 0 && Default(e, rf) != 0
  {
    var khz := Default(e, rf);
    assert 46000 <= khz <= 842000;
    assert StartFreq(e, rf) == 1000 * khz;
  }

  /** With an anchor for every default the band is calibrated. */
  lemma FittedIsCalibrated(e: RfCal, anchors: seq<Anchor>)
    requires Spaced(e) && Plausible(e) && Fitted(e, anchors)
    requires |anchors| >= 1 && (|anchors| == 3 || Default(e, |anchors|) == 0)
    ensures Calibrated(e)
  {
    hide NearDefault, StartFreq, Divisor;
    assert NearDefault(e, 0, anchors[0].freq);
    AnchorPositive(e, 0, anchors[0].freq);
    if |anchors| >= 2 {
      assert NearDefault(e, 1, anchors[1].freq);
      AnchorPositive(e, 1, anchors[1].freq);
      DivisorLarge(e, 0, anchors[0].freq, anchors[1].freq);
    }
    if |anchors| >= 3 {
      assert NearDefault(e, 2, anchors[2].freq);
      AnchorPositive(e, 2, anchors[2].freq);
      DivisorLarge(e, 1, anchors[1].freq, anchors[2].freq);
    }
  }

  /** An anchor stays in its band. */
  lemma AnchorInBand(b: seq<RfCal>, i: nat, rf: nat, freq: u32)
    requires Shaped(b) && i < 7 && rf < 3 && NearDefault(b[i], rf, freq)
    ensures BandIndex(freq) == i
  {
    BandSpaced(b, i);
    RfBandWellFormed();
    SlotBetween(RF_BAND, freq, i);
  }

  // ---------- The correction ----------

  function Clamp(x: int): u8 {
    if x < 0 then 0 else if x > 255 then 255 else x
  }

  /** The interpolated byte at `freq`; `rfTab` is the table's. */
  function Approx(e: RfCal, freq: u32, rfTab: u8): u8 {
    var khz := freq / 1000;
    if e.rf3 == 0 || khz < e.rf2 then
      Clamp(e.rfA1 * ToS32(ToU32(khz - e.rf1)) + e.rfB1 + rfTab)
    else
      Clamp(e.rfA2 * ToS32(ToU32(khz - e.rf2)) + e.rfB2 + rfTab)
  }

  /** Temperature compensation. */
  function Compensation(dcOverDt: u8, tmCurrent: u8, tmRfcal: u8): int {
    TruncDiv(dcOverDt * (tmCurrent - tmRfcal), 1000)
  }

  /** The cast to unsigned char. */
  function Corrected(approx: u8, comp: int): u8 {
    (approx + comp) % 256
  }

  /** What the code computes: with vanishing slopes, a constant offset on each side of RF2. */
  lemma ApproxIsOffset(e: RfCal, freq: u32, rfTab: u8)
    requires Plausible(e)
    ensures Approx(e, freq, rfTab) == Clamp((if e.rf3 == 0 || freq / 1000 < e.rf2 then e.rfB1 else e.rfB2) + rfTab)
  {
  }

  /** At RF1 the correction is the measured byte. */
  lemma ThroughRf1(e: RfCal, anchors: seq<Anchor>)
    requires Calibrated(e) && Fitted(e, anchors) && |anchors| >= 1
    ensures Approx(e, anchors[0].freq, anchors[0].tab) == anchors[0].cal
  {
  }

  /** At RF2 it is, if the band has a third anchor ... */
  lemma ThroughRf2(e: RfCal, anchors: seq<Anchor>)
    requires Calibrated(e) && Fitted(e, anchors) && |anchors| == 3
    ensures Approx(e, anchors[1].freq, anchors[1].tab) == anchors[1].cal
  {
    assert e.rf3Def != 0;
  }

  /** In a band of two anchors the slope that leads to the second one is lost. It is met all the same
      exactly when that slope's dividend is 0, or when the byte is at an end and the missing rise points
      beyond it. */
  lemma TwoPointRf2Exactly(e: RfCal, anchors: seq<Anchor>)
    requires Calibrated(e) && Fitted(e, anchors) && |anchors| == 2 && e.rf3 == 0
    ensures Approx(e, anchors[1].freq, anchors[1].tab) == anchors[1].cal <==> MeetsWithout(anchors[0], anchors[1])
  {
    ApproxIsOffset(e, anchors[1].freq, anchors[1].tab);
    ClampMeets(e.rfB1 + anchors[1].tab, anchors[1].cal);
  }

  /** Likewise for the third anchor, with the slope from the second one. */
  lemma Rf3Exactly(e: RfCal, anchors: seq<Anchor>)
    requires Calibrated(e) && Fitted(e, anchors) && |anchors| == 3
    ensures Approx(e, anchors[2].freq, anchors[2].tab) == anchors[2].cal <==> MeetsWithout(anchors[1], anchors[2])
  {
    assert e.rf3Def != 0;
    ApproxIsOffset(e, anchors[2].freq, anchors[2].tab);
    ClampMeets(e.rfB2 + anchors[2].tab, anchors[2].cal);
  }

  /** The segment from `a` to `b` does not need its slope. */
  predicate MeetsWithout(a: Anchor, b: Anchor) {
    || Dividend(a, b) == 0
    || (b.cal == 255 && Dividend(a, b) < 0)
    || (b.cal == 0 && Dividend(a, b) > 0)
  }

  lemma ClampMeets(x: int, cal: u8)
    ensures Clamp(x) == cal <==> cal == x || (cal == 255 && cal < x) || (cal == 0 && cal > x)
  {
  }

  lemma ProductBound(a: int, b: int)
    requires 0 <= a <= 154 && Abs(b) <= 62
    ensures Abs(a * b) <= 9548
  {
    if b >= 0 {
      MulMonotone(154, b, 62);
      Monotonic(b, a, 154);
    } else {
      MulMonotone(154, -b, 62);
      Monotonic(-b, a, 154);
      assert a * b == -(a * -b);
    }
  }

  lemma Monotonic(q: int, a: int, b: int)
    requires q >= 0 && a <= b
    ensures a * q <= b * q
  {
  }

  /** Between any two thermometer readings the compensation is at most 9. */
  lemma CompensationBound(dcOverDt: u8, tmCurrent: u8, tmRfcal: u8)
    requires dcOverDt <= 154 && 60 <= tmCurrent <= 122 && 60 <= tmRfcal <= 122
    ensures Abs(Compensation(dcOverDt, tmCurrent, tmRfcal)) <= 9
  {
    ProductBound(dcOverDt, tmCurrent - tmRfcal);
  }

  /** The stored byte is the compensated one exactly when the temperatures do not carry it beyond an end;
      the cast wraps otherwise. */
  lemma CorrectedExactly(approx: u8, dcOverDt: u8, tmCurrent: u8, tmRfcal: u8)
    ensures var comp := Compensation(dcOverDt, tmCurrent, tmRfcal);
            Corrected(approx, comp) == approx + comp <==>
            && dcOverDt * (tmCurrent - tmRfcal) < 1000 * (256 - approx)
            && dcOverDt * (tmRfcal - tmCurrent) < 1000 * (approx + 1)
  {
    var p := dcOverDt * (tmCurrent - tmRfcal);
    Negated(dcOverDt, tmCurrent - tmRfcal);
    assert tmRfcal - tmCurrent == -(tmCurrent - tmRfcal);
    WrapsExactly(approx, p);
  }

  lemma Negated(a: int, b: int)
    ensures a * -b == -(a * b)
  {
  }

  lemma WrapsExactly(approx: u8, p: int)
    ensures Corrected(approx, TruncDiv(p, 1000)) == approx + TruncDiv(p, 1000) <==>
            p < 1000 * (256 - approx) && -p < 1000 * (approx + 1)
  {
  }

  /** `b` is `a` moved by dc * delta / 1000, rounded toward 0, in the direction of `delta`. */
  predicate Moved(a: int, b: int, dc: u8, delta: int) {
    && 1000 * Abs(b - a) <= dc * Abs(delta) < 1000 * (Abs(b - a) + 1)
    && (delta >= 0 ==> b >= a) && (delta <= 0 ==> b <= a)
  }

  /** The move does not leave the byte. */
  predicate StaysInside(a: u8, dc: u8, delta: int) {
    dc * delta < 1000 * (256 - a) && dc * -delta < 1000 * (a + 1)
  }

  /** The byte `b` is `a` moved for a change of `delta` in temperature; beyond an end it comes in again at the
      other one. */
  predicate Compensated(a: u8, b: u8, dc: u8, delta: int) {
    if StaysInside(a, dc, delta) then Moved(a, b, dc, delta)
    else if delta > 0 then Moved(a, b + 256, dc, delta)
    else Moved(a, b - 256, dc, delta)
  }

  /** What the code stores is that byte ... */
  lemma CorrectedMoves(a: u8, dc: u8, tmCurrent: u8, tmRfcal: u8)
    ensures Compensated(a, Corrected(a, Compensation(dc, tmCurrent, tmRfcal)), dc, tmCurrent - tmRfcal)
  {
    var delta := tmCurrent - tmRfcal;
    ProductAbs(dc, delta);
    Negated(dc, delta);
    ProductAtMost(dc, delta);
    TruncatedMoves(a, dc * delta);
  }

  lemma ProductAbs(a: int, b: int)
    requires a >= 0
    ensures a * Abs(b) == Abs(a * b) && (b >= 0 ==> a * b >= 0) && (b <= 0 ==> a * b <= 0)
  {
  }

  lemma ProductAtMost(a: u8, b: int)
    requires Abs(b) <= 255
    ensures Abs(a * b) <= 65025
  {
    ProductAbs(a, b);
    MulMonotone(255, Abs(b), 255);
    Monotonic(Abs(b), a, 255);
  }

  lemma TruncatedMoves(a: u8, p: int)
    requires Abs(p) <= 65025
    ensures var b, c := Corrected(a, TruncDiv(p, 1000)), TruncDiv(p, 1000);
            && 1000 * Abs(c) <= Abs(p) < 1000 * (Abs(c) + 1) && (p >= 0 ==> c >= 0) && (p <= 0 ==> c <= 0)
            && (if p < 1000 * (256 - a) && -p < 1000 * (a + 1) then b == a + c
                else if p > 0 then b + 256 == a + c else b - 256 == a + c)
  {
  }

  /** ... and no other: the move determines it. */
  lemma CompensatedOnce(a: u8, b: u8, c: u8, dc: u8, delta: int)
    requires Compensated(a, b, dc, delta) && Compensated(a, c, dc, delta)
    ensures b == c
  {
    hide StaysInside;
  }

  /** A small move stays small. */
  lemma CompensatedNear(a: u8, b: u8, dc: u8, delta: int)
    requires Compensated(a, b, dc, delta) && dc <= 154 && Abs(delta) <= 62 && 9 <= a <= 246
    ensures Abs(b - a) <= 9
  {
    ProductBound(dc, delta);
    ProductAbs(dc, delta);
    Negated(dc, delta);
  }
}
