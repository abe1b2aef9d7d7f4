/** Tuning to a channel in src/tda18271-fe.c: the tracking-filter correction of the C2, the calibration of
    the C1, the channel configuration, and tda18271_tune. */
module Tuning {
  import opened Words
  import opened Tables
  import opened Lookup
  import opened Pll
  import opened I2c
  import opened Bands
  import opened Tuner
  import opened Calibration

  // ---------- The correction of the C2 ----------

  /** The interpolation, with its clamping. */
  method Interpolate(e: RfCal, freq: u32, rfTab: u8) returns (approx: int)
    ensures approx == Approx(e, freq, rfTab)
  {
    if 0 == e.rf3 || freq / 1000 < e.rf2 {
      approx := e.rfA1 * ToS32(ToU32(freq / 1000 - e.rf1)) + e.rfB1 + rfTab;
    } else {
      approx := e.rfA2 * ToS32(ToU32(freq / 1000 - e.rf2)) + e.rfB2 + rfTab;
    }
    if approx < 0 {
      approx := 0;
    }
    if approx > 255 {
      approx := 255;
    }
  }

  lemma TablesReachBands(maps: Layout, freq: u32)
    requires maps.id == C2 && BandIndex(freq) >= 0
    ensures InRange(maps.rfCal, freq)
  {
    assert RF_BAND[Last(RF_BAND)].max == 865000;
  }

  lemma DcAtMost(maps: Layout, i: nat)
    requires maps.id == C2 && i < |maps.dcOverDt|
    ensures maps.dcOverDt[i].val as int <= 154
  {
    assert maps.dcOverDt[i].val <= 0x9a;
    AtMost154(maps.dcOverDt[i].val);
  }

  lemma AtMost154(b: byte)
    requires b <= 0x9a
    ensures b as int <= 154
  {
  }

  lemma AllZero(b: byte)
    ensures Standby(b, false, false, false) & 0xe0 == 0x00
  {
  }

  function DcByte(maps: AnyLayout, freq: u32): u8
    requires |maps.dcOverDt| >= 2
  {
    maps.dcOverDt[Slot(maps.dcOverDt, freq)].val as int
  }

  /** Between any two thermometer readings the correction moves the interpolated byte by at most 9. */
  lemma CorrectionNear(maps: Layout, approx: u8, b: u8, freq: u32, tmCurrent: u8, tmRfcal: u8)
    requires maps.id == C2 && 60 <= tmCurrent <= 122 && 60 <= tmRfcal <= 122 && 9 <= approx <= 246
    requires Compensated(approx, b, DcByte(maps, freq), tmCurrent - tmRfcal)
    ensures Abs(b - approx) <= 9
  {
    DcAtMost(maps, Slot(maps.dcOverDt, freq));
    CompensatedNear(approx, b, DcByte(maps, freq), tmCurrent - tmRfcal);
  }

  /** What the correction computes. */
  method ComputeCorrection(fe: Fe, i: nat, freq: u32, rfTab: u8, tmCurrent: u8) returns (b: byte)
    requires fe.Valid() && fe.maps.id == C2 && i < 8
    ensures Compensated(Approx(fe.rfCalState[i], freq, rfTab), b as int, DcByte(fe.maps, freq), tmCurrent - fe.tmRfcal)
  {
    hide Compensated, Approx;
    var approx := Interpolate(fe.rfCalState[i], freq, rfTab);
    var ret, dcOverDt := LookupMap(fe.maps.dcOverDt, freq);
    var rfcalComp := TruncDiv((dcOverDt as int) * (tmCurrent - fe.tmRfcal), 1000);
    b := ByteOf((approx + rfcalComp) % 256);
    ByteKept((approx + rfcalComp) % 256);
    CorrectedMoves(approx, DcByte(fe.maps, freq), tmCurrent, fe.tmRfcal);
  }

  /** A C2 holds the byte that is interpolated from the band's record, compensated for the change of temperature
      since the calibration. */
  ghost predicate FilterC2(eb14: byte, e: RfCal, maps: Layout, freq: u32, tmByte: byte, tmRfcal: u8)
    requires maps.id == C2
  {
    Compensated(Approx(e, freq, TableByte(maps, freq)), eb14 as int, DcByte(maps, freq),
                Temperature(tmByte) - tmRfcal)
  }

  /** The byte of the table, the interpolation from the band's record, and the write of EB14. */
  method StoreCorrection(fe: Fe, freq: u32, tm: u8) returns (ret: int)
    requires fe.Valid() && fe.Consistent() && fe.maps.id == C2 && Shaped(fe.rfCalState[..])
    requires tm == Temperature(fe.regs[R_TM])
    modifies fe.dev`m, fe.regs
    ensures fe.dev.m.fault == old(fe.dev.m.fault)
    ensures fe.Consistent() && fe.KeepsBut(old(fe.Shadow()), R_EB14, R_EB14 + 1)
    ensures ret == 0 || ret == -1 || ret == -EINVAL
    ensures BandIndex(freq) < 0 ==> ret != 0
    ensures fe.dev.reliable && BandIndex(freq) >= 0 ==> ret == 0
    ensures ret == 0 ==>
              FilterC2(fe.dev.Chip()[R_EB14], fe.rfCalState[BandIndex(freq)], fe.maps, freq, fe.regs[R_TM], fe.tmRfcal)
  {
    hide Compensated, Approx, DcByte, Temperature, Shaped, Wire, Fe.Recorded;
    var _ := fe.CalcRfCal(freq);
    var rfTab := fe.regs[R_EB14] as int;
    var i, rfBand := LookupRfBand(fe.rfCalState, freq);
    if i < 0 {
      return i;
    }
    TablesReachBands(fe.maps, freq);
    var b := ComputeCorrection(fe, i, freq, rfTab, tm);
    fe.regs[R_EB14] := b;
    ret := fe.WriteRegs(R_EB14, 1);
  }

  /** tda18271c2_rf_tracking_filters_correction. */
  method RfTrackingFiltersCorrection(fe: Fe, freq: u32) returns (ret: int)
    requires fe.Valid() && fe.Consistent() && fe.Recorded() && fe.maps.id == C2 && Shaped(fe.rfCalState[..])
    modifies fe.dev, fe.regs
    ensures fe.dev.m.fault == old(fe.dev.m.fault) && old(fe.dev.asked) <= fe.dev.asked
    ensures fe.Consistent() && fe.Recorded()
    ensures fe.dev.honest ==> fe.regs[R_EP3] & 0xe0 == 0x00
    ensures ret == 0 || ret == -1 || ret == -EINVAL
    ensures fe.dev.reliable ==>
              && old(fe.dev.asked) < fe.dev.asked && ThermometerOn(fe.dev)
              && Temperature(fe.regs[R_TM]) == Temperature(fe.dev.Said(fe.dev.asked - 1, R_TM))
    ensures BandIndex(freq) < 0 ==> ret != 0
    ensures fe.dev.reliable && BandIndex(freq) >= 0 ==> ret == 0
    ensures ret == 0 ==>
              FilterC2(fe.dev.Chip()[R_EB14], fe.rfCalState[BandIndex(freq)], fe.maps, freq, fe.regs[R_TM], fe.tmRfcal)
  {
    AllZero(fe.regs[R_EP3]);
    ret := fe.SetStandbyMode(false, false, false);
    if ret < 0 {
      return;
    }
    var tm := ReadThermometer(fe);
    ret := StoreCorrection(fe, freq, tm);
  }

  // ---------- Channel configuration ----------

  /** agc_mode and std in the low bits of EP3. */
  function StdBits(item: StdItem): byte {
    ((item.agcMode as byte) << 3) | (item.std as byte)
  }

  /** EP3 while the channel is set up; a C2 has its rfagc in high speed mode then. */
  function Ep3During(b: byte, id: Version, item: StdItem): byte {
    var standard := (b & 0xe0) | StdBits(item);
    if id == C2 then standard & 0xfb else standard
  }

  /** ... and afterwards: normal speed on a C2, except for FM. */
  function Ep3After(b: byte, id: Version, item: StdItem): byte {
    var during := Ep3During(b, id, item);
    if id == C2 && item.fmRfn == 0 then during | 0x04 else during
  }

  function Ep4After(b: byte, item: StdItem): byte {
    (b & 0x60) | ((item.ifLvl as byte) << 2) | ((item.fmRfn as byte) << 7)
  }

  function Eb1After(b: byte, role: Role): byte {
    (b & 0xf8) | (if role == MasterTuner then 0x04 else 0x00)
  }

  /** The standby bits are not touched, and the calibration mode is normal. */
  lemma ModeBits(b: byte, id: Version, item: StdItem)
    ensures Ep3During(b, id, item) & 0xe0 == b & 0xe0 && Ep3After(b, id, item) & 0xe0 == b & 0xe0
    ensures Ep4After(b, item) & 0x03 == 0x00
  {
    StandardIsSmall(item.agcMode, item.std);
    LevelIsHigh(item.ifLvl, item.fmRfn);
  }

  lemma StandardIsSmall(agc: bv2, std: bv3)
    ensures (((agc as byte) << 3) | (std as byte)) & 0xe0 == 0
  {
  }

  lemma LevelIsHigh(lvl: bv3, fm: bv1)
    ensures (((lvl as byte) << 2) | ((fm as byte) << 7)) & 0x03 == 0
  {
  }

  /** tda18271_set_if_notch: bit 7 of MPD. */
  method SetIfNotch(fe: Fe)
    requires fe.Valid()
    modifies fe.regs
    ensures old(fe.Consistent()) ==> fe.Consistent()
    ensures fe.KeepsBut(old(fe.Shadow()), R_MPD, R_MPD + 1)
    ensures fe.regs[R_MPD] & 0x7f == old(fe.regs[R_MPD]) & 0x7f
    ensures Notched(fe.regs[R_MPD], fe.mode)
    ensures fe.mode == Unset ==> fe.regs[R_MPD] == old(fe.regs[R_MPD])
  {
    match fe.mode
    case Analog => fe.ClearBits(R_MPD, 0x80);
    case Digital => fe.SetBits(R_MPD, 0x80);
    case Unset =>
  }

  /** The PLL that a tuner in this role listens to, as it is on the chip, and the IF notch of the mode; a slave's
      main post-divider is that of the calibration PLL. */
  ghost predicate Listening(chip: Image, role: Role, mode: Mode, maps: AnyLayout, freq: u32)
    requires |maps.mainPll| >= 2 && |maps.calPll| >= 2
  {
    && Notched(chip[R_MPD], mode)
    && (if role == MasterTuner then InRange(maps.mainPll, freq) ==> MainPllSet(chip, maps, freq)
        else
          && chip[R_MPD] & 0x7f == chip[R_CPD] & 0x7f
          && (InRange(maps.calPll, freq) ==> CalPllSet(chip, maps, freq)))
  }

  predicate Notched(mpd: byte, mode: Mode) {
    (mode == Analog ==> mpd & 0x80 == 0x00) && (mode == Digital ==> mpd & 0x80 == 0x80)
  }

  /** The charge pump of the role is released. */
  predicate PumpIdle(chip: Image, role: Role) {
    chip[if role == SlaveTuner then R_EB7 else R_EB4] & 0x20 == 0x00
  }

  /** It had been forced before, last of all pumps, with the rfagc of a C2 at high speed. */
  ghost predicate Relocked(fe: Fe, before: seq<Pulse>)
    reads fe`pulses
  {
    && |fe.pulses| > |before|
    && var last := fe.pulses[|fe.pulses| - 1];
       Pulsed(last, if fe.role == SlaveTuner then CalSide else MainSide) && FastAgc(last.ep3, fe.maps.id)
  }

  predicate FastAgc(ep3: byte, id: Version) {
    id == C2 ==> ep3 & 0x04 == 0x00
  }

  /** Standard, levels and gains. */
  method SetStandard(fe: Fe, item: StdItem) returns (ret: int)
    requires fe.Valid() && fe.Consistent()
    modifies fe.dev`m, fe.regs
    ensures fe.dev.m.fault == old(fe.dev.m.fault)
    ensures fe.Consistent()
    ensures ret == 0 || ret == -1
    ensures fe.dev.reliable ==> ret == 0
    ensures fe.regs[R_EP3] == Ep3During(old(fe.regs[R_EP3]), fe.maps.id, item)
    ensures fe.regs[R_EP4] == Ep4After(old(fe.regs[R_EP4]), item)
    ensures forall r {:trigger fe.regs[r]} | 0 <= r < NUM_REGS && r != R_EP3 && r != R_EP4 && r != R_EB22 ::
              fe.regs[r] == old(fe.regs[r])
    ensures forall r {:trigger fe.dev.Chip()[r]} | 0 <= r < NUM_REGS && r != R_EB22 ::
              fe.dev.Chip()[r] == old(fe.dev.Chip()[r])
    ensures ret == 0 ==> fe.dev.Chip()[R_EB22] == fe.regs[R_EB22] == item.rfagcTop as byte
  {
    fe.regs[R_EP3] := Ep3During(fe.regs[R_EP3], fe.maps.id, item);
    fe.regs[R_EP4] := Ep4After(fe.regs[R_EP4], item);
    fe.regs[R_EB22] := item.rfagcTop as byte;
    ret := fe.WriteRegs(R_EB22, 1);
  }

  /** The power level indicator is off, and the fields that depend on the frequency are those of `freq`. */
  ghost predicate ChannelSelected(ep1: byte, ep2: byte, ep5: byte, maps: AnyLayout, freq: u32)
    requires |maps.bpFilter| >= 2 && |maps.rfBand| >= 2 && |maps.gainTaper| >= 2 && |maps.irMeasure| >= 2
  {
    ep1 & 0x40 == 0x40 && BandSelected(ep1, ep2, maps, freq) && IrSelected(ep5, maps, freq)
  }

  lemma IndicatorStaysOff(a: byte, b: byte)
    requires a & 0x40 == 0x40 && b & 0xf8 == a & 0xf8
    ensures b & 0x40 == 0x40
  {
  }

  /** The fields that depend on the frequency. */
  method CalcFields(fe: Fe, freq: u32)
    requires fe.Valid() && fe.regs[R_EP1] & 0x40 == 0x40
    modifies fe.regs
    ensures old(fe.Consistent()) ==> fe.Consistent()
    ensures ChannelSelected(fe.regs[R_EP1], fe.regs[R_EP2], fe.regs[R_EP5], fe.maps, freq)
    ensures forall r {:trigger fe.regs[r]} | 0 <= r < NUM_REGS && r != R_EP1 && r != R_EP2 && r != R_EP5 ::
              fe.regs[r] == old(fe.regs[r])
  {
    var _ := fe.CalcIrMeasure(freq);
    var _ := fe.CalcBpFilter(freq);
    IndicatorStaysOff(old(fe.regs[R_EP1]), fe.regs[R_EP1]);
    var _ := fe.CalcRfBand(freq);
    var _ := fe.CalcGainTaper(freq);
  }

  /** The registers that depend on the frequency, and the thermometer off. */
  method SetBand(fe: Fe, freq: u32)
    requires fe.Valid()
    modifies fe.regs
    ensures old(fe.Consistent()) ==> fe.Consistent()
    ensures fe.regs[R_TM] & 0x10 == 0x00
    ensures ChannelSelected(fe.regs[R_EP1], fe.regs[R_EP2], fe.regs[R_EP5], fe.maps, freq)
    ensures forall r {:trigger fe.regs[r]} | 0 <= r < NUM_REGS && r != R_TM && r != R_EP1 && r != R_EP2 && r != R_EP5 ::
              fe.regs[r] == old(fe.regs[r])
  {
    fe.SetBits(R_EP1, 0x40);
    fe.ClearBits(R_TM, 0x10);
    CalcFields(fe, freq);
  }

  /** The oscillator of the role, with agc1 always active and in priority. */
  method SetVco(fe: Fe) returns (ret: int)
    requires fe.Valid() && fe.Consistent()
    modifies fe.dev`m, fe.regs
    ensures fe.dev.m.fault == old(fe.dev.m.fault)
    ensures fe.Consistent()
    ensures ret == 0 || ret == -1
    ensures fe.dev.reliable ==> ret == 0
    ensures fe.regs[R_EB1] == Eb1After(old(fe.regs[R_EB1]), fe.role) && fe.KeepsBut(old(fe.Shadow()), R_EB1, R_EB1 + 1)
    ensures forall r {:trigger fe.dev.Chip()[r]} | 0 <= r < NUM_REGS && r != R_EB1 ::
              fe.dev.Chip()[r] == old(fe.dev.Chip()[r])
    ensures ret == 0 ==> fe.dev.Chip()[R_EB1] == fe.regs[R_EB1]
  {
    fe.regs[R_EB1] := Eb1After(fe.regs[R_EB1], fe.role);
    ret := fe.WriteRegs(R_EB1, 1);
  }

  lemma NotchKeepsPll(a: Image, b: Image, maps: AnyLayout, freq: u32)
    requires |maps.mainPll| >= 2
    requires b[R_MPD] & 0x7f == a[R_MPD] & 0x7f
    requires b[R_MD1] == a[R_MD1] && b[R_MD2] == a[R_MD2] && b[R_MD3] == a[R_MD3]
    ensures MainPllSet(a, maps, freq) ==> MainPllSet(b, maps, freq)
  {
  }

  /** The main PLL with the IF notch, in the shadow. */
  method ComputeMaster(fe: Fe, n: u32)
    requires fe.Valid() && fe.Consistent()
    modifies fe.regs
    ensures fe.Consistent()
    ensures fe.KeepsBut(old(fe.Shadow()), R_MPD, R_EB1)
    ensures Notched(fe.regs[R_MPD], fe.mode) && (InRange(fe.maps.mainPll, n) ==> MainPllSet(fe.Shadow(), fe.maps, n))
  {
    hide MainPllSet, InRange, Notched, Divides;
    var ret := fe.CalcMainPll(n);
    ghost var before := fe.Shadow();
    SetIfNotch(fe);
    NotchKeepsPll(before, fe.Shadow(), fe.maps, n);
  }

  method TuneMaster(fe: Fe, n: u32)
    requires fe.Valid() && fe.Consistent()
    modifies fe.dev`m, fe.regs
    ensures fe.dev.m.fault == old(fe.dev.m.fault)
    ensures fe.Consistent()
    ensures fe.KeepsBut(old(fe.Shadow()), R_MPD, R_EB1)
    ensures forall r {:trigger fe.dev.Chip()[r]} | 0 <= r < NUM_REGS && !(R_MPD <= r < R_EB1) ::
              fe.dev.Chip()[r] == old(fe.dev.Chip()[r])
    ensures fe.dev.reliable ==> forall r {:trigger fe.dev.Chip()[r]} | R_MPD <= r < R_EB1 ::
              fe.dev.Chip()[r] == fe.regs[r]
    ensures fe.dev.reliable ==>
              && Notched(fe.dev.Chip()[R_MPD], fe.mode)
              && (InRange(fe.maps.mainPll, n) ==> MainPllSet(fe.dev.Chip(), fe.maps, n))
  {
    hide MainPllSet, InRange, Notched, Wire, Fe.Consistent;
    ComputeMaster(fe, n);
    var _ := fe.WriteRegs(R_MPD, 4);
    if fe.dev.reliable {
      MainPllKept(fe.Shadow(), fe.dev.Chip(), fe.maps, n);
    }
  }

  method TuneSlave(fe: Fe, n: u32)
    requires fe.Valid() && fe.Consistent()
    modifies fe.dev`m, fe.regs
    ensures fe.dev.m.fault == old(fe.dev.m.fault)
    ensures fe.Consistent()
    ensures fe.KeepsBut(old(fe.Shadow()), R_CPD, R_MD1)
    ensures forall r {:trigger fe.dev.Chip()[r]} | 0 <= r < NUM_REGS && !(R_CPD <= r < R_MD1) ::
              fe.dev.Chip()[r] == old(fe.dev.Chip()[r])
    ensures fe.dev.reliable ==> forall r {:trigger fe.dev.Chip()[r]} | R_CPD <= r < R_MD1 ::
              fe.dev.Chip()[r] == fe.regs[r]
    ensures fe.dev.reliable ==>
              && Notched(fe.dev.Chip()[R_MPD], fe.mode)
              && fe.dev.Chip()[R_MPD] & 0x7f == fe.dev.Chip()[R_CPD] & 0x7f
              && (InRange(fe.maps.calPll, n) ==> CalPllSet(fe.dev.Chip(), fe.maps, n))
  {
    hide CalPllSet, InRange, Notched, Divides, Wire;
    var ret := fe.CalcCalPll(n);
    ghost var before := fe.Shadow();
    var _ := fe.WriteRegs(R_CPD, 4);
    fe.regs[R_MPD] := fe.regs[R_CPD] & 0x7f;
    SetIfNotch(fe);
    var _ := fe.WriteRegs(R_MPD, 1);
    if ret == 0 && fe.dev.reliable {
      CalPllKept(before, fe.dev.Chip(), fe.maps, n);
    }
  }

  lemma CalPllKept(a: Image, b: Image, maps: AnyLayout, freq: u32)
    requires |maps.calPll| >= 2 && CalPllSet(a, maps, freq)
    requires b[R_CPD] == a[R_CPD] && b[R_CD1] == a[R_CD1] && b[R_CD2] == a[R_CD2] && b[R_CD3] == a[R_CD3]
    ensures CalPllSet(b, maps, freq)
  {
  }

  /** The oscillator: the intermediate frequency above the channel. */
  function LocalOscillator(item: StdItem, freq: u32): u32 {
    ToU32(item.ifFreq * 1000 + freq)
  }

  /** Everything that changed since `start`, outside [from, to), is on the chip. */
  ghost predicate Delivered(fe: Fe, start: Image, from: int, to: int)
    requires fe.Valid()
    reads fe.regs, fe.dev
  {
    forall r {:trigger fe.regs[r]} | 0 <= r < NUM_REGS && !(from <= r < to) ::
              fe.regs[r] == start[r] || fe.dev.Chip()[r] == fe.regs[r]
  }

  /** The PLL of the role is tuned. */
  method TuneRole(fe: Fe, n: u32, ghost start: Image)
    requires fe.Valid() && fe.Consistent()
    requires fe.dev.reliable ==> Delivered(fe, start, R_TM, R_CPD)
    modifies fe.dev`m, fe.regs
    ensures fe.dev.m.fault == old(fe.dev.m.fault)
    ensures fe.Consistent()
    ensures fe.dev.reliable ==> Delivered(fe, start, R_TM, R_CPD)
    ensures fe.KeepsBut(old(fe.Shadow()), R_CPD, R_EB1)
    ensures forall r {:trigger fe.dev.Chip()[r]} | 0 <= r < NUM_REGS && !(R_CPD <= r < R_EB1) ::
              fe.dev.Chip()[r] == old(fe.dev.Chip()[r])
    ensures fe.dev.reliable ==> Listening(fe.dev.Chip(), fe.role, fe.mode, fe.maps, n)
  {
    match fe.role
    case MasterTuner => TuneMaster(fe, n);
    case SlaveTuner => TuneSlave(fe, n);
  }

  /** What the configuration has put together in the shadow before TM to EP5 are written. */
  ghost predicate Prepared(regs: Image, chip: Image, maps: AnyLayout, role: Role, start: Image, item: StdItem,
                           freq: u32)
    requires |maps.bpFilter| >= 2 && |maps.rfBand| >= 2 && |maps.gainTaper| >= 2 && |maps.irMeasure| >= 2
  {
    && regs[R_EP3] == Ep3During(start[R_EP3], maps.id, item) && regs[R_EP4] == Ep4After(start[R_EP4], item)
    && regs[R_TM] & 0x10 == 0x00 && ChannelSelected(regs[R_EP1], regs[R_EP2], regs[R_EP5], maps, freq)
    && chip[R_EB1] == Eb1After(start[R_EB1], role) && chip[R_EB22] == item.rfagcTop as byte
  }

  /** The chip after a successful configuration. */
  ghost predicate Configured(chip: Image, maps: AnyLayout, role: Role, start: Image, item: StdItem, freq: u32)
    requires |maps.bpFilter| >= 2 && |maps.rfBand| >= 2 && |maps.gainTaper| >= 2 && |maps.irMeasure| >= 2
  {
    && chip[R_EP3] == Ep3After(start[R_EP3], maps.id, item) && chip[R_EP4] == Ep4After(start[R_EP4], item)
    && chip[R_TM] & 0x10 == 0x00 && ChannelSelected(chip[R_EP1], chip[R_EP2], chip[R_EP5], maps, freq)
    && chip[R_EB1] == Eb1After(start[R_EB1], role) && chip[R_EB22] == item.rfagcTop as byte
  }

  /** What the role decides: the oscillator in bit 2 of EB1, the main one for a master; agc1 is always active and
      comes before agc2. */
  predicate RoleSet(eb1: byte, role: Role) {
    (eb1 & 0x04 == 0x04 <==> role == MasterTuner) && eb1 & 0x03 == 0x00
  }

  /** What the standard decides in EP3: agc mode in bits 4 and 3, the standard in bits 1 and 0, and bit 2, which on
      a C2 stands for normal speed of the rfagc, off for FM. */
  predicate StandardSet(ep3: byte, id: Version, item: StdItem) {
    && (ep3 >> 3) & 0x03 == item.agcMode as byte && ep3 & 0x03 == (item.std as byte) & 0x03
    && (ep3 & 0x04 == 0x04 <==> if id == C1 then item.std & 4 == 4 else item.fmRfn == 0)
  }

  /** ... and in EP4: the IF level in bits 4 to 2, FM in bit 7, and normal calibration mode. */
  predicate LevelSet(ep4: byte, item: StdItem) {
    (ep4 >> 2) & 0x07 == item.ifLvl as byte && (ep4 & 0x80 == 0x80 <==> item.fmRfn == 1) && ep4 & 0x03 == 0x00
  }

  /** The chip is set up for the standard, the role and the frequency, whatever it was before. */
  ghost predicate OnChannel(chip: Image, maps: AnyLayout, role: Role, item: StdItem, freq: u32)
    requires |maps.bpFilter| >= 2 && |maps.rfBand| >= 2 && |maps.gainTaper| >= 2 && |maps.irMeasure| >= 2
  {
    && RoleSet(chip[R_EB1], role) && StandardSet(chip[R_EP3], maps.id, item) && LevelSet(chip[R_EP4], item)
    && chip[R_EB22] == item.rfagcTop as byte
    && ChannelSelected(chip[R_EP1], chip[R_EP2], chip[R_EP5], maps, freq)
  }

  /** The bits of EP3, EP4 and EB1 that neither role nor standard decides are as they were. */
  predicate RestKept(chip: Image, start: Image) {
    && chip[R_EP3] & 0xe0 == start[R_EP3] & 0xe0 && chip[R_EP4] & 0x60 == start[R_EP4] & 0x60
    && chip[R_EB1] & 0xf8 == start[R_EB1] & 0xf8
  }

  lemma ConfiguredIsOnChannel(chip: Image, maps: AnyLayout, role: Role, start: Image, item: StdItem, freq: u32)
    requires |maps.bpFilter| >= 2 && |maps.rfBand| >= 2 && |maps.gainTaper| >= 2 && |maps.irMeasure| >= 2
    requires Configured(chip, maps, role, start, item, freq)
    ensures OnChannel(chip, maps, role, item, freq) && RestKept(chip, start)
  {
    hide ChannelSelected, StandardSet, LevelSet, RoleSet;
    Ep3Field(start[R_EP3], maps.id, item);
    Ep4Field(start[R_EP4], item);
    Eb1Field(start[R_EB1], role);
  }

  lemma Ep3Field(b: byte, id: Version, item: StdItem)
    ensures var ep3 := Ep3After(b, id, item); StandardSet(ep3, id, item) && ep3 & 0xe0 == b & 0xe0
  {
    StandardPacked(b, item.agcMode, item.std);
  }

  lemma StandardPacked(b: byte, agc: bv2, std: bv3)
    ensures var ep3 := (b & 0xe0) | (((agc as byte) << 3) | (std as byte));
            && (ep3 >> 3) & 0x03 == agc as byte && ep3 & 0x03 == (std as byte) & 0x03
            && (ep3 & 0x04 == 0x04 <==> std & 4 == 4) && ep3 & 0xe0 == b & 0xe0
  {
  }

  lemma Ep4Field(b: byte, item: StdItem)
    ensures var ep4 := Ep4After(b, item); LevelSet(ep4, item) && ep4 & 0x60 == b & 0x60
  {
    LevelPacked(b, item.ifLvl, item.fmRfn);
  }

  lemma LevelPacked(b: byte, lvl: bv3, fm: bv1)
    ensures var ep4 := (b & 0x60) | ((lvl as byte) << 2) | ((fm as byte) << 7);
            && (ep4 >> 2) & 0x07 == lvl as byte && (ep4 & 0x80 == 0x80 <==> fm == 1)
            && ep4 & 0x03 == 0x00 && ep4 & 0x60 == b & 0x60
  {
  }

  lemma Eb1Field(b: byte, role: Role)
    ensures var eb1 := Eb1After(b, role); RoleSet(eb1, role) && eb1 & 0xf8 == b & 0xf8
  {
  }

  method Prepare(fe: Fe, item: StdItem, freq: u32) returns (ret: int)
    requires fe.Valid() && fe.Consistent()
    modifies fe.dev`m, fe.regs
    ensures fe.dev.m.fault == old(fe.dev.m.fault)
    ensures fe.Consistent()
    ensures ret == 0 || ret == -1
    ensures fe.dev.reliable ==> ret == 0 && Delivered(fe, old(fe.Shadow()), R_TM, R_CPD)
    ensures ret == 0 ==> Prepared(fe.Shadow(), fe.dev.Chip(), fe.maps, fe.role, old(fe.Shadow()), item, freq)
    ensures fe.dev.Chip()[R_EB14] == old(fe.dev.Chip()[R_EB14])
  {
    hide ChannelSelected, Ep3During, Ep4After, Eb1After, Fe.Consistent, Fe.KeepsBut;
    ret := SetStandard(fe, item);
    if ret < 0 {
      return;
    }
    SetBand(fe, freq);
    ret := SetVco(fe);
  }

  /** The registers of the PLLs do not matter for it. */
  lemma StillPrepared(regs: Image, chip: Image, regs2: Image, chip2: Image, maps: AnyLayout, role: Role, start: Image,
                      item: StdItem, freq: u32)
    requires |maps.bpFilter| >= 2 && |maps.rfBand| >= 2 && |maps.gainTaper| >= 2 && |maps.irMeasure| >= 2
    requires Prepared(regs, chip, maps, role, start, item, freq)
    requires forall r | 0 <= r < NUM_REGS && !(R_CPD <= r < R_EB1) :: regs2[r] == regs[r]
    requires forall r | 0 <= r < NUM_REGS && !(R_CPD <= r < R_EB1) :: chip2[r] == chip[r]
    ensures Prepared(regs2, chip2, maps, role, start, item, freq)
  {
    hide ChannelSelected, Ep3During, Ep4After, Eb1After;
  }

  method TunePrepared(fe: Fe, n: u32, ghost start: Image, ghost item: StdItem, ghost freq: u32)
    requires fe.Valid() && fe.Consistent() && Prepared(fe.Shadow(), fe.dev.Chip(), fe.maps, fe.role, start, item, freq)
    requires fe.dev.reliable ==> Delivered(fe, start, R_TM, R_CPD)
    modifies fe.dev`m, fe.regs
    ensures fe.dev.m.fault == old(fe.dev.m.fault)
    ensures fe.Consistent() && Prepared(fe.Shadow(), fe.dev.Chip(), fe.maps, fe.role, start, item, freq)
    ensures fe.dev.reliable ==>
              Delivered(fe, start, R_TM, R_CPD) && Listening(fe.dev.Chip(), fe.role, fe.mode, fe.maps, n)
    ensures fe.dev.Chip()[R_EB14] == old(fe.dev.Chip()[R_EB14])
  {
    hide Prepared, Listening, Delivered, Fe.Consistent;
    ghost var regs, chip := fe.Shadow(), fe.dev.Chip();
    TuneRole(fe, n, start);
    StillPrepared(regs, chip, fe.Shadow(), fe.dev.Chip(), fe.maps, fe.role, start, item, freq);
  }

  lemma ListeningKept(a: Image, b: Image, role: Role, mode: Mode, maps: AnyLayout, freq: u32)
    requires |maps.mainPll| >= 2 && |maps.calPll| >= 2
    requires forall r | R_CPD <= r <= R_MD3 :: b[r] == a[r]
    ensures Listening(a, role, mode, maps, freq) ==> Listening(b, role, mode, maps, freq)
  {
  }

  /** The charge pump of the role is forced and released. */
  method Pump(fe: Fe)
    requires fe.Valid() && fe.Consistent()
    modifies fe.dev`m, fe.regs, fe`pulses
    ensures fe.dev.m.fault == old(fe.dev.m.fault)
    ensures fe.Consistent()
    ensures forall r {:trigger fe.regs[r]} | 0 <= r < NUM_REGS && r != R_EB4 && r != R_EB7 ::
              fe.regs[r] == old(fe.regs[r])
    ensures forall r {:trigger fe.dev.Chip()[r]} | 0 <= r < NUM_REGS && r != R_EB4 && r != R_EB7 ::
              fe.dev.Chip()[r] == old(fe.dev.Chip()[r])
    ensures fe.dev.reliable ==>
              forall r {:trigger fe.dev.Chip()[r]} | r == R_EB4 || r == R_EB7 ::
                || fe.dev.Chip()[r] == fe.regs[r]
                || (fe.regs[r] == old(fe.regs[r]) && fe.dev.Chip()[r] == old(fe.dev.Chip()[r]))
    ensures fe.dev.reliable ==> PumpIdle(fe.dev.Chip(), fe.role)
    ensures fe.dev.reliable && FastAgc(old(fe.dev.Chip()[R_EP3]), fe.maps.id) ==> Relocked(fe, old(fe.pulses))
  {
    PumpForced(Forced(fe.regs[R_EB4], true));
    PumpForced(Forced(fe.regs[R_EB7], true));
    var pll := if fe.role == SlaveTuner then CalSide else MainSide;
    var _ := fe.ChargePumpSource(pll, true);
    ghost var was := fe.dev.Chip()[ChargePump(pll)];
    var _ := fe.ChargePumpSource(pll, false);
    fe.NotePulse(pll, was);
  }

  lemma HighSpeed(b: byte, id: Version, item: StdItem)
    ensures FastAgc(Ep3During(b, id, item), id)
  {
  }

  /** TM to EP5 are written, and the loop settles. */
  method Commit(fe: Fe, item: StdItem, ghost start: Image, ghost freq: u32, ghost n: u32) returns (ret: int)
    requires fe.Valid() && fe.Consistent() && Prepared(fe.Shadow(), fe.dev.Chip(), fe.maps, fe.role, start, item, freq)
    requires fe.dev.reliable ==>
              Delivered(fe, start, R_TM, R_CPD) && Listening(fe.dev.Chip(), fe.role, fe.mode, fe.maps, n)
    modifies fe.dev`m, fe.regs, fe`pulses
    ensures fe.dev.m.fault == old(fe.dev.m.fault)
    ensures fe.Consistent() && Prepared(fe.Shadow(), fe.dev.Chip(), fe.maps, fe.role, start, item, freq)
    ensures ret == 0 || ret == -1
    ensures fe.dev.reliable ==>
              ret == 0 && Delivered(fe, start, R_TM, R_CPD) && Listening(fe.dev.Chip(), fe.role, fe.mode, fe.maps, n)
    ensures fe.dev.reliable ==> PumpIdle(fe.dev.Chip(), fe.role) && Relocked(fe, old(fe.pulses))
    ensures ret == 0 ==> forall r {:trigger fe.dev.Chip()[r]} | R_TM <= r < R_CPD :: fe.dev.Chip()[r] == fe.regs[r]
    ensures fe.dev.Chip()[R_EB14] == old(fe.dev.Chip()[R_EB14])
  {
    hide ChannelSelected, Listening, PumpIdle, Relocked, FastAgc, Ep3During, Ep4After, Eb1After, Wire;
    ghost var tuned := fe.dev.Chip();
    ret := fe.WriteRegs(R_TM, 7);
    if ret < 0 {
      return;
    }
    HighSpeed(start[R_EP3], fe.maps.id, item);
    Pump(fe);
    ListeningKept(tuned, fe.dev.Chip(), fe.role, fe.mode, fe.maps, n);
  }

  lemma ClearedOnce(b: byte)
    ensures (b & 0xfb) & 0xfb == b & 0xfb
  {
  }

  lemma NormalIsAfter(b: byte, item: StdItem)
    ensures var during := Ep3During(b, C2, item);
            Ep3After(b, C2, item) == if item.fmRfn != 0 then during & 0xfb else during | 0x04
  {
    var during := Ep3During(b, C2, item);
    ClearedOnce((b & 0xe0) | StdBits(item));
  }

  /** The rfagc of a C2 returns to normal speed. */
  method NormalSpeed(fe: Fe, item: StdItem, ghost start: Image, ghost freq: u32) returns (ret: int)
    requires fe.Valid() && fe.Consistent() && Prepared(fe.Shadow(), fe.dev.Chip(), fe.maps, fe.role, start, item, freq)
    requires forall r {:trigger fe.dev.Chip()[r]} | R_TM <= r < R_CPD :: fe.dev.Chip()[r] == fe.regs[r]
    requires fe.dev.reliable ==> Delivered(fe, start, R_TM, R_CPD)
    modifies fe.dev`m, fe.regs
    ensures fe.dev.m.fault == old(fe.dev.m.fault)
    ensures fe.Consistent()
    ensures ret == 0 || ret == -1
    ensures fe.dev.reliable ==> ret == 0
    ensures forall r {:trigger fe.dev.Chip()[r]} | 0 <= r < NUM_REGS && r != R_EP3 ::
              fe.dev.Chip()[r] == old(fe.dev.Chip()[r])
    ensures fe.dev.reliable ==> Delivered(fe, start, 0, 0)
    ensures ret == 0 ==> Configured(fe.dev.Chip(), fe.maps, fe.role, start, item, freq)
  {
    hide ChannelSelected, Ep3During, Ep4After, Eb1After;
    ret := 0;
    if fe.maps.id == C2 {
      NormalIsAfter(start[R_EP3], item);
      fe.regs[R_EP3] := if item.fmRfn != 0 then fe.regs[R_EP3] & 0xfb else fe.regs[R_EP3] | 0x04;
      ret := fe.WriteRegs(R_EP3, 1);
    }
  }

  /** The end of the configuration. */
  method Apply(fe: Fe, item: StdItem, ghost start: Image, ghost freq: u32, n: u32) returns (ret: int)
    requires fe.Valid() && fe.Consistent() && Prepared(fe.Shadow(), fe.dev.Chip(), fe.maps, fe.role, start, item, freq)
    requires fe.dev.reliable ==>
              Delivered(fe, start, R_TM, R_CPD) && Listening(fe.dev.Chip(), fe.role, fe.mode, fe.maps, n)
    modifies fe.dev`m, fe.regs, fe`pulses
    ensures fe.dev.m.fault == old(fe.dev.m.fault)
    ensures fe.Consistent()
    ensures ret == 0 || ret == -1
    ensures fe.dev.reliable ==> ret == 0 && PumpIdle(fe.dev.Chip(), fe.role) && Relocked(fe, old(fe.pulses))
    ensures fe.dev.reliable ==> Delivered(fe, start, 0, 0) && Listening(fe.dev.Chip(), fe.role, fe.mode, fe.maps, n)
    ensures ret == 0 ==> Configured(fe.dev.Chip(), fe.maps, fe.role, start, item, freq)
    ensures fe.dev.Chip()[R_EB14] == old(fe.dev.Chip()[R_EB14])
  {
    ret := Commit(fe, item, start, freq, n);
    if ret < 0 {
      return;
    }
    ghost var tuned := fe.dev.Chip();
    ret := NormalSpeed(fe, item, start, freq);
    ListeningKept(tuned, fe.dev.Chip(), fe.role, fe.mode, fe.maps, n);
  }

  /** tda18271_channel_configuration. On a reliable bus every register it changes reaches the chip. */
  method ChannelConfiguration(fe: Fe, item: StdItem, freq: u32, bw: u32) returns (ret: int)
    requires fe.Valid() && fe.Consistent()
    modifies fe.dev`m, fe.regs, fe`pulses
    ensures fe.dev.m.fault == old(fe.dev.m.fault)
    ensures fe.Consistent()
    ensures ret == 0 || ret == -1
    ensures fe.dev.reliable ==>
              && ret == 0
              && Delivered(fe, old(fe.Shadow()), 0, 0)
              && Listening(fe.dev.Chip(), fe.role, fe.mode, fe.maps, LocalOscillator(item, freq))
              && PumpIdle(fe.dev.Chip(), fe.role) && Relocked(fe, old(fe.pulses))
    ensures ret == 0 ==>
              && Configured(fe.dev.Chip(), fe.maps, fe.role, old(fe.Shadow()), item, freq)
              && OnChannel(fe.dev.Chip(), fe.maps, fe.role, item, freq) && RestKept(fe.dev.Chip(), old(fe.Shadow()))
    ensures fe.dev.Chip()[R_EB14] == old(fe.dev.Chip()[R_EB14])
  {
    hide Prepared, Configured, OnChannel, Listening, Delivered, LocalOscillator, Fe.Consistent;
    ret := Prepare(fe, item, freq);
    if ret < 0 {
      return;
    }
    TunePrepared(fe, LocalOscillator(item, freq), old(fe.Shadow()), item, freq);
    ret := Apply(fe, item, old(fe.Shadow()), freq, LocalOscillator(item, freq));
    if ret == 0 {
      ConfiguredIsOnChannel(fe.dev.Chip(), fe.maps, fe.role, old(fe.Shadow()), item, freq);
    }
  }

  // ---------- The calibration of the C1 ----------

  /** The calibration signal; it is 0 if the mode of the tuner was never set. */
  function C1CalFreq(mode: Mode, freq: u32, bw: u32): u32 {
    match mode
    case Analog => ToU32(freq - 1250000)
    case Digital => ToU32(freq + bw / 2)
    case Unset => 0
  }

  function C1MainFreq(mode: Mode, freq: u32, bw: u32): u32 {
    match mode
    case Analog => ToU32(freq - 250000)
    case Digital => ToU32(freq + bw / 2 + 1000000)
    case Unset => 0
  }

  /** Where the two signals lie, whatever wraps around: for analog 1.25 and 0.25 MHz below the channel, for digital
      half a bandwidth above it, and one MHz more. */
  lemma C1SignalFrequencies(mode: Mode, freq: u32, bw: u32)
    ensures mode == Analog ==>
              && ToU32(C1CalFreq(mode, freq, bw) + 1250000) == freq
              && ToU32(C1MainFreq(mode, freq, bw) + 250000) == freq
    ensures mode == Digital ==>
              && 2 * ToU32(C1CalFreq(mode, freq, bw) - freq) + bw % 2 == bw
              && ToU32(C1MainFreq(mode, freq, bw) - 1000000) == C1CalFreq(mode, freq, bw)
    ensures mode == Unset ==> C1CalFreq(mode, freq, bw) == C1MainFreq(mode, freq, bw) == 0
  {
    hide ToU32;
    match mode
    case Analog =>
      WrappedOnce(freq - 1250000, 1250000);
      WrappedOnce(freq - 250000, 250000);
      Unwrapped(freq);
    case Digital =>
      WrappedOnce(freq + bw / 2, -(freq as int));
      WrappedOnce(freq + bw / 2 + 1000000, -1000000);
      Unwrapped(bw / 2);
    case Unset =>
  }

  /** Within the range of the tables the main PLL is one MHz above the calibration signal, as on a C2. */
  lemma C1OneMhzAbove(mode: Mode, freq: u32, bw: u32)
    requires mode != Unset && 1250000 <= freq && freq + bw / 2 + 1000000 < TWO_32
    ensures C1MainFreq(mode, freq, bw) == C1CalFreq(mode, freq, bw) + 1000000
  {
  }

  ghost predicate C1Signal(cpd: byte, cdiv: DivBytes, mpd: byte, mdiv: DivBytes, maps: AnyLayout, cal: u32, main: u32)
    requires |maps.mainPll| >= 2 && |maps.calPll| >= 2
  {
    && (InRange(maps.calPll, cal) ==> CalPll(cpd, cdiv, maps, cal))
    && (InRange(maps.mainPll, main) ==> MainPll(mpd, mdiv, maps, main))
  }

  ghost predicate C1Plls(chip: Image, maps: AnyLayout, cal: u32, main: u32)
    requires |maps.mainPll| >= 2 && |maps.calPll| >= 2
  {
    C1Signal(chip[R_CPD], DivBytes(chip[R_CD1], chip[R_CD2], chip[R_CD3]),
             chip[R_MPD], DivBytes(chip[R_MD1], chip[R_MD2], chip[R_MD3]), maps, cal, main)
  }

  lemma C1PllsKept(a: Image, b: Image, maps: AnyLayout, cal: u32, main: u32)
    requires |maps.mainPll| >= 2 && |maps.calPll| >= 2
    requires forall r | R_CPD <= r <= R_MD3 :: b[r] == a[r]
    ensures C1Plls(a, maps, cal, main) ==> C1Plls(b, maps, cal, main)
  {
  }

  /** A calibration as it has to be launched on a C1. */
  ghost predicate C1Launched(l: Launch, maps: AnyLayout, freq: u32, cal: u32, main: u32)
    requires |maps.mainPll| >= 2 && |maps.calPll| >= 2
    requires |maps.bpFilter| >= 2 && |maps.rfBand| >= 2 && |maps.gainTaper| >= 2 && |maps.rfCalKmco| >= 2
  {
    && l.ep4 & 0x03 == 0x03 && l.eb4 & 0xf8 == 0x40 && l.eb7 == 0x40 && l.eb14 == 0x00 && l.eb20 == 0xec
    && C1Unlocked(l.was)
    && C1Signal(l.cpd, l.cdiv, l.mpd, l.mdiv, maps, cal, main)
    && BandSelected(l.ep1, l.ep2, maps, freq) && KmSelected(l.eb13, maps, freq)
  }

  /** Both pumps forced and the lock disabled. */
  predicate C1Unlocked(was: Edge) {
    was.eb4 & 0xf8 == 0x60 && was.eb7 == 0x60 && was.eb20 == 0xcc
  }

  /** Both pumps released and the lock enabled. */
  predicate C1Released(chip: Image) {
    chip[R_EB4] & 0xf8 == 0x40 && chip[R_EB7] == 0x40 && chip[R_EB20] == 0xec
  }

  function C1Pump(b: byte, bits: byte): byte {
    (b & 0x07) | bits
  }

  lemma C1PumpBits(b: byte)
    ensures C1Pump(b, 0x40) & 0xf8 == 0x40 && C1Pump(b, 0x60) & 0xf8 == 0x60
  {
  }

  lemma C1PumpKeeps(b: byte, bits: byte)
    ensures bits & 0x07 == 0x00 ==> C1Pump(b, bits) & 0xf8 == bits && C1Pump(b, bits) & 0x07 == b & 0x07
  {
  }

  /** Both charge pumps. */
  method C1Pumps(fe: Fe, pump: byte)
    requires fe.Valid() && fe.Consistent()
    modifies fe.dev`m, fe.regs
    ensures fe.dev.m.fault == old(fe.dev.m.fault)
    ensures fe.Consistent()
    ensures forall r {:trigger fe.regs[r]} | 0 <= r < NUM_REGS && r != R_EB4 && r != R_EB7 ::
              fe.regs[r] == old(fe.regs[r])
    ensures forall r {:trigger fe.dev.Chip()[r]} | 0 <= r < NUM_REGS && r != R_EB4 && r != R_EB7 ::
              fe.dev.Chip()[r] == old(fe.dev.Chip()[r])
    ensures fe.dev.reliable ==>
              fe.dev.Chip()[R_EB4] == C1Pump(old(fe.regs[R_EB4]), pump) && fe.dev.Chip()[R_EB7] == pump
    ensures pump & 0x07 == 0x00 ==>
              fe.regs[R_EB4] & 0xf8 == pump && fe.regs[R_EB4] & 0x07 == old(fe.regs[R_EB4]) & 0x07
  {
    C1PumpKeeps(fe.regs[R_EB4], pump);
    fe.Step(R_EB4, C1Pump(fe.regs[R_EB4], pump));
    fe.Step(R_EB7, pump);
  }

  /** Up to the write of both PLLs: calibration mode. */
  method C1Enter(fe: Fe, freq: u32, bw: u32) returns (ret: int)
    requires fe.Valid() && fe.Consistent()
    modifies fe.dev`m, fe.regs
    ensures fe.dev.m.fault == old(fe.dev.m.fault)
    ensures fe.Consistent()
    ensures ret == 0 || ret == -1
    ensures fe.regs[R_EP3] == old(fe.regs[R_EP3]) && BpSelected(fe.regs[R_EP1], fe.maps, freq)
    ensures fe.dev.reliable ==>
              && ret == 0 && fe.dev.Chip()[R_EP1] == fe.regs[R_EP1]
              && fe.dev.Chip()[R_EP4] & 0x03 == 0x03 && fe.dev.Chip()[R_EB14] == 0x00
              && C1Unlocked(EdgeOf(fe.dev.Chip()))
              && C1Plls(fe.dev.Chip(), fe.maps, C1CalFreq(fe.mode, freq, bw), C1MainFreq(fe.mode, freq, bw))
  {
    var _ := fe.CalcBpFilter(freq);
    var _ := fe.WriteRegs(R_EP1, 1);
    C1PumpBits(fe.regs[R_EB4]);
    C1Pumps(fe, 0x60);
    fe.Step(R_EB14, 0x00);
    fe.Step(R_EB20, 0xcc);
    ret := C1SetPlls(fe, C1CalFreq(fe.mode, freq, bw), C1MainFreq(fe.mode, freq, bw));
  }

  method C1SetPlls(fe: Fe, cal: u32, main: u32) returns (ret: int)
    requires fe.Valid() && fe.Consistent()
    modifies fe.dev`m, fe.regs
    ensures fe.dev.m.fault == old(fe.dev.m.fault)
    ensures fe.Consistent()
    ensures ret == 0 || ret == -1
    ensures fe.regs[R_EP3] == old(fe.regs[R_EP3]) && fe.regs[R_EP1] == old(fe.regs[R_EP1])
    ensures forall r {:trigger fe.dev.Chip()[r]} | 0 <= r < NUM_REGS && !(R_EP3 <= r < R_EB1) ::
              fe.dev.Chip()[r] == old(fe.dev.Chip()[r])
    ensures fe.dev.reliable ==>
              ret == 0 && fe.dev.Chip()[R_EP4] & 0x03 == 0x03 && C1Plls(fe.dev.Chip(), fe.maps, cal, main)
  {
    hide Divides, Wire;
    fe.SetBits(R_EP4, 0x03);
    var calSet := fe.CalcCalPll(cal);
    ghost var half := fe.Shadow();
    var mainSet := fe.CalcMainPll(main);
    if calSet == 0 {
      CalPllKept(half, fe.Shadow(), fe.maps, cal);
    }
    ghost var both := fe.Shadow();
    assert C1Plls(both, fe.maps, cal, main);
    ret := fe.WriteRegs(R_EP3, 11);
    if ret == 0 {
      C1PllsKept(both, fe.dev.Chip(), fe.maps, cal, main);
    }
  }

  /** The search for K, M and CO, the band and the taper. */
  method C1Select(fe: Fe, freq: u32)
    requires fe.Valid() && fe.Consistent() && BpSelected(fe.regs[R_EP1], fe.maps, freq)
    modifies fe.dev`m, fe.regs
    ensures fe.dev.m.fault == old(fe.dev.m.fault)
    ensures fe.Consistent()
    ensures forall r {:trigger fe.regs[r]} | 0 <= r < NUM_REGS && r != R_EP1 && r != R_EP2 && r != R_EB13 ::
              fe.regs[r] == old(fe.regs[r])
    ensures forall r {:trigger fe.dev.Chip()[r]} | 0 <= r < NUM_REGS && r != R_EP1 && r != R_EP2 && r != R_EB13 ::
              fe.dev.Chip()[r] == old(fe.dev.Chip()[r])
    ensures fe.dev.reliable ==> Selected(fe, freq)
  {
    var _ := fe.CalcKm(freq);
    var _ := fe.WriteRegs(R_EB13, 1);
    var _ := fe.CalcRfBand(freq);
    var _ := fe.CalcGainTaper(freq);
    Toggle(fe);
  }

  /** The chip after a C1 calibration: normal mode, pumps released, PLLs locked, and the table's byte where
      the table has one. */
  ghost predicate C1Done(chip: Image, maps: AnyLayout, freq: u32)
    requires |maps.rfCal| >= 2 && |maps.bpFilter| >= 2
    requires |maps.rfBand| >= 2 && |maps.gainTaper| >= 2 && |maps.rfCalKmco| >= 2
  {
    && BandSelected(chip[R_EP1], chip[R_EP2], maps, freq) && KmSelected(chip[R_EB13], maps, freq)
    && chip[R_EP4] & 0x03 == 0x00 && C1Released(chip)
    && chip[R_EB14] == C1Byte(maps, freq)
  }

  /** EP1 is written once more, and EB14 if the table has a byte for the frequency. */
  method C1Correct(fe: Fe, freq: u32)
    requires fe.Valid() && fe.Consistent()
    requires fe.dev.reliable ==> fe.dev.Chip()[R_EB14] == 0x00 && Selected(fe, freq)
    modifies fe.dev`m, fe.regs
    ensures fe.dev.m.fault == old(fe.dev.m.fault)
    ensures fe.Consistent()
    ensures fe.KeepsBut(old(fe.Shadow()), R_EB14, R_EB14 + 1)
    ensures forall r {:trigger fe.dev.Chip()[r]} | 0 <= r < NUM_REGS && r != R_EP1 && r != R_EB14 ::
              fe.dev.Chip()[r] == old(fe.dev.Chip()[r])
    ensures fe.dev.reliable ==>
              && Selected(fe, freq)
              && fe.dev.Chip()[R_EB14] == C1Byte(fe.maps, freq)
              && fe.dev.m.chunks == old(fe.dev.m.chunks) + Wire(R_EP1, [fe.regs[R_EP1]])
                                    + (if InRange(fe.maps.rfCal, freq) then Wire(R_EB14, [fe.regs[R_EB14]]) else [])
  {
    assert fe.regs[R_EP1..R_EP1 + 1] == [fe.regs[R_EP1]];
    var _ := fe.WriteRegs(R_EP1, 1);
    var ret := fe.CalcRfCal(freq);
    if 0 == ret {
      assert fe.regs[R_EB14..R_EB14 + 1] == [fe.regs[R_EB14]];
      var _ := fe.WriteRegs(R_EB14, 1);
    }
  }

  /** Up to the launch. */
  method C1Launch(fe: Fe, freq: u32, ghost cal: u32, ghost main: u32)
    requires fe.Valid() && fe.Consistent()
    requires BpSelected(fe.regs[R_EP1], fe.maps, freq)
    requires fe.dev.reliable ==>
               && fe.dev.Chip()[R_EP4] & 0x03 == 0x03 && fe.dev.Chip()[R_EB14] == 0x00
               && C1Unlocked(EdgeOf(fe.dev.Chip())) && C1Plls(fe.dev.Chip(), fe.maps, cal, main)
    modifies fe.dev`m, fe.regs, fe`launches
    ensures fe.dev.m.fault == old(fe.dev.m.fault)
    ensures fe.Consistent()
    ensures fe.regs[R_EP3] == old(fe.regs[R_EP3])
    ensures |fe.launches| == |old(fe.launches)| + 1 && fe.launches[..|old(fe.launches)|] == old(fe.launches)
    ensures fe.dev.reliable ==>
              && Selected(fe, freq) && C1Launched(fe.launches[|old(fe.launches)|], fe.maps, freq, cal, main)
              && fe.dev.Chip()[R_EB14] == 0x00 && C1Released(fe.dev.Chip()) && C1Plls(fe.dev.Chip(), fe.maps, cal, main)
  {
    hide C1Plls, C1Launched, BandSelected, KmSelected, Fe.Consistent;
    ghost var before := fe.dev.Chip();
    C1Select(fe, freq);
    ghost var selected := fe.dev.Chip();
    C1Start(fe);
    if fe.dev.reliable {
      C1LaunchedIs(before, selected, fe.dev.Chip(), fe.maps, freq, cal, main, fe.dev.asked);
    }
  }

  /** The charge pumps are released, and the calibration is launched. */
  method C1Start(fe: Fe)
    requires fe.Valid() && fe.Consistent()
    modifies fe.dev`m, fe.regs, fe`launches
    ensures fe.dev.m.fault == old(fe.dev.m.fault)
    ensures fe.Consistent()
    ensures forall r {:trigger fe.regs[r]} | 0 <= r < NUM_REGS && r != R_EB4 && r != R_EB7 && r != R_EB20 ::
              fe.regs[r] == old(fe.regs[r])
    ensures forall r {:trigger fe.dev.Chip()[r]} | 0 <= r < NUM_REGS && r != R_EB4 && r != R_EB7 && r != R_EB20 ::
              fe.dev.Chip()[r] == old(fe.dev.Chip()[r])
    ensures fe.launches == old(fe.launches) + [fe.ChipLaunch(EdgeOf(old(fe.dev.Chip())))]
    ensures var chip := fe.dev.Chip();
            fe.dev.reliable ==> chip[R_EB4] & 0xf8 == 0x40 && chip[R_EB7] == 0x40 && chip[R_EB20] == 0xec
  {
    ghost var was := EdgeOf(fe.dev.Chip());
    C1PumpBits(fe.regs[R_EB4]);
    C1Pumps(fe, 0x40);
    fe.Step(R_EB20, 0xec);
    fe.NoteLaunch(was);
  }

  /** From the chip in calibration mode, over the choice of K and M, to the launch. */
  lemma C1LaunchedIs(before: Image, selected: Image, chip: Image, maps: Layout, freq: u32, cal: u32, main: u32,
                     at: nat)
    requires before[R_EP4] & 0x03 == 0x03 && before[R_EB14] == 0x00 && C1Plls(before, maps, cal, main)
    requires C1Unlocked(EdgeOf(before)) && selected[R_EP4] == before[R_EP4] && selected[R_EB14] == before[R_EB14]
    requires selected[R_EB4] == before[R_EB4] && selected[R_EB7] == before[R_EB7] && selected[R_EB20] == before[R_EB20]
    requires forall r | R_CPD <= r <= R_MD3 :: chip[r] == selected[r] == before[r]
    requires BandSelected(selected[R_EP1], selected[R_EP2], maps, freq) && KmSelected(selected[R_EB13], maps, freq)
    requires chip[R_EP1] == selected[R_EP1] && chip[R_EP2] == selected[R_EP2] && chip[R_EB13] == selected[R_EB13]
    requires chip[R_EP4] == selected[R_EP4] && chip[R_EB14] == selected[R_EB14]
    requires chip[R_EB4] & 0xf8 == 0x40 && chip[R_EB7] == 0x40 && chip[R_EB20] == 0xec
    ensures C1Launched(LaunchOf(chip, EdgeOf(selected), at), maps, freq, cal, main) && C1Plls(chip, maps, cal, main)
  {
    C1PllsKept(before, chip, maps, cal, main);
  }

  /** The calibration byte that a C1 ends with. */
  function C1Byte(maps: AnyLayout, freq: u32): byte
    requires |maps.rfCal| >= 2
  {
    if InRange(maps.rfCal, freq) then maps.rfCal[Slot(maps.rfCal, freq)].val else 0x00
  }

  /** From the launch to the end. */
  method C1Finish(fe: Fe, freq: u32)
    requires fe.Valid() && fe.Consistent()
    requires fe.dev.reliable ==> fe.dev.Chip()[R_EB14] == 0x00 && Selected(fe, freq)
    modifies fe.dev`m, fe.regs
    ensures fe.dev.m.fault == old(fe.dev.m.fault)
    ensures fe.Consistent()
    ensures fe.regs[R_EP3] == old(fe.regs[R_EP3])
    ensures forall r {:trigger fe.dev.Chip()[r]} | 0 <= r < NUM_REGS && r != R_EP1 && r != R_EP4 && r != R_EB14 ::
              fe.dev.Chip()[r] == old(fe.dev.Chip()[r])
    ensures fe.dev.reliable ==>
              && fe.dev.Chip()[R_EP4] & 0x03 == 0x00 && fe.dev.Chip()[R_EB14] == C1Byte(fe.maps, freq)
              && Selected(fe, freq)
  {
    fe.Clear(R_EP4, 0x03);
    C1Correct(fe, freq);
  }

  /** A C1 has launched a calibration for the frequency, and holds the table's byte. */
  ghost predicate FilterC1(eb14: byte, l: Launch, maps: AnyLayout, mode: Mode, freq: u32, bw: u32)
    requires |maps.mainPll| >= 2 && |maps.calPll| >= 2 && |maps.rfCal| >= 2
    requires |maps.bpFilter| >= 2 && |maps.rfBand| >= 2 && |maps.gainTaper| >= 2 && |maps.rfCalKmco| >= 2
  {
    C1Launched(l, maps, freq, C1CalFreq(mode, freq, bw), C1MainFreq(mode, freq, bw)) && eb14 == C1Byte(maps, freq)
  }

  /** tda18271c1_rf_tracking_filter_calibration: one calibration is launched for the frequency. */
  method C1RfTrackingFilterCalibration(fe: Fe, freq: u32, bw: u32) returns (ret: int)
    requires fe.Valid() && fe.Consistent()
    modifies fe.dev`m, fe.regs, fe`launches
    ensures fe.dev.m.fault == old(fe.dev.m.fault)
    ensures fe.Consistent()
    ensures ret == 0 || ret == -1
    ensures fe.regs[R_EP3] == old(fe.regs[R_EP3])
    ensures |fe.launches| == |old(fe.launches)| + (if ret == 0 then 1 else 0) && old(fe.launches) <= fe.launches
    ensures fe.dev.reliable ==>
              && ret == 0 && C1Done(fe.dev.Chip(), fe.maps, freq)
              && C1Plls(fe.dev.Chip(), fe.maps, C1CalFreq(fe.mode, freq, bw), C1MainFreq(fe.mode, freq, bw))
              && FilterC1(fe.dev.Chip()[R_EB14], fe.launches[|old(fe.launches)|], fe.maps, fe.mode, freq, bw)
  {
    hide C1Plls, C1Launched, C1Unlocked, C1CalFreq, C1MainFreq, Fe.Consistent;
    ret := C1Enter(fe, freq, bw);
    if ret < 0 {
      return;
    }
    C1Launch(fe, freq, C1CalFreq(fe.mode, freq, bw), C1MainFreq(fe.mode, freq, bw));
    ghost var tuned := fe.dev.Chip();
    C1Finish(fe, freq);
    C1PllsKept(tuned, fe.dev.Chip(), fe.maps, C1CalFreq(fe.mode, freq, bw), C1MainFreq(fe.mode, freq, bw));
  }

  // ---------- Tuning ----------

  /** All registers as tda18271_init_regs leaves them. */
  ghost predicate AllStarted(fe: Fe)
    requires fe.Valid()
    reads fe.regs
  {
    forall r {:trigger fe.regs[r]} | 0 <= r < NUM_REGS :: fe.regs[r] == Started(fe.maps.id, Initial(fe.maps.id), r)
  }

  /** tda18271_ir_cal_init: the registers are set up again exactly when IR_CAL_OK, bit 3 of EP1, is read as
      clear. */
  method IrCalInit(fe: Fe) returns (ret: int)
    requires fe.Valid() && fe.Consistent() && fe.Recorded()
    modifies fe.dev, fe.regs, fe`rejections, fe`pulses
    ensures fe.dev.m.fault == old(fe.dev.m.fault)
    ensures old(fe.pulses) <= fe.pulses
    ensures fe.Consistent() && fe.Recorded()
    ensures fe.dev.asked == old(fe.dev.asked) + 1
    ensures ret == 0 || ret == -1
    ensures fe.dev.reliable ==> ret == 0
    ensures ret == 0 && fe.dev.Said(old(fe.dev.asked), R_EP1) & 0x08 == 0x00 ==>
              AllStarted(fe) && (fe.dev.reliable ==> fe.Flushed() && fe.rejections == old(fe.rejections) + REJECTIONS)
    ensures ret == 0 && fe.dev.Said(old(fe.dev.asked), R_EP1) & 0x08 != 0x00 ==>
              && fe.dev.Chip() == old(fe.dev.Chip()) && fe.rejections == old(fe.rejections)
              && fe.regs[R_EP1] == fe.dev.Said(old(fe.dev.asked), R_EP1)
    ensures ret == 0 && fe.dev.honest && old(Awake(fe)) ==> Awake(fe)
  {
    ret := fe.ReadRegs();
    if ret < 0 {
      return;
    }
    if fe.regs[R_EP1] & 0x08 == 0 {
      ret := fe.InitRegs();
    }
  }

  /** Further reads and launches do not concern what has been calibrated. */
  twostate lemma CalibrationKept(fe: Fe)
    requires fe.Valid() && old(CalibrationOk(fe)) && Extends(fe.Past(), old(fe.Past())) && unchanged(fe.rfCalState)
    requires unchanged(fe`origins, fe`tmRfcal, fe`tmAt, fe`calInitialized)
    ensures CalibrationOk(fe)
  {
    hide Complete, FoundAfter, OriginReady, Extends, Plausible, Warm;
    if fe.calInitialized {
      forall i | 0 <= i < 7 ensures BandDone(fe, i, BEGINNING) && BandReady(fe, i) {
        assert old(BandDone(fe, i, BEGINNING)) && old(BandReady(fe, i));
        StillComplete(fe.dev, fe.maps, old(fe.Past()), fe.Past(), fe.rfCalState[i], fe.origins[i]);
      }
    }
  }

  /** The beginning of tda18271_init: full power, and the image rejection if it is due. */
  method PowerUp(fe: Fe) returns (ret: int)
    requires fe.Valid() && fe.Consistent() && fe.Recorded() && CalibrationOk(fe)
    modifies fe.dev, fe.regs, fe`rejections, fe`pulses
    ensures fe.dev.m.fault == old(fe.dev.m.fault)
    ensures old(fe.pulses) <= fe.pulses
    ensures fe.Consistent() && fe.Recorded() && CalibrationOk(fe)
    ensures old(fe.dev.asked) <= fe.dev.asked
    ensures ret == 0 || ret == -1
    ensures fe.dev.reliable ==> ret == 0
    ensures ret == 0 && fe.dev.honest ==> Awake(fe)
    ensures ret == 0 && fe.maps.id == C2 && fe.dev.Said(old(fe.dev.asked), R_EP1) & 0x18 != 0x18 ==>
              fe.regs[R_EP1] & 0x10 == 0x00
    ensures old(fe.rejections) <= fe.rejections || !fe.dev.reliable
    ensures fe.dev.reliable && fe.dev.Said(old(fe.dev.asked), R_EP1) & 0x08 == 0x00 ==>
              fe.rejections == old(fe.rejections) + REJECTIONS
  {
    hide CalibrationOk, Started, Initial, Fe.Recorded;
    AllZero(fe.regs[R_EP3]);
    ret := fe.SetStandbyMode(false, false, false);
    if ret < 0 {
      CalibrationKept(fe);
      return;
    }
    OkBits(fe.dev.Said(fe.dev.asked, R_EP1));
    StartedNotOk();
    ret := IrCalInit(fe);
    CalibrationKept(fe);
  }

  /** tda18271_init. The result of the C2 calibration is not looked at. */
  method Init(fe: Fe) returns (ret: int)
    requires fe.Valid() && fe.Consistent() && fe.Recorded() && CalibrationOk(fe)
    modifies fe.dev, fe.regs, fe`log, fe`latch, fe`launches, fe`rejections, fe`pulses, fe`origins, fe.rfCalState,
             fe`tmRfcal, fe`tmAt, fe`calInitialized
    ensures fe.dev.m.fault == old(fe.dev.m.fault)
    ensures old(fe.pulses) <= fe.pulses
    ensures fe.Consistent() && fe.Recorded() && CalibrationOk(fe)
    ensures ret == 0 || ret == -1
    ensures fe.dev.reliable ==> ret == 0 && (fe.maps.id == C2 ==> fe.calInitialized)
    ensures ret == 0 && fe.dev.honest && fe.maps.id == C1 ==> Awake(fe)
    ensures Extends(fe.Past(), old(fe.Past())) && |fe.log| <= |old(fe.log)| + 456
    ensures fe.maps.id == C1 ==> fe.launches == old(fe.launches)
    ensures Recalibrates(fe.dev, fe.maps, old(fe.dev.asked)) ==> DoneUpTo(fe, 7, old(fe.Past()))
    ensures fe.dev.reliable && fe.dev.Said(old(fe.dev.asked), R_EP1) & 0x08 == 0x00 ==>
              fe.rejections == old(fe.rejections) + REJECTIONS
  {
    hide DoneUpTo, BandsPlausible, Fe.Consistent, Fe.Recorded;
    ret := PowerUp(fe);
    if ret < 0 {
      return;
    }
    if fe.maps.id == C2 {
      ghost var awake := fe.Past();
      var done := C2RfCalInit(fe);
      if Recalibrates(fe.dev, fe.maps, old(fe.dev.asked)) {
        DoneLater(fe, awake, old(fe.Past()));
      }
    }
  }

  /** The chip's answer to read `k` calls for a new calibration: it reports not both OK bits. */
  ghost predicate Recalibrates(dev: Bridge, maps: AnyLayout, k: nat) {
    dev.reliable && maps.id == C2 && dev.Said(k, R_EP1) & 0x18 != 0x18
  }

  lemma DoneLater(fe: Fe, h: History, from: History)
    requires fe.Valid() && fe.maps.id == C2 && DoneUpTo(fe, 7, h) && Extends(h, from)
    ensures DoneUpTo(fe, 7, from)
  {
    hide Complete, FoundAfter, OriginReady, Extends;
    forall i | 0 <= i < 7 ensures BandDone(fe, i, from) && BandReady(fe, i) {
      assert BandDone(fe, i, h) && BandReady(fe, i);
      FoundLater(fe.origins[i], h, from);
    }
  }

  lemma StartedNotOk()
    ensures Started(C2, Initial(C2), R_EP1) & 0x10 == 0x00
  {
    assert Initial(C2)[R_EP1] == 0xc6;
  }

  lemma OkBits(b: byte)
    ensures b & 0x18 != 0x18 ==> b & 0x08 == 0x00 || b & 0x10 == 0x00
  {
  }

  /** tda18271_attach, once the version is known: the registers are set up, and a C2 is calibrated if that
      is configured. */
  method Attach(role: Role, mode: Mode, maps: Layout, dev: Bridge, memory: Image, tm: u8, calOnStartup: bool)
    returns (fe: Fe)
    modifies dev
    ensures fresh(fe) && fresh(fe.regs) && fresh(fe.rfCalState)
    ensures fe.role == role && fe.mode == mode && fe.maps == maps && fe.dev == dev
    ensures fe.Valid() && fe.Consistent() && fe.Recorded() && CalibrationOk(fe)
    ensures dev.m.fault == old(dev.m.fault) && |fe.log| <= 456
    ensures dev.reliable ==> fe.rejections == REJECTIONS
    ensures dev.reliable && calOnStartup && maps.id == C2 ==> fe.calInitialized
  {
    TemplatePlausible();
    fe := new Fe(role, mode, maps, dev, memory, tm);
    assert [] + REJECTIONS == REJECTIONS;
    var _ := fe.InitRegs();
    if calOnStartup && maps.id == C2 {
      var _ := C2RfCalInit(fe);
    }
  }

  /** Normal mode on the chip: no standby, normal calibration mode, thermometer off. */
  ghost predicate NormalMode(chip: Image) {
    chip[R_EP3] & 0xe0 == 0x00 && chip[R_EP4] & 0x03 == 0x00 && chip[R_TM] & 0x10 == 0x00
  }


  lemma SameFilter(eb14: byte, e: RfCal, maps: Layout, freq: u32, a: byte, b: byte, tmRfcal: u8)
    requires maps.id == C2 && FilterC2(eb14, e, maps, freq, a, tmRfcal) && Temperature(a) == Temperature(b)
    ensures FilterC2(eb14, e, maps, freq, b, tmRfcal)
  {
    hide Compensated, Approx, Temperature;
  }

  /** The tracking filter, on either chip; on a C2 for the temperature that the chip reported last. */
  method PrepareFilter(fe: Fe, freq: u32, bw: u32)
    requires fe.Valid() && fe.Consistent() && fe.Recorded() && Shaped(fe.rfCalState[..])
    requires fe.dev.honest && fe.maps.id == C1 ==> Awake(fe)
    modifies fe.dev, fe.regs, fe`launches
    ensures fe.dev.m.fault == old(fe.dev.m.fault) && old(fe.dev.asked) <= fe.dev.asked
    ensures fe.Consistent() && fe.Recorded()
    ensures fe.dev.honest ==> fe.regs[R_EP3] & 0xe0 == 0x00
    ensures old(fe.launches) <= fe.launches
    ensures fe.dev.reliable && fe.maps.id == C1 ==>
              && |old(fe.launches)| < |fe.launches|
              && FilterC1(fe.dev.Chip()[R_EB14], fe.launches[|old(fe.launches)|], fe.maps, fe.mode, freq, bw)
    ensures fe.dev.reliable && fe.maps.id == C2 && BandIndex(freq) >= 0 ==>
              && old(fe.dev.asked) < fe.dev.asked && ThermometerOn(fe.dev)
              && FilterC2(fe.dev.Chip()[R_EB14], fe.rfCalState[BandIndex(freq)], fe.maps, freq,
                          fe.dev.Said(fe.dev.asked - 1, R_TM), fe.tmRfcal)
  {
    hide FilterC1, FilterC2, C1Done, C1Plls, BandIndex;
    match fe.maps.id {
      case C1 =>
        var _ := C1RfTrackingFilterCalibration(fe, freq, bw);
      case C2 =>
        var ret := RfTrackingFiltersCorrection(fe, freq);
        if fe.dev.reliable && ret == 0 {
          SameFilter(fe.dev.Chip()[R_EB14], fe.rfCalState[BandIndex(freq)], fe.maps, freq,
                     fe.regs[R_TM], fe.dev.Said(fe.dev.asked - 1, R_TM), fe.tmRfcal);
        }
    }
  }

  /** The channel of a tuner that is awake. */
  method SetChannel(fe: Fe, item: StdItem, freq: u32, bw: u32) returns (ret: int)
    requires fe.Valid() && fe.Consistent()
    requires fe.dev.honest ==> fe.regs[R_EP3] & 0xe0 == 0x00
    modifies fe.dev`m, fe.regs, fe`pulses
    ensures fe.dev.m.fault == old(fe.dev.m.fault)
    ensures fe.Consistent()
    ensures ret == 0 || ret == -1
    ensures ret == 0 && fe.dev.honest ==> NormalMode(fe.dev.Chip())
    ensures ret == 0 ==> OnChannel(fe.dev.Chip(), fe.maps, fe.role, item, freq)
    ensures fe.dev.reliable ==>
              && ret == 0 && PumpIdle(fe.dev.Chip(), fe.role) && Relocked(fe, old(fe.pulses))
              && Listening(fe.dev.Chip(), fe.role, fe.mode, fe.maps, LocalOscillator(item, freq))
    ensures fe.dev.Chip()[R_EB14] == old(fe.dev.Chip()[R_EB14])
  {
    ModeBits(fe.regs[R_EP3], fe.maps.id, item);
    ModeBits(fe.regs[R_EP4], fe.maps.id, item);
    ret := ChannelConfiguration(fe, item, freq, bw);
  }

  lemma Usable(fe: Fe)
    requires fe.Valid() && CalibrationOk(fe)
    ensures Shaped(fe.rfCalState[..]) && (fe.calInitialized ==> 60 <= fe.tmRfcal <= 122)
  {
  }

  /** What follows the initialization. */
  method TuneAwake(fe: Fe, item: StdItem, freq: u32, bw: u32) returns (ret: int)
    requires fe.Valid() && fe.Consistent() && fe.Recorded() && CalibrationOk(fe)
    requires fe.dev.honest && fe.maps.id == C1 ==> Awake(fe)
    modifies fe.dev, fe.regs, fe`launches, fe`pulses
    ensures fe.dev.m.fault == old(fe.dev.m.fault) && old(fe.dev.asked) <= fe.dev.asked
    ensures fe.Consistent() && fe.Recorded() && CalibrationOk(fe)
    ensures ret == 0 || ret == -1
    ensures ret == 0 && fe.dev.honest ==> NormalMode(fe.dev.Chip())
    ensures ret == 0 ==> OnChannel(fe.dev.Chip(), fe.maps, fe.role, item, freq)
    ensures fe.dev.reliable ==>
              && ret == 0 && PumpIdle(fe.dev.Chip(), fe.role) && Relocked(fe, old(fe.pulses))
              && Listening(fe.dev.Chip(), fe.role, fe.mode, fe.maps, LocalOscillator(item, freq))
    ensures Extends(fe.Past(), old(fe.Past()))
    ensures fe.dev.reliable && fe.maps.id == C1 ==>
              && |old(fe.launches)| < |fe.launches|
              && FilterC1(fe.dev.Chip()[R_EB14], fe.launches[|old(fe.launches)|], fe.maps, fe.mode, freq, bw)
    ensures fe.dev.reliable && fe.maps.id == C2 && BandIndex(freq) >= 0 ==>
              && old(fe.dev.asked) < fe.dev.asked && ThermometerOn(fe.dev)
              && FilterC2(fe.dev.Chip()[R_EB14], fe.rfCalState[BandIndex(freq)], fe.maps, freq,
                          fe.dev.Said(fe.dev.asked - 1, R_TM), fe.tmRfcal)
  {
    hide FilterC1, FilterC2, OnChannel, Listening, NormalMode, CalibrationOk, Shaped, BandIndex, ThermometerOn;
    Usable(fe);
    PrepareFilter(fe, freq, bw);
    ret := SetChannel(fe, item, freq, bw);
    CalibrationKept(fe);
  }

  /** tda18271_tune. Whatever transfers failed in between, a tuner that reports success is on the channel and
      in normal mode, provided that the standby bits are read back as they were written. On a reliable bus it
      succeeds; the PLL of its role stands at the channel's oscillator; and the tracking filter is the one of
      a calibration made for the frequency, or the record's corrected for the temperature the chip reported. */
  method Tune(fe: Fe, item: StdItem, freq: u32, bw: u32) returns (ret: int)
    requires fe.Valid() && fe.Consistent() && fe.Recorded() && CalibrationOk(fe)
    modifies fe.dev, fe.regs, fe`log, fe`latch, fe`launches, fe`rejections, fe`pulses, fe`origins, fe.rfCalState,
             fe`tmRfcal, fe`tmAt, fe`calInitialized
    ensures fe.dev.m.fault == old(fe.dev.m.fault)
    ensures fe.Consistent() && fe.Recorded() && CalibrationOk(fe)
    ensures ret == 0 || ret == -1
    ensures ret == 0 && fe.dev.honest ==> NormalMode(fe.dev.Chip())
    ensures ret == 0 ==> OnChannel(fe.dev.Chip(), fe.maps, fe.role, item, freq)
    ensures fe.dev.reliable ==>
              && ret == 0 && PumpIdle(fe.dev.Chip(), fe.role) && Relocked(fe, old(fe.pulses))
              && Listening(fe.dev.Chip(), fe.role, fe.mode, fe.maps, LocalOscillator(item, freq))
              && (fe.maps.id == C2 ==> fe.calInitialized)
    ensures fe.dev.reliable && fe.maps.id == C1 ==>
              && |old(fe.launches)| < |fe.launches|
              && FilterC1(fe.dev.Chip()[R_EB14], fe.launches[|old(fe.launches)|], fe.maps, fe.mode, freq, bw)
    ensures fe.dev.reliable && fe.maps.id == C2 && BandIndex(freq) >= 0 ==>
              && old(fe.dev.asked) < fe.dev.asked && ThermometerOn(fe.dev)
              && FilterC2(fe.dev.Chip()[R_EB14], fe.rfCalState[BandIndex(freq)], fe.maps, freq,
                          fe.dev.Said(fe.dev.asked - 1, R_TM), fe.tmRfcal)
    ensures Extends(fe.Past(), old(fe.Past())) && |fe.log| <= |old(fe.log)| + 456
    ensures Recalibrates(fe.dev, fe.maps, old(fe.dev.asked)) ==> DoneUpTo(fe, 7, old(fe.Past()))
    ensures fe.dev.reliable && fe.dev.Said(old(fe.dev.asked), R_EP1) & 0x08 == 0x00 ==>
              fe.rejections == old(fe.rejections) + REJECTIONS
  {
    hide FilterC1, FilterC2, OnChannel, Listening, NormalMode, BandIndex, LocalOscillator, ThermometerOn,
         Complete, FoundAfter, OriginReady, CalibrationOk, Fe.Consistent, Fe.Recorded;
    ret := Init(fe);
    if ret == 0 {
      ghost var again, done := Recalibrates(fe.dev, fe.maps, old(fe.dev.asked)), fe.Past();
      if again {
        AllDone(fe, old(fe.Past()));
      }
      ret := TuneAwake(fe, item, freq, bw);
      if again {
        StillDone(fe, done, old(fe.Past()));
      }
    }
  }

  /** The frequencies a television tuner is asked for, with any of the standards the driver knows. */
  predicate Tunable(item: StdItem, freq: u32) {
    45000000 <= freq <= 864000000 && item in C1_STD_MAP + C2_STD_MAP
  }

  /** The PLL of the role is at the channel's oscillator, and every field is that of the frequency. */
  ghost predicate Receiving(chip: Image, maps: AnyLayout, role: Role, freq: u32, oscillator: u32)
    requires |maps.mainPll| >= 2 && |maps.calPll| >= 2
    requires |maps.bpFilter| >= 2 && |maps.rfBand| >= 2 && |maps.gainTaper| >= 2 && |maps.irMeasure| >= 2
  {
    && (if role == MasterTuner then MainPllSet(chip, maps, oscillator) else CalPllSet(chip, maps, oscillator))
    && chip[R_EP1] & 0x07 == 0x07 & maps.bpFilter[Slot(maps.bpFilter, freq)].val
    && chip[R_EP2] & 0xe0 == 0xe0 & (maps.rfBand[Slot(maps.rfBand, freq)].val << 5)
    && chip[R_EP2] & 0x1f == 0x1f & maps.gainTaper[Slot(maps.gainTaper, freq)].val
    && chip[R_EP5] & 0x07 == 0x07 & maps.irMeasure[Slot(maps.irMeasure, freq)].val
  }

  /** The byte is within 9 of the one the record gives, unless that is within 9 of an end. */
  ghost predicate FilterClose(eb14: byte, e: RfCal, maps: AnyLayout, freq: u32)
    requires |maps.rfCal| >= 2
  {
    var approx := Approx(e, freq, TableByte(maps, freq));
    9 <= approx <= 246 ==> Abs(eb14 as int - approx) <= 9
  }

  /** A tunable channel is received: no table is left without an entry for it; and a C2 stores a byte within 9
      of the one its record gives, unless that is within 9 of an end. */
  method TuneTelevision(fe: Fe, item: StdItem, freq: u32, bw: u32) returns (ret: int)
    requires fe.Valid() && fe.Consistent() && fe.Recorded() && CalibrationOk(fe)
    requires Tunable(item, freq)
    modifies fe.dev, fe.regs, fe`log, fe`latch, fe`launches, fe`rejections, fe`pulses, fe`origins, fe.rfCalState,
             fe`tmRfcal, fe`tmAt, fe`calInitialized
    ensures fe.Consistent() && fe.Recorded() && CalibrationOk(fe)
    ensures LocalOscillator(item, freq) == item.ifFreq * 1000 + freq
    ensures fe.dev.reliable ==>
              ret == 0 && Receiving(fe.dev.Chip(), fe.maps, fe.role, freq, LocalOscillator(item, freq))
    ensures fe.dev.reliable && fe.maps.id == C2 ==>
              && 0 <= BandIndex(freq) < 7
              && FilterClose(fe.dev.Chip()[R_EB14], fe.rfCalState[BandIndex(freq)], fe.maps, freq)
  {
    hide FilterC1, FilterC2, OnChannel, Listening, NormalMode, Receiving, FilterClose, Tunable, BandIndex,
         CalibrationOk, ThermometerOn, PumpIdle, Relocked, Recalibrates, DoneUpTo, LocalOscillator, Extends,
         Fe.Consistent, Fe.Recorded;
    ret := Tune(fe, item, freq, bw);
    TunableInRange(fe.maps, freq, item);
    Usable(fe);
    if fe.dev.reliable {
      TunableReceived(fe.dev.Chip(), fe.maps, fe.role, fe.mode, item, freq);
      TunableBand(item, freq);
      if fe.maps.id == C2 {
        FilterNear(fe.dev.Chip()[R_EB14], fe.rfCalState[BandIndex(freq)], fe.maps, freq,
                   fe.dev.Said(fe.dev.asked - 1, R_TM), fe.tmRfcal);
      }
    }
  }

  /** Every tunable frequency is in range of the PLL of either role, on either chip. */
  lemma TunableInRange(maps: Layout, freq: u32, item: StdItem)
    requires Tunable(item, freq)
    ensures LocalOscillator(item, freq) == item.ifFreq * 1000 + freq
    ensures InRange(maps.mainPll, LocalOscillator(item, freq)) && InRange(maps.calPll, LocalOscillator(item, freq))
  {
    IfFreqBound();
    LowIfInRange(maps, freq, item);
  }

  lemma LowIfInRange(maps: Layout, freq: u32, item: StdItem)
    requires 45000000 <= freq <= 864000000 && item.ifFreq <= 7750
    ensures LocalOscillator(item, freq) == item.ifFreq * 1000 + freq
    ensures InRange(maps.mainPll, LocalOscillator(item, freq)) && InRange(maps.calPll, LocalOscillator(item, freq))
  {
  }

  lemma TunableReceived(chip: Image, maps: Layout, role: Role, mode: Mode, item: StdItem, freq: u32)
    requires Tunable(item, freq)
    requires Listening(chip, role, mode, maps, LocalOscillator(item, freq)) && OnChannel(chip, maps, role, item, freq)
    ensures LocalOscillator(item, freq) == item.ifFreq * 1000 + freq
    ensures Receiving(chip, maps, role, freq, LocalOscillator(item, freq))
  {
    TunableInRange(maps, freq, item);
  }

  lemma TunableBand(item: StdItem, freq: u32)
    requires Tunable(item, freq)
    ensures 0 <= BandIndex(freq) < 7
  {
    assert RF_BAND[Last(RF_BAND)].max == 865000;
  }

  lemma FilterNear(eb14: byte, e: RfCal, maps: Layout, freq: u32, tmByte: byte, tmRfcal: u8)
    requires maps.id == C2 && FilterC2(eb14, e, maps, freq, tmByte, tmRfcal) && 60 <= tmRfcal <= 122
    ensures FilterClose(eb14, e, maps, freq)
  {
    hide Approx, Compensated, Temperature, DcByte;
    if 9 <= Approx(e, freq, TableByte(maps, freq)) <= 246 {
      TemperatureRange(tmByte);
      CorrectionNear(maps, Approx(e, freq, TableByte(maps, freq)), eb14 as int, freq, Temperature(tmByte), tmRfcal);
    }
  }

  /** The byte that was measured for an anchor: the chip's answer to the calibration of the frequency the scan
      found, or the table's byte if the scan found nothing. */
  ghost function Measured(fe: Fe, f: Finding, freq: u32): u8 {
    if f.hit then fe.dev.Said(f.at, R_EB14) as int else TableByte(fe.maps, freq)
  }

  /** The correction reaches anchor `k` without the slope that is lost in front of it: always the first one,
      and the second one of three. */
  predicate SlopeNotNeeded(points: seq<Anchor>, k: nat)
    requires k < |points|
  {
    k == 0 || (k == 1 && |points| == 3) || MeetsWithout(points[k - 1], points[k])
  }

  /** After a calibration every default frequency of every band has its anchor, inside the band; and at the
      anchor the correction returns the byte that was measured there exactly when it can do without the lost
      slope. On a reliable bus no answer was missed. */
  lemma CorrectionMeetsAnchors(fe: Fe, i: nat, k: nat)
    requires fe.Valid() && CalibrationOk(fe) && fe.calInitialized && i < 7 && k < Defaults(fe.rfCalState[i])
    ensures var o := fe.origins[i];
            && |o.points| == |o.findings| == Defaults(fe.rfCalState[i]) && BandIndex(o.points[k].freq) == i
            && Genuine(fe.dev, fe.maps, fe.Past(), StartFreq(fe.rfCalState[i], k), o.findings[k], o.points[k])
    ensures var a, f := fe.origins[i].points[k], fe.origins[i].findings[k];
            (fe.dev.reliable || !f.hit || f.ok) ==>
              (Approx(fe.rfCalState[i], a.freq, TableByte(fe.maps, a.freq)) == Measured(fe, f, a.freq)
              <==> SlopeNotNeeded(fe.origins[i].points, k))
  {
    var o, e := fe.origins[i], fe.rfCalState[i];
    assert BandDone(fe, i, BEGINNING);
    assert Genuine(fe.dev, fe.maps, fe.Past(), StartFreq(e, k), o.findings[k], o.points[k]);
    AnchorInBand(fe.rfCalState[..], i, k, o.points[k].freq);
    AnchorMet(e, o.points, k);
  }

  lemma AnchorMet(e: RfCal, points: seq<Anchor>, k: nat)
    requires Calibrated(e) && Fitted(e, points) && k < |points| == Defaults(e)
    ensures Approx(e, points[k].freq, points[k].tab) == points[k].cal <==> SlopeNotNeeded(points, k)
  {
    if k == 0 {
      ThroughRf1(e, points);
    } else if |points| == 3 {
      ThroughRf2(e, points);
      Rf3Exactly(e, points);
    } else {
      TwoPointRf2Exactly(e, points);
    }
  }

  // ---------- Where the correction fails ----------

  /** A scan from `start` can return `start` itself, with a hit at its first reading. */
  ghost predicate HitAtOnce(start: u32) {
    var latch := Latch(0x00, 0x12, 0x01, 0x00, DivBytes(0, 0, 0), 0x00, 0x00, 0x00, 0x06);
    Scanned(TargetAt(start), start, [Sample(0, true, 0x3f, latch)], 1, start)
  }

  lemma StrongestHits(start: u32)
    requires TargetAt(start).target <= 0x3f
    ensures HitAtOnce(start)
  {
  }

  /** The anchors of band 2 on a C2: found at the default frequencies, with the bytes of the table there, and
      answered with 38 and 150. */
  const LOWER := Anchor(70100000, 38, 0x1c)
  const UPPER := Anchor(136800000, 150, 0x87)

  lemma BandTwoStarts()
    ensures StartFreq(RF_BAND_TEMPLATE[2], 0) == LOWER.freq && StartFreq(RF_BAND_TEMPLATE[2], 1) == UPPER.freq
    ensures HitAtOnce(LOWER.freq) && HitAtOnce(UPPER.freq)
  {
    CidTargetWellFormed();
    SlotBetween(CID_TARGET, LOWER.freq, 2);
    SlotBetween(CID_TARGET, UPPER.freq, 3);
    StrongestHits(LOWER.freq);
    StrongestHits(UPPER.freq);
  }

  lemma BandTwoFits()
    ensures Divisor(LOWER.freq, UPPER.freq) == 66700
    ensures var e := Fit(Fit(RF_BAND_TEMPLATE[2], [LOWER]), [LOWER, UPPER]);
            && Calibrated(e) && Fitted(e, [LOWER, UPPER]) && e.rf3 == 0
            && Approx(e, UPPER.freq, UPPER.tab) == 145
  {
    assert Dividend(LOWER, UPPER) == 5;
    TruncDivBelow(5, 66700);
  }

  /** The chip answers 150 for 136.8 MHz, and the correction returns 145 there. */
  lemma TwoPointMisses(maps: Layout)
    requires maps.id == C2
    requires HasRow(maps.rfCal, 70000, Entry(71000, 0x1c)) && HasRow(maps.rfCal, 136000, Entry(137000, 0x87))
    ensures LOWER.tab == TableByte(maps, LOWER.freq) && UPPER.tab == TableByte(maps, UPPER.freq)
    ensures StartFreq(RF_BAND_TEMPLATE[2], 0) == LOWER.freq && HitAtOnce(LOWER.freq)
    ensures StartFreq(RF_BAND_TEMPLATE[2], 1) == UPPER.freq && HitAtOnce(UPPER.freq)
    ensures Divisor(LOWER.freq, UPPER.freq) != 0
    ensures var e := Fit(Fit(RF_BAND_TEMPLATE[2], [LOWER]), [LOWER, UPPER]);
            Calibrated(e) && Fitted(e, [LOWER, UPPER]) && Approx(e, UPPER.freq, UPPER.tab) == 145 && UPPER.cal == 150
  {
    RowFound(maps.rfCal, 70000, Entry(71000, 0x1c), LOWER.freq);
    RowFound(maps.rfCal, 136000, Entry(137000, 0x87), UPPER.freq);
    BandTwoStarts();
    BandTwoFits();
  }

  /** What the anchor loop makes of three anchors. */
  ghost function FitThree(e: RfCal, points: seq<Anchor>): RfCal
    requires Spaced(e) && Plausible(e) && NearDefaults(e, points) && |points| == 3
  {
    ThreeFit(e, points);
    Fit(Fit(Fit(e, points[..1]), points[..2]), points)
  }

  lemma ThreeFit(e: RfCal, points: seq<Anchor>)
    requires Spaced(e) && Plausible(e) && NearDefaults(e, points) && |points| == 3
    ensures Divisor(points[0].freq, points[1].freq) != 0 && Divisor(points[1].freq, points[2].freq) != 0
    ensures var last := Fit(Fit(Fit(e, points[..1]), points[..2]), points);
            Calibrated(last) && Fitted(last, points)
  {
    assert points[..1] == [] + [points[0]] && points[..2] == points[..1] + [points[1]];
    assert points == points[..2] + [points[2]];
    assert forall rf | 0 <= rf < 3 :: NearDefault(e, rf, points[rf].freq);
    FitExtends(e, [], points[0]);
    var one := Fit(e, points[..1]);
    FitExtends(one, points[..1], points[1]);
    var two := Fit(one, points[..2]);
    FitExtends(two, points[..2], points[2]);
    FittedIsCalibrated(Fit(two, points), points);
  }

  /** Three anchors of band 6 that the chip found at the default frequencies, answering 255 for the second. */
  ghost predicate FullAtSecond(maps: Layout, points: seq<Anchor>)
    requires maps.id == C2
  {
    && |points| == 3 && points[1].cal == 255
    && forall k | 0 <= k < 3 ::
         points[k].freq == StartFreq(RF_BAND_TEMPLATE[6], k) && points[k].tab == TableByte(maps, points[k].freq)
  }

  lemma BandSixStarts(maps: Layout, points: seq<Anchor>)
    requires maps.id == C2 && FullAtSecond(maps, points)
    ensures NearDefaults(RF_BAND_TEMPLATE[6], points) && Spaced(RF_BAND_TEMPLATE[6]) && Plausible(RF_BAND_TEMPLATE[6])
    ensures points[1].freq == 697500000
  {
    TemplateSpaced(6);
    assert StartFreq(RF_BAND_TEMPLATE[6], 0) == 489500000 && StartFreq(RF_BAND_TEMPLATE[6], 1) == 697500000;
    assert StartFreq(RF_BAND_TEMPLATE[6], 2) == 842000000;
  }

  /** Calibrated in the cold and tuned in the heat, the byte wraps: 255 and a compensation of 2 store 1. */
  lemma CorrectionWraps(maps: Layout, points: seq<Anchor>)
    requires maps.id == C2 && maps.dcOverDt == DC && FullAtSecond(maps, points)
    ensures NearDefaults(RF_BAND_TEMPLATE[6], points) && Spaced(RF_BAND_TEMPLATE[6]) && Plausible(RF_BAND_TEMPLATE[6])
    ensures var e := FitThree(RF_BAND_TEMPLATE[6], points);
            && Calibrated(e) && BandIndex(697500000) == 6
            && Approx(e, 697500000, TableByte(maps, 697500000)) == 255
            && Compensation(DcByte(maps, 697500000), Temperature(0x28), Temperature(0x00)) == 2
            && FilterC2(0x01, e, maps, 697500000, 0x28, Temperature(0x00))
  {
    BandSixStarts(maps, points);
    ThreeFit(RF_BAND_TEMPLATE[6], points);
    var e := FitThree(RF_BAND_TEMPLATE[6], points);
    ThroughRf2(e, points);
    SecondInBandSix();
    HeatWraps(e, maps);
  }

  lemma SecondInBandSix()
    ensures BandIndex(697500000) == 6
  {
    RfBandWellFormed();
    SlotBetween(RF_BAND, 697500000, 6);
  }

  lemma HeatWraps(e: RfCal, maps: Layout)
    requires maps.id == C2 && maps.dcOverDt == DC && Approx(e, 697500000, TableByte(maps, 697500000)) == 255
    ensures Compensation(DcByte(maps, 697500000), Temperature(0x28), Temperature(0x00)) == 2
    ensures FilterC2(0x01, e, maps, 697500000, 0x28, Temperature(0x00))
  {
    DcAtSecond(maps);
    Hottest();
    TwoUp();
  }

  lemma TwoUp()
    ensures Compensation(46, 122, 60) == 2 && Corrected(255, 2) == 1
  {
  }

  lemma DcAtSecond(maps: Layout)
    requires maps.id == C2 && maps.dcOverDt == DC
    ensures DcByte(maps, 697500000) == 46
  {
    assert DC[68] == DC_6[8] && DC[69] == DC_6[9] == Entry(699000, 0x2e);
    RowFound(DC, 669000, Entry(699000, 0x2e), 697500000);
  }

  lemma Hottest()
    ensures Temperature(0x28) == 122 && Temperature(0x00) == 60
  {
    assert 0x28 as byte & 0x0f == 0x08 && 0x28 as byte & 0x20 == 0x20 && 0x00 as byte & 0x0f == 0x00;
  }
}
