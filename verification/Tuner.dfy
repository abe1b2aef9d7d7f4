/** The TDA18271 tuner's shadow registers and the operations of src/tda18271-common.c on them. */
module Tuner {
  import opened Words
  import opened Tables
  import opened Lookup
  import opened Pll
  import opened I2c
  import opened Bands

  const R_ID := 0x00
  const R_TM := 0x01
  const R_PL := 0x02
  const R_EP1 := 0x03
  const R_EP2 := 0x04
  const R_EP3 := 0x05
  const R_EP4 := 0x06
  const R_EP5 := 0x07
  const R_CPD := 0x08
  const R_CD1 := 0x09
  const R_CD2 := 0x0a
  const R_CD3 := 0x0b
  const R_MPD := 0x0c
  const R_MD1 := 0x0d
  const R_MD2 := 0x0e
  const R_MD3 := 0x0f
  const R_EB1 := 0x10
  const R_EB2 := 0x11
  const R_EB3 := 0x12
  const R_EB4 := 0x13
  const R_EB5 := 0x14
  const R_EB6 := 0x15
  const R_EB7 := 0x16
  const R_EB8 := 0x17
  const R_EB9 := 0x18
  const R_EB10 := 0x19
  const R_EB11 := 0x1a
  const R_EB12 := 0x1b
  const R_EB13 := 0x1c
  const R_EB14 := 0x1d
  const R_EB15 := 0x1e
  const R_EB16 := 0x1f
  const R_EB17 := 0x20
  const R_EB18 := 0x21
  const R_EB19 := 0x22
  const R_EB20 := 0x23
  const R_EB21 := 0x24
  const R_EB22 := 0x25
  const R_EB23 := 0x26

  datatype Version = C1 | C2

  datatype Role = MasterTuner | SlaveTuner

  /** tda18271_attach leaves the mode unset, and the switches over it have no default case. */
  datatype Mode = Analog | Digital | Unset

  datatype PllSide = MainSide | CalSide

  /** The registers that decide what a power measurement measures. */
  datatype Latch = Latch(ep2: byte, ep3: byte, ep4: byte, mpd: byte, div: DivBytes,
                         eb14: byte, eb18: byte, eb21: byte, eb23: byte)

  /** One power measurement: the number of the read that brought it, whether the transfer succeeded, EB10
      as it was read, and the set-up of the chip when the measurement was launched. */
  datatype Sample = Sample(at: nat, ok: bool, power: byte, latch: Latch)

  /** Charge pumps and PLL lock before a launch. */
  datatype Edge = Edge(eb4: byte, eb7: byte, eb20: byte)

  /** The registers of the chip when a calibration of the RF tracking filters was launched; what the pumps and the
      lock were before; and the number of the read that would come next. */
  datatype Launch = Launch(ep1: byte, ep2: byte, ep3: byte, ep4: byte, cpd: byte, cdiv: DivBytes,
                           mpd: byte, mdiv: DivBytes, eb4: byte, eb7: byte, eb13: byte, eb14: byte, eb18: byte,
                           eb20: byte, was: Edge, at: nat)

  /** What has been recorded: the number of reads, the power measurements and the calibrations launched. */
  datatype History = History(asked: nat, log: seq<Sample>, launches: seq<Launch>)

  const BEGINNING := History(0, [], [])

  /** `later` has come after `h`. */
  ghost predicate Extends(later: History, h: History) {
    h.asked <= later.asked && h.log <= later.log && h.launches <= later.launches
  }

  /** The registers of the chip at a step of the image rejection calibration. */
  datatype Rejection = Rejection(ep3: byte, ep4: byte, ep5: byte, cpd: byte, cdiv: DivBytes, mpd: byte, mdiv: DivBytes)

  /** The register of a PLL's charge pump on the chip just before and after the pump is released, and EP3 then. */
  datatype Pulse = Pulse(pll: PllSide, was: byte, now: byte, ep3: byte)

  /** The pump had been forced. */
  predicate Pulsed(p: Pulse, pll: PllSide) {
    p.pll == pll && p.was & 0x20 == 0x20 && p.now & 0x20 == 0x00
  }

  /** Where an anchor comes from: the samples from `first` to `end` of the log, whether one of them was a
      hit, and then the launch of its calibration and the read that brought the result. */
  datatype Finding = Finding(hit: bool, first: nat, end: nat, launch: nat, at: nat, ok: bool)

  /** The anchors of a band and their findings. */
  datatype Origin = Origin(points: seq<Anchor>, findings: seq<Finding>)

  datatype AnyLayout = Layout(id: Version, mainPll: PllMap, calPll: PllMap, rfCal: Map, rfCalKmco: Map, dcOverDt: Map,
                              bpFilter: Map, rfBand: Map, gainTaper: Map, irMeasure: Map)

  /** A table for all frequencies up to the last RF band's. */
  ghost predicate Reaches(t: Map) {
    WellFormed(t) && t[Last(t)].max == 865000
  }

  ghost predicate LayoutOk(l: AnyLayout) {
    && PllTable(l.mainPll) && Low(l.mainPll)
    && l.mainPll[Last(l.mainPll)].max == (if l.id == C1 then 987000 else 994000)
    && PllTable(l.calPll) && l.calPll[Last(l.calPll)].max == (if l.id == C1 then 1010000 else 879000)
    && WellFormed(l.rfCal) && Reaches(l.rfCalKmco) && Reaches(l.bpFilter)
    && Reaches(l.rfBand) && Reaches(l.gainTaper) && Reaches(l.irMeasure)
    && (l.id == C2 ==> WellFormed(l.dcOverDt) && Below(l.dcOverDt, 0x9a) && Reaches(l.rfCal))
  }

  /** The layout of the C1, with any well-formed tables in the place of those that are not listed. */
  function C1Layout(rfCal: Map, rfCalKmco: Map, bpFilter: Map, gainTaper: Map, irMeasure: Map): AnyLayout {
    Layout(C1, C1_MAIN, C1_CAL, rfCal, rfCalKmco, [], bpFilter, RF_BAND, gainTaper, irMeasure)
  }

  function C2Layout(rfCal: Map, rfCalKmco: Map, bpFilter: Map, gainTaper: Map, irMeasure: Map): AnyLayout {
    Layout(C2, C2_MAIN, C2_CAL, rfCal, rfCalKmco, DC, bpFilter, RF_BAND, gainTaper, irMeasure)
  }

  lemma RfBandReaches()
    ensures Reaches(RF_BAND)
  {
    RfBandWellFormed();
  }

  /** The two layouts of the driver are layouts. */
  lemma C1LayoutOk(rfCal: Map, rfCalKmco: Map, bpFilter: Map, gainTaper: Map, irMeasure: Map)
    requires WellFormed(rfCal) && Reaches(rfCalKmco) && Reaches(bpFilter) && Reaches(gainTaper) && Reaches(irMeasure)
    ensures LayoutOk(C1Layout(rfCal, rfCalKmco, bpFilter, gainTaper, irMeasure))
  {
    C1MainTable();
    C1CalTable();
    TableEnds();
    RfBandReaches();
  }

  lemma C2LayoutOk(rfCal: Map, rfCalKmco: Map, bpFilter: Map, gainTaper: Map, irMeasure: Map)
    requires Reaches(rfCal) && Reaches(rfCalKmco) && Reaches(bpFilter) && Reaches(gainTaper) && Reaches(irMeasure)
    ensures LayoutOk(C2Layout(rfCal, rfCalKmco, bpFilter, gainTaper, irMeasure))
  {
    C2MainTable();
    C2CalTable();
    TableEnds();
    RfBandReaches();
    DcWellFormed();
    DcBelow();
  }

  lemma SomeLayout()
    ensures LayoutOk(C1Layout(RF_BAND, RF_BAND, RF_BAND, RF_BAND, RF_BAND))
  {
    RfBandReaches();
    C1LayoutOk(RF_BAND, RF_BAND, RF_BAND, RF_BAND, RF_BAND);
  }

  /** The tables a version uses. */
  type Layout = l: AnyLayout | LayoutOk(l)
    ghost witness (SomeLayout(); C1Layout(RF_BAND, RF_BAND, RF_BAND, RF_BAND, RF_BAND))

  /** The register that holds a PLL's charge pump source in bit 5. */
  function ChargePump(pll: PllSide): int {
    if pll == CalSide then R_EB7 else R_EB4
  }

  function Forced(b: byte, force: bool): byte {
    (b & 0xdf) | (if force then 0x20 else 0x00)
  }

  function Standby(b: byte, sm: bool, smLt: bool, smXt: bool): byte {
    (b & 0x1f) | (if sm then 0x80 else 0) | (if smLt then 0x40 else 0) | (if smXt then 0x20 else 0)
  }

  lemma ForcedBits(b: byte, force: bool)
    ensures (Forced(b, force) & 0x20 == 0x20 <==> force) && Forced(b, force) & 0xdf == b & 0xdf
  {
  }

  lemma StandbyPacked(b: byte, sm: bool, smLt: bool, smXt: bool)
    ensures var ep3 := Standby(b, sm, smLt, smXt);
            && (ep3 & 0x80 == 0x80 <==> sm) && (ep3 & 0x40 == 0x40 <==> smLt) && (ep3 & 0x20 == 0x20 <==> smXt)
            && ep3 & 0x1f == b & 0x1f
  {
  }

  /** The registers that tda18271_init_regs writes first. */
  function Initial(id: Version): Image {
    [if id == C1 then 0x83 else 0x84, 0x08, 0x80, 0xc6, 0xdf, 0x16, 0x60, 0x80,
     0x80, 0x00, 0x00, 0x00, 0x00, 0x00, 0x00, 0x00,
     if id == C1 then 0xff else 0xfc, 0x01, 0x84, 0x41, 0x01, 0x84, 0x40, 0x07,
     0x00, 0x00, 0x96, if id == C1 then 0x0f else 0x33, 0xc1, 0x00, 0x8f, 0x00,
     0x00, if id == C1 then 0x00 else 0x8c, 0x00, 0x20, if id == C1 then 0x33 else 0xb3, 0x48, 0xb0]
  }

  /** What it leaves in register `r`: normal mode, the gains set up, the rest as it was written first. */
  function Started(id: Version, initial: Image, r: int): byte
    requires 0 <= r < NUM_REGS
  {
    if r == R_EP3 then 0x1f else if r == R_EP4 then 0x64 else if r == R_EP5 then 0x87
    else if r == R_CPD then 0x98 else if r == R_CD1 then 0x65 else if r == R_CD2 then 0x50 else if r == R_CD3 then 0x00
    else if r == R_MPD then 0x99 else if r == R_MD1 then 0x71 else if r == R_MD2 then 0xcd else if r == R_MD3 then 0x00
    else if r == R_EB17 then 0x4c else if r == R_EB20 && id == C1 then 0xec
    else initial[r]
  }

  /** Detection and optimization of the image rejection, in the three bands. */
  const LOW_BAND := [
    Rejection(0x1f, 0x66, 0x81, 0xcc, DivBytes(0x6c, 0x00, 0x00), 0xcd, DivBytes(0x77, 0x08, 0x00)),
    Rejection(0x1f, 0x66, 0x85, 0xcb, DivBytes(0x66, 0x70, 0x00), 0xcd, DivBytes(0x77, 0x08, 0x00))]
  const MID_BAND := [
    Rejection(0x1f, 0x66, 0x82, 0xa8, DivBytes(0x66, 0x00, 0x00), 0xa9, DivBytes(0x73, 0x1a, 0x00)),
    Rejection(0x1f, 0x66, 0x86, 0xa8, DivBytes(0x66, 0xa0, 0x00), 0xa9, DivBytes(0x73, 0x1a, 0x00))]
  const HIGH_BAND := [
    Rejection(0x1f, 0x66, 0x83, 0x98, DivBytes(0x65, 0x00, 0x00), 0x99, DivBytes(0x71, 0xcd, 0x00)),
    Rejection(0x1f, 0x66, 0x87, 0x98, DivBytes(0x65, 0x50, 0x00), 0x99, DivBytes(0x71, 0xcd, 0x00))]
  const REJECTIONS := LOW_BAND + MID_BAND + HIGH_BAND

  /** The image rejection calibrations leave these values in EP3 to MD3. */
  lemma StartedAll(id: Version, initial: Image, before: Image, tuned: Image, after: Image)
    requires forall r | 0 <= r < NUM_REGS ::
               before[r] == if r == R_EB17 then 0x4c else if r == R_EB20 && id == C1 then 0xec else initial[r]
    requires forall r | 0 <= r < NUM_REGS && !(R_EP3 <= r < R_EB1) :: after[r] == before[r]
    requires RejectionOf(tuned) == HIGH_BAND[1] && after[R_EP4] == 0x64
    requires forall r | 0 <= r < NUM_REGS && r != R_EP4 :: after[r] == tuned[r]
    ensures forall r | 0 <= r < NUM_REGS :: after[r] == Started(id, initial, r)
  {
    forall r | 0 <= r < NUM_REGS ensures after[r] == Started(id, initial, r) {
      if R_EP3 <= r < R_EB1 {
        if r < R_CPD {} else if r < R_MPD {} else {}
      } else {
        assert after[r] == before[r];
      }
    }
  }

  /** read_extended never updates these. */
  predicate WriteOnly(r: int) {
    r == R_EB9 || r == R_EB16 || r == R_EB17 || r == R_EB19 || r == R_EB20
  }

  /** What a launch depends on. */
  function LaunchOf(chip: Image, was: Edge, at: nat): Launch {
    Launch(chip[R_EP1], chip[R_EP2], chip[R_EP3], chip[R_EP4],
           chip[R_CPD], DivBytes(chip[R_CD1], chip[R_CD2], chip[R_CD3]),
           chip[R_MPD], DivBytes(chip[R_MD1], chip[R_MD2], chip[R_MD3]),
           chip[R_EB4], chip[R_EB7], chip[R_EB13], chip[R_EB14], chip[R_EB18], chip[R_EB20], was, at)
  }

  function EdgeOf(chip: Image): Edge {
    Edge(chip[R_EB4], chip[R_EB7], chip[R_EB20])
  }

  function LatchOf(chip: Image): Latch {
    Latch(chip[R_EP2], chip[R_EP3], chip[R_EP4], chip[R_MPD], DivBytes(chip[R_MD1], chip[R_MD2], chip[R_MD3]),
          chip[R_EB14], chip[R_EB18], chip[R_EB21], chip[R_EB23])
  }

  function RejectionOf(chip: Image): Rejection {
    Rejection(chip[R_EP3], chip[R_EP4], chip[R_EP5], chip[R_CPD], DivBytes(chip[R_CD1], chip[R_CD2], chip[R_CD3]),
              chip[R_MPD], DivBytes(chip[R_MD1], chip[R_MD2], chip[R_MD3]))
  }

  /** What the bus carries when registers are written from `idx` on. */
  function Wire(idx: nat, bytes: seq<byte>): seq<Chunk>
    requires idx < 256
  {
    WriteChunks([ByteOf(idx)] + bytes, WriteEnd(1 + |bytes|))
  }

  /** The state of one tuner; `dev` is the bridge its bus hangs on. */
  class Fe {
    const role: Role
    const mode: Mode
    const maps: Layout
    const dev: Bridge
    const regs: array<byte>
    const rfCalState: array<RfCal>
    var calInitialized: bool
    var tmRfcal: u8
    ghost var latch: Latch
    /** The power measurements so far, and the calibrations launched. */
    ghost var log: seq<Sample>
    ghost var launches: seq<Launch>
    ghost var rejections: seq<Rejection>
    ghost var pulses: seq<Pulse>
    /** Of each band, where its record comes from; and the read that brought tmRfcal. */
    ghost var origins: seq<Origin>
    ghost var tmAt: nat

    ghost predicate Valid() {
      regs.Length == NUM_REGS && rfCalState.Length == 8
    }

    /** The sample is what the chip answered, and later than the one in front of it. */
    ghost predicate Truthful(k: int)
      requires 0 <= k < |log|
      reads `log, dev`asked
    {
      && log[k].at < dev.asked && (log[k].ok ==> log[k].power == dev.Said(log[k].at, R_EB10))
      && (k > 0 ==> log[k - 1].at < log[k].at)
    }

    ghost predicate Recorded()
      reads `log, dev`asked
    {
      forall k {:trigger Truthful(k)} | 0 <= k < |log| :: Truthful(k)
    }

    /** More reads do not make a record untrue. */
    twostate lemma StillRecorded()
      requires old(Recorded()) && log == old(log) && old(dev.asked) <= dev.asked
      ensures Recorded()
    {
      forall k | 0 <= k < |log| ensures Truthful(k) {
        assert old(Truthful(k));
      }
    }

    /** Of the registers that cannot be read back the shadow holds what the chip last took. */
    ghost predicate Consistent()
      requires Valid()
      reads regs, dev
    {
      dev.reliable ==> forall r | 0 <= r < NUM_REGS && WriteOnly(r) :: regs[r] == dev.Chip()[r]
    }

    /** tda18271_attach up to tda18271_init_regs: the version has been identified, the maps are assigned
        and the calibration state is copied from the template; the rest of the memory is not cleared. */
    constructor (role: Role, mode: Mode, maps: Layout, dev: Bridge, memory: Image, tm: u8)
      ensures Valid() && fresh(regs) && fresh(rfCalState)
      ensures this.role == role && this.mode == mode && this.maps == maps && this.dev == dev
      ensures !calInitialized && rfCalState[..] == RF_BAND_TEMPLATE && regs[..] == memory
      ensures log == [] && launches == [] && rejections == [] && pulses == []
      ensures origins == seq(8, _ => Origin([], [])) && tmAt == 0
    {
      this.role, this.mode, this.maps, this.dev := role, mode, maps, dev;
      regs := new byte[NUM_REGS](i requires 0 <= i < NUM_REGS => memory[i]);
      rfCalState := new RfCal[8](i requires 0 <= i < 8 => RF_BAND_TEMPLATE[i]);
      calInitialized := false;
      tmRfcal := tm;
      latch := Latch(0, 0, 0, 0, DivBytes(0, 0, 0), 0, 0, 0, 0);
      log, launches, rejections, pulses := [], [], [], [];
      origins := seq(8, _ => Origin([], []));
      tmAt := 0;
    }

    /** The message of tda18271_write_regs: the register index and the bytes from the shadow. */
    method FillMessage(idx: nat, len: nat) returns (buf: array<byte>)
      requires Valid() && idx + len <= NUM_REGS
      ensures buf.Length == NUM_REGS + 1 && buf[..len + 1] == [ByteOf(idx)] + regs[idx..idx + len]
    {
      buf := new byte[NUM_REGS + 1](_ => 0);
      var first := ByteOf(idx);
      buf[0] := first;
      var i := 1;
      while i <= len
        invariant 1 <= i <= len + 1
        invariant buf[..i] == [first] + regs[idx..idx + i - 1]
      {
        buf[i] := regs[idx - 1 + i];
        assert buf[..i + 1] == buf[..i] + [regs[idx + i - 1]];
        assert regs[idx..idx + i] == regs[idx..idx + i - 1] + [regs[idx + i - 1]];
        i := i + 1;
      }
    }

    /** The message on the bus: the chip has taken some prefix of it, and all of it on success. */
    method SendMessage(idx: nat, len: nat) returns (ret: int, ghost taken: nat)
      requires Valid() && idx + len <= NUM_REGS
      modifies dev`m
      ensures ret == 0 || ret == -1
      ensures dev.m.fault == old(dev.m.fault)
      ensures taken <= len + 1 && (ret == 0 ==> taken == len + 1)
      ensures dev.Chip() == Registers(old(dev.Chip()), ([ByteOf(idx)] + regs[idx..idx + len])[..taken])
      ensures ret == 0 ==> dev.m.chunks == old(dev.m.chunks) + Wire(idx, regs[idx..idx + len])
      ensures dev.reliable ==> ret == 0
    {
      var buf := FillMessage(idx, len);
      taken := len + 1;
      ret := dev.WriteI2c(buf[..len + 1]);
      if ret != 0 {
        taken :|
          && taken <= len + 1
          && dev.Chip() == Registers(old(dev.Chip()), ([ByteOf(idx)] + regs[idx..idx + len])[..taken]);
      }
    }

    /** tda18271_write_regs. After a failure the chip may have taken some of the bytes. */
    method WriteRegs(idx: nat, len: nat) returns (ret: int)
      requires Valid() && idx + len <= NUM_REGS
      modifies dev`m
      ensures ret == 0 || ret == -1
      ensures dev.m.fault == old(dev.m.fault)
      ensures forall r {:trigger dev.Chip()[r]} | 0 <= r < NUM_REGS ::
                if idx <= r < idx + len then
                  dev.Chip()[r] == regs[r] || (ret != 0 && dev.Chip()[r] == old(dev.Chip()[r]))
                else dev.Chip()[r] == old(dev.Chip()[r])
      ensures ret == 0 ==> dev.m.chunks == old(dev.m.chunks) + Wire(idx, regs[idx..idx + len])
      ensures dev.reliable ==> ret == 0
      ensures old(Consistent()) ==> Consistent()
    {
      ghost var taken;
      ret, taken := SendMessage(idx, len);
      MessageStores(old(dev.Chip()), idx, regs[idx..idx + len], taken);
    }

    ghost function Shadow(): Image
      requires Valid()
      reads regs
    {
      regs[..]
    }

    /** tda18271_read_regs: the first 16 registers. */
    method ReadRegs() returns (ret: int)
      requires Valid()
      modifies dev, regs
      ensures ret == 0 || ret == -1
      ensures dev.Chip() == old(dev.Chip()) && dev.m.fault == old(dev.m.fault)
      ensures dev.asked == old(dev.asked) + 1
      ensures dev.sight == dev.Chip() && dev.sightBefore == old(dev.sight)
      ensures forall r {:trigger regs[r]} | 0 <= r < 16 && !(R_EP2 <= r <= R_EP4) ::
                regs[r] == dev.Said(old(dev.asked), r) || (ret != 0 && regs[r] == old(regs[r]))
      ensures forall r {:trigger regs[r]} | R_EP2 <= r <= R_EP4 ::
                regs[r] == dev.Says(old(dev.asked), r, dev.Chip()) || (ret != 0 && regs[r] == old(regs[r]))
      ensures dev.honest && (ret == 0 || regs[R_EP3] != old(regs[R_EP3])) ==>
                regs[R_EP3] & 0xe0 == dev.Chip()[R_EP3] & 0xe0
      ensures KeepsBut(old(Shadow()), 0, 16)
      ensures dev.reliable ==> ret == 0
      ensures old(Recorded()) ==> Recorded()
      ensures old(Consistent()) ==> Consistent()
    {
      hide Recorded, Bridge.Reply, Bridge.Says;
      dev.ReplyHonest(dev.asked, dev.Chip());
      ret := dev.ReadI2c(regs, 16);
      if old(Recorded()) {
        StillRecorded();
      }
    }

    /** tda18271_read_extended: all registers but those that can only be written. When the transfer fails
        the rest of the local buffer is copied as it is. */
    method ReadExtended() returns (ret: int)
      requires Valid()
      modifies dev, regs
      ensures ret == 0 || ret == -1
      ensures dev.Chip() == old(dev.Chip()) && dev.m.fault == old(dev.m.fault)
      ensures dev.asked == old(dev.asked) + 1
      ensures dev.sight == dev.Chip() && dev.sightBefore == old(dev.sight)
      ensures ret == 0 ==> forall r {:trigger regs[r]} | 0 <= r < NUM_REGS && !(R_EP2 <= r <= R_EP4) && !WriteOnly(r) ::
                             regs[r] == dev.Said(old(dev.asked), r)
      ensures ret == 0 ==> forall r {:trigger regs[r]} | R_EP2 <= r <= R_EP4 ::
                             regs[r] == dev.Says(old(dev.asked), r, dev.Chip())
      ensures dev.honest && ret == 0 ==> regs[R_EP3] & 0xe0 == dev.Chip()[R_EP3] & 0xe0
      ensures forall r {:trigger regs[r]} | 0 <= r < NUM_REGS && WriteOnly(r) :: regs[r] == old(regs[r])
      ensures dev.reliable ==> ret == 0
    {
      var regdump := new byte[NUM_REGS];
      ghost var dump := dev.Reply(dev.asked, dev.Chip());
      dev.ReplyHonest(dev.asked, dev.Chip());
      ret := dev.ReadI2c(regdump, 39);
      assert forall r | 0 <= r < NUM_REGS :: Answer(dump, r) == dump[r];
      var i := 0;
      while i < NUM_REGS
        invariant 0 <= i <= NUM_REGS
        invariant forall r | 0 <= r < NUM_REGS :: regs[r] == if r < i && !WriteOnly(r) then regdump[r] else old(regs[r])
        modifies regs
      {
        if i != R_EB9 && i != R_EB16 && i != R_EB17 && i != R_EB19 && i != R_EB20 {
          regs[i] := regdump[i];
        }
        i := i + 1;
      }
    }

    /** The shadow of EP2 to EP4 is what the chip holds. */
    ghost predicate Echoed()
      requires Valid()
      reads regs, dev
    {
      regs[R_EP2] == dev.Chip()[R_EP2] && regs[R_EP3] == dev.Chip()[R_EP3] && regs[R_EP4] == dev.Chip()[R_EP4]
    }

    /** The same, when only register `r` of the answer matters. */
    method ReadBack(ghost r: nat) returns (ret: int)
      requires Valid() && r < NUM_REGS && !(R_EP2 <= r <= R_EP4) && !WriteOnly(r)
      modifies dev, regs
      ensures ret == 0 || ret == -1
      ensures dev.Chip() == old(dev.Chip()) && dev.m.fault == old(dev.m.fault)
      ensures dev.asked == old(dev.asked) + 1
      ensures ret == 0 ==> regs[r] == dev.Said(old(dev.asked), r)
      ensures dev.echo && ret == 0 ==> Echoed()
      ensures dev.reliable ==> ret == 0
      ensures old(Recorded()) ==> Recorded()
      ensures old(Consistent()) ==> Consistent()
    {
      ret := ReadExtended();
      if old(Recorded()) {
        StillRecorded();
      }
    }

    /** A power measurement is read. */
    method TakeSample() returns (ret: int)
      requires Valid()
      modifies dev, regs, `log
      ensures ret == 0 || ret == -1
      ensures dev.Chip() == old(dev.Chip()) && dev.m.fault == old(dev.m.fault)
      ensures dev.asked == old(dev.asked) + 1
      ensures log == old(log) + [Sample(old(dev.asked), ret == 0, regs[R_EB10], latch)]
      ensures ret == 0 ==> regs[R_EB10] == dev.Said(old(dev.asked), R_EB10)
      ensures dev.echo && ret == 0 ==> Echoed()
      ensures dev.reliable ==> ret == 0
      ensures old(Recorded()) ==> Recorded()
      ensures old(Consistent()) ==> Consistent()
    {
      ret := ReadBack(R_EB10);
      log := log + [Sample(old(dev.asked), ret == 0, regs[R_EB10], latch)];
      if old(Recorded()) {
        SampleRecorded();
      }
    }

    twostate lemma SampleRecorded()
      requires old(Recorded()) && dev.asked == old(dev.asked) + 1
      requires |log| == |old(log)| + 1 && log[..|old(log)|] == old(log)
      requires var s := log[|old(log)|];
               s.at == old(dev.asked) && (s.ok ==> s.power == dev.Said(s.at, R_EB10))
      ensures Recorded()
    {
      forall k | 0 <= k < |log| ensures Truthful(k) {
        if k < |old(log)| {
          assert old(Truthful(k)) && log[k] == old(log)[k];
        } else if k > 0 {
          assert old(Truthful(k - 1)) && log[k - 1] == old(log)[k - 1];
        }
        if 0 < k < |old(log)| { assert log[k - 1] == old(log)[k - 1]; }
      }
    }

    ghost function ChipLatch(): Latch
      reads dev
    {
      LatchOf(dev.Chip())
    }

    ghost function Past(): History
      reads `log, `launches, dev`asked
    {
      History(dev.asked, log, launches)
    }

    /** The write of EP2 launches a power measurement. */
    method LaunchMeasurement()
      requires Valid()
      modifies dev`m, `latch
      ensures dev.m.fault == old(dev.m.fault)
      ensures forall r {:trigger dev.Chip()[r]} | 0 <= r < NUM_REGS ::
                dev.Chip()[r] == old(dev.Chip()[r]) || (r == R_EP2 && dev.Chip()[r] == regs[r])
      ensures dev.reliable ==> latch == ChipLatch() && dev.Chip()[R_EP2] == regs[R_EP2]
      ensures old(Consistent()) ==> Consistent()
    {
      var _ := WriteRegs(R_EP2, 1);
      latch := ChipLatch();
    }

    ghost function ChipLaunch(was: Edge): Launch
      reads dev
    {
      LaunchOf(dev.Chip(), was, dev.asked)
    }

    /** The launch of a calibration has been written. */
    ghost method NoteLaunch(was: Edge)
      modifies `launches
      ensures launches == old(launches) + [ChipLaunch(was)]
    {
      launches := launches + [ChipLaunch(was)];
    }

    /** tda18271_charge_pump_source: bit 5 of EB4 or EB7. */
    method ChargePumpSource(pll: PllSide, force: bool) returns (ret: int)
      requires Valid()
      modifies dev`m, regs
      ensures forall r {:trigger regs[r]} | 0 <= r < NUM_REGS && r != ChargePump(pll) :: regs[r] == old(regs[r])
      ensures regs[ChargePump(pll)] == Forced(old(regs[ChargePump(pll)]), force)
      ensures regs[ChargePump(pll)] & 0x20 == 0x20 <==> force
      ensures regs[ChargePump(pll)] & 0xdf == old(regs[ChargePump(pll)]) & 0xdf
      ensures WroteOne(old(dev.Chip()), ret, ChargePump(pll))
      ensures ret == 0 || ret == -1
      ensures dev.m.fault == old(dev.m.fault)
      ensures old(Consistent()) ==> Consistent()
    {
      hide Forced, Wire;
      var cp := ChargePump(pll);
      ForcedBits(regs[cp], force);
      regs[cp] := Forced(regs[cp], force);
      ret := WriteRegs(cp, 1);
    }

    /** A write of one register has been attempted: the chip has taken it, or failed to. */
    ghost predicate WroteOne(before: Image, ret: int, r: int)
      requires Valid() && 0 <= r < NUM_REGS
      reads dev, regs
    {
      && (dev.reliable ==> ret == 0)
      && (forall k {:trigger dev.Chip()[k]} | 0 <= k < NUM_REGS && k != r :: dev.Chip()[k] == before[k])
      && (dev.Chip()[r] == regs[r] || (ret != 0 && dev.Chip()[r] == before[r]))
    }

    /** tda18271_set_standby_mode: bits 7 to 5 of EP3. */
    method SetStandbyMode(sm: bool, smLt: bool, smXt: bool) returns (ret: int)
      requires Valid()
      modifies dev`m, regs
      ensures forall r {:trigger regs[r]} | 0 <= r < NUM_REGS && r != R_EP3 :: regs[r] == old(regs[r])
      ensures regs[R_EP3] == Standby(old(regs[R_EP3]), sm, smLt, smXt)
      ensures (regs[R_EP3] & 0x80 == 0x80 <==> sm) && (regs[R_EP3] & 0x40 == 0x40 <==> smLt)
      ensures (regs[R_EP3] & 0x20 == 0x20 <==> smXt) && regs[R_EP3] & 0x1f == old(regs[R_EP3]) & 0x1f
      ensures WroteOne(old(dev.Chip()), ret, R_EP3)
      ensures ret == 0 || ret == -1
      ensures dev.m.fault == old(dev.m.fault)
      ensures old(Consistent()) ==> Consistent()
    {
      StandbyPacked(regs[R_EP3], sm, smLt, smXt);
      regs[R_EP3] := Standby(regs[R_EP3], sm, smLt, smXt);
      ret := WriteRegs(R_EP3, 1);
    }

    /** The chip holds the whole shadow. */
    ghost predicate Flushed()
      requires Valid()
      reads regs, dev
    {
      forall r {:trigger dev.Chip()[r]} | 0 <= r < NUM_REGS :: dev.Chip()[r] == regs[r]
    }

    /** The chip holds the shadow outside [from, to). */
    ghost predicate FlushedBut(from: int, to: int)
      requires Valid()
      reads regs, dev
    {
      forall r {:trigger dev.Chip()[r]} | 0 <= r < NUM_REGS && !(from <= r < to) :: dev.Chip()[r] == regs[r]
    }

    /** The shadow outside [from, to) is as it was. */
    ghost predicate KeepsBut(before: Image, from: int, to: int)
      requires Valid()
      reads regs
    {
      forall r {:trigger regs[r]} | 0 <= r < NUM_REGS && !(from <= r < to) :: regs[r] == before[r]
    }

    /** On a C2 the main PLL's pump has been forced and released once. */
    ghost predicate Released(before: seq<Pulse>)
      reads `pulses
    {
      && before <= pulses && |pulses| == |before| + (if maps.id == C2 then 1 else 0)
      && (dev.reliable && maps.id == C2 ==> Pulsed(pulses[|before|], MainSide))
    }

    /** tda18271_init_regs. No transfer is checked, so a failed one only leaves the chip behind. */
    method InitRegs() returns (ret: int)
      requires Valid()
      modifies dev`m, regs, `rejections, `pulses
      ensures Released(old(pulses))
      ensures ret == 0
      ensures forall r {:trigger regs[r]} | 0 <= r < NUM_REGS :: regs[r] == Started(maps.id, Initial(maps.id), r)
      ensures dev.reliable ==> Flushed() && rejections == old(rejections) + REJECTIONS
      ensures dev.m.fault == old(dev.m.fault)
      ensures dev.Chip()[R_EP3] == old(dev.Chip()[R_EP3]) || dev.Chip()[R_EP3] == 0x16 || dev.Chip()[R_EP3] == 0x1f
    {
      var initial := Initial(maps.id);
      assert initial[R_EP3] == 0x16 && initial[R_EB4] == 0x41;
      StartAll(initial);
      RejectImages(initial);
      ret := 0;
    }

    /** The first write of all registers, and the gain set-up. */
    method StartAll(initial: Image)
      requires Valid()
      modifies dev`m, regs
      ensures forall r {:trigger regs[r]} | 0 <= r < NUM_REGS ::
                regs[r] == if r == R_EB17 then 0x4c else if r == R_EB20 && maps.id == C1 then 0xec else initial[r]
      ensures dev.reliable ==> Flushed()
      ensures dev.m.fault == old(dev.m.fault)
      ensures dev.Chip()[R_EP3] == old(dev.Chip()[R_EP3]) || dev.Chip()[R_EP3] == initial[R_EP3]
    {
      hide Wire;
      forall r | 0 <= r < NUM_REGS {
        regs[r] := initial[r];
      }
      var _ := WriteRegs(0x00, NUM_REGS);
      StepGain(R_EB17, 0x00, 0x03, 0x43, 0x4c);
      if maps.id == C1 {
        StepGain(R_EB20, 0xa0, 0xa7, 0xe7, 0xec);
      }
    }

    /** Four values written one after the other to a gain register. */
    method StepGain(r: nat, v0: byte, v1: byte, v2: byte, v3: byte)
      requires Valid() && r < NUM_REGS && r != R_EP3 && (dev.reliable ==> Flushed())
      modifies dev`m, regs
      ensures regs[r] == v3 && KeepsBut(old(Shadow()), r, r + 1)
      ensures dev.reliable ==>
                && Flushed()
                && dev.m.chunks == old(dev.m.chunks) + Wire(r, [v0]) + Wire(r, [v1]) + Wire(r, [v2]) + Wire(r, [v3])
      ensures dev.m.fault == old(dev.m.fault) && dev.Chip()[R_EP3] == old(dev.Chip()[R_EP3])
    {
      Step(r, v0);
      Step(r, v1);
      Step(r, v2);
      Step(r, v3);
    }

    /** The image rejection calibrations, and the return to normal mode. */
    method RejectImages(ghost initial: Image)
      requires Valid() && (dev.reliable ==> Flushed()) && regs[R_EB4] == 0x41
      requires forall r {:trigger regs[r]} | 0 <= r < NUM_REGS ::
                 regs[r] == if r == R_EB17 then 0x4c else if r == R_EB20 && maps.id == C1 then 0xec else initial[r]
      modifies dev`m, regs, `rejections, `pulses
      ensures Released(old(pulses))
      ensures forall r {:trigger regs[r]} | 0 <= r < NUM_REGS :: regs[r] == Started(maps.id, initial, r)
      ensures dev.reliable ==> Flushed() && rejections == old(rejections) + REJECTIONS
      ensures dev.m.fault == old(dev.m.fault)
      ensures dev.Chip()[R_EP3] == old(dev.Chip()[R_EP3]) || dev.Chip()[R_EP3] == 0x1f
    {
      hide Flushed, Started, RejectionOf;
      ghost var before, tried := Shadow(), rejections;
      LowBand();
      MidBand();
      HighBand();
      assert tried + LOW_BAND + MID_BAND + HIGH_BAND == tried + REJECTIONS;
      ghost var tuned := Shadow();
      Resume();
      StartedAll(maps.id, initial, before, tuned, Shadow());
    }

    /** Return to normal mode, and synchronization. */
    method Resume()
      requires Valid() && (dev.reliable ==> Flushed())
      modifies dev`m, regs
      ensures dev.reliable ==>
                && Flushed()
                && dev.m.chunks == old(dev.m.chunks) + Wire(R_EP4, [0x64]) + Wire(R_EP1, [regs[R_EP1]])
      ensures dev.m.fault == old(dev.m.fault) && dev.Chip()[R_EP3] == old(dev.Chip()[R_EP3])
      ensures regs[R_EP4] == 0x64 && KeepsBut(old(Shadow()), R_EP4, R_EP5)
    {
      Step(R_EP4, 0x64);
      assert regs[R_EP1..R_EP1 + 1] == [regs[R_EP1]];
      var _ := WriteRegs(R_EP1, 1);
      assert dev.Chip()[R_EP3] == old(dev.Chip()[R_EP3]);
    }

    /** Sets one register and writes it, whatever comes of it. */
    method Step(r: nat, val: byte)
      requires Valid() && r < NUM_REGS
      modifies dev`m, regs
      ensures regs[r] == val && KeepsBut(old(Shadow()), r, r + 1)
      ensures dev.reliable ==> dev.Chip()[r] == val && dev.m.chunks == old(dev.m.chunks) + Wire(r, [val])
      ensures forall k {:trigger dev.Chip()[k]} | 0 <= k < NUM_REGS ::
                dev.Chip()[k] == old(dev.Chip()[k]) || (k == r && dev.Chip()[k] == val)
      ensures dev.m.fault == old(dev.m.fault)
      ensures old(Consistent()) ==> Consistent()
    {
      regs[r] := val;
      assert regs[r..r + 1] == [val];
      var _ := WriteRegs(r, 1);
    }

    /** Clears bits of one register of the shadow. */
    method ClearBits(r: nat, mask: byte)
      requires Valid() && r < NUM_REGS
      modifies regs
      ensures regs[r] == old(regs[r]) & !mask && regs[r] & mask == 0 && KeepsBut(old(Shadow()), r, r + 1)
    {
      regs[r] := regs[r] & !mask;
    }

    method SetBits(r: nat, mask: byte)
      requires Valid() && r < NUM_REGS
      modifies regs
      ensures regs[r] == old(regs[r]) | mask && regs[r] & mask == mask && KeepsBut(old(Shadow()), r, r + 1)
    {
      regs[r] := regs[r] | mask;
    }

    /** Clears bits of one register and writes it. */
    method Clear(r: nat, mask: byte)
      requires Valid() && r < NUM_REGS
      modifies dev`m, regs
      ensures regs[r] == old(regs[r]) & !mask && regs[r] & mask == 0 && KeepsBut(old(Shadow()), r, r + 1)
      ensures dev.reliable ==> dev.Chip()[r] == regs[r]
      ensures forall k {:trigger dev.Chip()[k]} | 0 <= k < NUM_REGS ::
                dev.Chip()[k] == old(dev.Chip()[k]) || (k == r && dev.Chip()[k] == regs[r])
      ensures dev.m.fault == old(dev.m.fault)
      ensures old(Consistent()) ==> Consistent()
    {
      BitsCleared(regs[r], mask);
      Step(r, regs[r] & !mask);
    }

    /** Sets bits of one register and writes it. */
    method Set(r: nat, mask: byte)
      requires Valid() && r < NUM_REGS
      modifies dev`m, regs
      ensures regs[r] == old(regs[r]) | mask && regs[r] & mask == mask && KeepsBut(old(Shadow()), r, r + 1)
      ensures dev.reliable ==> dev.Chip()[r] == regs[r]
      ensures forall k {:trigger dev.Chip()[k]} | 0 <= k < NUM_REGS ::
                dev.Chip()[k] == old(dev.Chip()[k]) || (k == r && dev.Chip()[k] == regs[r])
      ensures dev.m.fault == old(dev.m.fault)
      ensures old(Consistent()) ==> Consistent()
    {
      BitsSet(regs[r], mask);
      Step(r, regs[r] | mask);
    }

    /** EP3 to MD3 are written. */
    method SendTuning()
      requires Valid() && (dev.reliable ==> FlushedBut(R_EP3, R_EB1))
      modifies dev`m
      ensures dev.reliable ==> Flushed()
      ensures dev.m.fault == old(dev.m.fault)
      ensures dev.Chip()[R_EP3] == old(dev.Chip()[R_EP3]) || dev.Chip()[R_EP3] == regs[R_EP3]
    {
      var _ := WriteRegs(R_EP3, 11);
    }

    /** A step of the image rejection calibration has been launched. */
    ghost method NoteRejection()
      modifies `rejections
      ensures rejections == old(rejections) + [RejectionOf(dev.Chip())]
    {
      rejections := rejections + [RejectionOf(dev.Chip())];
    }

    /** The write of EP1 launches the detector. */
    method LaunchDetector()
      requires Valid() && (dev.reliable ==> Flushed())
      modifies dev`m, `rejections
      ensures dev.reliable ==>
                && Flushed() && rejections == old(rejections) + [RejectionOf(Shadow())]
                && dev.m.chunks == old(dev.m.chunks) + Wire(R_EP1, [regs[R_EP1]])
      ensures dev.m.fault == old(dev.m.fault) && dev.Chip()[R_EP3] == old(dev.Chip()[R_EP3])
    {
      assert regs[R_EP1..R_EP1 + 1] == [regs[R_EP1]];
      var _ := WriteRegs(R_EP1, 1);
      NoteRejection();
    }

    /** The registers up to CD3 are written, and the optimization is launched. */
    method Optimize()
      requires Valid() && (dev.reliable ==> FlushedBut(R_EP3, R_MPD))
      modifies dev`m, `rejections
      ensures dev.reliable ==>
                && Flushed() && rejections == old(rejections) + [RejectionOf(Shadow())]
                && dev.m.chunks == old(dev.m.chunks) + Wire(R_EP3, regs[R_EP3..R_MPD]) + Wire(R_EP2, [regs[R_EP2]])
      ensures dev.m.fault == old(dev.m.fault)
      ensures dev.Chip()[R_EP3] == old(dev.Chip()[R_EP3]) || dev.Chip()[R_EP3] == regs[R_EP3]
    {
      var _ := WriteRegs(R_EP3, 7);
      assert regs[R_EP2..R_EP2 + 1] == [regs[R_EP2]];
      var _ := WriteRegs(R_EP2, 1);
      NoteRejection();
    }

    /** A charge pump has been released. */
    ghost method NotePulse(pll: PllSide, was: byte)
      modifies `pulses
      ensures pulses == old(pulses) + [Pulse(pll, was, dev.Chip()[ChargePump(pll)], dev.Chip()[R_EP3])]
    {
      pulses := pulses + [Pulse(pll, was, dev.Chip()[ChargePump(pll)], dev.Chip()[R_EP3])];
    }

    /** The main PLL's charge pump is forced on and off again. */
    method PumpMain()
      requires Valid() && (dev.reliable ==> Flushed()) && regs[R_EB4] == 0x41
      modifies dev`m, regs, `pulses
      ensures dev.reliable ==> Flushed()
      ensures dev.m.fault == old(dev.m.fault)
      ensures Shadow() == old(Shadow())
      ensures dev.Chip()[R_EP3] == old(dev.Chip()[R_EP3])
      ensures maps.id == C2 ==> Released(old(pulses))
    {
      var _ := ChargePumpSource(MainSide, true);
      ghost var was := dev.Chip()[R_EB4];
      var _ := ChargePumpSource(MainSide, false);
      NotePulse(MainSide, was);
    }

    method TuneLow()
      requires Valid()
      modifies regs
      ensures RejectionOf(Shadow()) == LOW_BAND[0] && regs[R_EP3] == 0x1f && KeepsBut(old(Shadow()), R_EP3, R_EB1)
    {
      regs[R_EP3] := 0x1f;
      regs[R_EP4] := 0x66;
      regs[R_EP5] := 0x81;
      regs[R_CPD] := 0xcc;
      regs[R_CD1] := 0x6c;
      regs[R_CD2] := 0x00;
      regs[R_CD3] := 0x00;
      regs[R_MPD] := 0xcd;
      regs[R_MD1] := 0x77;
      regs[R_MD2] := 0x08;
      regs[R_MD3] := 0x00;
    }

    /** Image rejection calibration of the low band. */
    method LowBand()
      requires Valid() && (dev.reliable ==> Flushed()) && regs[R_EB4] == 0x41
      modifies dev`m, regs, `rejections, `pulses
      ensures Released(old(pulses))
      ensures dev.reliable ==> Flushed() && rejections == old(rejections) + LOW_BAND
      ensures dev.m.fault == old(dev.m.fault)
      ensures dev.Chip()[R_EP3] == old(dev.Chip()[R_EP3]) || dev.Chip()[R_EP3] == 0x1f
      ensures RejectionOf(Shadow()) == LOW_BAND[1] && KeepsBut(old(Shadow()), R_EP3, R_EB1)
    {
      hide RejectionOf;
      TuneLow();
      SendTuning();
      if maps.id == C2 {
        PumpMain();
      }
      LaunchDetector();
      OptimizeLow();
    }

    method OptimizeLow()
      requires Valid() && (dev.reliable ==> Flushed()) && RejectionOf(Shadow()) == LOW_BAND[0]
      modifies dev`m, regs, `rejections
      ensures dev.reliable ==> Flushed() && rejections == old(rejections) + [LOW_BAND[1]]
      ensures dev.m.fault == old(dev.m.fault)
      ensures dev.Chip()[R_EP3] == old(dev.Chip()[R_EP3]) || dev.Chip()[R_EP3] == 0x1f
      ensures RejectionOf(Shadow()) == LOW_BAND[1] && KeepsBut(old(Shadow()), R_EP5, R_CD3)
    {
      regs[R_EP5] := 0x85;
      regs[R_CPD] := 0xcb;
      regs[R_CD1] := 0x66;
      regs[R_CD2] := 0x70;
      Optimize();
    }

    method TuneMid()
      requires Valid() && RejectionOf(Shadow()) == LOW_BAND[1]
      modifies regs
      ensures RejectionOf(Shadow()) == MID_BAND[0] && KeepsBut(old(Shadow()), R_EP5, R_MD3)
    {
      regs[R_EP5] := 0x82;
      regs[R_CPD] := 0xa8;
      regs[R_CD2] := 0x00;
      regs[R_MPD] := 0xa9;
      regs[R_MD1] := 0x73;
      regs[R_MD2] := 0x1a;
    }

    /** Image rejection calibration of the mid band. */
    method MidBand()
      requires Valid() && (dev.reliable ==> Flushed()) && RejectionOf(Shadow()) == LOW_BAND[1]
      modifies dev`m, regs, `rejections
      ensures dev.reliable ==> Flushed() && rejections == old(rejections) + MID_BAND
      ensures dev.m.fault == old(dev.m.fault)
      ensures dev.Chip()[R_EP3] == old(dev.Chip()[R_EP3]) || dev.Chip()[R_EP3] == 0x1f
      ensures RejectionOf(Shadow()) == MID_BAND[1] && KeepsBut(old(Shadow()), R_EP5, R_MD3)
    {
      TuneMid();
      SendTuning();
      LaunchDetector();
      OptimizeMid();
    }

    method OptimizeMid()
      requires Valid() && (dev.reliable ==> Flushed()) && RejectionOf(Shadow()) == MID_BAND[0]
      modifies dev`m, regs, `rejections
      ensures dev.reliable ==> Flushed() && rejections == old(rejections) + [MID_BAND[1]]
      ensures dev.m.fault == old(dev.m.fault)
      ensures dev.Chip()[R_EP3] == old(dev.Chip()[R_EP3]) || dev.Chip()[R_EP3] == 0x1f
      ensures RejectionOf(Shadow()) == MID_BAND[1] && KeepsBut(old(Shadow()), R_EP5, R_CD3)
    {
      regs[R_EP5] := 0x86;
      regs[R_CPD] := 0xa8;
      regs[R_CD1] := 0x66;
      regs[R_CD2] := 0xa0;
      Optimize();
    }

    method TuneHigh()
      requires Valid() && RejectionOf(Shadow()) == MID_BAND[1]
      modifies regs
      ensures RejectionOf(Shadow()) == HIGH_BAND[0] && KeepsBut(old(Shadow()), R_EP5, R_MD3)
    {
      regs[R_EP5] := 0x83;
      regs[R_CPD] := 0x98;
      regs[R_CD1] := 0x65;
      regs[R_CD2] := 0x00;
      regs[R_MPD] := 0x99;
      regs[R_MD1] := 0x71;
      regs[R_MD2] := 0xcd;
    }

    /** Image rejection calibration of the high band. */
    method HighBand()
      requires Valid() && (dev.reliable ==> Flushed()) && RejectionOf(Shadow()) == MID_BAND[1]
      modifies dev`m, regs, `rejections
      ensures dev.reliable ==> Flushed() && rejections == old(rejections) + HIGH_BAND
      ensures dev.m.fault == old(dev.m.fault)
      ensures dev.Chip()[R_EP3] == old(dev.Chip()[R_EP3]) || dev.Chip()[R_EP3] == 0x1f
      ensures RejectionOf(Shadow()) == HIGH_BAND[1] && KeepsBut(old(Shadow()), R_EP5, R_MD3)
    {
      TuneHigh();
      SendTuning();
      LaunchDetector();
      OptimizeHigh();
    }

    method OptimizeHigh()
      requires Valid() && (dev.reliable ==> Flushed()) && RejectionOf(Shadow()) == HIGH_BAND[0]
      modifies dev`m, regs, `rejections
      ensures dev.reliable ==> Flushed() && rejections == old(rejections) + [HIGH_BAND[1]]
      ensures dev.m.fault == old(dev.m.fault)
      ensures dev.Chip()[R_EP3] == old(dev.Chip()[R_EP3]) || dev.Chip()[R_EP3] == 0x1f
      ensures RejectionOf(Shadow()) == HIGH_BAND[1] && KeepsBut(old(Shadow()), R_EP5, R_CD3)
    {
      regs[R_EP5] := 0x87;
      regs[R_CD1] := 0x65;
      regs[R_CD2] := 0x50;
      Optimize();
    }

    /** A bit field of a register takes the bits of `val` in its place. */
    method SetField(r: nat, mask: byte, val: byte)
      requires Valid() && r < NUM_REGS
      modifies regs
      ensures regs[r] & mask == mask & val && regs[r] & !mask == old(regs[r]) & !mask
      ensures KeepsBut(old(Shadow()), r, r + 1)
    {
      FieldBits(regs[r], mask, val);
      regs[r] := (regs[r] & !mask) | (mask & val);
    }

    /** tda18271_calc_bp_filter: bits 2 to 0 of EP1. */
    method CalcBpFilter(freq: u32) returns (ret: int)
      requires Valid()
      modifies regs
      ensures ret == if InRange(maps.bpFilter, freq) then 0 else -ERANGE
      ensures KeepsBut(old(Shadow()), R_EP1, R_EP1 + 1) && regs[R_EP1] & 0xf8 == old(regs[R_EP1]) & 0xf8
      ensures if ret < 0 then regs[R_EP1] == old(regs[R_EP1])
              else regs[R_EP1] & 0x07 == 0x07 & maps.bpFilter[Slot(maps.bpFilter, freq)].val
      ensures old(Consistent()) ==> Consistent()
    {
      var val;
      ret, val := LookupMap(maps.bpFilter, freq);
      if ret < 0 {
        return;
      }
      SetField(R_EP1, 0x07, val);
    }

    /** tda18271_calc_km: bits 6 to 2 of EB13. */
    method CalcKm(freq: u32) returns (ret: int)
      requires Valid()
      modifies regs
      ensures ret == if InRange(maps.rfCalKmco, freq) then 0 else -ERANGE
      ensures KeepsBut(old(Shadow()), R_EB13, R_EB13 + 1) && regs[R_EB13] & 0x83 == old(regs[R_EB13]) & 0x83
      ensures if ret < 0 then regs[R_EB13] == old(regs[R_EB13])
              else regs[R_EB13] & 0x7c == 0x7c & maps.rfCalKmco[Slot(maps.rfCalKmco, freq)].val
      ensures old(Consistent()) ==> Consistent()
    {
      var val;
      ret, val := LookupMap(maps.rfCalKmco, freq);
      if ret < 0 {
        return;
      }
      SetField(R_EB13, 0x7c, val);
    }

    /** tda18271_calc_rf_band: bits 7 to 5 of EP2. */
    method CalcRfBand(freq: u32) returns (ret: int)
      requires Valid()
      modifies regs
      ensures ret == if InRange(maps.rfBand, freq) then 0 else -ERANGE
      ensures KeepsBut(old(Shadow()), R_EP2, R_EP2 + 1) && regs[R_EP2] & 0x1f == old(regs[R_EP2]) & 0x1f
      ensures if ret < 0 then regs[R_EP2] == old(regs[R_EP2])
              else regs[R_EP2] & 0xe0 == 0xe0 & (maps.rfBand[Slot(maps.rfBand, freq)].val << 5)
      ensures old(Consistent()) ==> Consistent()
    {
      var val;
      ret, val := LookupMap(maps.rfBand, freq);
      if ret < 0 {
        return;
      }
      SetField(R_EP2, 0xe0, (val << 5));
    }

    /** tda18271_calc_gain_taper: bits 4 to 0 of EP2. */
    method CalcGainTaper(freq: u32) returns (ret: int)
      requires Valid()
      modifies regs
      ensures ret == if InRange(maps.gainTaper, freq) then 0 else -ERANGE
      ensures KeepsBut(old(Shadow()), R_EP2, R_EP2 + 1) && regs[R_EP2] & 0xe0 == old(regs[R_EP2]) & 0xe0
      ensures if ret < 0 then regs[R_EP2] == old(regs[R_EP2])
              else regs[R_EP2] & 0x1f == 0x1f & maps.gainTaper[Slot(maps.gainTaper, freq)].val
      ensures old(Consistent()) ==> Consistent()
    {
      var val;
      ret, val := LookupMap(maps.gainTaper, freq);
      if ret < 0 {
        return;
      }
      SetField(R_EP2, 0x1f, val);
    }

    /** tda18271_calc_ir_measure: bits 2 to 0 of EP5. */
    method CalcIrMeasure(freq: u32) returns (ret: int)
      requires Valid()
      modifies regs
      ensures ret == if InRange(maps.irMeasure, freq) then 0 else -ERANGE
      ensures KeepsBut(old(Shadow()), R_EP5, R_EP5 + 1) && regs[R_EP5] & 0xf8 == old(regs[R_EP5]) & 0xf8
      ensures if ret < 0 then regs[R_EP5] == old(regs[R_EP5])
              else regs[R_EP5] & 0x07 == 0x07 & maps.irMeasure[Slot(maps.irMeasure, freq)].val
      ensures old(Consistent()) ==> Consistent()
    {
      var val;
      ret, val := LookupMap(maps.irMeasure, freq);
      if ret < 0 {
        return;
      }
      SetField(R_EP5, 0x07, val);
    }

    /** tda18271_calc_rf_cal: EB14, unless the frequency is out of range. */
    method CalcRfCal(freq: u32) returns (ret: int)
      requires Valid()
      modifies regs
      ensures ret == if InRange(maps.rfCal, freq) then 0 else -ERANGE
      ensures forall r {:trigger regs[r]} | 0 <= r < NUM_REGS && r != R_EB14 :: regs[r] == old(regs[r])
      ensures regs[R_EB14] == if ret < 0 then old(regs[R_EB14]) else maps.rfCal[Slot(maps.rfCal, freq)].val
      ensures old(Consistent()) ==> Consistent()
    {
      var val;
      ret, val := LookupMap(maps.rfCal, freq);
      if ret < 0 {
        return;
      }
      regs[R_EB14] := val;
    }

    /** tda18271_calc_main_pll. */
    method CalcMainPll(freq: u32) returns (ret: int)
      requires Valid()
      modifies regs
      ensures ret == if InRange(maps.mainPll, freq) then 0 else -ERANGE
      ensures forall r {:trigger regs[r]} | 0 <= r < NUM_REGS && (ret < 0 || !(R_MPD <= r <= R_MD3)) ::
                regs[r] == old(regs[r])
      ensures ret == 0 ==>
                && MainPllSet(Shadow(), maps, freq) && regs[R_MPD] & 0x80 == 0x00
                && var d := maps.mainPll[Slot(maps.mainPll, freq)].val.d;
                   Divides(regs[R_MD1], regs[R_MD2], regs[R_MD3], d, freq / 1000)
      ensures old(Consistent()) ==> Consistent()
    {
      hide Divides, Pack, DivWord;
      var pd, d;
      ret, pd, d := LookupPllMap(maps.mainPll, freq);
      if ret < 0 {
        return;
      }
      PllDivides(maps.mainPll, freq);
      StorePll(R_MPD, 0x7f & pd, Pack(DivWord(d, freq)));
    }

    /** tda18271_calc_cal_pll. */
    method CalcCalPll(freq: u32) returns (ret: int)
      requires Valid()
      modifies regs
      ensures ret == if InRange(maps.calPll, freq) then 0 else -ERANGE
      ensures forall r {:trigger regs[r]} | 0 <= r < NUM_REGS && (ret < 0 || !(R_CPD <= r <= R_CD3)) ::
                regs[r] == old(regs[r])
      ensures ret == 0 ==>
                && CalPllSet(Shadow(), maps, freq)
                && var d := maps.calPll[Slot(maps.calPll, freq)].val.d;
                   Divides(regs[R_CD1], regs[R_CD2], regs[R_CD3], d, freq / 1000)
      ensures old(Consistent()) ==> Consistent()
    {
      hide Divides, Pack, DivWord;
      var pd, d;
      ret, pd, d := LookupPllMap(maps.calPll, freq);
      if ret < 0 {
        return;
      }
      PllDivides(maps.calPll, freq);
      StorePll(R_CPD, pd, Pack(DivWord(d, freq)));
    }

    /** The post-divider and the three divider bytes of one PLL. */
    method StorePll(at: nat, pd: byte, div: DivBytes)
      requires Valid() && at + 4 <= NUM_REGS
      modifies regs
      ensures forall r {:trigger regs[r]} | 0 <= r < NUM_REGS && !(at <= r < at + 4) :: regs[r] == old(regs[r])
      ensures regs[at] == pd && DivBytes(regs[at + 1], regs[at + 2], regs[at + 3]) == div
    {
      regs[at] := pd;
      regs[at + 1] := div.b1;
      regs[at + 2] := div.b2;
      regs[at + 3] := div.b3;
    }
  }

  lemma BitsCleared(b: byte, mask: byte)
    ensures (b & !mask) & mask == 0
  {
  }

  lemma BitsSet(b: byte, mask: byte)
    ensures (b | mask) & mask == mask
  {
  }

  lemma FieldBits(b: byte, mask: byte, val: byte)
    ensures ((b & !mask) | (mask & val)) & mask == mask & val
    ensures ((b & !mask) | (mask & val)) & !mask == b & !mask
  {
  }

  /** The band-pass filter is that of `freq`, if it is in range of the table. */
  ghost predicate BpSelected(ep1: byte, maps: AnyLayout, freq: u32)
    requires |maps.bpFilter| >= 2
  {
    InRange(maps.bpFilter, freq) ==> ep1 & 0x07 == 0x07 & maps.bpFilter[Slot(maps.bpFilter, freq)].val
  }

  /** Band-pass filter, RF band and gain taper are those of `freq`. */
  ghost predicate BandSelected(ep1: byte, ep2: byte, maps: AnyLayout, freq: u32)
    requires |maps.bpFilter| >= 2 && |maps.rfBand| >= 2 && |maps.gainTaper| >= 2
  {
    BpSelected(ep1, maps, freq) && TaperSelected(ep2, maps, freq)
  }

  /** RF band and gain taper, both in EP2. */
  ghost predicate TaperSelected(ep2: byte, maps: AnyLayout, freq: u32)
    requires |maps.rfBand| >= 2 && |maps.gainTaper| >= 2
  {
    && (InRange(maps.rfBand, freq) ==> ep2 & 0xe0 == 0xe0 & (maps.rfBand[Slot(maps.rfBand, freq)].val << 5))
    && (InRange(maps.gainTaper, freq) ==> ep2 & 0x1f == 0x1f & maps.gainTaper[Slot(maps.gainTaper, freq)].val)
  }

  /** K and M. */
  ghost predicate KmSelected(eb13: byte, maps: AnyLayout, freq: u32)
    requires |maps.rfCalKmco| >= 2
  {
    InRange(maps.rfCalKmco, freq) ==> eb13 & 0x7c == 0x7c & maps.rfCalKmco[Slot(maps.rfCalKmco, freq)].val
  }

  /** The image rejection measurement range. */
  ghost predicate IrSelected(ep5: byte, maps: AnyLayout, freq: u32)
    requires |maps.irMeasure| >= 2
  {
    InRange(maps.irMeasure, freq) ==> ep5 & 0x07 == 0x07 & maps.irMeasure[Slot(maps.irMeasure, freq)].val
  }

  /** A post-divider register and three divider bytes stand for `freq` on the main PLL; bit 7 is not its. */
  ghost predicate MainPll(mpd: byte, bytes: DivBytes, maps: AnyLayout, freq: u32)
    requires |maps.mainPll| >= 2
  {
    var div := maps.mainPll[Slot(maps.mainPll, freq)].val;
    mpd & 0x7f == 0x7f & div.pd && bytes == Pack(DivWord(div.d, freq))
  }

  ghost predicate MainPllSet(rs: Image, maps: AnyLayout, freq: u32)
    requires |maps.mainPll| >= 2
  {
    MainPll(rs[R_MPD], DivBytes(rs[R_MD1], rs[R_MD2], rs[R_MD3]), maps, freq)
  }

  ghost predicate CalPll(cpd: byte, bytes: DivBytes, maps: AnyLayout, freq: u32)
    requires |maps.calPll| >= 2
  {
    var div := maps.calPll[Slot(maps.calPll, freq)].val;
    cpd == div.pd && bytes == Pack(DivWord(div.d, freq))
  }

  ghost predicate CalPllSet(rs: Image, maps: AnyLayout, freq: u32)
    requires |maps.calPll| >= 2
  {
    CalPll(rs[R_CPD], DivBytes(rs[R_CD1], rs[R_CD2], rs[R_CD3]), maps, freq)
  }

  /** What is stored for a PLL stands for one frequency only, to the kHz. */
  lemma MainPllTells(mpd: byte, bytes: DivBytes, maps: Layout, f: u32, g: u32)
    requires InRange(maps.mainPll, f) && InRange(maps.mainPll, g)
    requires MainPll(mpd, bytes, maps, f) && MainPll(mpd, bytes, maps, g)
    ensures f / 1000 == g / 1000
  {
    var i, j := Slot(maps.mainPll, f), Slot(maps.mainPll, g);
    assert LowRow(maps.mainPll[i]) && LowRow(maps.mainPll[j]);
    LowBits(maps.mainPll[i].val.pd, maps.mainPll[j].val.pd);
    PllInjective(maps.mainPll, f, g);
  }

  lemma CalPllTells(cpd: byte, bytes: DivBytes, maps: Layout, f: u32, g: u32)
    requires InRange(maps.calPll, f) && InRange(maps.calPll, g)
    requires CalPll(cpd, bytes, maps, f) && CalPll(cpd, bytes, maps, g)
    ensures f / 1000 == g / 1000
  {
    PllInjective(maps.calPll, f, g);
  }

  /** The effect of the first `j` bytes of a message on each register. */
  lemma MessageStores(base: Image, idx: nat, data: seq<byte>, j: nat)
    requires idx + |data| <= NUM_REGS && j <= |data| + 1
    ensures var after := Registers(base, ([ByteOf(idx)] + data)[..j]);
            forall r | 0 <= r < NUM_REGS :: after[r] == if idx <= r < idx + j - 1 then data[r - idx] else base[r]
  {
    if j > 0 {
      assert ([ByteOf(idx)] + data)[..j] == [ByteOf(idx)] + data[..j - 1];
      RegistersSet(base, idx, data[..j - 1]);
    }
  }
}
