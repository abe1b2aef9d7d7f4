/** The tracking-filter calibration of the C2 in src/tda18271-fe.c. */
module Calibration {
  import opened Words
  import opened Tables
  import opened Lookup
  import opened Pll
  import opened I2c
  import opened Bands
  import opened Tuner

  // ---------- The power scan ----------

  /** The detector reports the target power. */
  predicate Hit(power: byte, target: byte) {
    power & 0x3f >= target
  }

  /** How far from the starting frequency reading `k` is made, if `n` steps of 200 Hz are allowed on
      each side: a first look, then up from 0, then down. */
  function Offset(n: nat, k: nat): int {
    if k == 0 then 0 else if k <= n + 1 then 200 * (k - 1) else -200 * (k - n - 1)
  }

  /** The last step down is made even if none is allowed. */
  function MaxReadings(n: nat): nat {
    n + 2 + if n == 0 then 1 else n
  }

  /** The outcome of a scan as a function of the samples: the first hit wins, and the scan gives up only
      after all of them. It fails when a reading cannot be made. */
  ghost predicate Scanned(c: CidTarget, freqIn: u32, samples: seq<Sample>, bcal: int, freqOut: u32) {
    var n := c.limit / 200;
    && 1 <= |samples| <= MaxReadings(n)
    && (forall k | 0 <= k < |samples| - 1 :: samples[k].ok && !Hit(samples[k].power, c.target))
    && (bcal == 1 || bcal == 0 || bcal == -1) && (bcal >= 0 <==> samples[|samples| - 1].ok)
    && (bcal == 1 ==>
          Hit(samples[|samples| - 1].power, c.target) && freqOut == ToU32(freqIn + Offset(n, |samples| - 1)))
    && (bcal == 0 ==> !Hit(samples[|samples| - 1].power, c.target) && |samples| == MaxReadings(n) && freqOut == freqIn)
  }

  /** The measurement was launched in detection mode, with the main PLL one MHz above `freq` and the table's
      calibration byte for the start of the scan. */
  ghost predicate Detecting(s: Sample, maps: AnyLayout, start: u32, freq: int)
    requires |maps.mainPll| >= 2 && |maps.rfCal| >= 2
  {
    && s.latch.ep4 & 0x03 == 0x01 && ByteSelected(s.latch.eb14, maps, start)
    && (InRange(maps.mainPll, ToU32(freq + 1000000)) ==> MainPll(s.latch.mpd, s.latch.div, maps, ToU32(freq + 1000000)))
  }

  ghost predicate ByteSelected(eb14: byte, maps: AnyLayout, freq: u32)
    requires |maps.rfCal| >= 2
  {
    InRange(maps.rfCal, freq) ==> eb14 == maps.rfCal[Slot(maps.rfCal, freq)].val
  }

  /** Every reading was made where it counts. RF band and taper are those of the start at the first reading;
      after each reading the driver writes back what it was answered for EP2. */
  ghost predicate AllDetecting(samples: seq<Sample>, maps: AnyLayout, echo: bool, freqIn: u32, n: nat)
    requires |maps.mainPll| >= 2 && |maps.rfCal| >= 2 && |maps.rfBand| >= 2 && |maps.gainTaper| >= 2
  {
    forall k | 0 <= k < |samples| ::
      && Detecting(samples[k], maps, freqIn, freqIn + Offset(n, k))
      && (k == 0 || echo ==> TaperSelected(samples[k].latch.ep2, maps, freqIn))
  }

  /** What a scan leaves alone: standard, gains and filter. */
  datatype Setup = Setup(ep3: byte, eb18: byte, eb21: byte, eb23: byte)

  function SetupOf(chip: Image): Setup {
    Setup(chip[R_EP3], chip[R_EB18], chip[R_EB21], chip[R_EB23])
  }

  function SetupAt(l: Latch): Setup {
    Setup(l.ep3, l.eb18, l.eb21, l.eb23)
  }

  ghost predicate AllHeld(samples: seq<Sample>, setup: Setup) {
    forall k | 0 <= k < |samples| :: SetupAt(samples[k].latch) == setup
  }

  /** The chip between two readings of a scan from `start`. */
  ghost predicate Aimed(fe: Fe, start: u32, setup: Setup)
    requires fe.Valid()
    reads fe.regs, fe.dev
  {
    var chip := fe.dev.Chip();
    && chip[R_EP4] & 0x03 == 0x01 && ByteSelected(chip[R_EB14], fe.maps, start) && SetupOf(chip) == setup
    && (fe.dev.echo ==> fe.Echoed() && TaperSelected(fe.regs[R_EP2], fe.maps, start))
  }

  /** Tunes the main PLL one MHz above `freq`. */
  method TuneMain(fe: Fe, freq: u32)
    requires fe.Valid()
    modifies fe.dev`m, fe.regs
    ensures fe.dev.m.fault == old(fe.dev.m.fault)
    ensures old(fe.Consistent()) ==> fe.Consistent()
    ensures forall r {:trigger fe.regs[r]} | 0 <= r < NUM_REGS && !(R_MPD <= r <= R_MD3) ::
              fe.regs[r] == old(fe.regs[r])
    ensures forall r {:trigger fe.dev.Chip()[r]} | 0 <= r < NUM_REGS && !(R_MPD <= r <= R_MD3) ::
              fe.dev.Chip()[r] == old(fe.dev.Chip()[r])
    ensures fe.dev.reliable && InRange(fe.maps.mainPll, freq) ==> MainPllSet(fe.dev.Chip(), fe.maps, freq)
  {
    hide Divides, Wire;
    var _ := fe.CalcMainPll(freq);
    var _ := fe.WriteRegs(R_MPD, 4);
  }

  lemma DetectionMode(b: byte)
    ensures ((b & 0xfc) | 0x01) & 0x03 == 0x01
  {
  }

  /** RF band, taper and calibration byte of the start. */
  method SelectStart(fe: Fe, freqIn: u32)
    requires fe.Valid() && fe.Consistent()
    modifies fe.dev`m, fe.regs
    ensures fe.dev.m.fault == old(fe.dev.m.fault)
    ensures fe.Consistent()
    ensures forall r {:trigger fe.dev.Chip()[r]} | 0 <= r < NUM_REGS && r != R_EP2 && r != R_EB14 ::
              fe.dev.Chip()[r] == old(fe.dev.Chip()[r])
    ensures TaperSelected(fe.regs[R_EP2], fe.maps, freqIn)
    ensures fe.dev.reliable ==>
              fe.dev.Chip()[R_EP2] == fe.regs[R_EP2] && ByteSelected(fe.dev.Chip()[R_EB14], fe.maps, freqIn)
  {
    hide Slot, InRange;
    var _ := fe.CalcRfBand(freqIn);
    var _ := fe.CalcRfCal(freqIn);
    var _ := fe.CalcGainTaper(freqIn);
    var _ := fe.WriteRegs(R_EP2, 1);
    var _ := fe.WriteRegs(R_EB14, 1);
  }

  /** The frequency is set up, and detection mode entered. */
  method PrepareScan(fe: Fe, freqIn: u32)
    requires fe.Valid() && fe.Consistent()
    modifies fe.dev`m, fe.regs
    ensures fe.dev.m.fault == old(fe.dev.m.fault)
    ensures fe.Consistent()
    ensures TaperSelected(fe.regs[R_EP2], fe.maps, freqIn)
    ensures var chip := fe.dev.Chip();
            fe.dev.reliable ==>
              && chip[R_EP4] & 0x03 == 0x01
              && TaperSelected(chip[R_EP2], fe.maps, freqIn) && ByteSelected(chip[R_EB14], fe.maps, freqIn)
              && SetupOf(chip) == SetupOf(old(fe.dev.Chip()))
              && (InRange(fe.maps.mainPll, ToU32(freqIn + 1000000)) ==>
                    MainPllSet(chip, fe.maps, ToU32(freqIn + 1000000)))
  {
    hide TaperSelected, ByteSelected, MainPllSet, InRange, Fe.Consistent;
    SelectStart(fe, freqIn);
    TuneMain(fe, ToU32(freqIn + 1000000));
    DetectionMode(fe.regs[R_EP4]);
    ghost var tuned := fe.dev.Chip();
    fe.Step(R_EP4, (fe.regs[R_EP4] & 0xfc) | 0x01);
    MainPllKept(tuned, fe.dev.Chip(), fe.maps, ToU32(freqIn + 1000000));
  }

  lemma MainPllKept(a: Image, b: Image, maps: AnyLayout, freq: u32)
    requires |maps.mainPll| >= 2
    requires forall r | R_MPD <= r <= R_MD3 :: b[r] == a[r]
    ensures MainPllSet(a, maps, freq) ==> MainPllSet(b, maps, freq)
  {
  }

  /** Everything up to the first reading. */
  method StartScan(fe: Fe, freqIn: u32) returns (ret: int, cidTarget: byte, countLimit: nat, ghost s: Sample)
    requires fe.Valid() && fe.Consistent() && fe.Recorded()
    modifies fe.dev, fe.regs, fe`log, fe`latch
    ensures fe.dev.m.fault == old(fe.dev.m.fault) && old(fe.dev.asked) <= fe.dev.asked
    ensures fe.Consistent() && fe.Recorded()
    ensures fe.dev.reliable ==> ret == 0
    ensures ret == 0 || ret == -1
    ensures CidTarget(cidTarget, countLimit) == TargetAt(freqIn)
    ensures fe.log == old(fe.log) + [s] && s.ok == (ret == 0) && s.power == fe.regs[R_EB10]
    ensures var setup := SetupOf(old(fe.dev.Chip()));
            fe.dev.reliable ==>
              && Detecting(s, fe.maps, freqIn, freqIn) && TaperSelected(s.latch.ep2, fe.maps, freqIn)
              && SetupAt(s.latch) == setup && Aimed(fe, freqIn, setup)
  {
    hide TaperSelected, ByteSelected, InRange, Fe.Consistent, Fe.Recorded, TargetAt;
    cidTarget, countLimit := LookupTarget(freqIn);
    PrepareScan(fe, freqIn);
    fe.LaunchMeasurement();
    ret := fe.TakeSample();
    s := fe.log[|old(fe.log)|];
  }

  method LookupTarget(freqIn: u32) returns (cidTarget: byte, countLimit: nat)
    ensures CidTarget(cidTarget, countLimit) == TargetAt(freqIn)
  {
    CidTargetWellFormed();
    cidTarget, countLimit := LookupCidTarget(freqIn);
  }

  /** One turn of the scan loop. */
  method Probe(fe: Fe, ghost start: u32, ghost freq: int, freqUp: u32, ghost setup: Setup)
    returns (ret: int, ghost s: Sample)
    requires fe.Valid() && fe.Consistent() && fe.Recorded() && freqUp == ToU32(freq + 1000000)
    requires fe.dev.reliable ==> Aimed(fe, start, setup)
    modifies fe.dev, fe.regs, fe`log, fe`latch
    ensures fe.dev.m.fault == old(fe.dev.m.fault) && old(fe.dev.asked) <= fe.dev.asked
    ensures fe.Consistent() && fe.Recorded()
    ensures fe.dev.reliable ==> ret == 0
    ensures ret == 0 || ret == -1
    ensures fe.log == old(fe.log) + [s] && s.ok == (ret == 0) && s.power == fe.regs[R_EB10]
    ensures fe.dev.reliable ==>
              && Detecting(s, fe.maps, start, freq) && SetupAt(s.latch) == setup && Aimed(fe, start, setup)
              && (fe.dev.echo ==> TaperSelected(s.latch.ep2, fe.maps, start))
  {
    hide TaperSelected, ByteSelected, InRange, Fe.Consistent, Fe.Recorded;
    TuneMain(fe, freqUp);
    fe.LaunchMeasurement();
    ret := fe.TakeSample();
    s := fe.log[|old(fe.log)|];
  }

  /** Where the search stands after `k` readings: the next one is made at `sgn` * `count`. */
  predicate Searching(limit: nat, k: nat, sgn: int, count: nat) {
    var n := limit / 200;
    && 1 <= k < MaxReadings(n)
    && (if sgn == 1 then k <= n + 1 && count == 200 * (k - 1) else sgn == -1 && k > n + 1 && count == 200 * (k - n - 1))
  }

  lemma SearchingOffset(limit: nat, k: nat, sgn: int, count: nat)
    requires Searching(limit, k, sgn, count)
    ensures sgn * count == Offset(limit / 200, k)
  {
  }

  /** The frequency of the next reading, converted down from one MHz above. */
  method NextFreq(freqIn: u32, sgn: int, count: nat, ghost limit: nat, ghost k: nat) returns (freq: u32)
    requires Searching(limit, k, sgn, count)
    ensures freq == ToU32(freqIn + Offset(limit / 200, k) + 1000000)
  {
    SearchingOffset(limit, k, sgn, count);
    freq := ToU32(freqIn + sgn * count + 1000000);
  }

  /** The end of the loop body: one step further, or the other side, or the end. */
  method Advance(limit: nat, sgn: int, count: nat, ghost k: nat) returns (more: bool, nextSgn: int, nextCount: nat)
    requires Searching(limit, k, sgn, count)
    ensures if more then Searching(limit, k + 1, nextSgn, nextCount) else k + 1 == MaxReadings(limit / 200)
  {
    more, nextSgn, nextCount := true, sgn, count + 200;
    if nextCount <= limit {
      return;
    }
    if nextSgn <= 0 {
      more := false;
      return;
    }
    nextSgn := -1 * nextSgn;
    nextCount := 200;
  }

  lemma DownAgain(x: int)
    ensures ToU32(ToU32(x + 1000000) as int - 1000000) == ToU32(x)
  {
  }

  /** The samples so far: no hit before the last one, and that one was taken at `freq`. */
  ghost predicate Missed(samples: seq<Sample>, target: byte, limit: nat, freqIn: u32, freq: u32) {
    && 1 <= |samples| <= MaxReadings(limit / 200)
    && (forall k | 0 <= k < |samples| - 1 :: samples[k].ok && !Hit(samples[k].power, target))
    && freq == ToU32(freqIn + Offset(limit / 200, |samples| - 1) + 1000000)
  }

  /** The samples taken since `before` are all there is to the search, and the last one is the latest. */
  ghost predicate InScan(fe: Fe, before: seq<Sample>, samples: seq<Sample>, c: CidTarget, freqIn: u32, freq: u32,
                         ret: int, setup: Setup)
    requires fe.Valid()
    reads fe`log, fe.regs, fe.dev
  {
    && fe.log == before + samples
    && Missed(samples, c.target, c.limit, freqIn, freq)
    && samples[|samples| - 1].ok == (ret == 0) && samples[|samples| - 1].power == fe.regs[R_EB10]
    && (fe.dev.reliable ==>
          && AllDetecting(samples, fe.maps, fe.dev.echo, freqIn, c.limit / 200) && AllHeld(samples, setup)
          && Aimed(fe, freqIn, setup))
  }

  /** The end of the scan: what the last reading means. */
  method Verdict(power: byte, c: CidTarget, freqIn: u32, freq: u32, ghost samples: seq<Sample>)
    returns (bcal: int, freqOut: u32)
    requires Missed(samples, c.target, c.limit, freqIn, freq)
    requires samples[|samples| - 1].ok && samples[|samples| - 1].power == power
    requires !Hit(power, c.target) ==> |samples| == MaxReadings(c.limit / 200)
    ensures bcal >= 0 && Scanned(c, freqIn, samples, bcal, freqOut)
  {
    bcal, freqOut := 0, freqIn;
    if power & 0x3f >= c.target {
      DownAgain(freqIn + Offset(c.limit / 200, |samples| - 1));
      bcal := 1;
      freqOut := ToU32(freq as int - 1000000);
    }
  }

  lemma OneMoreSample(samples: seq<Sample>, s: Sample, c: CidTarget, freqIn: u32, from: u32, freq: u32)
    requires |samples| < MaxReadings(c.limit / 200)
    requires Missed(samples, c.target, c.limit, freqIn, from)
    requires samples[|samples| - 1].ok && !Hit(samples[|samples| - 1].power, c.target)
    requires freq == ToU32(freqIn + Offset(c.limit / 200, |samples|) + 1000000)
    ensures Missed(samples + [s], c.target, c.limit, freqIn, freq)
  {
  }

  lemma OneMoreDetecting(samples: seq<Sample>, s: Sample, maps: AnyLayout, echo: bool, freqIn: u32, n: nat,
                         setup: Setup)
    requires |maps.mainPll| >= 2 && |maps.rfCal| >= 2 && |maps.rfBand| >= 2 && |maps.gainTaper| >= 2
    requires samples != [] && AllDetecting(samples, maps, echo, freqIn, n) && AllHeld(samples, setup)
    requires Detecting(s, maps, freqIn, freqIn + Offset(n, |samples|)) && SetupAt(s.latch) == setup
    requires echo ==> TaperSelected(s.latch.ep2, maps, freqIn)
    ensures AllDetecting(samples + [s], maps, echo, freqIn, n) && AllHeld(samples + [s], setup)
  {
    hide Detecting, TaperSelected, Offset;
  }

  /** The body of the loop: one more reading, after a miss. */
  method Turn(fe: Fe, freqIn: u32, c: CidTarget, sgn: int, count: nat, ghost before: seq<Sample>,
              ghost samples: seq<Sample>, ghost from: u32, ghost setup: Setup)
    returns (ret: int, freq: u32, more: bool, nextSgn: int, nextCount: nat, ghost s: Sample)
    requires fe.Valid() && fe.Consistent() && fe.Recorded() && InScan(fe, before, samples, c, freqIn, from, 0, setup)
    requires Searching(c.limit, |samples|, sgn, count) && !Hit(fe.regs[R_EB10], c.target)
    modifies fe.dev, fe.regs, fe`log, fe`latch
    ensures fe.dev.m.fault == old(fe.dev.m.fault) && old(fe.dev.asked) <= fe.dev.asked
    ensures fe.Consistent() && fe.Recorded()
    ensures InScan(fe, before, samples + [s], c, freqIn, freq, ret, setup)
    ensures if ret != 0 then ret == -1 && !fe.dev.reliable
            else if more then Searching(c.limit, |samples| + 1, nextSgn, nextCount)
            else |samples| + 1 == MaxReadings(c.limit / 200)
  {
    hide AllDetecting, AllHeld, Detecting, Aimed, Fe.Consistent, Fe.Recorded;
    freq := NextFreq(freqIn, sgn, count, c.limit, |samples|);
    ret, s := Probe(fe, freqIn, freqIn + Offset(c.limit / 200, |samples|), freq, setup);
    assert before + (samples + [s]) == before + samples + [s];
    OneMoreSample(samples, s, c, freqIn, from, freq);
    if fe.dev.reliable {
      OneMoreDetecting(samples, s, fe.maps, fe.dev.echo, freqIn, c.limit / 200, setup);
    }
    more, nextSgn, nextCount := Advance(c.limit, sgn, count, |samples|);
  }

  /** The loop of tda18271_powerscan, after the first reading: it ends with a hit or after all readings. */
  method Search(fe: Fe, freqIn: u32, c: CidTarget, ghost before: seq<Sample>, ghost first: Sample, ghost setup: Setup)
    returns (ret: int, freq: u32, ghost samples: seq<Sample>)
    requires fe.Valid() && fe.Consistent() && fe.Recorded()
    requires InScan(fe, before, [first], c, freqIn, ToU32(freqIn + 1000000), 0, setup)
    modifies fe.dev, fe.regs, fe`log, fe`latch
    ensures fe.dev.m.fault == old(fe.dev.m.fault) && old(fe.dev.asked) <= fe.dev.asked
    ensures fe.Consistent() && fe.Recorded()
    ensures InScan(fe, before, samples, c, freqIn, freq, ret, setup)
    ensures if ret != 0 then ret == -1 && !fe.dev.reliable
            else Hit(fe.regs[R_EB10], c.target) || |samples| == MaxReadings(c.limit / 200)
  {
    hide Detecting, AllDetecting, AllHeld, Aimed, Fe.Consistent, Fe.Recorded;
    samples := [first];
    ret := 0;
    freq := ToU32(freqIn + 1000000);
    var sgn := 1;
    var count: nat := 0;
    while fe.regs[R_EB10] & 0x3f < c.target
      invariant fe.dev.m.fault == old(fe.dev.m.fault) && old(fe.dev.asked) <= fe.dev.asked && fe.Consistent()
      invariant fe.Recorded() && ret == 0
      invariant InScan(fe, before, samples, c, freqIn, freq, 0, setup) && Searching(c.limit, |samples|, sgn, count)
      decreases MaxReadings(c.limit / 200) - |samples|
    {
      var more;
      ghost var s;
      ret, freq, more, sgn, count, s := Turn(fe, freqIn, c, sgn, count, before, samples, freq, setup);
      samples := samples + [s];
      if ret < 0 {
        return;
      }
      if !more {
        break;
      }
    }
  }

  /** What follows the first reading. */
  method SearchAndJudge(fe: Fe, freqIn: u32, c: CidTarget, ghost before: seq<Sample>, ghost first: Sample,
                        ghost setup: Setup)
    returns (bcal: int, freqOut: u32, ghost samples: seq<Sample>)
    requires fe.Valid() && fe.Consistent() && fe.Recorded()
    requires InScan(fe, before, [first], c, freqIn, ToU32(freqIn + 1000000), 0, setup)
    modifies fe.dev, fe.regs, fe`log, fe`latch
    ensures fe.dev.m.fault == old(fe.dev.m.fault) && old(fe.dev.asked) <= fe.dev.asked
    ensures fe.Consistent() && fe.Recorded()
    ensures fe.log == before + samples
    ensures Scanned(c, freqIn, samples, bcal, freqOut)
    ensures fe.dev.reliable ==>
              && bcal >= 0 && AllDetecting(samples, fe.maps, fe.dev.echo, freqIn, c.limit / 200)
              && AllHeld(samples, setup) && Aimed(fe, freqIn, setup)
  {
    hide Detecting, AllDetecting, AllHeld, Aimed, Fe.Consistent, Fe.Recorded;
    var freq;
    bcal, freq, samples := Search(fe, freqIn, c, before, first, setup);
    freqOut := freqIn;
    if bcal == 0 {
      bcal, freqOut := Verdict(fe.regs[R_EB10], c, freqIn, freq, samples);
    }
  }

  /** What a scan from `freq` looks for. */
  function TargetAt(freq: u32): CidTarget {
    CID_TARGET[Slot(CID_TARGET, freq)].val
  }

  lemma TargetLimit(freq: u32)
    ensures TargetAt(freq).limit <= 4000
  {
  }

  // ---------- In which order a scan looks ----------

  /** The chip's power counts with its low six bits, as a number. */
  lemma HitIsAtLeast(power: byte, target: byte)
    ensures Hit(power, target) <==> power as int % 64 >= target as int
  {
    SixBits(power);
    SameOrder(power & 0x3f, target);
  }

  lemma SixBits(b: byte)
    ensures (b & 0x3f) as int == b as int % 64
  {
  }

  lemma SameOrder(a: byte, b: byte)
    ensures a >= b <==> a as int >= b as int
  {
  }

  /** The main PLL was one MHz above `freq` when the measurement was launched. */
  ghost predicate MeasuredAt(s: Sample, maps: AnyLayout, freq: int)
    requires |maps.mainPll| >= 2
  {
    InRange(maps.mainPll, ToU32(freq + 1000000)) ==> MainPll(s.latch.mpd, s.latch.div, maps, ToU32(freq + 1000000))
  }

  /** Some reading `j` steps of 200 Hz from the start was below the target. */
  ghost predicate MissedAt(samples: seq<Sample>, maps: AnyLayout, target: byte, freqIn: u32, j: int)
    requires |maps.mainPll| >= 2
  {
    exists k :: 0 <= k < |samples| && samples[k].ok && samples[k].power as int % 64 < target as int
                && MeasuredAt(samples[k], maps, freqIn + 200 * j)
  }

  /** How far `to` is from `from`, as a signed word. */
  function Distance(from: u32, to: u32): int {
    ToS32(ToU32(to - from))
  }

  /** A scan returns the frequency of a hit. Above the start it is the lowest one with a hit. Below, it is the
      highest one, and there was none from the start up to the limit. Otherwise there was none within the limit. */
  ghost predicate NearestUpFirst(samples: seq<Sample>, maps: AnyLayout, c: CidTarget, freqIn: u32, bcal: int,
                                 freqOut: u32)
    requires |maps.mainPll| >= 2
  {
    var d := Distance(freqIn, freqOut);
    && (bcal == 1 ==>
          && samples != [] && samples[|samples| - 1].power as int % 64 >= c.target as int
          && MeasuredAt(samples[|samples| - 1], maps, freqOut)
          && (forall j | 0 <= 200 * j && (200 * j < d || (d < 0 && 200 * j <= c.limit)) ::
                MissedAt(samples, maps, c.target, freqIn, j))
          && (forall j | d < 200 * j < 0 :: MissedAt(samples, maps, c.target, freqIn, j)))
    && (bcal == 0 ==>
          freqOut == freqIn && forall j | Abs(200 * j) <= c.limit :: MissedAt(samples, maps, c.target, freqIn, j))
  }

  lemma DistanceIs(from: u32, offset: int)
    requires -0x8000_0000 <= offset < 0x8000_0000
    ensures Distance(from, ToU32(from + offset)) == offset
  {
  }

  lemma WrappedOnce(x: int, y: int)
    ensures ToU32(ToU32(x) + y) == ToU32(x + y)
  {
  }

  /** Reading `k` missed, at the step it was made for. */
  lemma MissesStep(samples: seq<Sample>, maps: AnyLayout, echo: bool, c: CidTarget, freqIn: u32, k: nat, j: int)
    requires |maps.mainPll| >= 2 && |maps.rfCal| >= 2 && |maps.rfBand| >= 2 && |maps.gainTaper| >= 2
    requires AllDetecting(samples, maps, echo, freqIn, c.limit / 200) && k < |samples|
    requires samples[k].ok && !Hit(samples[k].power, c.target) && Offset(c.limit / 200, k) == 200 * j
    ensures MissedAt(samples, maps, c.target, freqIn, j)
  {
    hide Offset;
    HitIsAtLeast(samples[k].power, c.target);
    assert Detecting(samples[k], maps, freqIn, freqIn + Offset(c.limit / 200, k));
    assert MeasuredAt(samples[k], maps, freqIn + 200 * j);
  }

  /** Step `j` has its reading. */
  function ReadingOf(n: nat, j: int): (k: int)
    ensures j >= 0 ==> k == j + 1
    ensures j < 0 ==> k == n + 1 - j
  {
    if j >= 0 then j + 1 else n + 1 - j
  }

  lemma StepOfReading(limit: nat, j: int)
    requires Abs(200 * j) <= limit
    ensures var n := limit / 200;
            0 <= ReadingOf(n, j) < MaxReadings(n) && Offset(n, ReadingOf(n, j)) == 200 * j
  {
  }

  /** The readings in front of the last one that a hit at distance `d` needs. */
  lemma ReadBefore(limit: nat, last: nat, j: int)
    requires last < MaxReadings(limit / 200) && Abs(200 * j) <= limit
    requires var d := Offset(limit / 200, last);
             (0 <= 200 * j && (200 * j < d || d < 0)) || d < 200 * j < 0
    ensures ReadingOf(limit / 200, j) < last
  {
  }

  lemma WithinReach(limit: nat, k: nat)
    requires limit <= 4000 && k < MaxReadings(limit / 200)
    ensures Abs(Offset(limit / 200, k)) <= 4000
    ensures Abs(Offset(limit / 200, k)) <= limit || Offset(limit / 200, k) == -200
  {
  }

  lemma ScanOrder(c: CidTarget, maps: AnyLayout, echo: bool, freqIn: u32, samples: seq<Sample>, bcal: int,
                  freqOut: u32)
    requires |maps.mainPll| >= 2 && |maps.rfCal| >= 2 && |maps.rfBand| >= 2 && |maps.gainTaper| >= 2
    requires Scanned(c, freqIn, samples, bcal, freqOut) && c.limit <= 4000
    requires AllDetecting(samples, maps, echo, freqIn, c.limit / 200)
    ensures NearestUpFirst(samples, maps, c, freqIn, bcal, freqOut)
  {
    hide AllDetecting, MissedAt, MeasuredAt, Hit, Offset, MaxReadings, Distance;
    var n, last := c.limit / 200, |samples| - 1;
    if bcal == 1 {
      HitAtLast(c, maps, echo, freqIn, samples, freqOut);
      WithinReach(c.limit, last);
      DistanceIs(freqIn, Offset(n, last));
      var d := Offset(n, last);
      forall j | (0 <= 200 * j && (200 * j < d || (d < 0 && 200 * j <= c.limit))) || d < 200 * j < 0
        ensures MissedAt(samples, maps, c.target, freqIn, j)
      {
        StepOfReading(c.limit, j);
        ReadBefore(c.limit, last, j);
        MissesStep(samples, maps, echo, c, freqIn, ReadingOf(n, j), j);
      }
    } else if bcal == 0 {
      forall j | Abs(200 * j) <= c.limit ensures MissedAt(samples, maps, c.target, freqIn, j) {
        StepOfReading(c.limit, j);
        MissesStep(samples, maps, echo, c, freqIn, ReadingOf(n, j), j);
      }
    }
  }

  lemma HitAtLast(c: CidTarget, maps: AnyLayout, echo: bool, freqIn: u32, samples: seq<Sample>, freqOut: u32)
    requires |maps.mainPll| >= 2 && |maps.rfCal| >= 2 && |maps.rfBand| >= 2 && |maps.gainTaper| >= 2
    requires Scanned(c, freqIn, samples, 1, freqOut) && AllDetecting(samples, maps, echo, freqIn, c.limit / 200)
    ensures samples[|samples| - 1].power as int % 64 >= c.target as int
    ensures MeasuredAt(samples[|samples| - 1], maps, freqOut)
  {
    hide Offset;
    var last := |samples| - 1;
    HitIsAtLeast(samples[last].power, c.target);
    assert Detecting(samples[last], maps, freqIn, freqIn + Offset(c.limit / 200, last));
    WrappedOnce(freqIn + Offset(c.limit / 200, last), 1000000);
  }

  /** tda18271_powerscan. */
  method Powerscan(fe: Fe, freqIn: u32) returns (bcal: int, freqOut: u32, ghost samples: seq<Sample>)
    requires fe.Valid() && fe.Consistent() && fe.Recorded()
    modifies fe.dev, fe.regs, fe`log, fe`latch
    ensures fe.dev.m.fault == old(fe.dev.m.fault) && old(fe.dev.asked) <= fe.dev.asked
    ensures fe.Consistent() && fe.Recorded()
    ensures fe.log == old(fe.log) + samples
    ensures Scanned(TargetAt(freqIn), freqIn, samples, bcal, freqOut)
    ensures var setup := SetupOf(old(fe.dev.Chip()));
            fe.dev.reliable ==>
              && bcal >= 0 && AllDetecting(samples, fe.maps, fe.dev.echo, freqIn, TargetAt(freqIn).limit / 200)
              && NearestUpFirst(samples, fe.maps, TargetAt(freqIn), freqIn, bcal, freqOut)
              && AllHeld(samples, setup) && SetupOf(fe.dev.Chip()) == setup
              && (fe.dev.echo ==> fe.Echoed())
  {
    hide Detecting, TargetAt, Fe.Consistent, Fe.Recorded, SetupOf, NearestUpFirst;
    ghost var setup := SetupOf(fe.dev.Chip());
    var ret, cidTarget, countLimit;
    ghost var s;
    ret, cidTarget, countLimit, s := StartScan(fe, freqIn);
    if ret < 0 {
      return ret, freqIn, [s];
    }
    bcal, freqOut, samples := SearchAndJudge(fe, freqIn, CidTarget(cidTarget, countLimit), old(fe.log), s, setup);
    if fe.dev.reliable {
      TargetLimit(freqIn);
      ScanOrder(TargetAt(freqIn), fe.maps, fe.dev.echo, freqIn, samples, bcal, freqOut);
    }
  }

  // ---------- The calibration of one frequency ----------

  lemma PumpForced(b: byte)
    ensures Forced(b, false) & 0x20 == 0x00 && Forced(b, true) & 0x20 == 0x20
  {
  }

  /** The detector is set up for the scans, and stays so whatever EP3 is answered if the chip echoes it. */
  ghost predicate Ready(fe: Fe)
    requires fe.Valid()
    reads fe.regs, fe.dev
  {
    fe.dev.reliable ==>
      && SetUp(SetupOf(fe.dev.Chip()), fe.dev.echo) && (fe.dev.echo ==> fe.regs[R_EP3] & 0x1f == 0x12)
  }

  /** Lowest gains and the 1.5 MHz low pass filter, and the digital standard. */
  predicate SetUp(setup: Setup, echo: bool) {
    && setup.eb18 & 0x03 == 0x00 && setup.eb21 & 0x03 == 0x00 && setup.eb23 & 0x06 == 0x06
    && (echo ==> setup.ep3 & 0x1f == 0x12)
  }

  lemma StandbyBitOnly(b: byte)
    ensures ((b | 0x40) & !0x40) & 0x1f == b & 0x1f
  {
  }

  /** A calibration of `freq` as it has to be launched: calibration mode, agc1 off with full gain, no bias,
      PLLs at the calibration signal and one MHz above it, charge pumps released after having been forced, the
      lock enabled after having been disabled, and the filters, taper, K and M of the frequency. */
  ghost predicate Launched(l: Launch, maps: AnyLayout, freq: u32)
    requires |maps.mainPll| >= 2 && |maps.calPll| >= 2
    requires |maps.bpFilter| >= 2 && |maps.rfBand| >= 2 && |maps.gainTaper| >= 2 && |maps.rfCalKmco| >= 2
  {
    && l.ep3 & 0x40 == 0x40 && l.ep4 & 0x03 == 0x03 && l.eb18 & 0x03 == 0x03
    && l.eb4 & 0x20 == 0x00 && l.eb7 & 0x20 == 0x00 && l.eb14 == 0x00 && l.eb20 & 0x20 == 0x20
    && Unlocked(l.was) && Signal(l.cpd, l.cdiv, l.mpd, l.mdiv, maps, freq)
    && BandSelected(l.ep1, l.ep2, maps, freq) && KmSelected(l.eb13, maps, freq)
  }

  /** Both pumps forced and the PLLs' lock disabled. */
  predicate Unlocked(was: Edge) {
    was.eb4 & 0x20 == 0x20 && was.eb7 & 0x20 == 0x20 && was.eb20 & 0x20 == 0x00
  }

  /** The calibration PLL at `freq`, and the main PLL one MHz above. */
  ghost predicate Signal(cpd: byte, cdiv: DivBytes, mpd: byte, mdiv: DivBytes, maps: AnyLayout, freq: u32)
    requires |maps.mainPll| >= 2 && |maps.calPll| >= 2
  {
    && (InRange(maps.calPll, freq) ==> CalPll(cpd, cdiv, maps, freq))
    && (InRange(maps.mainPll, ToU32(freq + 1000000)) ==> MainPll(mpd, mdiv, maps, ToU32(freq + 1000000)))
  }

  ghost predicate SignalSet(chip: Image, maps: AnyLayout, freq: u32)
    requires |maps.mainPll| >= 2 && |maps.calPll| >= 2
  {
    Signal(chip[R_CPD], DivBytes(chip[R_CD1], chip[R_CD2], chip[R_CD3]),
           chip[R_MPD], DivBytes(chip[R_MD1], chip[R_MD2], chip[R_MD3]), maps, freq)
  }

  /** The chip after it: normal mode, agc1 on, PLLs released. */
  ghost predicate Restored(chip: Image) {
    && chip[R_EP3] & 0x40 == 0x00 && chip[R_EP4] & 0x03 == 0x00 && chip[R_EB18] & 0x03 == 0x00
    && chip[R_EB4] & 0x20 == 0x00 && chip[R_EB7] & 0x20 == 0x00 && chip[R_EB20] & 0x20 == 0x20
  }

  /** Agc1 is switched off, in EP3 only with the next write, and its gain set to 15 dB. */
  method SwitchOffAgc1(fe: Fe)
    requires fe.Valid() && fe.Consistent()
    modifies fe.dev`m, fe.regs
    ensures fe.dev.m.fault == old(fe.dev.m.fault)
    ensures fe.Consistent()
    ensures fe.regs[R_EP3] == old(fe.regs[R_EP3]) | 0x40 && fe.regs[R_EP3] & 0x40 == 0x40
    ensures forall r {:trigger fe.dev.Chip()[r]} | 0 <= r < NUM_REGS && r != R_EP4 && r != R_EB18 ::
              fe.dev.Chip()[r] == old(fe.dev.Chip()[r])
    ensures fe.dev.reliable ==> fe.dev.Chip()[R_EP4] & 0x03 == 0x00 && fe.dev.Chip()[R_EB18] & 0x03 == 0x03
  {
    fe.Clear(R_EP4, 0x03);
    fe.SetBits(R_EP3, 0x40);
    fe.Set(R_EB18, 0x03);
  }

  /** Calibration mode is entered with agc1 off. */
  method EnterCalibration(fe: Fe, freq: u32)
    requires fe.Valid() && fe.Consistent()
    modifies fe.dev`m, fe.regs
    ensures fe.dev.m.fault == old(fe.dev.m.fault)
    ensures fe.Consistent()
    ensures fe.regs[R_EP3] == old(fe.regs[R_EP3]) | 0x40
    ensures forall r {:trigger fe.dev.Chip()[r]} | r == R_EB21 || r == R_EB23 ::
              fe.dev.Chip()[r] == old(fe.dev.Chip()[r])
    ensures var chip := fe.dev.Chip();
            fe.dev.reliable ==>
              && chip[R_EP3] & 0x40 == 0x40 && chip[R_EP4] & 0x03 == 0x03
              && chip[R_EB18] & 0x03 == 0x03 && chip[R_EB14] == 0x00
              && Unlocked(EdgeOf(chip)) && Selected(fe, freq)
  {
    hide BandSelected, KmSelected, Fe.Consistent;
    SwitchOffAgc1(fe);
    SelectBand(fe, freq);
    SwitchToCalibration(fe);
  }

  /** The charge pumps are forced, EB14 is cleared, the PLLs are unlocked, and the mode is set. */
  method SwitchToCalibration(fe: Fe)
    requires fe.Valid() && fe.Consistent()
    modifies fe.dev`m, fe.regs
    ensures fe.dev.m.fault == old(fe.dev.m.fault)
    ensures fe.Consistent()
    ensures forall r {:trigger fe.regs[r]} | R_EP1 <= r <= R_EP3 :: fe.regs[r] == old(fe.regs[r])
    ensures forall r {:trigger fe.dev.Chip()[r]} | 0 <= r < R_EP4 || r == R_EB13 || r == R_EB18
              || r == R_EB21 || r == R_EB23 ::
              fe.dev.Chip()[r] == old(fe.dev.Chip()[r])
    ensures fe.dev.reliable ==>
              && fe.dev.Chip()[R_EP4] & 0x03 == 0x03 && fe.dev.Chip()[R_EB14] == 0x00
              && Unlocked(EdgeOf(fe.dev.Chip()))
  {
    ForcePumps(fe);
    fe.Step(R_EB14, 0x00);
    fe.Clear(R_EB20, 0x20);
    fe.SetBits(R_EP4, 0x03);
    var _ := fe.WriteRegs(R_EP4, 2);
  }

  /** Both charge pumps are forced. */
  method ForcePumps(fe: Fe)
    requires fe.Valid() && fe.Consistent()
    modifies fe.dev`m, fe.regs
    ensures fe.dev.m.fault == old(fe.dev.m.fault)
    ensures fe.Consistent()
    ensures forall r {:trigger fe.regs[r]} | 0 <= r < NUM_REGS && r != R_EB4 && r != R_EB7 ::
              fe.regs[r] == old(fe.regs[r])
    ensures forall r {:trigger fe.dev.Chip()[r]} | 0 <= r < NUM_REGS && r != R_EB4 && r != R_EB7 ::
              fe.dev.Chip()[r] == old(fe.dev.Chip()[r])
    ensures fe.dev.reliable ==> fe.dev.Chip()[R_EB4] & 0x20 == 0x20 && fe.dev.Chip()[R_EB7] & 0x20 == 0x20
  {
    PumpForced(fe.regs[R_EB4]);
    PumpForced(fe.regs[R_EB7]);
    var _ := fe.ChargePumpSource(MainSide, true);
    var _ := fe.ChargePumpSource(CalSide, true);
  }

  /** The chip's EP1, EP2 and EB13 are those of the shadow and belong to `freq`. */
  ghost predicate Selected(fe: Fe, freq: u32)
    requires fe.Valid()
    reads fe.regs, fe.dev
  {
    var chip := fe.dev.Chip();
    && BandSelected(chip[R_EP1], chip[R_EP2], fe.maps, freq) && KmSelected(chip[R_EB13], fe.maps, freq)
    && fe.regs[R_EP1] == chip[R_EP1] && fe.regs[R_EP2] == chip[R_EP2]
  }

  /** Band-pass filter, taper, band, K and M. */
  method CalcBand(fe: Fe, freq: u32)
    requires fe.Valid()
    modifies fe.regs
    ensures old(fe.Consistent()) ==> fe.Consistent()
    ensures BandSelected(fe.regs[R_EP1], fe.regs[R_EP2], fe.maps, freq) && KmSelected(fe.regs[R_EB13], fe.maps, freq)
    ensures forall r {:trigger fe.regs[r]} | 0 <= r < NUM_REGS && r != R_EP1 && r != R_EP2 && r != R_EB13 ::
              fe.regs[r] == old(fe.regs[r])
  {
    hide Fe.Consistent, Slot, InRange;
    var _ := fe.CalcBpFilter(freq);
    var _ := fe.CalcGainTaper(freq);
    var _ := fe.CalcRfBand(freq);
    var _ := fe.CalcKm(freq);
  }

  /** The registers that depend on the frequency; EP3 is written with them. */
  method SelectBand(fe: Fe, freq: u32)
    requires fe.Valid()
    modifies fe.dev`m, fe.regs
    ensures fe.dev.m.fault == old(fe.dev.m.fault)
    ensures old(fe.Consistent()) ==> fe.Consistent()
    ensures forall r {:trigger fe.regs[r]} | 0 <= r < NUM_REGS && r != R_EP1 && r != R_EP2 && r != R_EB13 ::
              fe.regs[r] == old(fe.regs[r])
    ensures forall r {:trigger fe.dev.Chip()[r]} | 0 <= r < NUM_REGS && !(R_EP1 <= r <= R_EP3) && r != R_EB13 ::
              fe.dev.Chip()[r] == old(fe.dev.Chip()[r])
    ensures fe.dev.reliable ==> Selected(fe, freq) && fe.dev.Chip()[R_EP3] == fe.regs[R_EP3]
  {
    hide BandSelected, KmSelected, Fe.Consistent;
    CalcBand(fe, freq);
    var _ := fe.WriteRegs(R_EP1, 3);
    var _ := fe.WriteRegs(R_EB13, 1);
  }

  /** The calibration signal, and its frequency converted down. */
  method SetSignal(fe: Fe, freq: u32)
    requires fe.Valid() && fe.Consistent()
    modifies fe.dev`m, fe.regs
    ensures fe.dev.m.fault == old(fe.dev.m.fault)
    ensures fe.Consistent()
    ensures forall r {:trigger fe.dev.Chip()[r]} | 0 <= r < NUM_REGS && !(R_CPD <= r <= R_MD3) ::
              fe.dev.Chip()[r] == old(fe.dev.Chip()[r])
    ensures fe.KeepsBut(old(fe.Shadow()), R_CPD, R_EB1)
    ensures fe.dev.reliable ==> SignalSet(fe.dev.Chip(), fe.maps, freq)
  {
    TuneCal(fe, freq);
    TuneMain(fe, ToU32(freq + 1000000));
  }

  /** Tunes the calibration PLL. */
  method TuneCal(fe: Fe, freq: u32)
    requires fe.Valid()
    modifies fe.dev`m, fe.regs
    ensures fe.dev.m.fault == old(fe.dev.m.fault)
    ensures old(fe.Consistent()) ==> fe.Consistent()
    ensures forall r {:trigger fe.regs[r]} | 0 <= r < NUM_REGS && !(R_CPD <= r <= R_CD3) ::
              fe.regs[r] == old(fe.regs[r])
    ensures forall r {:trigger fe.dev.Chip()[r]} | 0 <= r < NUM_REGS && !(R_CPD <= r <= R_CD3) ::
              fe.dev.Chip()[r] == old(fe.dev.Chip()[r])
    ensures fe.dev.reliable && InRange(fe.maps.calPll, freq) ==> CalPllSet(fe.dev.Chip(), fe.maps, freq)
  {
    hide Divides, Wire;
    var _ := fe.CalcCalPll(freq);
    var _ := fe.WriteRegs(R_CPD, 4);
  }

  /** EP2 and EP1 are written twice. */
  method Toggle(fe: Fe)
    requires fe.Valid() && fe.Consistent()
    modifies fe.dev`m
    ensures fe.dev.m.fault == old(fe.dev.m.fault)
    ensures fe.Consistent()
    ensures forall r {:trigger fe.dev.Chip()[r]} | 0 <= r < NUM_REGS && r != R_EP1 && r != R_EP2 ::
              fe.dev.Chip()[r] == old(fe.dev.Chip()[r])
    ensures fe.dev.reliable ==> fe.dev.Chip()[R_EP1] == fe.regs[R_EP1] && fe.dev.Chip()[R_EP2] == fe.regs[R_EP2]
    ensures fe.dev.reliable ==>
              fe.dev.m.chunks == old(fe.dev.m.chunks) + Wire(R_EP2, [fe.regs[R_EP2]]) + Wire(R_EP1, [fe.regs[R_EP1]])
                                 + Wire(R_EP2, [fe.regs[R_EP2]]) + Wire(R_EP1, [fe.regs[R_EP1]])
  {
    hide Wire;
    assert fe.regs[R_EP2..R_EP2 + 1] == [fe.regs[R_EP2]] && fe.regs[R_EP1..R_EP1 + 1] == [fe.regs[R_EP1]];
    var _ := fe.WriteRegs(R_EP2, 1);
    var _ := fe.WriteRegs(R_EP1, 1);
    var _ := fe.WriteRegs(R_EP2, 1);
    var _ := fe.WriteRegs(R_EP1, 1);
  }

  /** The charge pumps are released and the calibration is launched. */
  method Launch(fe: Fe)
    requires fe.Valid() && fe.Consistent()
    modifies fe.dev`m, fe.regs, fe`launches
    ensures fe.dev.m.fault == old(fe.dev.m.fault)
    ensures fe.Consistent()
    ensures fe.launches == old(fe.launches) + [fe.ChipLaunch(EdgeOf(old(fe.dev.Chip())))]
    ensures fe.regs[R_EP3] == old(fe.regs[R_EP3])
    ensures forall r {:trigger fe.dev.Chip()[r]} | 0 <= r < NUM_REGS && r != R_EB4 && r != R_EB7 && r != R_EB20 ::
              fe.dev.Chip()[r] == old(fe.dev.Chip()[r])
    ensures var chip := fe.dev.Chip();
            fe.dev.reliable ==> chip[R_EB4] & 0x20 == 0x00 && chip[R_EB7] & 0x20 == 0x00 && chip[R_EB20] & 0x20 == 0x20
  {
    ghost var was := EdgeOf(fe.dev.Chip());
    PumpForced(fe.regs[R_EB4]);
    var _ := fe.ChargePumpSource(MainSide, false);
    PumpForced(fe.regs[R_EB7]);
    var _ := fe.ChargePumpSource(CalSide, false);
    fe.Set(R_EB20, 0x20);
    fe.NoteLaunch(was);
  }

  method ToggleAndLaunch(fe: Fe)
    requires fe.Valid() && fe.Consistent()
    modifies fe.dev`m, fe.regs, fe`launches
    ensures fe.dev.m.fault == old(fe.dev.m.fault)
    ensures fe.Consistent()
    ensures fe.launches == old(fe.launches) + [fe.ChipLaunch(EdgeOf(old(fe.dev.Chip())))]
    ensures fe.regs[R_EP3] == old(fe.regs[R_EP3])
    ensures forall r {:trigger fe.dev.Chip()[r]} | 0 <= r < NUM_REGS && r != R_EP1 && r != R_EP2
              && r != R_EB4 && r != R_EB7 && r != R_EB20 ::
              fe.dev.Chip()[r] == old(fe.dev.Chip()[r])
    ensures var chip := fe.dev.Chip();
            fe.dev.reliable ==>
              && chip[R_EP1] == old(fe.regs[R_EP1]) && chip[R_EP2] == old(fe.regs[R_EP2])
              && chip[R_EB4] & 0x20 == 0x00 && chip[R_EB7] & 0x20 == 0x00 && chip[R_EB20] & 0x20 == 0x20
  {
    hide Fe.Consistent, LaunchOf;
    Toggle(fe);
    Launch(fe);
  }

  /** Back to normal mode. */
  method LeaveCalibration(fe: Fe)
    requires fe.Valid() && fe.Consistent()
    modifies fe.dev`m, fe.regs
    ensures fe.dev.m.fault == old(fe.dev.m.fault)
    ensures fe.Consistent()
    ensures forall r {:trigger fe.dev.Chip()[r]} | 0 <= r < NUM_REGS && r != R_EP1 && r != R_EP3 && r != R_EP4
              && r != R_EB18 ::
              fe.dev.Chip()[r] == old(fe.dev.Chip()[r])
    ensures var chip := fe.dev.Chip();
            fe.dev.reliable ==>
              && chip[R_EP3] & 0x40 == 0x00 && chip[R_EP4] & 0x03 == 0x00 && chip[R_EB18] & 0x03 == 0x00
              && chip[R_EP3] == old(fe.regs[R_EP3]) & !0x40 && chip[R_EP1] == fe.regs[R_EP1]
  {
    fe.ClearBits(R_EP4, 0x03);
    fe.ClearBits(R_EP3, 0x40);
    fe.Clear(R_EB18, 0x03);
    var _ := fe.WriteRegs(R_EP3, 2);
    var _ := fe.WriteRegs(R_EP1, 1);
  }

  lemma SignalKept(a: Image, b: Image, maps: AnyLayout, freq: u32)
    requires |maps.mainPll| >= 2 && |maps.calPll| >= 2
    requires forall r | R_CPD <= r <= R_MD3 :: b[r] == a[r]
    ensures SignalSet(a, maps, freq) ==> SignalSet(b, maps, freq)
  {
  }

  /** Everything up to the launch. */
  method StartCalibration(fe: Fe, freq: u32)
    requires fe.Valid() && fe.Consistent()
    modifies fe.dev`m, fe.regs, fe`launches
    ensures fe.dev.m.fault == old(fe.dev.m.fault)
    ensures fe.Consistent()
    ensures |fe.launches| == |old(fe.launches)| + 1 && fe.launches[..|old(fe.launches)|] == old(fe.launches)
    ensures fe.launches[|old(fe.launches)|].at == fe.dev.asked
    ensures fe.regs[R_EP3] == old(fe.regs[R_EP3]) | 0x40
    ensures forall r {:trigger fe.dev.Chip()[r]} | r == R_EB21 || r == R_EB23 ::
              fe.dev.Chip()[r] == old(fe.dev.Chip()[r])
    ensures fe.dev.reliable ==>
              && Launched(fe.launches[|old(fe.launches)|], fe.maps, freq) && SignalSet(fe.dev.Chip(), fe.maps, freq)
              && Released(fe.dev.Chip())
  {
    hide Signal, Launched, SignalSet, Released, LaunchOf, EdgeOf, Unlocked, Fe.Consistent, BandSelected, KmSelected;
    EnterCalibration(fe, freq);
    ghost var entered := fe.dev.Chip();
    SignalAndLaunch(fe, freq);
    LaunchTells(fe.dev.Chip(), EdgeOf(entered), fe.dev.asked);
    if fe.dev.reliable {
      LaunchedIs(entered, fe.dev.Chip(), fe.maps, freq, fe.dev.asked);
    }
  }

  /** The calibration signal is set, and the calibration launched. */
  method SignalAndLaunch(fe: Fe, freq: u32)
    requires fe.Valid() && fe.Consistent()
    modifies fe.dev`m, fe.regs, fe`launches
    ensures fe.dev.m.fault == old(fe.dev.m.fault)
    ensures fe.Consistent()
    ensures fe.launches == old(fe.launches) + [fe.ChipLaunch(EdgeOf(old(fe.dev.Chip())))]
    ensures fe.regs[R_EP3] == old(fe.regs[R_EP3])
    ensures forall r {:trigger fe.dev.Chip()[r]} | 0 <= r < NUM_REGS && r != R_EP1 && r != R_EP2
              && !(R_CPD <= r <= R_MD3) && r != R_EB4 && r != R_EB7 && r != R_EB20 ::
              fe.dev.Chip()[r] == old(fe.dev.Chip()[r])
    ensures var chip := fe.dev.Chip();
            fe.dev.reliable ==>
              && chip[R_EP1] == old(fe.regs[R_EP1]) && chip[R_EP2] == old(fe.regs[R_EP2])
              && SignalSet(chip, fe.maps, freq) && Released(chip)
  {
    hide Signal, SignalSet, LaunchOf, EdgeOf, Fe.Consistent;
    ghost var entered := fe.dev.Chip();
    SetSignal(fe, freq);
    ghost var tuned := fe.dev.Chip();
    SameEdge(entered, tuned);
    ToggleAndLaunch(fe);
    SignalKept(tuned, fe.dev.Chip(), fe.maps, freq);
  }

  /** The pumps are released, and the lock is enabled. */
  ghost predicate Released(chip: Image) {
    chip[R_EB4] & 0x20 == 0x00 && chip[R_EB7] & 0x20 == 0x00 && chip[R_EB20] & 0x20 == 0x20
  }

  lemma SameEdge(a: Image, b: Image)
    requires a[R_EB4] == b[R_EB4] && a[R_EB7] == b[R_EB7] && a[R_EB20] == b[R_EB20]
    ensures EdgeOf(a) == EdgeOf(b)
  {
  }

  lemma LaunchTells(chip: Image, was: Edge, at: nat)
    ensures LaunchOf(chip, was, at).at == at
  {
  }

  /** From the chip in calibration mode to the launch. */
  lemma LaunchedIs(entered: Image, chip: Image, maps: AnyLayout, freq: u32, at: nat)
    requires |maps.mainPll| >= 2 && |maps.calPll| >= 2
    requires |maps.bpFilter| >= 2 && |maps.rfBand| >= 2 && |maps.gainTaper| >= 2 && |maps.rfCalKmco| >= 2
    requires entered[R_EP3] & 0x40 == 0x40 && entered[R_EP4] & 0x03 == 0x03
    requires entered[R_EB18] & 0x03 == 0x03 && entered[R_EB14] == 0x00 && Unlocked(EdgeOf(entered))
    requires BandSelected(entered[R_EP1], entered[R_EP2], maps, freq) && KmSelected(entered[R_EB13], maps, freq)
    requires SignalSet(chip, maps, freq) && Released(chip)
    requires chip[R_EP1] == entered[R_EP1] && chip[R_EP2] == entered[R_EP2] && chip[R_EP3] == entered[R_EP3]
    requires chip[R_EP4] == entered[R_EP4] && chip[R_EB13] == entered[R_EB13]
    requires chip[R_EB14] == entered[R_EB14] && chip[R_EB18] == entered[R_EB18]
    ensures Launched(LaunchOf(chip, EdgeOf(entered), at), maps, freq)
  {
  }

  /** From the launch to normal mode. */
  method Conclude(fe: Fe, freq: u32)
    requires fe.Valid() && fe.Consistent()
    requires fe.dev.reliable ==> SignalSet(fe.dev.Chip(), fe.maps, freq) && Released(fe.dev.Chip())
    modifies fe.dev`m, fe.regs
    ensures fe.dev.m.fault == old(fe.dev.m.fault)
    ensures fe.Consistent()
    ensures forall r {:trigger fe.dev.Chip()[r]} | r == R_EB21 || r == R_EB23 ::
              fe.dev.Chip()[r] == old(fe.dev.Chip()[r])
    ensures fe.dev.reliable ==>
              && Restored(fe.dev.Chip()) && SignalSet(fe.dev.Chip(), fe.maps, freq)
              && fe.dev.Chip()[R_EP3] == old(fe.regs[R_EP3]) & !0x40
  {
    hide SignalSet, Fe.Consistent;
    ghost var tuned := fe.dev.Chip();
    LeaveCalibration(fe);
    SignalKept(tuned, fe.dev.Chip(), fe.maps, freq);
  }

  /** tda18271_calibrate_rf: one calibration is launched, and the result is the byte that the chip answers to
      the read that comes next. */
  method CalibrateRf(fe: Fe, freq: u32) returns (cal: u8, ghost ok: bool)
    requires fe.Valid() && fe.Consistent() && fe.Recorded()
    modifies fe.dev, fe.regs, fe`launches
    ensures fe.dev.m.fault == old(fe.dev.m.fault) && old(fe.dev.asked) <= fe.dev.asked
    ensures fe.Consistent() && fe.Recorded()
    ensures |fe.launches| == |old(fe.launches)| + 1 && fe.launches[..|old(fe.launches)|] == old(fe.launches)
    ensures fe.launches[|old(fe.launches)|].at == old(fe.dev.asked) && fe.dev.asked == old(fe.dev.asked) + 1
    ensures ok ==> cal == fe.dev.Said(fe.launches[|old(fe.launches)|].at, R_EB14) as int
    ensures fe.dev.reliable ==>
              && ok && Launched(fe.launches[|old(fe.launches)|], fe.maps, freq)
              && Restored(fe.dev.Chip()) && SignalSet(fe.dev.Chip(), fe.maps, freq)
    ensures old(Ready(fe)) ==> Ready(fe)
  {
    hide Launched, SignalSet, Released, Fe.Consistent, Fe.Recorded;
    StandbyBitOnly(fe.regs[R_EP3]);
    StartCalibration(fe, freq);
    Conclude(fe, freq);
    var ret := fe.ReadBack(R_EB14);
    ok := ret == 0;
    cal := fe.regs[R_EB14] as int;
  }

  // ---------- The calibration of one band ----------

  /** Readings a scan in band `i` can take. */
  function PerScan(i: nat): nat {
    if i == 0 then 20 else if i == 1 then 16 else 42
  }

  /** The row of a band's starting frequency in the table of targets. */
  function CidRow(i: nat, rf: nat): nat {
    if i < 2 then i else if i == 2 then 2 + rf else if i < 5 then i + 1 else if i == 5 then 6 + rf else 9 + rf
  }

  lemma StartsAtRow(i: nat, rf: nat)
    requires i < 7 && rf < 3 && Default(RF_BAND_TEMPLATE[i], rf) != 0
    ensures CidRow(i, rf) < 12 && CID_TARGET[CidRow(i, rf)].max == Default(RF_BAND_TEMPLATE[i], rf)
    ensures MaxReadings(CID_TARGET[CidRow(i, rf)].val.limit / 200) == PerScan(i)
    ensures 200 <= CID_TARGET[CidRow(i, rf)].val.limit <= 4000
  {
  }

  lemma StaticColumns(b: seq<RfCal>, i: nat)
    requires Shaped(b) && i < 8
    ensures b[i].rf1Def == RF_BAND_TEMPLATE[i].rf1Def && b[i].rf2Def == RF_BAND_TEMPLATE[i].rf2Def
    ensures b[i].rf3Def == RF_BAND_TEMPLATE[i].rf3Def && b[i].rfmax == RF_BAND_TEMPLATE[i].rfmax
  {
    assert Band(b[i].rfmax, b[i].rfband, b[i].rf1Def, b[i].rf2Def, b[i].rf3Def) == RF_BAND_TEMPLATE[i];
  }

  /** The target of a scan that starts at a default frequency. */
  lemma TargetOfStart(b: seq<RfCal>, i: nat, rf: nat)
    requires Shaped(b) && i < 7 && rf < 3 && Default(b[i], rf) != 0
    ensures 46000000 <= StartFreq(b[i], rf) == 1000 * Default(b[i], rf) <= 842000000
    ensures var c := TargetAt(StartFreq(b[i], rf));
            MaxReadings(c.limit / 200) == PerScan(i) && 200 <= c.limit <= 4000
  {
    BandSpaced(b, i);
    StaticColumns(b, i);
    Unwrapped(1000 * Default(b[i], rf));
    StartsAtRow(i, rf);
    CidTargetWellFormed();
    SlotBetween(CID_TARGET, StartFreq(b[i], rf), CidRow(i, rf));
  }

  /** The offsets of a scan are the multiples of 200 Hz within its limit ... */
  lemma OffsetWithin(limit: nat, k: nat)
    requires limit >= 200 && k < MaxReadings(limit / 200)
    ensures Offset(limit / 200, k) % 200 == 0 && Abs(Offset(limit / 200, k)) <= limit
    ensures MaxReadings(limit / 200) == 2 * (limit / 200) + 2
  {
  }

  /** ... each of them once, after the first look. */
  lemma OffsetOnce(limit: nat, offset: int)
    requires limit >= 200 && offset % 200 == 0 && Abs(offset) <= limit
    ensures exists k: nat :: 1 <= k < MaxReadings(limit / 200) && Offset(limit / 200, k) == offset
    ensures forall j: nat, k: nat | 1 <= j < k < MaxReadings(limit / 200) ::
              Offset(limit / 200, j) != Offset(limit / 200, k)
  {
    var n := limit / 200;
    var k: nat := if offset >= 0 then offset / 200 + 1 else n + 1 - offset / 200;
    assert 1 <= k < MaxReadings(n) && Offset(n, k) == offset;
  }

  /** A scan stays near its starting frequency. */
  lemma ScanNear(c: CidTarget, freqIn: u32, samples: seq<Sample>, bcal: int, freqOut: u32)
    requires Scanned(c, freqIn, samples, bcal, freqOut) && bcal >= 0
    requires 200 <= c.limit <= 4000 && 46000000 <= freqIn <= 842000000
    ensures Abs(freqOut - freqIn) <= c.limit && (freqOut - freqIn) % 200 == 0
  {
    OffsetWithin(c.limit, |samples| - 1);
    if bcal == 1 {
      Unwrapped(freqIn + Offset(c.limit / 200, |samples| - 1));
    }
  }

  lemma Unwrapped(x: int)
    requires 0 <= x < TWO_32
    ensures ToU32(x) == x
  {
  }

  /** In range of everything a calibration on the C2 looks up. */
  ghost predicate Covered(maps: Layout, freq: u32)
    requires maps.id == C2
  {
    && InRange(maps.calPll, freq) && InRange(maps.mainPll, ToU32(freq + 1000000)) && InRange(maps.rfCal, freq)
    && InRange(maps.bpFilter, freq) && InRange(maps.rfBand, freq) && InRange(maps.gainTaper, freq)
    && InRange(maps.rfCalKmco, freq)
  }

  /** Whatever a scan tries, and a calibration after it, is covered. */
  lemma CalibrationInRange(maps: Layout, b: seq<RfCal>, i: nat, rf: nat, freq: u32)
    requires maps.id == C2 && Shaped(b) && i < 7 && rf < 3 && NearDefault(b[i], rf, freq)
    ensures Covered(maps, freq) && ToU32(freq + 1000000) == freq + 1000000
  {
    TargetOfStart(b, i, rf);
  }

  /** The table's calibration byte for a frequency. */
  function TableByte(maps: AnyLayout, freq: u32): u8
    requires |maps.rfCal| >= 2
  {
    maps.rfCal[Slot(maps.rfCal, freq)].val as int
  }

  /** The finding behind an anchor of a C2: a scan from `start` with the outcome it was given, on the samples
      of the log; and if the scan was a success, a calibration launched after them for the frequency found,
      whose result is what the chip answered to the read that came next. Otherwise the anchor is the table's
      byte. On a reliable bus all of it took place in range of the tables. */
  ghost predicate Genuine(dev: Bridge, maps: Layout, h: History, start: u32, f: Finding, a: Anchor)
    requires maps.id == C2
  {
    var n := TargetAt(start).limit / 200;
    && f.first < f.end <= |h.log|
    && Scanned(TargetAt(start), start, h.log[f.first..f.end], if f.hit then 1 else 0, a.freq)
    && a.tab == TableByte(maps, a.freq) && Covered(maps, a.freq) && Covered(maps, start)
    && (if f.hit then Answered(dev, h, f, a.cal) else a.cal == a.tab)
    && (dev.reliable ==>
          && AllDetecting(h.log[f.first..f.end], maps, dev.echo, start, n)
          && AllInRange(maps, start, n, f.end - f.first))
    && (dev.reliable && f.hit ==> f.ok && Launched(h.launches[f.launch], maps, a.freq))
  }

  /** `cal` is the chip's answer to the calibration that was launched after the samples. */
  ghost predicate Answered(dev: Bridge, h: History, f: Finding, cal: u8)
    requires f.first < f.end <= |h.log|
  {
    && f.launch < |h.launches| && h.log[f.end - 1].at < h.launches[f.launch].at == f.at < h.asked
    && (f.ok ==> cal == dev.Said(f.at, R_EB14) as int)
  }

  /** The local oscillator of every reading is in range of the main PLL. */
  ghost predicate AllInRange(maps: AnyLayout, start: u32, n: nat, readings: nat)
    requires |maps.mainPll| >= 2
  {
    forall k | 0 <= k < readings :: InRange(maps.mainPll, ToU32(start + Offset(n, k) + 1000000))
  }

  lemma ReadingsInRange(maps: Layout, b: seq<RfCal>, i: nat, rf: nat, readings: nat)
    requires maps.id == C2 && Shaped(b) && i < 7 && rf < 3 && Default(b[i], rf) != 0
    requires readings <= MaxReadings(TargetAt(StartFreq(b[i], rf)).limit / 200)
    ensures AllInRange(maps, StartFreq(b[i], rf), TargetAt(StartFreq(b[i], rf)).limit / 200, readings)
  {
    TargetOfStart(b, i, rf);
    var start := StartFreq(b[i], rf);
    var limit := TargetAt(start).limit;
    forall k | 0 <= k < readings ensures InRange(maps.mainPll, ToU32(start + Offset(limit / 200, k) + 1000000)) {
      OffsetWithin(limit, k);
      Unwrapped(start + Offset(limit / 200, k) + 1000000);
    }
  }

  /** What a scan from a default frequency returns. */
  lemma ScanFinds(maps: Layout, b: seq<RfCal>, i: nat, rf: nat, start: u32, samples: seq<Sample>, bcal: int,
                  freqOut: u32)
    requires maps.id == C2 && Shaped(b) && i < 7 && rf < 3 && Default(b[i], rf) != 0 && start == StartFreq(b[i], rf)
    requires Scanned(TargetAt(start), start, samples, bcal, freqOut)
    ensures 1 <= |samples| <= PerScan(i) && (bcal == -1 || bcal == 0 || bcal == 1)
    ensures bcal >= 0 ==>
              && NearDefault(b[i], rf, freqOut) && Covered(maps, freqOut) && Covered(maps, start)
              && AllInRange(maps, start, TargetAt(start).limit / 200, |samples|)
  {
    TargetOfStart(b, i, rf);
    if bcal >= 0 {
      ScanNear(TargetAt(start), start, samples, bcal, freqOut);
      CalibrationInRange(maps, b, i, rf, freqOut);
      CalibrationInRange(maps, b, i, rf, start);
      ReadingsInRange(maps, b, i, rf, |samples|);
    }
  }

  /** What has been found stays found. */
  lemma StillGenuine(dev: Bridge, maps: Layout, h: History, h2: History, start: u32, f: Finding, a: Anchor)
    requires maps.id == C2 && Genuine(dev, maps, h, start, f, a) && Extends(h2, h)
    ensures Genuine(dev, maps, h2, start, f, a)
  {
    hide Scanned, AllDetecting, AllInRange, Covered, Launched, TargetAt, TableByte;
    assert h2.log[f.first..f.end] == h.log[f.first..f.end];
  }

  /** The finding was made after `from`: its samples, its launch and the read of its result. */
  ghost predicate FoundSince(f: Finding, from: History) {
    |from.log| <= f.first && (f.hit ==> |from.launches| <= f.launch && from.asked <= f.at)
  }

  /** The detector was set up at the samples from `first` to `end`. */
  ghost predicate SampledReady(dev: Bridge, log: seq<Sample>, first: nat, end: nat) {
    dev.reliable ==> forall k | first <= k < end && k < |log| :: SetUp(SetupAt(log[k].latch), dev.echo)
  }

  /** The scan, and what it means for the set-up. */
  method ScanOnce(fe: Fe, start: u32) returns (bcal: int, freqOut: u32, ghost samples: seq<Sample>)
    requires fe.Valid() && fe.Consistent() && fe.Recorded()
    modifies fe.dev, fe.regs, fe`log, fe`latch
    ensures fe.dev.m.fault == old(fe.dev.m.fault) && old(fe.dev.asked) <= fe.dev.asked
    ensures fe.Consistent() && fe.Recorded()
    ensures fe.log == old(fe.log) + samples
    ensures Scanned(TargetAt(start), start, samples, bcal, freqOut)
    ensures fe.dev.reliable ==>
              bcal >= 0 && AllDetecting(samples, fe.maps, fe.dev.echo, start, TargetAt(start).limit / 200)
    ensures old(Ready(fe)) ==> Ready(fe) && SampledReady(fe.dev, fe.log, |old(fe.log)|, |fe.log|)
  {
    hide Scanned, AllDetecting, TargetAt, Fe.Consistent, Fe.Recorded;
    bcal, freqOut, samples := Powerscan(fe, start);
  }

  /** The scan and the calibration of one anchor. */
  method MeasureAnchor(fe: Fe, start: u32, ghost b: seq<RfCal>, ghost i: nat, ghost rf: nat)
    returns (bcal: int, anchor: Anchor, ghost f: Finding)
    requires fe.Valid() && fe.Consistent() && fe.Recorded() && fe.maps.id == C2
    requires Shaped(b) && i < 7 && rf < 3 && Default(b[i], rf) != 0 && start == StartFreq(b[i], rf)
    modifies fe.dev, fe.regs, fe`log, fe`latch, fe`launches
    ensures fe.dev.m.fault == old(fe.dev.m.fault)
    ensures fe.Consistent() && fe.Recorded()
    ensures Extends(fe.Past(), old(fe.Past())) && |fe.log| <= |old(fe.log)| + PerScan(i)
    ensures fe.dev.reliable ==> bcal >= 0
    ensures bcal == -1 || bcal == 0 || bcal == 1
    ensures bcal >= 0 ==>
              && NearDefault(b[i], rf, anchor.freq) && FoundSince(f, old(fe.Past())) && f.hit == (bcal == 1)
              && Genuine(fe.dev, fe.maps, fe.Past(), start, f, anchor)
    ensures old(Ready(fe)) ==> Ready(fe) && (bcal >= 0 ==> SampledReady(fe.dev, fe.log, f.first, f.end))
  {
    hide Scanned, AllDetecting, AllInRange, Covered, NearDefault, Launched, TargetAt, StartFreq, Default, PerScan,
         Shaped, TableByte, Genuine, Answered, SampledReady, Ready, Fe.Consistent, Fe.Recorded;
    var freqOut;
    ghost var samples;
    bcal, freqOut, samples := ScanOnce(fe, start);
    ScanFinds(fe.maps, b, i, rf, start, samples, bcal, freqOut);
    anchor, f := Anchor(freqOut, 0, 0), Finding(false, |old(fe.log)|, |fe.log|, 0, 0, false);
    if bcal < 0 {
      return;
    }
    assert fe.log[f.first..f.end] == samples;
    var tab := LoadByte(fe, freqOut);
    var cal := tab;
    if bcal == 1 {
      cal, f := CalibrateFound(fe, freqOut, f);
    }
    anchor := Anchor(freqOut, cal, tab);
    GenuineFinding(fe.dev, fe.maps, fe.Past(), start, f, anchor, samples);
  }

  /** The table's byte for a frequency in range, by way of EB14. */
  method LoadByte(fe: Fe, freq: u32) returns (tab: u8)
    requires fe.Valid() && fe.maps.id == C2 && Covered(fe.maps, freq)
    modifies fe.regs
    ensures tab == TableByte(fe.maps, freq)
    ensures old(fe.Consistent()) ==> fe.Consistent()
    ensures old(Ready(fe)) ==> Ready(fe)
  {
    hide SetUp, Fe.Consistent;
    var _ := fe.CalcRfCal(freq);
    tab := fe.regs[R_EB14] as int;
  }

  lemma GenuineFinding(dev: Bridge, maps: Layout, h: History, start: u32, f: Finding, a: Anchor, samples: seq<Sample>)
    requires maps.id == C2 && f.first < f.end <= |h.log| && h.log[f.first..f.end] == samples
    requires Scanned(TargetAt(start), start, samples, if f.hit then 1 else 0, a.freq)
    requires a.tab == TableByte(maps, a.freq) && Covered(maps, a.freq) && Covered(maps, start)
    requires if f.hit then Answered(dev, h, f, a.cal) else a.cal == a.tab
    requires dev.reliable ==>
               && AllDetecting(samples, maps, dev.echo, start, TargetAt(start).limit / 200)
               && AllInRange(maps, start, TargetAt(start).limit / 200, |samples|)
    requires dev.reliable && f.hit ==> f.ok && Launched(h.launches[f.launch], maps, a.freq)
    ensures Genuine(dev, maps, h, start, f, a)
  {
    hide Scanned, AllDetecting, AllInRange, Covered, Launched, TargetAt, TableByte;
  }

  /** The calibration of a frequency that was found. */
  method CalibrateFound(fe: Fe, freq: u32, ghost scan: Finding) returns (cal: u8, ghost f: Finding)
    requires fe.Valid() && fe.Consistent() && fe.Recorded() && scan.first < scan.end == |fe.log|
    modifies fe.dev, fe.regs, fe`launches
    ensures fe.dev.m.fault == old(fe.dev.m.fault)
    ensures fe.Consistent() && fe.Recorded() && Extends(fe.Past(), old(fe.Past()))
    ensures f == Finding(true, scan.first, scan.end, |old(fe.launches)|, old(fe.dev.asked), f.ok)
    ensures Answered(fe.dev, fe.Past(), f, cal)
    ensures fe.dev.reliable ==> f.ok && Launched(fe.launches[f.launch], fe.maps, freq)
    ensures old(Ready(fe)) ==> Ready(fe)
  {
    hide Launched, Ready, Restored, SignalSet, Fe.Consistent;
    assert fe.Truthful(|fe.log| - 1);
    ghost var ok;
    cal, ok := CalibrateRf(fe, freq);
    f := Finding(true, scan.first, scan.end, |old(fe.launches)|, old(fe.dev.asked), ok);
  }

  /** The fields of band `i` that one more anchor determines. */
  method StoreAnchor(fe: Fe, i: nat, points: seq<Anchor>, anchor: Anchor)
    requires fe.Valid() && i < 7 && |points| < 3
    requires BandsPlausible(fe.rfCalState[..]) && Fitted(fe.rfCalState[i], points)
    requires NearDefault(fe.rfCalState[i], |points|, anchor.freq)
    modifies fe.rfCalState
    ensures BandsPlausible(fe.rfCalState[..]) && Fitted(fe.rfCalState[i], points + [anchor])
    ensures SameColumns(fe.rfCalState[i], old(fe.rfCalState[i]))
    ensures forall j | 0 <= j < 8 && j != i :: fe.rfCalState[j] == old(fe.rfCalState[j])
  {
    ghost var b := fe.rfCalState[..];
    BandSpaced(b, i);
    FitExtends(fe.rfCalState[i], points, anchor);
    FitKeepsShape(b, i, points + [anchor]);
    fe.rfCalState[i] := Fit(fe.rfCalState[i], points + [anchor]);
    assert fe.rfCalState[..] == b[i := fe.rfCalState[i]];
  }

  predicate SameColumns(a: RfCal, b: RfCal) {
    a.rf1Def == b.rf1Def && a.rf2Def == b.rf2Def && a.rf3Def == b.rf3Def
  }

  function Budget(i: nat, rf: nat): nat {
    if rf == 0 then 0 else if rf == 1 then PerScan(i) else if rf == 2 then 2 * PerScan(i) else 3 * PerScan(i)
  }

  /** The number of default frequencies of a band. */
  function Defaults(e: RfCal): nat {
    if e.rf1Def == 0 then 0 else if e.rf2Def == 0 then 1 else if e.rf3Def == 0 then 2 else 3
  }

  /** The record of a band follows from anchors that were genuinely found, one for each default in turn. */
  ghost predicate Traced(dev: Bridge, maps: Layout, h: History, e: RfCal, o: Origin)
    requires maps.id == C2
  {
    && Fitted(e, o.points) && |o.findings| == |o.points| && InTurn(o.findings)
    && forall k | 0 <= k < |o.points| :: Genuine(dev, maps, h, StartFreq(e, k), o.findings[k], o.points[k])
  }

  ghost predicate InTurn(fs: seq<Finding>) {
    forall k | 0 < k < |fs| :: fs[k - 1].end <= fs[k].first
  }

  /** They were all found after `from`. */
  ghost predicate FoundAfter(o: Origin, from: History) {
    forall k | 0 <= k < |o.findings| :: FoundSince(o.findings[k], from)
  }

  /** The detector was set up at all samples. */
  ghost predicate OriginReady(dev: Bridge, log: seq<Sample>, o: Origin) {
    forall k | 0 <= k < |o.findings| :: SampledReady(dev, log, o.findings[k].first, o.findings[k].end)
  }

  lemma StillTraced(dev: Bridge, maps: Layout, h: History, h2: History, e: RfCal, o: Origin)
    requires maps.id == C2 && Traced(dev, maps, h, e, o) && Extends(h2, h)
    ensures Traced(dev, maps, h2, e, o)
  {
    hide Genuine, Extends, StartFreq;
    forall k | 0 <= k < |o.points|
      ensures Genuine(dev, maps, h2, StartFreq(e, k), o.findings[k], o.points[k])
    {
      StillGenuine(dev, maps, h, h2, StartFreq(e, k), o.findings[k], o.points[k]);
    }
  }

  lemma StillReady(dev: Bridge, maps: Layout, h: History, h2: History, e: RfCal, o: Origin)
    requires maps.id == C2 && Traced(dev, maps, h, e, o) && Extends(h2, h) && OriginReady(dev, h.log, o)
    ensures OriginReady(dev, h2.log, o)
  {
    hide SetUp, Scanned, AllDetecting, AllInRange, Covered, Launched, TargetAt, TableByte, Answered;
    forall k | 0 <= k < |o.findings| ensures SampledReady(dev, h2.log, o.findings[k].first, o.findings[k].end) {
      assert Genuine(dev, maps, h, StartFreq(e, k), o.findings[k], o.points[k]);
      assert SampledReady(dev, h.log, o.findings[k].first, o.findings[k].end);
      assert h2.log[..|h.log|] == h.log;
    }
  }

  /** One more genuine anchor. */
  lemma TraceGrows(dev: Bridge, maps: Layout, h: History, h2: History, e: RfCal, e2: RfCal, o: Origin, f: Finding,
                   a: Anchor)
    requires maps.id == C2 && Traced(dev, maps, h, e, o) && |o.points| < 3
    requires Extends(h2, h) && SameColumns(e2, e) && |h.log| <= f.first
    requires Fitted(e2, o.points + [a])
    requires Genuine(dev, maps, h2, StartFreq(e, |o.points|), f, a)
    ensures Traced(dev, maps, h2, e2, Origin(o.points + [a], o.findings + [f]))
  {
    hide Fitted, Scanned, AllDetecting, AllInRange, Covered, Launched, TargetAt, TableByte, Answered;
    StillTraced(dev, maps, h, h2, e, o);
    assert forall k | 0 <= k < 3 :: StartFreq(e2, k) == StartFreq(e, k);
    if o.findings != [] {
      var last := |o.findings| - 1;
      assert Genuine(dev, maps, h, StartFreq(e, last), o.findings[last], o.points[last]);
    }
  }

  lemma FoundGrows(o: Origin, f: Finding, a: Anchor, from: History, h: History)
    requires FoundAfter(o, from) && FoundSince(f, h) && Extends(h, from)
    ensures FoundAfter(Origin(o.points + [a], o.findings + [f]), from)
  {
  }

  lemma ReadyGrows(dev: Bridge, maps: Layout, h: History, h2: History, e: RfCal, o: Origin, f: Finding, a: Anchor)
    requires maps.id == C2 && Traced(dev, maps, h, e, o) && Extends(h2, h) && OriginReady(dev, h.log, o)
    requires SampledReady(dev, h2.log, f.first, f.end)
    ensures OriginReady(dev, h2.log, Origin(o.points + [a], o.findings + [f]))
  {
    hide SampledReady, Traced;
    StillReady(dev, maps, h, h2, e, o);
  }

  /** One turn of the anchor loop. */
  method AddAnchor(fe: Fe, i: nat, start: u32, points: seq<Anchor>, ghost o: Origin, ghost from: History)
    returns (ret: int, next: seq<Anchor>, ghost o2: Origin)
    requires fe.Valid() && fe.Consistent() && fe.Recorded() && fe.maps.id == C2
    requires i < 7 && |points| < 3 && BandsPlausible(fe.rfCalState[..]) && o.points == points
    requires Traced(fe.dev, fe.maps, fe.Past(), fe.rfCalState[i], o)
    requires FoundAfter(o, from) && Extends(fe.Past(), from)
    requires Default(fe.rfCalState[i], |points|) != 0 && start == StartFreq(fe.rfCalState[i], |points|)
    modifies fe.dev, fe.regs, fe`log, fe`latch, fe`launches, fe.rfCalState
    ensures fe.dev.m.fault == old(fe.dev.m.fault)
    ensures fe.Consistent() && fe.Recorded()
    ensures Extends(fe.Past(), old(fe.Past())) && |fe.log| <= |old(fe.log)| + PerScan(i)
    ensures BandsPlausible(fe.rfCalState[..])
    ensures forall j | 0 <= j < 8 && j != i :: fe.rfCalState[j] == old(fe.rfCalState[j])
    ensures fe.dev.reliable ==> ret >= 0
    ensures ret >= 0 ==>
              && o2.points == next && |next| == |points| + 1
              && Traced(fe.dev, fe.maps, fe.Past(), fe.rfCalState[i], o2)
              && FoundAfter(o2, from)
    ensures old(Ready(fe)) && OriginReady(fe.dev, old(fe.log), o) ==>
              Ready(fe) && (ret >= 0 ==> OriginReady(fe.dev, fe.log, o2))
  {
    hide Genuine, OriginReady, SampledReady, Ready, FoundAfter, Fe.Consistent, Fe.Recorded, StartFreq, NearDefaults,
         PerScan, Plausible;
    ghost var b := fe.rfCalState[..];
    var anchor;
    ghost var f;
    ret, anchor, f := MeasureAnchor(fe, start, b, i, |points|);
    next := points + [anchor];
    o2 := Origin(next, o.findings + [f]);
    if ret >= 0 {
      StoreAnchor(fe, i, points, anchor);
      TraceGrows(fe.dev, fe.maps, old(fe.Past()), fe.Past(), b[i], fe.rfCalState[i], o, f, anchor);
      FoundGrows(o, f, anchor, from, old(fe.Past()));
      if old(Ready(fe)) && OriginReady(fe.dev, old(fe.log), o) {
        ReadyGrows(fe.dev, fe.maps, old(fe.Past()), fe.Past(), b[i], o, f, anchor);
      }
    }
  }

  lemma DefaultsKept(b: seq<RfCal>, i: nat, rf: nat)
    requires Shaped(b) && i < 7 && rf < 3
    ensures Default(b[i], rf) == Default(RF_BAND_TEMPLATE[i], rf)
    ensures StartFreq(b[i], rf) == StartFreq(RF_BAND_TEMPLATE[i], rf)
    ensures StartFreq(b[i], rf) == 0 <==> Default(b[i], rf) == 0
  {
    StaticColumns(b, i);
    BandSpaced(b, i);
    Unwrapped(1000 * Default(b[i], rf));
  }

  /** With all its anchors a band is calibrated. */
  lemma AllAnchors(b: seq<RfCal>, i: nat, points: seq<Anchor>)
    requires BandsPlausible(b) && i < 7 && Fitted(b[i], points)
    requires |points| == 3 || StartFreq(RF_BAND_TEMPLATE[i], |points|) == 0
    ensures Calibrated(b[i]) && |points| == Defaults(b[i])
  {
    BandSpaced(b, i);
    forall rf | 0 <= rf < 3
      ensures Default(b[i], rf) == Default(RF_BAND_TEMPLATE[i], rf)
      ensures StartFreq(b[i], rf) == 0 <==> Default(b[i], rf) == 0
      ensures StartFreq(b[i], rf) == StartFreq(RF_BAND_TEMPLATE[i], rf)
    {
      DefaultsKept(b, i, rf);
    }
    FittedIsCalibrated(b[i], points);
    assert forall rf | 0 <= rf < |points| :: NearDefault(b[i], rf, points[rf].freq);
  }

  lemma MoreAnchors(b: seq<RfCal>, i: nat, points: seq<Anchor>)
    requires Shaped(b) && i < 7 && |points| < 3 && NearDefaults(b[i], points) && Default(b[i], |points|) != 0
    ensures Budget(i, |points| + 1) <= Budget(i, Defaults(RF_BAND_TEMPLATE[i]))
  {
    BandSpaced(b, i);
    DefaultsKept(b, i, 0);
    DefaultsKept(b, i, 1);
    DefaultsKept(b, i, 2);
  }

  /** The anchor loop. */
  method AddAnchors(fe: Fe, i: nat) returns (ret: int, ghost o: Origin)
    requires fe.Valid() && fe.Consistent() && fe.Recorded() && fe.maps.id == C2 && BandsPlausible(fe.rfCalState[..])
    requires i < 7
    modifies fe.dev, fe.regs, fe`log, fe`latch, fe`launches, fe.rfCalState
    ensures fe.dev.m.fault == old(fe.dev.m.fault)
    ensures fe.Consistent() && fe.Recorded()
    ensures BandsPlausible(fe.rfCalState[..])
    ensures forall j | 0 <= j < 8 && j != i :: fe.rfCalState[j] == old(fe.rfCalState[j])
    ensures Extends(fe.Past(), old(fe.Past()))
    ensures |fe.log| <= |old(fe.log)| + Budget(i, Defaults(RF_BAND_TEMPLATE[i]))
    ensures fe.dev.reliable ==> ret >= 0
    ensures ret >= 0 ==>
              && Traced(fe.dev, fe.maps, fe.Past(), fe.rfCalState[i], o) && FoundAfter(o, old(fe.Past()))
              && (|o.points| == 3 || StartFreq(RF_BAND_TEMPLATE[i], |o.points|) == 0)
    ensures old(Ready(fe)) ==> Ready(fe) && (ret >= 0 ==> OriginReady(fe.dev, fe.log, o))
  {
    hide Genuine, SampledReady, Ready, FoundSince, Fe.Consistent, Fe.Recorded, StartFreq, Plausible, NearDefault;
    var points := [];
    o := Origin([], []);
    var e := fe.rfCalState[i];
    var rfDefault := [StartFreq(e, 0), StartFreq(e, 1), StartFreq(e, 2)];
    DefaultsKept(fe.rfCalState[..], i, 0);
    DefaultsKept(fe.rfCalState[..], i, 1);
    DefaultsKept(fe.rfCalState[..], i, 2);
    ret := 0;
    while |points| <= 2
      invariant fe.dev.m.fault == old(fe.dev.m.fault) && fe.Consistent()
      invariant fe.Recorded() && |points| <= 3 && o.points == points
      invariant BandsPlausible(fe.rfCalState[..]) && FoundAfter(o, old(fe.Past()))
      invariant Traced(fe.dev, fe.maps, fe.Past(), fe.rfCalState[i], o)
      invariant forall j | 0 <= j < 8 && j != i :: fe.rfCalState[j] == old(fe.rfCalState[j])
      invariant Extends(fe.Past(), old(fe.Past())) && |fe.log| <= |old(fe.log)| + Budget(i, |points|)
      invariant Budget(i, |points|) <= Budget(i, Defaults(RF_BAND_TEMPLATE[i]))
      invariant old(Ready(fe)) ==> Ready(fe) && OriginReady(fe.dev, fe.log, o)
      invariant ret >= 0
    {
      if rfDefault[|points|] == 0 {
        return;
      }
      DefaultsKept(fe.rfCalState[..], i, |points|);
      MoreAnchors(fe.rfCalState[..], i, points);
      ret, points, o := AddAnchor(fe, i, rfDefault[|points|], points, o, old(fe.Past()));
      if ret < 0 {
        return;
      }
    }
  }

  /** A calibrated record with an origin for each of its default frequencies. */
  ghost predicate Complete(dev: Bridge, maps: Layout, h: History, e: RfCal, o: Origin)
    requires maps.id == C2
  {
    Calibrated(e) && Traced(dev, maps, h, e, o) && |o.points| == Defaults(e)
  }

  lemma TracedIsComplete(dev: Bridge, maps: Layout, h: History, b: seq<RfCal>, i: nat, o: Origin)
    requires maps.id == C2 && BandsPlausible(b) && i < 7 && Traced(dev, maps, h, b[i], o)
    requires |o.points| == 3 || StartFreq(RF_BAND_TEMPLATE[i], |o.points|) == 0
    ensures Complete(dev, maps, h, b[i], o)
  {
    hide Genuine;
    AllAnchors(b, i, o.points);
  }

  lemma PlausibleShaped(b: seq<RfCal>)
    requires BandsPlausible(b)
    ensures Shaped(b)
  {
  }

  /** tda18271_rf_tracking_filters_init: the band of `freq` is calibrated from anchors found for each of its
      default frequencies, and their origin is recorded; the other bands are left alone. */
  method RfTrackingFiltersInit(fe: Fe, freq: u32) returns (ret: int)
    requires fe.Valid() && fe.Consistent() && fe.Recorded() && fe.maps.id == C2 && BandsPlausible(fe.rfCalState[..])
    requires |fe.origins| == 8
    modifies fe.dev, fe.regs, fe`log, fe`latch, fe`launches, fe`origins, fe.rfCalState
    ensures fe.dev.m.fault == old(fe.dev.m.fault)
    ensures fe.Consistent() && fe.Recorded()
    ensures BandsPlausible(fe.rfCalState[..]) && |fe.origins| == 8
    ensures forall j | 0 <= j < 8 && j != BandIndex(freq) ::
              fe.rfCalState[j] == old(fe.rfCalState[j]) && fe.origins[j] == old(fe.origins[j])
    ensures ret <= 0
    ensures BandIndex(freq) < 0 ==> ret == BandIndex(freq) && fe.Past() == old(fe.Past())
    ensures var i := BandIndex(freq);
            i >= 0 ==>
              && i < 7
              && Extends(fe.Past(), old(fe.Past()))
              && |fe.log| <= |old(fe.log)| + Budget(i, Defaults(RF_BAND_TEMPLATE[i]))
              && (fe.dev.reliable ==> ret == 0)
              && (ret == 0 ==> BandDone(fe, i, old(fe.Past())))
              && (old(Ready(fe)) ==> Ready(fe) && (ret == 0 ==> OriginReady(fe.dev, fe.log, fe.origins[i])))
  {
    hide Complete, Traced, Defaults, Budget, BandIndex, BandsPlausible, Shaped, StartFreq, FoundAfter, OriginReady,
         Ready, Fe.Consistent, Fe.Recorded;
    PlausibleShaped(fe.rfCalState[..]);
    var i, rfBand := LookupRfBand(fe.rfCalState, freq);
    if i < 0 {
      return i;
    }
    ghost var o;
    ret, o := AddAnchors(fe, i);
    if ret < 0 {
      return;
    }
    TracedIsComplete(fe.dev, fe.maps, fe.Past(), fe.rfCalState[..], i, o);
    fe.origins := fe.origins[i := o];
    ret := 0;
  }

  /** Band `i` is calibrated, from findings made after `from`. */
  ghost predicate BandDone(fe: Fe, i: nat, from: History)
    requires fe.Valid() && fe.maps.id == C2 && i < 8 && |fe.origins| == 8
    reads fe`log, fe`launches, fe`origins, fe.rfCalState, fe.dev`asked
  {
    Complete(fe.dev, fe.maps, fe.Past(), fe.rfCalState[i], fe.origins[i]) && FoundAfter(fe.origins[i], from)
  }

  /** ... with the detector set up for them. */
  ghost predicate BandReady(fe: Fe, i: nat)
    requires fe.Valid() && i < 8 && |fe.origins| == 8
    reads fe`log, fe`origins
  {
    OriginReady(fe.dev, fe.log, fe.origins[i])
  }

  // ---------- The whole calibration ----------

  /** The bits that switch the thermometer do not change its reading. */
  lemma SameTemperature(b: byte)
    ensures Temperature(b & !0x10) == Temperature(b)
  {
    assert (b & !0x10) & 0x0f == b & 0x0f;
    assert (b & !0x10) & 0x20 == b & 0x20;
  }

  /** Of the chip only TM and EP4 have changed. */
  twostate predicate OnlyThermometer(fe: Fe)
    requires fe.Valid()
    reads fe.dev
  {
    forall r {:trigger fe.dev.Chip()[r]} | 0 <= r < NUM_REGS && r != R_TM && r != R_EP4 ::
              fe.dev.Chip()[r] == old(fe.dev.Chip()[r])
  }

  /** The standby bits are clear in the shadow if the chip was not in standby. */
  ghost predicate Awake(fe: Fe)
    requires fe.Valid()
    reads fe, fe.regs, fe.dev
  {
    fe.regs[R_EP3] & 0xe0 == 0x00 && fe.dev.Chip()[R_EP3] & 0xe0 == 0x00
  }

  /** The thermometer was on when the chip was read last; or it was read twice, and on the first time. The second
      read finds it as the first one was answered, but in the other range: the driver writes that answer back. */
  ghost predicate Sensed(dev: Bridge, twice: bool)
    reads dev`asked, dev`sight, dev`sightBefore
  {
    if twice then
      dev.asked >= 2 && dev.sightBefore[R_TM] & 0x10 == 0x10
      && dev.sight[R_TM] & 0x10 == dev.Said(dev.asked - 2, R_TM) & 0x10
      && dev.sight[R_TM] & 0x20 != dev.Said(dev.asked - 2, R_TM) & 0x20
    else dev.sight[R_TM] & 0x10 == 0x10
  }

  ghost predicate ThermometerOn(dev: Bridge)
    reads dev`asked, dev`sight, dev`sightBefore
  {
    Sensed(dev, false) || Sensed(dev, true)
  }

  /** Switches the thermometer on and reads it, once more in the other range if the reading is saturated. */
  method Sense(fe: Fe)
    requires fe.Valid()
    modifies fe.dev, fe.regs
    ensures fe.dev.m.fault == old(fe.dev.m.fault)
    ensures old(fe.Consistent()) ==> fe.Consistent()
    ensures old(fe.Recorded()) ==> fe.Recorded()
    ensures fe.KeepsBut(old(fe.Shadow()), 0, 16) && OnlyThermometer(fe)
    ensures fe.dev.honest && old(Awake(fe)) ==> Awake(fe)
    ensures fe.dev.asked > old(fe.dev.asked)
    ensures var twice := Saturated(fe.dev.Said(old(fe.dev.asked), R_TM));
            fe.dev.reliable ==>
              && fe.regs[R_TM] == fe.dev.Said(fe.dev.asked - 1, R_TM)
              && fe.dev.asked == old(fe.dev.asked) + (if twice then 2 else 1) && Sensed(fe.dev, twice)
  {
    hide Saturated, Fe.Consistent, Fe.Recorded;
    fe.Set(R_TM, 0x10);
    var _ := fe.ReadRegs();
    var tm := fe.regs[R_TM];
    SaturatedNibble(tm);
    RangeBit(tm);
    if (tm & 0x0f == 0x00 && tm & 0x20 == 0x20) || (tm & 0x0f == 0x08 && tm & 0x20 == 0x00) {
      SwitchRange(fe);
    }
  }

  method SwitchRange(fe: Fe)
    requires fe.Valid()
    modifies fe.dev, fe.regs
    ensures fe.dev.m.fault == old(fe.dev.m.fault)
    ensures old(fe.Consistent()) ==> fe.Consistent()
    ensures old(fe.Recorded()) ==> fe.Recorded()
    ensures fe.KeepsBut(old(fe.Shadow()), 0, 16) && OnlyThermometer(fe)
    ensures fe.dev.honest && old(Awake(fe)) ==> Awake(fe)
    ensures fe.dev.asked == old(fe.dev.asked) + 1 && fe.dev.sightBefore == old(fe.dev.sight)
    ensures fe.dev.reliable ==>
              && fe.regs[R_TM] == fe.dev.Said(old(fe.dev.asked), R_TM)
              && fe.dev.sight[R_TM] & 0x10 == old(fe.regs[R_TM]) & 0x10
              && fe.dev.sight[R_TM] & 0x20 == 0x20 - (old(fe.regs[R_TM]) & 0x20)
  {
    RangeBits(fe.regs[R_TM]);
    if fe.regs[R_TM] & 0x20 == 0x20 {
      fe.Clear(R_TM, 0x20);
    } else {
      fe.Set(R_TM, 0x20);
      RangeSet(old(fe.regs[R_TM]));
    }
    var _ := fe.ReadRegs();
  }

  lemma RangeBits(b: byte)
    ensures (b & !0x20) & 0x10 == b & 0x10 && (b | 0x20) & 0x10 == b & 0x10
  {
  }

  lemma RangeSet(b: byte)
    ensures b & 0x20 == 0x20 || b & 0x20 == 0x00
  {
  }

  /** The thermometer is switched off, and the calibration mode is normal. */
  method ThermometerOff(fe: Fe)
    requires fe.Valid()
    modifies fe.dev`m, fe.regs
    ensures fe.dev.m.fault == old(fe.dev.m.fault)
    ensures old(fe.Consistent()) ==> fe.Consistent()
    ensures Temperature(fe.regs[R_TM]) == Temperature(old(fe.regs[R_TM]))
    ensures fe.KeepsBut(old(fe.Shadow()), 0, 16) && OnlyThermometer(fe) && fe.regs[R_EP3] == old(fe.regs[R_EP3])
    ensures fe.regs[R_TM] & 0x10 == 0x00 && fe.regs[R_EP4] & 0x03 == 0x00
    ensures fe.dev.reliable ==> fe.dev.Chip()[R_TM] & 0x10 == 0x00 && fe.dev.Chip()[R_EP4] & 0x03 == 0x00
  {
    SameTemperature(fe.regs[R_TM]);
    fe.Clear(R_TM, 0x10);
    fe.Clear(R_EP4, 0x03);
  }

  /** tda18271_read_thermometer: the temperature of the byte that was read last. */
  method ReadThermometer(fe: Fe) returns (tm: u8)
    requires fe.Valid()
    modifies fe.dev, fe.regs
    ensures fe.dev.m.fault == old(fe.dev.m.fault) && old(fe.dev.asked) <= fe.dev.asked
    ensures old(fe.Consistent()) ==> fe.Consistent()
    ensures old(fe.Recorded()) ==> fe.Recorded()
    ensures tm == Temperature(fe.regs[R_TM]) && 60 <= tm <= 122
    ensures fe.dev.asked > old(fe.dev.asked)
    ensures fe.dev.reliable ==>
              && tm == Temperature(fe.dev.Said(fe.dev.asked - 1, R_TM))
              && fe.dev.asked == old(fe.dev.asked)
                                 + (if Saturated(fe.dev.Said(old(fe.dev.asked), R_TM)) then 2 else 1)
              && Sensed(fe.dev, Saturated(fe.dev.Said(old(fe.dev.asked), R_TM)))
    ensures fe.KeepsBut(old(fe.Shadow()), 0, 16) && OnlyThermometer(fe)
    ensures fe.dev.honest && old(Awake(fe)) ==> Awake(fe)
    ensures fe.regs[R_TM] & 0x10 == 0x00 && fe.regs[R_EP4] & 0x03 == 0x00
    ensures fe.dev.reliable ==> fe.dev.Chip()[R_TM] & 0x10 == 0x00 && fe.dev.Chip()[R_EP4] & 0x03 == 0x00
  {
    hide Saturated;
    Sense(fe);
    tm := LookupThermometer(fe.regs[R_TM]);
    TemperatureRange(fe.regs[R_TM]);
    ThermometerOff(fe);
  }

  /** The detector is set up: digital standard, normal mode, lowest gains, and the 1.5 MHz low pass filter. */
  ghost predicate ScanReady(chip: Image) {
    && chip[R_EP3] & 0x1f == 0x12 && chip[R_EP4] & 0x1f == 0x00 && chip[R_EB18] & 0x03 == 0x00
    && chip[R_EB21] & 0x03 == 0x00 && chip[R_EB23] & 0x06 == 0x06
  }

  /** The agc loops are on again and the filter is off, in standby. */
  ghost predicate PoweredDown(chip: Image) {
    && chip[R_EP3] & 0xe0 == 0x80 && chip[R_EB12] & 0x20 == 0x00 && chip[R_EB18] & 0x83 == 0x00
    && chip[R_EB21] & 0x03 == 0x03 && chip[R_EB23] & 0x06 == 0x00
  }

  lemma DigitalStandard(b: byte)
    ensures ((b & 0xe0) | 0x12) & 0x1f == 0x12
  {
  }

  /** The digital standard, normal mode and the lowest if level. */
  method SelectDigital(fe: Fe) returns (ret: int)
    requires fe.Valid() && fe.Consistent()
    modifies fe.dev`m, fe.regs
    ensures fe.dev.m.fault == old(fe.dev.m.fault)
    ensures fe.Consistent()
    ensures fe.dev.reliable ==> ret == 0
    ensures ret == 0 || ret == -1
    ensures fe.regs[R_EP3] & 0x1f == 0x12
    ensures ret == 0 ==> fe.dev.Chip()[R_EP3] & 0x1f == 0x12 && fe.dev.Chip()[R_EP4] & 0x1f == 0x00
  {
    DigitalStandard(fe.regs[R_EP3]);
    fe.regs[R_EP3] := (fe.regs[R_EP3] & 0xe0) | 0x12;
    fe.ClearBits(R_EP4, 0x1f);
    ret := fe.WriteRegs(R_EP3, 2);
  }

  /** tda18271_powerscan_init. */
  method PowerscanInit(fe: Fe) returns (ret: int)
    requires fe.Valid() && fe.Consistent()
    modifies fe.dev`m, fe.regs
    ensures fe.dev.m.fault == old(fe.dev.m.fault)
    ensures fe.Consistent()
    ensures fe.dev.reliable ==> ret == 0
    ensures ret == 0 || ret == -1
    ensures ret == 0 ==> ScanReady(fe.dev.Chip()) && Ready(fe)
  {
    hide Fe.Consistent;
    ret := SelectDigital(fe);
    if ret < 0 {
      return;
    }
    ret := LowerGains(fe);
  }

  /** The gains at 6 dB, and the 1.5 MHz low pass filter. */
  method LowerGains(fe: Fe) returns (ret: int)
    requires fe.Valid() && fe.Consistent()
    modifies fe.dev`m, fe.regs
    ensures fe.dev.m.fault == old(fe.dev.m.fault)
    ensures fe.Consistent()
    ensures fe.dev.reliable ==> ret == 0
    ensures ret == 0 || ret == -1
    ensures fe.regs[R_EP3] == old(fe.regs[R_EP3])
    ensures fe.dev.Chip()[R_EP3] == old(fe.dev.Chip()[R_EP3]) && fe.dev.Chip()[R_EP4] == old(fe.dev.Chip()[R_EP4])
    ensures var chip := fe.dev.Chip();
            ret == 0 ==> chip[R_EB18] & 0x03 == 0x00 && chip[R_EB21] & 0x03 == 0x00 && chip[R_EB23] & 0x06 == 0x06
  {
    fe.ClearBits(R_EB18, 0x03);
    ret := fe.WriteRegs(R_EB18, 1);
    if ret < 0 {
      return;
    }
    fe.ClearBits(R_EB21, 0x03);
    fe.SetBits(R_EB23, 0x06);
    ret := fe.WriteRegs(R_EB21, 3);
  }

  lemma PowerOnReset(b: byte)
    ensures Standby(b, true, false, false) & 0xe0 == 0x80
  {
  }

  /** Both agc loops are switched on. */
  method LoopsOn(fe: Fe) returns (ret: int)
    requires fe.Valid() && fe.Consistent()
    modifies fe.dev`m, fe.regs
    ensures fe.dev.m.fault == old(fe.dev.m.fault)
    ensures fe.Consistent()
    ensures fe.dev.reliable ==> ret == 0
    ensures ret == 0 || ret == -1
    ensures ret == 0 ==> fe.dev.Chip()[R_EB12] & 0x20 == 0x00 && fe.dev.Chip()[R_EB18] & 0x83 == 0x00
  {
    hide Wire;
    fe.ClearBits(R_EB12, 0x20);
    ret := fe.WriteRegs(R_EB12, 1);
    if ret < 0 {
      return;
    }
    fe.ClearBits(R_EB18, 0x83);
    ret := fe.WriteRegs(R_EB18, 1);
  }

  /** tda18271_por. */
  method Por(fe: Fe) returns (ret: int)
    requires fe.Valid() && fe.Consistent()
    modifies fe.dev`m, fe.regs
    ensures fe.dev.m.fault == old(fe.dev.m.fault)
    ensures fe.Consistent()
    ensures fe.dev.reliable ==> ret == 0
    ensures ret == 0 || ret == -1
    ensures ret == 0 ==> PoweredDown(fe.dev.Chip())
  {
    ret := LoopsOn(fe);
    if ret < 0 {
      return;
    }
    fe.SetBits(R_EB21, 0x03);
    PowerOnReset(fe.regs[R_EP3]);
    ret := fe.SetStandbyMode(true, false, false);
    if ret < 0 {
      return;
    }
    fe.ClearBits(R_EB23, 0x06);
    ret := fe.WriteRegs(R_EB21, 3);
  }

  /** Readings the bands before `i` can take. */
  function Readings(i: nat): nat
    requires i <= 7
  {
    if i == 0 then 0 else Readings(i - 1) + Budget(i - 1, Defaults(RF_BAND_TEMPLATE[i - 1]))
  }

  /** The loop visits the bands in turn: the maximum of a band belongs to it. */
  lemma BandOfMaximum(b: seq<RfCal>, i: nat)
    requires Shaped(b) && i < 7
    ensures BandIndex(ToU32(1000 * b[i].rfmax)) == i && b[i].rfmax != 0
  {
    StaticColumns(b, i);
    TemplateIsRfBand(b);
    RfBandWellFormed();
    Unwrapped(1000 * b[i].rfmax);
    SlotBetween(RF_BAND, 1000 * b[i].rfmax, i);
  }

  /** The bands below `n` are calibrated, from findings made after `from` with the detector set up. */
  ghost predicate DoneUpTo(fe: Fe, n: nat, from: History)
    requires fe.Valid() && fe.maps.id == C2
    reads fe`log, fe`launches, fe`origins, fe.rfCalState, fe.dev`asked
  {
    |fe.origins| == 8 && n <= 7 && forall i | 0 <= i < n :: BandDone(fe, i, from) && BandReady(fe, i)
  }

  /** The recorded temperature is the one the chip reported to some read. */
  ghost predicate Warm(fe: Fe)
    reads fe`tmRfcal, fe`tmAt
  {
    60 <= fe.tmRfcal <= 122 && (fe.dev.reliable ==> fe.tmRfcal == Temperature(fe.dev.Said(fe.tmAt, R_TM)))
  }

  /** The calibration state is usable, and what it claims to be. */
  ghost predicate CalibrationOk(fe: Fe)
    requires fe.Valid()
    reads fe`log, fe`launches, fe`origins, fe`tmRfcal, fe`tmAt, fe`calInitialized, fe.rfCalState, fe.dev`asked
  {
    && BandsPlausible(fe.rfCalState[..]) && |fe.origins| == 8
    && (fe.calInitialized ==> fe.maps.id == C2 && DoneUpTo(fe, 7, BEGINNING) && Warm(fe))
  }

  lemma LastBand(b: seq<RfCal>, i: nat)
    requires Shaped(b) && i <= 7
    ensures b[i].rfmax == 0 <==> i == 7
  {
    StaticColumns(b, i);
  }

  lemma ReadingsRise(i: nat)
    requires i < 7
    ensures Readings(i) <= Readings(i + 1) <= Readings(7) == 456
  {
    assert Readings(1) == 20;
    assert Readings(2) == 36;
    assert Readings(3) == 120;
    assert Readings(4) == 162;
    assert Readings(5) == 204;
    assert Readings(6) == 330;
  }

  lemma StillComplete(dev: Bridge, maps: Layout, h: History, h2: History, e: RfCal, o: Origin)
    requires maps.id == C2 && Complete(dev, maps, h, e, o) && Extends(h2, h)
    ensures Complete(dev, maps, h2, e, o)
    ensures OriginReady(dev, h.log, o) ==> OriginReady(dev, h2.log, o)
  {
    hide Calibrated, Traced, OriginReady, Extends;
    StillTraced(dev, maps, h, h2, e, o);
    if OriginReady(dev, h.log, o) {
      StillReady(dev, maps, h, h2, e, o);
    }
  }

  /** One turn of the band loop. */
  method CalibrateBand(fe: Fe, i: nat, ghost from: History) returns (ret: int)
    requires fe.Valid() && fe.Consistent() && fe.Recorded() && fe.maps.id == C2 && BandsPlausible(fe.rfCalState[..])
    requires i < 7 && DoneUpTo(fe, i, from) && Extends(fe.Past(), from) && Ready(fe)
    modifies fe.dev, fe.regs, fe`log, fe`latch, fe`launches, fe`origins, fe.rfCalState
    ensures fe.dev.m.fault == old(fe.dev.m.fault)
    ensures fe.Consistent() && fe.Recorded()
    ensures BandsPlausible(fe.rfCalState[..]) && |fe.origins| == 8 && Ready(fe)
    ensures ret == 0 ==> DoneUpTo(fe, i + 1, from)
    ensures fe.dev.reliable ==> ret == 0
    ensures ret <= 0
    ensures Extends(fe.Past(), old(fe.Past()))
    ensures |fe.log| <= |old(fe.log)| + Budget(i, Defaults(RF_BAND_TEMPLATE[i]))
  {
    hide Complete, OriginReady, FoundAfter, Ready, BandIndex, Budget, Defaults, Fe.Consistent, Fe.Recorded;
    BandOfMaximum(fe.rfCalState[..], i);
    ret := RfTrackingFiltersInit(fe, ToU32(1000 * fe.rfCalState[i].rfmax));
    forall j | 0 <= j < i ensures ret == 0 ==> BandDone(fe, j, from) && BandReady(fe, j) {
      assert old(BandDone(fe, j, from)) && old(BandReady(fe, j));
      StillComplete(fe.dev, fe.maps, old(fe.Past()), fe.Past(), fe.rfCalState[j], fe.origins[j]);
    }
    if ret == 0 {
      FoundLater(fe.origins[i], old(fe.Past()), from);
    }
  }

  lemma FoundLater(o: Origin, h: History, from: History)
    requires FoundAfter(o, h) && Extends(h, from)
    ensures FoundAfter(o, from)
  {
  }

  /** Its loop. */
  method CalibrateBands(fe: Fe) returns (ret: int)
    requires fe.Valid() && fe.Consistent() && fe.Recorded() && fe.maps.id == C2 && BandsPlausible(fe.rfCalState[..])
    requires |fe.origins| == 8 && Ready(fe)
    modifies fe.dev, fe.regs, fe`log, fe`latch, fe`launches, fe`origins, fe.rfCalState
    ensures fe.dev.m.fault == old(fe.dev.m.fault)
    ensures fe.Consistent() && fe.Recorded()
    ensures BandsPlausible(fe.rfCalState[..]) && |fe.origins| == 8
    ensures ret <= 0
    ensures ret == 0 ==> DoneUpTo(fe, 7, old(fe.Past()))
    ensures fe.dev.reliable ==> ret == 0
    ensures Extends(fe.Past(), old(fe.Past())) && |fe.log| <= |old(fe.log)| + 456
  {
    hide BandDone, BandReady, Ready, Budget, Defaults, Plausible, Fe.Consistent, Fe.Recorded;
    var i := 0;
    ret := 0;
    while fe.rfCalState[i].rfmax != 0
      invariant 0 <= i <= 7 && ret == 0 && Ready(fe)
      invariant fe.dev.m.fault == old(fe.dev.m.fault) && fe.Consistent()
      invariant fe.Recorded() && BandsPlausible(fe.rfCalState[..])
      invariant DoneUpTo(fe, i, old(fe.Past()))
      invariant Extends(fe.Past(), old(fe.Past()))
      invariant |fe.log| <= |old(fe.log)| + Readings(i) && Readings(i) <= 456
      decreases 7 - i
    {
      LastBand(fe.rfCalState[..], i);
      ReadingsRise(i);
      ret := CalibrateBand(fe, i, old(fe.Past()));
      if ret < 0 {
        return;
      }
      i := i + 1;
    }
    LastBand(fe.rfCalState[..], i);
  }

  /** Reading the thermometer does not concern what has been found. */
  lemma StillDone(fe: Fe, h: History, from: History)
    requires fe.Valid() && fe.maps.id == C2 && |fe.origins| == 8 && Extends(fe.Past(), h)
    requires forall i | 0 <= i < 7 ::
               && Complete(fe.dev, fe.maps, h, fe.rfCalState[i], fe.origins[i])
               && FoundAfter(fe.origins[i], from) && OriginReady(fe.dev, h.log, fe.origins[i])
    ensures DoneUpTo(fe, 7, from)
  {
    hide Complete, FoundAfter, OriginReady, Extends;
    forall i | 0 <= i < 7 ensures BandDone(fe, i, from) && BandReady(fe, i) {
      StillComplete(fe.dev, fe.maps, h, fe.Past(), fe.rfCalState[i], fe.origins[i]);
    }
  }

  /** tda18271_calc_rf_filter_curve: on success every band is calibrated from findings of this call, and the
      temperature is the chip's; the chip is asked for at most 456 power measurements, whatever it answers. */
  method CalcRfFilterCurve(fe: Fe) returns (ret: int)
    requires fe.Valid() && fe.Consistent() && fe.Recorded() && fe.maps.id == C2 && BandsPlausible(fe.rfCalState[..])
    requires |fe.origins| == 8
    modifies fe.dev, fe.regs, fe`log, fe`latch, fe`launches, fe`origins, fe.rfCalState, fe`tmRfcal, fe`tmAt
    ensures fe.dev.m.fault == old(fe.dev.m.fault)
    ensures fe.Consistent() && fe.Recorded()
    ensures BandsPlausible(fe.rfCalState[..]) && |fe.origins| == 8
    ensures ret <= 0
    ensures ret == 0 ==> DoneUpTo(fe, 7, old(fe.Past())) && Warm(fe) && fe.tmAt + 1 == fe.dev.asked
    ensures ret == 0 && fe.dev.reliable ==> ThermometerOn(fe.dev)
    ensures ret != 0 ==> fe.tmRfcal == old(fe.tmRfcal)
    ensures fe.dev.reliable ==> ret == 0
    ensures Extends(fe.Past(), old(fe.Past())) && |fe.log| <= |old(fe.log)| + 456
  {
    hide DoneUpTo, Warm, Ready, BandsPlausible, ScanReady, ThermometerOn, Fe.Consistent, Fe.Recorded;
    ret := PowerscanInit(fe);
    if ret < 0 {
      return;
    }
    ret := CalibrateBands(fe);
    if ret < 0 {
      return;
    }
    NoteTemperature(fe, old(fe.Past()));
  }

  /** The temperature of the calibration. */
  method NoteTemperature(fe: Fe, ghost from: History)
    requires fe.Valid() && fe.Consistent() && fe.Recorded() && fe.maps.id == C2 && DoneUpTo(fe, 7, from)
    modifies fe.dev, fe.regs, fe`tmRfcal, fe`tmAt
    ensures fe.dev.m.fault == old(fe.dev.m.fault)
    ensures fe.Consistent() && fe.Recorded() && Extends(fe.Past(), old(fe.Past()))
    ensures DoneUpTo(fe, 7, from) && Warm(fe) && fe.tmAt + 1 == fe.dev.asked
    ensures fe.dev.reliable ==> ThermometerOn(fe.dev)
  {
    hide Complete, FoundAfter, OriginReady, Sensed, Saturated, Temperature, Fe.Consistent, Fe.Recorded;
    ghost var found := fe.Past();
    AllDone(fe, from);
    var tm := ReadThermometer(fe);
    fe.tmRfcal := tm;
    fe.tmAt := fe.dev.asked - 1;
    StillDone(fe, found, from);
  }

  lemma AllDone(fe: Fe, from: History)
    requires fe.Valid() && fe.maps.id == C2 && DoneUpTo(fe, 7, from)
    ensures |fe.origins| == 8
    ensures forall i | 0 <= i < 7 ::
              && Complete(fe.dev, fe.maps, fe.Past(), fe.rfCalState[i], fe.origins[i])
              && FoundAfter(fe.origins[i], from) && OriginReady(fe.dev, fe.log, fe.origins[i])
  {
    hide Complete, FoundAfter, OriginReady;
    forall i | 0 <= i < 7
      ensures Complete(fe.dev, fe.maps, fe.Past(), fe.rfCalState[i], fe.origins[i])
      ensures FoundAfter(fe.origins[i], from) && OriginReady(fe.dev, fe.log, fe.origins[i])
    {
      assert BandDone(fe, i, from) && BandReady(fe, i);
    }
  }

  /** A calibration is due: the mark is missing, or RF_CAL_OK, bit 4 of EP1 as it was read last, is clear. */
  predicate Due(fe: Fe)
    requires fe.Valid()
    reads fe, fe.regs
  {
    !fe.calInitialized || fe.regs[R_EP1] & 0x10 == 0x00
  }

  /** tda18271c2_rf_cal_init: a calibration that is due ends with the power-on reset. */
  method C2RfCalInit(fe: Fe) returns (ret: int)
    requires fe.Valid() && fe.Consistent() && fe.Recorded() && fe.maps.id == C2 && CalibrationOk(fe)
    modifies fe.dev, fe.regs, fe`log, fe`latch, fe`launches, fe`origins, fe.rfCalState, fe`tmRfcal, fe`tmAt,
             fe`calInitialized
    ensures fe.dev.m.fault == old(fe.dev.m.fault)
    ensures fe.Consistent() && fe.Recorded()
    ensures CalibrationOk(fe)
    ensures ret == 0 <==> fe.calInitialized
    ensures fe.dev.reliable ==> ret == 0
    ensures Extends(fe.Past(), old(fe.Past())) && |fe.log| <= |old(fe.log)| + 456
    ensures old(Due(fe)) && ret == 0 ==> DoneUpTo(fe, 7, old(fe.Past())) && PoweredDown(fe.dev.Chip())
    ensures !old(Due(fe)) ==> ret == 0 && fe.Past() == old(fe.Past()) && unchanged(fe.dev, fe.regs, fe.rfCalState)
  {
    hide DoneUpTo, BandsPlausible, PoweredDown, Fe.Consistent, Fe.Recorded;
    if fe.regs[R_EP1] & 0x10 == 0 {
      fe.calInitialized := false;
    }
    if fe.calInitialized {
      return 0;
    }
    ret := CalcRfFilterCurve(fe);
    if ret < 0 {
      return;
    }
    ret := Por(fe);
    if ret < 0 {
      return;
    }
    FromStart(fe, old(fe.Past()));
    fe.calInitialized := true;
  }

  lemma FromStart(fe: Fe, from: History)
    requires fe.Valid() && fe.maps.id == C2 && DoneUpTo(fe, 7, from)
    ensures DoneUpTo(fe, 7, BEGINNING)
  {
    hide Complete, OriginReady;
    forall i | 0 <= i < 7 ensures BandDone(fe, i, BEGINNING) && BandReady(fe, i) {
      assert BandDone(fe, i, from) && BandReady(fe, i);
    }
  }
}
