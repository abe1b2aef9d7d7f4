/** The lookup tables of src/tda18271-maps.c. Every table ends with an entry whose maximum is 0; the
    maxima are in kHz. Long tables are written in pieces. The tables for the RF calibration byte, the
    band-pass filter, K and M, gain taper and image rejection are not listed: a layout may use any
    well-formed table in their place. */
module Tables {
  import opened Words

  datatype Entry<V> = Entry(max: u32, val: V)

  type u8 = x: int | 0 <= x < 256

  /** Post-divider byte and divider. */
  datatype PllDiv = PllDiv(pd: byte, d: u8)

  /** Power to reach, and how far from the starting frequency to look for it, in Hz. */
  datatype CidTarget = CidTarget(target: byte, limit: nat)

  type PllMap = seq<Entry<PllDiv>>

  type Map = seq<Entry<byte>>

  const C1_MAIN_0: PllMap := [
    Entry(32000, PllDiv(0x5f, 240)), Entry(35000, PllDiv(0x5e, 224)),
    Entry(37000, PllDiv(0x5d, 208)), Entry(41000, PllDiv(0x5c, 192)),
    Entry(44000, PllDiv(0x5b, 176)), Entry(49000, PllDiv(0x5a, 160)),
    Entry(54000, PllDiv(0x59, 144)), Entry(61000, PllDiv(0x58, 128))]
  const C1_MAIN_1: PllMap := [
    Entry(65000, PllDiv(0x4f, 120)), Entry(70000, PllDiv(0x4e, 112)),
    Entry(75000, PllDiv(0x4d, 104)), Entry(82000, PllDiv(0x4c, 96)),
    Entry(89000, PllDiv(0x4b, 88)), Entry(98000, PllDiv(0x4a, 80)),
    Entry(109000, PllDiv(0x49, 72)), Entry(123000, PllDiv(0x48, 64))]
  const C1_MAIN_2: PllMap := [
    Entry(131000, PllDiv(0x3f, 60)), Entry(141000, PllDiv(0x3e, 56)),
    Entry(151000, PllDiv(0x3d, 52)), Entry(164000, PllDiv(0x3c, 48)),
    Entry(179000, PllDiv(0x3b, 44)), Entry(197000, PllDiv(0x3a, 40)),
    Entry(219000, PllDiv(0x39, 36)), Entry(246000, PllDiv(0x38, 32))]
  const C1_MAIN_3: PllMap := [
    Entry(263000, PllDiv(0x2f, 30)), Entry(282000, PllDiv(0x2e, 28)),
    Entry(303000, PllDiv(0x2d, 26)), Entry(329000, PllDiv(0x2c, 24)),
    Entry(359000, PllDiv(0x2b, 22)), Entry(395000, PllDiv(0x2a, 20)),
    Entry(438000, PllDiv(0x29, 18)), Entry(493000, PllDiv(0x28, 16))]
  const C1_MAIN_4: PllMap := [
    Entry(526000, PllDiv(0x1f, 15)), Entry(564000, PllDiv(0x1e, 14)),
    Entry(607000, PllDiv(0x1d, 13)), Entry(658000, PllDiv(0x1c, 12)),
    Entry(718000, PllDiv(0x1b, 11)), Entry(790000, PllDiv(0x1a, 10)),
    Entry(877000, PllDiv(0x19, 9)), Entry(987000, PllDiv(0x18, 8))]
  const C1_MAIN: PllMap :=
    C1_MAIN_0 + C1_MAIN_1 + C1_MAIN_2 + C1_MAIN_3 + C1_MAIN_4 + [Entry(0, PllDiv(0x00, 0))]

  const C2_MAIN_0: PllMap := [
    Entry(33125, PllDiv(0x57, 240)), Entry(35500, PllDiv(0x56, 224)),
    Entry(38188, PllDiv(0x55, 208)), Entry(41375, PllDiv(0x54, 192)),
    Entry(45125, PllDiv(0x53, 176)), Entry(49688, PllDiv(0x52, 160)),
    Entry(55188, PllDiv(0x51, 144)), Entry(62125, PllDiv(0x50, 128))]
  const C2_MAIN_1: PllMap := [
    Entry(66250, PllDiv(0x47, 120)), Entry(71000, PllDiv(0x46, 112)),
    Entry(76375, PllDiv(0x45, 104)), Entry(82750, PllDiv(0x44, 96)),
    Entry(90250, PllDiv(0x43, 88)), Entry(99375, PllDiv(0x42, 80)),
    Entry(110375, PllDiv(0x41, 72)), Entry(124250, PllDiv(0x40, 64))]
  const C2_MAIN_2: PllMap := [
    Entry(132500, PllDiv(0x37, 60)), Entry(142000, PllDiv(0x36, 56)),
    Entry(152750, PllDiv(0x35, 52)), Entry(165500, PllDiv(0x34, 48)),
    Entry(180500, PllDiv(0x33, 44)), Entry(198750, PllDiv(0x32, 40)),
    Entry(220750, PllDiv(0x31, 36)), Entry(248500, PllDiv(0x30, 32))]
  const C2_MAIN_3: PllMap := [
    Entry(265000, PllDiv(0x27, 30)), Entry(284000, PllDiv(0x26, 28)),
    Entry(305500, PllDiv(0x25, 26)), Entry(331000, PllDiv(0x24, 24)),
    Entry(361000, PllDiv(0x23, 22)), Entry(397500, PllDiv(0x22, 20)),
    Entry(441500, PllDiv(0x21, 18)), Entry(497000, PllDiv(0x20, 16))]
  const C2_MAIN_4: PllMap := [
    Entry(530000, PllDiv(0x17, 15)), Entry(568000, PllDiv(0x16, 14)),
    Entry(611000, PllDiv(0x15, 13)), Entry(662000, PllDiv(0x14, 12)),
    Entry(722000, PllDiv(0x13, 11)), Entry(795000, PllDiv(0x12, 10)),
    Entry(883000, PllDiv(0x11, 9)), Entry(994000, PllDiv(0x10, 8))]
  const C2_MAIN: PllMap :=
    C2_MAIN_0 + C2_MAIN_1 + C2_MAIN_2 + C2_MAIN_3 + C2_MAIN_4 + [Entry(0, PllDiv(0x00, 0))]

  const C1_CAL_0: PllMap := [
    Entry(33000, PllDiv(0xdd, 208)), Entry(36000, PllDiv(0xdc, 192)),
    Entry(40000, PllDiv(0xdb, 176)), Entry(44000, PllDiv(0xda, 160)),
    Entry(49000, PllDiv(0xd9, 144)), Entry(55000, PllDiv(0xd8, 128)), Entry(63000, PllDiv(0xd3, 112))]
  const C1_CAL_1: PllMap := [
    Entry(67000, PllDiv(0xcd, 104)), Entry(73000, PllDiv(0xcc, 96)),
    Entry(80000, PllDiv(0xcb, 88)), Entry(88000, PllDiv(0xca, 80)),
    Entry(98000, PllDiv(0xc9, 72)), Entry(110000, PllDiv(0xc8, 64)), Entry(126000, PllDiv(0xc3, 56))]
  const C1_CAL_2: PllMap := [
    Entry(135000, PllDiv(0xbd, 52)), Entry(147000, PllDiv(0xbc, 48)),
    Entry(160000, PllDiv(0xbb, 44)), Entry(176000, PllDiv(0xba, 40)),
    Entry(196000, PllDiv(0xb9, 36)), Entry(220000, PllDiv(0xb8, 32)), Entry(252000, PllDiv(0xb3, 28))]
  const C1_CAL_3: PllMap := [
    Entry(271000, PllDiv(0xad, 26)), Entry(294000, PllDiv(0xac, 24)),
    Entry(321000, PllDiv(0xab, 22)), Entry(353000, PllDiv(0xaa, 20)),
    Entry(392000, PllDiv(0xa9, 18)), Entry(441000, PllDiv(0xa8, 16)), Entry(505000, PllDiv(0xa3, 14))]
  const C1_CAL_4: PllMap := [
    Entry(543000, PllDiv(0x9d, 13)), Entry(589000, PllDiv(0x9c, 12)),
    Entry(642000, PllDiv(0x9b, 11)), Entry(707000, PllDiv(0x9a, 10)),
    Entry(785000, PllDiv(0x99, 9)), Entry(883000, PllDiv(0x98, 8)), Entry(1010000, PllDiv(0x93, 7))]
  const C1_CAL: PllMap :=
    C1_CAL_0 + C1_CAL_1 + C1_CAL_2 + C1_CAL_3 + C1_CAL_4 + [Entry(0, PllDiv(0x00, 0))]

  const C2_CAL_0: PllMap := [
    Entry(33813, PllDiv(0xdd, 208)), Entry(36625, PllDiv(0xdc, 192)),
    Entry(39938, PllDiv(0xdb, 176)), Entry(43938, PllDiv(0xda, 160)),
    Entry(48813, PllDiv(0xd9, 144)), Entry(54938, PllDiv(0xd8, 128)), Entry(62813, PllDiv(0xd3, 112))]
  const C2_CAL_1: PllMap := [
    Entry(67625, PllDiv(0xcd, 104)), Entry(73250, PllDiv(0xcc, 96)),
    Entry(79875, PllDiv(0xcb, 88)), Entry(87875, PllDiv(0xca, 80)),
    Entry(97625, PllDiv(0xc9, 72)), Entry(109875, PllDiv(0xc8, 64)), Entry(125625, PllDiv(0xc3, 56))]
  const C2_CAL_2: PllMap := [
    Entry(135250, PllDiv(0xbd, 52)), Entry(146500, PllDiv(0xbc, 48)),
    Entry(159750, PllDiv(0xbb, 44)), Entry(175750, PllDiv(0xba, 40)),
    Entry(195250, PllDiv(0xb9, 36)), Entry(219750, PllDiv(0xb8, 32)), Entry(251250, PllDiv(0xb3, 28))]
  const C2_CAL_3: PllMap := [
    Entry(270500, PllDiv(0xad, 26)), Entry(293000, PllDiv(0xac, 24)),
    Entry(319500, PllDiv(0xab, 22)), Entry(351500, PllDiv(0xaa, 20)),
    Entry(390500, PllDiv(0xa9, 18)), Entry(439500, PllDiv(0xa8, 16)), Entry(502500, PllDiv(0xa3, 14))]
  const C2_CAL_4: PllMap := [
    Entry(541000, PllDiv(0x9d, 13)), Entry(586000, PllDiv(0x9c, 12)),
    Entry(639000, PllDiv(0x9b, 11)), Entry(703000, PllDiv(0x9a, 10)),
    Entry(781000, PllDiv(0x99, 9)), Entry(879000, PllDiv(0x98, 8))]
  const C2_CAL: PllMap :=
    C2_CAL_0 + C2_CAL_1 + C2_CAL_2 + C2_CAL_3 + C2_CAL_4 + [Entry(0, PllDiv(0x00, 0))]

  const RF_BAND: Map := [
    Entry(47900, 0x00), Entry(61100, 0x01), Entry(152600, 0x02), Entry(164700, 0x03), Entry(203500, 0x04),
    Entry(457800, 0x05), Entry(865000, 0x06), Entry(0, 0x00)]

  const DC_0: Map := [
    Entry(47900, 0x00), Entry(55000, 0x00), Entry(61100, 0x0a), Entry(64000, 0x0a), Entry(82000, 0x14),
    Entry(84000, 0x19), Entry(119000, 0x1c), Entry(124000, 0x20), Entry(129000, 0x2a), Entry(134000, 0x32)]
  const DC_1: Map := [
    Entry(139000, 0x39), Entry(144000, 0x3e), Entry(149000, 0x3f), Entry(152600, 0x40), Entry(154000, 0x40),
    Entry(164700, 0x41), Entry(203500, 0x32), Entry(353000, 0x19), Entry(356000, 0x1a), Entry(359000, 0x1b)]
  const DC_2: Map := [
    Entry(363000, 0x1c), Entry(366000, 0x1d), Entry(369000, 0x1e), Entry(373000, 0x1f), Entry(376000, 0x20),
    Entry(379000, 0x21), Entry(383000, 0x22), Entry(386000, 0x23), Entry(389000, 0x24), Entry(393000, 0x25)]
  const DC_3: Map := [
    Entry(396000, 0x26), Entry(399000, 0x27), Entry(402000, 0x28), Entry(404000, 0x29), Entry(407000, 0x2a),
    Entry(409000, 0x2b), Entry(412000, 0x2c), Entry(414000, 0x2d), Entry(417000, 0x2e), Entry(419000, 0x2f)]
  const DC_4: Map := [
    Entry(422000, 0x30), Entry(424000, 0x31), Entry(427000, 0x32), Entry(429000, 0x33), Entry(432000, 0x34),
    Entry(434000, 0x35), Entry(437000, 0x36), Entry(439000, 0x37), Entry(442000, 0x38), Entry(444000, 0x39)]
  const DC_5: Map := [
    Entry(447000, 0x3a), Entry(449000, 0x3b), Entry(457800, 0x3c), Entry(465000, 0x0f), Entry(477000, 0x12),
    Entry(483000, 0x14), Entry(502000, 0x19), Entry(508000, 0x1b), Entry(519000, 0x1c), Entry(522000, 0x1d)]
  const DC_6: Map := [
    Entry(524000, 0x1e), Entry(534000, 0x1f), Entry(549000, 0x20), Entry(554000, 0x22), Entry(584000, 0x24),
    Entry(589000, 0x26), Entry(658000, 0x27), Entry(664000, 0x2c), Entry(669000, 0x2d), Entry(699000, 0x2e)]
  const DC_7: Map := [
    Entry(704000, 0x30), Entry(709000, 0x31), Entry(714000, 0x32), Entry(724000, 0x33), Entry(729000, 0x36),
    Entry(739000, 0x38), Entry(744000, 0x39), Entry(749000, 0x3b), Entry(754000, 0x3c), Entry(759000, 0x3d)]
  const DC_8: Map := [
    Entry(764000, 0x3e), Entry(769000, 0x3f), Entry(774000, 0x40), Entry(779000, 0x41), Entry(784000, 0x43),
    Entry(789000, 0x46), Entry(794000, 0x48), Entry(799000, 0x4b), Entry(804000, 0x4f), Entry(809000, 0x54)]
  const DC_9: Map := [
    Entry(814000, 0x59), Entry(819000, 0x5d), Entry(824000, 0x61), Entry(829000, 0x68), Entry(834000, 0x6e),
    Entry(839000, 0x75), Entry(844000, 0x7e), Entry(849000, 0x82), Entry(854000, 0x84), Entry(859000, 0x8f)]
  const DC_10: Map := [
    Entry(865000, 0x9a)]
  const DC: Map :=
    DC_0 + DC_1 + DC_2 + DC_3 + DC_4 + DC_5 + DC_6 + DC_7 + DC_8 + DC_9 + DC_10 + [Entry(0, 0x00)]

  /** Reading of the thermometer nibble, and the temperature in the two ranges. */
  datatype Thermo = Thermo(d: u8, r0: u8, r1: u8)

  const THERMOMETER: seq<Thermo> := [
    Thermo(0, 60, 92), Thermo(1, 62, 94), Thermo(2, 66, 98), Thermo(3, 64, 96), Thermo(4, 74, 106), Thermo(5, 72, 104),
    Thermo(6, 68, 100), Thermo(7, 70, 102), Thermo(8, 90, 122),
    Thermo(9, 88, 120), Thermo(10, 84, 116), Thermo(11, 86, 118),
    Thermo(12, 76, 108), Thermo(13, 78, 110), Thermo(14, 82, 114), Thermo(15, 80, 112), Thermo(0, 0, 0)]

  const CID_TARGET: seq<Entry<CidTarget>> := [
    Entry(46000, CidTarget(0x04, 1800)), Entry(52200, CidTarget(0x0a, 1500)), Entry(70100, CidTarget(0x01, 4000)),
    Entry(136800, CidTarget(0x18, 4000)), Entry(156700, CidTarget(0x18, 4000)), Entry(186250, CidTarget(0x0a, 4000)),
    Entry(230000, CidTarget(0x0a, 4000)), Entry(345000, CidTarget(0x18, 4000)), Entry(426000, CidTarget(0x0e, 4000)),
    Entry(489500, CidTarget(0x1e, 4000)), Entry(697500, CidTarget(0x32, 4000)), Entry(842000, CidTarget(0x3a, 4000)),
    Entry(0, CidTarget(0x00, 0))]

  /** One band of the tracking-filter calibration: three starting frequencies, the three calibrated
      frequencies in kHz (0 while there is none), and the two line segments through them. */
  datatype RfCal = RfCal(rfmax: u32, rfband: byte, rf1Def: u32, rf2Def: u32, rf3Def: u32,
                         rf1: u32, rf2: u32, rf3: u32, rfA1: int, rfB1: int, rfA2: int, rfB2: int)

  function Band(rfmax: u32, rfband: byte, rf1Def: u32, rf2Def: u32, rf3Def: u32): RfCal {
    RfCal(rfmax, rfband, rf1Def, rf2Def, rf3Def, 0, 0, 0, 0, 0, 0, 0)
  }

  const RF_BAND_TEMPLATE: seq<RfCal> := [
    Band(47900, 0x00, 46000, 0, 0),
    Band(61100, 0x01, 52200, 0, 0),
    Band(152600, 0x02, 70100, 136800, 0),
    Band(164700, 0x03, 156700, 0, 0),
    Band(203500, 0x04, 186250, 0, 0),
    Band(457800, 0x05, 230000, 345000, 426000),
    Band(865000, 0x06, 489500, 697500, 842000),
    Band(0, 0x00, 0, 0, 0)]

  /** A TV standard: intermediate frequency in kHz and the bit fields of EP3, EP4 and EB22. */
  datatype StdItem = StdItem(ifFreq: nat, fmRfn: bv1, agcMode: bv2, std: bv3, ifLvl: bv3, rfagcTop: bv7)

  const C1_STD_MAP: seq<StdItem> := [
    StdItem(1250, 0, 3, 0, 0, 0x2c), StdItem(6750, 0, 1, 6, 0, 0x2c), StdItem(7750, 0, 1, 7, 0, 0x2c),
    StdItem(7750, 0, 1, 7, 0, 0x2c), StdItem(7750, 0, 1, 7, 0, 0x2c), StdItem(7750, 0, 1, 7, 0, 0x2c),
    StdItem(1250, 0, 1, 7, 0, 0x2c), StdItem(5750, 0, 1, 5, 0, 0x2c), StdItem(3250, 0, 3, 4, 1, 0x37),
    StdItem(3300, 0, 3, 4, 1, 0x37), StdItem(3800, 0, 3, 5, 1, 0x37), StdItem(4300, 0, 3, 6, 1, 0x37),
    StdItem(4000, 0, 3, 5, 1, 0x37), StdItem(4500, 0, 3, 6, 1, 0x37), StdItem(5000, 0, 3, 7, 1, 0x37)]

  const C2_STD_MAP: seq<StdItem> := [
    StdItem(1250, 0, 3, 0, 0, 0x2c), StdItem(6000, 0, 1, 5, 0, 0x2c), StdItem(6900, 0, 1, 6, 0, 0x2c),
    StdItem(7100, 0, 1, 6, 0, 0x2c), StdItem(7250, 0, 1, 6, 0, 0x2c), StdItem(6900, 0, 1, 6, 0, 0x2c),
    StdItem(1250, 0, 1, 6, 0, 0x2c), StdItem(5400, 0, 1, 4, 0, 0x2c), StdItem(3250, 0, 3, 4, 1, 0x37),
    StdItem(3300, 0, 3, 4, 1, 0x37), StdItem(3500, 0, 3, 4, 1, 0x37), StdItem(4000, 0, 3, 5, 1, 0x37),
    StdItem(4000, 0, 3, 5, 1, 0x37), StdItem(4500, 0, 3, 6, 1, 0x37), StdItem(5000, 0, 3, 7, 1, 0x37)]
}
