/** I2C transfers through the bridge (tvw_read_i2c, tvw_write_i2c and tvw_wait_bits in src/util.c).
    The bridge's I2C master takes an address and at most 30 bytes at a time; longer transfers are cut
    into chunks which have to amount to one transaction for the chip on the bus. */
module I2c {
  import opened Words
  import opened Pll

  type reg32 = bv32

  const DONE: reg32 := 1
  const NACK: reg32 := 2
  const HALT: reg32 := 4
  const SOFT_RST: reg32 := 0x20
  const DRIVE_EN: reg32 := 0x40
  const DRIVE_SEL: reg32 := 0x80
  const START: reg32 := 0x100
  const STOP: reg32 := 0x200
  const RECEIVE: reg32 := 0x400
  const GO: reg32 := 0x1000
  const PRESCALE: reg32 := 0x0811_0000
  const TIME_LIMIT: reg32 := 0x1000_0000
  const ADDRESSED: reg32 := 0x100

  /** The tuner's address on the bus; bit 0 of an address byte says whether a read follows. */
  const ADDRESS: byte := 0xc0

  const NUM_REGS: nat := 39

  type Image = s: seq<byte> | |s| == NUM_REGS witness seq(NUM_REGS, _ => 0)

  /** What the chip answers to a read, from its first register on. */
  type Dump = s: seq<byte> | |s| == 256 witness seq(256, _ => 0)

  predicate Bit(w: reg32, mask: reg32) { w & mask != 0 }

  function Min(a: int, b: int): int { if a < b then a else b }

  // ---------- The chip on the bus ----------

  /** The registers after a message: its first byte selects a register, the others are stored from
      there on, the register index advancing by itself. */
  function Registers(base: Image, msg: seq<byte>): Image {
    if msg == [] then base
    else
      var p := msg[0] as int;
      seq(NUM_REGS, i requires 0 <= i < NUM_REGS => if p <= i < p + |msg| - 1 then msg[1 + i - p] else base[i])
  }

  datatype Session = Closed | Writing(base: Image, msg: seq<byte>) | Reading(dump: Dump, pos: nat)

  datatype Slave = Slave(regs: Image, session: Session)

  /** Bytes of a chunk written to the chip. Without a start condition they reach it only while its
      transaction is open. */
  function SlaveTakes(s: Slave, start: bool, bytes: seq<byte>, stop: bool): Slave {
    var begun := if start then Slave(s.regs, Writing(s.regs, [])) else s;
    var taken := match begun.session
      case Writing(base, msg) => Slave(Registers(base, msg + bytes), Writing(base, msg + bytes))
      case _ => begun;
    if stop then taken.(session := Closed) else taken
  }

  /** Bytes of a chunk read from the chip; nobody drives the bus of a closed transaction. */
  function SlaveGives(s: Slave, start: bool, dump: Dump, n: nat): seq<byte> {
    var session := if start then Reading(dump, 0) else s.session;
    match session
    case Reading(d, pos) => if pos + n <= 256 then d[pos..pos + n] else seq(n, _ => 0xff)
    case _ => seq(n, _ => 0xff)
  }

  function SlaveGave(s: Slave, start: bool, dump: Dump, n: nat, stop: bool): Slave {
    var session := if start then Reading(dump, 0) else s.session;
    var moved := match session
      case Reading(d, pos) => Reading(d, pos + n)
      case other => other;
    s.(session := if stop then Closed else moved)
  }

  // ---------- The master in the bridge ----------

  /** One GO: the conditions sent, the announced number of bytes and the bytes themselves. */
  datatype Chunk = Chunk(start: bool, stop: bool, receive: bool, announced: nat, bytes: seq<byte>)

  /** The bits of CNTL_0 and CNTL_1 that matter, and the buffers. `clean` lasts from a reset to the next GO.
      `fault` records a GO whose announced count or address does not fit what was put into the buffer, and a
      read from an empty buffer. `coming` is what the chip will answer to the next read addressed to it. */
  datatype Master = Master(start: bool, stop: bool, receive: bool, addressed: bool, count: nat, busy: bool, clean: bool,
                           fifo: seq<byte>, rx: seq<byte>, chunks: seq<Chunk>, slave: Slave, coming: Dump, fault: bool)

  function Announced(cntl1: reg32): nat { ((cntl1 & 0xff) as byte) as nat }

  /** The address byte that announces the direction of a transfer. */
  function Address(receive: bool): byte { if receive then ADDRESS | 1 else ADDRESS }

  /** A GO sends the address if one is due, moves the announced bytes and uses up the count. */
  function Go(m: Master): Master {
    var head := if m.start then 1 else 0;
    var fits :=
      && m.start == m.addressed && |m.fifo| == head + (if m.receive then 0 else m.count)
      && (m.start ==> m.fifo[0] == Address(m.receive));
    var done := m.(count := 0, busy := true, clean := false, fifo := []);
    if !fits then done.(fault := true)
    else if m.receive then
      var bytes := SlaveGives(m.slave, m.start, m.coming, m.count);
      done.(rx := m.rx + bytes, slave := SlaveGave(m.slave, m.start, m.coming, m.count, m.stop),
            chunks := m.chunks + [Chunk(m.start, m.stop, true, m.count, bytes)])
    else
      var bytes := m.fifo[head..];
      done.(slave := SlaveTakes(m.slave, m.start, bytes, m.stop),
            chunks := m.chunks + [Chunk(m.start, m.stop, false, m.count, bytes)])
  }

  /** The effect of writing CNTL_0. */
  function Controlled(m: Master, val: reg32): Master {
    var r := if Bit(val, SOFT_RST) then m.(busy := false, clean := true, fifo := [], rx := []) else m;
    var c := r.(start := Bit(val, START), stop := Bit(val, STOP), receive := Bit(val, RECEIVE));
    if Bit(val, GO) then Go(c) else c
  }

  /** What reading CNTL_0 may return: the conditions as last written, GO while the master is busy, a
      reset bit that has cleared itself, and anything elsewhere; but after a reset the low byte is the chip's
      address. */
  predicate Cntl0Reads(m: Master, w: reg32) {
    && (m.clean ==> w & 0xff == ADDRESS as reg32)
    && Bit(w, START) == m.start && Bit(w, STOP) == m.stop && Bit(w, RECEIVE) == m.receive
    && !Bit(w, SOFT_RST) && Bit(w, GO) == m.busy
  }

  /** What reading CNTL_1 may return: the address bit as last written, and the count unless used up. */
  predicate Cntl1Reads(m: Master, w: reg32) {
    Bit(w, ADDRESSED) == m.addressed && (m.count == 0 ==> w & 0xff == 0)
  }

  // ---------- What a write has to amount to ----------

  /** Chunks are named by the position of their first byte, a multiple of their size. */
  predicate Starts(size: nat, at: nat)
    requires size > 0
  {
    at == 0 || (at >= size && Starts(size, at - size))
  }

  lemma StartsLater(size: nat, at: nat)
    requires size > 0 && Starts(size, at)
    ensures at == 0 || at >= size
    ensures Starts(size, at + size)
  {
  }

  lemma {:induction false} StartsAligned29(at: nat)
    ensures Starts(29, at) <==> at % 29 == 0
  {
    if at >= 29 { StartsAligned29(at - 29); }
  }

  lemma {:induction false} StartsAligned30(at: nat)
    ensures Starts(30, at) <==> at % 30 == 0
  {
    if at >= 30 { StartsAligned30(at - 30); }
  }

  /** The chunk a transfer ends in is the last one. */
  lemma {:induction false} LastWrite(len: nat, at: nat)
    requires Starts(29, at) && at <= len <= at + 29 && (at == 0 || at < len)
    ensures at + 29 == WriteEnd(len)
  {
    StartsLater(29, at);
    if at > 0 { LastWrite(len - 29, at - 29); }
  }

  lemma {:induction false} LastRead(len: nat, at: nat)
    requires Starts(30, at) && at <= len <= at + 30 && (at == 0 || at < len)
    ensures at + 30 == ReadEnd(len)
  {
    StartsLater(30, at);
    if at > 0 { LastRead(len - 30, at - 30); }
  }

  lemma SliceExtends(s: seq<byte>, a: nat, b: nat)
    requires a <= b <= |s|
    ensures s[..a] + s[a..b] == s[..b]
  {
  }

  function WriteLen(len: nat, at: nat): nat {
    if len < at then 0 else Min(len - at, 29)
  }

  function WritePiece(buf: seq<byte>, at: nat): seq<byte>
    requires at <= |buf|
  {
    buf[at..at + WriteLen(|buf|, at)]
  }

  /** The stop condition is sent with the only chunk, or with every chunk but the first. */
  predicate WriteStops(len: nat, at: nat) { at > 0 || len <= 29 }

  /** The chunks of a write that lie in front of `end`. */
  function WriteChunks(buf: seq<byte>, end: nat): seq<Chunk>
    requires end <= |buf| + 29
  {
    if end < 29 then []
    else
      var at := end - 29;
      WriteChunks(buf, at) + [Chunk(at == 0, WriteStops(|buf|, at), false, WriteLen(|buf|, at), WritePiece(buf, at))]
  }

  /** The chip after these chunks. */
  function WriteSlave(s: Slave, buf: seq<byte>, end: nat): Slave
    requires end <= |buf| + 29
  {
    if end < 29 then s
    else SlaveTakes(WriteSlave(s, buf, end - 29), end == 29, WritePiece(buf, end - 29), WriteStops(|buf|, end - 29))
  }

  /** The end of the last chunk; even an empty write has one. */
  function WriteEnd(len: nat): (end: nat)
    ensures end <= len + 29 && Starts(29, end) && end >= 29 && len <= end && (len > 0 ==> end - 29 < len)
  {
    if len <= 29 then 29 else WriteEnd(len - 29) + 29
  }

  /** The master while the host fills the buffer for the chunk `at`, up to byte `count` of the write. */
  ghost predicate Filling(m0: Master, m: Master, buf: seq<byte>, at: nat, count: nat) {
    && at <= count <= at + WriteLen(|buf|, at) <= |buf| < 256 && Starts(29, at)
    && !m.busy && m.fault == m0.fault
    && m.start == m.addressed == (at == 0) && m.stop == WriteStops(|buf|, at) && !m.receive
    && m.count == WriteLen(|buf|, at)
    && m.fifo == (if at == 0 then [ADDRESS] else []) + buf[at..count]
    && m.chunks == m0.chunks + WriteChunks(buf, at) && m.slave == WriteSlave(m0.slave, buf, at)
  }

  /** The master after the chunk `at` has gone out, busy or not. */
  ghost predicate Sent(m0: Master, m: Master, buf: seq<byte>, at: nat) {
    && at <= |buf| && Starts(29, at) && m.fault == m0.fault && m.fifo == [] && m.count == 0
    && m.chunks == m0.chunks + WriteChunks(buf, at + 29) && m.slave == WriteSlave(m0.slave, buf, at + 29)
  }

  /** Somewhere in the write: the chip has received some of the chunks. */
  ghost predicate Stopped(m0: Master, m: Master, buf: seq<byte>) {
    m.fault == m0.fault && exists end: nat :: Reached(m0.slave, m.slave, buf, end)
  }

  ghost predicate Reached(s0: Slave, s: Slave, buf: seq<byte>, end: nat) {
    end <= |buf| + 29 && Starts(29, end) && s == WriteSlave(s0, buf, end)
  }

  /** A full buffer goes out as the chunk it was announced to be. */
  lemma GoSends(m0: Master, m: Master, buf: seq<byte>, at: nat)
    requires Filling(m0, m, buf, at, at + WriteLen(|buf|, at))
    ensures Sent(m0, Go(m), buf, at)
  {
    assert m.fifo[if at == 0 then 1 else 0..] == WritePiece(buf, at);
  }

  /** How much of a write has reached the chip: the stop condition of the second chunk closes the
      transaction, so that nothing behind it arrives. */
  function Delivered(len: nat, end: nat): nat {
    Min(len, Min(end, 58))
  }

  lemma {:induction false} WriteSlaveRegs(s: Slave, buf: seq<byte>, end: nat)
    requires end <= |buf| + 29 && Starts(29, end)
    ensures WriteSlave(s, buf, end).regs == Registers(s.regs, buf[..Delivered(|buf|, end)])
    ensures end > 0 ==> WriteSlave(s, buf, end).session ==
                        if end == 29 && |buf| > 29 then Writing(s.regs, buf[..29]) else Closed
    decreases end
  {
    if end == 0 {
      assert buf[..0] == [];
    } else {
      StartsLater(29, end - 29);
      if end >= 58 { StartsLater(29, end - 58); }
      WriteSlaveRegs(s, buf, end - 29);
      if end == 29 {
        SliceExtends(buf, 0, Delivered(|buf|, 29));
        assert buf[..0] == [];
      } else if end == 58 {
        SliceExtends(buf, 29, Delivered(|buf|, 58));
      }
    }
  }

  function Payload(cs: seq<Chunk>): seq<byte>
    decreases |cs|
  {
    if cs == [] then [] else Payload(cs[..|cs| - 1]) + cs[|cs| - 1].bytes
  }

  lemma PayloadGrows(cs: seq<Chunk>, c: Chunk)
    ensures Payload(cs + [c]) == Payload(cs) + c.bytes
  {
    assert (cs + [c])[..|cs|] == cs;
  }

  /** Every chunk announces exactly the bytes it has; only the first has a start condition. */
  ghost predicate WellAnnounced(cs: seq<Chunk>, size: nat, receive: bool) {
    forall i | 0 <= i < |cs| ::
      && cs[i].announced == |cs[i].bytes| && 1 <= |cs[i].bytes| <= size
      && cs[i].start == (i == 0) && cs[i].receive == receive
  }

  /** The chunks of a write announce exactly the bytes they have, at most 29. */
  lemma {:induction false} WriteChunksFit(buf: seq<byte>, end: nat)
    requires Starts(29, end) && end < |buf| + 29
    ensures WellAnnounced(WriteChunks(buf, end), 29, false)
    decreases end
  {
    if end > 0 { WriteChunksFit(buf, end - 29); }
  }

  /** Put together they are the buffer. */
  lemma {:induction false} WriteChunksPartition(buf: seq<byte>, end: nat)
    requires Starts(29, end) && end < |buf| + 29
    ensures Payload(WriteChunks(buf, end)) == buf[..Min(|buf|, end)]
    decreases end
  {
    if end > 0 {
      var at := end - 29;
      var piece := WritePiece(buf, at);
      WriteChunksPartition(buf, at);
      PayloadGrows(WriteChunks(buf, at), Chunk(at == 0, WriteStops(|buf|, at), false, |piece|, piece));
      SliceExtends(buf, at, Min(|buf|, end));
    } else {
      assert buf[..0] == [];
    }
  }

  /** The stop condition comes with the last chunk and no other, exactly up to 58 bytes. */
  lemma WriteStopsLast(len: nat)
    requires len > 0
    ensures (forall at | 0 <= at < len && Starts(29, at) :: WriteStops(len, at) == (at == WriteEnd(len) - 29))
            <==> len <= 58
  {
    if len > 58 {
      assert WriteStops(len, 29) && Starts(29, 0) && Starts(29, 29);
    }
  }

  /** A message that fits sets the registers it names and no others. */
  lemma RegistersSet(base: Image, idx: nat, data: seq<byte>)
    requires idx + |data| <= NUM_REGS
    ensures Registers(base, [ByteOf(idx)] + data) == base[..idx] + data + base[idx + |data|..]
  {
    ByteKept(idx);
  }

  /** A multiple of 29 is reached exactly when the chunk is full. */
  lemma AtBoundary(len: nat, at: nat, count: nat)
    requires at <= count <= at + WriteLen(len, at) <= len && count < len && Starts(29, at)
    requires at == 0 || at < count
    ensures if count != 0 && count % 29 == 0 then count == at + 29 else count < at + WriteLen(len, at)
  {
    StartsAligned29(at);
  }

  lemma FillOne(m0: Master, m: Master, buf: seq<byte>, at: nat, count: nat)
    requires Filling(m0, m, buf, at, count) && count < at + WriteLen(|buf|, at)
    ensures Filling(m0, m.(fifo := m.fifo + [buf[count]]), buf, at, count + 1)
  {
    assert buf[at..count + 1] == buf[at..count] + [buf[count]];
  }

  lemma StoppedShort(m0: Master, m: Master, buf: seq<byte>)
    requires Stopped(m0, m, buf)
    ensures exists j: nat :: j <= |buf| && m.slave.regs == Registers(m0.slave.regs, buf[..j])
  {
    var end: nat :| Reached(m0.slave, m.slave, buf, end);
    WriteSlaveRegs(m0.slave, buf, end);
  }

  // ---------- What a read has to amount to ----------

  /** Byte `j` of the answer: the stop condition of the second chunk ends the transaction. */
  function Answer(dump: Dump, j: nat): byte {
    if j < 60 then dump[j] else 0xff
  }

  function Answered(dump: Dump, from: nat, to: nat): (r: seq<byte>)
    requires from <= to
    ensures |r| == to - from && forall i | 0 <= i < to - from :: r[i] == Answer(dump, from + i)
  {
    if to <= 60 then dump[from..to] else seq(to - from, i requires 0 <= i < to - from => Answer(dump, from + i))
  }

  function ReadLen(len: nat, at: nat): nat {
    if len < at then 0 else Min(len - at, 30)
  }

  function ReadPiece(dump: Dump, len: nat, at: nat): seq<byte> {
    Answered(dump, at, at + ReadLen(len, at))
  }

  /** The stop condition is sent with every chunk of a read but the first. */
  predicate ReadStops(at: nat) { at > 0 }

  /** The chunks of a read that lie in front of `end`. */
  function ReadChunks(dump: Dump, len: nat, end: nat): seq<Chunk> {
    if end < 30 then []
    else
      var at := end - 30;
      ReadChunks(dump, len, at) + [Chunk(at == 0, ReadStops(at), true, ReadLen(len, at), ReadPiece(dump, len, at))]
  }

  function ReadEnd(len: nat): (end: nat)
    ensures end <= len + 30 && Starts(30, end) && end >= 30 && len <= end && (len > 0 ==> end - 30 < len)
  {
    if len <= 30 then 30 else ReadEnd(len - 30) + 30
  }

  /** Where the chip is after the chunk `at` of a read. */
  function ReadSession(dump: Dump, len: nat, at: nat): Session {
    if at == 0 then Reading(dump, ReadLen(len, 0)) else Closed
  }

  /** The master after the chunk `at` of a read has come in and the host has taken `count` bytes in all. */
  ghost predicate Receiving(m0: Master, m: Master, dump: Dump, len: nat, at: nat, count: nat) {
    && at <= count <= at + ReadLen(len, at) <= len < 256 && Starts(30, at)
    && !m.busy && m.fault == m0.fault && m.fifo == [] && m.count == 0
    && m.receive && m.start == m.addressed == (at == 0) && m.stop == ReadStops(at)
    && m.rx == Answered(dump, count, at + ReadLen(len, at))
    && m.chunks == m0.chunks + ReadChunks(dump, len, at + 30)
    && m.slave == Slave(m0.slave.regs, ReadSession(dump, len, at))
  }

  lemma AllReceived(m0: Master, m: Master, dump: Dump, len: nat, at: nat)
    requires Receiving(m0, m, dump, len, at, len) && (at == 0 || at < len)
    ensures m.chunks == m0.chunks + ReadChunks(dump, len, ReadEnd(len))
  {
    LastRead(len, at);
  }

  lemma NothingAnswers(dump: Dump, from: nat, n: nat)
    requires from >= 60
    ensures Answered(dump, from, from + n) == seq(n, _ => 0xff)
  {
    var a := Answered(dump, from, from + n);
    forall i | 0 <= i < n ensures a[i] == 0xff {
      assert a[i] == Answer(dump, from + i);
    }
  }

  /** The announced bytes of the first chunk are the beginning of the dump. */
  lemma FirstGoReceives(m0: Master, m: Master, dump: Dump, len: nat)
    requires len < 256 && m.fault == m0.fault && m.chunks == m0.chunks && m.slave.regs == m0.slave.regs
    requires m.start && m.addressed && m.receive && !m.stop && m.fifo == [ADDRESS | 1] && m.rx == []
    requires m.count == ReadLen(len, 0) && m.coming == dump
    ensures Receiving(m0, Go(m).(busy := false), dump, len, 0, 0)
  {
    var n := ReadLen(len, 0);
    assert SlaveGives(m.slave, true, dump, n) == ReadPiece(dump, len, 0);
    assert ReadChunks(dump, len, 0) == [];
  }

  /** The second chunk goes on where the first one ended; the others find the transaction closed. */
  lemma NextPiece(s: Slave, any: Dump, dump: Dump, len: nat, at: nat)
    requires Starts(30, at) && at + 30 < len < 256 && s.session == ReadSession(dump, len, at)
    ensures SlaveGives(s, false, any, ReadLen(len, at + 30)) == ReadPiece(dump, len, at + 30)
  {
    StartsLater(30, at);
    if at > 0 {
      NothingAnswers(dump, at + 30, ReadLen(len, at + 30));
    }
  }

  lemma NextGoReceives(m0: Master, m: Master, m1: Master, dump: Dump, len: nat, at: nat)
    requires Receiving(m0, m, dump, len, at, at + 30) && at + 30 < len
    requires m1 == m.(start := false, stop := true, addressed := false, count := ReadLen(len, at + 30))
    ensures Receiving(m0, Go(m1).(busy := false), dump, len, at + 30, at + 30)
  {
    StartsLater(30, at);
    NextPiece(m1.slave, m1.coming, dump, len, at);
    assert m.rx + ReadPiece(dump, len, at + 30) == ReadPiece(dump, len, at + 30);
  }

  lemma TakeOne(m0: Master, m: Master, dump: Dump, len: nat, at: nat, count: nat)
    requires Receiving(m0, m, dump, len, at, count) && count < at + ReadLen(len, at)
    ensures m.rx != [] && m.rx[0] == Answer(dump, count)
    ensures Receiving(m0, m.(rx := m.rx[1..]), dump, len, at, count + 1)
  {
    assert m.rx[1..] == Answered(dump, count + 1, at + ReadLen(len, at));
  }

  lemma AtReadBoundary(len: nat, at: nat, count: nat)
    requires at <= count <= at + ReadLen(len, at) <= len && count < len && Starts(30, at)
    requires at == 0 || at < count
    ensures if count != 0 && count % 30 == 0 then count == at + 30 else count < at + ReadLen(len, at)
  {
    StartsAligned30(at);
  }

  /** The chunks of a read announce exactly the bytes they bring, at most 30. */
  lemma {:induction false} ReadChunksFit(dump: Dump, len: nat, end: nat)
    requires Starts(30, end) && end < len + 30
    ensures WellAnnounced(ReadChunks(dump, len, end), 30, true)
    decreases end
  {
    if end > 0 { ReadChunksFit(dump, len, end - 30); }
  }

  lemma AnsweredGrows(dump: Dump, from: nat, mid: nat, to: nat)
    requires from <= mid <= to
    ensures Answered(dump, from, mid) + Answered(dump, mid, to) == Answered(dump, from, to)
  {
    var joined := Answered(dump, from, mid) + Answered(dump, mid, to);
    forall i | 0 <= i < to - from ensures joined[i] == Answered(dump, from, to)[i] {
      if i < mid - from {} else { assert joined[i] == Answered(dump, mid, to)[i - (mid - from)]; }
    }
  }

  /** Put together they are the answer. */
  lemma {:induction false} ReadChunksPartition(dump: Dump, len: nat, end: nat)
    requires Starts(30, end) && end < len + 30
    ensures Payload(ReadChunks(dump, len, end)) == Answered(dump, 0, Min(len, end))
    decreases end
  {
    if end > 0 {
      hide Payload, Answered;
      var at := end - 30;
      var piece := ReadPiece(dump, len, at);
      ReadChunksPartition(dump, len, at);
      PayloadGrows(ReadChunks(dump, len, at), Chunk(at == 0, ReadStops(at), true, ReadLen(len, at), piece));
      AnsweredGrows(dump, 0, at, Min(len, end));
    }
  }

  /** The stop condition comes with the last chunk and no other, exactly from 31 to 60 bytes: shorter
      reads are never stopped, and longer ones too early. */
  lemma ReadStopsLast(len: nat)
    requires len > 0
    ensures (forall at | 0 <= at < len && Starts(30, at) :: ReadStops(at) == (at == ReadEnd(len) - 30))
            <==> 30 < len <= 60
  {
    if len <= 30 {
      assert !ReadStops(0) && Starts(30, 0);
    } else if len > 60 {
      assert ReadStops(30) && Starts(30, 0) && Starts(30, 30);
    }
  }

  // ---------- Bits of the control words ----------

  lemma SettingGo(m: Master, w: reg32)
    requires Cntl0Reads(m, w)
    ensures Controlled(m, w | 0x1000) == Go(m)
  {
  }

  lemma SettingStop(m: Master, w: reg32)
    requires Cntl0Reads(m, w) && !m.busy
    ensures Controlled(m, w | 0x200) == m.(stop := true)
  {
  }

  lemma ClearingConditions(m: Master, w: reg32)
    requires !Bit(w, SOFT_RST)
    ensures Controlled(m, (w | DONE | NACK | HALT) & 0xffff_00ff) == m.(start := false, stop := false, receive := false)
  {
  }

  lemma ClearingAddress(w: reg32)
    ensures !Bit(w & 0xffff_feff, ADDRESSED) && (w & 0xffff_feff) & 0xff == w & 0xff
  {
  }

  lemma Counting(w: reg32, n: nat)
    requires w & 0xff == 0 && n < 256
    ensures Announced(w | (ByteOf(n) as reg32)) == n
    ensures Bit(w | (ByteOf(n) as reg32), ADDRESSED) == Bit(w, ADDRESSED)
  {
    ByteKept(n);
    var b := ByteOf(n);
    assert ((w | (b as reg32)) & 0xff) as byte == b;
  }

  lemma WaitedFor(m: Master, w: reg32, mask: reg32)
    requires Cntl0Reads(m, w) && (mask == GO || mask == DONE)
    ensures mask == GO ==> (w & mask == 0 <==> !m.busy)
    ensures mask == DONE ==> (w & mask == 0 <==> !Bit(w, DONE))
  {
  }

  lemma AddressFound(m: Master, w: reg32)
    requires Cntl0Reads(m, w) && m.clean
    ensures (w & 0xff) as byte == ADDRESS
  {
  }

  lemma SettingNothing(m: Master, w: reg32)
    requires Cntl0Reads(m, w) && !m.busy
    ensures Controlled(m, w) == m
  {
  }

  lemma Resetting(m: Master)
    ensures Controlled(m, 0x0811_01e7)
            == m.(busy := false, clean := true, fifo := [], rx := [], start := true, stop := false, receive := false)
    ensures Controlled(m, 0x0811_05e7)
            == m.(busy := false, clean := true, fifo := [], rx := [], start := true, stop := false, receive := true)
    ensures Announced(0) == 0 && Announced(TIME_LIMIT) == 0
  {
    ByteKept(0);
    assert ((TIME_LIMIT & 0xff) as byte) == 0 == ByteOf(0);
  }

  lemma SettingAddress(w: reg32)
    requires w & 0xff == 0
    ensures Bit((w & 0xffff_00ff) | 0x0000_0100, ADDRESSED) && Announced((w & 0xffff_00ff) | 0x0000_0100) == 0
  {
    ByteKept(0);
    assert ((((w & 0xffff_00ff) | 0x0000_0100) & 0xff) as byte) == 0 == ByteOf(0);
  }

  lemma ClearingStart(m: Master, w: reg32)
    requires Cntl0Reads(m, w) && !m.busy
    ensures Controlled(m, w & 0xffff_feff) == m.(start := false) && Cntl0Reads(m.(start := false), w & 0xffff_feff)
  {
  }

  lemma CountingFirst(n: nat)
    requires n < 256
    ensures var w := (ByteOf(n) as reg32) | 0x0100 | TIME_LIMIT; Announced(w) == n && Bit(w, ADDRESSED)
  {
    ByteKept(n);
    var b := ByteOf(n);
    assert (((b as reg32) | 0x0100 | TIME_LIMIT) & 0xff) as byte == b;
  }

  lemma StandbyBits(a: byte, b: byte)
    ensures ((a & 0x1f) | (b & 0xe0)) & 0xe0 == b & 0xe0
  {
  }

  /** Any word at all, with the bits that are determined put in. */
  function Cntl0Word(any: reg32, m: Master): (w: reg32)
    ensures Cntl0Reads(m, w)
    ensures !Bit(any, DONE) ==> !Bit(w, DONE)
  {
    (if m.clean then (any & 0xffff_e800) | ADDRESS as reg32 else any & 0xffff_e8df)
    | (if m.start then START else 0) | (if m.stop then STOP else 0)
    | (if m.receive then RECEIVE else 0) | (if m.busy then GO else 0)
  }

  function Cntl1Word(any: reg32, m: Master): (w: reg32)
    ensures Cntl1Reads(m, w)
  {
    (any & (if m.count == 0 then 0xffff_fe00 else 0xffff_feff)) | (if m.addressed then ADDRESSED else 0)
  }

  // ---------- The driver ----------

  /** The bridge. `reliable` says that every bulk transfer succeeds and the master answers at once;
      `honest` that the chip reads back the standby bits of register EP3 as it holds them, `echo` that it does
      so with all of EP2, EP3 and EP4. `script` holds the
      bytes the chip answers, by number of the read and register: any bytes, so a statement over all
      scripts is one over all sequences of answers. `asked` counts the reads so far. */
  class Bridge {
    var m: Master
    var asked: nat
    const script: imap<(nat, nat), byte>
    const reliable: bool
    const honest: bool
    const echo: bool
    /** The chip's registers when it was read last, and the time before. */
    ghost var sight: Image
    ghost var sightBefore: Image

    constructor (m: Master, script: imap<(nat, nat), byte>, reliable: bool, honest: bool, echo: bool)
      ensures this.m == m && asked == 0 && this.script == script
      ensures this.reliable == reliable && this.honest == honest && this.echo == echo
    {
      this.m := m;
      asked := 0;
      this.script := script;
      this.reliable := reliable;
      this.honest := honest;
      this.echo := echo;
      sight, sightBefore := m.slave.regs, m.slave.regs;
    }

    /** What the chip answers to read `k` for register `r`, as far as that does not depend on its state. */
    function Said(k: nat, r: nat): byte {
      if (k, r) in script then script[(k, r)] else 0
    }

    /** What a chip with the given registers answers. */
    function Says(k: nat, r: nat, chip: Image): byte {
      if echo && 4 <= r <= 6 then chip[r]
      else if honest && r == 5 then (Said(k, r) & 0x1f) | (chip[5] & 0xe0) else Said(k, r)
    }

    /** Its whole answer. */
    function Reply(k: nat, chip: Image): Dump {
      seq(256, (r: nat) => Says(k, r, chip))
    }

    /** The standby bits of an honest answer are the chip's; with an echo so are EP2 to EP4. */
    lemma ReplyHonest(k: nat, chip: Image)
      ensures honest ==> Reply(k, chip)[5] & 0xe0 == chip[5] & 0xe0
      ensures echo ==> forall r | 4 <= r <= 6 :: Reply(k, chip)[r] == chip[r]
      ensures forall r | 0 <= r < 256 && !(4 <= r <= 6) :: Reply(k, chip)[r] == Said(k, r)
      ensures forall r | 4 <= r <= 6 :: Reply(k, chip)[r] == Says(k, r, chip)
    {
      StandbyBits(Said(k, 5), chip[5]);
    }

    /** The chip's registers. */
    ghost function Chip(): Image
      reads this
    {
      m.slave.regs
    }

    /** The outcome of a bulk transfer. */
    method Transfer() returns (ret: int)
      ensures reliable ==> ret == 0
    {
      ret := *;
      if reliable {
        ret := 0;
      }
    }

    /** internal_write_reg to CNTL_0; a failed transfer does not reach the master. */
    method WriteCntl0(val: reg32) returns (ret: int)
      modifies this`m
      ensures m == if ret == 0 then Controlled(old(m), val) else old(m)
      ensures reliable ==> ret == 0
    {
      ret := Transfer();
      if ret == 0 {
        m := Controlled(m, val);
      }
    }

    method WriteCntl1(val: reg32) returns (ret: int)
      modifies this`m
      ensures m == if ret == 0 then old(m).(addressed := Bit(val, ADDRESSED), count := Announced(val)) else old(m)
      ensures reliable ==> ret == 0
    {
      ret := Transfer();
      if ret == 0 {
        m := m.(addressed := Bit(val, ADDRESSED), count := Announced(val));
      }
    }

    method WriteData(val: byte) returns (ret: int)
      modifies this`m
      ensures m == if ret == 0 then old(m).(fifo := old(m).fifo + [val]) else old(m)
      ensures reliable ==> ret == 0
    {
      ret := Transfer();
      if ret == 0 {
        m := m.(fifo := m.fifo + [val]);
      }
    }

    /** internal_read_reg of CNTL_0: a busy master may have finished meanwhile. */
    method ReadCntl0() returns (ret: int, w: reg32)
      modifies this`m
      ensures m == old(m) || m == old(m).(busy := false)
      ensures ret == 0 ==> Cntl0Reads(m, w)
      ensures reliable ==> ret == 0 && !m.busy && !Bit(w, DONE)
    {
      ret := Transfer();
      w := *;
      var finished: bool := *;
      if reliable {
        finished, w := true, w & !DONE;
      }
      if finished {
        m := m.(busy := false);
      }
      w := Cntl0Word(w, m);
    }

    /** internal_read_reg of CNTL_1: as last written, but for the count a GO has used up. */
    method ReadCntl1() returns (ret: int, w: reg32)
      ensures ret == 0 ==> Cntl1Reads(m, w)
      ensures reliable ==> ret == 0
    {
      ret := Transfer();
      w := *;
      w := Cntl1Word(w, m);
    }

    /** internal_read_reg of DATA takes the next received byte. */
    method ReadData() returns (ret: int, b: byte)
      modifies this`m
      ensures ret != 0 ==> m == old(m)
      ensures ret == 0 && old(m.rx) != [] ==> b == old(m.rx)[0] && m == old(m).(rx := old(m.rx)[1..])
      ensures ret == 0 && old(m.rx) == [] ==> m == old(m).(fault := true)
      ensures reliable ==> ret == 0
    {
      ret := Transfer();
      b := *;
      if ret == 0 {
        if m.rx == [] {
          m := m.(fault := true);
        } else {
          b := m.rx[0];
          m := m.(rx := m.rx[1..]);
        }
      }
    }

    /** tvw_wait_bits on CNTL_0, for a bit to read 0. */
    method WaitClear0(mask: reg32, loop: nat) returns (ret: int)
      requires mask == GO || mask == DONE
      modifies this`m
      ensures m == old(m) || m == old(m).(busy := false)
      ensures ret == 0 && mask == GO ==> !m.busy
      ensures reliable && loop > 0 ==> ret == 0
    {
      hide Cntl0Reads, Bit;
      var count := 0;
      while count < loop
        invariant m == old(m) || m == old(m).(busy := false)
        invariant reliable ==> count == 0
      {
        var r, rval := ReadCntl0();
        if r != 0 {
          return -1;
        }
        WaitedFor(m, rval, mask);
        if rval & mask == 0 {
          return 0;
        }
        count := count + 1;
      }
      return -1;
    }

    /** tvw_wait_bits on CNTL_1, for the address bit to read 0. */
    method WaitNotAddressed(loop: nat) returns (ret: int)
      ensures reliable && !m.addressed && loop > 0 ==> ret == 0
    {
      var count := 0;
      while count < loop
        invariant reliable && !m.addressed ==> count == 0
      {
        var r, rval := ReadCntl1();
        if r != 0 {
          return -1;
        }
        if !Bit(rval, ADDRESSED) {
          return 0;
        }
        count := count + 1;
      }
      return -1;
    }

    /** Sets GO and waits for it to clear. */
    method SendChunk(ghost m0: Master, ghost buf: seq<byte>, ghost at: nat) returns (ret: int,
                     ctrl: reg32)
      requires Filling(m0, m, buf, at, at + WriteLen(|buf|, at))
      modifies this`m
      ensures ret == 0 ==> Sent(m0, m, buf, at) && !m.busy && !Bit(ctrl, SOFT_RST)
      ensures ret != 0 ==> Stopped(m0, m, buf)
      ensures reliable ==> ret == 0
    {
      assert Reached(m0.slave, m.slave, buf, at);
      ret, ctrl := ReadCntl0();
      if ret != 0 {
        return;
      }
      GoSends(m0, m, buf, at);
      SettingGo(m, ctrl);
      ret := WriteCntl0(ctrl | GO);
      if ret != 0 {
        return;
      }
      assert Reached(m0.slave, m.slave, buf, at + 29);
      ret := WaitClear0(GO, 100);
      ctrl := ctrl | GO;
    }

    /** Between chunks: a stop condition for the next one, and no start. */
    method NextConditions(ctrl0: reg32) returns (ret: int)
      requires !m.busy && !Bit(ctrl0, SOFT_RST)
      modifies this`m
      ensures ret == 0 ==> m == old(m).(start := false, stop := true, receive := false)
      ensures ret != 0 ==> m.slave == old(m.slave) && m.fault == old(m.fault)
      ensures reliable ==> ret == 0
    {
      ClearingConditions(m, ctrl0);
      ret := WriteCntl0((ctrl0 | DONE | NACK | HALT) & 0xffff_00ff);
      if ret != 0 {
        return;
      }
      var ctrl;
      ret, ctrl := ReadCntl0();
      if ret != 0 {
        return;
      }
      SettingStop(m, ctrl);
      ret := WriteCntl0(ctrl | STOP);
    }

    /** Announces the bytes that are left, without an address. */
    method AnnounceNext(left: nat) returns (ret: int)
      requires m.count == 0 && left < 256
      modifies this`m
      ensures ret == 0 ==> m == old(m).(addressed := false, count := left)
      ensures ret != 0 ==> m.slave == old(m.slave) && m.fault == old(m.fault)
      ensures reliable ==> ret == 0
    {
      var ctrl;
      ret, ctrl := ReadCntl1();
      if ret != 0 {
        return;
      }
      ClearingAddress(ctrl);
      ctrl := ctrl & 0xffff_feff;
      Counting(ctrl, 0);
      assert ctrl | (ByteOf(0) as reg32) == ctrl;
      ret := WriteCntl1(ctrl);
      if ret != 0 {
        return;
      }
      ret := WaitNotAddressed(100);
      if ret != 0 {
        return;
      }
      Counting(ctrl, left);
      ret := WriteCntl1(ctrl | (ByteOf(left) as reg32));
    }

    /** Resets the master and announces the first chunk of a write. */
    method BeginWrite(buf: seq<byte>) returns (ret: int)
      requires |buf| < 256
      modifies this`m
      ensures ret == 0 ==> Filling(old(m), m, buf, 0, 0)
      ensures ret != 0 ==> m.slave == old(m.slave) && m.fault == old(m.fault)
      ensures reliable ==> ret == 0
    {
      Resetting(m);
      ret := WriteCntl0(PRESCALE | DONE | NACK | HALT | SOFT_RST | DRIVE_EN | DRIVE_SEL | START);
      if ret != 0 {
        return;
      }
      ret := WriteCntl1(0);
      if ret != 0 {
        return;
      }
      ret := WriteCntl1(TIME_LIMIT);
      if ret != 0 {
        return;
      }
      var ctrl;
      ret, ctrl := ReadCntl0();
      if ret != 0 {
        return;
      }
      var addr := (ctrl & 0xff) as byte;
      AddressFound(m, ctrl);
      SettingStop(m, ctrl);
      SettingNothing(m, ctrl);
      ret := WriteCntl0(if |buf| <= 29 then ctrl | STOP else ctrl);
      if ret != 0 {
        return;
      }
      ret := AnnounceFirst(if |buf| > 29 then 29 else |buf|);
      if ret != 0 {
        return;
      }
      ret := WriteData(addr);
      assert buf[0..0] == [];
    }

    /** Announces the first chunk of a write, with the address. */
    method AnnounceFirst(n: nat) returns (ret: int)
      requires m.count == 0 && n < 256
      modifies this`m
      ensures ret == 0 ==> m == old(m).(addressed := true, count := n)
      ensures ret != 0 ==> m.slave == old(m.slave) && m.fault == old(m.fault)
      ensures reliable ==> ret == 0
    {
      var ctrl;
      ret, ctrl := ReadCntl1();
      if ret != 0 {
        return;
      }
      SettingAddress(ctrl);
      ret := WriteCntl1((ctrl & 0xffff_00ff) | 0x0000_0100);
      if ret != 0 {
        return;
      }
      ret, ctrl := ReadCntl1();
      if ret != 0 {
        return;
      }
      Counting(ctrl, n);
      ret := WriteCntl1(ctrl | (ByteOf(n) as reg32));
    }

    /** A full buffer goes out, and the next chunk is announced. */
    method CrossBoundary(ghost m0: Master, ghost buf: seq<byte>, ghost at: nat,
                         left: nat) returns (ret: int)
      requires Filling(m0, m, buf, at, at + 29) && left == WriteLen(|buf|, at + 29)
      modifies this`m
      ensures ret == 0 ==> Filling(m0, m, buf, at + 29, at + 29)
      ensures ret != 0 ==> Stopped(m0, m, buf)
      ensures reliable ==> ret == 0
    {
      var ctrl;
      ret, ctrl := SendChunk(m0, buf, at);
      if ret != 0 {
        return;
      }
      assert Reached(m0.slave, m.slave, buf, at + 29);
      ret := NextConditions(ctrl);
      if ret != 0 {
        return;
      }
      ret := AnnounceNext(left);
    }

    /** The body of the loop: one byte, in the next chunk if this one is full. */
    method PutByte(ghost m0: Master, buf: seq<byte>, ghost at: nat, count: nat)
      returns (ret: int, ghost next: nat)
      requires Filling(m0, m, buf, at, count) && (at == 0 || at < count) && count < |buf|
      modifies this`m
      ensures ret == 0 ==> Filling(m0, m, buf, next, count + 1) && next < count + 1
      ensures ret != 0 ==> Stopped(m0, m, buf)
      ensures reliable ==> ret == 0
    {
      next := at;
      AtBoundary(|buf|, at, count);
      if count != 0 && count % 29 == 0 {
        ret := CrossBoundary(m0, buf, at, if |buf| - count > 29 then 29 else |buf| - count);
        if ret != 0 {
          return;
        }
        next := count;
      }
      FillOne(m0, m, buf, next, count);
      ret := WriteData(buf[count]);
      assert Reached(m0.slave, m.slave, buf, next);
    }

    /** The body of tvw_write_i2c. */
    method Transmit(wrbuf: seq<byte>) returns (ret: int)
      requires |wrbuf| < 256
      modifies this`m
      ensures ret == 0 ==> Sent(old(m), m, wrbuf, WriteEnd(|wrbuf|) - 29)
      ensures ret != 0 ==> Stopped(old(m), m, wrbuf)
      ensures reliable ==> ret == 0
    {
      ghost var m0 := m;
      assert Reached(m0.slave, m.slave, wrbuf, 0);
      hide Filling, Sent, Stopped, Reached;
      ret := BeginWrite(wrbuf);
      if ret != 0 {
        return;
      }
      ghost var at: nat := 0;
      var count := 0;
      while count < |wrbuf|
        invariant Filling(m0, m, wrbuf, at, count) && (at == 0 || at < count)
      {
        ret, at := PutByte(m0, wrbuf, at, count);
        if ret != 0 {
          return;
        }
        count := count + 1;
      }
      LastWrite(|wrbuf|, at);
      var ctrl;
      ret, ctrl := SendChunk(m0, wrbuf, at);
    }

    /** tvw_write_i2c. */
    method WriteI2c(wrbuf: seq<byte>) returns (ret: int)
      requires |wrbuf| < 256
      modifies this`m
      ensures ret == 0 || ret == -1
      ensures m.fault == old(m.fault)
      ensures ret == 0 ==> m.chunks == old(m.chunks) + WriteChunks(wrbuf, WriteEnd(|wrbuf|))
      ensures ret == 0 ==> Chip() == Registers(old(Chip()), wrbuf[..Min(|wrbuf|, 58)])
      ensures ret != 0 ==> exists j: nat :: j <= |wrbuf| && Chip() == Registers(old(Chip()), wrbuf[..j])
      ensures reliable ==> ret == 0
    {
      ret := Transmit(wrbuf);
      if ret != 0 {
        StoppedShort(old(m), m, wrbuf);
        return -1;
      }
      WriteSlaveRegs(old(m).slave, wrbuf, WriteEnd(|wrbuf|));
    }

    /** Sets GO on a read and waits for it to clear. */
    method ReceiveChunk() returns (ret: int)
      requires !m.busy && m.receive && m.start == m.addressed && m.fifo == (if m.start then [ADDRESS | 1] else [])
      modifies this`m
      ensures ret == 0 ==> m == Go(old(m)).(busy := false)
      ensures m.slave.regs == old(m.slave.regs) && m.fault == old(m.fault)
      ensures reliable ==> ret == 0
    {
      var ctrl;
      ret, ctrl := ReadCntl0();
      if ret != 0 {
        return;
      }
      SettingGo(m, ctrl);
      ret := WriteCntl0(ctrl | GO);
      if ret != 0 {
        return;
      }
      ret := WaitClear0(GO, 100);
    }

    /** Resets the master, addresses the chip and receives the first chunk of a read. */
    method BeginRead(ghost dump: Dump, len: nat) returns (ret: int)
      requires m.coming == dump && len < 256
      modifies this`m
      ensures ret == 0 ==> Receiving(old(m), m, dump, len, 0, 0)
      ensures m.slave.regs == old(m.slave.regs) && m.fault == old(m.fault)
      ensures reliable ==> ret == 0
    {
      var addr;
      ret, addr := ResetForRead();
      if ret != 0 {
        return;
      }
      var n := if len > 30 then 30 else len;
      CountingFirst(n);
      ret := WriteCntl1((ByteOf(n) as reg32) | 0x0100 | TIME_LIMIT);
      if ret != 0 {
        return;
      }
      ret := WriteData(addr | 1);
      if ret != 0 {
        return;
      }
      FirstGoReceives(old(m), m, dump, len);
      ret := ReceiveChunk();
    }

    /** Resets the master to receive, and finds out the chip's address. */
    method ResetForRead() returns (ret: int, addr: byte)
      modifies this`m
      ensures ret == 0 ==>
                m == old(m).(busy := false, clean := true, fifo := [], rx := [], start := true, stop := false,
                                        receive := true, addressed := false, count := 0)
      ensures ret == 0 ==> addr == ADDRESS
      ensures m.slave == old(m.slave) && m.fault == old(m.fault)
      ensures reliable ==> ret == 0
    {
      addr := 0;
      Resetting(m);
      ret := WriteCntl0(PRESCALE | DONE | NACK | HALT | SOFT_RST | DRIVE_EN | DRIVE_SEL | START | RECEIVE);
      if ret != 0 {
        return;
      }
      ret := WriteCntl1(0);
      if ret != 0 {
        return;
      }
      var ctrl;
      ret, ctrl := ReadCntl0();
      if ret != 0 {
        return;
      }
      addr := (ctrl & 0xff) as byte;
      AddressFound(m, ctrl);
      SettingNothing(m, ctrl);
      ret := WriteCntl0(ctrl);
    }

    /** Between chunks of a read: the start condition is taken back and a stop condition set. */
    method NextReadConditions() returns (ret: int)
      requires !m.busy
      modifies this`m
      ensures ret == 0 ==> m == old(m).(start := false, stop := true)
      ensures m.slave == old(m.slave) && m.fault == old(m.fault)
      ensures reliable ==> ret == 0
    {
      var ctrl;
      ret, ctrl := ReadCntl0();
      if ret != 0 {
        return;
      }
      ClearingStart(m, ctrl);
      ctrl := ctrl & 0xffff_feff;
      ret := WriteCntl0(ctrl);
      if ret != 0 {
        return;
      }
      ret := WaitClear0(DONE, 100);
      if ret != 0 {
        return;
      }
      SettingStop(m, ctrl);
      ret := WriteCntl0(ctrl | STOP);
    }

    /** The next chunk of a read is announced and received. */
    method CrossReadBoundary(ghost m0: Master, ghost dump: Dump, ghost len: nat, ghost at: nat,
                             left: nat) returns (ret: int)
      requires Receiving(m0, m, dump, len, at, at + 30) && at + 30 < len && left == ReadLen(len, at + 30)
      modifies this`m
      ensures ret == 0 ==> Receiving(m0, m, dump, len, at + 30, at + 30)
      ensures m.slave.regs == old(m.slave.regs) && m.fault == old(m.fault)
      ensures reliable ==> ret == 0
    {
      ret := NextReadConditions();
      if ret != 0 {
        return;
      }
      ret := AnnounceNext(left);
      if ret != 0 {
        return;
      }
      NextGoReceives(m0, old(m), m, dump, len, at);
      ret := ReceiveChunk();
    }

    /** The body of the loop: one byte, from the next chunk if this one is used up. */
    method TakeByte(ghost m0: Master, ghost dump: Dump, len: nat, ghost at: nat, count: nat)
      returns (ret: int, b: byte, ghost next: nat)
      requires Receiving(m0, m, dump, len, at, count) && (at == 0 || at < count) && count < len
      modifies this`m
      ensures ret == 0 ==> Receiving(m0, m, dump, len, next, count + 1) && next < count + 1 && b == Answer(dump, count)
      ensures m.slave.regs == old(m.slave.regs) && m.fault == old(m.fault)
      ensures reliable ==> ret == 0
    {
      next, b := at, 0;
      AtReadBoundary(len, at, count);
      if count != 0 && count % 30 == 0 {
        ret := CrossReadBoundary(m0, dump, len, at, if len - count > 30 then 30 else len - count);
        if ret != 0 {
          return;
        }
        next := count;
      }
      TakeOne(m0, m, dump, len, next, count);
      ret, b := ReadData();
    }

    /** tvw_read_i2c. Whatever happens, the bytes put into the buffer are bytes of the answer. */
    method ReadI2c(outbuf: array<byte>, len: nat) returns (ret: int)
      requires len <= outbuf.Length && len < 256
      modifies this, outbuf
      ensures ret == 0 || ret == -1
      ensures asked == old(asked) + 1
      ensures Chip() == old(Chip()) && m.fault == old(m.fault)
      ensures sight == Chip() && sightBefore == old(sight)
      ensures var dump := Reply(old(asked), Chip());
              && (ret == 0 ==> forall j | 0 <= j < len :: outbuf[j] == Answer(dump, j))
              && (forall j | 0 <= j < len :: outbuf[j] == Answer(dump, j) || outbuf[j] == old(outbuf[j]))
              && (ret == 0 ==> m.chunks == old(m.chunks) + ReadChunks(dump, len, ReadEnd(len)))
      ensures forall j | len <= j < outbuf.Length :: outbuf[j] == old(outbuf[j])
      ensures reliable ==> ret == 0
    {
      hide Receiving, Answer, ReadChunks, Bridge.Reply;
      var dump := Reply(asked, m.slave.regs);
      m := m.(coming := dump);
      asked := asked + 1;
      sight, sightBefore := Chip(), sight;
      ghost var m0 := m;
      ret := BeginRead(dump, len);
      if ret != 0 {
        return -1;
      }
      ghost var at: nat := 0;
      var count := 0;
      while count < len
        invariant 0 <= count <= len && Receiving(m0, m, dump, len, at, count) && (at == 0 || at < count)
        invariant forall j | 0 <= j < count :: outbuf[j] == Answer(dump, j)
        invariant forall j | count <= j < outbuf.Length :: outbuf[j] == old(outbuf[j])
        invariant asked == old(asked) + 1 && m.slave.regs == old(m.slave.regs) && m.fault == old(m.fault)
        invariant sight == old(Chip()) && sightBefore == old(sight)
      {
        var b;
        ret, b, at := TakeByte(m0, dump, len, at, count);
        if ret != 0 {
          return -1;
        }
        outbuf[count] := b;
        count := count + 1;
      }
      AllReceived(m0, m, dump, len, at);
      return 0;
    }
  }
}
