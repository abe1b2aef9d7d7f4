/** The register protocol on the USB bulk pipes (src/util.c) and the decoder of its traces
    (docs/ati-array.pl). Every bulk transfer is one line of a trace: 'W' for endpoint 0x03, 'R' for
    endpoint 0x82, and the bytes transferred. */
module Codec {
  import opened Words

  type word = bv16

  const UC_ADDR: word := 0x4400
  const REG_PAGE: word := 0x2000

  datatype Direction = W | R

  datatype Line = Line(rw: Direction, bytes: seq<byte>)

  function Lo(w: word): byte { (w & 0xff) as byte }

  function Hi(w: word): byte { (w >> 8) as byte }

  function Join(lo: byte, hi: byte): word { (lo as word) | ((hi as word) << 8) }

  lemma JoinSplits(w: word)
    ensures Join(Lo(w), Hi(w)) == w
  {
  }

  // ---------- Encoding ----------

  /** The flags of the one read that follows the firmware upload, and 0 otherwise. */
  function ReadFlags(reg: word, page: word, len: word): word {
    if reg == 0x0000 && page == 0x8000 && len == 0x0000 then 0xbfc1 else 0x0000
  }

  /** How many bytes a read returns: `len`, except for that one read. */
  function ReadLength(reg: word, page: word, len: word): nat {
    if reg == 0x0000 && page == 0x8000 && len == 0x0000 then 4 else len as nat
  }

  function Header(reg: word, page: word, len: word, flags: word): (h: seq<byte>)
    ensures |h| == 12
  {
    [Lo(reg), Hi(reg), Lo(page), Hi(page), Lo(len), Hi(len), Lo(flags), Hi(flags),
     Lo(!reg), Hi(!reg), Lo(!page), Hi(!page)]
  }

  function ReadHeader(reg: word, page: word, len: word): seq<byte> {
    Header(reg, page, len, ReadFlags(reg, page, len) | 0x8000)
  }

  /** Operations of the driver, with the bytes the device answered to the reads. `UcSeqRead` reads
      the micro's register again without writing its address first. */
  datatype Op =
    | RegRead(reg: word, page: word, len: word, data: seq<byte>)
    | RegWrite(reg: word, page: word, len: word, data: seq<byte>)
    | UcRead(ucReg: word, answer: seq<byte>)
    | UcWrite(ucReg: word, val: byte)
    | UcSeqRead(answer: seq<byte>)

  /** What the C types and the device guarantee of an operation. */
  predicate Typed(op: Op) {
    match op
    case RegRead(reg, page, len, data) => |data| == ReadLength(reg, page, len)
    case RegWrite(_, _, len, data) => |data| == len as nat
    case UcRead(_, answer) => |answer| == 4
    case UcWrite(_, _) => true
    case UcSeqRead(answer) => |answer| == 4 && answer[3] & 0xc0 == 0x40
  }

  /** The word tvw_uc_read_reg and tvw_uc_write_reg write to register 0x4400. */
  function UcWord(val: byte, ucReg: word, command: byte): (w: seq<byte>)
    ensures |w| == 4
  {
    [val, Lo(ucReg), Hi(ucReg), command]
  }

  function Encode(op: Op): seq<Line>
    requires Typed(op)
  {
    match op
    case RegRead(reg, page, len, data) => [Line(W, ReadHeader(reg, page, len)), Line(R, data)]
    case RegWrite(reg, page, len, data) => [Line(W, Header(reg, page, len, 0)), Line(W, data)]
    case UcRead(ucReg, answer) =>
      [Line(W, Header(UC_ADDR, REG_PAGE, 4, 0)), Line(W, UcWord(0x00, ucReg, 0x40)),
       Line(W, ReadHeader(UC_ADDR, REG_PAGE, 4)), Line(R, answer)]
    case UcWrite(ucReg, val) =>
      [Line(W, Header(UC_ADDR, REG_PAGE, 4, 0)), Line(W, UcWord(val, ucReg, 0x80))]
    case UcSeqRead(answer) => [Line(W, ReadHeader(UC_ADDR, REG_PAGE, 4)), Line(R, answer)]
  }

  ghost predicate AllTyped(ops: seq<Op>) {
    forall op | op in ops :: Typed(op)
  }

  function Trace(ops: seq<Op>): seq<Line>
    requires AllTyped(ops)
    decreases |ops|
  {
    if ops == [] then [] else Trace(ops[..|ops| - 1]) + Encode(ops[|ops| - 1])
  }

  // ---------- Decoding ----------

  datatype State = Specify | RegRw | UcRw | UcR1 | UcR2

  /** What the decoder prints, in the pieces it prints it: the head of an array entry, the value that
      closes it, or a comment for a line it does not know. */
  datatype Piece =
    | RegHead(read: bool, addr: word, page: word)
    | UcHead(read: bool, addr: word)
    | Value(bytes: seq<byte>)
    | Unknown

  datatype Decoder = Decoder(state: State, lastState: State, out: seq<Piece>)

  const INITIAL := Decoder(Specify, Specify, [])

  function Reverse(s: seq<byte>): (r: seq<byte>)
    ensures |r| == |s| && forall i | 0 <= i < |s| :: r[i] == s[|s| - 1 - i]
  {
    seq(|s|, i requires 0 <= i < |s| => s[|s| - 1 - i])
  }

  /** A missing element of a Perl array counts as 0. */
  function At(s: seq<byte>, i: nat): byte {
    if i < |s| then s[i] else 0
  }

  /** One turn of the decoder's loop. */
  function Step(d: Decoder, line: Line): Decoder {
    var bytes := line.bytes;
    match d.state
    case Specify =>
      if |bytes| == 12 then
        var addr := Join(bytes[0], bytes[1]);
        if addr == UC_ADDR && Join(bytes[4], bytes[5]) == 4 then d.(state := UcRw)
        else
          var head := RegHead(Join(bytes[6], bytes[7]) & 0x8000 != 0, addr, Join(bytes[2], bytes[3]));
          d.(state := RegRw, out := d.out + [head])
      else d.(out := d.out + [Unknown])
    case RegRw => Decoder(Specify, RegRw, d.out + [Value(Reverse(bytes))])
    case UcRw =>
      var command := At(bytes, 3);
      var out := d.out + [UcHead(command & 0x40 != 0, Join(At(bytes, 1), At(bytes, 2)))];
      if command & 0x80 != 0 then Decoder(Specify, UcRw, out + [Value([At(bytes, 0)])])
      else if d.lastState == UcR2 && command & 0x40 != 0 && line.rw == R then
        Decoder(Specify, d.lastState, out + [Value([At(bytes, 0)])])
      else Decoder(UcR1, d.lastState, out)
    case UcR1 => d.(state := UcR2)
    case UcR2 => Decoder(Specify, UcR2, d.out + [Value([At(bytes, 0)])])
  }

  function Decode(d: Decoder, lines: seq<Line>): Decoder
    decreases |lines|
  {
    if lines == [] then d else Decode(Step(d, lines[0]), lines[1..])
  }

  /** docs/ati-array.pl: the loop over the lines of the trace. */
  method DecodeTrace(lines: seq<Line>) returns (out: seq<Piece>, state: State, lastState: State)
    ensures Decoder(state, lastState, out) == Decode(INITIAL, lines)
  {
    state := Specify;
    lastState := state;
    out := [];
    var i := 0;
    while i < |lines|
      invariant 0 <= i <= |lines|
      invariant Decode(INITIAL, lines) == Decode(Decoder(state, lastState, out), lines[i..])
    {
      ghost var before := Decoder(state, lastState, out);
      var bytes := lines[i].bytes;
      if state == Specify {
        if |bytes| == 12 {
          var addr := Join(bytes[0], bytes[1]);
          var page := Join(bytes[2], bytes[3]);
          var dlen := Join(bytes[4], bytes[5]);
          var flag := Join(bytes[6], bytes[7]);
          if addr == UC_ADDR && dlen == 4 {
            state := UcRw;
          } else {
            out := out + [RegHead(flag & 0x8000 != 0, addr, page)];
            state := RegRw;
          }
        } else {
          out := out + [Unknown];
        }
      } else if state == RegRw {
        out := out + [Value(Reverse(bytes))];
        lastState := state;
        state := Specify;
      } else if state == UcRw {
        var addr := Join(At(bytes, 1), At(bytes, 2));
        out := out + [UcHead(At(bytes, 3) & 0x40 != 0, addr)];
        if At(bytes, 3) & 0x80 != 0 {
          out := out + [Value([At(bytes, 0)])];
          lastState := state;
          state := Specify;
        } else if lastState == UcR2 && At(bytes, 3) & 0x40 != 0 && lines[i].rw == R {
          out := out + [Value([At(bytes, 0)])];
          state := Specify;
        } else {
          state := UcR1;
        }
      } else if state == UcR1 {
        state := UcR2;
      } else {
        out := out + [Value([At(bytes, 0)])];
        lastState := state;
        state := Specify;
      }
      assert lines[i..][1..] == lines[i + 1..];
      assert Decoder(state, lastState, out) == Step(before, lines[i]);
      i := i + 1;
    }
  }

  // ---------- Round trip ----------

  /** The array entry an operation stands for. Register values are printed most significant byte
      first; a micro read is printed with the register and value the micro answered with. */
  function Entry(op: Op): seq<Piece>
    requires Typed(op)
  {
    match op
    case RegRead(reg, page, _, data) => [RegHead(true, reg, page), Value(Reverse(data))]
    case RegWrite(reg, page, _, data) => [RegHead(false, reg, page), Value(Reverse(data))]
    case UcRead(ucReg, answer) => [UcHead(true, ucReg), Value([answer[0]])]
    case UcWrite(ucReg, val) => [UcHead(false, ucReg), Value([val])]
    case UcSeqRead(answer) => [UcHead(true, Join(answer[1], answer[2])), Value([answer[0]])]
  }

  function Listing(ops: seq<Op>): seq<Piece>
    requires AllTyped(ops)
    decreases |ops|
  {
    if ops == [] then [] else Listing(ops[..|ops| - 1]) + Entry(ops[|ops| - 1])
  }

  /** A plain access that the decoder must take for an access to the micro. */
  predicate LooksLikeUc(op: Op)
    requires Typed(op)
  {
    match op
    case RegRead(reg, _, len, _) => reg == UC_ADDR && len == 4
    case RegWrite(reg, _, len, _) => reg == UC_ADDR && len == 4
    case _ => false
  }

  predicate ReadsMicro(op: Op) { op.UcRead? || op.UcSeqRead? }

  /** A sequential read directly follows a read of the micro; no plain access looks like the micro. */
  predicate LegalAt(ops: seq<Op>, k: nat)
    requires k < |ops| && Typed(ops[k])
  {
    && !LooksLikeUc(ops[k])
    && (ops[k].UcSeqRead? ==> k > 0 && ReadsMicro(ops[k - 1]))
  }

  ghost predicate Legal(ops: seq<Op>)
    requires AllTyped(ops)
  {
    forall k: nat | k < |ops| :: LegalAt(ops, k)
  }

  function LastStateAfter(ops: seq<Op>): State {
    if ops == [] then Specify
    else match ops[|ops| - 1]
      case RegRead(_, _, _, _) => RegRw
      case RegWrite(_, _, _, _) => RegRw
      case UcWrite(_, _) => UcRw
      case _ => UcR2
  }

  lemma {:induction false} DecodeConcat(d: Decoder, a: seq<Line>, b: seq<Line>)
    ensures Decode(d, a + b) == Decode(Decode(d, a), b)
    decreases |a|
  {
    if a == [] {
      assert a + b == b;
    } else {
      assert (a + b)[1..] == a[1..] + b;
      DecodeConcat(Step(d, a[0]), a[1..], b);
    }
  }

  lemma HeaderFields(reg: word, page: word, len: word, flags: word)
    ensures var h := Header(reg, page, len, flags);
            && Join(h[0], h[1]) == reg && Join(h[2], h[3]) == page && Join(h[4], h[5]) == len
            && Join(h[6], h[7]) == flags
            && Join(h[8], h[9]) == 0xffff - reg && Join(h[10], h[11]) == 0xffff - page
  {
    JoinSplits(reg);
    JoinSplits(page);
    JoinSplits(len);
    JoinSplits(flags);
    JoinSplits(!reg);
    JoinSplits(!page);
    Complement(reg);
    Complement(page);
  }

  lemma Complement(w: word)
    ensures !w == 0xffff - w
  {
  }

  /** Four bytes as a little-endian word. */
  function Word(b: seq<byte>): bv32
    requires |b| == 4
  {
    (b[0] as bv32) | ((b[1] as bv32) << 8) | ((b[2] as bv32) << 16) | ((b[3] as bv32) << 24)
  }

  /** The word for the micro: command, register and value. */
  function MicroWord(command: byte, ucReg: word, val: byte): bv32 {
    ((command as bv32) << 24) | ((ucReg as bv32) << 8) | (val as bv32)
  }

  lemma WordOf(val: byte, ucReg: word, command: byte)
    ensures Word(UcWord(val, ucReg, command)) == MicroWord(command, ucReg, val)
  {
  }

  /** Byte by byte the header of every access to the micro: register 0x4400 of page 0x2000, four bytes; with bit 15
      of the flags set when it asks for the answer. */
  const MICRO_WRITE: seq<byte> := [0x00, 0x44, 0x00, 0x20, 0x04, 0x00, 0x00, 0x00, 0xff, 0xbb, 0xff, 0xdf]
  const MICRO_ASK: seq<byte> := [0x00, 0x44, 0x00, 0x20, 0x04, 0x00, 0x00, 0x80, 0xff, 0xbb, 0xff, 0xdf]

  lemma MicroHeaders()
    ensures Header(UC_ADDR, REG_PAGE, 4, 0) == MICRO_WRITE && ReadHeader(UC_ADDR, REG_PAGE, 4) == MICRO_ASK
  {
  }

  /** What goes over the wire for the micro: in the word written to it the command, its register and the value. */
  lemma MicroOnWire(ucReg: word, val: byte, answer: seq<byte>)
    requires |answer| == 4
    ensures var read := Encode(UcRead(ucReg, answer));
            && |read| == 4 && read[0] == Line(W, MICRO_WRITE) && read[1].rw == W && |read[1].bytes| == 4
            && Word(read[1].bytes) == MicroWord(0x40, ucReg, 0x00)
            && read[2] == Line(W, MICRO_ASK) && read[3] == Line(R, answer)
    ensures var written := Encode(UcWrite(ucReg, val));
            && |written| == 2 && written[0] == Line(W, MICRO_WRITE) && written[1].rw == W && |written[1].bytes| == 4
            && Word(written[1].bytes) == MicroWord(0x80, ucReg, val)
    ensures answer[3] & 0xc0 == 0x40 ==> Encode(UcSeqRead(answer)) == [Line(W, MICRO_ASK), Line(R, answer)]
  {
    hide Header, ReadHeader, UcWord, Word, MicroWord;
    WordOf(0x00, ucReg, 0x40);
    WordOf(val, ucReg, 0x80);
    MicroHeaders();
  }

  /** A plain read asks with bit 15 of the flags, and with no other but after the firmware upload; then four bytes
      come although none are asked for. A write has no flags. */
  lemma ReadOnWire(reg: word, page: word, len: word, data: seq<byte>)
    requires Typed(RegRead(reg, page, len, data))
    ensures var ask, upload := Encode(RegRead(reg, page, len, data))[0].bytes, reg == 0 && page == 0x8000 && len == 0;
            Join(ask[6], ask[7]) == (if upload then 0xbfc1 else 0x8000) && |data| == if upload then 4 else len as nat
  {
    HeaderFields(reg, page, len, ReadFlags(reg, page, len) | 0x8000);
  }

  lemma DecodeTwo(d: Decoder, a: Line, b: Line)
    ensures Decode(d, [a, b]) == Step(Step(d, a), b)
  {
    var e := Step(d, a);
    assert [a, b][1..] == [b] && [b][1..] == [];
    assert Decode(d, [a, b]) == Decode(e, [b]);
    assert Decode(e, [b]) == Decode(Step(e, b), []);
  }

  lemma DecodeFour(d: Decoder, a: Line, b: Line, c: Line, e: Line)
    ensures Decode(d, [a, b, c, e]) == Step(Step(Step(Step(d, a), b), c), e)
  {
    assert [a, b, c, e] == [a, b] + [c, e];
    DecodeConcat(d, [a, b], [c, e]);
    DecodeTwo(d, a, b);
    DecodeTwo(Step(Step(d, a), b), c, e);
  }

  /** What the decoder makes of a header it is ready for. */
  lemma StepHeader(d: Decoder, reg: word, page: word, len: word, flags: word)
    requires d.state == Specify
    ensures Step(d, Line(W, Header(reg, page, len, flags))) ==
            if reg == UC_ADDR && len == 4 then d.(state := UcRw)
            else d.(state := RegRw, out := d.out + [RegHead(flags & 0x8000 != 0, reg, page)])
  {
    HeaderFields(reg, page, len, flags);
  }

  lemma ReadFlagsSet(reg: word, page: word, len: word)
    ensures (ReadFlags(reg, page, len) | 0x8000) & 0x8000 != 0
  {
  }

  /** A header followed by its data is a plain access, exactly when it is not for the micro. */
  lemma {:induction false} DecodePlain(d: Decoder, reg: word, page: word, len: word, flags: word, data: Line)
    requires d.state == Specify
    ensures var entry := [RegHead(flags & 0x8000 != 0, reg, page), Value(Reverse(data.bytes))];
            (Decode(d, [Line(W, Header(reg, page, len, flags)), data]) == Decoder(Specify, RegRw, d.out + entry))
            <==> !(reg == UC_ADDR && len == 4)
  {
    StepHeader(d, reg, page, len, flags);
    DecodeTwo(d, Line(W, Header(reg, page, len, flags)), data);
    var head := RegHead(flags & 0x8000 != 0, reg, page);
    var value := Value(Reverse(data.bytes));
    if reg == UC_ADDR && len == 4 {
      var bytes := data.bytes;
      var ucHead := UcHead(At(bytes, 3) & 0x40 != 0, Join(At(bytes, 1), At(bytes, 2)));
      assert Step(d.(state := UcRw), data).out[|d.out|] == ucHead;
      assert (d.out + [head, value])[|d.out|] == head;
    } else {
      assert d.out + [head] + [value] == d.out + [head, value];
    }
  }

  /** A plain access is decoded to its entry, exactly when it does not look like the micro. */
  lemma {:induction false} DecodeReg(d: Decoder, op: Op)
    requires Typed(op) && (op.RegRead? || op.RegWrite?) && d.state == Specify
    ensures (Decode(d, Encode(op)) == Decoder(Specify, RegRw, d.out + Entry(op))) <==> !LooksLikeUc(op)
  {
    hide Decode, Header, Reverse;
    match op
    case RegRead(reg, page, len, data) =>
      ReadFlagsSet(reg, page, len);
      DecodePlain(d, reg, page, len, ReadFlags(reg, page, len) | 0x8000, Line(R, data));
    case RegWrite(reg, page, len, data) =>
      DecodePlain(d, reg, page, len, 0, Line(W, data));
  }

  lemma DecodeUcWrite(d: Decoder, ucReg: word, val: byte)
    requires d.state == Specify
    ensures Decode(d, Encode(UcWrite(ucReg, val))) == Decoder(Specify, UcRw, d.out + Entry(UcWrite(ucReg, val)))
  {
    StepHeader(d, UC_ADDR, REG_PAGE, 4, 0);
    JoinSplits(ucReg);
    DecodeTwo(d, Line(W, Header(UC_ADDR, REG_PAGE, 4, 0)), Line(W, UcWord(val, ucReg, 0x80)));
    assert d.out + [UcHead(false, ucReg)] + [Value([val])] == d.out + Entry(UcWrite(ucReg, val));
  }

  lemma DecodeUcRead(d: Decoder, ucReg: word, answer: seq<byte>)
    requires d.state == Specify && |answer| == 4
    ensures Decode(d, Encode(UcRead(ucReg, answer))) == Decoder(Specify, UcR2, d.out + Entry(UcRead(ucReg, answer)))
  {
    StepHeader(d, UC_ADDR, REG_PAGE, 4, 0);
    JoinSplits(ucReg);
    DecodeFour(d, Line(W, Header(UC_ADDR, REG_PAGE, 4, 0)), Line(W, UcWord(0x00, ucReg, 0x40)),
               Line(W, ReadHeader(UC_ADDR, REG_PAGE, 4)), Line(R, answer));
    assert d.out + [UcHead(true, ucReg)] + [Value([answer[0]])] == d.out + Entry(UcRead(ucReg, answer));
  }

  lemma SeqAnswerBits(command: byte)
    requires command & 0xc0 == 0x40
    ensures command & 0x40 != 0 && command & 0x80 == 0
  {
  }

  /** A sequential read is closed at once after a read of the micro; otherwise the decoder waits for
      two more lines. */
  lemma DecodeUcSeqRead(d: Decoder, answer: seq<byte>)
    requires d.state == Specify && Typed(UcSeqRead(answer))
    ensures d.lastState == UcR2 ==>
      Decode(d, Encode(UcSeqRead(answer))) == Decoder(Specify, UcR2, d.out + Entry(UcSeqRead(answer)))
    ensures d.lastState != UcR2 ==>
      Decode(d, Encode(UcSeqRead(answer))).state == UcR1
  {
    SeqAnswerBits(answer[3]);
    StepHeader(d, UC_ADDR, REG_PAGE, 4, 0x8000);
    DecodeTwo(d, Line(W, ReadHeader(UC_ADDR, REG_PAGE, 4)), Line(R, answer));
    var head := UcHead(true, Join(answer[1], answer[2]));
    assert d.out + [head] + [Value([answer[0]])] == d.out + Entry(UcSeqRead(answer));
  }

  /** A legal operation is decoded to its entry, and leaves the decoder ready for the next header. */
  lemma DecodeOp(d: Decoder, ops: seq<Op>, k: nat)
    requires k < |ops| && Typed(ops[k]) && LegalAt(ops, k)
    requires d.state == Specify && d.lastState == LastStateAfter(ops[..k])
    ensures Decode(d, Encode(ops[k])) == Decoder(Specify, LastStateAfter(ops[..k + 1]), d.out + Entry(ops[k]))
  {
    match ops[k]
    case RegRead(_, _, _, _) => DecodeReg(d, ops[k]);
    case RegWrite(_, _, _, _) => DecodeReg(d, ops[k]);
    case UcRead(ucReg, answer) => DecodeUcRead(d, ucReg, answer);
    case UcWrite(ucReg, val) => DecodeUcWrite(d, ucReg, val);
    case UcSeqRead(answer) => DecodeUcSeqRead(d, answer);
  }

  ghost predicate InSync(ops: seq<Op>)
    requires AllTyped(ops)
  {
    Decode(INITIAL, Trace(ops)) == Decoder(Specify, LastStateAfter(ops), Listing(ops))
  }

  lemma TraceGrows(ops: seq<Op>, k: nat)
    requires AllTyped(ops) && k < |ops|
    ensures Trace(ops[..k + 1]) == Trace(ops[..k]) + Encode(ops[k])
    ensures Listing(ops[..k + 1]) == Listing(ops[..k]) + Entry(ops[k])
  {
    assert ops[..k + 1][..k] == ops[..k];
  }

  /** Round trip: the decoder prints exactly the entries of a legal list of operations. */
  lemma {:induction false} RoundTrip(ops: seq<Op>)
    requires AllTyped(ops) && Legal(ops)
    ensures InSync(ops)
    decreases |ops|
  {
    if ops != [] {
      var n := |ops| - 1;
      forall k: nat | k < n ensures LegalAt(ops[..n], k) { assert LegalAt(ops, k); }
      RoundTrip(ops[..n]);
      DecodeConcat(INITIAL, Trace(ops[..n]), Encode(ops[n]));
      assert LegalAt(ops, n);
      DecodeOp(Decode(INITIAL, Trace(ops[..n])), ops, n);
      assert ops[..n + 1] == ops;
    }
  }

  /** An illegal operation is not decoded to its entry. */
  lemma IllegalOp(d: Decoder, ops: seq<Op>, k: nat)
    requires k < |ops| && Typed(ops[k]) && !LegalAt(ops, k)
    requires d.state == Specify && d.lastState == LastStateAfter(ops[..k])
    ensures Decode(d, Encode(ops[k])) != Decoder(Specify, LastStateAfter(ops[..k + 1]), d.out + Entry(ops[k]))
  {
    match ops[k]
    case RegRead(_, _, _, _) => DecodeReg(d, ops[k]);
    case RegWrite(_, _, _, _) => DecodeReg(d, ops[k]);
    case UcSeqRead(answer) => DecodeUcSeqRead(d, answer);
  }

  /** Exactly the legal lists keep the decoder in step after every operation. */
  lemma RoundTripExactly(ops: seq<Op>)
    requires AllTyped(ops)
    ensures (forall k | 0 <= k <= |ops| :: InSync(ops[..k])) <==> Legal(ops)
  {
    if Legal(ops) {
      forall k | 0 <= k <= |ops| ensures InSync(ops[..k]) {
        forall j: nat | j < k ensures LegalAt(ops[..k], j) { assert LegalAt(ops, j); }
        RoundTrip(ops[..k]);
      }
    } else {
      var k: nat :| k < |ops| && !LegalAt(ops, k);
      if InSync(ops[..k]) {
        IllegalOp(Decode(INITIAL, Trace(ops[..k])), ops, k);
        DecodeConcat(INITIAL, Trace(ops[..k]), Encode(ops[k]));
        TraceGrows(ops, k);
        assert !InSync(ops[..k + 1]);
      }
    }
  }

  /** Two operations that an array entry does not tell apart: the same plain access with the same data, the
      same write of the micro, or reads of the micro with the same register and value. */
  predicate Agree(a: Op, b: Op)
    requires Typed(a) && Typed(b)
  {
    if ReadsMicro(a) then ReadsMicro(b) && a.answer[0] == b.answer[0] && MicroReg(a) == MicroReg(b)
    else if a.RegRead? then b.RegRead? && a.reg == b.reg && a.page == b.page && a.data == b.data
    else a == b
  }

  function MicroReg(op: Op): word
    requires Typed(op) && ReadsMicro(op)
  {
    if op.UcRead? then op.ucReg else Join(op.answer[1], op.answer[2])
  }

  lemma ReverseInjective(a: seq<byte>, b: seq<byte>)
    requires Reverse(a) == Reverse(b)
    ensures a == b
  {
    forall i | 0 <= i < |a| ensures a[i] == b[i] {
      assert Reverse(a)[|a| - 1 - i] == Reverse(b)[|a| - 1 - i];
    }
  }

  lemma LengthsAgree(m: word, n: word)
    requires m as nat == n as nat
    ensures m == n
  {
    assert (m as nat) as word == m && (n as nat) as word == n;
  }

  function Head(op: Op): Piece
    requires Typed(op)
  {
    match op
    case RegRead(reg, page, _, _) => RegHead(true, reg, page)
    case RegWrite(reg, page, _, _) => RegHead(false, reg, page)
    case UcWrite(ucReg, _) => UcHead(false, ucReg)
    case _ => UcHead(true, MicroReg(op))
  }

  function Shown(op: Op): seq<byte>
    requires Typed(op)
  {
    match op
    case RegRead(_, _, _, data) => Reverse(data)
    case RegWrite(_, _, _, data) => Reverse(data)
    case UcWrite(_, val) => [val]
    case UcRead(_, answer) => [answer[0]]
    case UcSeqRead(answer) => [answer[0]]
  }

  lemma EntryParts(op: Op)
    requires Typed(op)
    ensures |Entry(op)| == 2 && Entry(op)[0] == Head(op) && Entry(op)[1] == Value(Shown(op))
  {
  }

  lemma PartsTell(a: Op, b: Op)
    requires Typed(a) && Typed(b) && Head(a) == Head(b) && Shown(a) == Shown(b)
    ensures Agree(a, b)
  {
    if ReadsMicro(a) || a.UcWrite? {
      assert Shown(a)[0] == Shown(b)[0];
    } else {
      ReverseInjective(a.data, b.data);
      if a.RegWrite? {
        LengthsAgree(a.len, b.len);
      }
    }
  }

  lemma {:induction false} EntryTells(a: Op, b: Op)
    requires Typed(a) && Typed(b) && Entry(a) == Entry(b)
    ensures Agree(a, b)
  {
    EntryParts(a);
    EntryParts(b);
    PartsTell(a, b);
  }

  ghost predicate AllAgree(a: seq<Op>, b: seq<Op>)
    requires AllTyped(a) && AllTyped(b)
  {
    |a| == |b| && forall k | 0 <= k < |a| :: Agree(a[k], b[k])
  }

  lemma LastEntry(ops: seq<Op>)
    requires AllTyped(ops) && ops != []
    ensures |Listing(ops)| >= 2
    ensures Listing(ops)[|Listing(ops)| - 2..] == Entry(ops[|ops| - 1])
    ensures Listing(ops)[..|Listing(ops)| - 2] == Listing(ops[..|ops| - 1])
  {
  }

  lemma AgreeGrows(a: seq<Op>, b: seq<Op>)
    requires AllTyped(a) && AllTyped(b) && a != [] && b != []
    requires AllAgree(a[..|a| - 1], b[..|b| - 1]) && Agree(a[|a| - 1], b[|b| - 1])
    ensures AllAgree(a, b)
  {
    forall k | 0 <= k < |a| ensures Agree(a[k], b[k]) {
      if k < |a| - 1 { assert Agree(a[..|a| - 1][k], b[..|b| - 1][k]); }
    }
  }

  lemma ListingEmpty(ops: seq<Op>)
    requires AllTyped(ops)
    ensures Listing(ops) == [] <==> ops == []
  {
  }

  /** The listing gives the operations back, up to what an entry records. */
  lemma {:induction false} ListingTells(a: seq<Op>, b: seq<Op>)
    requires AllTyped(a) && AllTyped(b) && Listing(a) == Listing(b)
    ensures AllAgree(a, b)
    decreases |a|
  {
    ListingEmpty(a);
    ListingEmpty(b);
    if a != [] {
      LastEntry(a);
      LastEntry(b);
      EntryTells(a[|a| - 1], b[|b| - 1]);
      ListingTells(a[..|a| - 1], b[..|b| - 1]);
      AgreeGrows(a, b);
    }
  }

  /** So the trace decoder tells legal lists of operations apart as far as its output can. */
  lemma TraceTells(a: seq<Op>, b: seq<Op>)
    requires AllTyped(a) && Legal(a) && AllTyped(b) && Legal(b)
    requires Decode(INITIAL, Trace(a)).out == Decode(INITIAL, Trace(b)).out
    ensures AllAgree(a, b)
  {
    RoundTrip(a);
    RoundTrip(b);
    ListingTells(a, b);
  }
}
