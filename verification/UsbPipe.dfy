/** The driver's side of the register protocol (src/util.c), with a trace of the bulk transfers that
    completed. The device's answers and the outcome of every transfer are arbitrary. */
module UsbPipe {
  import opened Words
  import opened Codec

  lemma ReadFlag(flags: word)
    ensures Lo(flags | 0x8000) == Lo(flags) && Hi(flags | 0x8000) == Hi(flags) | 0x80
  {
  }

  /** Twelve bytes with the fields of a header are that header. */
  lemma HeaderFilled(h: seq<byte>, reg: word, page: word, len: word, flags: word)
    requires |h| == 12
    requires h[0] == Lo(reg) && h[1] == Hi(reg) && h[2] == Lo(page) && h[3] == Hi(page)
    requires h[4] == Lo(len) && h[5] == Hi(len) && h[6] == Lo(flags) && h[7] == Hi(flags)
    requires h[8] == Lo(!reg) && h[9] == Hi(!reg) && h[10] == Lo(!page) && h[11] == Hi(!page)
    ensures h == Header(reg, page, len, flags)
  {
  }

  /** The 12-byte header, which both directions fill in the same way. */
  method FillHeader(reg: word, page: word, len: word, flags: word, direction: byte) returns (tmpbuf: array<byte>)
    ensures fresh(tmpbuf) && tmpbuf.Length == 12
    ensures tmpbuf[0] == Lo(reg) && tmpbuf[1] == Hi(reg) && tmpbuf[2] == Lo(page) && tmpbuf[3] == Hi(page)
    ensures tmpbuf[4] == Lo(len) && tmpbuf[5] == Hi(len) && tmpbuf[6] == Lo(flags)
    ensures tmpbuf[7] == Hi(flags) | direction
    ensures tmpbuf[8] == Lo(!reg) && tmpbuf[9] == Hi(!reg) && tmpbuf[10] == Lo(!page) && tmpbuf[11] == Hi(!page)
  {
    hide Lo, Hi;
    tmpbuf := new byte[12](_ => 0);
    tmpbuf[0], tmpbuf[1] := Lo(reg), Hi(reg);
    tmpbuf[2], tmpbuf[3] := Lo(page), Hi(page);
    tmpbuf[4], tmpbuf[5] := Lo(len), Hi(len);
    tmpbuf[6], tmpbuf[7] := Lo(flags), Hi(flags);
    tmpbuf[7] := tmpbuf[7] | direction;
    tmpbuf[8], tmpbuf[9] := Lo(!reg), Hi(!reg);
    tmpbuf[10], tmpbuf[11] := Lo(!page), Hi(!page);
  }

  lemma TwoLines(trace: seq<Line>, a: Line, b: Line)
    ensures trace + [a] + [b] == trace + [a, b]
  {
  }

  class Pipe {
    ghost var trace: seq<Line>

    constructor ()
      ensures trace == []
    {
      trace := [];
    }

    /** libusb_bulk_transfer on endpoint 0x03. */
    method BulkOut(bytes: seq<byte>) returns (ret: int)
      modifies this
      ensures trace == if ret == 0 then old(trace) + [Line(W, bytes)] else old(trace)
    {
      ret := *;
      if ret == 0 {
        trace := trace + [Line(W, bytes)];
      }
    }

    /** libusb_bulk_transfer on endpoint 0x82. */
    method BulkIn(n: nat) returns (ret: int, bytes: seq<byte>)
      modifies this
      ensures |bytes| == n
      ensures trace == if ret == 0 then old(trace) + [Line(R, bytes)] else old(trace)
    {
      ret := *;
      bytes := *;
      if |bytes| < n {
        bytes := bytes + seq(n - |bytes|, _ => 0);
      }
      bytes := bytes[..n];
      if ret == 0 {
        trace := trace + [Line(R, bytes)];
      }
    }

    method InternalReadReg(reg: word, page: word, len: word) returns (ret: int, buf: seq<byte>)
      modifies this
      ensures ret == 0 ==> Typed(RegRead(reg, page, len, buf))
      ensures ret == 0 ==> trace == old(trace) + Encode(RegRead(reg, page, len, buf))
    {
      hide Header, Lo, Hi;
      var flags: word, rlen := 0x0000, len as nat;
      if reg == 0x0000 && page == 0x8000 && len == 0x0000 {
        flags := 0xbfc1;
        rlen := 4;
      }
      var tmpbuf := FillHeader(reg, page, len, flags, 1 << 7);
      ReadFlag(flags);
      HeaderFilled(tmpbuf[..], reg, page, len, flags | 0x8000);
      ghost var before := trace;
      buf := [];
      ret := BulkOut(tmpbuf[..]);
      if ret != 0 {
        return;
      }
      ret, buf := BulkIn(rlen);
      TwoLines(before, Line(W, ReadHeader(reg, page, len)), Line(R, buf));
    }

    method InternalWriteReg(reg: word, page: word, buf: seq<byte>, len: word) returns (ret: int)
      requires |buf| == len as nat
      modifies this
      ensures ret == 0 ==> trace == old(trace) + Encode(RegWrite(reg, page, len, buf))
    {
      var tmpbuf := FillHeader(reg, page, len, 0x0000, 0 << 7);
      HeaderFilled(tmpbuf[..], reg, page, len, 0);
      TwoLines(trace, Line(W, Header(reg, page, len, 0)), Line(W, buf));
      ret := BulkOut(tmpbuf[..]);
      if ret != 0 {
        return;
      }
      ret := BulkOut(buf);
    }

    /** tvw_uc_read_reg: the address of the micro's register is written, then the answer read. */
    method UcReadReg(ucReg: word) returns (ok: bool, val: byte, ghost answer: seq<byte>)
      modifies this
      ensures ok ==> |answer| == 4 && val == answer[0]
      ensures ok ==> trace == old(trace) + Encode(UcRead(ucReg, answer))
    {
      ghost var before := trace;
      var ret := InternalWriteReg(UC_ADDR, REG_PAGE, [0x00, Lo(ucReg), Hi(ucReg), 0x40], 4);
      if ret != 0 {
        return false, 0, [];
      }
      var buf;
      ret, buf := InternalReadReg(UC_ADDR, REG_PAGE, 4);
      if ret != 0 {
        return false, 0, [];
      }
      assert trace == before + Encode(UcRead(ucReg, buf));
      return true, buf[0], buf;
    }

    method UcWriteReg(ucReg: word, val: byte) returns (ok: bool)
      modifies this
      ensures ok ==> trace == old(trace) + Encode(UcWrite(ucReg, val))
    {
      var ret := InternalWriteReg(UC_ADDR, REG_PAGE, [val, Lo(ucReg), Hi(ucReg), 0x80], 4);
      ok := ret == 0;
    }

    /** tvw_uc_rmw_reg. */
    method UcRmwReg(ucReg: word, mask: byte, val: byte) returns (ok: bool, ghost answer: seq<byte>)
      modifies this
      ensures ok ==> |answer| == 4
      ensures ok ==> trace == old(trace) + Encode(UcRead(ucReg, answer)) +
                              Encode(UcWrite(ucReg, (answer[0] & mask) | val))
    {
      var tmp;
      ok, tmp, answer := UcReadReg(ucReg);
      if !ok {
        return;
      }
      ok := UcWriteReg(ucReg, (tmp & mask) | val);
    }
  }
}
