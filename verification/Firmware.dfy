/** The firmware upload of src/util.c (tvw_load_fw): the file is sent in blocks of 512 bytes to a
    16-bit address that wraps around. Opening and reading the file are not part of this model. */
module Firmware {
  import opened Words

  const BLOCK: nat := 512
  const SPACE: nat := 0x1_0000

  type Memory = m: seq<byte> | |m| == SPACE witness seq(SPACE, _ => 0)

  datatype Block = Block(address: nat, data: seq<byte>)

  function Stored(m: Memory, b: Block): Memory
    requires b.address + |b.data| <= SPACE
  {
    m[..b.address] + b.data + m[b.address + |b.data|..]
  }

  function Min(a: nat, b: nat): nat { if a < b then a else b }

  function BlockCount(n: nat): nat { (n + BLOCK - 1) / BLOCK }

  /** The first `k` blocks of a file. */
  function Blocks(file: seq<byte>, k: nat): seq<Block>
    requires k <= BlockCount(|file|)
  {
    if k == 0 then []
    else
      var fpos := BLOCK * (k - 1);
      Blocks(file, k - 1) + [Block(fpos % SPACE, file[fpos..Min(fpos + BLOCK, |file|)])]
  }

  function Concat(bs: seq<Block>): seq<byte>
    decreases |bs|
  {
    if bs == [] then [] else Concat(bs[..|bs| - 1]) + bs[|bs| - 1].data
  }

  /** The blocks are nonempty, at most 512 bytes long, and never cross the end of the address space. */
  lemma {:induction false} BlocksFit(file: seq<byte>, k: nat)
    requires k <= BlockCount(|file|)
    ensures |Blocks(file, k)| == k
    ensures forall b | b in Blocks(file, k) :: 1 <= |b.data| <= 512 && b.address + |b.data| <= 0x1_0000
    ensures forall j | 0 <= j < k ::
              512 * j < |file|
              && Blocks(file, k)[j] == Block(512 * j % 0x1_0000, file[512 * j..Min(512 * j + 512, |file|)])
  {
    if k > 0 {
      hide BlockCount;
      BlocksFit(file, k - 1);
      BlockCountBound(|file|, k);
      LastBlockFits(file, BLOCK * (k - 1));
    }
  }

  lemma LastBlockFits(file: seq<byte>, fpos: nat)
    requires fpos < |file| && fpos % BLOCK == 0
    ensures var n := |file[fpos..Min(fpos + BLOCK, |file|)]|;
            1 <= n <= BLOCK && fpos % SPACE + n <= SPACE
  {
    BlockInSpace(fpos, |file[fpos..Min(fpos + BLOCK, |file|)]|);
  }

  lemma BlockCountBound(n: nat, k: nat)
    ensures k <= BlockCount(n) ==> BLOCK * (k - 1) < n || k == 0
    ensures BLOCK * BlockCount(n) >= n && BLOCK * (k - 1) % BLOCK == 0
  {
  }

  lemma ConcatGrows(bs: seq<Block>, b: Block)
    ensures Concat(bs + [b]) == Concat(bs) + b.data
  {
    assert (bs + [b])[..|bs|] == bs;
  }

  lemma TakeMore(s: seq<byte>, a: nat, b: nat)
    requires a <= b <= |s|
    ensures s[..a] + s[a..b] == s[..b]
  {
  }

  /** Put together they are the file. */
  lemma {:induction false} BlocksPartition(file: seq<byte>, k: nat)
    requires k <= BlockCount(|file|)
    ensures Concat(Blocks(file, k)) == file[..Min(BLOCK * k, |file|)]
  {
    if k > 0 {
      var fpos := BLOCK * (k - 1);
      BlockCountBound(|file|, k);
      BlocksPartition(file, k - 1);
      var data := file[fpos..Min(fpos + BLOCK, |file|)];
      ConcatGrows(Blocks(file, k - 1), Block(fpos % SPACE, data));
      TakeMore(file, fpos, Min(fpos + BLOCK, |file|));
    }
  }

  lemma WholeFileSent(file: seq<byte>)
    ensures Concat(Blocks(file, BlockCount(|file|))) == file
  {
    BlocksPartition(file, BlockCount(|file|));
    BlockCountBound(|file|, 0);
    assert file[..|file|] == file;
  }

  lemma Unwrapped(a: nat)
    requires a < 0x1_0000
    ensures a % 0x1_0000 == a
  {
  }

  /** Up to 64 KiB no address is used twice. */
  lemma AddressesDistinct(file: seq<byte>, k: nat)
    requires k <= BlockCount(|file|) && |file| <= 0x1_0000
    ensures |Blocks(file, k)| == k
    ensures forall j | 0 <= j < k :: Blocks(file, k)[j].address == 512 * j
  {
    hide Blocks, BlockCount;
    BlocksFit(file, k);
    forall j | 0 <= j < k ensures Blocks(file, k)[j].address == 512 * j {
      Unwrapped(512 * j);
    }
  }

  // ---------- What the memory holds ----------

  /** The last position below `n` of the bytes that are sent to address `a`. */
  function LastAt(n: nat, a: nat): (i: nat)
    requires a < n && a < SPACE
    ensures a <= i < n && i % SPACE == a && n - i <= SPACE
  {
    a + SPACE * ((n - 1 - a) / SPACE)
  }

  /** A memory after the first `n` bytes of a file were sent to it. */
  function Uploaded(m: Memory, file: seq<byte>, n: nat): Memory
    requires n <= |file|
  {
    seq(SPACE, a requires 0 <= a < SPACE => if a < n then file[LastAt(n, a)] else m[a])
  }

  lemma SameResidue(i: nat, j: nat, n: nat)
    requires i % SPACE == j % SPACE && i < n && j < n && n - i <= SPACE && n - j <= SPACE
    ensures i == j
  {
  }

  lemma BlockInSpace(fpos: nat, len: nat)
    requires fpos % BLOCK == 0 && len <= BLOCK
    ensures fpos % SPACE + len <= SPACE
  {
    assert fpos % SPACE % BLOCK == 0;
  }

  /** Which byte address `a` holds once the block at `fpos` is stored. */
  lemma StoreAt(fpos: nat, end: nat, a: nat)
    requires fpos < end && fpos % SPACE + (end - fpos) <= SPACE && a < SPACE
    ensures var off := fpos % SPACE;
            if off <= a < off + (end - fpos) then a < end && LastAt(end, a) == fpos + (a - off)
            else (a < fpos <==> a < end) && (a < fpos ==> LastAt(end, a) == LastAt(fpos, a))
  {
    hide LastAt;
    var off := fpos % SPACE;
    if off <= a < off + (end - fpos) {
      SameResidue(fpos + (a - off), LastAt(end, a), end);
    } else if a < fpos {
      SameResidue(LastAt(fpos, a), LastAt(end, a), end);
    }
  }

  /** One block more. */
  lemma StoreExtends(m: Memory, file: seq<byte>, fpos: nat, end: nat)
    requires fpos % BLOCK == 0 && fpos < end <= |file| && end - fpos <= BLOCK
    ensures fpos % SPACE + (end - fpos) <= SPACE
    ensures Stored(Uploaded(m, file, fpos), Block(fpos % SPACE, file[fpos..end])) == Uploaded(m, file, end)
  {
    BlockInSpace(fpos, end - fpos);
    var stored := Stored(Uploaded(m, file, fpos), Block(fpos % SPACE, file[fpos..end]));
    forall a | 0 <= a < SPACE ensures stored[a] == Uploaded(m, file, end)[a] {
      StoreAt(fpos, end, a);
    }
  }

  /** The memory holds the file: every byte of it is found at its address. */
  ghost predicate Holds(m: Memory, file: seq<byte>) {
    forall i | 0 <= i < |file| :: m[i % SPACE] == file[i]
  }

  /** Bytes that are sent to the same address agree. */
  ghost predicate Repeats(file: seq<byte>) {
    forall i | 0 <= i < |file| - SPACE :: file[i] == file[i + SPACE]
  }

  /** After the upload the memory holds the file, exactly when the bytes that share an address agree. */
  lemma HoldsFileExactly(m: Memory, file: seq<byte>)
    ensures Holds(Uploaded(m, file, |file|), file) <==> Repeats(file)
  {
    var n := |file|;
    var image := Uploaded(m, file, n);
    if Holds(image, file) {
      forall i | 0 <= i < n - SPACE ensures file[i] == file[i + SPACE] {
        assert image[i % SPACE] == file[i];
        assert image[(i + SPACE) % SPACE] == file[i + SPACE];
        SameAddress(i);
      }
    }
    if Repeats(file) {
      forall i | 0 <= i < n ensures image[i % SPACE] == file[i] {
        LastOnes(n, i);
        Periodic(file, i, LastAt(n, i % SPACE));
      }
    }
  }

  lemma SameAddress(i: nat)
    ensures (i + SPACE) % SPACE == i % SPACE
  {
  }

  lemma LastOnes(n: nat, i: nat)
    requires i < n
    ensures i % SPACE < n && i <= LastAt(n, i % SPACE)
  {
  }

  /** In particular for every file of at most 64 KiB, which then lies at the start of the memory. */
  lemma SmallFileHeld(m: Memory, file: seq<byte>)
    requires |file| <= SPACE
    ensures Uploaded(m, file, |file|)[..|file|] == file
    ensures Uploaded(m, file, |file|)[|file|..] == m[|file|..]
  {
    var image := Uploaded(m, file, |file|);
    forall i | 0 <= i < |file| ensures image[i] == file[i] {
      SameResidue(i, LastAt(|file|, i), |file|);
    }
  }

  lemma {:induction false} Periodic(file: seq<byte>, i: nat, j: nat)
    requires Repeats(file) && i <= j < |file| && i % SPACE == j % SPACE
    ensures file[i] == file[j]
    decreases j - i
  {
    if i < j { Periodic(file, i + SPACE, j); }
  }

  // ---------- The driver ----------

  class Loader {
    ghost var memory: Memory
    ghost var sent: seq<Block>

    constructor (ghost memory: Memory)
      ensures this.memory == memory && sent == []
    {
      this.memory := memory;
      sent := [];
    }

    /** internal_write_reg to page 0x1001; a failed transfer stores nothing. */
    method WriteBlock(address: nat, data: seq<byte>) returns (ret: int)
      requires address + |data| <= SPACE
      modifies this
      ensures ret == 0 ==>
                memory == Stored(old(memory), Block(address, data)) && sent == old(sent) + [Block(address, data)]
      ensures ret != 0 ==> memory == old(memory) && sent == old(sent)
    {
      ret := *;
      if ret == 0 {
        memory := Stored(memory, Block(address, data));
        sent := sent + [Block(address, data)];
      }
    }

    /** Exactly the first `k` blocks have arrived. */
    ghost predicate StoppedAfter(m: Memory, before: seq<Block>, file: seq<byte>, k: nat)
      reads this
    {
      && k <= BlockCount(|file|) && BLOCK * k <= |file|
      && sent == before + Blocks(file, k) && memory == Uploaded(m, file, BLOCK * k)
    }

    /** One turn of the loop. */
    method SendBlock(file: seq<byte>, fpos: nat, ghost k: nat, ghost m: Memory,
                     ghost before: seq<Block>) returns (ret: int)
      requires fpos == BLOCK * k && fpos < |file| && StoppedAfter(m, before, file, k)
      modifies this
      ensures ret == 0 ==> k < BlockCount(|file|) && sent == before + Blocks(file, k + 1)
                           && memory == Uploaded(m, file, Min(fpos + BLOCK, |file|))
      ensures ret != 0 ==> StoppedAfter(m, before, file, k)
    {
      hide Stored;
      var flen := |file|;
      var wlen := if flen < BLOCK || flen - BLOCK < fpos then flen - fpos else BLOCK;
      StoreExtends(m, file, fpos, fpos + wlen);
      ret := WriteBlock(fpos % SPACE, file[fpos..fpos + wlen]);
    }

    /** tvw_load_fw, with the contents of the file. */
    method LoadFw(file: seq<byte>) returns (ret: int)
      modifies this
      ensures file == [] ==> ret == -1 && sent == old(sent)
      ensures ret == 0 || ret == -1
      ensures ret == 0 ==>
                sent == old(sent) + Blocks(file, BlockCount(|file|)) && memory == Uploaded(old(memory), file, |file|)
      ensures ret != 0 ==> exists k: nat :: StoppedAfter(old(memory), old(sent), file, k)
    {
      var flen := |file|;
      if flen <= 0 {
        assert StoppedAfter(memory, sent, file, 0);
        return -1;
      }
      var fpos := 0;
      ghost var k := 0;
      assert Uploaded(memory, file, 0) == memory;
      while fpos < flen
        invariant fpos == BLOCK * k && k <= BlockCount(flen)
        invariant sent == old(sent) + Blocks(file, k)
        invariant memory == Uploaded(old(memory), file, Min(fpos, flen))
      {
        ret := SendBlock(file, fpos, k, old(memory), old(sent));
        if ret != 0 {
          return -1;
        }
        k := k + 1;
        fpos := fpos + BLOCK;
      }
      ret := 0;
    }
  }
}
