/** The streaming deframer of src/libtvwsdr.c: USB packets are appended to a work buffer, and every
    complete boundary section (32 bytes, starting with the 0xff of an ITU-R BT.656 timing
    reference code) is handed to a callback together with the bytes in front of it. */
module Deframer {
  import opened Words

  const MARK: byte := 0xff
  const SECTION_SIZE: nat := 32
  const WORK_BUF_SIZE: nat := 8192
  const PACKET_SIZE: nat := 3072

  /** One callback: the `frame_length` bytes that precede `ptr` in the work buffer, and the
      boundary section at `ptr`. */
  datatype Frame = Frame(payload: seq<byte>, section: seq<byte>)

  // ---------- The pure parser ----------

  /** memchr(s, 0xff, |s|): the index of the first marker, or |s| when there is none. */
  function FirstMark(s: seq<byte>): (n: nat)
    ensures n <= |s|
    ensures forall i | 0 <= i < n :: s[i] != MARK
    ensures n < |s| ==> s[n] == MARK
  {
    if s == [] || s[0] == MARK then 0 else 1 + FirstMark(s[1..])
  }

  /** All sections a greedy left-to-right parse of `s` finds ... */
  function Frames(s: seq<byte>): seq<Frame>
    decreases |s|
  {
    var g := FirstMark(s);
    if g + SECTION_SIZE > |s| then []
    else [Frame(s[..g], s[g..g + SECTION_SIZE])] + Frames(s[g + SECTION_SIZE..])
  }

  /** ... and what it leaves over. */
  function Rest(s: seq<byte>): (r: seq<byte>)
    ensures |r| <= |s|
    decreases |s|
  {
    var g := FirstMark(s);
    if g + SECTION_SIZE > |s| then s else Rest(s[g + SECTION_SIZE..])
  }

  function Serialise(fs: seq<Frame>): seq<byte> {
    if fs == [] then [] else fs[0].payload + fs[0].section + Serialise(fs[1..])
  }

  lemma SerialiseCons(f: Frame, fs: seq<Frame>)
    ensures Serialise([f] + fs) == f.payload + f.section + Serialise(fs)
  {
    assert ([f] + fs)[1..] == fs;
  }

  ghost predicate WellFormed(fs: seq<Frame>) {
    forall f | f in fs :: 0xff !in f.payload && |f.section| == 32 && f.section[0] == 0xff
  }

  /** No complete section is left. */
  ghost predicate Incomplete(r: seq<byte>) {
    forall i | 0 <= i < |r| :: r[i] == 0xff ==> i + 32 > |r|
  }

  lemma FirstMarkAt(s: seq<byte>, n: nat)
    requires n <= |s| && (forall i | 0 <= i < n :: s[i] != MARK) && (n < |s| ==> s[n] == MARK)
    ensures FirstMark(s) == n
  {
  }

  /** The parse partitions the stream ... */
  lemma {:induction false} ParsePartitions(s: seq<byte>)
    ensures s == Serialise(Frames(s)) + Rest(s)
    decreases |s|
  {
    var g := FirstMark(s);
    if g + SECTION_SIZE <= |s| {
      var cut := g + SECTION_SIZE;
      var f, tail := Frame(s[..g], s[g..cut]), s[cut..];
      ParsePartitions(tail);
      SerialiseCons(f, Frames(tail));
      Reassociate(f.payload + f.section, Serialise(Frames(tail)), Rest(tail));
      SplitAt(s, g, cut);
    }
  }

  lemma Reassociate<T>(a: seq<T>, b: seq<T>, c: seq<T>)
    ensures a + (b + c) == (a + b) + c
  {
  }

  lemma SplitAt(s: seq<byte>, g: nat, cut: nat)
    requires g <= cut <= |s|
    ensures s == s[..g] + s[g..cut] + s[cut..]
  {
  }

  /** ... into well-formed frames and an incomplete tail. */
  lemma {:induction false} ParseWellFormed(s: seq<byte>)
    ensures WellFormed(Frames(s)) && Incomplete(Rest(s))
    decreases |s|
  {
    var g := FirstMark(s);
    if g + SECTION_SIZE <= |s| {
      var cut := g + SECTION_SIZE;
      ParseWellFormed(s[cut..]);
      forall f | f in Frames(s) ensures f == Frame(s[..g], s[g..cut]) || f in Frames(s[cut..]) {}
    }
  }

  /** A well-formed frame in front of `t` is what the parse finds first. */
  lemma {:induction false} FrameInFront(f: Frame, t: seq<byte>)
    requires MARK !in f.payload && |f.section| == SECTION_SIZE && f.section[0] == MARK
    ensures FirstMark(f.payload + f.section + t) == |f.payload|
    ensures Frames(f.payload + f.section + t) == [f] + Frames(t) && Rest(f.payload + f.section + t) == Rest(t)
  {
    var s := f.payload + f.section + t;
    var g := |f.payload|;
    forall i | 0 <= i < g ensures s[i] != MARK { assert s[i] == f.payload[i]; }
    assert s[g] == f.section[0];
    FirstMarkAt(s, g);
    PiecesOf(f.payload, f.section, t);
    FirstFrame(s);
  }

  lemma PiecesOf(a: seq<byte>, b: seq<byte>, c: seq<byte>)
    ensures var s := a + b + c; s[..|a|] == a && s[|a|..|a| + |b|] == b && s[|a| + |b|..] == c
  {
  }

  /** One step of the parse. */
  lemma {:induction false} FirstFrame(s: seq<byte>)
    requires FirstMark(s) + SECTION_SIZE <= |s|
    ensures var g := FirstMark(s);
            && Frames(s) == [Frame(s[..g], s[g..g + SECTION_SIZE])] + Frames(s[g + SECTION_SIZE..])
            && Rest(s) == Rest(s[g + SECTION_SIZE..])
  {
  }

  lemma SerialiseFirst(fs: seq<Frame>, rest: seq<byte>)
    requires fs != []
    ensures Serialise(fs) + rest == fs[0].payload + fs[0].section + (Serialise(fs[1..]) + rest)
  {
    Reassociate(fs[0].payload + fs[0].section, Serialise(fs[1..]), rest);
  }

  /** ... and it is the only such partition, so deframing undoes serialising. */
  lemma {:induction false} ParseUnique(fs: seq<Frame>, rest: seq<byte>)
    requires WellFormed(fs) && Incomplete(rest)
    ensures Frames(Serialise(fs) + rest) == fs
    ensures Rest(Serialise(fs) + rest) == rest
    decreases |fs|
  {
    if fs == [] {
      assert Serialise(fs) + rest == rest;
    } else {
      hide Frames, Rest, FirstMark, Serialise;
      var f, tail := fs[0], fs[1..];
      ParseUnique(tail, rest);
      SerialiseFirst(fs, rest);
      FrameInFront(f, Serialise(tail) + rest);
      assert fs == [f] + tail;
    }
  }

  /** Parsing `a` first and resuming on its left-over is parsing `a + b` at once. */
  lemma {:induction false} ParseResumes(a: seq<byte>, b: seq<byte>)
    ensures Frames(a + b) == Frames(a) + Frames(Rest(a) + b)
    ensures Rest(a + b) == Rest(Rest(a) + b)
    decreases |a|
  {
    var g := FirstMark(a);
    if g + SECTION_SIZE <= |a| {
      var cut := g + SECTION_SIZE;
      var f := Frame(a[..g], a[g..cut]);
      ParseResumes(a[cut..], b);
      FirstFrame(a);
      SplitAt(a, g, cut);
      Reassociate(f.payload + f.section, a[cut..], b);
      FrameInFront(f, a[cut..] + b);
      Reassociate([f], Frames(a[cut..]), Frames(Rest(a) + b));
    }
  }

  // ---------- Runs of packets ----------

  /** What can be observed of the link: the callbacks so far, the pending bytes, and how many bytes
      the overflow check has thrown away. */
  datatype Feed = Feed(calls: seq<Frame>, pending: seq<byte>, discarded: nat)

  const START := Feed([], [], 0)

  predicate Overflows(l: Feed, packet: seq<byte>) {
    |l.pending| + |packet| > WORK_BUF_SIZE
  }

  /** The effect of one call of tvwsdr_deframe_isoch_data. */
  function Received(l: Feed, packet: seq<byte>): Feed {
    var kept := if Overflows(l, packet) then [] else l.pending;
    Feed(l.calls + Frames(kept + packet), Rest(kept + packet), l.discarded + |l.pending| - |kept|)
  }

  function Run(l: Feed, packets: seq<seq<byte>>): Feed
    decreases |packets|
  {
    if packets == [] then l
    else Received(Run(l, packets[..|packets| - 1]), packets[|packets| - 1])
  }

  ghost predicate NoReset(packets: seq<seq<byte>>) {
    forall k | 0 <= k < |packets| :: !Overflows(Run(START, packets[..k]), packets[k])
  }

  function Concat(packets: seq<seq<byte>>): seq<byte>
    decreases |packets|
  {
    if packets == [] then [] else Concat(packets[..|packets| - 1]) + packets[|packets| - 1]
  }

  lemma NoResetPrefix(packets: seq<seq<byte>>, n: nat)
    requires NoReset(packets) && n <= |packets|
    ensures NoReset(packets[..n])
  {
    forall k | 0 <= k < n ensures !Overflows(Run(START, packets[..n][..k]), packets[..n][k]) {
      assert packets[..n][..k] == packets[..k];
    }
  }

  lemma {:induction false} NoResetExtends(packets: seq<seq<byte>>)
    requires packets != []
    requires NoReset(packets[..|packets| - 1])
    requires !Overflows(Run(START, packets[..|packets| - 1]), packets[|packets| - 1])
    ensures NoReset(packets)
  {
    var init := packets[..|packets| - 1];
    forall k | 0 <= k < |packets| ensures !Overflows(Run(START, packets[..k]), packets[k]) {
      if k < |init| {
        assert init[..k] == packets[..k];
        assert !Overflows(Run(START, init[..k]), init[k]);
      }
    }
  }

  /** Refinement: without resets, however the stream is cut into packets, the callbacks and the
      left-over are those of one greedy parse of the whole stream. */
  lemma {:induction false} RunIsParse(packets: seq<seq<byte>>)
    requires NoReset(packets)
    ensures Run(START, packets) == Feed(Frames(Concat(packets)), Rest(Concat(packets)), 0)
    decreases |packets|
  {
    if packets != [] {
      var n := |packets| - 1;
      var init, last := packets[..n], packets[n];
      NoResetPrefix(packets, n);
      RunIsParse(init);
      assert !Overflows(Run(START, packets[..n]), packets[n]);
      ParseResumes(Concat(init), last);
    }
  }

  lemma SplitIndependent(p: seq<seq<byte>>, q: seq<seq<byte>>)
    requires Concat(p) == Concat(q) && NoReset(p) && NoReset(q)
    ensures Run(START, p) == Run(START, q)
  {
    RunIsParse(p);
    RunIsParse(q);
  }

  /** Since packet `k` the callbacks and the pending bytes are those of one parse of what arrived from then on; what
      was pending before is discarded, and nothing else. */
  ghost predicate ParsedSince(packets: seq<seq<byte>>, k: nat)
    requires k <= |packets|
  {
    var before, after, all := Run(START, packets[..k]), Run(START, packets), Concat(packets[k..]);
    && after.calls == before.calls + Frames(all) && after.pending == Rest(all)
    && after.discarded == before.discarded + |before.pending|
  }

  /** Packet `i` does not fit behind what is pending. */
  ghost predicate TooMuchAt(packets: seq<seq<byte>>, i: int)
    requires 0 <= i < |packets|
  {
    |Run(START, packets[..i]).pending| + |packets[i]| > 8192
  }

  /** Any run, with resets or without, is one parse since the last packet that did not fit. */
  lemma {:induction false} SinceLastReset(packets: seq<seq<byte>>) returns (k: nat)
    ensures k <= |packets| && ParsedSince(packets, k)
    ensures k > 0 ==> k < |packets| && TooMuchAt(packets, k)
    ensures forall i | k < i < |packets| :: !TooMuchAt(packets, i)
    decreases |packets|
  {
    if packets == [] {
      return 0;
    }
    hide ParsedSince, TooMuchAt;
    var n := |packets| - 1;
    if n > 0 && TooMuchAt(packets, n) {
      k := n;
      ParsedAfterReset(packets);
    } else {
      k := SinceLastReset(packets[..n]);
      ParsedOn(packets, k);
      forall i | 0 <= i < n ensures TooMuchAt(packets[..n], i) <==> TooMuchAt(packets, i) {
        SamePrefix(packets, i);
      }
    }
  }

  lemma SamePrefix(packets: seq<seq<byte>>, i: nat)
    requires i < |packets| - 1
    ensures TooMuchAt(packets[..|packets| - 1], i) <==> TooMuchAt(packets, i)
  {
    assert packets[..|packets| - 1][..i] == packets[..i];
  }

  lemma ParsedAfterReset(packets: seq<seq<byte>>)
    requires packets != [] && TooMuchAt(packets, |packets| - 1)
    ensures ParsedSince(packets, |packets| - 1)
  {
    hide Frames, Rest;
    var n := |packets| - 1;
    assert packets[n..] == [packets[n]];
    OnePacket(packets[n]);
    assert [] + packets[n] == packets[n];
  }

  lemma ParsedOn(packets: seq<seq<byte>>, k: nat)
    requires packets != [] && k < |packets| && ParsedSince(packets[..|packets| - 1], k)
    requires |packets| == 1 || !TooMuchAt(packets, |packets| - 1)
    ensures ParsedSince(packets, k)
  {
    hide Frames, Rest;
    var n := |packets| - 1;
    FromThere(packets, k);
    var all := Concat(packets[..n][k..]);
    ParseResumes(all, packets[n]);
    Reassociate(Run(START, packets[..k]).calls, Frames(all), Frames(Rest(all) + packets[n]));
  }

  lemma OnePacket(packet: seq<byte>)
    ensures Concat([packet]) == packet
  {
    assert [packet][..0] == [];
    assert Concat([packet]) == Concat([]) + packet;
  }

  lemma FromThere(packets: seq<seq<byte>>, k: nat)
    requires k < |packets|
    ensures var n := |packets| - 1;
            packets[..n][..k] == packets[..k] && Concat(packets[k..]) == Concat(packets[..n][k..]) + packets[n]
  {
    var n := |packets| - 1;
    assert packets[k..][..n - k] == packets[..n][k..];
  }

  function Consumed(fs: seq<Frame>): nat {
    if fs == [] then 0 else |fs[0].payload| + |fs[0].section| + Consumed(fs[1..])
  }

  lemma {:induction false} ConsumedIsSerialised(fs: seq<Frame>)
    ensures Consumed(fs) == |Serialise(fs)|
  {
    if fs != [] { ConsumedIsSerialised(fs[1..]); }
  }

  lemma {:induction false} ConsumedAppends(a: seq<Frame>, b: seq<Frame>)
    ensures Consumed(a + b) == Consumed(a) + Consumed(b)
    decreases |a|
  {
    if a == [] {
      assert a + b == b;
    } else {
      assert (a + b)[1..] == a[1..] + b;
      ConsumedAppends(a[1..], b);
    }
  }

  /** Conservation in every run, with or without resets. */
  lemma {:induction false} BytesConserved(packets: seq<seq<byte>>)
    ensures var l := Run(START, packets);
            |Concat(packets)| == Consumed(l.calls) + l.discarded + |l.pending|
    decreases |packets|
  {
    if packets != [] {
      var n := |packets| - 1;
      BytesConserved(packets[..n]);
      var l, packet := Run(START, packets[..n]), packets[n];
      var kept := if Overflows(l, packet) then [] else l.pending;
      ParsePartitions(kept + packet);
      ConsumedIsSerialised(Frames(kept + packet));
      ConsumedAppends(l.calls, Frames(kept + packet));
    }
  }

  lemma RunExtends(l: Feed, packets: seq<seq<byte>>, i: nat)
    requires i < |packets|
    ensures Run(l, packets[..i + 1]) == Received(Run(l, packets[..i]), packets[i])
  {
    assert packets[..i + 1][..i] == packets[..i];
  }

  lemma ReceivedIncomplete(l: Feed, packet: seq<byte>)
    ensures Incomplete(Received(l, packet).pending)
  {
    ParseWellFormed((if Overflows(l, packet) then [] else l.pending) + packet);
  }

  /** In every run the pending bytes hold no complete section. */
  lemma PendingIncomplete(packets: seq<seq<byte>>)
    ensures Incomplete(Run(START, packets).pending)
  {
    if packets != [] {
      var n := |packets| - 1;
      ReceivedIncomplete(Run(START, packets[..n]), packets[n]);
    }
  }

  // ---------- When nothing is lost ----------

  /** Every marker the parse meets has at most `gap` bytes in front of it, and so has the tail. */
  ghost predicate GapsWithin(s: seq<byte>, gap: nat) {
    (forall f | f in Frames(s) :: |f.payload| <= gap) && FirstMark(Rest(s)) <= gap
  }

  lemma {:induction false} GapsWithinPrefix(a: seq<byte>, b: seq<byte>, gap: nat)
    requires GapsWithin(a + b, gap)
    ensures GapsWithin(a, gap)
    decreases |a|
  {
    ParseResumes(a, b);
    forall f | f in Frames(a) ensures |f.payload| <= gap { assert f in Frames(a + b); }
    RestIsFixed(a);
    var r := Rest(a);
    var s := r + b;
    assert forall i | 0 <= i < FirstMark(r) :: s[i] == r[i];
    var g := FirstMark(s);
    if g < FirstMark(r) {
      assert false;
    }
    if g + SECTION_SIZE <= |s| {
      assert Frames(s)[0].payload == s[..g];
      assert Frames(s)[0] in Frames(a + b);
    } else {
      assert Rest(s) == s;
    }
  }

  /** Parsing a left-over again finds nothing: an empty packet changes nothing. */
  lemma RestIsFixed(s: seq<byte>)
    ensures Frames(Rest(s)) == [] && Rest(Rest(s)) == Rest(s)
  {
    ParseWellFormed(s);
    var r := Rest(s);
    if FirstMark(r) < |r| { assert r[FirstMark(r)] == MARK; }
  }

  lemma PendingWithin(packets: seq<seq<byte>>, gap: nat)
    requires NoReset(packets) && GapsWithin(Concat(packets), gap)
    ensures |Run(START, packets).pending| <= gap + 31
  {
    RunIsParse(packets);
    RestIsFixed(Concat(packets));
  }

  lemma {:induction false} ConcatSplits(packets: seq<seq<byte>>, n: nat)
    requires n <= |packets|
    ensures exists tail :: Concat(packets) == Concat(packets[..n]) + tail
    decreases |packets|
  {
    if n == |packets| {
      assert packets[..n] == packets;
      assert Concat(packets) == Concat(packets[..n]) + [];
    } else {
      var m := |packets| - 1;
      ConcatSplits(packets[..m], n);
      assert packets[..m][..n] == packets[..n];
      var tail :| Concat(packets[..m]) == Concat(packets[..n]) + tail;
      assert Concat(packets) == Concat(packets[..n]) + (tail + packets[m]);
    }
  }

  /** Lossless buffering: with gaps of at most `gap` bytes and packets of at most `size`, the reset
      never fires as long as gap + 31 + size fits the work buffer. */
  lemma {:induction false} Lossless(packets: seq<seq<byte>>, gap: nat, size: nat)
    requires gap + 31 + size <= 8192
    requires GapsWithin(Concat(packets), gap)
    requires forall p | p in packets :: |p| <= size
    ensures NoReset(packets)
    decreases |packets|
  {
    if packets != [] {
      var n := |packets| - 1;
      GapsWithinPrefix(Concat(packets[..n]), packets[n], gap);
      Lossless(packets[..n], gap, size);
      PendingWithin(packets[..n], gap);
      assert packets[n] in packets;
      NoResetExtends(packets);
    }
  }

  /** Any frames with payloads of at most 5089 bytes, serialised, cut into USB packets anyhow and
      deframed, come back unchanged. */
  lemma RoundTrip(fs: seq<Frame>, rest: seq<byte>, packets: seq<seq<byte>>)
    requires WellFormed(fs) && Incomplete(rest)
    requires (forall f | f in fs :: |f.payload| <= 5089) && FirstMark(rest) <= 5089
    requires forall p | p in packets :: |p| <= 3072
    requires Concat(packets) == Serialise(fs) + rest
    ensures Run(START, packets) == Feed(fs, rest, 0)
  {
    ParseUnique(fs, rest);
    Lossless(packets, 5089, 3072);
    RunIsParse(packets);
  }

  function Bytewise(s: seq<byte>): seq<seq<byte>> {
    seq(|s|, i requires 0 <= i < |s| => [s[i]])
  }

  lemma {:induction false} BytewiseConcat(s: seq<byte>)
    ensures Concat(Bytewise(s)) == s
    decreases |s|
  {
    if s != [] {
      var n := |s| - 1;
      BytewiseConcat(s[..n]);
      assert Bytewise(s)[..n] == Bytewise(s[..n]);
      assert Bytewise(s)[n] == [s[n]];
    }
  }

  lemma {:induction false} MarksHaveNoGap(t: seq<byte>)
    requires forall i | 0 <= i < |t| :: t[i] == MARK
    ensures GapsWithin(t, 0)
    decreases |t|
  {
    if SECTION_SIZE <= |t| {
      MarksHaveNoGap(t[SECTION_SIZE..]);
      forall f | f in Frames(t) ensures |f.payload| == 0 {
        assert f == Frame(t[..0], t[..SECTION_SIZE]) || f in Frames(t[SECTION_SIZE..]);
      }
    }
  }

  /** A gap of `gap` bytes followed by `n` markers. */
  function GapThenMarks(gap: nat, n: nat): seq<byte> {
    seq(gap, _ => 0) + seq(n, _ => MARK)
  }

  lemma GapThenMarksParse(gap: nat, n: nat)
    ensures FirstMark(GapThenMarks(gap, n)) == gap
    ensures n < SECTION_SIZE ==> Rest(GapThenMarks(gap, n)) == GapThenMarks(gap, n)
    ensures n >= SECTION_SIZE ==> GapsWithin(GapThenMarks(gap, n), gap)
  {
    var s := GapThenMarks(gap, n);
    FirstMarkAt(s, gap);
    if n >= SECTION_SIZE {
      var tail := s[gap + SECTION_SIZE..];
      MarksHaveNoGap(tail);
      forall f | f in Frames(s) ensures |f.payload| <= gap {
        assert f == Frame(s[..gap], s[gap..gap + SECTION_SIZE]) || f in Frames(tail);
      }
    }
  }

  lemma PartialSectionPends(gap: nat, packets: seq<seq<byte>>)
    requires Concat(packets) == GapThenMarks(gap, SECTION_SIZE - 1) && NoReset(packets)
    ensures Run(START, packets).pending == GapThenMarks(gap, SECTION_SIZE - 1)
  {
    RunIsParse(packets);
    GapThenMarksParse(gap, SECTION_SIZE - 1);
  }

  lemma BytewiseThen(head: seq<byte>, last: seq<byte>)
    ensures Concat(Bytewise(head) + [last]) == head + last
  {
    BytewiseConcat(head);
    assert (Bytewise(head) + [last])[..|Bytewise(head)|] == Bytewise(head);
  }

  /** The stream that defeats a buffer too small for gap + 31 + size: one full gap, a section whose
      last byte is missing, then one packet of full size. */
  lemma {:induction false} TooSmallLoses(gap: nat, size: nat) returns (packets: seq<seq<byte>>)
    requires 1 <= size && gap + 31 + size > 8192
    ensures GapsWithin(Concat(packets), gap)
    ensures forall p | p in packets :: |p| <= size
    ensures !NoReset(packets)
  {
    hide NoReset, GapsWithin, Frames, Rest, FirstMark, Concat, Bytewise;
    var head := GapThenMarks(gap, SECTION_SIZE - 1);
    var last: seq<byte> := seq(size, _ => MARK);
    var init := Bytewise(head);
    packets := init + [last];
    BytewiseThen(head, last);
    MoreMarks(gap, SECTION_SIZE - 1, size);
    GapThenMarksParse(gap, SECTION_SIZE - 1 + size);
    MustReset(gap, size, head, init, last);
    BytewiseSmall(head, last);
  }

  lemma MoreMarks(gap: nat, m: nat, n: nat)
    ensures GapThenMarks(gap, m) + seq(n, _ => MARK) == GapThenMarks(gap, m + n)
  {
  }

  lemma BytewiseSmall(head: seq<byte>, last: seq<byte>)
    requires last != []
    ensures forall p | p in Bytewise(head) + [last] :: |p| <= |last|
  {
  }

  lemma {:induction false} MustReset(gap: nat, size: nat, head: seq<byte>, init: seq<seq<byte>>, last: seq<byte>)
    requires gap + SECTION_SIZE - 1 + size > WORK_BUF_SIZE && |last| == size
    requires head == GapThenMarks(gap, SECTION_SIZE - 1) && init == Bytewise(head)
    ensures !NoReset(init + [last])
  {
    var packets := init + [last];
    BytewiseConcat(head);
    assert packets[..|init|] == init && packets[|init|] == last;
    if NoReset(init) {
      PartialSectionPends(gap, init);
      assert Overflows(Run(START, packets[..|init|]), packets[|init|]);
    } else if NoReset(packets) {
      NoResetPrefix(packets, |init|);
    }
  }

  /** Exactly when the 8192-byte buffer is enough. */
  lemma LosslessExactly(gap: nat, size: nat)
    requires 1 <= size
    ensures (forall packets: seq<seq<byte>> ::
               GapsWithin(Concat(packets), gap) && (forall p | p in packets :: |p| <= size) ==> NoReset(packets))
            <==> gap + 31 + size <= 8192
  {
    if gap + 31 + size <= 8192 {
      forall packets: seq<seq<byte>> | GapsWithin(Concat(packets), gap) && forall p | p in packets :: |p| <= size
        ensures NoReset(packets)
      {
        Lossless(packets, gap, size);
      }
    } else {
      var packets := TooSmallLoses(gap, size);
    }
  }

  /** How far a scan of `all` has come: `ahead` is still to be looked at. */
  ghost predicate Handled(before: seq<Frame>, all: seq<byte>, calls: seq<Frame>, ahead: seq<byte>) {
    before + Frames(all) == calls + Frames(ahead) && Rest(all) == Rest(ahead)
  }

  lemma ScanStarts(calls: seq<Frame>, all: seq<byte>)
    ensures Handled(calls, all, calls, all)
  {
  }

  lemma {:induction false} ScanStep(before: seq<Frame>, all: seq<byte>, calls: seq<Frame>, ahead: seq<byte>)
    requires Handled(before, all, calls, ahead) && FirstMark(ahead) + SECTION_SIZE <= |ahead|
    ensures var g := FirstMark(ahead);
            Handled(before, all, calls + [Frame(ahead[..g], ahead[g..g + SECTION_SIZE])], ahead[g + SECTION_SIZE..])
  {
    var g := FirstMark(ahead);
    FirstFrame(ahead);
    Reassociate(calls, [Frame(ahead[..g], ahead[g..g + SECTION_SIZE])], Frames(ahead[g + SECTION_SIZE..]));
  }

  lemma ScanEnds(before: seq<Frame>, all: seq<byte>, calls: seq<Frame>, ahead: seq<byte>)
    requires Handled(before, all, calls, ahead) && FirstMark(ahead) + SECTION_SIZE > |ahead|
    ensures calls == before + Frames(all) && ahead == Rest(all)
  {
    assert calls + [] == calls;
  }

  /** A piece of the buffer, cut again, in terms of positions in the buffer. */
  lemma Slices(a: array<byte>, lo: nat, mid: nat, hi: nat, end: nat)
    requires lo <= mid <= hi <= end <= a.Length
    ensures a[lo..end][..mid - lo] == a[lo..mid]
    ensures a[lo..end][mid - lo..hi - lo] == a[mid..hi]
    ensures a[lo..end][hi - lo..] == a[hi..end]
  {
    var piece := a[lo..end];
    forall k | 0 <= k < hi - mid ensures piece[mid - lo..hi - lo][k] == a[mid..hi][k] {
      assert piece[mid - lo + k] == a[mid + k];
    }
  }

  // ---------- The driver ----------

  /** The part of tvwsdr_dev_t the isochronous path uses. */
  class Device {
    const workBuf: array<byte>
    var workBuflen: nat
    const hasCallback: bool
    ghost var calls: seq<Frame>
    ghost var discarded: nat

    ghost predicate Valid()
      reads this
    {
      workBuf.Length == WORK_BUF_SIZE && workBuflen <= WORK_BUF_SIZE
    }

    ghost function Observed(): Feed
      requires Valid()
      reads this, workBuf
    {
      Feed(calls, workBuf[..workBuflen], discarded)
    }

    constructor (hasCallback: bool)
      ensures Valid() && Observed() == START && fresh(workBuf) && this.hasCallback == hasCallback
    {
      workBuf := new byte[WORK_BUF_SIZE];
      workBuflen := 0;
      this.hasCallback := hasCallback;
      calls, discarded := [], 0;
    }

    /** memcpy of the new data behind the pending bytes. */
    method Append(data: seq<byte>)
      requires Valid() && workBuflen + |data| <= WORK_BUF_SIZE
      modifies this`workBuflen, workBuf
      ensures Valid() && workBuf[..workBuflen] == old(workBuf[..workBuflen]) + data
    {
      forall i | 0 <= i < |data| { workBuf[workBuflen + i] := data[i]; }
      workBuflen := workBuflen + |data|;
    }

    /** memmove of what is behind `offset` to the front. */
    method DropFront(offset: nat)
      requires Valid() && offset <= workBuflen
      modifies this`workBuflen, workBuf
      ensures Valid() && workBuf[..workBuflen] == old(workBuf[offset..workBuflen])
    {
      workBuflen := workBuflen - offset;
      forall i | 0 <= i < workBuflen { workBuf[i] := workBuf[offset + i]; }
    }

    /** The callback gets the address of the section and the length of what precedes it. */
    ghost method Callback(ptr: nat, frameLength: nat)
      requires Valid() && frameLength <= ptr && ptr + SECTION_SIZE <= workBuflen
      modifies this`calls
      ensures calls == old(calls) + [Frame(workBuf[ptr - frameLength..ptr], workBuf[ptr..ptr + SECTION_SIZE])]
    {
      calls := calls + [Frame(workBuf[ptr - frameLength..ptr], workBuf[ptr..ptr + SECTION_SIZE])];
    }

    /** One turn of the scan: the section found at `frameLength` bytes from `tmpoffset` is handed out. */
    method HandOut(tmpoffset: nat, frameLength: nat, ghost before: seq<Frame>, ghost all: seq<byte>) returns (next: nat)
      requires Valid() && tmpoffset + frameLength + SECTION_SIZE <= workBuflen
      requires frameLength == FirstMark(workBuf[tmpoffset..workBuflen])
      requires Handled(before, all, calls, workBuf[tmpoffset..workBuflen])
      modifies this`calls
      ensures tmpoffset < next <= workBuflen
      ensures Handled(before, all, calls, workBuf[next..workBuflen])
    {
      hide Handled, FirstMark;
      var ptr := tmpoffset + frameLength;
      Slices(workBuf, tmpoffset, ptr, ptr + SECTION_SIZE, workBuflen);
      ScanStep(before, all, calls, workBuf[tmpoffset..workBuflen]);
      Callback(ptr, frameLength);
      next := ptr + SECTION_SIZE;
    }

    /** The scan of tvwsdr_deframe_isoch_data over the pending bytes. */
    method Scan() returns (tmpoffset: nat)
      requires Valid()
      modifies this`calls
      ensures tmpoffset <= workBuflen
      ensures calls == old(calls) + Frames(workBuf[..workBuflen])
      ensures workBuf[tmpoffset..workBuflen] == Rest(workBuf[..workBuflen])
    {
      ghost var all := workBuf[..workBuflen];
      tmpoffset := 0;
      assert workBuf[tmpoffset..workBuflen] == all;
      ScanStarts(calls, all);
      while true
        invariant tmpoffset <= workBuflen
        invariant Handled(old(calls), all, calls, workBuf[tmpoffset..workBuflen])
        decreases workBuflen - tmpoffset
      {
        var frameLength := FirstMark(workBuf[tmpoffset..workBuflen]);
        if tmpoffset + frameLength == workBuflen {
          break;
        }
        if frameLength + SECTION_SIZE > workBuflen - tmpoffset {
          break;
        }
        tmpoffset := HandOut(tmpoffset, frameLength, old(calls), all);
      }
      ScanEnds(old(calls), all, calls, workBuf[tmpoffset..workBuflen]);
    }

    /** The overflow check, and the new data behind what is kept. */
    method Accept(data: seq<byte>)
      requires Valid() && |data| <= WORK_BUF_SIZE
      modifies this`workBuflen, this`discarded, workBuf
      ensures Valid()
      ensures var kept := if Overflows(old(Observed()), data) then [] else old(Observed().pending);
              workBuf[..workBuflen] == kept + data && discarded == old(discarded + workBuflen) - |kept|
    {
      if workBuflen + |data| > WORK_BUF_SIZE {
        discarded := discarded + workBuflen;
        workBuflen := 0;
      }
      Append(data);
    }

    /** tvwsdr_deframe_isoch_data. A packet longer than the buffer would overrun it even after the
        reset; libusb delivers at most 3072 bytes. */
    method DeframeIsochData(data: seq<byte>)
      requires Valid() && |data| <= WORK_BUF_SIZE
      modifies this`workBuflen, this`calls, this`discarded, workBuf
      ensures Valid() && Observed() == Received(old(Observed()), data)
    {
      ghost var l := Observed();
      Accept(data);
      ghost var all := workBuf[..workBuflen];
      var tmpoffset := Scan();
      DropFront(tmpoffset);
      assert Observed() == Feed(l.calls + Frames(all), Rest(all), discarded);
    }

    /** One packet of a transfer; an empty one is skipped. */
    method TakePacket(packet: seq<byte>)
      requires Valid() && Incomplete(Observed().pending) && |packet| <= PACKET_SIZE
      modifies this`workBuflen, this`calls, this`discarded, workBuf
      ensures Valid() && Incomplete(Observed().pending) && Observed() == Received(old(Observed()), packet)
    {
      ReceivedIncomplete(Observed(), packet);
      if |packet| > 0 {
        DeframeIsochData(packet);
      } else {
        EmptyPacket(Observed(), packet);
      }
    }

    /** tvwsdr_xfer_cb: the packet loop. */
    method XferCb(completed: bool, packets: seq<seq<byte>>)
      requires Valid() && Incomplete(Observed().pending)
      requires forall p | p in packets :: |p| <= 3072
      modifies this`workBuflen, this`calls, this`discarded, workBuf
      ensures Valid() && Incomplete(Observed().pending)
      ensures Observed() == if completed && hasCallback then Run(old(Observed()), packets) else old(Observed())
    {
      if !completed {
        return;
      }
      if hasCallback {
        ghost var l0 := Observed();
        var i := 0;
        while i < |packets|
          invariant 0 <= i <= |packets| && Valid() && Incomplete(Observed().pending)
          invariant Observed() == Run(l0, packets[..i])
        {
          RunExtends(l0, packets, i);
          assert packets[i] in packets;
          TakePacket(packets[i]);
          i := i + 1;
        }
        assert packets[..i] == packets;
      }
    }
  }

  /** Skipping an empty packet is the same as deframing it. */
  lemma EmptyPacket(l: Feed, packet: seq<byte>)
    requires Incomplete(l.pending) && |l.pending| <= WORK_BUF_SIZE && packet == []
    ensures Received(l, packet) == l
  {
    assert l.pending + packet == l.pending;
    var g := FirstMark(l.pending);
    if g < |l.pending| { assert l.pending[g] == MARK; }
  }
}
