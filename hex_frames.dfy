/**
 * The 336-character ASCII-hex frames of the WebSocket and UDP test clients
 * and the four hex strings of the C `build_single_peak_hex`: an index block
 * (eight 3-digit tone fields), a gain block (eight 18-digit tone fields),
 * then the same two blocks for channel B.  A server hands the four slices
 * 0..24, 24..168, 168..192 and 192..336 to `awg_send_hex4`; each builder is
 * checked against the 33 words a core then streams.
 */
module HexFrames {
  import opened Words
  import opened Wrappers
  import opened ControlWord
  import opened HexCodec
  import opened PyAwg
  import opened AwgCores
  import QueueClients
  import Seqs

  const Char0: Byte := 0x30  // '0'
  const CharA: Byte := 0x41  // 'A'
  const Minus: Byte := 0x2D  // '-'
  const Nul: Byte := 0

  /** The upper-case digit `%X` writes for a nibble. */
  function Digit(v: nat): (c: Byte)
    requires v < 16
    ensures IsHexDigit(c) && NibbleValue(c) == v
  {
    if v < 10 then Char0 + v else CharA + (v - 10)
  }

  /** `format(n, 'X')`: the upper-case digits of n without leading zeros. */
  function HexDigits(n: nat): (r: seq<Byte>)
    ensures 1 <= |r| && AllHex(r)
    decreases n
  {
    if n < 16 then [Digit(n)] else HexDigits(n / 16) + [Digit(n % 16)]
  }

  /** The digits read back as the number. */
  lemma {:induction false} HexDigitsValue(n: nat)
    ensures HexValue(HexDigits(n)) == n
  {
    var r := HexDigits(n);
    if n >= 16 {
      assert r[..|r| - 1] == HexDigits(n / 16);
      HexDigitsValue(n / 16);
    } else {
      assert r[..0] == [];
    }
  }

  /** n takes at most k digits exactly when n < 16^k. */
  lemma {:induction false} HexDigitsLength(n: nat, k: nat)
    requires k >= 1
    ensures |HexDigits(n)| <= k <==> n < Pow16(k)
  {
    if n < 16 {
      Pow16Mono(1, k);
    } else if k == 1 {
      assert |HexDigits(n)| == |HexDigits(n / 16)| + 1;
    } else {
      HexDigitsLength(n / 16, k - 1);
      assert n == 16 * (n / 16) + n % 16;
      assert n / 16 < Pow16(k - 1) <==> n < 16 * Pow16(k - 1);
    }
  }

  /** n copies of the digit 0. */
  function Zeros(n: nat): (r: seq<Byte>)
    ensures |r| == n
  {
    seq(n, _ => Char0)
  }

  lemma {:induction false} HexValueZeros(k: nat)
    ensures AllHex(Zeros(k)) && HexValue(Zeros(k)) == 0
  {
    if k > 0 {
      assert Zeros(k)[..k - 1] == Zeros(k - 1);
      HexValueZeros(k - 1);
    }
  }

  /** Leading zeros do not change the value of a digit string. */
  lemma {:induction false} HexValueLeadingZeros(k: nat, s: seq<Byte>)
    requires AllHex(s)
    ensures AllHex(Zeros(k) + s) && HexValue(Zeros(k) + s) == HexValue(s)
  {
    HexValueZeros(k);
    if s == [] {
      assert Zeros(k) + s == Zeros(k);
    } else {
      var z := Zeros(k) + s;
      assert z[..|z| - 1] == Zeros(k) + s[..|s| - 1];
      HexValueLeadingZeros(k, s[..|s| - 1]);
    }
  }

  /** The `0` flag: zeros in front up to width w. */
  function Pad(s: seq<Byte>, w: nat): (r: seq<Byte>)
    ensures |r| == if |s| < w then w else |s|
  {
    if |s| < w then Zeros(w - |s|) + s else s
  }

  /** `%03X` of a non-negative number. */
  function Hex03(n: nat): (r: seq<Byte>)
    ensures |r| >= 3 && AllHex(r)
  {
    HexValueLeadingZeros(if |HexDigits(n)| < 3 then 3 - |HexDigits(n)| else 0, HexDigits(n));
    Pad(HexDigits(n), 3)
  }

  /** A number below 0x1000 takes exactly three digits, which read back as
    * the number. */
  lemma Hex03Value(n: nat)
    requires n < 0x1000
    ensures |Hex03(n)| == 3 && HexValue(Hex03(n)) == n
  {
    HexDigitsLength(n, 3);
    HexDigitsValue(n);
    var d := HexDigits(n);
    HexValueLeadingZeros(if |d| < 3 then 3 - |d| else 0, d);
    if |d| >= 3 {
      assert Zeros(0) + d == d;
    }
  }

  /** Python's f"{v:03X}": the sign counts toward the width of three. */
  function Format03(v: int): (r: seq<Byte>)
    ensures |r| >= 3
  {
    if v >= 0 then Hex03(v) else [Minus] + Pad(HexDigits(-v), 2)
  }

  /** The field is exactly three characters wide for -0xFF..0xFFF only. */
  lemma Format03Width(v: int)
    ensures |Format03(v)| == 3 <==> -0x100 < v < 0x1000
  {
    assert Pow16(2) == 0x100 && Pow16(3) == 0x1000;
    if v >= 0 {
      HexDigitsLength(v, 3);
    } else {
      HexDigitsLength(-v, 2);
    }
  }

  /** A negative index is written with a '-', which is not a hex digit. */
  lemma Format03Negative(v: int)
    requires v < 0
    ensures !IsHexDigit(Format03(v)[0])
  {
  }

  /** Python `x * n` on a string: n copies of x. */
  function Rep(x: seq<Byte>, n: nat): (r: seq<Byte>)
    ensures |r| == n * |x|
  {
    if n == 0 then [] else Rep(x, n - 1) + x
  }

  lemma {:induction false} RepZeros(k: nat, n: nat)
    ensures Rep(Zeros(k), n) == Zeros(n * k)
  {
    if n > 0 {
      RepZeros(k, n - 1);
      assert (n - 1) * k + k == n * k;
    }
  }

  /** "00000000000001FFFF": full Q1.17 gain in the low five digits. */
  function GainMax18(): (r: seq<Byte>)
    ensures |r| == 18
  {
    Zeros(13) + GainLow5()
  }

  function GainLow5(): (r: seq<Byte>)
    ensures |r| == 5 && AllHex(r)
  {
    [Digit(1), Digit(15), Digit(15), Digit(15), Digit(15)]
  }

  lemma GainLow5Value()
    ensures HexValue(GainLow5()) == QueueClients.GainFull
  {
    var one, f := Digit(1), Digit(15);
    assert [one][..0] == [];
    assert HexValue([one]) == 1;
    assert [one, f][..1] == [one];
    assert HexValue([one, f]) == 0x1F;
    assert [one, f, f][..2] == [one, f];
    assert HexValue([one, f, f]) == 0x1FF;
    assert [one, f, f, f][..3] == [one, f, f];
    assert HexValue([one, f, f, f]) == 0x1FFF;
    assert GainLow5()[..4] == [one, f, f, f];
  }

  /** An index block holding v on tone 0 and "000" on tones 1..7 is well
    * formed and carries v, then seven zeros. */
  lemma IdxPeak(s: seq<Byte>, v: nat)
    requires v < 0x1000 && |s| >= 24 && s[..24] == Hex03(v) + Zeros(21)
    ensures IdxBlock(s) && IdxValues(s) == Peak(v)
  {
    Hex03Value(v);
    HexValueZeros(3);
    forall t | 0 <= t < 8
      ensures IdxDigits(s[3 * t..]) && Idx3(s[3 * t..]) == Peak(v)[t]
    {
      if t == 0 {
        assert s[..3] == s[..24][..3] == Hex03(v);
      } else {
        assert s[3 * t..][..3] == s[..24][3 * t..3 * t + 3] == Zeros(3);
      }
    }
  }

  /** A gain block holding the digits low5 at offset 13 of tone 0 and zeros
    * everywhere else is well formed and carries their value, then seven zeros. */
  lemma GainPeak(s: seq<Byte>, low5: seq<Byte>)
    requires |low5| == 5 && AllHex(low5)
    requires |s| >= 144 && s[..144] == Zeros(13) + low5 + Zeros(126)
    ensures GainBlock(s) && GainValues(s) == Peak(HexValue(low5))
  {
    HexValueZeros(5);
    forall t | 0 <= t < 8
      ensures GainDigits(s[18 * t..]) && Gain18Low5(s[18 * t..]) == Peak(HexValue(low5))[t]
    {
      if t == 0 {
        assert s[13..18] == s[..144][13..18] == low5;
      } else {
        assert s[18 * t..][13..18] == s[..144][18 * t + 13..18 * t + 18] == Zeros(5);
      }
    }
  }

  /** Tone 0 carries v, tones 1..7 carry zero. */
  function Peak(v: int): (r: seq<int>)
    ensures |r| == 8 && r[0] == v && forall t :: 1 <= t < 8 ==> r[t] == 0
  {
    [v] + seq(7, _ => 0)
  }

  /** `idx_hex(active)` of the UDP client (the WebSocket client's `idx24`):
    * the index as f"{active:03X}", then "000" for tones 1..7. */
  function IdxHex(active: int): (r: seq<Byte>)
  {
    Format03(active) + Rep(Zeros(3), 7)
  }

  /** `gain_hex()` (the WebSocket client's `gain144`): full gain on tone 0,
    * zero on tones 1..7. */
  function GainHex(): (r: seq<Byte>)
    ensures |r| == 144
  {
    GainMax18() + Rep(Zeros(18), 7)
  }

  /** `build_frame(idx_val)` of the WebSocket client: the same index on both
    * channels; None when `assert len(frame) == 336` fails. */
  function WsFrame(idx: int): (r: Option<seq<Byte>>)
  {
    var idx24 := Format03(idx) + Rep(Zeros(3), 7);
    var gain144 := GainMax18() + Rep(Zeros(18), 7);
    var frame := idx24 + gain144 + idx24 + gain144;
    if |frame| == 336 then Some(frame) else None
  }

  /** `build_frame(idxA, idxB)` of the UDP client. */
  function UdpFrame(idxA: int, idxB: int): (r: Option<seq<Byte>>)
  {
    var frame := IdxHex(idxA) + GainHex() + IdxHex(idxB) + GainHex();
    if |frame| == 336 then Some(frame) else None
  }

  /** The length assertion passes exactly for indices -0xFF..0xFFF, and the
    * two clients build the same frame for the same index. */
  lemma FramesDefined(idx: int, idxB: int)
    ensures WsFrame(idx).Some? <==> -0x100 < idx < 0x1000
    ensures UdpFrame(idx, idxB).Some? <==> -0x100 < idx < 0x1000 && -0x100 < idxB < 0x1000
    ensures WsFrame(idx) == UdpFrame(idx, idx)
  {
    Format03Width(idx);
    Format03Width(idxB);
  }

  /** The words a core streams for the four blocks of a frame holding idxA
    * and idxB: each index and full gain on tone 0 of its channel, zero on
    * every other tone, then the commit. */
  function PeakWords(idxA: int, gainA: int, idxB: int, gainB: int): (r: seq<Word>)
    ensures |r| == 33
  {
    TableWords(Peak(idxA), Peak(gainA), Peak(idxB), Peak(gainB)) + [CommitWord]
  }

  /** For indices 0..0xFFF the UDP frame's slices are well-formed blocks, and
    * `awg_send_hex4` streams for them the words of the intended table. */
  lemma UdpFrameWords(idxA: int, idxB: int)
    requires 0 <= idxA < 0x1000 && 0 <= idxB < 0x1000
    ensures UdpFrame(idxA, idxB).Some?
    ensures var f := UdpFrame(idxA, idxB).value;
      IdxBlock(f[..24]) && GainBlock(f[24..168]) && IdxBlock(f[168..192]) && GainBlock(f[192..]) &&
      Hex4Words(f[..24], f[24..168], f[168..192], f[192..]) ==
        PeakWords(idxA, QueueClients.GainFull, idxB, QueueClients.GainFull)
  {
    FramesDefined(idxA, idxB);
    var a, g, b := IdxHex(idxA), GainHex(), IdxHex(idxB);
    IdxHexBlock(idxA);
    IdxHexBlock(idxB);
    GainHexBlock();
    FrameSlices(UdpFrame(idxA, idxB).value, a, g, b, g);
    TableMatchesHex4(a, g, b, g);
  }

  /** The four slices of a 336-byte frame are its four blocks. */
  lemma FrameSlices(f: seq<Byte>, a: seq<Byte>, g: seq<Byte>, b: seq<Byte>, h: seq<Byte>)
    requires f == a + g + b + h && |a| == 24 && |g| == 144 && |b| == 24
    ensures f[..24] == a && f[24..168] == g && f[168..192] == b && f[192..] == h
  {
  }

  /** The index string of an index in 0..0xFFF is a block holding that index
    * on tone 0 and zero elsewhere. */
  lemma IdxHexBlock(v: int)
    requires 0 <= v < 0x1000
    ensures IdxBlock(IdxHex(v)) && IdxValues(IdxHex(v)) == Peak(v)
  {
    RepZeros(3, 7);
    Hex03Value(v);
    IdxPeak(IdxHex(v), v);
  }

  /** The gain string is a block holding full gain on tone 0 and zero
    * elsewhere. */
  lemma GainHexBlock()
    ensures GainBlock(GainHex()) && GainValues(GainHex()) == Peak(QueueClients.GainFull)
  {
    var s := GainHex();
    RepZeros(18, 7);
    assert s[..144] == Zeros(13) + GainLow5() + Zeros(126);
    GainLow5Value();
    GainPeak(s, GainLow5());
  }

  /** The WebSocket frame for an index in 0..0xFFF puts that index on tone
    * 0 of both channels. */
  lemma WsFrameWords(idx: int)
    requires 0 <= idx < 0x1000
    ensures WsFrame(idx).Some?
    ensures var f := WsFrame(idx).value;
      IdxBlock(f[..24]) && GainBlock(f[24..168]) && IdxBlock(f[168..192]) && GainBlock(f[192..]) &&
      Hex4Words(f[..24], f[24..168], f[168..192], f[192..]) ==
        PeakWords(idx, QueueClients.GainFull, idx, QueueClients.GainFull)
  {
    FramesDefined(idx, idx);
    UdpFrameWords(idx, idx);
  }

  /** `memcpy(a + p, piece, |piece|)`. */
  method CopyAt(a: array<Byte>, p: nat, piece: seq<Byte>)
    requires p + |piece| <= a.Length
    modifies a
    ensures a[..p + |piece|] == old(a[..p]) + piece
  {
    var k := 0;
    while k < |piece|
      invariant 0 <= k <= |piece|
      invariant a[..p + k] == old(a[..p]) + piece[..k]
    {
      a[p + k] := piece[k];
      assert piece[..k + 1] == piece[..k] + [piece[k]];
      k := k + 1;
    }
    assert piece[..k] == piece;
  }

  /** From offset p: `count` copies of `piece`, one `memcpy` each, then the
    * terminating NUL, which is the last byte of the buffer. */
  method FillFrom(a: array<Byte>, p: nat, piece: seq<Byte>, count: nat)
    requires a.Length == p + count * |piece| + 1
    modifies a
    ensures a[..] == old(a[..p]) + Rep(piece, count) + [Nul]
  {
    ghost var pre := a[..p];
    var q := p;
    var i := 0;
    while i < count
      invariant 0 <= i <= count && q == p + i * |piece|
      invariant a[..q] == pre + Rep(piece, i)
    {
      MulMono(|piece|, i + 1, count);
      CopyAt(a, q, piece);
      Seqs.AppendAssoc(pre, Rep(piece, i), piece);
      q := q + |piece|;
      i := i + 1;
    }
    a[q] := Nul;
    assert a[..] == a[..q] + [a[q]];
  }

  /** `build_single_peak_hex(idxA, ...)` into buffers of 25, 145, 25 and 145
    * bytes: channel A gets `idxA & 0xFFF` and full gain on tone 0, every
    * other field is zero, and each string is NUL-terminated. */
  method BuildSinglePeakHex(idxA: Word, idxAHex: array<Byte>, gainAHex: array<Byte>,
                            idxBHex: array<Byte>, gainBHex: array<Byte>)
    requires idxAHex.Length == 25 && gainAHex.Length == 145
    requires idxBHex.Length == 25 && gainBHex.Length == 145
    requires idxAHex != idxBHex && gainAHex != gainBHex
    modifies idxAHex, gainAHex, idxBHex, gainBHex
    ensures idxAHex[..] == Hex03(idxA % 0x1000) + Rep(Zeros(3), 7) + [Nul]
    ensures gainAHex[..] == GainMax18() + Rep(Zeros(18), 7) + [Nul]
    ensures idxBHex[..] == Rep(Zeros(3), 8) + [Nul]
    ensures gainBHex[..] == Rep(Zeros(18), 8) + [Nul]
  {
    FillIdxA(idxA, idxAHex);
    CopyAt(gainAHex, 0, GainMax18());
    FillFrom(gainAHex, 18, Zeros(18), 7);
    FillFrom(idxBHex, 0, Zeros(3), 8);
    FillFrom(gainBHex, 0, Zeros(18), 8);
  }

  /** The channel A index string: `snprintf(p, 4, "%03X", idxA & 0xFFF)`
    * writes three digits and a NUL, then seven zero fields follow. */
  method FillIdxA(idxA: Word, a: array<Byte>)
    requires a.Length == 25
    modifies a
    ensures a[..] == Hex03(idxA % 0x1000) + Rep(Zeros(3), 7) + [Nul]
  {
    var digits := Hex03(idxA % 0x1000);
    Hex03Value(idxA % 0x1000);
    CopyAt(a, 0, digits + [Nul]);
    assert a[..4] == digits + [Nul];
    assert a[..3] == digits;
    FillFrom(a, 3, Zeros(3), 7);
  }

  /** Channel A of `build_single_peak_hex`: v on tone 0 of the index
    * block, full gain on tone 0 of the gain block. */
  lemma PeakBlocks(v: nat, a: seq<Byte>, g: seq<Byte>)
    requires v < 0x1000
    requires a == Hex03(v) + Rep(Zeros(3), 7) + [Nul]
    requires g == GainMax18() + Rep(Zeros(18), 7) + [Nul]
    ensures IdxBlock(a) && IdxValues(a) == Peak(v)
    ensures GainBlock(g) && GainValues(g) == Peak(QueueClients.GainFull)
  {
    RepZeros(3, 7);
    RepZeros(18, 7);
    Hex03Value(v);
    assert a[..24] == Hex03(v) + Zeros(21);
    assert g[..144] == Zeros(13) + GainLow5() + Zeros(126);
    IdxPeak(a, v);
    GainLow5Value();
    GainPeak(g, GainLow5());
  }

  /** Channel B of `build_single_peak_hex`: all zero. */
  lemma ZeroBlocks(b: seq<Byte>, h: seq<Byte>)
    requires b == Rep(Zeros(3), 8) + [Nul]
    requires h == Rep(Zeros(18), 8) + [Nul]
    ensures IdxBlock(b) && IdxValues(b) == Peak(0)
    ensures GainBlock(h) && GainValues(h) == Peak(0)
  {
    RepZeros(3, 8);
    RepZeros(18, 8);
    HexValueZeros(5);
    assert Hex03(0) == Zeros(3) by {
      assert HexDigits(0) == [Char0];
    }
    assert b[..24] == Hex03(0) + Zeros(21);
    assert h[..144] == Zeros(13) + Zeros(5) + Zeros(126);
    IdxPeak(b, 0);
    GainPeak(h, Zeros(5));
  }

  /** The four strings `build_single_peak_hex` leaves are well-formed blocks,
    * and `awg_send_hex4` streams for them idxA and full gain on tone 0 of
    * channel A and zero everywhere else, then the commit. */
  lemma SinglePeakWords(idxA: Word, a: seq<Byte>, g: seq<Byte>, b: seq<Byte>, h: seq<Byte>)
    requires a == Hex03(idxA % 0x1000) + Rep(Zeros(3), 7) + [Nul]
    requires g == GainMax18() + Rep(Zeros(18), 7) + [Nul]
    requires b == Rep(Zeros(3), 8) + [Nul]
    requires h == Rep(Zeros(18), 8) + [Nul]
    ensures IdxBlock(a) && GainBlock(g) && IdxBlock(b) && GainBlock(h)
    ensures Hex4Words(a, g, b, h) == PeakWords(idxA % 0x1000, QueueClients.GainFull, 0, 0)
  {
    PeakBlocks(idxA % 0x1000, a, g);
    ZeroBlocks(b, h);
    TableMatchesHex4(a, g, b, h);
  }

  /** One half-pass of the loop of test_awg.c: build the four strings for
    * idx and hand them to `awg_send_hex4`. */
  method SinglePeakSend(core: MmapCore, idx: Word, a: array<Byte>, g: array<Byte>, b: array<Byte>, h: array<Byte>)
    returns (rc: int)
    requires core.mapped && idx < 0x1000
    requires a.Length == 25 && g.Length == 145 && b.Length == 25 && h.Length == 145
    requires a != b && g != h
    modifies core, a, g, b, h
    ensures rc == 0 && core.mapped
    ensures core.dataWrites == old(core.dataWrites) + PeakWords(idx, QueueClients.GainFull, 0, 0)
    ensures core.wenWrites == old(core.wenWrites) + WenStrobes(old(core.wenReg), DefWenActiveHigh, 33)
    ensures core.wenReg == AfterStrobes(old(core.wenReg), DefWenActiveHigh, 33)
  {
    BuildSinglePeakHex(idx, a, g, b, h);
    assert idx % 0x1000 == idx;
    SinglePeakWords(idx, a[..], g[..], b[..], h[..]);
    ghost var words := Hex4Words(a[..], g[..], b[..], h[..]);
    assert words == PeakWords(idx, QueueClients.GainFull, 0, 0);
    rc := core.SendHex4(Some(a[..]), Some(g[..]), Some(b[..]), Some(h[..]));
    assert core.dataWrites == old(core.dataWrites) + words;
  }

  /** The words of one pass of the loop of test_awg.c: the 1 kHz frame's
    * 33 words, then the 20 kHz frame's. */
  function PassWords(): (r: seq<Word>)
    ensures |r| == 66
  {
    PeakWords(QueueClients.Idx1k, QueueClients.GainFull, 0, 0) +
    PeakWords(QueueClients.Idx20k, QueueClients.GainFull, 0, 0)
  }

  /** The words of n passes. */
  function PeakRounds(n: nat): (r: seq<Word>)
    ensures |r| == 66 * n
  {
    if n == 0 then [] else PeakRounds(n - 1) + PassWords()
  }

  /** One pass of the loop of test_awg.c. */
  method SinglePeakPass(core: MmapCore, a: array<Byte>, g: array<Byte>, b: array<Byte>, h: array<Byte>)
    returns (rc: int, rc2: int)
    requires core.mapped
    requires a.Length == 25 && g.Length == 145 && b.Length == 25 && h.Length == 145
    requires a != b && g != h
    modifies core, a, g, b, h
    ensures rc == 0 && rc2 == 0 && core.mapped
    ensures core.dataWrites == old(core.dataWrites) + PassWords()
    ensures core.wenWrites == old(core.wenWrites) + WenStrobes(old(core.wenReg), DefWenActiveHigh, 66)
    ensures core.wenReg == AfterStrobes(old(core.wenReg), DefWenActiveHigh, 66)
  {
    ghost var v, d := core.wenReg, core.dataWrites;
    rc := SinglePeakSend(core, QueueClients.Idx1k, a, g, b, h);
    rc2 := SinglePeakSend(core, QueueClients.Idx20k, a, g, b, h);
    WenStrobesAdd(v, DefWenActiveHigh, 33, 33);
    Seqs.AppendAssoc(d, PeakWords(QueueClients.Idx1k, QueueClients.GainFull, 0, 0),
      PeakWords(QueueClients.Idx20k, QueueClients.GainFull, 0, 0));
    Seqs.AppendAssoc(old(core.wenWrites), WenStrobes(v, DefWenActiveHigh, 33),
      WenStrobes(AfterStrobes(v, DefWenActiveHigh, 33), DefWenActiveHigh, 33));
  }

  /**
   * `main` of test_awg.c (and of test_awg_all_channel.c), stopped after
   * `rounds` passes of its endless loop: exit status 1 when the core could
   * not be mapped; otherwise every pass streams the 1 kHz and then the
   * 20 kHz single-peak words, every word strobed once, and the loop is
   * still running (None).
   */
  method SinglePeakMain(core: MmapCore, rounds: nat) returns (exit: Option<int>, rcs: seq<int>)
    modifies core
    ensures !old(core.mapped) ==>
      (exit == Some(1) && rcs == [] &&
       core.dataWrites == old(core.dataWrites) && core.wenWrites == old(core.wenWrites))
    ensures old(core.mapped) ==>
      (exit.None? && |rcs| == 2 * rounds && (forall k :: 0 <= k < |rcs| ==> rcs[k] == 0) &&
       core.dataWrites == old(core.dataWrites) + PeakRounds(rounds) &&
       core.wenWrites == old(core.wenWrites) + WenStrobes(old(core.wenReg), DefWenActiveHigh, 66 * rounds))
  {
    rcs := [];
    if !core.mapped {
      return Some(1), rcs;
    }
    var a := new Byte[25];
    var g := new Byte[145];
    var b := new Byte[25];
    var h := new Byte[145];
    ghost var d0, w0, v0 := core.dataWrites, core.wenWrites, core.wenReg;
    var i := 0;
    while i < rounds
      invariant 0 <= i <= rounds
      invariant core.mapped
      invariant |rcs| == 2 * i && forall k :: 0 <= k < |rcs| ==> rcs[k] == 0
      invariant core.dataWrites == d0 + PeakRounds(i)
      invariant core.wenWrites == w0 + WenStrobes(v0, DefWenActiveHigh, 66 * i)
      invariant core.wenReg == AfterStrobes(v0, DefWenActiveHigh, 66 * i)
    {
      ghost var data, wen := core.dataWrites, core.wenWrites;
      var rc, rc2 := SinglePeakPass(core, a, g, b, h);
      PassWrites(d0, w0, v0, i, data, wen, core.dataWrites, core.wenWrites);
      rcs := rcs + [rc, rc2];
      i := i + 1;
    }
    exit := None;
  }

  lemma PassWrites(d0: seq<Word>, w0: seq<Word>, v0: Word, i: nat,
                   data: seq<Word>, wen: seq<Word>, data2: seq<Word>, wen2: seq<Word>)
    requires data == d0 + PeakRounds(i) && wen == w0 + WenStrobes(v0, DefWenActiveHigh, 66 * i)
    requires data2 == data + PassWords()
    requires wen2 == wen + WenStrobes(AfterStrobes(v0, DefWenActiveHigh, 66 * i), DefWenActiveHigh, 66)
    ensures data2 == d0 + PeakRounds(i + 1)
    ensures wen2 == w0 + WenStrobes(v0, DefWenActiveHigh, 66 * (i + 1))
    ensures AfterStrobes(AfterStrobes(v0, DefWenActiveHigh, 66 * i), DefWenActiveHigh, 66) ==
      AfterStrobes(v0, DefWenActiveHigh, 66 * (i + 1))
  {
    WenStrobesAdd(v0, DefWenActiveHigh, 66 * i, 66);
    Seqs.AppendAssoc(d0, PeakRounds(i), PassWords());
    Seqs.AppendAssoc(w0, WenStrobes(v0, DefWenActiveHigh, 66 * i),
      WenStrobes(AfterStrobes(v0, DefWenActiveHigh, 66 * i), DefWenActiveHigh, 66));
  }
}
