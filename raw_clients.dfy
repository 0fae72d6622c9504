/**
 * The W-mode clients.  `send_frame` of test_awg_raw.py and
 * test_awg_raw_debug.py writes a big-endian u16 word count, then each word
 * masked to 32 bits as a big-endian u32; both `main`s toggle between the
 * 1 kHz and the 20 kHz frame on every step.  The single-channel C test hands
 * the same 3-word frames to a core's `awg_send_words32`.  `ReadWFrame` is
 * the reading side: the frame a receiver takes off the front of a stream.
 */
module RawClients {
  import opened Words
  import opened Wrappers
  import opened ControlWord
  import opened QueueProtocol
  import opened QueueClients
  import opened AwgCores
  import Seqs

  /** The bytes of `send_frame` for a list of Python ints: the count as
    * `>H`, then every `w & 0xFFFFFFFF` as `>I`; `struct.error` (None) when
    * the count does not fit 16 bits. */
  function WFrame(words: seq<int>): (r: Option<seq<Byte>>)
    ensures r.Some? <==> |words| < 0x1_0000
    ensures r.Some? ==> |r.value| == 2 + 4 * |words|
  {
    Pow256Widths();
    var hdr := PackBE(|words|, 2);
    if hdr.None? then None else Some(hdr.value + EncodeWords(Mask32(words)))
  }

  /** One W-frame read off the front of a byte stream: its words and the
    * bytes after it, or None when the stream ends before the end of the
    * frame its count announces. */
  function ReadWFrame(bs: seq<Byte>): (r: Option<(seq<Word>, seq<Byte>)>)
    ensures r.Some? <==> |bs| >= 2 && |bs| >= 2 + 4 * U16Of(bs[..2])
    ensures r.Some? ==> |r.value.0| == U16Of(bs[..2]) && r.value.1 == bs[2 + 4 * U16Of(bs[..2])..]
  {
    if |bs| < 2 then None
    else
      var n := U16Of(bs[..2]);
      if |bs| < 2 + 4 * n then None
      else Some((DecodeWords(bs[2..2 + 4 * n]), bs[2 + 4 * n..]))
  }

  /** A frame reads back as its words, masked to 32 bits, and leaves the
    * bytes after it untouched. */
  lemma WFrameRoundTrip(words: seq<int>, rest: seq<Byte>)
    requires |words| < 0x1_0000
    ensures ReadWFrame(WFrame(words).value + rest) == Some((Mask32(words), rest))
  {
    Pow256Widths();
    var n := |words|;
    var bs := WFrame(words).value + rest;
    assert bs[..2] == ToBE(n, 2);
    RoundTripFits(n, 2);
    assert U16Of(bs[..2]) == n;
    assert bs[2..2 + 4 * n] == EncodeWords(Mask32(words));
    DecodeEncodeWords(Mask32(words));
    assert bs[2 + 4 * n..] == rest;
  }

  /** `send_frame`: the header, then the payload joined word by word. */
  method SendFrame(words: seq<int>) returns (frame: Option<seq<Byte>>)
    ensures frame == WFrame(words)
  {
    Pow256Widths();
    var count := |words|;
    if count >= 0x1_0000 {
      return None;
    }
    var hdr := ToBE(count, 2);
    var payload: seq<Byte> := [];
    var k := 0;
    while k < count
      invariant 0 <= k <= count
      invariant payload == EncodeWords(Mask32(words[..k]))
    {
      assert Mask32(words[..k + 1]) == Mask32(words[..k]) + [words[k] % TwoTo32];
      EncodeWordsSnoc(Mask32(words[..k]), words[k] % TwoTo32);
      payload := payload + ToBE(words[k] % TwoTo32, 4);
      k := k + 1;
    }
    assert words[..k] == words;
    frame := Some(hdr + payload);
  }

  predicate AllFit(frames: seq<seq<Word>>)
  {
    forall i :: 0 <= i < |frames| ==> |frames[i]| < 0x1_0000
  }

  /** The bytes of consecutive W-frames on one connection. */
  function WStream(frames: seq<seq<Word>>): (r: seq<Byte>)
    requires AllFit(frames)
  {
    if frames == [] then [] else WFrame(frames[0]).value + WStream(frames[1..])
  }

  /** The frames a receiver reads off a stream, one after another, until the
    * stream ends inside a frame. */
  function ReadWFrames(bs: seq<Byte>): seq<seq<Word>>
    decreases |bs|
  {
    match ReadWFrame(bs)
    case None => []
    case Some((ws, rest)) => [ws] + ReadWFrames(rest)
  }

  /** A stream of frames of 32-bit words reads back as exactly those frames. */
  lemma {:induction false} WStreamRoundTrip(frames: seq<seq<Word>>)
    requires AllFit(frames)
    ensures ReadWFrames(WStream(frames)) == frames
  {
    if frames != [] {
      WFrameRoundTrip(frames[0], WStream(frames[1..]));
      Mask32Fits(frames[0]);
      WStreamRoundTrip(frames[1..]);
    }
  }

  lemma {:induction false} WStreamSnoc(frames: seq<seq<Word>>, f: seq<Word>)
    requires AllFit(frames) && |f| < 0x1_0000
    ensures AllFit(frames + [f])
    ensures WStream(frames + [f]) == WStream(frames) + WFrame(f).value
  {
    if frames == [] {
      assert [f][1..] == [];
    } else {
      assert (frames + [f])[1..] == frames[1..] + [f];
      WStreamSnoc(frames[1..], f);
      Seqs.AppendAssoc(WFrame(frames[0]).value, WStream(frames[1..]), WFrame(f).value);
    }
  }

  /** The frames of the first n toggle steps: the 1 kHz frame at even
    * steps, the 20 kHz frame at odd ones. */
  function Toggles(n: nat): (r: seq<seq<Word>>)
    ensures |r| == n && AllFit(r)
  {
    seq(n, i requires 0 <= i < n => AltFrame(i, Idx1k, Idx20k))
  }

  /** `main` of the W client, interrupted after `steps` sends: the bytes it
    * wrote to the socket (the pauses between sends are left out). */
  method WClient(steps: nat) returns (sent: seq<Byte>)
    ensures sent == WStream(Toggles(steps))
  {
    var toggle := 0;
    sent := [];
    var i := 0;
    while i < steps
      invariant 0 <= i <= steps
      invariant toggle == i % 2
      invariant sent == WStream(Toggles(i))
    {
      var words: seq<int>;
      if toggle == 0 {
        words := [MakeIndexWord(0, 0, Idx1k), MakeGainWord(0, 0, GainFull), CommitWord];
      } else {
        words := [MakeIndexWord(0, 0, Idx20k), MakeGainWord(0, 0, GainFull), CommitWord];
      }
      assert words == DemoFrame(if toggle == 0 then Idx1k else Idx20k);
      var frame := SendFrame(words);
      WClientStep(i, toggle, sent, words, frame);
      sent := sent + frame.value;
      toggle := if toggle == 0 then 1 else 0;
      i := i + 1;
    }
  }

  lemma WClientStep(i: nat, toggle: int, sent: seq<Byte>, words: seq<int>, frame: Option<seq<Byte>>)
    requires toggle == i % 2 && sent == WStream(Toggles(i))
    requires words == DemoFrame(if toggle == 0 then Idx1k else Idx20k) && frame == WFrame(words)
    ensures frame.Some? && sent + frame.value == WStream(Toggles(i + 1))
    ensures (if toggle == 0 then 1 else 0) == (i + 1) % 2
  {
    var f := AltFrame(i, Idx1k, Idx20k);
    assert f == words;
    TogglesSnoc(i);
    WStreamSnoc(Toggles(i), f);
    NextParity(i, toggle);
  }

  lemma TogglesSnoc(i: nat)
    ensures Toggles(i + 1) == Toggles(i) + [AltFrame(i, Idx1k, Idx20k)]
  {
    assert Toggles(i + 1)[..i] == Toggles(i);
  }

  /** Flipping the toggle of step i gives the toggle of step i + 1. */
  lemma NextParity(i: nat, toggle: int)
    requires toggle == i % 2
    ensures (if toggle == 0 then 1 else 0) == (i + 1) % 2
  {
  }

  /** What a receiver reads from the W client: the toggle frames in order,
    * step i carrying the 1 kHz index at even i and the 20 kHz index at odd
    * i, with full gain and a commit. */
  lemma WClientHeard(steps: nat, i: nat)
    requires i < steps
    ensures ReadWFrames(WStream(Toggles(steps))) == Toggles(steps)
    ensures var f := Toggles(steps)[i];
      |f| == 3 && CmdOf(f[0]) == CmdIndex && DataOf(f[0]) == (if i % 2 == 0 then Idx1k else Idx20k) &&
      CmdOf(f[1]) == CmdGain && DataOf(f[1]) == GainFull && f[2] == CommitWord
  {
    WStreamRoundTrip(Toggles(steps));
    DemoFrameFields(if i % 2 == 0 then Idx1k else Idx20k);
  }

  /** `pack_sel` of the C test: the channel bit and the tone field. */
  function PackSel(ch: int, tone: int): (r: Word)
  {
    (ch % 2) * ChShift + (tone % 8) * ToneShift
  }

  /** `make_index_word` and `make_gain_word` of the C test: the command
    * nibble, `pack_sel` and the low 20 bits of the unsigned value, which is
    * the layout of the cores' packed words. */
  function CIndexWord(ch: int, tone: int, idx: Word): (r: Word)
    ensures r == MakeIndexWord(ch, tone, idx)
  {
    CmdIndex * CmdShift + PackSel(ch, tone) + idx % DataMod
  }

  function CGainWord(ch: int, tone: int, gain: Word): (r: Word)
    ensures r == MakeGainWord(ch, tone, gain)
  {
    CmdGain * CmdShift + PackSel(ch, tone) + gain % DataMod
  }

  /** The words of one pass of the C test: the frame the Python clients
    * send for the same index. */
  function CFrame(idx: Word): (r: seq<Word>)
    ensures r == DemoFrame(idx)
  {
    [CIndexWord(0, 0, idx), CGainWord(0, 0, GainFull), CommitWord]
  }

  /** The words of several frames, one after another. */
  function Flatten(fs: seq<seq<Word>>): seq<Word>
  {
    if fs == [] then [] else Flatten(fs[..|fs| - 1]) + fs[|fs| - 1]
  }

  lemma {:induction false} TogglesPair(i: nat)
    ensures Flatten(Toggles(2 * i + 2)) == Flatten(Toggles(2 * i)) + (DemoFrame(Idx1k) + DemoFrame(Idx20k))
  {
    assert Toggles(2 * i + 2)[..2 * i + 1] == Toggles(2 * i + 1);
    assert Toggles(2 * i + 1)[..2 * i] == Toggles(2 * i);
  }

  /** The words of n toggle frames: 3n words, word k being word k % 3 of
    * frame k / 3. */
  lemma {:induction false} FlattenTogglesAt(n: nat, k: nat)
    requires k < 3 * n
    ensures |Flatten(Toggles(n))| == 3 * n
    ensures Flatten(Toggles(n))[k] == AltFrame(k / 3, Idx1k, Idx20k)[k % 3]
  {
    assert Toggles(n)[..n - 1] == Toggles(n - 1);
    if k < 3 * (n - 1) {
      FlattenTogglesAt(n - 1, k);
    } else if n > 1 {
      FlattenTogglesAt(n - 1, 0);
    }
  }

  /** Every return code in rcs is rc. */
  predicate AllAre(rcs: seq<int>, rc: int)
  {
    forall k :: 0 <= k < |rcs| ==> rcs[k] == rc
  }

  lemma AllAreAppend(a: seq<int>, b: seq<int>, rc: int)
    requires AllAre(a, rc) && AllAre(b, rc)
    ensures AllAre(a + b, rc)
  {
    forall k | 0 <= k < |a + b|
      ensures (a + b)[k] == rc
    {
      if k >= |a| {
        assert (a + b)[k] == b[k - |a|];
      }
    }
  }

  /** One pass of the C test's loop on the awg_raw_tcp core: the 1 kHz
    * frame, then the 20 kHz frame, each word strobed once. */
  method SingleChannelPass(core: MmapCore) returns (rc: int, rc2: int)
    requires core.mapped
    modifies core
    ensures rc == 0 && rc2 == 0 && core.mapped
    ensures core.dataWrites == old(core.dataWrites) + (DemoFrame(Idx1k) + DemoFrame(Idx20k))
    ensures core.wenWrites == old(core.wenWrites) + WenStrobes(old(core.wenReg), DefWenActiveHigh, 6)
    ensures core.wenReg == AfterStrobes(old(core.wenReg), DefWenActiveHigh, 6)
  {
    ghost var v0 := core.wenReg;
    rc := core.SendWords32(Some(CFrame(Idx1k)), 3);
    rc2 := core.SendWords32(Some(CFrame(Idx20k)), 3);
    WenStrobesAdd(v0, DefWenActiveHigh, 3, 3);
  }

  /** The strobes written so far, extended by the six of one pass. */
  lemma PassStrobes(w0: seq<Word>, v0: Word, i: nat)
    ensures w0 + WenStrobes(v0, DefWenActiveHigh, 6 * i) + WenStrobes(AfterStrobes(v0, DefWenActiveHigh, 6 * i), DefWenActiveHigh, 6)
         == w0 + WenStrobes(v0, DefWenActiveHigh, 6 * (i + 1))
    ensures AfterStrobes(AfterStrobes(v0, DefWenActiveHigh, 6 * i), DefWenActiveHigh, 6) == AfterStrobes(v0, DefWenActiveHigh, 6 * (i + 1))
  {
    WenChain(w0, v0, 6 * i, 6);
    assert 6 * i + 6 == 6 * (i + 1);
  }

  /** The words of n passes of the C single-channel loop. */
  function PassesWords(n: nat): (r: seq<Word>)
  {
    if n == 0 then [] else PassesWords(n - 1) + (DemoFrame(Idx1k) + DemoFrame(Idx20k))
  }

  /** n passes send the first 2n toggle frames, in order. */
  lemma {:induction false} PassesWordsToggles(n: nat)
    ensures PassesWords(n) == Flatten(Toggles(2 * n))
  {
    if n == 0 {
      assert Toggles(0) == [];
    } else {
      var k := n - 1;
      var x := DemoFrame(Idx1k) + DemoFrame(Idx20k);
      PassesWordsToggles(k);
      TogglesPair(k);
      assert 2 * k + 2 == 2 * n;
      assert Flatten(Toggles(2 * n)) == Flatten(Toggles(2 * k)) + x;
      assert PassesWords(n) == PassesWords(k) + x;
    }
  }

  /** The words written so far, extended by one pass of the loop. */
  lemma PassWordsStep(d0: seq<Word>, i: nat)
    ensures d0 + PassesWords(i) + (DemoFrame(Idx1k) + DemoFrame(Idx20k)) == d0 + PassesWords(i + 1)
  {
    Seqs.AppendAssoc(d0, PassesWords(i), DemoFrame(Idx1k) + DemoFrame(Idx20k));
  }

  /**
   * `main` of test_awg_single_channel.c, stopped after `rounds` passes of
   * its endless loop, on the awg_raw_tcp core, whose `awg_send_words32`
   * takes any positive count.  Exit status 1 when the core could not be
   * mapped; otherwise each pass writes the 1 kHz frame and then the 20 kHz
   * frame, every word strobed once, and the loop is still running (None).
   */
  method SingleChannelMain(core: MmapCore, rounds: nat) returns (exit: Option<int>, rcs: seq<int>)
    modifies core
    ensures !old(core.mapped) ==>
      (exit == Some(1) && rcs == [] &&
       core.dataWrites == old(core.dataWrites) && core.wenWrites == old(core.wenWrites))
    ensures old(core.mapped) ==>
      (exit.None? && |rcs| == 2 * rounds && AllAre(rcs, 0) &&
       core.dataWrites == old(core.dataWrites) + Flatten(Toggles(2 * rounds)) &&
       core.wenWrites == old(core.wenWrites) + WenStrobes(old(core.wenReg), DefWenActiveHigh, 6 * rounds))
  {
    rcs := [];
    if !core.mapped {
      return Some(1), rcs;
    }
    ghost var d0, w0, v0 := core.dataWrites, core.wenWrites, core.wenReg;
    var i := 0;
    while i < rounds
      invariant 0 <= i <= rounds
      invariant core.mapped
      invariant |rcs| == 2 * i && AllAre(rcs, 0)
      invariant core.dataWrites == d0 + PassesWords(i)
      invariant core.wenWrites == w0 + WenStrobes(v0, DefWenActiveHigh, 6 * i)
      invariant core.wenReg == AfterStrobes(v0, DefWenActiveHigh, 6 * i)
    {
      var rc, rc2 := SingleChannelPass(core);
      PassStrobes(w0, v0, i);
      PassWordsStep(d0, i);
      AllAreAppend(rcs, [rc, rc2], 0);
      rcs := rcs + [rc, rc2];
      i := i + 1;
    }
    PassesWordsToggles(rounds);
    exit := None;
  }

  /**
   * The same `main` on the top-level awg_core_mmap.c, whose
   * `awg_send_words32` accepts only a count of exactly 32: every send is
   * refused with -2 and nothing reaches the registers.
   */
  method SingleChannelMainFixed(core: MmapCore, rounds: nat) returns (exit: Option<int>, rcs: seq<int>)
    modifies core
    ensures core.dataWrites == old(core.dataWrites) && core.wenWrites == old(core.wenWrites)
    ensures !old(core.mapped) ==> exit == Some(1) && rcs == []
    ensures old(core.mapped) ==> exit.None? && |rcs| == 2 * rounds && AllAre(rcs, -2)
  {
    rcs := [];
    if !core.mapped {
      return Some(1), rcs;
    }
    var i := 0;
    while i < rounds
      invariant 0 <= i <= rounds
      invariant core.mapped
      invariant |rcs| == 2 * i && AllAre(rcs, -2)
      invariant core.dataWrites == old(core.dataWrites) && core.wenWrites == old(core.wenWrites)
    {
      var rc := core.SendWords32Fixed(Some(CFrame(Idx1k)), 3);
      var rc2 := core.SendWords32Fixed(Some(CFrame(Idx20k)), 3);
      rcs := rcs + [rc, rc2];
      i := i + 1;
    }
    exit := None;
  }
}
