/**
 * The 32-bit AWG control word: command nibble in bits 31..28, channel in
 * bit 27, tone in bits 26..24, bits 23..20 zero, a 20-bit payload in bits
 * 19..0.  Every core (both mmap cores, the libgpiod core, the Python cores
 * and the test clients) packs words this way.
 */
module ControlWord {
  import opened Words

  const CmdIndex: int := 0x1
  const CmdGain: int := 0x2
  const CmdCommit: int := 0xF

  const CmdShift: nat := 0x1000_0000   // 1 << 28
  const ChShift: nat := 0x800_0000     // 1 << 27
  const ToneShift: nat := 0x100_0000   // 1 << 24
  const ReservedShift: nat := 0x10_0000 // 1 << 20
  const DataMod: nat := 0x10_0000      // payload mask 0xFFFFF, plus one

  /** The commit word, `0xF << 28`. */
  const CommitWord: Word := 0xF000_0000

  /** Fields masked to 4, 1, 3 and 20 bits and OR-ed into place; the fields
    * do not overlap, so the OR is a sum. */
  function Pack(cmd: int, ch: int, tone: int, data: int): Word
  {
    (cmd % 16) * CmdShift + (ch % 2) * ChShift + (tone % 8) * ToneShift + data % DataMod
  }

  function MakeIndexWord(ch: int, tone: int, idx: int): Word
  {
    Pack(CmdIndex, ch, tone, idx)
  }

  function MakeGainWord(ch: int, tone: int, gain: int): Word
  {
    Pack(CmdGain, ch, tone, gain)
  }

  // Field extraction: the register layout read back.
  function CmdOf(w: Word): int { w / CmdShift }
  function ChOf(w: Word): int { (w / ChShift) % 2 }
  function ToneOf(w: Word): int { (w / ToneShift) % 8 }
  function ReservedOf(w: Word): int { (w / ReservedShift) % 16 }
  function DataOf(w: Word): int { w % DataMod }

  /** Extracting the fields of a packed word gives back the masked inputs,
    * and bits 23..20 are zero. */
  lemma UnpackPack(cmd: int, ch: int, tone: int, data: int)
    ensures var w := Pack(cmd, ch, tone, data);
      CmdOf(w) == cmd % 16 && ChOf(w) == ch % 2 && ToneOf(w) == tone % 8 &&
      ReservedOf(w) == 0 && DataOf(w) == data % DataMod
  {
    var c, h, t, d := cmd % 16, ch % 2, tone % 8, data % DataMod;
    var w := Pack(cmd, ch, tone, data);
    var low := h * ChShift + t * ToneShift + d;
    DivModUnique(w, CmdShift, c, low);
    DivModUnique(w, ChShift, c * 2 + h, t * ToneShift + d);
    DivModUnique(c * 2 + h, 2, c, h);
    DivModUnique(w, ToneShift, c * 16 + h * 8 + t, d);
    DivModUnique(c * 16 + h * 8 + t, 8, c * 2 + h, t);
    DivModUnique(w, ReservedShift, (c * 16 + h * 8 + t) * 16, d);
    DivModUnique((c * 16 + h * 8 + t) * 16, 16, c * 16 + h * 8 + t, 0);
    DivModUnique(w, DataMod, (c * 16 + h * 8 + t) * 16, d);
  }

  /** A word is determined by its fields: packing the fields read back from
    * a word with zero reserved bits rebuilds the word. */
  lemma PackUnpack(w: Word)
    requires ReservedOf(w) == 0
    ensures Pack(CmdOf(w), ChOf(w), ToneOf(w), DataOf(w)) == w
  {
    var c, h, t, r, d := CmdOf(w), ChOf(w), ToneOf(w), ReservedOf(w), DataOf(w);
    assert w == CmdShift * c + w % CmdShift;
    var q1 := w / ChShift;
    assert q1 == 2 * (q1 / 2) + h;
    DivDiv(w, ChShift, 2);
    var q2 := w / ToneShift;
    assert q2 == 8 * (q2 / 8) + t;
    DivDiv(w, ToneShift, 8);
    var q3 := w / ReservedShift;
    assert q3 == 16 * (q3 / 16) + r;
    DivDiv(w, ReservedShift, 16);
    DivDiv(w, ToneShift, 16);
    assert w == ReservedShift * q3 + d;
    assert q3 / 16 == q2;
    assert q2 / 8 == q1;
    assert q1 / 2 == c;
    assert c % 16 == c && h % 2 == h && t % 8 == t && d % DataMod == d;
  }

  /** The commit word carries command 0xF and nothing else. */
  lemma CommitWordFields()
    ensures CommitWord == Pack(CmdCommit, 0, 0, 0)
    ensures CmdOf(CommitWord) == CmdCommit && DataOf(CommitWord) == 0
  {
    UnpackPack(CmdCommit, 0, 0, 0);
  }

  /** The 17 words that silence both channels: gain 0 for channel 0 tones
    * 0..7, then channel 1 tones 0..7, then one commit. */
  function ZeroOutputWords(): (r: seq<Word>)
    ensures |r| == 17
  {
    seq(16, i => MakeGainWord(i / 8, i % 8, 0)) + [CommitWord]
  }

  /** Every word but the last of the zero-output sequence is a gain-0 word,
    * channel 0 first, tones in order; the last is the commit. */
  lemma ZeroOutputWordsFields(i: nat)
    requires i < 17
    ensures var w := ZeroOutputWords()[i];
      if i < 16 then CmdOf(w) == CmdGain && ChOf(w) == i / 8 && ToneOf(w) == i % 8 && DataOf(w) == 0
      else w == CommitWord
  {
    if i < 16 {
      UnpackPack(CmdGain, i / 8, i % 8, 0);
    }
  }

  /**
   * Builds the zero-output sequence the way the engine and the mmap core
   * do: a channel loop around a tone loop filling a 17-word buffer, then the
   * commit.
   */
  method BuildZeroOutput() returns (words: array<Word>)
    ensures fresh(words)
    ensures words[..] == ZeroOutputWords()
  {
    words := new Word[17];
    var idx := 0;
    var ch := 0;
    while ch < 2
      invariant 0 <= ch <= 2 && idx == 8 * ch
      invariant forall i :: 0 <= i < idx ==> words[i] == MakeGainWord(i / 8, i % 8, 0)
    {
      var tone := 0;
      while tone < 8
        invariant 0 <= tone <= 8 && idx == 8 * ch + tone
        invariant forall i :: 0 <= i < idx ==> words[i] == MakeGainWord(i / 8, i % 8, 0)
      {
        words[idx] := MakeGainWord(ch, tone, 0);
        idx := idx + 1;
        tone := tone + 1;
      }
      ch := ch + 1;
    }
    words[idx] := CommitWord;
    assert words[..] == ZeroOutputWords();
  }

  /** The frame the raw-TCP engine primes and flushes with: for channel 0
    * then 1, for tones 0..7, an index-0 word then a gain-0 word; then a
    * commit. */
  function ZeroGainFrame(): (r: seq<Word>)
    ensures |r| == ZeroGainFrameCount
  {
    seq(32, i => if i % 2 == 0 then MakeIndexWord(i / 16, (i / 2) % 8, 0)
                 else MakeGainWord(i / 16, (i / 2) % 8, 0)) + [CommitWord]
  }

  const ZeroGainFrameCount: nat := 33

  /** Word 2k+1 of the zero-gain frame sets the gain of tone k%8 on channel
    * k/8 to zero, the word before it sets that tone's index to zero, and the
    * frame ends with one commit. */
  lemma ZeroGainFrameFields(k: nat)
    requires k < 16
    ensures var f := ZeroGainFrame();
      CmdOf(f[2 * k]) == CmdIndex && CmdOf(f[2 * k + 1]) == CmdGain &&
      ChOf(f[2 * k]) == k / 8 && ChOf(f[2 * k + 1]) == k / 8 &&
      ToneOf(f[2 * k]) == k % 8 && ToneOf(f[2 * k + 1]) == k % 8 &&
      DataOf(f[2 * k]) == 0 && DataOf(f[2 * k + 1]) == 0 &&
      f[32] == CommitWord
  {
    var f := ZeroGainFrame();
    assert (2 * k) / 16 == k / 8 && ((2 * k) / 2) % 8 == k % 8;
    assert (2 * k + 1) / 16 == k / 8 && ((2 * k + 1) / 2) % 8 == k % 8;
    UnpackPack(CmdIndex, k / 8, k % 8, 0);
    UnpackPack(CmdGain, k / 8, k % 8, 0);
  }
}
