/**
 * The ASCII-hex front end of the AWG cores: the unvalidated digit parser
 * `parse_hex_n`, the 3-digit index and 18-digit gain fields, and the fixed
 * 33-word sequence `awg_send_hex4` streams for four hex blocks.
 *
 * Strings are the bytes a C `const char *` points at.  The parsers perform
 * no validation and require their callers to hand them hex digits; that
 * requirement is stated as a precondition on the characters actually read.
 */
module HexCodec {
  import opened Words
  import opened ControlWord

  predicate IsHexDigit(c: Byte)
  {
    ('0' as int <= c <= '9' as int) || ('a' as int <= c <= 'f' as int) || ('A' as int <= c <= 'F' as int)
  }

  /** `c | 32`: sets bit 5, which lower-cases an ASCII letter. */
  function Or32(c: Byte): Byte
  {
    if (c / 32) % 2 == 0 then c + 32 else c
  }

  /** `(c <= '9') ? (c - '0') : ((c | 32) - 'a' + 10)` on a valid digit. */
  function NibbleValue(c: Byte): (r: nat)
    requires IsHexDigit(c)
    ensures r < 16
  {
    if c <= '9' as int then c - '0' as int else Or32(c) - 'a' as int + 10
  }

  /** Digit values agree with the usual meaning of hex digits of either case. */
  lemma NibbleValueMeaning(c: Byte)
    requires IsHexDigit(c)
    ensures '0' as int <= c <= '9' as int ==> NibbleValue(c) == c - '0' as int
    ensures 'a' as int <= c <= 'f' as int ==> NibbleValue(c) == c - 'a' as int + 10
    ensures 'A' as int <= c <= 'F' as int ==> NibbleValue(c) == c - 'A' as int + 10
  {
  }

  predicate AllHex(s: seq<Byte>)
  {
    forall i :: 0 <= i < |s| ==> IsHexDigit(s[i])
  }

  function Pow16(n: nat): (r: nat)
    ensures r >= 1
  {
    if n == 0 then 1 else 16 * Pow16(n - 1)
  }

  /** The base-16 value of a digit string, most significant digit first. */
  function HexValue(s: seq<Byte>): (r: nat)
    requires AllHex(s)
    ensures r < Pow16(|s|)
  {
    if s == [] then 0 else HexValue(s[..|s| - 1]) * 16 + NibbleValue(s[|s| - 1])
  }

  /** The accumulator step `v = (v << 4) | h` in 32 bits. */
  lemma ShiftInNibble(a: nat, h: nat)
    requires h < 16
    ensures ((a % TwoTo32) * 16) % TwoTo32 + h == (a * 16 + h) % TwoTo32
  {
    var q, r := a / TwoTo32, a % TwoTo32;
    var q2, r2 := (r * 16) / TwoTo32, (r * 16) % TwoTo32;
    assert r2 % 16 == 0 by {
      DivModUnique(r * 16, TwoTo32, q2, r2);
      assert r * 16 == TwoTo32 * q2 + r2;
    }
    assert r2 + h < TwoTo32;
    assert a * 16 + h == TwoTo32 * (q * 16 + q2) + (r2 + h);
    DivModUnique(a * 16 + h, TwoTo32, q * 16 + q2, r2 + h);
  }

  /**
   * `parse_hex_n`: folds n digits into a 32-bit accumulator, four bits at a
   * time.  The result is the base-16 value of the n digits, reduced to 32
   * bits (which changes nothing for the n <= 8 digits the cores read).
   */
  method ParseHexN(p: seq<Byte>, n: nat) returns (v: Word)
    requires n <= |p| && AllHex(p[..n])
    ensures v == HexValue(p[..n]) % TwoTo32
  {
    v := 0;
    var i := 0;
    while i < n
      invariant 0 <= i <= n
      invariant AllHex(p[..i])
      invariant v == HexValue(p[..i]) % TwoTo32
    {
      assert IsHexDigit(p[..n][i]);
      var h := NibbleValue(p[i]);
      assert p[..i + 1][..i] == p[..i];
      ShiftInNibble(HexValue(p[..i]), h);
      v := (v * 16) % TwoTo32 + h;
      i := i + 1;
    }
  }

  /** At most eight digits always fit the 32-bit accumulator. */
  lemma HexValueFits(s: seq<Byte>)
    requires AllHex(s) && |s| <= 8
    ensures HexValue(s) % TwoTo32 == HexValue(s)
  {
    Pow16Mono(|s|, 8);
    assert Pow16(8) == TwoTo32;
    ModSmall(HexValue(s), TwoTo32);
  }

  lemma {:induction false} Pow16Mono(m: nat, n: nat)
    requires m <= n
    ensures Pow16(m) <= Pow16(n)
  {
    if m < n {
      Pow16Mono(m, n - 1);
    }
  }

  /** The 3-digit index field at the start of s. */
  predicate IdxDigits(s: seq<Byte>)
  {
    |s| >= 3 && AllHex(s[..3])
  }

  /** The 18-digit gain field at the start of s: only digits 13..17 are read. */
  predicate GainDigits(s: seq<Byte>)
  {
    |s| >= 18 && AllHex(s[13..18])
  }

  function Idx3(s: seq<Byte>): (r: nat)
    requires IdxDigits(s)
  {
    HexValue(s[..3])
  }

  function Gain18Low5(s: seq<Byte>): (r: nat)
    requires GainDigits(s)
  {
    HexValue(s[13..18])
  }

  /** An index field holds at most 0xFFF; a gain field at most 0xFFFFF. */
  lemma FieldBounds(s: seq<Byte>)
    ensures IdxDigits(s) ==> Idx3(s) <= 0xFFF
    ensures GainDigits(s) ==> Gain18Low5(s) <= 0xFFFFF
  {
    if IdxDigits(s) {
      assert Pow16(3) == 0x1000;
    }
    if GainDigits(s) {
      assert Pow16(5) == 0x10_0000;
    }
  }

  /** The first 13 characters of a gain field have no effect on its value. */
  lemma GainIgnoresPrefix(s: seq<Byte>, t: seq<Byte>)
    requires GainDigits(s) && |t| >= 18 && t[13..18] == s[13..18]
    ensures GainDigits(t) && Gain18Low5(t) == Gain18Low5(s)
  {
  }

  /** `parse_idx3_fast`. */
  method ParseIdx3(p: seq<Byte>) returns (v: Word)
    requires IdxDigits(p)
    ensures v == Idx3(p) && v <= 0xFFF
  {
    v := ParseHexN(p, 3);
    HexValueFits(p[..3]);
    FieldBounds(p);
  }

  /** `parse_gain18_low5_fast`: the five digits at offset 13. */
  method ParseGain18Low5(p: seq<Byte>) returns (v: Word)
    requires GainDigits(p)
    ensures v == Gain18Low5(p) && v <= 0xFFFFF
  {
    assert p[13..][..5] == p[13..18];
    v := ParseHexN(p[13..], 5);
    HexValueFits(p[13..18]);
    FieldBounds(p);
  }

  /** A 24-character index block: eight 3-digit tone fields. */
  predicate IdxBlock(s: seq<Byte>)
  {
    |s| >= 24 && forall t :: 0 <= t < 8 ==> IdxDigits(s[3 * t..])
  }

  /** A 144-character gain block: eight 18-digit tone fields. */
  predicate GainBlock(s: seq<Byte>)
  {
    |s| >= 144 && forall t :: 0 <= t < 8 ==> GainDigits(s[18 * t..])
  }

  function IndexWords(ch: int, s: seq<Byte>): (r: seq<Word>)
    requires IdxBlock(s)
    ensures |r| == 8
  {
    seq(8, t requires 0 <= t < 8 => MakeIndexWord(ch, t, Idx3(s[3 * t..]) % DataMod))
  }

  function GainWords(ch: int, s: seq<Byte>): (r: seq<Word>)
    requires GainBlock(s)
    ensures |r| == 8
  {
    seq(8, t requires 0 <= t < 8 => MakeGainWord(ch, t, Gain18Low5(s[18 * t..]) % DataMod))
  }

  /** The words `awg_send_hex4` streams: A index tones 0..7, A gain tones
    * 0..7, B index, B gain, then one commit. */
  function Hex4Words(idxA: seq<Byte>, gainA: seq<Byte>, idxB: seq<Byte>, gainB: seq<Byte>): (r: seq<Word>)
    requires IdxBlock(idxA) && GainBlock(gainA) && IdxBlock(idxB) && GainBlock(gainB)
    ensures |r| == 33
  {
    IndexWords(0, idxA) + GainWords(0, gainA) + IndexWords(1, idxB) + GainWords(1, gainB) + [CommitWord]
  }

  /** The fields of w, read back, are exactly these. */
  predicate HasFields(w: Word, cmd: int, ch: int, tone: int, data: int)
  {
    CmdOf(w) == cmd && ChOf(w) == ch && ToneOf(w) == tone && ReservedOf(w) == 0 && DataOf(w) == data
  }

  /** Index word t of a block carries command 1, the channel, tone t and
    * the value of the tone's three digits. */
  lemma IndexWordsFields(ch: int, s: seq<Byte>, t: nat)
    requires IdxBlock(s) && 0 <= ch <= 1 && t < 8
    ensures HasFields(IndexWords(ch, s)[t], CmdIndex, ch, t, Idx3(s[3 * t..]))
  {
    var v := Idx3(s[3 * t..]);
    FieldBounds(s[3 * t..]);
    assert IndexWords(ch, s)[t] == Pack(CmdIndex, ch, t, v % DataMod);
    PackFields(CmdIndex, ch, t, v);
  }

  /** Gain word t of a block carries command 2, the channel, tone t and the
    * value of the last five digits of the tone's field. */
  lemma GainWordsFields(ch: int, s: seq<Byte>, t: nat)
    requires GainBlock(s) && 0 <= ch <= 1 && t < 8
    ensures HasFields(GainWords(ch, s)[t], CmdGain, ch, t, Gain18Low5(s[18 * t..]))
  {
    var v := Gain18Low5(s[18 * t..]);
    FieldBounds(s[18 * t..]);
    assert GainWords(ch, s)[t] == Pack(CmdGain, ch, t, v % DataMod);
    PackFields(CmdGain, ch, t, v);
  }

  /** A word packed from fields that fit reads back those fields. */
  lemma PackFields(cmd: int, ch: int, t: int, v: int)
    requires 0 <= cmd < 16 && 0 <= ch <= 1 && 0 <= t < 8 && 0 <= v < DataMod
    ensures HasFields(Pack(cmd, ch, t, v % DataMod), cmd, ch, t, v)
  {
    assert v % DataMod == v;
    UnpackPack(cmd, ch, t, v);
  }

  /** Word k of the hex4 sequence, read back field by field: A index tone k,
    * A gain tone k-8, B index tone k-16, B gain tone k-24, then the commit. */
  lemma Hex4WordsFields(idxA: seq<Byte>, gainA: seq<Byte>, idxB: seq<Byte>, gainB: seq<Byte>, k: nat)
    requires IdxBlock(idxA) && GainBlock(gainA) && IdxBlock(idxB) && GainBlock(gainB)
    requires k < 33
    ensures var r := Hex4Words(idxA, gainA, idxB, gainB);
      (k < 8 ==> HasFields(r[k], CmdIndex, 0, k, Idx3(idxA[3 * k..]))) &&
      (8 <= k < 16 ==> HasFields(r[k], CmdGain, 0, k - 8, Gain18Low5(gainA[18 * (k - 8)..]))) &&
      (16 <= k < 24 ==> HasFields(r[k], CmdIndex, 1, k - 16, Idx3(idxB[3 * (k - 16)..]))) &&
      (24 <= k < 32 ==> HasFields(r[k], CmdGain, 1, k - 24, Gain18Low5(gainB[18 * (k - 24)..]))) &&
      (k == 32 ==> r[k] == CommitWord)
  {
    var r := Hex4Words(idxA, gainA, idxB, gainB);
    if k < 8 {
      assert r[k] == IndexWords(0, idxA)[k];
      IndexWordsFields(0, idxA, k);
    } else if k < 16 {
      assert r[k] == GainWords(0, gainA)[k - 8];
      GainWordsFields(0, gainA, k - 8);
    } else if k < 24 {
      assert r[k] == IndexWords(1, idxB)[k - 16];
      IndexWordsFields(1, idxB, k - 16);
    } else if k < 32 {
      assert r[k] == GainWords(1, gainB)[k - 24];
      GainWordsFields(1, gainB, k - 24);
    }
  }
}
