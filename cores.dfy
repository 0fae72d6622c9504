/**
 * The AWG hardware cores: the two /dev/mem cores (awg_core_mmap.c at the top
 * level and under awg_raw_tcp/) and the libgpiod core.  A core writes each
 * control word to the 32-bit DATA register (or lines) and then strobes WEN
 * once.  Register writes are recorded in order; the mmap WEN register is a
 * word whose bit 0 is the strobe, read back before each edge.
 */
module AwgCores {
  import opened Words
  import opened ControlWord
  import opened HexCodec
  import opened GpioLines
  import opened Wrappers
  import Seqs

  /** DEF_WEN_ACTHI: every core strobes WEN active-high. */
  const DefWenActiveHigh: bool := true

  /** `val | (1u << WEN_BIT)` with WEN_BIT = 0. */
  function SetWen(val: Word): Word
  {
    if val % 2 == 1 then val else val + 1
  }

  /** `val & ~(1u << WEN_BIT)` with WEN_BIT = 0. */
  function ClearWen(val: Word): Word
  {
    val - val % 2
  }

  /** The register value an edge writes first, and the one it leaves. */
  function OnLevel(val: Word, activeHigh: bool): Word
  {
    if activeHigh then SetWen(val) else ClearWen(val)
  }

  function OffLevel(val: Word, activeHigh: bool): Word
  {
    if activeHigh then ClearWen(val) else SetWen(val)
  }

  /** An edge drives bit 0 to the active level and then back to the inactive
    * level, keeping every other bit of the value read. */
  lemma WenEdgeLevels(val: Word, activeHigh: bool)
    ensures OnLevel(val, activeHigh) % 2 == (if activeHigh then 1 else 0)
    ensures OffLevel(val, activeHigh) % 2 == (if activeHigh then 0 else 1)
    ensures OnLevel(val, activeHigh) / 2 == val / 2 && OffLevel(val, activeHigh) / 2 == val / 2
  {
  }

  /** After one edge the register rests at the inactive level, so every
    * later edge writes the same two values as the first. */
  lemma WenEdgeSteady(val: Word, activeHigh: bool)
    ensures OnLevel(OffLevel(val, activeHigh), activeHigh) == OnLevel(val, activeHigh)
    ensures OffLevel(OffLevel(val, activeHigh), activeHigh) == OffLevel(val, activeHigh)
  {
  }

  /** k edges starting from register value val. */
  function WenStrobes(val: Word, activeHigh: bool, k: nat): (r: seq<Word>)
    ensures |r| == 2 * k
  {
    if k == 0 then [] else WenStrobes(val, activeHigh, k - 1) + [OnLevel(val, activeHigh), OffLevel(val, activeHigh)]
  }

  /** The WEN register after k edges. */
  function AfterStrobes(val: Word, activeHigh: bool, k: nat): Word
  {
    if k == 0 then val else OffLevel(val, activeHigh)
  }

  /** Edges compose: a edges then b more, from where the first a left the
    * register, are a+b edges from the start. */
  lemma {:induction false} WenStrobesAdd(val: Word, activeHigh: bool, a: nat, b: nat)
    ensures WenStrobes(val, activeHigh, a) + WenStrobes(AfterStrobes(val, activeHigh, a), activeHigh, b)
         == WenStrobes(val, activeHigh, a + b)
    ensures AfterStrobes(AfterStrobes(val, activeHigh, a), activeHigh, b) == AfterStrobes(val, activeHigh, a + b)
  {
    if b > 0 {
      WenStrobesAdd(val, activeHigh, a, b - 1);
      WenEdgeSteady(val, activeHigh);
    }
  }

  /** The strobe writes recorded so far, extended by b more edges. */
  lemma WenChain(w0: seq<Word>, val: Word, a: nat, b: nat)
    ensures w0 + WenStrobes(val, DefWenActiveHigh, a) + WenStrobes(AfterStrobes(val, DefWenActiveHigh, a), DefWenActiveHigh, b)
         == w0 + WenStrobes(val, DefWenActiveHigh, a + b)
    ensures AfterStrobes(AfterStrobes(val, DefWenActiveHigh, a), DefWenActiveHigh, b) == AfterStrobes(val, DefWenActiveHigh, a + b)
  {
    WenStrobesAdd(val, DefWenActiveHigh, a, b);
    Seqs.AppendAssoc(w0, WenStrobes(val, DefWenActiveHigh, a), WenStrobes(AfterStrobes(val, DefWenActiveHigh, a), DefWenActiveHigh, b));
  }

  /** Every edge in a run of strobes writes the active level then the inactive one. */
  lemma {:induction false} WenStrobesAt(val: Word, activeHigh: bool, k: nat, j: nat)
    requires j < 2 * k
    ensures WenStrobes(val, activeHigh, k)[j] == (if j % 2 == 0 then OnLevel(val, activeHigh) else OffLevel(val, activeHigh))
  {
    if j < 2 * (k - 1) {
      WenStrobesAt(val, activeHigh, k - 1, j);
    }
  }

  /**
   * A /dev/mem core.  `mapped` is whether awg_init mapped both the DATA and
   * the WEN register blocks (`g_data_regs && g_wen_regs`).
   */
  class MmapCore {
    var mapped: bool
    var dataWrites: seq<Word>
    var wenReg: Word
    var wenWrites: seq<Word>

    constructor (mapped: bool, wenReg: Word)
      ensures this.mapped == mapped && this.wenReg == wenReg
      ensures dataWrites == [] && wenWrites == []
    {
      this.mapped := mapped;
      this.wenReg := wenReg;
      dataWrites := [];
      wenWrites := [];
    }

    /** `wen_edge`: read the register, write the active level, then the inactive one. */
    method WenEdge(activeHigh: bool)
      modifies this
      ensures wenWrites == old(wenWrites) + WenStrobes(old(wenReg), activeHigh, 1)
      ensures wenReg == AfterStrobes(old(wenReg), activeHigh, 1)
      ensures dataWrites == old(dataWrites) && mapped == old(mapped)
    {
      var val := wenReg;
      var on := if activeHigh then SetWen(val) else ClearWen(val);
      var off := if activeHigh then ClearWen(val) else SetWen(val);
      wenWrites := wenWrites + [on];
      wenReg := on;
      wenWrites := wenWrites + [off];
      wenReg := off;
    }

    /** `write_word32` followed by one `wen_edge`. */
    method Emit(w: Word)
      modifies this
      ensures dataWrites == old(dataWrites) + [w]
      ensures wenWrites == old(wenWrites) + WenStrobes(old(wenReg), DefWenActiveHigh, 1)
      ensures wenReg == AfterStrobes(old(wenReg), DefWenActiveHigh, 1)
      ensures mapped == old(mapped)
    {
      dataWrites := dataWrites + [w];
      WenEdge(DefWenActiveHigh);
    }

    /** Emits each word of ws in order, each followed by its strobe. */
    method EmitAll(ws: seq<Word>)
      modifies this
      ensures dataWrites == old(dataWrites) + ws
      ensures wenWrites == old(wenWrites) + WenStrobes(old(wenReg), DefWenActiveHigh, |ws|)
      ensures wenReg == AfterStrobes(old(wenReg), DefWenActiveHigh, |ws|)
      ensures mapped == old(mapped)
    {
      var i := 0;
      while i < |ws|
        invariant 0 <= i <= |ws|
        invariant dataWrites == old(dataWrites) + ws[..i]
        invariant wenWrites == old(wenWrites) + WenStrobes(old(wenReg), DefWenActiveHigh, i)
        invariant wenReg == AfterStrobes(old(wenReg), DefWenActiveHigh, i)
        invariant mapped == old(mapped)
      {
        Emit(ws[i]);
        WenStrobesAdd(old(wenReg), DefWenActiveHigh, i, 1);
        assert ws[..i + 1] == ws[..i] + [ws[i]];
        i := i + 1;
      }
      assert ws[..i] == ws;
    }

    /** One channel's index loop of awg_send_hex4. */
    method SendIndexBlock(ch: int, s: seq<Byte>)
      requires IdxBlock(s)
      modifies this
      ensures dataWrites == old(dataWrites) + IndexWords(ch, s)
      ensures wenWrites == old(wenWrites) + WenStrobes(old(wenReg), DefWenActiveHigh, 8)
      ensures wenReg == AfterStrobes(old(wenReg), DefWenActiveHigh, 8)
      ensures mapped == old(mapped)
    {
      var t := 0;
      while t < 8
        invariant 0 <= t <= 8
        invariant dataWrites == old(dataWrites) + IndexWords(ch, s)[..t]
        invariant wenWrites == old(wenWrites) + WenStrobes(old(wenReg), DefWenActiveHigh, t)
        invariant wenReg == AfterStrobes(old(wenReg), DefWenActiveHigh, t)
        invariant mapped == old(mapped)
      {
        var word := IndexWordAt(ch, s, t);
        Emit(word);
        WenStrobesAdd(old(wenReg), DefWenActiveHigh, t, 1);
        assert IndexWords(ch, s)[..t + 1] == IndexWords(ch, s)[..t] + [word];
        t := t + 1;
      }
      assert IndexWords(ch, s)[..8] == IndexWords(ch, s);
    }

    /** One channel's gain loop of awg_send_hex4. */
    method SendGainBlock(ch: int, s: seq<Byte>)
      requires GainBlock(s)
      modifies this
      ensures dataWrites == old(dataWrites) + GainWords(ch, s)
      ensures wenWrites == old(wenWrites) + WenStrobes(old(wenReg), DefWenActiveHigh, 8)
      ensures wenReg == AfterStrobes(old(wenReg), DefWenActiveHigh, 8)
      ensures mapped == old(mapped)
    {
      var t := 0;
      while t < 8
        invariant 0 <= t <= 8
        invariant dataWrites == old(dataWrites) + GainWords(ch, s)[..t]
        invariant wenWrites == old(wenWrites) + WenStrobes(old(wenReg), DefWenActiveHigh, t)
        invariant wenReg == AfterStrobes(old(wenReg), DefWenActiveHigh, t)
        invariant mapped == old(mapped)
      {
        var word := GainWordAt(ch, s, t);
        Emit(word);
        WenStrobesAdd(old(wenReg), DefWenActiveHigh, t, 1);
        assert GainWords(ch, s)[..t + 1] == GainWords(ch, s)[..t] + [word];
        t := t + 1;
      }
      assert GainWords(ch, s)[..8] == GainWords(ch, s);
    }

    /**
     * `awg_send_hex4` (identical in both mmap cores): -1 when the registers
     * are not mapped, -2 when a block pointer is null, both without writing
     * anything; otherwise the 33 words of Hex4Words, each strobed once, and 0.
     */
    method SendHex4(idxA: Option<seq<Byte>>, gainA: Option<seq<Byte>>, idxB: Option<seq<Byte>>, gainB: Option<seq<Byte>>)
      returns (rc: int)
      requires mapped && idxA.Some? && gainA.Some? && idxB.Some? && gainB.Some? ==>
        IdxBlock(idxA.value) && GainBlock(gainA.value) && IdxBlock(idxB.value) && GainBlock(gainB.value)
      modifies this
      ensures !old(mapped) ==> rc == -1
      ensures old(mapped) && (idxA.None? || gainA.None? || idxB.None? || gainB.None?) ==> rc == -2
      ensures rc != 0 ==> dataWrites == old(dataWrites) && wenWrites == old(wenWrites) && wenReg == old(wenReg)
      ensures rc == 0 <==> old(mapped) && idxA.Some? && gainA.Some? && idxB.Some? && gainB.Some?
      ensures rc == 0 ==>
        dataWrites == old(dataWrites) + Hex4Words(idxA.value, gainA.value, idxB.value, gainB.value) &&
        wenWrites == old(wenWrites) + WenStrobes(old(wenReg), DefWenActiveHigh, 33) &&
        wenReg == AfterStrobes(old(wenReg), DefWenActiveHigh, 33)
      ensures mapped == old(mapped)
    {
      if !mapped {
        return -1;
      }
      if idxA.None? || gainA.None? || idxB.None? || gainB.None? {
        return -2;
      }
      var iA, gA, iB, gB := idxA.value, gainA.value, idxB.value, gainB.value;
      ghost var d0, w0, v0 := dataWrites, wenWrites, wenReg;
      SendIndexBlock(0, iA);
      SendGainBlock(0, gA);
      WenChain(w0, v0, 8, 8);
      SendIndexBlock(1, iB);
      WenChain(w0, v0, 16, 8);
      SendGainBlock(1, gB);
      WenChain(w0, v0, 24, 8);
      Emit(CommitWord);
      WenChain(w0, v0, 32, 1);
      Concat5(d0, IndexWords(0, iA), GainWords(0, gA), IndexWords(1, iB), GainWords(1, gB), [CommitWord]);
      rc := 0;
    }

    /**
     * `awg_send_words32` of awg_raw_tcp/awg_core_mmap.c: -1 when not mapped,
     * -2 for a null array or count <= 0; otherwise exactly the first count
     * words, in order, with no commit added.
     */
    method SendWords32(words: Option<seq<Word>>, count: int) returns (rc: int)
      requires mapped && words.Some? && count > 0 ==> count <= |words.value|
      modifies this
      ensures !old(mapped) ==> rc == -1
      ensures old(mapped) && (words.None? || count <= 0) ==> rc == -2
      ensures rc == 0 <==> old(mapped) && words.Some? && count > 0
      ensures rc != 0 ==> dataWrites == old(dataWrites) && wenWrites == old(wenWrites) && wenReg == old(wenReg)
      ensures rc == 0 ==>
        dataWrites == old(dataWrites) + words.value[..count] &&
        wenWrites == old(wenWrites) + WenStrobes(old(wenReg), DefWenActiveHigh, count) &&
        wenReg == AfterStrobes(old(wenReg), DefWenActiveHigh, count)
      ensures mapped == old(mapped)
    {
      if !mapped {
        return -1;
      }
      if words.None? || count <= 0 {
        return -2;
      }
      EmitAll(words.value[..count]);
      rc := 0;
    }

    /**
     * `awg_send_words32` of the top-level awg_core_mmap.c: exactly 32 words
     * or -2; the 32 words are followed by one commit.  The guard is modelled
     * on the mapped registers (the file names undeclared `g_data_req` and
     * `g_wen_req` there).
     */
    method SendWords32Fixed(words: Option<seq<Word>>, count: int) returns (rc: int)
      requires mapped && words.Some? && count == 32 ==> |words.value| >= 32
      modifies this
      ensures !old(mapped) ==> rc == -1
      ensures old(mapped) && (words.None? || count != 32) ==> rc == -2
      ensures rc == 0 <==> old(mapped) && words.Some? && count == 32
      ensures rc != 0 ==> dataWrites == old(dataWrites) && wenWrites == old(wenWrites) && wenReg == old(wenReg)
      ensures rc == 0 ==>
        dataWrites == old(dataWrites) + words.value[..32] + [CommitWord] &&
        wenWrites == old(wenWrites) + WenStrobes(old(wenReg), DefWenActiveHigh, 33)
      ensures mapped == old(mapped)
    {
      if !mapped {
        return -1;
      }
      if words.None? || count != 32 {
        return -2;
      }
      ghost var v0 := wenReg;
      EmitAll(words.value[..32]);
      Emit(CommitWord);
      WenStrobesAdd(v0, DefWenActiveHigh, 32, 1);
      rc := 0;
    }

    /** `awg_zero_output`: -1 when not mapped; otherwise the zero-output
      * sequence through SendWords32. */
    method ZeroOutput() returns (rc: int)
      modifies this
      ensures !old(mapped) ==> rc == -1 && dataWrites == old(dataWrites) && wenWrites == old(wenWrites)
      ensures old(mapped) ==> rc == 0 && dataWrites == old(dataWrites) + ZeroOutputWords()
      ensures old(mapped) ==> wenWrites == old(wenWrites) + WenStrobes(old(wenReg), DefWenActiveHigh, 17)
      ensures mapped == old(mapped)
    {
      if !mapped {
        return -1;
      }
      var words := BuildZeroOutput();
      rc := SendWords32(Some(words[..]), 17);
      assert words[..][..17] == ZeroOutputWords();
    }
  }

  /** `send_zero_output` of the queue server against the top-level core: its
    * `awg_send_words32` takes exactly 32 words, so the 17 zero-output
    * words come back -2 and nothing reaches the registers. */
  method FixedCoreRefusesZeroOutput(wenReg: Word) returns (rc: int, written: seq<Word>)
    ensures rc == -2 && written == []
  {
    var core := new MmapCore(true, wenReg);
    var words := BuildZeroOutput();
    rc := core.SendWords32Fixed(Some(words[..]), 17);
    written := core.dataWrites;
  }

  /** The same core refuses every frame a queue-server tick hands it
    * unless the frame is exactly 32 words long. */
  method FixedCoreRefusesFrame(frame: seq<Word>, wenReg: Word) returns (rc: int, written: seq<Word>)
    requires |frame| != 32
    ensures rc == -2 && written == []
  {
    var core := new MmapCore(true, wenReg);
    rc := core.SendWords32Fixed(Some(frame), |frame|);
    written := core.dataWrites;
  }

  /** `send_zero_output` against the awg_raw_tcp core, whose
    * `awg_send_words32` takes any positive count: all 17 words reach the
    * DATA register in order, each with its strobe. */
  method FlexibleCoreSendsZeroOutput(wenReg: Word) returns (rc: int, written: seq<Word>, strobes: seq<Word>)
    ensures rc == 0 && written == ZeroOutputWords()
    ensures strobes == WenStrobes(wenReg, DefWenActiveHigh, 17)
  {
    var core := new MmapCore(true, wenReg);
    var words := BuildZeroOutput();
    rc := core.SendWords32(Some(words[..]), 17);
    assert words[..][..17] == words[..];
    written, strobes := core.dataWrites, core.wenWrites;
  }

  /** The word the index loop of awg_send_hex4 builds for tone t: the
    * tone's three digits parsed, masked to the data field and packed. */
  method IndexWordAt(ch: int, s: seq<Byte>, t: nat) returns (w: Word)
    requires IdxBlock(s) && t < 8
    ensures w == IndexWords(ch, s)[t]
  {
    var v := ParseIdx3(s[3 * t..]);
    w := MakeIndexWord(ch, t, v % DataMod);
  }

  /** The word the gain loop of awg_send_hex4 builds for tone t. */
  method GainWordAt(ch: int, s: seq<Byte>, t: nat) returns (w: Word)
    requires GainBlock(s) && t < 8
    ensures w == GainWords(ch, s)[t]
  {
    var v := ParseGain18Low5(s[18 * t..]);
    w := MakeGainWord(ch, t, v % DataMod);
  }

  /** The line values of each word, in order. */
  function LinesOf(ws: seq<Word>): (r: seq<seq<bool>>)
    ensures |r| == |ws|
    ensures forall k :: 0 <= k < |ws| ==> LinesToWord(r[k]) == ws[k]
  {
    if ws == [] then []
    else
      WordLinesRoundTrip(ws[0]);
      [WordToLines(ws[0])] + LinesOf(ws[1..])
  }

  lemma {:induction false} LinesOfAppend(a: seq<Word>, b: seq<Word>)
    ensures LinesOf(a + b) == LinesOf(a) + LinesOf(b)
  {
    if a != [] {
      assert (a + b)[1..] == a[1..] + b;
      LinesOfAppend(a[1..], b);
    } else {
      assert a + b == b;
    }
  }

  lemma LinesOfPrefix(ws: seq<Word>, t: nat)
    requires t < |ws|
    ensures LinesOf(ws[..t + 1]) == LinesOf(ws[..t]) + [WordToLines(ws[t])]
  {
    assert ws[..t + 1] == ws[..t] + [ws[t]];
    LinesOfAppend(ws[..t], [ws[t]]);
  }

  lemma LinesOf5(a: seq<Word>, b: seq<Word>, c: seq<Word>, d: seq<Word>, e: seq<Word>)
    ensures LinesOf(a + b + c + d + e) == LinesOf(a) + LinesOf(b) + LinesOf(c) + LinesOf(d) + LinesOf(e)
  {
    LinesOfAppend(a, b);
    LinesOfAppend(a + b, c);
    LinesOfAppend(a + b + c, d);
    LinesOfAppend(a + b + c + d, e);
  }

  lemma LinesOfHex4(idxA: seq<Byte>, gainA: seq<Byte>, idxB: seq<Byte>, gainB: seq<Byte>)
    requires IdxBlock(idxA) && GainBlock(gainA) && IdxBlock(idxB) && GainBlock(gainB)
    ensures LinesOf(Hex4Words(idxA, gainA, idxB, gainB))
         == LinesOf(IndexWords(0, idxA)) + LinesOf(GainWords(0, gainA)) + LinesOf(IndexWords(1, idxB))
          + LinesOf(GainWords(1, gainB)) + [WordToLines(CommitWord)]
  {
    var a, b, c, d := IndexWords(0, idxA), GainWords(0, gainA), IndexWords(1, idxB), GainWords(1, gainB);
    LinesOf5(a, b, c, d, [CommitWord]);
    assert LinesOf([CommitWord]) == [WordToLines(CommitWord)];
  }

  lemma Concat5<T>(s0: seq<T>, a: seq<T>, b: seq<T>, c: seq<T>, d: seq<T>, e: seq<T>)
    ensures s0 + a + b + c + d + e == s0 + (a + b + c + d + e)
  {
  }

  /** a strobes followed by b strobes are a + b strobes. */
  lemma {:induction false} StrobesAdd(activeHigh: bool, a: nat, b: nat)
    ensures Strobes(activeHigh, a + b) == Strobes(activeHigh, a) + Strobes(activeHigh, b)
  {
    if b == 0 {
      assert Strobes(activeHigh, a) + [] == Strobes(activeHigh, a);
    } else {
      StrobesAdd(activeHigh, a, b - 1);
      Seqs.AppendAssoc(Strobes(activeHigh, a), Strobes(activeHigh, b - 1), [activeHigh, !activeHigh]);
    }
  }

  lemma Strobes33()
    ensures Strobes(DefWenActiveHigh, 33) == Strobes(DefWenActiveHigh, 8) + Strobes(DefWenActiveHigh, 8)
      + Strobes(DefWenActiveHigh, 8) + Strobes(DefWenActiveHigh, 8) + Strobes(DefWenActiveHigh, 1)
  {
    StrobesAdd(DefWenActiveHigh, 8, 8);
    StrobesAdd(DefWenActiveHigh, 16, 8);
    StrobesAdd(DefWenActiveHigh, 24, 8);
    StrobesAdd(DefWenActiveHigh, 32, 1);
  }

  /** One word more of ws on the lines and one strobe more on WEN. */
  lemma LinesStep(d0: seq<seq<bool>>, w0: seq<bool>, ws: seq<Word>, t: nat, d: seq<seq<bool>>, w: seq<bool>)
    requires t < |ws|
    requires d == d0 + LinesOf(ws[..t]) && w == w0 + Strobes(DefWenActiveHigh, t)
    ensures d + [WordToLines(ws[t])] == d0 + LinesOf(ws[..t + 1])
    ensures w + Strobes(DefWenActiveHigh, 1) == w0 + Strobes(DefWenActiveHigh, t + 1)
  {
    LinesOfPrefix(ws, t);
    Seqs.AppendAssoc(d0, LinesOf(ws[..t]), [WordToLines(ws[t])]);
    StrobesAdd(DefWenActiveHigh, t, 1);
    Seqs.AppendAssoc(w0, Strobes(DefWenActiveHigh, t), Strobes(DefWenActiveHigh, 1));
  }

  /**
   * The libgpiod core.  `requested` is whether awg_init obtained both line
   * requests (`g_data_req && g_wen_req`); `vals` is the shared 32-entry
   * value buffer g_vals32 that each word is mapped into before it is set.
   */
  class GpiodCore {
    var requested: bool
    var vals: array<bool>
    var dataWrites: seq<seq<bool>>
    var wenWrites: seq<bool>

    ghost predicate Valid()
      reads this
    {
      vals.Length == 32
    }

    constructor (requested: bool)
      ensures Valid() && fresh(vals)
      ensures this.requested == requested && dataWrites == [] && wenWrites == []
    {
      this.requested := requested;
      vals := new bool[32];
      dataWrites := [];
      wenWrites := [];
    }

    /** `map_word_to_values`: line i ACTIVE exactly when bit i of w is set. */
    method MapWordToValues(w: Word)
      requires Valid()
      modifies vals
      ensures vals[..] == WordToLines(w)
    {
      var i := 0;
      while i < 32
        invariant 0 <= i <= 32
        invariant forall j :: 0 <= j < i ==> vals[j] == BitSet(w, j)
      {
        vals[i] := BitSet(w, i);
        i := i + 1;
      }
    }

    /** `write_word32` then `wen_edge`: the line values of w are set, then
      * WEN goes to the active level and back. */
    method Emit(w: Word)
      requires Valid()
      modifies this, vals
      ensures Valid() && vals == old(vals) && requested == old(requested)
      ensures dataWrites == old(dataWrites) + [WordToLines(w)]
      ensures wenWrites == old(wenWrites) + Strobes(DefWenActiveHigh, 1)
    {
      MapWordToValues(w);
      dataWrites := dataWrites + [vals[..]];
      wenWrites := wenWrites + [DefWenActiveHigh, !DefWenActiveHigh];
    }

    method SendIndexBlock(ch: int, s: seq<Byte>)
      requires Valid() && IdxBlock(s)
      modifies this, vals
      ensures Valid() && vals == old(vals) && requested == old(requested)
      ensures dataWrites == old(dataWrites) + LinesOf(IndexWords(ch, s))
      ensures wenWrites == old(wenWrites) + Strobes(DefWenActiveHigh, 8)
    {
      ghost var ws := IndexWords(ch, s);
      var t := 0;
      while t < 8
        invariant 0 <= t <= 8
        invariant Valid() && vals == old(vals) && requested == old(requested)
        invariant dataWrites == old(dataWrites) + LinesOf(ws[..t])
        invariant wenWrites == old(wenWrites) + Strobes(DefWenActiveHigh, t)
      {
        var word := IndexWordAt(ch, s, t);
        ghost var d, w := dataWrites, wenWrites;
        LinesStep(old(dataWrites), old(wenWrites), ws, t, d, w);
        Emit(word);
        t := t + 1;
      }
      assert ws[..8] == ws;
    }

    method SendGainBlock(ch: int, s: seq<Byte>)
      requires Valid() && GainBlock(s)
      modifies this, vals
      ensures Valid() && vals == old(vals) && requested == old(requested)
      ensures dataWrites == old(dataWrites) + LinesOf(GainWords(ch, s))
      ensures wenWrites == old(wenWrites) + Strobes(DefWenActiveHigh, 8)
    {
      ghost var ws := GainWords(ch, s);
      var t := 0;
      while t < 8
        invariant 0 <= t <= 8
        invariant Valid() && vals == old(vals) && requested == old(requested)
        invariant dataWrites == old(dataWrites) + LinesOf(ws[..t])
        invariant wenWrites == old(wenWrites) + Strobes(DefWenActiveHigh, t)
      {
        var word := GainWordAt(ch, s, t);
        ghost var d, w := dataWrites, wenWrites;
        LinesStep(old(dataWrites), old(wenWrites), ws, t, d, w);
        Emit(word);
        t := t + 1;
      }
      assert ws[..8] == ws;
    }

    /** `awg_send_hex4` of the libgpiod core: the same guards and the same
      * 33 words as the mmap cores, driven onto the lines. */
    method SendHex4(idxA: Option<seq<Byte>>, gainA: Option<seq<Byte>>, idxB: Option<seq<Byte>>, gainB: Option<seq<Byte>>)
      returns (rc: int)
      requires Valid()
      requires requested && idxA.Some? && gainA.Some? && idxB.Some? && gainB.Some? ==>
        IdxBlock(idxA.value) && GainBlock(gainA.value) && IdxBlock(idxB.value) && GainBlock(gainB.value)
      modifies this, vals
      ensures Valid() && vals == old(vals) && requested == old(requested)
      ensures !old(requested) ==> rc == -1
      ensures old(requested) && (idxA.None? || gainA.None? || idxB.None? || gainB.None?) ==> rc == -2
      ensures rc == 0 <==> old(requested) && idxA.Some? && gainA.Some? && idxB.Some? && gainB.Some?
      ensures rc != 0 ==> dataWrites == old(dataWrites) && wenWrites == old(wenWrites)
      ensures rc == 0 ==>
        dataWrites == old(dataWrites) + LinesOf(Hex4Words(idxA.value, gainA.value, idxB.value, gainB.value)) &&
        wenWrites == old(wenWrites) + Strobes(DefWenActiveHigh, 33)
    {
      if !requested {
        return -1;
      }
      if idxA.None? || gainA.None? || idxB.None? || gainB.None? {
        return -2;
      }
      var iA, gA, iB, gB := idxA.value, gainA.value, idxB.value, gainB.value;
      ghost var d0, w0 := dataWrites, wenWrites;
      var st := Strobes(DefWenActiveHigh, 8);
      SendIndexBlock(0, iA);
      SendGainBlock(0, gA);
      assert dataWrites == d0 + LinesOf(IndexWords(0, iA)) + LinesOf(GainWords(0, gA));
      assert wenWrites == w0 + st + st;
      SendIndexBlock(1, iB);
      SendGainBlock(1, gB);
      assert dataWrites == d0 + LinesOf(IndexWords(0, iA)) + LinesOf(GainWords(0, gA))
        + LinesOf(IndexWords(1, iB)) + LinesOf(GainWords(1, gB));
      assert wenWrites == w0 + st + st + st + st;
      Emit(CommitWord);
      LinesOfHex4(iA, gA, iB, gB);
      Strobes33();
      Concat5(d0, LinesOf(IndexWords(0, iA)), LinesOf(GainWords(0, gA)), LinesOf(IndexWords(1, iB)),
        LinesOf(GainWords(1, gB)), [WordToLines(CommitWord)]);
      Concat5(w0, st, st, st, st, Strobes(DefWenActiveHigh, 1));
      rc := 0;
    }
  }
}
