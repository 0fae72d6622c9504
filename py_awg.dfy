/**
 * The Python GPIO cores: `build_words` and `send_words` of `awg_core.py`,
 * `send_awg_table` of the CGI `awg_apply.py`, and the two request paths
 * that feed them (`_apply_payload` of the Flask server and the CGI main).
 * The GPIO requests are a `LineBus` that records every `set_values`.
 */
module PyAwg {
  import opened Wrappers
  import opened Words
  import opened ControlWord
  import opened GpioLines
  import opened HexCodec
  import opened PyForms
  import PyText

  /** Eight words of one command for one channel, tone t carrying vals[t]. */
  function BlockWords(cmd: int, ch: int, vals: seq<int>): (r: seq<Word>)
    requires |vals| >= 8
    ensures |r| == 8
    ensures forall t :: 0 <= t < 8 ==> r[t] == Pack(cmd, ch, t, vals[t])
  {
    seq(8, t requires 0 <= t < 8 => Pack(cmd, ch, t, vals[t]))
  }

  /** The 32 table words: A index, A gain, B index, B gain, tones 0..7 each. */
  function TableWords(idxA: seq<int>, gainA: seq<int>, idxB: seq<int>, gainB: seq<int>): (r: seq<Word>)
    requires |idxA| >= 8 && |gainA| >= 8 && |idxB| >= 8 && |gainB| >= 8
    ensures |r| == 32
  {
    BlockWords(CmdIndex, 0, idxA) + BlockWords(CmdGain, 0, gainA) +
    BlockWords(CmdIndex, 1, idxB) + BlockWords(CmdGain, 1, gainB)
  }

  /** One `for t in range(8): words.append(make_*_word(ch, t, vals[t]))`. */
  method AppendBlock(words: seq<Word>, cmd: int, ch: int, vals: seq<int>) returns (r: seq<Word>)
    requires |vals| >= 8
    ensures r == words + BlockWords(cmd, ch, vals)
  {
    r := words;
    var t := 0;
    while t < 8
      invariant 0 <= t <= 8
      invariant |r| == |words| + t
      invariant r[..|words|] == words
      invariant forall k :: 0 <= k < t ==> r[|words| + k] == Pack(cmd, ch, k, vals[k])
    {
      r := r + [Pack(cmd, ch, t, vals[t])];
      t := t + 1;
    }
  }

  /** `build_words`: the four blocks in order. */
  method BuildWords(idxA: seq<int>, gainA: seq<int>, idxB: seq<int>, gainB: seq<int>) returns (words: seq<Word>)
    requires |idxA| >= 8 && |gainA| >= 8 && |idxB| >= 8 && |gainB| >= 8
    ensures words == TableWords(idxA, gainA, idxB, gainB)
  {
    words := AppendBlock([], CmdIndex, 0, idxA);
    words := AppendBlock(words, CmdGain, 0, gainA);
    words := AppendBlock(words, CmdIndex, 1, idxB);
    words := AppendBlock(words, CmdGain, 1, gainB);
  }

  /** Tone `t` of block `b` (0 A index, 1 A gain, 2 B index, 3 B gain) is
    * word `8 * b + t` of the table. */
  lemma TableWordAt(idxA: seq<int>, gainA: seq<int>, idxB: seq<int>, gainB: seq<int>, b: nat, t: nat)
    requires |idxA| >= 8 && |gainA| >= 8 && |idxB| >= 8 && |gainB| >= 8
    requires b < 4 && t < 8
    ensures var vals := if b == 0 then idxA else if b == 1 then gainA else if b == 2 then idxB else gainB;
      var cmd := if b % 2 == 0 then CmdIndex else CmdGain;
      TableWords(idxA, gainA, idxB, gainB)[8 * b + t] == Pack(cmd, b / 2, t, vals[t])
  {
    var b0, b1 := BlockWords(CmdIndex, 0, idxA), BlockWords(CmdGain, 0, gainA);
    var b2, b3 := BlockWords(CmdIndex, 1, idxB), BlockWords(CmdGain, 1, gainB);
    var r := TableWords(idxA, gainA, idxB, gainB);
    assert r == b0 + b1 + b2 + b3;
    if b == 0 {
      assert r[t] == b0[t];
    } else if b == 1 {
      assert r[8 + t] == b1[t];
    } else if b == 2 {
      assert r[16 + t] == b2[t];
    } else {
      assert r[24 + t] == b3[t];
    }
  }

  /** Every table word carries its block's command and channel, its tone,
    * zero reserved bits and its value masked to 20 bits. */
  lemma TableWordsFields(idxA: seq<int>, gainA: seq<int>, idxB: seq<int>, gainB: seq<int>, b: nat, t: nat)
    requires |idxA| >= 8 && |gainA| >= 8 && |idxB| >= 8 && |gainB| >= 8
    requires b < 4 && t < 8
    ensures var w := TableWords(idxA, gainA, idxB, gainB)[8 * b + t];
      var vals := if b == 0 then idxA else if b == 1 then gainA else if b == 2 then idxB else gainB;
      CmdOf(w) == (if b % 2 == 0 then CmdIndex else CmdGain) &&
      ChOf(w) == b / 2 && ToneOf(w) == t && ReservedOf(w) == 0 &&
      DataOf(w) == vals[t] % DataMod
  {
    var vals := if b == 0 then idxA else if b == 1 then gainA else if b == 2 then idxB else gainB;
    var cmd := if b % 2 == 0 then CmdIndex else CmdGain;
    TableWordAt(idxA, gainA, idxB, gainB, b, t);
    UnpackPack(cmd, b / 2, t, vals[t]);
  }

  /** The index values of an index block, tone by tone. */
  function IdxValues(s: seq<Byte>): (r: seq<int>)
    requires IdxBlock(s)
    ensures |r| == 8
  {
    seq(8, t requires 0 <= t < 8 => Idx3(s[3 * t..]))
  }

  function GainValues(s: seq<Byte>): (r: seq<int>)
    requires GainBlock(s)
    ensures |r| == 8
  {
    seq(8, t requires 0 <= t < 8 => Gain18Low5(s[18 * t..]))
  }

  /** The Python table and the C hex path agree: the C core's 33 words for
    * four hex blocks are the Python table of the blocks' values, then the
    * commit. */
  lemma TableMatchesHex4(idxA: seq<Byte>, gainA: seq<Byte>, idxB: seq<Byte>, gainB: seq<Byte>)
    requires IdxBlock(idxA) && GainBlock(gainA) && IdxBlock(idxB) && GainBlock(gainB)
    ensures Hex4Words(idxA, gainA, idxB, gainB) ==
      TableWords(IdxValues(idxA), GainValues(gainA), IdxValues(idxB), GainValues(gainB)) + [CommitWord]
  {
    IndexBlockMatches(0, idxA);
    GainBlockMatches(0, gainA);
    IndexBlockMatches(1, idxB);
    GainBlockMatches(1, gainB);
  }

  lemma IndexBlockMatches(ch: int, s: seq<Byte>)
    requires IdxBlock(s)
    ensures IndexWords(ch, s) == BlockWords(CmdIndex, ch, IdxValues(s))
  {
    forall t | 0 <= t < 8
      ensures IndexWords(ch, s)[t] == BlockWords(CmdIndex, ch, IdxValues(s))[t]
    {
      ModTwice(Idx3(s[3 * t..]));
    }
  }

  lemma GainBlockMatches(ch: int, s: seq<Byte>)
    requires GainBlock(s)
    ensures GainWords(ch, s) == BlockWords(CmdGain, ch, GainValues(s))
  {
    forall t | 0 <= t < 8
      ensures GainWords(ch, s)[t] == BlockWords(CmdGain, ch, GainValues(s))[t]
    {
      ModTwice(Gain18Low5(s[18 * t..]));
    }
  }

  lemma ModTwice(v: int)
    ensures (v % DataMod) % DataMod == v % DataMod
  {
  }

  /** What `send_words` leaves latched: the words, then the commit when
    * asked for. */
  function SentWords(words: seq<Word>, doCommit: bool): (r: seq<Word>)
    ensures |r| == |words| + (if doCommit then 1 else 0)
  {
    words + (if doCommit then [CommitWord] else [])
  }

  /** `_write_word` then `_wen_edge`: one word latched by one strobe, on top
    * of the words `sent` since the bus held `latched0` and `wen0`. */
  method Strobe(bus: LineBus, w: Word, activeHigh: bool, ghost sent: seq<nat>, ghost latched0: seq<nat>, ghost wen0: seq<bool>)
    requires bus.Latched() == latched0 + sent && bus.wenWrites == wen0 + Strobes(activeHigh, |sent|)
    modifies bus
    ensures bus.Latched() == latched0 + (sent + [w])
    ensures bus.wenWrites == wen0 + Strobes(activeHigh, |sent| + 1)
  {
    bus.WriteWord(w);
    ghost var latched := bus.Latched();
    bus.WenEdge(activeHigh);
    assert bus.Latched() == latched;
  }

  /** `send_words(words, do_commit, wen_active_high)`: each word written
    * and strobed, the commit after them when asked for; returns how many
    * words went out. */
  method SendWords(bus: LineBus, words: seq<Word>, doCommit: bool, activeHigh: bool) returns (count: nat)
    modifies bus
    ensures bus.Latched() == old(bus.Latched()) + SentWords(words, doCommit)
    ensures bus.wenWrites == old(bus.wenWrites) + Strobes(activeHigh, count)
    ensures count == |SentWords(words, doCommit)|
  {
    ghost var latched0, wen0 := bus.Latched(), bus.wenWrites;
    var i := 0;
    while i < |words|
      invariant 0 <= i <= |words|
      invariant bus.Latched() == latched0 + words[..i]
      invariant bus.wenWrites == wen0 + Strobes(activeHigh, i)
    {
      Strobe(bus, words[i], activeHigh, words[..i], latched0, wen0);
      assert words[..i + 1] == words[..i] + [words[i]];
      i := i + 1;
    }
    assert words[..|words|] == words;
    if doCommit {
      Strobe(bus, CommitWord, activeHigh, words, latched0, wen0);
    }
    count := |words| + (if doCommit then 1 else 0);
  }

  /** One block of `send_awg_table`: eight words built, recorded, written
    * and strobed. */
  method SendBlock(bus: LineBus, words: seq<Word>, cmd: int, ch: int, vals: seq<int>, activeHigh: bool,
                   ghost latched0: seq<nat>, ghost wen0: seq<bool>)
    returns (r: seq<Word>)
    requires |vals| >= 8
    requires bus.Latched() == latched0 + words && bus.wenWrites == wen0 + Strobes(activeHigh, |words|)
    modifies bus
    ensures r == words + BlockWords(cmd, ch, vals)
    ensures bus.Latched() == latched0 + r && bus.wenWrites == wen0 + Strobes(activeHigh, |r|)
  {
    r := words;
    var t := 0;
    while t < 8
      invariant 0 <= t <= 8
      invariant r == words + BlockWords(cmd, ch, vals)[..t]
      invariant bus.Latched() == latched0 + r && bus.wenWrites == wen0 + Strobes(activeHigh, |r|)
    {
      var w := Pack(cmd, ch, t, vals[t]);
      assert BlockWords(cmd, ch, vals)[..t + 1] == BlockWords(cmd, ch, vals)[..t] + [w];
      Strobe(bus, w, activeHigh, r, latched0, wen0);
      r := r + [w];
      t := t + 1;
    }
    assert BlockWords(cmd, ch, vals)[..8] == BlockWords(cmd, ch, vals);
  }

  /** `send_awg_table`: the four blocks and the commit, each word written
    * and strobed as it is built; returns the 33 words.  With a negative
    * pulse width the first `wen_pulse` raises: only the first index word
    * is latched, WEN stays at its active level, and `raised` is set. */
  method SendAwgTable(bus: LineBus, activeHigh: bool, wenUs: int,
                      idxA: seq<int>, gainA: seq<int>, idxB: seq<int>, gainB: seq<int>)
    returns (words: seq<Word>, raised: bool)
    requires |idxA| >= 8 && |gainA| >= 8 && |idxB| >= 8 && |gainB| >= 8
    modifies bus
    ensures raised == (wenUs < 0)
    ensures !raised ==> words == TableWords(idxA, gainA, idxB, gainB) + [CommitWord]
    ensures raised ==> words == TableWords(idxA, gainA, idxB, gainB)[..1]
    ensures bus.Latched() == old(bus.Latched()) + words
    ensures !raised ==> bus.wenWrites == old(bus.wenWrites) + Strobes(activeHigh, 33)
    ensures raised ==> bus.wenWrites == old(bus.wenWrites) + [activeHigh]
  {
    if wenUs < 0 {
      var w := Pack(CmdIndex, 0, 0, idxA[0]);
      TableWordAt(idxA, gainA, idxB, gainB, 0, 0);
      bus.WriteWord(w);
      raised := bus.WenPulse(activeHigh, wenUs);
      words := [w];
      return;
    }
    raised := false;
    ghost var latched0, wen0 := bus.Latched(), bus.wenWrites;
    assert latched0 + [] == latched0 && wen0 + Strobes(activeHigh, 0) == wen0;
    words := SendBlock(bus, [], CmdIndex, 0, idxA, activeHigh, latched0, wen0);
    words := SendBlock(bus, words, CmdGain, 0, gainA, activeHigh, latched0, wen0);
    words := SendBlock(bus, words, CmdIndex, 1, idxB, activeHigh, latched0, wen0);
    words := SendBlock(bus, words, CmdGain, 1, gainB, activeHigh, latched0, wen0);
    Strobe(bus, CommitWord, activeHigh, words, latched0, wen0);
    words := words + [CommitWord];
  }

  /** The gains the table is built from: the integer lists, or on the float
    * path the converted float lists, given as `floatGains`. It is `None` when
    * the conversion raises. On the CGI path that is a token `float()`
    * refuses, or a NaN that `int()` refuses in `gain_f_to_q17`. On the
    * payload path `normalize_list` replaces a refused token with 0.0, so only
    * a NaN reaching `int()` gives `None`. */
  function GainsOf(t: Tables, floatGains: Option<(seq<int>, seq<int>)>): Option<(seq<int>, seq<int>)>
  {
    match t
    case Tables(_, gA, _, gB) => Some((gA, gB))
    case FloatGainTables(_, _) => floatGains
  }

  predicate EightGains(floatGains: Option<(seq<int>, seq<int>)>)
  {
    floatGains.Some? ==> |floatGains.value.0| == 8 && |floatGains.value.1| == 8
  }

  /** The words `_apply_payload` latches: the table and the commit, or
    * `None` when it raises before the first write. */
  function PayloadWords(payload: map<string, Value>, floatGains: Option<(seq<int>, seq<int>)>): Option<seq<Word>>
    requires EightGains(floatGains)
  {
    var t := PayloadTables(payload);
    var g := GainsOf(t, floatGains);
    if PayloadPulse(payload).None? || g.None? then None
    else
      PayloadDefaults(payload);
      Some(TableWords(t.idxA, g.value.0, t.idxB, g.value.1) + [CommitWord])
  }

  /** The CGI main gets as far as `send_awg_table`: every integer field
    * parses and, on the float path, the gains convert. */
  predicate FormSends(form: map<string, string>, floatGains: Option<(seq<int>, seq<int>)>)
  {
    FormTables(form).Some? && GainsOf(FormTables(form).value, floatGains).Some?
  }

  /** The pulse width the CGI main passes to `send_awg_table`. */
  function FormPulse(form: map<string, string>): int
    requires FormTables(form).Some?
  {
    FormInt(form, "wen_pulse_us", DefWenUs).value
  }

  /** The table and commit the CGI main builds once it gets that far. */
  function FormTable(form: map<string, string>, floatGains: Option<(seq<int>, seq<int>)>): (r: seq<Word>)
    requires EightGains(floatGains) && FormSends(form, floatGains)
    ensures |r| == 33
  {
    var t := FormTables(form).value;
    var g := GainsOf(t, floatGains).value;
    FormDefaults(form);
    TableWords(t.idxA, g.0, t.idxB, g.1) + [CommitWord]
  }

  /** The words of the CGI's ok reply, or `None` for the error reply: a
    * field that fails to parse, or a negative pulse width that makes the
    * first `wen_pulse` raise. */
  function FormWords(form: map<string, string>, floatGains: Option<(seq<int>, seq<int>)>): Option<seq<Word>>
    requires EightGains(floatGains)
  {
    if !FormSends(form, floatGains) || FormPulse(form) < 0 then None
    else Some(FormTable(form, floatGains))
  }

  /** The words the bus latches: nothing when a field fails to parse, the
    * first index word alone when the first pulse raises, else the table. */
  function FormLatched(form: map<string, string>, floatGains: Option<(seq<int>, seq<int>)>): seq<Word>
    requires EightGains(floatGains)
  {
    if !FormSends(form, floatGains) then []
    else if FormPulse(form) < 0 then FormTable(form, floatGains)[..1]
    else FormTable(form, floatGains)
  }

  /** A payload is applied exactly when its pulse width reads as an integer
    * and, on the float path, the gains convert; what is applied is 33 words
    * ending in the commit, the index words first. */
  lemma PayloadWordsMeaning(payload: map<string, Value>, floatGains: Option<(seq<int>, seq<int>)>)
    requires EightGains(floatGains)
    ensures PayloadWords(payload, floatGains).Some? <==>
      PayloadPulse(payload).Some? && (("gainA_f" in payload || "gainB_f" in payload) ==> floatGains.Some?)
    ensures PayloadWords(payload, floatGains).Some? ==>
      var w := PayloadWords(payload, floatGains).value;
      |w| == 33 && w[32] == CommitWord &&
      forall t :: 0 <= t < 8 ==> w[t] == MakeIndexWord(0, t, PayloadTables(payload).idxA[t])
  {
    PayloadDefaults(payload);
    if PayloadWords(payload, floatGains).Some? {
      var t := PayloadTables(payload);
      var g := GainsOf(t, floatGains).value;
      forall k | 0 <= k < 8
        ensures PayloadWords(payload, floatGains).value[k] == MakeIndexWord(0, k, t.idxA[k])
      {
        TableWordAt(t.idxA, g.0, t.idxB, g.1, 0, k);
      }
    }
  }

  /** `{"wen_pulse_us": "x"}` raises in `int()` before any word is written. */
  lemma BadPulseWritesNothing(floatGains: Option<(seq<int>, seq<int>)>)
    requires EightGains(floatGains)
    ensures PayloadWords(map["wen_pulse_us" := StrValue(['x'])], floatGains).None?
  {
    var p := map["wen_pulse_us" := StrValue(['x'])];
    assert p == map[][ "wen_pulse_us" := StrValue(['x'])];
    PayloadIntText(map[], "wen_pulse_us", DefWenUs, 0);
  }

  /** `{"wen_pulse_us": {}}`: the empty object is false, so `int({} or 1)`
    * reads the default and the table is applied; a non-empty object raises. */
  lemma EmptyObjectPulseApplies(floatGains: Option<(seq<int>, seq<int>)>)
    requires EightGains(floatGains)
    ensures PayloadWords(map["wen_pulse_us" := DictValue(true)], floatGains).Some?
    ensures PayloadWords(map["wen_pulse_us" := DictValue(false)], floatGains).None?
  {
    var p := map["wen_pulse_us" := DictValue(true)];
    var q := map["wen_pulse_us" := DictValue(false)];
    assert p == map[]["wen_pulse_us" := DictValue(true)];
    assert q == map[]["wen_pulse_us" := DictValue(false)];
    PayloadIntMeaning(map[], "wen_pulse_us", DefWenUs, 0);
    PayloadWordsMeaning(p, floatGains);
    PayloadWordsMeaning(q, floatGains);
  }

  /** The CGI replies ok exactly when every integer field parses, the pulse
    * width is not negative and, on the float path, the gains convert; the
    * bus then latches the 33 words of the reply.  A bad `wen_offset` latches
    * nothing, and a failure that leaves a word latched is a negative pulse
    * width, which latches the A tone-0 index word alone. */
  lemma FormWordsMeaning(form: map<string, string>, floatGains: Option<(seq<int>, seq<int>)>)
    requires EightGains(floatGains)
    ensures FormWords(form, floatGains).Some? <==>
      FormTables(form).Some? && (("gainA_f" in form || "gainB_f" in form) ==> floatGains.Some?) &&
      FormInt(form, "wen_pulse_us", DefWenUs).value >= 0
    ensures FormWords(form, floatGains).Some? ==>
      |FormWords(form, floatGains).value| == 33 && FormLatched(form, floatGains) == FormWords(form, floatGains).value
    ensures FormWords(form, floatGains).None? && FormLatched(form, floatGains) != [] ==>
      FormInt(form, "wen_pulse_us", DefWenUs).value < 0 &&
      FormLatched(form, floatGains) == [MakeIndexWord(0, 0, FormTables(form).value.idxA[0])]
    ensures FormWords(map["wen_offset" := ['x']], floatGains).None?
    ensures FormLatched(map["wen_offset" := ['x']], floatGains) == []
  {
    if FormTables(form).Some? {
      FormDefaults(form);
      if FormSends(form, floatGains) {
        FormTableFirstWord(form, floatGains);
      }
    }
    BadOffsetLatchesNothing(floatGains);
  }

  /** The first word of the CGI's table is the A tone-0 index word. */
  lemma FormTableFirstWord(form: map<string, string>, floatGains: Option<(seq<int>, seq<int>)>)
    requires EightGains(floatGains) && FormSends(form, floatGains)
    ensures FormTable(form, floatGains)[0] == MakeIndexWord(0, 0, FormTables(form).value.idxA[0])
  {
    var t := FormTables(form).value;
    var g := GainsOf(t, floatGains).value;
    FormDefaults(form);
    TableWordAt(t.idxA, g.0, t.idxB, g.1, 0, 0);
  }

  /** `wen_offset=x` makes `int()` raise before the line request: the error
    * reply, with nothing latched. */
  lemma BadOffsetLatchesNothing(floatGains: Option<(seq<int>, seq<int>)>)
    requires EightGains(floatGains)
    ensures FormWords(map["wen_offset" := ['x']], floatGains).None?
    ensures FormLatched(map["wen_offset" := ['x']], floatGains) == []
  {
    var bad := map["wen_offset" := ['x']];
    assert bad == map[]["wen_offset" := ['x']];
    FormIntMeaning(map[], "wen_offset", DefWenOffset, 0);
  }

  /** A form whose only field is a negative `wen_pulse_us` gets the error
    * reply after the bus latched one index word (channel 0, tone 0, the
    * default index 0). */
  lemma NegativePulseLatchesOneWord(x: int, floatGains: Option<(seq<int>, seq<int>)>)
    requires x < 0 && EightGains(floatGains)
    ensures var form := map["wen_pulse_us" := PyText.DecStr(x)];
      FormWords(form, floatGains).None? && FormLatched(form, floatGains) == [MakeIndexWord(0, 0, 0)]
  {
    var form := map["wen_pulse_us" := PyText.DecStr(x)];
    assert form == map[]["wen_pulse_us" := PyText.DecStr(x)];
    FormIntMeaning(map[], "wen_pulse_us", DefWenUs, x);
    assert FormTables(form).Some?;
    FormDefaults(form);
    FormWordsMeaning(form, floatGains);
  }

  /** `_apply_payload`: the pulse width read, the lists normalised, the
    * words built and sent with the commit; nothing is written when it
    * raises first. */
  method ApplyPayload(bus: LineBus, payload: map<string, Value>, floatGains: Option<(seq<int>, seq<int>)>)
    requires EightGains(floatGains)
    modifies bus
    ensures PayloadWords(payload, floatGains).None? ==>
      bus.Latched() == old(bus.Latched()) && bus.wenWrites == old(bus.wenWrites)
    ensures PayloadWords(payload, floatGains).Some? ==>
      bus.Latched() == old(bus.Latched()) + PayloadWords(payload, floatGains).value &&
      bus.wenWrites == old(bus.wenWrites) + Strobes(PayloadWenActiveHigh(payload), 33)
  {
    var acthi := AsBool(if "wen_active" in payload then payload["wen_active"] else IntValue(1), true);
    var pulse := PayloadPulse(payload);
    if pulse.None? {
      return;
    }
    var idxA := NormalizeList(Get(payload, "idxA"), 8, 0);
    var idxB := NormalizeList(Get(payload, "idxB"), 8, 8);
    var gainA, gainB;
    if "gainA_f" in payload || "gainB_f" in payload {
      if floatGains.None? {
        PayloadFloatFails(payload, floatGains);
        return;
      }
      gainA, gainB := floatGains.value.0, floatGains.value.1;
    } else {
      gainA := NormalizeList(Get(payload, "gainA"), 8, 0);
      gainB := NormalizeList(Get(payload, "gainB"), 8, 0);
    }
    PayloadWordsOf(payload, floatGains, idxA, gainA, idxB, gainB);
    var words := BuildWords(idxA, gainA, idxB, gainB);
    var sent := SendWords(bus, words, true, acthi);
  }

  lemma PayloadFloatFails(payload: map<string, Value>, floatGains: Option<(seq<int>, seq<int>)>)
    requires EightGains(floatGains)
    requires ("gainA_f" in payload || "gainB_f" in payload) && floatGains.None?
    ensures PayloadWords(payload, floatGains).None?
  {
  }

  /** The lists `_apply_payload` builds are the ones its words come from. */
  lemma PayloadWordsOf(payload: map<string, Value>, floatGains: Option<(seq<int>, seq<int>)>,
                       idxA: seq<int>, gainA: seq<int>, idxB: seq<int>, gainB: seq<int>)
    requires EightGains(floatGains) && PayloadPulse(payload).Some?
    requires idxA == NormalizedOf(Get(payload, "idxA"), 8, 0) && idxB == NormalizedOf(Get(payload, "idxB"), 8, 8)
    requires if "gainA_f" in payload || "gainB_f" in payload then floatGains == Some((gainA, gainB))
      else gainA == NormalizedOf(Get(payload, "gainA"), 8, 0) && gainB == NormalizedOf(Get(payload, "gainB"), 8, 0)
    ensures |idxA| == 8 && |gainA| == 8 && |idxB| == 8 && |gainB| == 8
    ensures PayloadWords(payload, floatGains) == Some(TableWords(idxA, gainA, idxB, gainB) + [CommitWord])
  {
  }

  /** The CGI main up to the JSON reply: `None` (the error reply) when a
    * field fails to parse, and then nothing is written, or when the first
    * pulse raises, after one word; otherwise the 33 words sent. */
  method ApplyForm(bus: LineBus, form: map<string, string>, floatGains: Option<(seq<int>, seq<int>)>)
    returns (sent: Option<seq<Word>>)
    requires EightGains(floatGains)
    modifies bus
    ensures sent == FormWords(form, floatGains)
    ensures bus.Latched() == old(bus.Latched()) + FormLatched(form, floatGains)
    ensures !FormSends(form, floatGains) ==> bus.wenWrites == old(bus.wenWrites)
    ensures FormSends(form, floatGains) && sent.None? ==> bus.wenWrites == old(bus.wenWrites) + [FormWenActiveHigh(form)]
    ensures sent.Some? ==> bus.wenWrites == old(bus.wenWrites) + Strobes(FormWenActiveHigh(form), 33)
  {
    var acthi := "wen_active" !in form || PyText.Strip(form["wen_active"]) !in {"0", "false", "False"};
    var wenOff := FormInt(form, "wen_offset", DefWenOffset);
    var wenUs := FormInt(form, "wen_pulse_us", DefWenUs);
    if wenOff.None? || wenUs.None? {
      return None;
    }
    var idxA := ToIntList(FormGet(form, "idxA"), 8, 0);
    if idxA.None? {
      return None;
    }
    var idxB := ToIntList(FormGet(form, "idxB"), 8, 8);
    if idxB.None? {
      return None;
    }
    var gainA, gainB;
    if "gainA_f" in form || "gainB_f" in form {
      if floatGains.None? {
        return None;
      }
      gainA, gainB := floatGains.value.0, floatGains.value.1;
    } else {
      var ga := ToIntList(FormGet(form, "gainA"), 8, 0);
      if ga.None? {
        return None;
      }
      var gb := ToIntList(FormGet(form, "gainB"), 8, 0);
      if gb.None? {
        return None;
      }
      gainA, gainB := ga.value, gb.value;
    }
    assert FormSends(form, floatGains) && FormPulse(form) == wenUs.value;
    assert FormTable(form, floatGains) == TableWords(idxA.value, gainA, idxB.value, gainB) + [CommitWord];
    var words, raised := SendAwgTable(bus, acthi, wenUs.value, idxA.value, gainA, idxB.value, gainB);
    sent := if raised then None else Some(words);
  }
}
