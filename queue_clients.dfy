/**
 * The Python clients of the queue servers: the `op_*` encoders of the v1
 * and base clients (list id masked to one bit, words to 32 bits) and of the
 * v3 client (no masking, so `struct.pack` may refuse a value), the P batch
 * of the v3 client, `recv_exact`, the v3 notification listener, and the
 * command streams the three `main`s send.  Each encoder is checked against
 * the servers' command parser.
 */
module QueueClients {
  import opened Words
  import opened Wrappers
  import opened ControlWord
  import opened FrameStore
  import opened QueueProtocol
  import Seqs

  /** The demo constants: 1 kHz and 20 kHz indices and Q1.17 full scale. */
  const Idx1k: int := 0x001
  const Idx20k: int := 0x020
  const GainFull: int := 0x1FFFF

  /** `frame_1k()` / `frame_20k()` (`frame_A()` / `frame_B()` in v3): tone 0
    * of channel A at the given index and full gain, then a commit. */
  function DemoFrame(idx: int): (r: seq<Word>)
    ensures |r| == 3
  {
    [MakeIndexWord(0, 0, idx), MakeGainWord(0, 0, GainFull), CommitWord]
  }

  /** Read back, a demo frame is an index word and a gain word for channel 0
    * tone 0, carrying the index and 0x1FFFF, then the commit. */
  lemma DemoFrameFields(idx: int)
    ensures var r := DemoFrame(idx);
      CmdOf(r[0]) == CmdIndex && ChOf(r[0]) == 0 && ToneOf(r[0]) == 0 && DataOf(r[0]) == idx % DataMod &&
      CmdOf(r[1]) == CmdGain && ChOf(r[1]) == 0 && ToneOf(r[1]) == 0 && DataOf(r[1]) == GainFull &&
      r[2] == CommitWord
  {
    UnpackPack(CmdIndex, 0, 0, idx);
    UnpackPack(CmdGain, 0, 0, GainFull);
  }

  /** Frame i of a run that uses `even` at even i and `odd` at odd i. */
  function AltFrame(i: nat, even: int, odd: int): seq<Word>
  {
    if i % 2 == 0 then DemoFrame(even) else DemoFrame(odd)
  }

  /** `struct.pack` of one big-endian unsigned field of n bytes: the bytes,
    * or `struct.error` (None) when x does not fit. */
  function PackBE(x: int, n: nat): (r: Option<seq<Byte>>)
    ensures r.Some? <==> 0 <= x < Pow256(n)
    ensures r.Some? ==> |r.value| == n && FromBE(r.value) == x
  {
    if 0 <= x < Pow256(n) then RoundTripFits(x, n); Some(ToBE(x, n)) else None
  }

  /** `w & 0xFFFFFFFF` for every word. */
  function Mask32(ws: seq<int>): (r: seq<Word>)
    ensures |r| == |ws|
  {
    seq(|ws|, i requires 0 <= i < |ws| => ws[i] % TwoTo32)
  }

  /** The client operations, one per `op_*` function. */
  datatype ClientOp =
    | SendZ
    | SendX
    | SendI(id: int, hint: int)
    | SendB(id: int, total: int)
    | SendP(id: int, words: seq<int>)
    | SendE(id: int)
    | SendT(periodUs: int)
    | SendQ
    | SendS

  /** `max(1, period_us)`. */
  function PeriodSent(p: int): int
  {
    if p < 1 then 1 else p
  }

  /** The bytes the v1 and base clients send for an operation, or None when
    * `struct.pack` refuses a field. */
  function MaskedBytes(op: ClientOp): Option<seq<Byte>>
  {
    match op
    case SendZ => Some([OpReset])
    case SendX => Some([OpAbort])
    case SendI(id, hint) =>
      var f := PackBE(hint, 4);
      if f.None? then None else Some([OpInit, id % 2] + f.value)
    case SendB(id, total) =>
      var f := PackBE(total, 4);
      if f.None? then None else Some([OpBegin, id % 2] + f.value)
    case SendP(id, ws) =>
      var h := PackBE(|ws|, 2);
      if h.None? then None else Some([OpPush, id % 2] + h.value + EncodeWords(Mask32(ws)))
    case SendE(id) => Some([OpEnd, id % 2])
    case SendT(p) =>
      var f := PackBE(PeriodSent(p), 4);
      if f.None? then None else Some([OpPeriod] + f.value)
    case SendQ => Some([OpQuery])
    case SendS => Some([OpStats])
  }

  /** The fields of an operation that `struct.pack` accepts in the masked
    * clients: 32-bit counts and period, at most 65535 words. */
  predicate MaskedFits(op: ClientOp)
  {
    match op
    case SendI(_, hint) => 0 <= hint < TwoTo32
    case SendB(_, total) => 0 <= total < TwoTo32
    case SendP(_, ws) => |ws| < 0x1_0000
    case SendT(p) => PeriodSent(p) < TwoTo32
    case _ => true
  }

  /** The command the server reads from a masked operation: the list id
    * reduced to its low bit, words to 32 bits, the period at least 1. */
  function MaskedCommand(op: ClientOp): (c: Command)
    requires MaskedFits(op)
  {
    match op
    case SendZ => Reset
    case SendX => Abort
    case SendI(id, hint) => InitList(id % 2, hint)
    case SendB(id, total) => Begin(id % 2, total)
    case SendP(id, ws) => Push(id % 2, Mask32(ws))
    case SendE(id) => End(id % 2)
    case SendT(p) => SetPeriod(PeriodSent(p))
    case SendQ => Query
    case SendS => Stats
  }

  /** A masked operation fails exactly when a field does not fit, and
    * otherwise sends the protocol's layout of its command. */
  lemma MaskedEncodes(op: ClientOp)
    ensures MaskedBytes(op).Some? <==> MaskedFits(op)
    ensures MaskedFits(op) ==> MaskedBytes(op).value == Encode(MaskedCommand(op))
  {
    Pow256Widths();
  }

  /** The server reads back the masked command and leaves what follows it;
    * the list id it sees is always 0 or 1 and a period always at least 1. */
  lemma MaskedParses(op: ClientOp, rest: seq<Byte>)
    requires MaskedFits(op)
    requires op.SendP? ==> 1 <= |op.words| <= MaxWordsPerFrame
    ensures ParseCommand(MaskedBytes(op).value + rest) == Parsed(MaskedCommand(op), rest)
    ensures var c := MaskedCommand(op); (c.InitList? || c.Begin? || c.Push? || c.End?) ==> c.id <= 1
    ensures var c := MaskedCommand(op); c.SetPeriod? ==> c.period >= 1
  {
    MaskedEncodes(op);
    ParseEncode(MaskedCommand(op), rest);
  }

  /** A masked P of no words, or of more than 64, is refused on its header. */
  lemma MaskedPushRefused(id: int, ws: seq<int>, rest: seq<Byte>)
    requires |ws| < 0x1_0000 && !(1 <= |ws| <= MaxWordsPerFrame)
    ensures ParseCommand(MaskedBytes(SendP(id, ws)).value + rest) == BadPushHeader
  {
    MaskedEncodes(SendP(id, ws));
    ParseBadPush(id % 2, Mask32(ws), rest);
  }

  /** `b''.join(struct.pack(">I", w) for w in words)` without masking: the
    * payload, or None when a word is negative or wider than 32 bits. */
  function PackWords(ws: seq<int>): (r: Option<seq<Byte>>)
    ensures r.Some? <==> forall i :: 0 <= i < |ws| ==> 0 <= ws[i] < TwoTo32
    ensures r.Some? ==> r.value == EncodeWords(Mask32(ws))
  {
    if ws == [] then Some([])
    else
      var h, t := PackBE(ws[0], 4), PackWords(ws[1..]);
      Pow256Widths();
      Mask32Cons(ws);
      if h.None? || t.None? then None
      else
        var m := Mask32(ws);
        assert h.value == ToBE(m[0], 4);
        assert EncodeWords(m) == ToBE(m[0], 4) + EncodeWords(m[1..]);
        Some(h.value + t.value)
  }

  lemma Mask32Cons(ws: seq<int>)
    requires ws != []
    ensures Mask32(ws) == [ws[0] % TwoTo32] + Mask32(ws[1..])
    ensures (forall i :: 0 <= i < |ws| ==> 0 <= ws[i] < TwoTo32) <==>
      0 <= ws[0] < TwoTo32 && forall i :: 0 <= i < |ws| - 1 ==> 0 <= ws[1..][i] < TwoTo32
  {
    assert forall i :: 1 <= i < |ws| ==> ws[i] == ws[1..][i - 1];
  }

  /** The operations of the v3 client. */
  predicate V3Op(op: ClientOp)
  {
    op.SendZ? || op.SendB? || op.SendP? || op.SendE?
  }

  /** The bytes the v3 client sends: the same layouts with nothing masked. */
  function PlainBytes(op: ClientOp): Option<seq<Byte>>
    requires V3Op(op)
  {
    match op
    case SendZ => Some([OpReset])
    case SendB(id, total) =>
      var i, f := PackBE(id, 1), PackBE(total, 4);
      if i.None? || f.None? then None else Some([OpBegin] + i.value + f.value)
    case SendP(id, ws) =>
      var p, i, h := PackWords(ws), PackBE(id, 1), PackBE(|ws|, 2);
      if p.None? || i.None? || h.None? then None else Some([OpPush] + i.value + h.value + p.value)
    case SendE(id) =>
      var i := PackBE(id, 1);
      if i.None? then None else Some([OpEnd] + i.value)
  }

  /** The v3 fields `struct.pack` accepts: a byte id, a 32-bit total, 32-bit
    * words, at most 65535 of them. */
  predicate PlainFits(op: ClientOp)
  {
    match op
    case SendB(id, total) => 0 <= id < 0x100 && 0 <= total < TwoTo32
    case SendP(id, ws) =>
      0 <= id < 0x100 && |ws| < 0x1_0000 && forall i :: 0 <= i < |ws| ==> 0 <= ws[i] < TwoTo32
    case SendE(id) => 0 <= id < 0x100
    case _ => true
  }

  /** The command the server reads from a v3 operation: the fields as given. */
  function PlainCommand(op: ClientOp): Command
    requires V3Op(op) && PlainFits(op)
  {
    match op
    case SendZ => Reset
    case SendB(id, total) => Begin(id, total)
    case SendP(id, ws) => Push(id, Mask32(ws))
    case SendE(id) => End(id)
  }

  /** `struct.pack(">B", x)` of a byte is that byte. */
  lemma PackByte(x: int)
    requires 0 <= x < 0x100
    ensures PackBE(x, 1) == Some([x])
  {
    assert ToBE(x, 1) == ToBE(x / 256, 0) + [x % 256];
  }

  /** A v3 operation fails exactly when a field does not fit; otherwise it
    * sends the protocol's layout of the unmasked command. */
  lemma PlainEncodes(op: ClientOp)
    requires V3Op(op)
    ensures PlainBytes(op).Some? <==> PlainFits(op)
    ensures PlainFits(op) ==> PlainBytes(op).value == Encode(PlainCommand(op))
  {
    Pow256Widths();
    match op
    case SendB(id, total) =>
      if PlainFits(op) {
        PackByte(id);
      }
    case SendP(id, ws) =>
      PlainPushEncodes(id, ws);
    case SendE(id) =>
      if PlainFits(op) {
        PackByte(id);
      }
    case SendZ =>
  }

  lemma PlainPushEncodes(id: int, ws: seq<int>)
    ensures PlainBytes(SendP(id, ws)).Some? <==> PlainFits(SendP(id, ws))
    ensures PlainFits(SendP(id, ws)) ==> PlainBytes(SendP(id, ws)).value == Encode(PlainCommand(SendP(id, ws)))
  {
    Pow256Widths();
    if PlainFits(SendP(id, ws)) {
      PackByte(id);
    }
  }

  /** Unmasked words that fit are sent unchanged. */
  lemma Mask32Fits(ws: seq<int>)
    requires forall i :: 0 <= i < |ws| ==> 0 <= ws[i] < TwoTo32
    ensures Mask32(ws) == ws
  {
  }

  /** The server reads the v3 command back with the id as sent; a P to a
    * list other than 0 or 1 is refused on its header. */
  lemma PlainParses(op: ClientOp, rest: seq<Byte>)
    requires V3Op(op) && PlainFits(op)
    ensures (op.SendP? ==> PushHeaderOk(op.id, |op.words|)) ==>
      ParseCommand(PlainBytes(op).value + rest) == Parsed(PlainCommand(op), rest)
    ensures op.SendP? && !PushHeaderOk(op.id, |op.words|) ==>
      ParseCommand(PlainBytes(op).value + rest) == BadPushHeader
  {
    PlainEncodes(op);
    if op.SendP? && !PushHeaderOk(op.id, |op.words|) {
      ParseBadPush(op.id, Mask32(op.words), rest);
    } else {
      ParseEncode(PlainCommand(op), rest);
    }
  }

  /** The commands a server reads from a byte stream, one after another,
    * until a command is incomplete or refused. */
  function ParseAll(bs: seq<Byte>): seq<Command>
    decreases |bs|
  {
    var p := ParseCommand(bs);
    if p.Parsed? then ParseShrinks(bs); [p.cmd] + ParseAll(p.rest) else []
  }

  /** The bytes of a sequence of commands, back to back. */
  function EncodeAll(cs: seq<Command>): seq<Byte>
  {
    if cs == [] then [] else Encode(cs[0]) + EncodeAll(cs[1..])
  }

  lemma {:induction false} EncodeAllAppend(a: seq<Command>, b: seq<Command>)
    ensures EncodeAll(a + b) == EncodeAll(a) + EncodeAll(b)
  {
    if a != [] {
      assert (a + b)[1..] == a[1..] + b;
      EncodeAllAppend(a[1..], b);
    } else {
      assert a + b == b;
    }
  }

  /** One well-formed command read, the rest of the stream follows. */
  lemma ParseAllOne(c: Command, rest: seq<Byte>)
    requires WellFormed(c)
    ensures ParseAll(Encode(c) + rest) == [c] + ParseAll(rest)
  {
    ParseEncode(c, rest);
  }

  /** Every command of cs passes the servers' header checks. */
  predicate AllWellFormed(cs: seq<Command>)
  {
    forall i :: 0 <= i < |cs| ==> WellFormed(cs[i])
  }

  lemma EncodeAllCons(cs: seq<Command>, rest: seq<Byte>)
    requires cs != []
    ensures EncodeAll(cs) + rest == Encode(cs[0]) + (EncodeAll(cs[1..]) + rest)
  {
  }

  /** The server reads back a stream of well-formed commands one by one and
    * then carries on with what follows them. */
  lemma {:induction false} ParseAllEncodeAll(cs: seq<Command>, rest: seq<Byte>)
    requires AllWellFormed(cs)
    ensures ParseAll(EncodeAll(cs) + rest) == cs + ParseAll(rest)
  {
    if cs != [] {
      assert AllWellFormed(cs[1..]) by {
        forall i | 0 <= i < |cs| - 1 ensures WellFormed(cs[1..][i]) {
          assert cs[1..][i] == cs[i + 1];
        }
      }
      ParseAllEncodeAll(cs[1..], rest);
      ParseAllCons(cs, rest);
    } else {
      assert EncodeAll(cs) + rest == rest;
    }
  }

  lemma ParseAllCons(cs: seq<Command>, rest: seq<Byte>)
    requires cs != [] && WellFormed(cs[0])
    requires ParseAll(EncodeAll(cs[1..]) + rest) == cs[1..] + ParseAll(rest)
    ensures ParseAll(EncodeAll(cs) + rest) == cs + ParseAll(rest)
  {
    ParseAllHead(cs, rest);
    Seqs.ConsAppend(cs, ParseAll(rest));
  }

  lemma ParseAllHead(cs: seq<Command>, rest: seq<Byte>)
    requires cs != [] && WellFormed(cs[0])
    ensures ParseAll(EncodeAll(cs) + rest) == [cs[0]] + ParseAll(EncodeAll(cs[1..]) + rest)
  {
    EncodeAllCons(cs, rest);
    ParseAllOne(cs[0], EncodeAll(cs[1..]) + rest);
  }

  /** The P commands for n frames of list id, alternating two demo frames. */
  function PushRun(id: Byte, n: nat, even: int, odd: int): (r: seq<Command>)
    ensures |r| == n
  {
    seq(n, i requires 0 <= i < n => Push(id, AltFrame(i, even, odd)))
  }

  lemma PushRunSnoc(id: Byte, n: nat, even: int, odd: int)
    ensures PushRun(id, n + 1, even, odd) == PushRun(id, n, even, odd) + [Push(id, AltFrame(n, even, odd))]
  {
  }

  /** A push of a 3-word frame is 16 bytes. */
  lemma {:induction false} PushRunBytes(id: Byte, n: nat, even: int, odd: int)
    ensures |EncodeAll(PushRun(id, n, even, odd))| == 16 * n
  {
    if n > 0 {
      PushRunSnoc(id, n - 1, even, odd);
      EncodeAllAppend(PushRun(id, n - 1, even, odd), [Push(id, AltFrame(n - 1, even, odd))]);
      PushRunBytes(id, n - 1, even, odd);
      assert EncodeAll([Push(id, AltFrame(n - 1, even, odd))]) == Encode(Push(id, AltFrame(n - 1, even, odd)));
    }
  }

  /** A push run for list 0 or 1 is read back push by push. */
  lemma PushRunParses(id: Byte, n: nat, even: int, odd: int, rest: seq<Byte>)
    requires id <= 1
    ensures ParseAll(EncodeAll(PushRun(id, n, even, odd)) + rest) == PushRun(id, n, even, odd) + ParseAll(rest)
  {
    ParseAllEncodeAll(PushRun(id, n, even, odd), rest);
  }

  /** The bytes of one P packet for a 3-word frame, built the way the batch
    * loop builds it. */
  method PushPacket(id: Byte, words: seq<Word>) returns (packet: seq<Byte>)
    requires |words| == 3
    ensures packet == Encode(Push(id, words))
  {
    var payload: seq<Byte> := [];
    var k := 0;
    while k < |words|
      invariant 0 <= k <= |words|
      invariant payload == EncodeWords(words[..k])
    {
      EncodeWordsSnoc(words[..k], words[k]);
      assert words[..k + 1] == words[..k] + [words[k]];
      payload := payload + ToBE(words[k], 4);
      k := k + 1;
    }
    assert words[..k] == words;
    Pow256Widths();
    PackByte(id);
    packet := [OpPush] + [id] + ToBE(|words|, 2) + payload;
  }

  lemma {:induction false} EncodeWordsSnoc(ws: seq<Word>, w: Word)
    ensures EncodeWords(ws + [w]) == EncodeWords(ws) + ToBE(w, 4)
  {
    if ws != [] {
      assert (ws + [w])[1..] == ws[1..] + [w];
      EncodeWordsSnoc(ws[1..], w);
    } else {
      assert EncodeWords([w]) == ToBE(w, 4) + EncodeWords([]);
    }
  }

  /** `build_p_command_batch(list_id, nframes)`: one P packet per frame,
    * `frame_A` at even i and `frame_B` at odd i; `struct.error` (None) when
    * a frame is to be built for an id that is not a byte. */
  method BuildPCommandBatch(id: int, nframes: int) returns (r: Option<seq<Byte>>)
    ensures r.None? <==> nframes >= 1 && !(0 <= id < 0x100)
    ensures r.Some? && nframes <= 0 ==> r.value == []
    ensures r.Some? && nframes > 0 ==>
      (0 <= id < 0x100 && r.value == EncodeAll(PushRun(id, nframes, Idx1k, Idx20k)) && |r.value| == 16 * nframes)
  {
    if nframes <= 0 {
      return Some([]);
    }
    if !(0 <= id < 0x100) {
      return None;
    }
    var packets: seq<Byte> := [];
    var i := 0;
    while i < nframes
      invariant 0 <= i <= nframes
      invariant packets == EncodeAll(PushRun(id, i, Idx1k, Idx20k))
    {
      var words := if i % 2 == 0 then DemoFrame(Idx1k) else DemoFrame(Idx20k);
      var packet := PushPacket(id, words);
      PushRunSnoc(id, i, Idx1k, Idx20k);
      EncodeAllAppend(PushRun(id, i, Idx1k, Idx20k), [Push(id, words)]);
      assert EncodeAll([Push(id, words)]) == packet;
      packets := packets + packet;
      i := i + 1;
    }
    PushRunBytes(id, nframes, Idx1k, Idx20k);
    r := Some(packets);
  }

  /** What a client sends to refill one list: B with the frame count, one P
    * per frame, E. */
  function RefillCommands(id: Byte, n: Word, even: int, odd: int): (r: seq<Command>)
    ensures |r| == n + 2
  {
    [Begin(id, n)] + PushRun(id, n, even, odd) + [End(id)]
  }

  lemma RefillWellFormed(id: Byte, n: Word, even: int, odd: int)
    requires id <= 1
    ensures AllWellFormed(RefillCommands(id, n, even, odd))
  {
  }

  /** A refill of list 0 or 1 is read back by the server as B, the n
    * pushes, E. */
  lemma RefillParses(id: Byte, n: Word, even: int, odd: int, rest: seq<Byte>)
    requires id <= 1
    ensures ParseAll(EncodeAll(RefillCommands(id, n, even, odd)) + rest) ==
      RefillCommands(id, n, even, odd) + ParseAll(rest)
  {
    RefillWellFormed(id, n, even, odd);
    ParseAllEncodeAll(RefillCommands(id, n, even, odd), rest);
  }

  /** `nframes` of the v3 client. */
  const V3Frames: Word := 20

  /** One refill of the v3 client for the id taken from the queue:
    * `op_B_begin`, the batch, `op_E_end`; `struct.error` before anything is
    * sent when the id is not a byte. */
  method RefillV3(id: int) returns (sent: Option<seq<Byte>>)
    ensures sent.None? <==> !(0 <= id < 0x100)
    ensures sent.Some? ==> sent.value == EncodeAll(RefillCommands(id, V3Frames, Idx1k, Idx20k))
  {
    PlainEncodes(SendB(id, V3Frames));
    var b := PlainBytes(SendB(id, V3Frames));
    if b.None? {
      return None;
    }
    var batch := BuildPCommandBatch(id, V3Frames);
    PlainEncodes(SendE(id));
    var e := PlainBytes(SendE(id));
    var run := PushRun(id, V3Frames, Idx1k, Idx20k);
    EncodeAllAppend([Begin(id, V3Frames)], run);
    EncodeAllAppend([Begin(id, V3Frames)] + run, [End(id)]);
    assert EncodeAll([Begin(id, V3Frames)]) == b.value;
    assert EncodeAll([End(id)]) == e.value;
    sent := Some(b.value + batch.value + e.value);
  }

  /** A queue entry the v3 client refills for: an id that packs as a byte. */
  predicate Serves(item: Option<int>)
  {
    item.Some? && 0 <= item.value < 0x100
  }

  /** How many entries the v3 client serves before it stops: at the first
    * None (the listener's sentinel) or the first id `struct.pack` refuses. */
  function ServedCount(q: seq<Option<int>>): (k: nat)
    ensures k <= |q|
    ensures forall j :: 0 <= j < k ==> Serves(q[j])
    ensures k < |q| ==> !Serves(q[k])
  {
    if q == [] || !Serves(q[0]) then 0
    else
      var k := ServedCount(q[1..]);
      assert forall j :: 1 <= j < 1 + k ==> q[j] == q[1..][j - 1];
      1 + k
  }

  /** The refills for the served entries, in order. */
  function Refills(q: seq<Option<int>>): seq<Command>
    requires forall j :: 0 <= j < |q| ==> Serves(q[j])
  {
    if q == [] then []
    else
      var last := q[|q| - 1];
      assert Serves(last);
      Refills(q[..|q| - 1]) + RefillCommands(last.value, V3Frames, Idx1k, Idx20k)
  }

  /** Serving one more entry appends its refill to what was sent. */
  lemma ServedSnoc(q: seq<Option<int>>, i: nat)
    requires i < ServedCount(q)
    ensures EncodeAll([Reset] + Refills(q[..i + 1])) ==
      EncodeAll([Reset] + Refills(q[..i])) + EncodeAll(RefillCommands(q[i].value, V3Frames, Idx1k, Idx20k))
  {
    assert q[..i + 1][..i] == q[..i];
    var c := RefillCommands(q[i].value, V3Frames, Idx1k, Idx20k);
    assert Refills(q[..i + 1]) == Refills(q[..i]) + c;
    assert [Reset] + Refills(q[..i + 1]) == [Reset] + Refills(q[..i]) + c;
    EncodeAllAppend([Reset] + Refills(q[..i]), c);
  }

  /** How the v3 client's session ends. */
  datatype V3Outcome =
    | NotifyClosed   // the sentinel after priming: a clean exit
    | NotifyDied     // the sentinel while priming: ConnectionError
    | PackRefused    // an id `struct.pack` refuses: struct.error
    | StillWaiting   // no further entry: waiting on the queue

  function V3Ending(q: seq<Option<int>>): V3Outcome
  {
    var k := ServedCount(q);
    if k == |q| then StillWaiting
    else if q[k].None? then (if k < 2 then NotifyDied else NotifyClosed)
    else PackRefused
  }

  /** The v3 `main` after it has connected, over the entries the listener
    * puts on the queue: Z, then a refill per entry; the two priming rounds
    * and the event loop do the same for an id and differ only in how the
    * sentinel ends them. */
  method ClientV3(queue: seq<Option<int>>) returns (sent: seq<Byte>, outcome: V3Outcome)
    ensures sent == EncodeAll([Reset] + Refills(queue[..ServedCount(queue)]))
    ensures outcome == V3Ending(queue)
  {
    sent := [OpReset];
    assert EncodeAll([Reset]) == [OpReset];
    var i := 0;
    while i < |queue| && Serves(queue[i])
      invariant i <= ServedCount(queue)
      invariant sent == EncodeAll([Reset] + Refills(queue[..i]))
    {
      var r := RefillV3(queue[i].value);
      ServedSnoc(queue, i);
      sent := sent + r.value;
      i := i + 1;
    }
    if i == |queue| {
      outcome := StillWaiting;
    } else if queue[i].None? {
      outcome := if i < 2 then NotifyDied else NotifyClosed;
    } else {
      outcome := PackRefused;
    }
  }

  lemma AllWellFormedAppend(a: seq<Command>, b: seq<Command>)
    requires AllWellFormed(a) && AllWellFormed(b)
    ensures AllWellFormed(a + b)
  {
    forall i | 0 <= i < |a + b| ensures WellFormed((a + b)[i]) {
      if i >= |a| {
        assert (a + b)[i] == b[i - |a|];
      }
    }
  }

  lemma {:induction false} RefillsWellFormed(q: seq<Option<int>>)
    requires forall j :: 0 <= j < |q| ==> Serves(q[j]) && q[j].value <= 1
    ensures AllWellFormed(Refills(q))
  {
    if q != [] {
      var last := q[|q| - 1];
      assert Serves(last) && last.value <= 1;
      RefillsWellFormed(q[..|q| - 1]);
      RefillWellFormed(last.value, V3Frames, Idx1k, Idx20k);
      AllWellFormedAppend(Refills(q[..|q| - 1]), RefillCommands(last.value, V3Frames, Idx1k, Idx20k));
    }
  }

  /** When every id the listener hands over names list 0 or 1, the server
    * reads the v3 session back as Z followed by B, 20 pushes and E for each
    * id in turn. */
  lemma ClientV3Parses(queue: seq<Option<int>>)
    requires forall j :: 0 <= j < ServedCount(queue) ==> queue[j].value <= 1
    ensures var cs := [Reset] + Refills(queue[..ServedCount(queue)]);
      ParseAll(EncodeAll(cs)) == cs
  {
    var served := queue[..ServedCount(queue)];
    RefillsWellFormed(served);
    AllWellFormedAppend([Reset], Refills(served));
    var cs := [Reset] + Refills(served);
    ParseAllEncodeAll(cs, []);
    assert EncodeAll(cs) + [] == EncodeAll(cs);
    assert ParseAll([]) == [];
    assert cs + [] == cs;
  }
}
