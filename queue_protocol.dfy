/**
 * The binary command protocol of both queue servers (TCP port 9100): a
 * one-byte opcode followed by big-endian fields, and the Q and S replies.
 * `ParseCommand` reads one command the way `serve_client` does; `Encode`
 * is the layout a well-behaved client sends.
 */
module QueueProtocol {
  import opened Words
  import opened Wrappers
  import opened FrameStore

  const OpReset: Byte := 0x5A   // 'Z'
  const OpAbort: Byte := 0x58   // 'X'
  const OpInit: Byte := 0x49    // 'I'
  const OpBegin: Byte := 0x42   // 'B'
  const OpPush: Byte := 0x50    // 'P'
  const OpEnd: Byte := 0x45     // 'E'
  const OpPeriod: Byte := 0x54  // 'T'
  const OpQuery: Byte := 0x51   // 'Q'
  const OpStats: Byte := 0x53   // 'S'

  datatype Command =
    | Reset
    | Abort
    | InitList(id: Byte, maxFrames: Word)
    | Begin(id: Byte, total: Word)
    | Push(id: Byte, words: seq<Word>)
    | End(id: Byte)
    | SetPeriod(period: Word)
    | Query
    | Stats

  /** One step of `serve_client`: a command and the bytes after it; the
    * input ending inside a command (the read fails or times out); a P header
    * that is refused before its payload is read; or an opcode it drops. */
  datatype ParseResult =
    | Parsed(cmd: Command, rest: seq<Byte>)
    | Incomplete
    | BadPushHeader
    | UnknownOp(op: Byte)

  /** count big-endian u32 words. */
  function DecodeWords(bs: seq<Byte>): (r: seq<Word>)
    ensures |r| == |bs| / 4
  {
    if |bs| < 4 then [] else [U32Of(bs[..4])] + DecodeWords(bs[4..])
  }

  function EncodeWords(ws: seq<Word>): (r: seq<Byte>)
    ensures |r| == 4 * |ws|
  {
    if ws == [] then [] else ToBE(ws[0], 4) + EncodeWords(ws[1..])
  }

  lemma {:induction false} DecodeEncodeWords(ws: seq<Word>)
    ensures DecodeWords(EncodeWords(ws)) == ws
  {
    if ws != [] {
      var e := EncodeWords(ws);
      assert e[..4] == ToBE(ws[0], 4);
      assert e[4..] == EncodeWords(ws[1..]);
      RoundTripFits(ws[0], 4);
      DecodeEncodeWords(ws[1..]);
    }
  }

  /** The header check of `do_preload_push`: list 0 or 1, 1..64 words. */
  predicate PushHeaderOk(id: int, count: int)
  {
    id <= 1 && 1 <= count <= MaxWordsPerFrame
  }

  function ParseCommand(bs: seq<Byte>): ParseResult
  {
    if bs == [] then Incomplete else ParseAfterOp(bs[0], bs[1..])
  }

  /** The handler for opcode `op`, reading its fields from `r`. */
  function ParseAfterOp(op: Byte, r: seq<Byte>): ParseResult
  {
    if op == OpReset then Parsed(Reset, r)
    else if op == OpAbort then Parsed(Abort, r)
    else if op == OpInit then
      if |r| < 5 then Incomplete else Parsed(InitList(r[0], U32Of(r[1..5])), r[5..])
    else if op == OpBegin then
      if |r| < 5 then Incomplete else Parsed(Begin(r[0], U32Of(r[1..5])), r[5..])
    else if op == OpPush then ParsePush(r)
    else if op == OpEnd then
      if |r| < 1 then Incomplete else Parsed(End(r[0]), r[1..])
    else if op == OpPeriod then
      if |r| < 4 then Incomplete else Parsed(SetPeriod(U32Of(r[..4])), r[4..])
    else if op == OpQuery then Parsed(Query, r)
    else if op == OpStats then Parsed(Stats, r)
    else UnknownOp(op)
  }

  /** `do_preload_push`: the 3-byte header is checked before the payload is read. */
  function ParsePush(r: seq<Byte>): ParseResult
  {
    if |r| < 3 then Incomplete
    else
      var id, count := r[0], U16Of(r[1..3]);
      if !PushHeaderOk(id, count) then BadPushHeader
      else if |r| < 3 + 4 * count then Incomplete
      else Parsed(Push(id, DecodeWords(r[3..3 + 4 * count])), r[3 + 4 * count..])
  }

  /** The bytes a client sends for a command. */
  function Encode(c: Command): seq<Byte>
  {
    match c
    case Reset => [OpReset]
    case Abort => [OpAbort]
    case InitList(id, m) => [OpInit, id] + ToBE(m, 4)
    case Begin(id, t) => [OpBegin, id] + ToBE(t, 4)
    case Push(id, ws) => [OpPush, id] + ToBE(|ws|, 2) + EncodeWords(ws)
    case End(id) => [OpEnd, id]
    case SetPeriod(p) => [OpPeriod] + ToBE(p, 4)
    case Query => [OpQuery]
    case Stats => [OpStats]
  }

  /** A command the servers accept past their header checks. */
  predicate WellFormed(c: Command)
  {
    c.Push? ==> PushHeaderOk(c.id, |c.words|)
  }

  lemma PushBytes(id: Byte, ws: seq<Word>, rest: seq<Byte>)
    ensures var bs := Encode(Push(id, ws)) + rest;
      bs[0] == OpPush && bs[1..][0] == id && bs[1..][1..3] == ToBE(|ws|, 2) &&
      |bs[1..]| == 3 + 4 * |ws| + |rest| &&
      bs[1..][3..3 + 4 * |ws|] == EncodeWords(ws) && bs[1..][3 + 4 * |ws|..] == rest
  {
    var h, e := ToBE(|ws|, 2), EncodeWords(ws);
    assert Encode(Push(id, ws)) == [OpPush, id] + h + e;
    Split2([OpPush, id], h, e, rest);
    Slices([id], h, e, rest);
  }

  /** A message that starts with two single bytes, seen after its first byte. */
  lemma Split2<T>(xy: seq<T>, b: seq<T>, c: seq<T>, d: seq<T>)
    requires |xy| == 2
    ensures var s := xy + b + c + d;
      s[0] == xy[0] && s[1..] == [xy[1]] + b + c + d
  {
    var s := xy + b + c + d;
    assert s[1..] == [xy[1]] + b + c + d;
  }

  /** Where each part of a four-part concatenation sits. */
  lemma Slices<T>(a: seq<T>, b: seq<T>, c: seq<T>, d: seq<T>)
    ensures var s := a + b + c + d;
      s[..|a|] == a && s[|a|..|a| + |b|] == b && s[|a| + |b|..|a| + |b| + |c|] == c &&
      s[|a| + |b| + |c|..] == d
  {
  }

  lemma ParseEncodeField(op: Byte, id: Byte, v: Word, rest: seq<Byte>)
    requires op == OpInit || op == OpBegin
    ensures var bs := [op, id] + ToBE(v, 4) + rest;
      ParseCommand(bs) == Parsed(if op == OpInit then InitList(id, v) else Begin(id, v), rest)
  {
    var h := ToBE(v, 4);
    var bs := [op, id] + h + rest;
    Split2([op, id], h, [], rest);
    assert [op, id] + h + [] + rest == bs;
    Slices([id], h, [], rest);
    RoundTripFits(v, 4);
  }

  lemma ParseEncodePush(id: Byte, ws: seq<Word>, rest: seq<Byte>)
    requires PushHeaderOk(id, |ws|)
    ensures ParseCommand(Encode(Push(id, ws)) + rest) == Parsed(Push(id, ws), rest)
  {
    PushBytes(id, ws, rest);
    RoundTripFits(|ws|, 2);
    DecodeEncodeWords(ws);
  }

  lemma ParseEncodePeriod(p: Word, rest: seq<Byte>)
    ensures ParseCommand([OpPeriod] + ToBE(p, 4) + rest) == Parsed(SetPeriod(p), rest)
  {
    var bs := [OpPeriod] + ToBE(p, 4) + rest;
    assert bs[1..] == ToBE(p, 4) + rest;
    assert bs[1..][..4] == ToBE(p, 4);
    assert bs[1..][4..] == rest;
    RoundTripFits(p, 4);
  }

  /** The server reads back exactly the command a client encoded, and leaves
    * whatever follows it for the next command. */
  lemma ParseEncode(c: Command, rest: seq<Byte>)
    requires WellFormed(c)
    ensures ParseCommand(Encode(c) + rest) == Parsed(c, rest)
  {
    match c
    case InitList(id, m) => ParseEncodeField(OpInit, id, m, rest);
    case Begin(id, t) => ParseEncodeField(OpBegin, id, t, rest);
    case Push(id, ws) => ParseEncodePush(id, ws, rest);
    case End(id) =>
      var bs := [OpEnd, id] + rest;
      assert bs[1..] == [id] + rest;
      assert bs[1..][1..] == rest;
    case SetPeriod(p) => ParseEncodePeriod(p, rest);
    case _ =>
      assert (Encode(c) + rest)[1..] == rest;
  }

  /** A P whose header names a list above 1 or a word count outside 1..64 is
    * refused on its header alone, whatever payload follows. */
  lemma ParseBadPush(id: Byte, ws: seq<Word>, rest: seq<Byte>)
    requires |ws| < 0x1_0000 && !PushHeaderOk(id, |ws|)
    ensures ParseCommand(Encode(Push(id, ws)) + rest) == BadPushHeader
  {
    PushBytes(id, ws, rest);
    RoundTripFits(|ws|, 2);
  }

  /** Parsing always consumes at least the opcode. */
  lemma ParseShrinks(bs: seq<Byte>)
    requires ParseCommand(bs).Parsed?
    ensures |ParseCommand(bs).rest| < |bs|
  {
  }

  /** `do_query`: `[playing][cur_list][cur_frame][free0][free1][0][0]`,
    * the three counts as big-endian u32. */
  function QueryReply(playing: bool, curList: nat, curFrame: nat, free0: nat, free1: nat): (r: seq<Byte>)
    ensures |r| == 16
  {
    [if playing then 1 else 0, curList % 256] + ToBE(curFrame, 4) + ToBE(free0, 4) + ToBE(free1, 4) + [0, 0]
  }

  /** The reply as the clients read it. */
  datatype QueryStatus = QueryStatus(playing: Byte, curList: Byte, curFrame: Word, free0: Word, free1: Word)

  /** `op_Q_query`: byte 0, byte 1, then three big-endian u32 at offsets 2, 6, 10. */
  function DecodeQuery(r: seq<Byte>): QueryStatus
    requires |r| == 16
  {
    QueryStatus(r[0], r[1], U32Of(r[2..6]), U32Of(r[6..10]), U32Of(r[10..14]))
  }

  /** The client reads back what the server put in the reply, each count
    * reduced to 32 bits; only bytes 14 and 15 are left unused. */
  lemma DecodeQueryReply(playing: bool, curList: nat, curFrame: nat, free0: nat, free1: nat)
    ensures var r := QueryReply(playing, curList, curFrame, free0, free1);
      DecodeQuery(r) == QueryStatus(if playing then 1 else 0, curList % 256,
        curFrame % TwoTo32, free0 % TwoTo32, free1 % TwoTo32) &&
      r[14] == 0 && r[15] == 0
  {
    var r := QueryReply(playing, curList, curFrame, free0, free1);
    assert r[2..6] == ToBE(curFrame, 4);
    assert r[6..10] == ToBE(free0, 4);
    assert r[10..14] == ToBE(free1, 4);
    FromToBE(curFrame, 4);
    FromToBE(free0, 4);
    FromToBE(free1, 4);
  }

  /** Of the 16 reply bytes only the last two are padding: byte 13 is the
    * low byte of `free1`, so the reply ends in four zero bytes only when
    * `free1` is a multiple of 256. */
  lemma QueryPadding(playing: bool, curList: nat, curFrame: nat, free0: nat, free1: nat)
    ensures var r := QueryReply(playing, curList, curFrame, free0, free1);
      r[13] == free1 % 256 && r[14..] == [0, 0]
  {
    var r := QueryReply(playing, curList, curFrame, free0, free1);
    var f := ToBE(free1, 4);
    assert f == ToBE(free1 / 256, 3) + [free1 % 256];
    assert r[10..14] == f;
  }

  /** The four counters of an S reply. */
  datatype StatsValues = StatsValues(bytesRx: nat, framesPushed: nat, switches: nat, holds: nat)

  /** `do_stats_reply`: the four counters, eight big-endian bytes each. */
  method StatsReply(a: nat, b: nat, c: nat, d: nat) returns (buf: array<Byte>)
    ensures fresh(buf)
    ensures buf[..] == ToBE(a, 8) + ToBE(b, 8) + ToBE(c, 8) + ToBE(d, 8)
  {
    buf := new Byte[32];
    PutU64(buf, 0, a);
    PutU64(buf, 8, b);
    PutU64(buf, 16, c);
    PutU64(buf, 24, d);
    assert buf[..] == buf[0..8] + buf[8..16] + buf[16..24] + buf[24..32];
  }

  /** One of the byte loops of `do_stats_reply`: byte i at `off + i` is
    * `(x >> (56 - 8*i)) & 0xFF`, for i from 0 to 7. */
  method PutU64(buf: array<Byte>, off: nat, x: nat)
    requires off + 8 <= buf.Length
    modifies buf
    ensures buf[off..off + 8] == ToBE(x, 8)
    ensures forall j :: 0 <= j < buf.Length && !(off <= j < off + 8) ==> buf[j] == old(buf[j])
  {
    var i := 0;
    while i < 8
      invariant 0 <= i <= 8
      invariant forall j :: 0 <= j < i ==> buf[off + j] == ToBE(x, 8)[j]
      invariant forall j :: 0 <= j < buf.Length && !(off <= j < off + i) ==> buf[j] == old(buf[j])
    {
      ToBEAt(x, 8, i);
      buf[off + i] := (x / Pow256(7 - i)) % 256;
      i := i + 1;
    }
  }

  /** `op_S_stats`: four big-endian u64 at offsets 0, 8, 16 and 24. */
  function DecodeStats(r: seq<Byte>): StatsValues
    requires |r| == 32
  {
    StatsValues(FromBE(r[0..8]), FromBE(r[8..16]), FromBE(r[16..24]), FromBE(r[24..32]))
  }

  lemma FieldOfStats(a: nat, b: nat, c: nat, d: nat, k: nat)
    requires k < 4
    ensures var r := ToBE(a, 8) + ToBE(b, 8) + ToBE(c, 8) + ToBE(d, 8);
      r[8 * k..8 * k + 8] == ToBE([a, b, c, d][k], 8)
  {
  }

  /** The client reads back the server's counters, each reduced to 64 bits. */
  lemma DecodeStatsReply(a: nat, b: nat, c: nat, d: nat)
    ensures var r := ToBE(a, 8) + ToBE(b, 8) + ToBE(c, 8) + ToBE(d, 8);
      DecodeStats(r) == StatsValues(a % TwoTo64, b % TwoTo64, c % TwoTo64, d % TwoTo64)
  {
    Pow256Widths();
    FieldOfStats(a, b, c, d, 0);
    FieldOfStats(a, b, c, d, 1);
    FieldOfStats(a, b, c, d, 2);
    FieldOfStats(a, b, c, d, 3);
    FromToBE(a, 8);
    FromToBE(b, 8);
    FromToBE(c, 8);
    FromToBE(d, 8);
  }
}
