/**
 * The v1 and base queue clients: `recv_exact`, the Q and S exchanges, and
 * the sessions the two `main` functions run.  Both send the masked
 * operations of `QueueClients`; the byte streams they produce are proved to
 * be the encodings of the command sequences below, which the server reads
 * back command by command.
 */
module QueueSessions {
  import opened Words
  import opened Wrappers
  import opened ControlWord
  import opened QueueProtocol
  import opened QueueClients
  import Seqs

  /** `recv_exact(s, n)`: `recv` is asked for the bytes still missing and
    * returns between one of them and all, as the network delivers them;
    * `grants[i]` is how many the i-th call returns when fewer than asked are
    * at hand (a missing or zero grant delivers everything asked).  An empty
    * `recv` is the peer closing: `ConnectionError`, None here, with
    * everything that arrived consumed. */
  method RecvExact(inbox: seq<Byte>, grants: seq<nat>, n: nat) returns (r: Option<seq<Byte>>, left: seq<Byte>)
    ensures |inbox| >= n ==> r == Some(inbox[..n]) && left == inbox[n..]
    ensures |inbox| < n ==> r == None && left == []
  {
    var buf: seq<Byte> := [];
    left := inbox;
    var i := 0;
    while |buf| < n
      invariant |buf| <= n && buf + left == inbox
      decreases n - |buf|
    {
      var want := n - |buf|;
      var g := if i < |grants| && grants[i] >= 1 then grants[i] else want;
      var k := if want <= g then want else g;
      if |left| < k {
        k := |left|;
      }
      var chunk := left[..k];
      if chunk == [] {
        return None, left;
      }
      assert left == chunk + left[k..];
      buf, left := buf + chunk, left[k..];
      i := i + 1;
    }
    assert inbox[..n] == buf;
    return Some(buf), left;
  }

  /** `op_Q_query`: send Q, read the 16-byte reply and decode it. */
  method QueryOp(inbox: seq<Byte>, grants: seq<nat>) returns (sent: seq<Byte>, st: Option<QueryStatus>, left: seq<Byte>)
    ensures sent == Encode(Query)
    ensures |inbox| >= 16 ==> st == Some(DecodeQuery(inbox[..16])) && left == inbox[16..]
    ensures |inbox| < 16 ==> st == None
  {
    sent := MaskedBytes(SendQ).value;
    var r;
    r, left := RecvExact(inbox, grants, 16);
    st := if r.Some? then Some(DecodeQuery(r.value)) else None;
  }

  /** `op_S_stats`: send S, read the 32-byte reply and decode it. */
  method StatsOp(inbox: seq<Byte>, grants: seq<nat>) returns (sent: seq<Byte>, st: Option<StatsValues>, left: seq<Byte>)
    ensures sent == Encode(Stats)
    ensures |inbox| >= 32 ==> st == Some(DecodeStats(inbox[..32])) && left == inbox[32..]
    ensures |inbox| < 32 ==> st == None
  {
    sent := MaskedBytes(SendS).value;
    var r;
    r, left := RecvExact(inbox, grants, 32);
    st := if r.Some? then Some(DecodeStats(r.value)) else None;
  }

  /** `op_Q_query`'s and `op_S_stats`'s one-byte requests. */
  method SendFixed(op: ClientOp) returns (bytes: seq<Byte>)
    requires op.SendQ? || op.SendS?
    ensures bytes == [if op.SendQ? then OpQuery else OpStats]
  {
    bytes := MaskedBytes(op).value;
  }

  /** However the server's Q reply is cut into segments, the client reads
    * the server's values back, counts reduced to 32 bits, and the bytes
    * after the reply are left for the next read. */
  lemma QueryHeard(playing: bool, curList: nat, curFrame: nat, free0: nat, free1: nat, more: seq<Byte>)
    ensures var inbox := QueryReply(playing, curList, curFrame, free0, free1) + more;
      |inbox| >= 16 && inbox[16..] == more &&
      DecodeQuery(inbox[..16]) == QueryStatus(if playing then 1 else 0, curList % 256,
        curFrame % TwoTo32, free0 % TwoTo32, free1 % TwoTo32)
  {
    var r := QueryReply(playing, curList, curFrame, free0, free1);
    assert (r + more)[..16] == r;
    DecodeQueryReply(playing, curList, curFrame, free0, free1);
  }

  /** The same for the S reply, counters reduced to 64 bits. */
  lemma StatsHeard(a: nat, b: nat, c: nat, d: nat, more: seq<Byte>)
    ensures var r := ToBE(a, 8) + ToBE(b, 8) + ToBE(c, 8) + ToBE(d, 8);
      |r + more| >= 32 && (r + more)[32..] == more &&
      DecodeStats((r + more)[..32]) == StatsValues(a % TwoTo64, b % TwoTo64, c % TwoTo64, d % TwoTo64)
  {
    var r := ToBE(a, 8) + ToBE(b, 8) + ToBE(c, 8) + ToBE(d, 8);
    Pow256Widths();
    assert (r + more)[..32] == r;
    DecodeStatsReply(a, b, c, d);
  }

  /** A masked P of a frame of control words is the protocol's P of the
    * frame for the list id's low bit. */
  lemma MaskedPush(id: int, frame: seq<Word>)
    requires |frame| < 0x1_0000
    ensures MaskedBytes(SendP(id, frame)) == Some(Encode(Push(id % 2, frame)))
  {
    MaskedEncodes(SendP(id, frame));
    Mask32Fits(frame);
  }

  /** The loop `for i in range(n): op_P_push(s, id, ...)` of the masked
    * clients, alternating two demo frames. */
  method PushesMasked(id: int, n: nat, even: int, odd: int) returns (bytes: seq<Byte>)
    ensures bytes == EncodeAll(PushRun(id % 2, n, even, odd))
  {
    bytes := [];
    var i := 0;
    while i < n
      invariant 0 <= i <= n
      invariant bytes == EncodeAll(PushRun(id % 2, i, even, odd))
    {
      var frame := AltFrame(i, even, odd);
      MaskedPush(id, frame);
      PushRunSnoc(id % 2, i, even, odd);
      EncodeAllAppend(PushRun(id % 2, i, even, odd), [Push(id % 2, frame)]);
      assert EncodeAll([Push(id % 2, frame)]) == Encode(Push(id % 2, frame));
      bytes := bytes + MaskedBytes(SendP(id, frame)).value;
      i := i + 1;
    }
  }

  /** `op_B_begin`, the pushes, `op_E_end` for one list. */
  method RefillMasked(id: int, n: Word, even: int, odd: int) returns (bytes: seq<Byte>)
    ensures bytes == EncodeAll(RefillCommands(id % 2, n, even, odd))
  {
    MaskedEncodes(SendB(id, n));
    MaskedEncodes(SendE(id));
    var pushes := PushesMasked(id, n, even, odd);
    bytes := MaskedBytes(SendB(id, n)).value + pushes + MaskedBytes(SendE(id)).value;
    RefillBytes(id % 2, n, even, odd);
  }

  lemma RefillBytes(id: Byte, n: Word, even: int, odd: int)
    ensures EncodeAll(RefillCommands(id, n, even, odd)) ==
      Encode(Begin(id, n)) + EncodeAll(PushRun(id, n, even, odd)) + Encode(End(id))
  {
    var run := PushRun(id, n, even, odd);
    EncodeAllAppend([Begin(id, n)], run);
    EncodeAllAppend([Begin(id, n)] + run, [End(id)]);
    assert EncodeAll([Begin(id, n)]) == Encode(Begin(id, n));
    assert EncodeAll([End(id)]) == Encode(End(id));
  }

  /** `nframes` and the period of the v1 and base clients. */
  const V1Frames: Word := 10000
  const BaseFrames: Word := 1000
  const DemoPeriod: Word := 1000

  /** The v1 priming: Z, T(1000), list 0 with 1k at even frames, list 1 with
    * 20k at even frames. */
  function V1Prime(): seq<Command>
  {
    [Reset, SetPeriod(DemoPeriod)] + RefillCommands(0, V1Frames, Idx1k, Idx20k) +
      RefillCommands(1, V1Frames, Idx20k, Idx1k)
  }

  /** The v1 main loop from reply i on, with `next_list_to_load` = next: a Q
    * per reply; a reply showing the server on list `1 - next` is followed by
    * a refill of list next and the target flips.  When the replies run out
    * the last Q goes unanswered and `recv_exact` raises `ConnectionError`. */
  function V1From(rs: seq<QueryStatus>, i: nat, next: nat, n: Word): seq<Command>
    requires next <= 1
    decreases |rs| - i
  {
    if i >= |rs| then [Query]
    else if rs[i].curList == 1 - next then
      [Query] + RefillCommands(next, n, Idx1k, Idx20k) + V1From(rs, i + 1, 1 - next, n)
    else [Query] + V1From(rs, i + 1, next, n)
  }

  function V1Session(rs: seq<QueryStatus>): seq<Command>
  {
    V1Prime() + V1From(rs, 0, 0, V1Frames)
  }

  /** The bytes of one step of the v1 loop: a reply showing the server
    * on list `1 - next` is followed by the refill of list next. */
  lemma SwitchBytes(rs: seq<QueryStatus>, i: nat, next: nat, n: Word)
    requires next <= 1 && i < |rs| && rs[i].curList as int == 1 - next
    ensures EncodeAll(V1From(rs, i, next, n)) ==
      ([OpQuery] + EncodeAll(RefillCommands(next, n, Idx1k, Idx20k))) + EncodeAll(V1From(rs, i + 1, 1 - next, n))
  {
    var refill, later := RefillCommands(next, n, Idx1k, Idx20k), V1From(rs, i + 1, 1 - next, n);
    assert V1From(rs, i, next, n) == ([Query] + refill) + later;
    EncodeAllAppend([Query] + refill, later);
    EncodeAllAppend([Query], refill);
    EncodeOne(Query);
  }

  /** Any other reply is followed only by the next poll. */
  lemma PollBytes(rs: seq<QueryStatus>, i: nat, next: nat, n: Word)
    requires next <= 1 && i < |rs| && rs[i].curList as int != 1 - next
    ensures EncodeAll(V1From(rs, i, next, n)) == [OpQuery] + EncodeAll(V1From(rs, i + 1, next, n))
  {
    assert V1From(rs, i, next, n) == [Query] + V1From(rs, i + 1, next, n);
    EncodeAllAppend([Query], V1From(rs, i + 1, next, n));
    EncodeOne(Query);
  }

  lemma V1PrimeBytes()
    ensures EncodeAll(V1Prime()) == [OpReset] + Encode(SetPeriod(DemoPeriod)) +
      EncodeAll(RefillCommands(0, V1Frames, Idx1k, Idx20k)) + EncodeAll(RefillCommands(1, V1Frames, Idx20k, Idx1k))
  {
    var a, b := RefillCommands(0, V1Frames, Idx1k, Idx20k), RefillCommands(1, V1Frames, Idx20k, Idx1k);
    EncodeAllAppend([Reset, SetPeriod(DemoPeriod)], a);
    EncodeAllAppend([Reset, SetPeriod(DemoPeriod)] + a, b);
    assert EncodeAll([Reset, SetPeriod(DemoPeriod)]) == [OpReset] + Encode(SetPeriod(DemoPeriod)) by {
      assert [Reset, SetPeriod(DemoPeriod)][1..] == [SetPeriod(DemoPeriod)];
    }
  }

  /** The v1 `main` after it has connected, over the Q replies the server
    * gives before the connection closes: priming, then the polling and
    * refilling loop, ended by the `ConnectionError` of the unanswered Q. */
  method ClientV1(replies: seq<QueryStatus>) returns (sent: seq<Byte>)
    ensures sent == EncodeAll(V1Session(replies))
  {
    var prime := PrimeV1();
    var loop := LoopV1(replies, V1Frames);
    sent := prime + loop;
    EncodeAllAppend(V1Prime(), V1From(replies, 0, 0, V1Frames));
  }

  /** Z, T(1000) and the two priming refills of the v1 client. */
  method PrimeV1() returns (sent: seq<Byte>)
    ensures sent == EncodeAll(V1Prime())
  {
    MaskedEncodes(SendZ);
    MaskedEncodes(SendT(DemoPeriod));
    var list0 := RefillMasked(0, V1Frames, Idx1k, Idx20k);
    var list1 := RefillMasked(1, V1Frames, Idx20k, Idx1k);
    sent := MaskedBytes(SendZ).value + MaskedBytes(SendT(DemoPeriod)).value + list0 + list1;
    V1PrimeBytes();
  }

  /** The `while True` loop of the v1 client: poll until the server plays
    * the other list, refill `next_list_to_load`, flip it. */
  method LoopV1(replies: seq<QueryStatus>, n: Word) returns (sent: seq<Byte>)
    ensures sent == EncodeAll(V1From(replies, 0, 0, n))
  {
    ghost var total := EncodeAll(V1From(replies, 0, 0, n));
    sent := [];
    var next: nat := 0;
    var i := 0;
    while i < |replies|
      invariant i <= |replies| && next <= 1
      invariant sent + EncodeAll(V1From(replies, i, next, n)) == total
      decreases |replies| - i
    {
      var bytes, j, after := RoundV1(replies, i, next, n);
      Seqs.AppendAssoc(sent, bytes, EncodeAll(V1From(replies, j, after, n)));
      sent, i, next := sent + bytes, j, after;
    }
    assert EncodeAll(V1From(replies, i, next, n)) == [OpQuery];
    sent := sent + MaskedBytes(SendQ).value;
  }

  /** One round of the v1 loop: the polls until the server plays list
    * `1 - next` and the refill of list next; or, when the replies run out
    * first, only the polls. */
  method RoundV1(replies: seq<QueryStatus>, i: nat, next: nat, n: Word) returns (bytes: seq<Byte>, j: nat, after: nat)
    requires next <= 1 && i < |replies|
    ensures i < j <= |replies| && after <= 1
    ensures bytes + EncodeAll(V1From(replies, j, after, n)) == EncodeAll(V1From(replies, i, next, n))
  {
    var polls, k := PollUntil(replies, i, next, n);
    if k < |replies| {
      var reload := ReloadV1(next, n);
      bytes, j, after := polls + reload, k + 1, 1 - next;
      ReloadStep(replies, i, k, next, n, polls, reload, bytes, j, after);
      return;
    }
    return polls, k, next;
  }

  /** The Q that shows the server playing list `1 - next`, then the refill
    * of list next. */
  method ReloadV1(next: nat, n: Word) returns (bytes: seq<Byte>)
    requires next <= 1
    ensures bytes == [OpQuery] + EncodeAll(RefillCommands(next, n, Idx1k, Idx20k))
  {
    var refill := RefillMasked(next, n, Idx1k, Idx20k);
    bytes := MaskedBytes(SendQ).value + refill;
  }

  /** The Q that shows the server on the other list, then the refill. */
  lemma ReloadStep(rs: seq<QueryStatus>, i: nat, k: nat, next: nat, n: Word, polls: seq<Byte>, reload: seq<Byte>,
                    bytes: seq<Byte>, j: nat, after: nat)
    requires next <= 1 && k < |rs| && rs[k].curList as int == 1 - next
    requires polls + EncodeAll(V1From(rs, k, next, n)) == EncodeAll(V1From(rs, i, next, n))
    requires reload == [OpQuery] + EncodeAll(RefillCommands(next, n, Idx1k, Idx20k))
    requires bytes == polls + reload && j == k + 1 && after == 1 - next
    ensures bytes + EncodeAll(V1From(rs, j, after, n)) == EncodeAll(V1From(rs, i, next, n))
  {
    SwitchBytes(rs, k, next, n);
    Seqs.AppendAssoc(polls, reload, EncodeAll(V1From(rs, j, after, n)));
  }

  /** A Q whose reply shows the server still on list `next`. */
  lemma PollStep(rs: seq<QueryStatus>, i: nat, next: nat, n: Word, sent: seq<Byte>, q: seq<Byte>, total: seq<Byte>)
    requires next <= 1 && i < |rs| && rs[i].curList as int != 1 - next
    requires sent + EncodeAll(V1From(rs, i, next, n)) == total && q == [OpQuery]
    ensures (sent + q) + EncodeAll(V1From(rs, i + 1, next, n)) == total
  {
    PollBytes(rs, i, next, n);
    Seqs.AppendAssoc(sent, q, EncodeAll(V1From(rs, i + 1, next, n)));
  }

  /** The inner loop of the v1 client: a Q per reply until one shows the
    * server playing list `1 - next` (that Q is not counted here) or the
    * replies run out. */
  method PollUntil(replies: seq<QueryStatus>, i0: nat, next: nat, n: Word) returns (polls: seq<Byte>, i: nat)
    requires next <= 1
    ensures i0 <= i && (i0 <= |replies| ==> i <= |replies|)
    ensures i < |replies| ==> replies[i].curList as int == 1 - next
    ensures polls + EncodeAll(V1From(replies, i, next, n)) == EncodeAll(V1From(replies, i0, next, n))
  {
    polls, i := [], i0;
    while i < |replies| && replies[i].curList as int != 1 - next
      invariant i0 <= i && (i0 <= |replies| ==> i <= |replies|)
      invariant polls + EncodeAll(V1From(replies, i, next, n)) == EncodeAll(V1From(replies, i0, next, n))
    {
      var q := SendFixed(SendQ);
      PollStep(replies, i, next, n, polls, q, EncodeAll(V1From(replies, i0, next, n)));
      polls, i := polls + q, i + 1;
    }
  }

  /** The reloads of the v1 loop from reply i on: the reply that triggered
    * each one and the list it reloads. */
  function Reloads(rs: seq<QueryStatus>, i: nat, next: nat): seq<(nat, nat)>
    requires next <= 1
    decreases |rs| - i
  {
    if i >= |rs| then []
    else if rs[i].curList == 1 - next then [(i, next)] + Reloads(rs, i + 1, 1 - next)
    else Reloads(rs, i + 1, next)
  }

  /** The lists the B commands of a command sequence name, in order. */
  function BeginIds(cs: seq<Command>): seq<int>
  {
    if cs == [] then [] else BeginOf(cs[0]) + BeginIds(cs[1..])
  }

  function BeginOf(c: Command): seq<int>
  {
    if c.Begin? then [c.id as int] else []
  }

  /** Reload k of r is on a reply from i on that shows the server playing
    * the other list, reloads list `(next + k) % 2`, and comes after reload
    * k - 1. */
  predicate ReloadOk(rs: seq<QueryStatus>, i: nat, next: nat, r: seq<(nat, nat)>, k: nat)
    requires k < |r|
  {
    i <= r[k].0 < |rs| && r[k].1 == (next + k) % 2 && rs[r[k].0].curList as int == 1 - r[k].1 &&
    (k > 0 ==> r[k - 1].0 < r[k].0)
  }

  /** The v1 client reloads the two lists in turn, starting with `next`,
    * and reloads a list only on a reply that shows the server playing the
    * other one; the replies that trigger reloads come in order. */
  lemma {:induction false} ReloadsSafe(rs: seq<QueryStatus>, i: nat, next: nat)
    requires next <= 1
    ensures forall k :: 0 <= k < |Reloads(rs, i, next)| ==> ReloadOk(rs, i, next, Reloads(rs, i, next), k)
    decreases |rs| - i
  {
    if i < |rs| {
      var r := Reloads(rs, i, next);
      if rs[i].curList == 1 - next {
        ReloadsSafe(rs, i + 1, 1 - next);
        var t := Reloads(rs, i + 1, 1 - next);
        assert r == [(i, next)] + t;
        forall k | 0 <= k < |r| ensures ReloadOk(rs, i, next, r, k) {
          if k > 0 {
            assert r[k] == t[k - 1];
            assert ReloadOk(rs, i + 1, 1 - next, t, k - 1);
            assert (1 - next + (k - 1)) % 2 == (next + k) % 2;
            if k > 1 {
              assert r[k - 1] == t[k - 2];
            }
          }
        }
      } else {
        ReloadsSafe(rs, i + 1, next);
        var t := Reloads(rs, i + 1, next);
        assert r == t;
        forall k | 0 <= k < |r| ensures ReloadOk(rs, i, next, r, k) {
          assert ReloadOk(rs, i + 1, next, t, k);
        }
      }
    }
  }

  /** The lists a run of reloads reloads, in order. */
  function ListsOf(r: seq<(nat, nat)>): seq<int>
  {
    if r == [] then [] else [r[0].1 as int] + ListsOf(r[1..])
  }

  /** The B commands the v1 loop sends are exactly its reloads. */
  lemma {:induction false} ReloadsBegin(rs: seq<QueryStatus>, i: nat, next: nat, n: Word)
    requires next <= 1
    ensures BeginIds(V1From(rs, i, next, n)) == ListsOf(Reloads(rs, i, next))
    decreases |rs| - i
  {
    if i >= |rs| {
      BeginIdsQuery([]);
    } else if rs[i].curList == 1 - next {
      var refill := RefillCommands(next, n, Idx1k, Idx20k);
      var later := V1From(rs, i + 1, 1 - next, n);
      ReloadsBegin(rs, i + 1, 1 - next, n);
      assert V1From(rs, i, next, n) == [Query] + (refill + later);
      BeginIdsQuery(refill + later);
      BeginIdsAppend(refill, later);
      BeginIdsRefill(next, n, Idx1k, Idx20k);
      var t := Reloads(rs, i + 1, 1 - next);
      assert Reloads(rs, i, next) == [(i, next)] + t;
      assert ([(i, next)] + t)[1..] == t;
    } else {
      ReloadsBegin(rs, i + 1, next, n);
      BeginIdsQuery(V1From(rs, i + 1, next, n));
    }
  }

  lemma BeginIdsQuery(cs: seq<Command>)
    ensures BeginIds([Query] + cs) == BeginIds(cs)
  {
    assert ([Query] + cs)[1..] == cs;
  }

  lemma {:induction false} BeginIdsAppend(a: seq<Command>, b: seq<Command>)
    ensures BeginIds(a + b) == BeginIds(a) + BeginIds(b)
  {
    if a == [] {
      assert a + b == b;
    } else {
      var c := a + b;
      assert c[0] == a[0] && c[1..] == a[1..] + b;
      BeginIdsAppend(a[1..], b);
      Seqs.AppendAssoc(BeginOf(a[0]), BeginIds(a[1..]), BeginIds(b));
    }
  }

  lemma {:induction false} BeginIdsPushes(cs: seq<Command>)
    requires forall k :: 0 <= k < |cs| ==> cs[k].Push?
    ensures BeginIds(cs) == []
  {
    if cs != [] {
      BeginIdsPushes(cs[1..]);
    }
  }

  lemma BeginIdsRefill(id: Byte, n: Word, even: int, odd: int)
    ensures BeginIds(RefillCommands(id, n, even, odd)) == [id as int]
  {
    var run := PushRun(id, n, even, odd);
    BeginIdsPushes(run);
    BeginIdsAppend([Begin(id, n)], run);
    BeginIdsAppend([Begin(id, n)] + run, [End(id)]);
    assert BeginIds([End(id)]) == [] + BeginIds([]);
    assert BeginIds([Begin(id, n)]) == [id as int] + BeginIds([]);
  }

  lemma {:induction false} V1FromWellFormed(rs: seq<QueryStatus>, i: nat, next: nat, n: Word)
    requires next <= 1
    ensures AllWellFormed(V1From(rs, i, next, n))
    decreases |rs| - i
  {
    if i < |rs| {
      if rs[i].curList == 1 - next {
        V1FromWellFormed(rs, i + 1, 1 - next, n);
        RefillWellFormed(next, n, Idx1k, Idx20k);
        AllWellFormedAppend([Query], RefillCommands(next, n, Idx1k, Idx20k));
        AllWellFormedAppend([Query] + RefillCommands(next, n, Idx1k, Idx20k), V1From(rs, i + 1, 1 - next, n));
      } else {
        V1FromWellFormed(rs, i + 1, next, n);
        AllWellFormedAppend([Query], V1From(rs, i + 1, next, n));
      }
    }
  }

  /** The server reads the whole v1 session back, command by command. */
  lemma V1SessionParses(rs: seq<QueryStatus>)
    ensures ParseAll(EncodeAll(V1Session(rs))) == V1Session(rs)
  {
    var a, b := RefillCommands(0, V1Frames, Idx1k, Idx20k), RefillCommands(1, V1Frames, Idx20k, Idx1k);
    RefillWellFormed(0, V1Frames, Idx1k, Idx20k);
    RefillWellFormed(1, V1Frames, Idx20k, Idx1k);
    AllWellFormedAppend([Reset, SetPeriod(DemoPeriod)], a);
    AllWellFormedAppend([Reset, SetPeriod(DemoPeriod)] + a, b);
    V1FromWellFormed(rs, 0, 0, V1Frames);
    AllWellFormedAppend(V1Prime(), V1From(rs, 0, 0, V1Frames));
    ParseAllEncodeAll(V1Session(rs), []);
    assert EncodeAll(V1Session(rs)) + [] == EncodeAll(V1Session(rs));
  }

  /** n queries. */
  function Queries(n: nat): (r: seq<Command>)
    ensures |r| == n && forall k :: 0 <= k < n ==> r[k] == Query
  {
    seq(n, k => Query)
  }

  /** The base client's session: Z, T(1000), then I, B, the pushes and E
    * for list 0 (1k at even frames) and list 1 (20k at even frames), the
    * polls it has time for, S. */
  function BaseSession(polls: nat): seq<Command>
  {
    BasePrime() + Queries(polls) + [Stats]
  }

  function BasePrime(): seq<Command>
  {
    [Reset, SetPeriod(DemoPeriod), InitList(0, BaseFrames)] + RefillCommands(0, BaseFrames, Idx1k, Idx20k) +
      [InitList(1, BaseFrames)] + RefillCommands(1, BaseFrames, Idx20k, Idx1k)
  }

  /** The base `main` after it has connected, with `polls` the number of Q
    * polls that fit in its five seconds. */
  method ClientBase(polls: nat) returns (sent: seq<Byte>)
    ensures sent == EncodeAll(BaseSession(polls))
  {
    var head := PrimeBase();
    var queries := PollBase(polls);
    var stats := SendFixed(SendS);
    sent := head + queries + stats;
    BaseBytes(polls, head, queries, sent);
  }

  /** The five-second polling loop of the base client, one Q per pass. */
  method PollBase(polls: nat) returns (queries: seq<Byte>)
    ensures queries == EncodeAll(Queries(polls))
  {
    queries := [];
    var k := 0;
    while k < polls
      invariant 0 <= k <= polls
      invariant queries == EncodeAll(Queries(k))
    {
      QueriesSnoc(k);
      queries := queries + MaskedBytes(SendQ).value;
      k := k + 1;
    }
  }

  /** Z, T(1000) and the two preloads of the base client. */
  method PrimeBase() returns (sent: seq<Byte>)
    ensures sent == EncodeAll(BasePrime())
  {
    MaskedEncodes(SendZ);
    MaskedEncodes(SendT(DemoPeriod));
    MaskedEncodes(SendI(0, BaseFrames));
    MaskedEncodes(SendI(1, BaseFrames));
    var list0 := RefillMasked(0, BaseFrames, Idx1k, Idx20k);
    var list1 := RefillMasked(1, BaseFrames, Idx20k, Idx1k);
    sent := MaskedBytes(SendZ).value + MaskedBytes(SendT(DemoPeriod)).value +
      MaskedBytes(SendI(0, BaseFrames)).value + list0 + MaskedBytes(SendI(1, BaseFrames)).value + list1;
    BasePrimeBytes();
  }

  lemma QueriesSnoc(k: nat)
    ensures EncodeAll(Queries(k + 1)) == EncodeAll(Queries(k)) + [OpQuery]
  {
    assert Queries(k + 1) == Queries(k) + [Query];
    EncodeAllAppend(Queries(k), [Query]);
    assert EncodeAll([Query]) == [OpQuery];
  }

  lemma BaseBytes(polls: nat, head: seq<Byte>, queries: seq<Byte>, sent: seq<Byte>)
    requires head == EncodeAll(BasePrime()) && queries == EncodeAll(Queries(polls))
    requires sent == head + queries + [OpStats]
    ensures sent == EncodeAll(BaseSession(polls))
  {
    EncodeAllAppend(BasePrime(), Queries(polls));
    EncodeAllAppend(BasePrime() + Queries(polls), [Stats]);
    EncodeOne(Stats);
  }

  lemma BasePrimeBytes()
    ensures EncodeAll(BasePrime()) ==
      [OpReset] + Encode(SetPeriod(DemoPeriod)) + Encode(InitList(0, BaseFrames)) +
      EncodeAll(RefillCommands(0, BaseFrames, Idx1k, Idx20k)) + Encode(InitList(1, BaseFrames)) +
      EncodeAll(RefillCommands(1, BaseFrames, Idx20k, Idx1k))
  {
    var h := [Reset, SetPeriod(DemoPeriod), InitList(0, BaseFrames)];
    var a, b := RefillCommands(0, BaseFrames, Idx1k, Idx20k), RefillCommands(1, BaseFrames, Idx20k, Idx1k);
    EncodeAllAppend(h, a);
    EncodeAllAppend(h + a, [InitList(1, BaseFrames)]);
    EncodeAllAppend(h + a + [InitList(1, BaseFrames)], b);
    EncodeThree(Reset, SetPeriod(DemoPeriod), InitList(0, BaseFrames));
    assert EncodeAll([InitList(1, BaseFrames)]) == Encode(InitList(1, BaseFrames));
  }

  lemma EncodeThree(a: Command, b: Command, c: Command)
    ensures EncodeAll([a, b, c]) == Encode(a) + Encode(b) + Encode(c)
  {
    assert [a, b, c] == [a] + ([b] + [c]);
    EncodeAllAppend([a], [b] + [c]);
    EncodeAllAppend([b], [c]);
    EncodeOne(a);
    EncodeOne(b);
    EncodeOne(c);
  }

  lemma EncodeOne(c: Command)
    ensures EncodeAll([c]) == Encode(c)
  {
    assert EncodeAll([c]) == Encode(c) + EncodeAll([]);
  }

  /** The server reads the whole base session back, command by command. */
  lemma BaseSessionParses(polls: nat)
    ensures ParseAll(EncodeAll(BaseSession(polls))) == BaseSession(polls)
  {
    var s := BaseSession(polls);
    assert AllWellFormed(s) by {
      RefillWellFormed(0, BaseFrames, Idx1k, Idx20k);
      RefillWellFormed(1, BaseFrames, Idx20k, Idx1k);
      forall k | 0 <= k < |s| ensures WellFormed(s[k]) {
        PushesOfSession(polls, k);
      }
    }
    ParseAllEncodeAll(s, []);
    assert EncodeAll(s) + [] == EncodeAll(s);
  }

  /** Every P of the base session is a 3-word frame for list 0 or 1. */
  lemma PushesOfSession(polls: nat, k: nat)
    requires k < |BaseSession(polls)|
    ensures var c := BaseSession(polls)[k]; c.Push? ==> c.id <= 1 && |c.words| == 3
  {
  }
}
