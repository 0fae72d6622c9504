/**
 * The queue-mode engine of the top-level server (`awg_server_raw_queue.c`
 * next to `awg_core_mmap.c`), as functions on its abstract state: two frame
 * lists, the player (`playing`, `cur_list`, `next_list`, `cur_frame`), the
 * tick period and the counters.
 *
 * `TickStep` is one wake-up of the player thread, `Apply` one handled
 * command, `Serve` one client connection and `Run` any interleaving of
 * ticks and commands.  The `QueueServer` class proves its methods against
 * these functions; the lemmas below state what the engine promises.
 */
module QueueEngineSpec {
  import opened Words
  import opened ControlWord
  import opened Wrappers
  import opened FrameStore
  import opened QueueProtocol

  const DefaultPeriodUs: nat := 1000

  datatype Counters = Counters(bytesRx: nat, framesPushed: nat, switches: nat, holds: nat, resets: nat, aborts: nat)

  datatype EngineView = EngineView(
    l0: ListView,
    l1: ListView,
    playing: bool,
    cur: nat,       // cur_list
    next: nat,      // next_list
    frame: nat,     // cur_frame
    periodUs: nat,
    stats: Counters)

  /** `init_lists`: everything zero, period 1000 us, list 0 current. */
  const InitialView: EngineView :=
    EngineView(EmptyList, EmptyList, false, 0, 1, 0, DefaultPeriodUs, Counters(0, 0, 0, 0, 0, 0))

  function ListOf(s: EngineView, id: nat): ListView
  {
    if id == 0 then s.l0 else s.l1
  }

  function WithList(s: EngineView, id: nat, l: ListView): EngineView
  {
    if id == 0 then s.(l0 := l) else s.(l1 := l)
  }

  /** A list whose counts fit the u32 fields of the source. */
  predicate ListFits(l: ListView)
  {
    ListOk(l) && l.total < TwoTo32
  }

  /** What holds of every state the engine reaches: the two list ids are
    * 0 and 1 in some order, both lists are well formed, and every count
    * fits its u32 field. */
  predicate EngineOk(s: EngineView)
  {
    s.cur <= 1 && s.next == 1 - s.cur &&
    ListFits(s.l0) && ListFits(s.l1) &&
    s.frame < TwoTo32 && 1 <= s.periodUs < TwoTo32
  }

  /** The other list is READY and holds at least one frame. */
  predicate NextReady(s: EngineView)
  {
    ListOf(s, s.next).ready && Loaded(ListOf(s, s.next)) > 0
  }

  /** Move to the other list at frame 0, count a switch and clear the list just finished. */
  function SwitchLists(s: EngineView): EngineView
  {
    WithList(s.(cur := s.next, next := s.cur, frame := 0, stats := s.stats.(switches := s.stats.switches + 1)),
      s.cur, EmptyList)
  }

  /** Go idle at frame 0, count a hold and clear the list just finished. */
  function StopAtEnd(s: EngineView): EngineView
  {
    WithList(s.(playing := false, frame := 0, stats := s.stats.(holds := s.stats.holds + 1)), s.cur, EmptyList)
  }

  datatype TickResult = TickResult(s: EngineView, sent: seq<Word>)

  /** One wake-up of `player_thread`; `sent` is what it passes to `awg_send_words32`. */
  function TickStep(s: EngineView): TickResult
  {
    if !s.playing then TickResult(s, [])
    else
      var cl := ListOf(s, s.cur);
      if s.frame < Loaded(cl) then
        var s1 := s.(frame := s.frame + 1);
        var after := if s1.frame >= Loaded(cl) then (if NextReady(s1) then SwitchLists(s1) else StopAtEnd(s1)) else s1;
        TickResult(after, cl.frames[s.frame])
      else if NextReady(s) then TickResult(SwitchLists(s), [])
      else TickResult(s.(stats := s.stats.(holds := s.stats.holds + 1)), [])
  }

  /** What a handled command leaves: whether the handler succeeded (a
    * failure drops the client), the new state, the words sent to the core
    * and the reply bytes. */
  datatype Reply = Reply(ok: bool, s: EngineView, sent: seq<Word>, out: seq<Byte>)

  function Refused(s: EngineView): Reply
  {
    Reply(false, s, [], [])
  }

  function Done(s: EngineView): Reply
  {
    Reply(true, s, [], [])
  }

  /** The common part of `do_reset` and `do_abort`: stop, list 0 current,
    * both lists freed. */
  function Stopped(s: EngineView): EngineView
  {
    s.(playing := false, cur := 0, next := 1, frame := 0, l0 := EmptyList, l1 := EmptyList)
  }

  /** Mark list `id` READY; when the player is idle and `id` is 0, start
    * playing list 0 from its first frame. */
  function MarkReady(s: EngineView, id: nat): EngineView
  {
    var s1 := WithList(s, id, ListOf(s, id).(ready := true));
    if !s.playing && id == 0 then s1.(cur := 0, next := 1, frame := 0, playing := true) else s1
  }

  /** `do_preload_push` after the frame was read: `push_frame`, and when the
    * list is then complete, the same as an E. `allocOk` is whether growing
    * the word buffer succeeds when it has to. */
  function PushCmd(s: EngineView, id: nat, w: seq<Word>, allocOk: bool): Reply
  {
    if !PushHeaderOk(id, |w|) then Refused(s)
    else
      var l := ListOf(s, id);
      if !PushAccepts(l, w, allocOk) then Refused(s)
      else
        var l1 := Pushed(l, w);
        var s1 := WithList(s, id, l1);
        Done(if Loaded(l1) == l1.total then MarkReady(s1, id) else s1)
  }

  function StatsBytes(c: Counters): (r: seq<Byte>)
  {
    ToBE(c.bytesRx, 8) + ToBE(c.framesPushed, 8) + ToBE(c.switches, 8) + ToBE(c.holds, 8)
  }

  /** The handler `serve_client` dispatches a parsed command to. */
  function Apply(s: EngineView, c: Command, allocOk: bool): Reply
  {
    match c
    case Reset => Done(Stopped(s).(stats := s.stats.(resets := s.stats.resets + 1)))
    case Abort => Reply(true, Stopped(s).(stats := s.stats.(aborts := s.stats.aborts + 1)), ZeroOutputWords(), [])
    case InitList(id, m) =>
      if id > 1 then Refused(s) else Done(WithList(s, id, EmptyList.(maxFrames := m)))
    case Begin(id, t) =>
      if id > 1 || t == 0 then Refused(s) else Done(WithList(s, id, BegunKeepWords(ListOf(s, id), t)))
    case Push(id, w) => PushCmd(s, id, w, allocOk)
    case End(id) =>
      if id > 1 || Loaded(ListOf(s, id)) == 0 then Refused(s) else Done(MarkReady(s, id))
    case SetPeriod(p) => Done(s.(periodUs := if p == 0 then 1 else p))
    case Query => Reply(true, s, [], QueryReply(s.playing, s.cur, s.frame, FreeFrames(s.l0), FreeFrames(s.l1)))
    case Stats => Reply(true, s, [], StatsBytes(s.stats))
  }

  /** One connection: what the engine ends in, the words sent, the reply
    * bytes, and whether the client was dropped on a protocol error rather
    * than closed after its last complete command. */
  datatype Session = Session(s: EngineView, sent: seq<Word>, replies: seq<Byte>, dropped: bool)

  /** `serve_client` on the bytes `bs` the client sends, with no tick in
    * between; every allocation succeeds or every one fails after its check. */
  function Serve(s: EngineView, bs: seq<Byte>, allocOk: bool): Session
    decreases |bs|
  {
    match ParseCommand(bs)
    case Incomplete => Session(s, [], [], bs != [])
    case BadPushHeader => Session(s, [], [], true)
    case UnknownOp(_) => Session(s, [], [], true)
    case Parsed(c, rest) =>
      ParseShrinks(bs);
      var r := Apply(s, c, allocOk);
      if !r.ok then Session(s, [], [], true)
      else
        After(r.sent, r.out, Serve(r.s, rest, allocOk))
  }

  /** The session `t`, behind words and reply bytes already produced. */
  function After(sent: seq<Word>, replies: seq<Byte>, t: Session): Session
  {
    Session(t.s, sent + t.sent, replies + t.replies, t.dropped)
  }

  /** A command that parses and is accepted is applied, and the session
    * goes on with the bytes after it. */
  lemma ServeParsed(s: EngineView, bs: seq<Byte>, allocOk: bool)
    requires ParseCommand(bs).Parsed? && Apply(s, ParseCommand(bs).cmd, allocOk).ok
    ensures var r := Apply(s, ParseCommand(bs).cmd, allocOk);
      Serve(s, bs, allocOk) == After(r.sent, r.out, Serve(r.s, ParseCommand(bs).rest, allocOk))
  {
  }

  /** A session ends where parsing stops or a command is refused. */
  lemma ServeEnds(s: EngineView, bs: seq<Byte>, allocOk: bool)
    requires !ParseCommand(bs).Parsed? || !Apply(s, ParseCommand(bs).cmd, allocOk).ok
    ensures Serve(s, bs, allocOk) == Session(s, [], [], ParseCommand(bs) != Incomplete || bs != [])
  {
  }

  lemma AfterAfter(a: seq<Word>, b: seq<Byte>, c: seq<Word>, d: seq<Byte>, t: Session)
    ensures After(a, b, After(c, d, t)) == After(a + c, b + d, t)
  {
    assert a + (c + t.sent) == a + c + t.sent;
    assert b + (d + t.replies) == b + d + t.replies;
  }

  /** One more command of a session, added to what was served before it. */
  lemma ServeGoesOn(whole: Session, sent: seq<Word>, replies: seq<Byte>, t: Session, w: seq<Word>, out: seq<Byte>, u: Session)
    requires whole == After(sent, replies, t) && t == After(w, out, u)
    ensures whole == After(sent + w, replies + out, u)
  {
    AfterAfter(sent, replies, w, out, u);
  }

  /** The end of a session: nothing after what was served before. */
  lemma ServeStops(whole: Session, sent: seq<Word>, replies: seq<Byte>, t: Session, s: EngineView, dropped: bool)
    requires whole == After(sent, replies, t) && t == Session(s, [], [], dropped)
    ensures whole == Session(s, sent, replies, dropped)
  {
    AfterNothing(sent, replies, s, dropped);
  }

  lemma AfterNothingAtAll(t: Session)
    ensures After([], [], t) == t
  {
    assert [] + t.sent == t.sent && [] + t.replies == t.replies;
  }

  lemma AfterNothing(a: seq<Word>, b: seq<Byte>, s: EngineView, dropped: bool)
    ensures After(a, b, Session(s, [], [], dropped)) == Session(s, a, b, dropped)
  {
    assert a + [] == a && b + [] == b;
  }

  /** What can happen next: the player wakes, or a command arrives. */
  datatype Event = Wake | Received(c: Command, allocOk: bool)

  function Step(s: EngineView, e: Event): EngineView
  {
    match e
    case Wake => TickStep(s).s
    case Received(c, a) => Apply(s, c, a).s
  }

  function Run(s: EngineView, es: seq<Event>): EngineView
    decreases |es|
  {
    if es == [] then s else Run(Step(s, es[0]), es[1..])
  }

  /** Every count and the period stay within their u32 fields, the list ids
    * stay {0, 1}, and both lists stay well formed. */
  lemma TickStepOk(s: EngineView)
    requires EngineOk(s)
    ensures EngineOk(TickStep(s).s)
  {
  }

  lemma ApplyOk(s: EngineView, c: Command, allocOk: bool)
    requires EngineOk(s) && WellFormed(c)
    ensures EngineOk(Apply(s, c, allocOk).s)
  {
    match c
    case Begin(id, t) =>
      if id <= 1 && t != 0 {
        BeginsAreOk(ListOf(s, id), t, true);
      }
    case Push(id, w) => PushCmdOk(s, id, w, allocOk);
    case End(id) =>
    case InitList(id, m) =>
    case _ =>
  }

  lemma PushCmdOk(s: EngineView, id: nat, w: seq<Word>, allocOk: bool)
    requires EngineOk(s)
    ensures EngineOk(PushCmd(s, id, w, allocOk).s)
  {
    var l := ListOf(s, id);
    if PushHeaderOk(id, |w|) && PushAccepts(l, w, allocOk) {
      PushedOk(l, w, allocOk);
      var s1 := WithList(s, id, Pushed(l, w));
      assert EngineOk(s1);
    }
  }

  /** Any run from a good state, with commands as the client encodes them, keeps the state good. */
  lemma {:induction false} RunOk(s: EngineView, es: seq<Event>)
    requires EngineOk(s)
    requires forall i :: 0 <= i < |es| ==> es[i].Received? ==> WellFormed(es[i].c)
    ensures EngineOk(Run(s, es))
    decreases |es|
  {
    if es != [] {
      if es[0].Wake? {
        TickStepOk(s);
      } else {
        ApplyOk(s, es[0].c, es[0].allocOk);
      }
      RunOk(Step(s, es[0]), es[1..]);
    }
  }

  /** No step ever decreases a counter, and none ever touches `bytes_rx` or `frames_pushed`. */
  predicate CountersGrow(a: Counters, b: Counters)
  {
    b.bytesRx == a.bytesRx && b.framesPushed == a.framesPushed &&
    b.switches >= a.switches && b.holds >= a.holds && b.resets >= a.resets && b.aborts >= a.aborts
  }

  lemma StepCountersGrow(s: EngineView, e: Event)
    ensures CountersGrow(s.stats, Step(s, e).stats)
  {
    match e
    case Wake =>
    case Received(c, a) => ApplyCountersGrow(s, c, a);
  }

  lemma ApplyCountersGrow(s: EngineView, c: Command, allocOk: bool)
    ensures CountersGrow(s.stats, Apply(s, c, allocOk).s.stats)
  {
    match c
    case Push(id, w) =>
      var l := ListOf(s, id);
      if PushHeaderOk(id, |w|) && PushAccepts(l, w, allocOk) {
        assert WithList(s, id, Pushed(l, w)).stats == s.stats;
      }
    case _ =>
  }

  lemma {:induction false} RunCountersGrow(s: EngineView, es: seq<Event>)
    ensures CountersGrow(s.stats, Run(s, es).stats)
    decreases |es|
  {
    if es != [] {
      StepCountersGrow(s, es[0]);
      RunCountersGrow(Step(s, es[0]), es[1..]);
    }
  }

  /** So an S reply always reports zero bytes received and zero frames pushed. */
  lemma StatsFirstFieldsZero(es: seq<Event>)
    ensures var c := Run(InitialView, es).stats;
      c.bytesRx == 0 && c.framesPushed == 0 &&
      StatsBytes(c)[..16] == ToBE(0, 8) + ToBE(0, 8)
  {
    RunCountersGrow(InitialView, es);
    var c := Run(InitialView, es).stats;
    assert StatsBytes(c)[..16] == ToBE(0, 8) + ToBE(0, 8);
  }

  /** An idle player stays idle and sends nothing when it wakes. */
  lemma IdleTickSendsNothing(s: EngineView)
    requires !s.playing
    ensures TickStep(s) == TickResult(s, [])
  {
  }

  /** Only a command starts playback: an E on list 0, or a P that completes
    * list 0, while idle; it then plays list 0 from its first frame, list 0
    * being READY and not empty. */
  lemma OnlyListZeroStarts(s: EngineView, e: Event)
    requires EngineOk(s) && !s.playing && Step(s, e).playing
    ensures e.Received? && (e.c == End(0) || (e.c.Push? && e.c.id == 0))
    ensures var t := Step(s, e);
      t.cur == 0 && t.next == 1 && t.frame == 0 && t.l0.ready && Loaded(t.l0) > 0
  {
    match e
    case Wake =>
    case Received(c, a) =>
      match c
      case Push(id, w) =>
        var l := ListOf(s, id);
        assert PushHeaderOk(id, |w|) && PushAccepts(l, w, a);
        assert Loaded(Pushed(l, w)) == Loaded(l) + 1;
      case _ =>
  }

  /** A command the handler refuses changes nothing, sends nothing and replies nothing. */
  lemma RefusedChangesNothing(s: EngineView, c: Command, allocOk: bool)
    requires !Apply(s, c, allocOk).ok
    ensures Apply(s, c, allocOk) == Reply(false, s, [], [])
    ensures c.InitList? || c.Begin? || c.Push? || c.End?
  {
  }

  /** Z and X stop the player, make list 0 current at frame 0 and free both
    * lists.  Z sends no word; X then hands the zero-output words that
    * `send_zero_output` builds to the core. */
  lemma ResetAndAbort(s: EngineView, c: Command, allocOk: bool)
    requires c == Reset || c == Abort
    ensures var r := Apply(s, c, allocOk);
      r.ok && !r.s.playing && r.s.cur == 0 && r.s.next == 1 && r.s.frame == 0 &&
      r.s.l0 == EmptyList && r.s.l1 == EmptyList && r.s.periodUs == s.periodUs &&
      CountersGrow(s.stats, r.s.stats) && r.out == []
    ensures Apply(s, c, allocOk).sent == if c == Abort then ZeroOutputWords() else []
  {
  }

  /** X silences every tone of both channels: word i of what it sends is a
    * gain-0 word for channel i/8 and tone i%8, then one commit; and it
    * leaves the same engine state as Z, but for the counter it bumps. */
  lemma AbortZeroesOutput(s: EngineView, allocOk: bool)
    ensures var r := Apply(s, Abort, allocOk);
      r.ok && r.out == [] && |r.sent| == 17 &&
      r.s.(stats := s.stats) == Apply(s, Reset, allocOk).s.(stats := s.stats) &&
      (forall i :: 0 <= i < 16 ==>
        CmdOf(r.sent[i]) == CmdGain && ChOf(r.sent[i]) == i / 8 &&
        ToneOf(r.sent[i]) == i % 8 && DataOf(r.sent[i]) == 0) &&
      r.sent[16] == CommitWord
  {
    forall i | 0 <= i < 16
      ensures var w := ZeroOutputWords()[i];
        CmdOf(w) == CmdGain && ChOf(w) == i / 8 && ToneOf(w) == i % 8 && DataOf(w) == 0
    {
      ZeroOutputWordsFields(i);
    }
    ZeroOutputWordsFields(16);
  }

  /** T stores the period, with 0 taken as 1 us. */
  lemma SetPeriodStores(s: EngineView, p: Word, allocOk: bool)
    ensures var r := Apply(s, SetPeriod(p), allocOk);
      r.ok && r.s.periodUs >= 1 && (p > 0 ==> r.s.periodUs == p) && r.s == s.(periodUs := r.s.periodUs)
  {
  }

  /** B on list `id` gives it room for exactly `total` frames, none loaded,
    * not READY; the other list and the player are untouched. */
  lemma BeginResets(s: EngineView, id: Byte, total: Word, allocOk: bool)
    requires EngineOk(s)
    ensures var r := Apply(s, Begin(id, total), allocOk);
      r.ok <==> id <= 1 && total > 0
    ensures var r := Apply(s, Begin(id, total), allocOk);
      r.ok ==> var l := ListOf(r.s, id);
        l.total == total && Loaded(l) == 0 && !l.ready && l.wordsUsed == 0 && FreeFrames(l) == total &&
        ListOf(r.s, 1 - id) == ListOf(s, 1 - id) &&
        r.s.playing == s.playing && r.s.cur == s.cur && r.s.frame == s.frame
  {
  }

  /** A P appends its frame to list `id` and leaves the other list alone;
    * the list becomes READY exactly when it is then complete, and playback
    * starts only if list 0 completed while idle. */
  lemma PushAppends(s: EngineView, id: Byte, w: seq<Word>, allocOk: bool)
    requires EngineOk(s) && id <= 1
    ensures var r := Apply(s, Push(id, w), allocOk);
      r.ok <==> (FrameOk(w) && Loaded(ListOf(s, id)) < ListOf(s, id).total &&
        (ListOf(s, id).wordsUsed + |w| <= ListOf(s, id).cap || allocOk))
    ensures var r := Apply(s, Push(id, w), allocOk);
      r.ok ==> var l := ListOf(r.s, id);
        l.frames == ListOf(s, id).frames + [w] &&
        ListOf(r.s, 1 - id) == ListOf(s, 1 - id) &&
        (l.ready <==> ListOf(s, id).ready || Loaded(l) == l.total) &&
        (r.s.playing <==> s.playing || (id == 0 && Loaded(l) == l.total))
  {
  }

  /** E marks a non-empty list READY; it fails on an empty list or an id above 1. */
  lemma EndMarksReady(s: EngineView, id: Byte, allocOk: bool)
    requires EngineOk(s)
    ensures var r := Apply(s, End(id), allocOk);
      r.ok <==> id <= 1 && Loaded(ListOf(s, id)) > 0
    ensures var r := Apply(s, End(id), allocOk);
      r.ok ==> (ListOf(r.s, id) == ListOf(s, id).(ready := true) &&
        ListOf(r.s, 1 - id) == ListOf(s, 1 - id) &&
        (r.s.playing <==> s.playing || id == 0))
  {
  }

  /** n wake-ups in a row, with everything they send. */
  function Ticks(s: EngineView, n: nat): TickResult
    decreases n
  {
    if n == 0 then TickResult(s, [])
    else
      var r := TickStep(s);
      var t := Ticks(r.s, n - 1);
      TickResult(t.s, r.sent + t.sent)
  }

  /** A playing engine sends the rest of its current list, frame after
    * frame in load order, one per tick; with its last frame it moves on to
    * the other list when that is READY and otherwise stops, and in both
    * cases the finished list is cleared. */
  lemma {:induction false} PlaysRestOfList(s: EngineView)
    requires EngineOk(s) && s.playing && s.frame < Loaded(ListOf(s, s.cur))
    ensures var cl := ListOf(s, s.cur);
      var r := Ticks(s, Loaded(cl) - s.frame);
      var atEnd := s.(frame := Loaded(cl));
      r.sent == Flatten(cl.frames[s.frame..]) &&
      r.s == (if NextReady(s) then SwitchLists(atEnd) else StopAtEnd(atEnd))
    decreases Loaded(ListOf(s, s.cur)) - s.frame
  {
    var cl := ListOf(s, s.cur);
    var n := Loaded(cl) - s.frame;
    var r := TickStep(s);
    var atEnd := s.(frame := Loaded(cl));
    assert r.sent == cl.frames[s.frame];
    assert cl.frames[s.frame..] == [cl.frames[s.frame]] + cl.frames[s.frame + 1..];
    if s.frame + 1 < Loaded(cl) {
      var t := Ticks(r.s, n - 1);
      assert r.s == s.(frame := s.frame + 1);
      assert Ticks(s, n) == TickResult(t.s, r.sent + t.sent);
      PlaysRestOfList(r.s);
      assert r.s.(frame := Loaded(cl)) == atEnd;
    } else {
      assert r.s == (if NextReady(s) then SwitchLists(atEnd) else StopAtEnd(atEnd));
      assert Ticks(s, 1) == TickResult(r.s, r.sent + []);
      assert cl.frames[s.frame + 1..] == [];
    }
  }

  /** After an E on list 0 from idle, the player sends every frame of list
    * 0 in load order, then plays list 1 from its start if it is READY and
    * not empty, or stops; list 0 is cleared either way. */
  lemma EndThenPlaysListZero(s: EngineView, allocOk: bool)
    requires EngineOk(s) && !s.playing && Loaded(s.l0) > 0
    ensures var t := Apply(s, End(0), allocOk).s;
      var r := Ticks(t, Loaded(s.l0));
      r.sent == Flatten(s.l0.frames) &&
      r.s.l0 == EmptyList && r.s.stats.switches + r.s.stats.holds == s.stats.switches + s.stats.holds + 1 &&
      (r.s.playing <==> s.l1.ready && Loaded(s.l1) > 0) &&
      (r.s.playing ==> r.s.cur == 1 && r.s.frame == 0 && r.s.l1 == s.l1)
  {
    var t := Apply(s, End(0), allocOk).s;
    assert t.playing && t.cur == 0 && t.frame == 0 && t.l0.frames == s.l0.frames && t.l1 == s.l1;
    PlaysRestOfList(t);
    assert s.l0.frames[0..] == s.l0.frames;
  }

  /** The Q reply, read back by the client, gives the player state and the
    * free slots of both lists exactly. */
  lemma QueryReportsState(s: EngineView, allocOk: bool)
    requires EngineOk(s)
    ensures var r := Apply(s, Query, allocOk);
      r.ok && r.s == s && |r.out| == 16 &&
      DecodeQuery(r.out) == QueryStatus(if s.playing then 1 else 0, s.cur, s.frame, FreeFrames(s.l0), FreeFrames(s.l1))
  {
    QueryStatusOf(s.playing, s.cur, s.frame, FreeFrames(s.l0), FreeFrames(s.l1));
  }

  /** Values that fit their fields are read back unchanged. */
  lemma QueryStatusOf(playing: bool, cur: nat, frame: nat, f0: nat, f1: nat)
    requires cur < 256 && frame < TwoTo32 && f0 < TwoTo32 && f1 < TwoTo32
    ensures DecodeQuery(QueryReply(playing, cur, frame, f0, f1)) == QueryStatus(if playing then 1 else 0, cur, frame, f0, f1)
  {
    DecodeQueryReply(playing, cur, frame, f0, f1);
  }

  /** The S reply, read back by the client, gives the four counters modulo 2^64. */
  lemma StatsReportsCounters(s: EngineView, allocOk: bool)
    ensures var r := Apply(s, Stats, allocOk);
      r.ok && r.s == s && |r.out| == 32 &&
      DecodeStats(r.out) == StatsValues(s.stats.bytesRx % TwoTo64, s.stats.framesPushed % TwoTo64,
        s.stats.switches % TwoTo64, s.stats.holds % TwoTo64)
  {
    var c := s.stats;
    DecodeStatsReply(c.bytesRx, c.framesPushed, c.switches, c.holds);
  }

  // ---------------------------------------------------------------------------
  // Two places where the code departs from the file's own header comment.

  /** As written: E on list 1 while the player is idle marks the list
    * READY, but the player stays idle, and every later wake-up sends
    * nothing and changes nothing. */
  lemma EndOnListOneStaysIdle(s: EngineView, allocOk: bool, n: nat)
    requires EngineOk(s) && !s.playing && Loaded(s.l1) > 0
    ensures var r := Apply(s, End(1), allocOk);
      r.ok && r.s.l1.ready && !r.s.playing && Ticks(r.s, n) == TickResult(r.s, [])
  {
    IdleTicks(Apply(s, End(1), allocOk).s, n);
  }

  lemma {:induction false} IdleTicks(s: EngineView, n: nat)
    requires !s.playing
    ensures Ticks(s, n) == TickResult(s, [])
  {
    if n > 0 {
      IdleTicks(s, n - 1);
      assert Ticks(s, n) == TickResult(s, [] + []);
    }
  }

  /** What the header comment promises of E: the list is marked READY, and
    * an idle player picks it up from its first frame, whichever list it is. */
  function MarkReadyPickingUp(s: EngineView, id: nat): EngineView
    requires id <= 1
  {
    var s1 := WithList(s, id, ListOf(s, id).(ready := true));
    if !s.playing then s1.(cur := id, next := 1 - id, frame := 0, playing := true) else s1
  }

  /** With the correction, E on any loaded list while idle has the player
    * send that list's frames in load order from the next wake-up on; on
    * list 0 the correction is the code's own E. */
  lemma PickingUpPlaysList(s: EngineView, id: nat)
    requires EngineOk(s) && !s.playing && id <= 1 && Loaded(ListOf(s, id)) > 0
    ensures MarkReadyPickingUp(s, 0) == MarkReady(s, 0)
    ensures var t := MarkReadyPickingUp(s, id);
      EngineOk(t) && t.playing && t.cur == id &&
      Ticks(t, Loaded(ListOf(s, id))).sent == Flatten(ListOf(s, id).frames)
  {
    var t := MarkReadyPickingUp(s, id);
    var l := ListOf(s, id);
    assert ListOf(t, t.cur) == l.(ready := true);
    PlaysRestOfList(t);
    assert l.frames[0..] == l.frames;
  }

  /** The P commands among the commands `bs` holds, in parse order. */
  function PushesIn(bs: seq<Byte>): nat
    decreases |bs|
  {
    match ParseCommand(bs)
    case Parsed(c, rest) =>
      ParseShrinks(bs);
      (if c.Push? then 1 else 0) + PushesIn(rest)
    case _ => 0
  }

  /** The state with n more bytes received and, for a P, one more frame pushed. */
  function Counted(s: EngineView, n: nat, c: Command): EngineView
  {
    s.(stats := s.stats.(bytesRx := s.stats.bytesRx + n,
                         framesPushed := s.stats.framesPushed + if c.Push? then 1 else 0))
  }

  /** `serve_client` as the S reply's first two fields mean it: every
    * accepted command adds the bytes it was read from to `bytes_rx`, and
    * every accepted P one frame to `frames_pushed`. */
  function CountedServe(s: EngineView, bs: seq<Byte>, allocOk: bool): Session
    decreases |bs|
  {
    match ParseCommand(bs)
    case Incomplete => Session(s, [], [], bs != [])
    case BadPushHeader => Session(s, [], [], true)
    case UnknownOp(_) => Session(s, [], [], true)
    case Parsed(c, rest) =>
      ParseShrinks(bs);
      var r := Apply(s, c, allocOk);
      if !r.ok then Session(s, [], [], true)
      else After(r.sent, r.out, CountedServe(Counted(r.s, |bs| - |rest|, c), rest, allocOk))
  }

  /** A client served to the end of its bytes leaves `bytes_rx` grown by
    * exactly the bytes it sent and `frames_pushed` by exactly its P
    * commands. */
  lemma {:induction false} CountedServeCounts(s: EngineView, bs: seq<Byte>, allocOk: bool)
    ensures var t := CountedServe(s, bs, allocOk);
      !t.dropped ==>
        t.s.stats.bytesRx == s.stats.bytesRx + |bs| &&
        t.s.stats.framesPushed == s.stats.framesPushed + PushesIn(bs)
    decreases |bs|
  {
    match ParseCommand(bs)
    case Parsed(c, rest) =>
      ParseShrinks(bs);
      var r := Apply(s, c, allocOk);
      if r.ok {
        StepCountersGrow(s, Received(c, allocOk));
        CountedServeCounts(Counted(r.s, |bs| - |rest|, c), rest, allocOk);
      }
    case _ =>
  }
}
