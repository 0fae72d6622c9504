/**
 * The queue engine of the raw-TCP server (`awg_raw_tcp/awg_server_raw_queue.c`)
 * as functions on its abstract state: two frame lists, the player, the
 * per-list "loading in progress" flags and the notification state of
 * `awg_server_raw_notify.c`, whose list statuses this engine sets.
 *
 * Unlike the top-level engine it accepts only B, P, E and Z, announces
 * every status change of a list to the notification listener, clears a
 * list the tick after its last frame was sent, and primes the hardware
 * with lists of zero-gain frames before it accepts clients.
 */
module RawQueueSpec {
  import opened Words
  import opened ControlWord
  import opened Wrappers
  import opened FrameStore
  import opened QueueProtocol
  import opened Notify

  const DefaultPeriodUs: nat := 1000

  /** SHUTDOWN_FLUSH_FRAMES: the length of each priming list. */
  const FlushFrames: nat := 100

  datatype RawView = RawView(
    l0: ListView,
    l1: ListView,
    playing: bool,
    cur: nat,             // cur_list
    next: nat,            // next_list
    frame: nat,           // cur_frame
    periodUs: nat,
    loading: seq<bool>,   // g_loading_in_progress
    note: NotifyView)

  /** `init_lists` with the notifier's initial globals. */
  const InitialRaw: RawView :=
    RawView(EmptyList, EmptyList, false, 0, 1, 0, DefaultPeriodUs, [false, false], InitialNotify)

  function ListOf(s: RawView, id: nat): ListView
  {
    if id == 0 then s.l0 else s.l1
  }

  function WithList(s: RawView, id: nat, l: ListView): RawView
  {
    if id == 0 then s.(l0 := l) else s.(l1 := l)
  }

  /** The shape of the state: list ids 0 and 1 in some order, two loading
    * flags, and a well-formed notification state. */
  predicate Shaped(s: RawView)
  {
    s.cur <= 1 && s.next == 1 - s.cur && |s.loading| == 2 && NotifyOk(s.note)
  }

  /** What holds of every state the engine reaches: its shape, and
    * well-formed lists whose frame counts fit their u32 fields. */
  predicate RawOk(s: RawView)
  {
    Shaped(s) &&
    ListOk(s.l0) && ListOk(s.l1) && s.l0.total < TwoTo32 && s.l1.total < TwoTo32 && s.frame < TwoTo32
  }

  /** Set list `id`'s status and call `send_status_update(id)`. */
  function Announce(s: RawView, id: nat, st: Status): RawView
    requires NotifyOk(s.note) && id <= 1
  {
    s.(note := Update(WithStatus(s.note, id, st), id))
  }

  predicate NextReady(s: RawView)
  {
    ListOf(s, s.next).ready && Loaded(ListOf(s, s.next)) > 0
  }

  datatype TickResult = TickResult(s: RawView, sent: seq<Word>)

  /** The part of a `player_thread` wake-up that finds the current list
    * empty or played out: switch to the other list when it is READY and
    * not empty, otherwise stop (`cur_frame` is left as it is); clear the
    * finished list and announce it IDLE. */
  function FinishList(s: RawView): RawView
    requires Shaped(s)
  {
    var fin := s.cur;
    var s1 := if NextReady(s) then s.(cur := s.next, next := fin, frame := 0) else s.(playing := false);
    Announce(WithList(s1, fin, EmptyList), fin, Idle)
  }

  /** One wake-up of `player_thread`; `sent` is what it passes to `awg_send_words32`. */
  function TickStep(s: RawView): TickResult
    requires Shaped(s)
  {
    if !s.playing then TickResult(s, [])
    else
      var cl := ListOf(s, s.cur);
      if Loaded(cl) == 0 || s.frame >= Loaded(cl) then TickResult(FinishList(s), [])
      else TickResult(s.(frame := s.frame + 1), cl.frames[s.frame])
  }

  /** When the player is idle and `id` is 0, start list 0 from its first frame. */
  function AutoStart(s: RawView, id: nat): RawView
  {
    if !s.playing && id == 0 then s.(playing := true, cur := 0, next := 1, frame := 0) else s
  }

  /** Whether a handler succeeded (a failure drops the client) and the state it leaves. */
  datatype Outcome = Outcome(ok: bool, s: RawView)

  /** `do_preload_begin`; `metaOk` is whether both `calloc`s succeed.  The
    * list is cleared even when the allocation then fails. */
  function BeginCmd(s: RawView, id: nat, total: Word, metaOk: bool): Outcome
    requires Shaped(s)
  {
    if id > 1 || total == 0 then Outcome(false, s)
    else
      var s1 := WithList(s, id, Prepared(total, metaOk));
      if !metaOk then Outcome(false, s1)
      else Outcome(true, Announce(s1, id, Loading).(loading := s.loading[id := true]))
  }

  /** `do_preload_push` after the frame was read: `push_frame`; when that
    * completes the list, mark it READY, announce it, and start list 0 if
    * idle.  The loading flag stays as it was. */
  function PushCmd(s: RawView, id: nat, w: seq<Word>, allocOk: bool): Outcome
    requires Shaped(s)
  {
    if !PushHeaderOk(id, |w|) then Outcome(false, s)
    else
      var l := ListOf(s, id);
      if !PushAccepts(l, w, allocOk) then Outcome(false, s)
      else
        Outcome(true, CompleteIfFull(WithList(s, id, Pushed(l, w)), id))
  }

  /** Mark list `id` READY and announce it. */
  function MarkReady(s: RawView, id: nat): RawView
    requires Shaped(s) && id <= 1
  {
    Announce(WithList(s, id, ListOf(s, id).(ready := true)), id, Ready)
  }

  /** The tail of `do_preload_push`: a list with every announced frame
    * loaded becomes READY and is announced, and list 0 starts if idle. */
  function CompleteIfFull(s: RawView, id: nat): RawView
    requires Shaped(s) && id <= 1
  {
    var l := ListOf(s, id);
    if Loaded(l) > 0 && Loaded(l) == l.total then AutoStart(MarkReady(s, id), id) else s
  }

  /** `do_preload_end`: fails for a bad id or an empty list; otherwise READY,
    * announced, no longer loading, and list 0 started if idle. */
  function EndCmd(s: RawView, id: nat): Outcome
    requires Shaped(s)
  {
    if id > 1 || Loaded(ListOf(s, id)) == 0 then Outcome(false, s)
    else
      Outcome(true, AutoStart(MarkReady(s, id).(loading := s.loading[id := false]), id))
  }

  /** `do_reset`: stop, list 0 current, both lists cleared and announced
    * IDLE, neither loading. */
  function ResetAll(s: RawView): RawView
    requires Shaped(s)
  {
    var n := WithStatus(WithStatus(s.note, 0, Idle), 1, Idle);
    s.(playing := false, cur := 0, next := 1, frame := 0, l0 := EmptyList, l1 := EmptyList,
       note := Update(Update(n, 0), 1), loading := [false, false])
  }

  /** The handler `serve_client` dispatches a parsed command to; any other
    * opcode drops the client. */
  function Apply(s: RawView, c: Command, metaOk: bool, allocOk: bool): Outcome
    requires Shaped(s)
  {
    match c
    case Begin(id, t) => BeginCmd(s, id, t, metaOk)
    case Push(id, w) => PushCmd(s, id, w, allocOk)
    case End(id) => EndCmd(s, id)
    case Reset => Outcome(true, ResetAll(s))
    case _ => Outcome(false, s)
  }

  /** `cancel_preload_and_mark_idle` for a list id of 0 or 1. */
  function Cancel(s: RawView, id: nat): RawView
    requires Shaped(s) && id <= 1
  {
    Announce(WithList(s, id, EmptyList), id, Idle).(loading := s.loading[id := false])
  }

  /** The `drop:` tail of `serve_client`: cancel every preload still in progress. */
  function Disconnect(s: RawView): RawView
    requires Shaped(s)
  {
    var s1 := if s.loading[0] then Cancel(s, 0) else s;
    if s1.loading[1] then Cancel(s1, 1) else s1
  }

  /** `serve_client` on the bytes `bs` a client sends, with no tick in
    * between, up to and including the cleanup when it goes away; every
    * allocation succeeds, or every one fails, according to `metaOk`
    * (frame tables) and `allocOk` (word buffers). */
  function Serve(s: RawView, bs: seq<Byte>, metaOk: bool, allocOk: bool): RawView
    requires Shaped(s)
    decreases |bs|
  {
    match ParseCommand(bs)
    case Parsed(c, rest) =>
      ParseShrinks(bs);
      ApplyShaped(s, c, metaOk, allocOk);
      var r := Apply(s, c, metaOk, allocOk);
      if !r.ok then Disconnect(r.s) else Serve(r.s, rest, metaOk, allocOk)
    case _ => Disconnect(s)
  }

  /** One priming step of `start_queue_server`: `load_zero_gain_list` on
    * list `id` with n frames (a cleared list if it fails), and on success
    * play that list from its first frame.  `metaOk` and `growOk` say
    * whether its `calloc`s and `realloc`s succeed. */
  function PrimeList(s: RawView, id: nat, n: nat, metaOk: bool, growOk: bool): RawView
    requires id <= 1
  {
    if metaOk && growOk then
      WithList(s, id, ZeroGainLoaded(n)).(cur := id, next := 1 - id, frame := 0, playing := true)
    else WithList(s, id, EmptyList)
  }

  /** The priming part of `start_queue_server`, from `init_lists`: prime
    * list 0, wait while list 0's status is not IDLE, then the same for
    * list 1. */
  function Prime(meta0: bool, grow0: bool, meta1: bool, grow1: bool): RawView
  {
    PrimeList(PrimeList(InitialRaw, 0, FlushFrames, meta0, grow0), 1, FlushFrames, meta1, grow1)
  }

  lemma AnnounceOk(s: RawView, id: nat, st: Status)
    requires RawOk(s) && id <= 1
    ensures RawOk(Announce(s, id, st)) && Announce(s, id, st).note.status[id] == st
    ensures Announce(s, id, st).note.status[1 - id] == s.note.status[1 - id]
  {
    UpdateMeaning(WithStatus(s.note, id, st), id);
  }

  /** Every handled command keeps the shape of the state. */
  lemma ApplyShaped(s: RawView, c: Command, metaOk: bool, allocOk: bool)
    requires Shaped(s)
    ensures Shaped(Apply(s, c, metaOk, allocOk).s)
  {
    match c
    case Begin(id, t) =>
      if id <= 1 && t != 0 && metaOk {
        UpdateMeaning(WithStatus(s.note, id, Loading), id);
      }
    case Push(id, w) =>
      if id <= 1 {
        UpdateMeaning(WithStatus(s.note, id, Ready), id);
      }
    case End(id) =>
      if id <= 1 {
        UpdateMeaning(WithStatus(s.note, id, Ready), id);
      }
    case Reset =>
      var n := WithStatus(WithStatus(s.note, 0, Idle), 1, Idle);
      UpdateMeaning(n, 0);
      UpdateMeaning(Update(n, 0), 1);
    case _ =>
  }

  /** Every wake-up keeps the state good. */
  lemma TickStepOk(s: RawView)
    requires RawOk(s)
    ensures RawOk(TickStep(s).s)
  {
    if s.playing {
      var cl := ListOf(s, s.cur);
      if Loaded(cl) == 0 || s.frame >= Loaded(cl) {
        var s1 := if NextReady(s) then s.(cur := s.next, next := s.cur, frame := 0) else s.(playing := false);
        AnnounceOk(WithList(s1, s.cur, EmptyList), s.cur, Idle);
      }
    }
  }

  /** Every handled command keeps the state good. */
  lemma ApplyOk(s: RawView, c: Command, metaOk: bool, allocOk: bool)
    requires RawOk(s)
    ensures RawOk(Apply(s, c, metaOk, allocOk).s)
  {
    match c
    case Begin(id, t) => BeginCmdOk(s, id, t, metaOk);
    case Push(id, w) => PushCmdOk(s, id, w, allocOk);
    case End(id) => EndMarksReady(s, id);
    case Reset => ResetClears(s);
    case _ =>
  }

  lemma BeginCmdOk(s: RawView, id: nat, total: Word, metaOk: bool)
    requires RawOk(s)
    ensures RawOk(BeginCmd(s, id, total, metaOk).s)
  {
    if id <= 1 && total != 0 {
      BeginsAreOk(ListOf(s, id), total, metaOk);
      if metaOk {
        AnnounceOk(WithList(s, id, Prepared(total, metaOk)), id, Loading);
      }
    }
  }

  lemma PushCmdOk(s: RawView, id: nat, w: seq<Word>, allocOk: bool)
    requires RawOk(s)
    ensures RawOk(PushCmd(s, id, w, allocOk).s)
  {
    var l := ListOf(s, id);
    if PushHeaderOk(id, |w|) && PushAccepts(l, w, allocOk) {
      PushedOk(l, w, allocOk);
      var s1 := WithList(s, id, Pushed(l, w));
      if Loaded(Pushed(l, w)) == Pushed(l, w).total {
        AnnounceOk(WithList(s1, id, ListOf(s1, id).(ready := true)), id, Ready);
      }
    }
  }

  /** Cancelling keeps the state good and leaves that list cleared, IDLE
    * and no longer loading. */
  lemma CancelOk(s: RawView, id: nat)
    requires RawOk(s) && id <= 1
    ensures var t := Cancel(s, id);
      RawOk(t) && ListOf(t, id) == EmptyList && !t.loading[id] && t.note.status[id] == Idle &&
      ListOf(t, 1 - id) == ListOf(s, 1 - id) && t.loading[1 - id] == s.loading[1 - id] &&
      t.note.status[1 - id] == s.note.status[1 - id] &&
      t.playing == s.playing && t.cur == s.cur && t.frame == s.frame
  {
    AnnounceOk(WithList(s, id, EmptyList), id, Idle);
  }

  /** After a client goes away no preload is in progress; every list that
    * was loading is cleared and IDLE, and every other list is untouched. */
  lemma DisconnectCancels(s: RawView)
    requires RawOk(s)
    ensures var t := Disconnect(s);
      RawOk(t) && t.loading == [false, false] &&
      t.playing == s.playing && t.cur == s.cur && t.frame == s.frame &&
      (s.loading[0] ==> t.l0 == EmptyList && t.note.status[0] == Idle) &&
      (s.loading[1] ==> t.l1 == EmptyList && t.note.status[1] == Idle) &&
      (!s.loading[0] ==> t.l0 == s.l0 && t.note.status[0] == s.note.status[0]) &&
      (!s.loading[1] ==> t.l1 == s.l1 && t.note.status[1] == s.note.status[1])
  {
    var s1 := if s.loading[0] then Cancel(s, 0) else s;
    if s.loading[0] {
      CancelOk(s, 0);
    }
    if s1.loading[1] {
      CancelOk(s1, 1);
    }
    assert Disconnect(s).loading == [false, false];
  }

  /** A session ends in a good state with no preload in progress. */
  lemma {:induction false} ServeOk(s: RawView, bs: seq<Byte>, metaOk: bool, allocOk: bool)
    requires RawOk(s)
    ensures RawOk(Serve(s, bs, metaOk, allocOk)) && Serve(s, bs, metaOk, allocOk).loading == [false, false]
    decreases |bs|
  {
    match ParseCommand(bs)
    case Parsed(c, rest) =>
      ParseShrinks(bs);
      ApplyOk(s, c, metaOk, allocOk);
      var r := Apply(s, c, metaOk, allocOk);
      if !r.ok {
        DisconnectCancels(r.s);
      } else {
        ServeOk(r.s, rest, metaOk, allocOk);
      }
    case _ =>
      DisconnectCancels(s);
  }

  /** Only B, P, E and Z are served: a session that opens with any other
    * complete command is dropped at once, and all it does is the cleanup. */
  lemma OnlyBPEZ(s: RawView, bs: seq<Byte>, metaOk: bool, allocOk: bool)
    requires RawOk(s) && ParseCommand(bs).Parsed?
    requires !(ParseCommand(bs).cmd.Begin? || ParseCommand(bs).cmd.Push? || ParseCommand(bs).cmd.End? || ParseCommand(bs).cmd.Reset?)
    ensures Serve(s, bs, metaOk, allocOk) == Disconnect(s)
  {
  }

  /** A wake-up while not playing sends nothing and changes nothing. */
  lemma IdleTickSendsNothing(s: RawView)
    requires RawOk(s) && !s.playing
    ensures TickStep(s) == TickResult(s, [])
  {
  }

  /** A wake-up on the played-out (or empty) current list sends nothing,
    * clears that list and announces it IDLE; it moves on to the other list
    * from frame 0 exactly when that list is READY and not empty, and
    * otherwise stops where it is. */
  lemma FinishingTick(s: RawView)
    requires RawOk(s) && s.playing && s.frame >= Loaded(ListOf(s, s.cur))
    ensures var t := TickStep(s);
      t.sent == [] && RawOk(t.s) && ListOf(t.s, s.cur) == EmptyList && t.s.note.status[s.cur] == Idle &&
      ListOf(t.s, s.next) == ListOf(s, s.next) && t.s.loading == s.loading &&
      (t.s.playing <==> NextReady(s)) &&
      (NextReady(s) ==> t.s.cur == s.next && t.s.frame == 0) &&
      (!NextReady(s) ==> t.s.cur == s.cur && t.s.frame == s.frame)
  {
    TickStepOk(s);
    var s1 := if NextReady(s) then s.(cur := s.next, next := s.cur, frame := 0) else s.(playing := false);
    AnnounceOk(WithList(s1, s.cur, EmptyList), s.cur, Idle);
  }

  /** n wake-ups in a row, with everything they send. */
  function Ticks(s: RawView, n: nat): TickResult
    requires RawOk(s)
    decreases n
  {
    if n == 0 then TickResult(s, [])
    else
      var r := TickStep(s);
      TickStepOk(s);
      var t := Ticks(r.s, n - 1);
      TickResult(t.s, r.sent + t.sent)
  }

  /** A playing engine sends the rest of its current list, frame after
    * frame, one per wake-up; the wake-up after the last frame finishes the
    * list. */
  lemma {:induction false} PlaysRestOfList(s: RawView)
    requires RawOk(s) && s.playing && s.frame <= Loaded(ListOf(s, s.cur))
    ensures var cl := ListOf(s, s.cur);
      var r := Ticks(s, Loaded(cl) - s.frame + 1);
      r.sent == Flatten(cl.frames[s.frame..]) &&
      r.s == FinishList(s.(frame := Loaded(cl)))
    decreases Loaded(ListOf(s, s.cur)) - s.frame
  {
    var cl := ListOf(s, s.cur);
    var n := Loaded(cl) - s.frame;
    var atEnd := s.(frame := Loaded(cl));
    TickStepOk(s);
    if s.frame < Loaded(cl) {
      var s1 := s.(frame := s.frame + 1);
      assert TickStep(s) == TickResult(s1, cl.frames[s.frame]);
      var t := Ticks(s1, n);
      assert Ticks(s, n + 1) == TickResult(t.s, cl.frames[s.frame] + t.sent);
      assert ListOf(s1, s1.cur) == cl;
      PlaysRestOfList(s1);
      assert t.sent == Flatten(cl.frames[s.frame + 1..]);
      assert s1.(frame := Loaded(cl)) == atEnd;
      var rest := cl.frames[s.frame..];
      assert rest[0] == cl.frames[s.frame] && rest[1..] == cl.frames[s.frame + 1..];
    } else {
      assert s == atEnd;
      assert TickStep(s) == TickResult(FinishList(s), []);
      assert Ticks(s, 1) == TickResult(FinishList(s), [] + []);
      assert cl.frames[s.frame..] == [];
    }
  }

  /** B on a good list id with a nonzero count always clears the list
    * first; on success the list is ready for `total` frames and marked
    * LOADING, and on allocation failure it is left empty.  The other list
    * is untouched either way. */
  lemma BeginPrepares(s: RawView, id: nat, total: Word, metaOk: bool)
    requires RawOk(s) && id <= 1 && total > 0
    ensures var r := BeginCmd(s, id, total, metaOk);
      r.ok == metaOk && ListOf(r.s, 1 - id) == ListOf(s, 1 - id) &&
      (r.ok ==> ListOf(r.s, id) == EmptyList.(total := total) && r.s.loading[id] && r.s.note.status[id] == Loading) &&
      (!r.ok ==> ListOf(r.s, id) == EmptyList && r.s.loading == s.loading && r.s.note == s.note)
  {
    BeginCmdOk(s, id, total, metaOk);
    if metaOk {
      AnnounceOk(WithList(s, id, Prepared(total, metaOk)), id, Loading);
    }
  }

  /** A P that completes its list makes it READY, announces it, and starts
    * playback only for list 0 when idle; it does not end the preload. */
  lemma CompletingPush(s: RawView, id: nat, w: seq<Word>, allocOk: bool)
    requires RawOk(s) && id <= 1
    requires PushCmd(s, id, w, allocOk).ok && Loaded(ListOf(s, id)) + 1 == ListOf(s, id).total
    ensures var t := PushCmd(s, id, w, allocOk).s;
      ListOf(t, id).ready && t.note.status[id] == Ready && t.loading == s.loading &&
      ListOf(t, id).frames == ListOf(s, id).frames + [w] &&
      (t.playing <==> s.playing || id == 0) &&
      (!s.playing && id == 0 ==> t.cur == 0 && t.frame == 0)
  {
    PushCmdOk(s, id, w, allocOk);
    PushedOk(ListOf(s, id), w, allocOk);
    var s1 := WithList(s, id, Pushed(ListOf(s, id), w));
    AnnounceOk(WithList(s1, id, ListOf(s1, id).(ready := true)), id, Ready);
  }

  /** E fails on a bad id or an empty list and changes nothing; otherwise
    * the list is READY and announced, the preload is over, and playback
    * starts only for list 0 when idle. */
  lemma EndMarksReady(s: RawView, id: nat)
    requires RawOk(s)
    ensures var r := EndCmd(s, id);
      (r.ok <==> id <= 1 && Loaded(ListOf(s, id)) > 0) &&
      (!r.ok ==> r.s == s) &&
      RawOk(r.s) &&
      (r.ok ==>
        ListOf(r.s, id) == ListOf(s, id).(ready := true) && !r.s.loading[id] &&
        r.s.note.status[id] == Ready && ListOf(r.s, 1 - id) == ListOf(s, 1 - id) &&
        (r.s.playing <==> s.playing || id == 0))
  {
    if id <= 1 && Loaded(ListOf(s, id)) > 0 {
      AnnounceOk(WithList(s, id, ListOf(s, id).(ready := true)), id, Ready);
    }
  }

  /** Z stops the player, makes list 0 current, clears both lists, marks
    * both IDLE and ends both preloads. */
  lemma ResetClears(s: RawView)
    requires RawOk(s)
    ensures var t := ResetAll(s);
      RawOk(t) && !t.playing && t.cur == 0 && t.next == 1 && t.frame == 0 &&
      t.l0 == EmptyList && t.l1 == EmptyList && t.note.status == [Idle, Idle] &&
      t.loading == [false, false] && t.periodUs == s.periodUs
  {
    var n := WithStatus(WithStatus(s.note, 0, Idle), 1, Idle);
    UpdateMeaning(n, 0);
    UpdateMeaning(Update(n, 0), 1);
    assert n.status == [Idle, Idle];
  }

  /** With every allocation succeeding, priming leaves list 1 playing from
    * its first frame with list 0 still loaded behind it: the waits for
    * IDLE return at once, since loading a priming list never changes its
    * status. */
  lemma PrimingPlaysListOneFirst()
    ensures var s := Prime(true, true, true, true);
      RawOk(s) && s.playing && s.cur == 1 && s.frame == 0 &&
      s.l0 == ZeroGainLoaded(FlushFrames) && s.l1 == ZeroGainLoaded(FlushFrames) &&
      s.note.status == [Idle, Idle] && NextReady(s)
  {
    ZeroGainLoadedOk(FlushFrames);
  }

  lemma PrimeListOk(s: RawView, id: nat, n: nat, metaOk: bool, growOk: bool)
    requires RawOk(s) && id <= 1 && n < TwoTo32
    ensures RawOk(PrimeList(s, id, n, metaOk, growOk))
  {
    ZeroGainLoadedOk(n);
  }

  lemma {:induction false} TicksOk(s: RawView, k: nat)
    requires RawOk(s)
    ensures RawOk(Ticks(s, k).s)
    decreases k
  {
    if k > 0 {
      TickStepOk(s);
      TicksOk(TickStep(s).s, k - 1);
    }
  }

  /** Priming as the waits in `start_queue_server` mean it ("wait for
    * player to finish list id"): load a zero-gain list of n frames on list
    * `id` and, when that succeeded, let the player send it out and finish
    * it before going on. */
  function PrimeAndDrain(s: RawView, id: nat, n: nat, metaOk: bool, growOk: bool): TickResult
    requires RawOk(s) && id <= 1 && n < TwoTo32
  {
    var p := PrimeList(s, id, n, metaOk, growOk);
    PrimeListOk(s, id, n, metaOk, growOk);
    if metaOk && growOk then Ticks(p, n + 1) else TickResult(p, [])
  }

  /** The corrected priming with lists of n frames (`FlushFrames` in the
    * source): list 0 drained, then list 1. */
  function PrimeWaiting(n: nat, meta0: bool, grow0: bool, meta1: bool, grow1: bool): TickResult
    requires n < TwoTo32
  {
    var a := PrimeAndDrain(InitialRaw, 0, n, meta0, grow0);
    PrimeListOk(InitialRaw, 0, n, meta0, grow0);
    TicksOk(PrimeList(InitialRaw, 0, n, meta0, grow0), n + 1);
    var b := PrimeAndDrain(a.s, 1, n, meta1, grow1);
    TickResult(b.s, a.sent + b.sent)
  }

  /** With the waits as intended, the hardware is sent list 0's zero-gain
    * frames and then list 1's, and the server is left idle with both lists
    * cleared and announced IDLE before it accepts a client. */
  lemma PrimeWaitingPlaysInOrder(n: nat)
    requires 0 < n < TwoTo32
    ensures var r := PrimeWaiting(n, true, true, true, true);
      var z := Flatten(ZeroGainLoaded(n).frames);
      r.sent == z + z && !r.s.playing && r.s.l0 == EmptyList && r.s.l1 == EmptyList &&
      r.s.note.status == [Idle, Idle]
  {
    var a := PrimeAndDrainOne(InitialRaw, 0, n);
    var b := PrimeAndDrainOne(a.s, 1, n);
    assert b.s.note.status[0] == Idle && b.s.note.status[1] == Idle;
  }

  /** Priming list `id` while the other list is empty, then waiting, sends
    * the zero-gain frames once and leaves both lists empty, the player
    * stopped and list `id` announced IDLE. */
  lemma PrimeAndDrainOne(s: RawView, id: nat, n: nat) returns (t: TickResult)
    requires RawOk(s) && id <= 1 && 0 < n < TwoTo32 && ListOf(s, 1 - id) == EmptyList
    ensures t == PrimeAndDrain(s, id, n, true, true)
    ensures t.sent == Flatten(ZeroGainLoaded(n).frames)
    ensures RawOk(t.s) && !t.s.playing && t.s.l0 == EmptyList && t.s.l1 == EmptyList
    ensures t.s.note.status[id] == Idle && t.s.note.status[1 - id] == s.note.status[1 - id]
  {
    ZeroGainLoadedOk(n);
    var p := PrimeList(s, id, n, true, true);
    PrimeListOk(s, id, n, true, true);
    t := DrainOne(p, id, ZeroGainLoaded(n));
  }

  /** A primed list `id` with the other list empty is sent out in full by
    * the next |z| + 1 wake-ups, which stop the player, clear the list and
    * announce it IDLE. */
  lemma DrainOne(p: RawView, id: nat, z: ListView) returns (t: TickResult)
    requires RawOk(p) && id <= 1 && p.playing && p.cur == id && p.frame == 0 && ListOf(p, id) == z
    requires Loaded(z) > 0 && ListOf(p, 1 - id) == EmptyList
    ensures t == Ticks(p, Loaded(z) + 1)
    ensures t.sent == Flatten(z.frames)
    ensures RawOk(t.s) && !t.s.playing && t.s.l0 == EmptyList && t.s.l1 == EmptyList
    ensures t.s.note.status[id] == Idle && t.s.note.status[1 - id] == p.note.status[1 - id]
  {
    PlaysRestOfList(p);
    assert z.frames[0..] == z.frames;
    t := Ticks(p, Loaded(z) + 1);
    var e := p.(frame := Loaded(z));
    assert !NextReady(e);
    FinishingTick(e);
    AnnounceOk(WithList(e.(playing := false), id, EmptyList), id, Idle);
  }

  /** What can happen next: the player wakes, a command arrives, the
    * client goes away, or a notification listener connects or vanishes. */
  datatype Event =
    | Wake
    | Received(c: Command, metaOk: bool, allocOk: bool)
    | ClientGone
    | NewListener
    | ListenerGone

  function Step(s: RawView, e: Event): RawView
    requires Shaped(s)
  {
    match e
    case Wake => TickStep(s).s
    case Received(c, m, a) => Apply(s, c, m, a).s
    case ClientGone => Disconnect(s)
    case NewListener => s.(note := Listen(s.note))
    case ListenerGone => s.(note := s.note.(peerOpen := false))
  }

  lemma StepOk(s: RawView, e: Event)
    requires RawOk(s)
    ensures RawOk(Step(s, e))
  {
    match e
    case Wake => TickStepOk(s);
    case Received(c, m, a) => ApplyOk(s, c, m, a);
    case ClientGone => DisconnectCancels(s);
    case NewListener => ListenAnnounces(s.note);
    case ListenerGone =>
  }

  function Run(s: RawView, es: seq<Event>): RawView
    requires RawOk(s)
    decreases |es|
  {
    if es == [] then s
    else
      StepOk(s, es[0]);
      Run(Step(s, es[0]), es[1..])
  }

  /** Any sequence of events from a good state keeps the state good. */
  lemma {:induction false} RunOk(s: RawView, es: seq<Event>)
    requires RawOk(s)
    ensures RawOk(Run(s, es))
    decreases |es|
  {
    if es != [] {
      StepOk(s, es[0]);
      RunOk(Step(s, es[0]), es[1..]);
    }
  }
}
