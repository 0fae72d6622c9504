/**
 * The state `G` of the raw-TCP queue server (`awg_raw_tcp/awg_server_raw_queue.c`),
 * its `g_loading_in_progress` flags and the notifier it reports list
 * statuses to, as a class.  Every method is proved to leave exactly the
 * state the matching function of `RawQueueSpec` describes; `sent` collects
 * the words handed to `awg_send_words32`, in order.
 */
module RawQueueEngine {
  import opened Words
  import opened FrameStore
  import opened QueueProtocol
  import opened Notify
  import opened RawQueueSpec

  class RawQueueServer {
    var list0: FrameList
    var list1: FrameList
    var playing: bool
    var curList: nat
    var nextList: nat
    var curFrame: nat
    var periodUs: nat
    var loading: array<bool>
    var notifier: Notifier
    var sent: seq<Word>

    /** The objects besides the two lists that the server's handlers change. */
    ghost function Others(): set<object>
      reads this, notifier
    {
      {loading, notifier, notifier.status, notifier.lastSent}
    }

    /** Separate, well-formed parts. */
    ghost predicate Valid()
      reads this, list0, list1, list0.Repr, list1.Repr, notifier, loading, notifier.status, notifier.lastSent
    {
      list0 != list1 && list0.Repr !! list1.Repr && this !in list0.Repr && this !in list1.Repr &&
      Others() !! list0.Repr + list1.Repr && this !in Others() &&
      list0.Valid() && list1.Valid() && notifier.Valid() && loading.Length == 2 &&
      Shaped(View())
    }

    /** The same parts as before, any new list storage freshly allocated. */
    twostate predicate SameParts()
      reads this, list0, list1, notifier
    {
      list0 == old(list0) && list1 == old(list1) && list0.Renewed() && list1.Renewed() &&
      loading == old(loading) && notifier == old(notifier) &&
      notifier.status == old(notifier.status) && notifier.lastSent == old(notifier.lastSent)
    }

    ghost function View(): RawView
      reads this, list0, list1, loading, notifier, notifier.status, notifier.lastSent
    {
      RawView(list0.View(), list1.View(), playing, curList, nextList, curFrame, periodUs, loading[..], notifier.View())
    }

    /** `init_lists`, with the notifier's globals at their initial values. */
    constructor ()
      ensures Valid() && View() == InitialRaw && sent == []
    {
      var n := new Notifier();
      var flags := new bool[2](_ => false);
      var l0 := new FrameList();
      var l1 := new FrameList();
      assert l0.Repr !! l1.Repr && {flags, n, n.status, n.lastSent} !! l0.Repr + l1.Repr;
      list0, list1, notifier, loading := l0, l1, n, flags;
      playing, curList, nextList, curFrame, periodUs := false, 0, 1, 0, DefaultPeriodUs;
      sent := [];
      new;
      assert loading[..] == [false, false];
    }

    /** `clear_list_fully` on list `id`. */
    method ClearList(id: nat)
      requires Valid() && id <= 1
      modifies list0.Repr, list1.Repr
      ensures Valid() && SameParts()
      ensures View() == WithList(old(View()), id, EmptyList) && sent == old(sent)
    {
      if id == 0 {
        list0.Clear();
      } else {
        list1.Clear();
      }
    }

    /** Set list `id`'s status and call `send_status_update(id)`. */
    method Announce(id: nat, st: Status)
      requires Valid() && id <= 1
      modifies notifier, notifier.status, notifier.lastSent
      ensures Valid() && SameParts()
      ensures View() == RawQueueSpec.Announce(old(View()), id, st) && sent == old(sent)
    {
      SetNoteStatus(id, st);
      SendUpdate(id);
    }

    /** One wake-up of `player_thread`. */
    method PlayerTick()
      requires Valid()
      modifies this, list0.Repr, list1.Repr, notifier, notifier.status, notifier.lastSent
      ensures Valid() && SameParts()
      ensures View() == TickStep(old(View())).s && sent == old(sent) + TickStep(old(View())).sent
    {
      if !playing {
        return;
      }
      var cl := if curList == 0 then list0 else list1;
      if cl.loadedFrames == 0 || curFrame >= cl.loadedFrames {
        EndOfList();
      } else {
        SendFrame();
      }
    }

    /** The wake-up that finds the current list played out: switch to the
      * next list if it is ready and not empty, otherwise stop; then clear
      * the finished list and announce it IDLE. */
    method EndOfList()
      requires Valid()
      modifies this, list0.Repr, list1.Repr, notifier, notifier.status, notifier.lastSent
      ensures Valid() && SameParts()
      ensures View() == FinishList(old(View())) && sent == old(sent)
    {
      var fin := curList;
      Rotate();
      ClearList(fin);
      Announce(fin, Idle);
    }

    /** Make the next list current from its first frame when it is ready
      * and not empty; otherwise stop. */
    method Rotate()
      requires Valid()
      modifies this
      ensures Valid() && SameParts() && sent == old(sent)
      ensures var s := old(View());
        View() == if NextReady(s) then s.(cur := s.next, next := s.cur, frame := 0) else s.(playing := false)
    {
      var nl := if nextList == 0 then list0 else list1;
      if nl.ready && nl.loadedFrames > 0 {
        curList, nextList, curFrame := nextList, curList, 0;
      } else {
        playing := false;
      }
    }

    /** `awg_send_words32` on the current frame, then `cur_frame++`. */
    method SendFrame()
      requires Valid() && curFrame < Loaded(ListOf(View(), curList))
      modifies this
      ensures Valid() && SameParts()
      ensures View() == old(View()).(frame := old(curFrame) + 1)
      ensures sent == old(sent) + ListOf(old(View()), old(curList)).frames[old(curFrame)]
    {
      var cl := if curList == 0 then list0 else list1;
      sent := sent + cl.Frame(curFrame);
      curFrame := curFrame + 1;
    }

    /** `cancel_preload_and_mark_idle` for a list id of 0 or 1. */
    method CancelPreload(id: nat)
      requires Valid() && id <= 1
      modifies list0.Repr, list1.Repr, loading, notifier, notifier.status, notifier.lastSent
      ensures Valid() && SameParts()
      ensures View() == Cancel(old(View()), id) && sent == old(sent)
    {
      ClearList(id);
      SetLoading(id, false);
      Announce(id, Idle);
    }

    /** `g_loading_in_progress[id] = v`. */
    method SetLoading(id: nat, v: bool)
      requires Valid() && id <= 1
      modifies loading
      ensures Valid() && SameParts() && sent == old(sent)
      ensures View() == old(View()).(loading := old(loading[..])[id := v])
    {
      loading[id] := v;
    }

    /** The `drop:` tail of `serve_client`. */
    method Drop()
      requires Valid()
      modifies list0.Repr, list1.Repr, loading, notifier, notifier.status, notifier.lastSent
      ensures Valid() && SameParts()
      ensures View() == Disconnect(old(View())) && sent == old(sent)
    {
      if loading[0] {
        CancelPreload(0);
      }
      if loading[1] {
        CancelPreload(1);
      }
    }

    /** `do_reset`. */
    method DoReset()
      requires Valid()
      modifies this, list0.Repr, list1.Repr, loading, notifier, notifier.status, notifier.lastSent
      ensures Valid() && SameParts()
      ensures View() == ResetAll(old(View())) && sent == old(sent)
    {
      ResetPlayer();
      ResetNotes();
    }

    /** The player part of `do_reset`: stop, list 0 current from frame 0,
      * both lists cleared. */
    method ResetPlayer()
      requires Valid()
      modifies this, list0.Repr, list1.Repr
      ensures Valid() && SameParts() && sent == old(sent)
      ensures View() == old(View()).(playing := false, cur := 0, next := 1, frame := 0, l0 := EmptyList, l1 := EmptyList)
    {
      Play(0, false);
      ClearList(0);
      ClearList(1);
    }

    /** The rest of `do_reset`: both lists IDLE and announced, neither loading. */
    method ResetNotes()
      requires Valid()
      modifies loading, notifier, notifier.status, notifier.lastSent
      ensures Valid() && SameParts() && sent == old(sent)
      ensures View() == old(View()).(note := Update(Update(WithStatus(WithStatus(old(notifier.View()), 0, Idle), 1, Idle), 0), 1),
                                     loading := [false, false])
    {
      MarkBothIdle();
      SetLoading(0, false);
      SetLoading(1, false);
    }

    /** The notifier part of `do_reset`: both lists IDLE, then both announced. */
    method MarkBothIdle()
      requires Valid()
      modifies notifier, notifier.status, notifier.lastSent
      ensures Valid() && SameParts() && sent == old(sent)
      ensures View() == old(View()).(note := Update(Update(WithStatus(WithStatus(old(notifier.View()), 0, Idle), 1, Idle), 0), 1))
    {
      SetNoteStatus(0, Idle);
      SetNoteStatus(1, Idle);
      SendUpdate(0);
      SendUpdate(1);
    }

    /** `g_list_status[id] = st`. */
    method SetNoteStatus(id: nat, st: Status)
      requires Valid() && id <= 1
      modifies notifier.status
      ensures Valid() && SameParts() && sent == old(sent)
      ensures View() == old(View()).(note := WithStatus(old(notifier.View()), id, st))
    {
      notifier.SetStatus(id, st);
    }

    /** `send_status_update(id)`. */
    method SendUpdate(id: nat)
      requires Valid() && id <= 1
      modifies notifier, notifier.lastSent
      ensures Valid() && SameParts() && sent == old(sent)
      ensures View() == old(View()).(note := Update(old(notifier.View()), id))
    {
      notifier.SendStatusUpdate(id);
    }

    /** The player positioned at the start of list `id`, running or not. */
    method Play(id: nat, run: bool)
      requires Valid() && id <= 1
      modifies this
      ensures Valid() && SameParts() && sent == old(sent)
      ensures View() == old(View()).(playing := run, cur := id, next := 1 - id, frame := 0)
    {
      playing, curList, nextList, curFrame := run, id, 1 - id, 0;
    }

    /** `prepare_list_for_preload` on list `id`. */
    method PrepareList(id: nat, total: Word, metaOk: bool) returns (ok: bool)
      requires Valid() && id <= 1
      modifies list0.Repr, list1.Repr
      ensures Valid() && SameParts()
      ensures ok == metaOk && View() == WithList(old(View()), id, Prepared(total, metaOk)) && sent == old(sent)
    {
      if id == 0 {
        ok := list0.Prepare(total, metaOk);
      } else {
        ok := list1.Prepare(total, metaOk);
      }
    }

    /** `do_preload_begin`; `metaOk` is whether both `calloc`s succeed. */
    method DoPreloadBegin(id: Byte, total: Word, metaOk: bool) returns (ok: bool)
      requires Valid()
      modifies list0.Repr, list1.Repr, loading, notifier, notifier.status, notifier.lastSent
      ensures Valid() && SameParts()
      ensures var r := BeginCmd(old(View()), id, total, metaOk); ok == r.ok && View() == r.s && sent == old(sent)
    {
      if id > 1 || total == 0 {
        return false;
      }
      ok := PrepareList(id, total, metaOk);
      if ok {
        Announce(id, Loading);
        SetLoading(id, true);
      }
    }

    /** `push_frame` on list `id`. */
    method PushInto(id: nat, w: seq<Word>, allocOk: bool) returns (ok: bool)
      requires Valid() && id <= 1
      modifies list0.Repr, list1.Repr
      ensures Valid() && SameParts() && sent == old(sent)
      ensures ok == PushAccepts(ListOf(old(View()), id), w, allocOk)
      ensures View() == if ok then WithList(old(View()), id, Pushed(ListOf(old(View()), id), w)) else old(View())
    {
      if id == 0 {
        ok := list0.PushFrame(w, allocOk);
      } else {
        ok := list1.PushFrame(w, allocOk);
      }
    }

    /** Mark list `id` ready. */
    method SetListReady(id: nat)
      requires Valid() && id <= 1
      modifies list0, list1
      ensures Valid() && SameParts() && sent == old(sent)
      ensures View() == WithList(old(View()), id, ListOf(old(View()), id).(ready := true))
    {
      if id == 0 {
        list0.SetReady();
      } else {
        list1.SetReady();
      }
    }

    /** The auto-start of `do_preload_push` and `do_preload_end`. */
    method StartIfIdle(id: nat)
      requires Valid()
      modifies this
      ensures Valid() && SameParts() && sent == old(sent)
      ensures View() == AutoStart(old(View()), id)
    {
      if !playing && id == 0 {
        Play(0, true);
      }
    }

    /** `do_preload_push` once its frame has been read; `allocOk` is whether
      * growing the word buffer succeeds when it must. */
    method DoPreloadPush(id: Byte, w: seq<Word>, allocOk: bool) returns (ok: bool)
      requires Valid()
      modifies this, list0.Repr, list1.Repr, notifier, notifier.status, notifier.lastSent
      ensures Valid() && SameParts()
      ensures var r := PushCmd(old(View()), id, w, allocOk); ok == r.ok && View() == r.s && sent == old(sent)
    {
      if id > 1 || |w| == 0 || |w| > MaxWordsPerFrame {
        return false;
      }
      ok := PushInto(id, w, allocOk);
      if ok {
        CompleteIfFull(id);
      }
    }

    /** The auto-finalize of `do_preload_push`. */
    method CompleteIfFull(id: nat)
      requires Valid() && id <= 1
      modifies this, list0, list1, notifier, notifier.status, notifier.lastSent
      ensures Valid() && SameParts() && sent == old(sent)
      ensures View() == RawQueueSpec.CompleteIfFull(old(View()), id)
    {
      var l := if id == 0 then list0 else list1;
      if l.loadedFrames > 0 && l.loadedFrames == l.totalFrames {
        MarkListReady(id);
        StartIfIdle(id);
      }
    }

    /** Mark list `id` ready and announce it READY. */
    method MarkListReady(id: nat)
      requires Valid() && id <= 1
      modifies list0, list1, notifier, notifier.status, notifier.lastSent
      ensures Valid() && SameParts() && sent == old(sent)
      ensures View() == MarkReady(old(View()), id)
    {
      SetListReady(id);
      Announce(id, Ready);
    }

    /** `do_preload_end`. */
    method DoPreloadEnd(id: Byte) returns (ok: bool)
      requires Valid()
      modifies this, list0.Repr, list1.Repr, loading, notifier, notifier.status, notifier.lastSent
      ensures Valid() && SameParts()
      ensures var r := EndCmd(old(View()), id); ok == r.ok && View() == r.s && sent == old(sent)
    {
      if id > 1 {
        return false;
      }
      var l := if id == 0 then list0 else list1;
      if l.loadedFrames == 0 {
        return false;
      }
      MarkListReady(id);
      SetLoading(id, false);
      StartIfIdle(id);
      ok := true;
    }

    /** The `switch` of `serve_client` on a parsed command; any opcode but
      * B, P, E and Z is refused. */
    method Handle(c: Command, metaOk: bool, allocOk: bool) returns (ok: bool)
      requires Valid()
      modifies this, list0.Repr, list1.Repr, loading, notifier, notifier.status, notifier.lastSent
      ensures Valid() && SameParts()
      ensures var r := Apply(old(View()), c, metaOk, allocOk); ok == r.ok && View() == r.s && sent == old(sent)
    {
      match c
      case Begin(id, t) => ok := DoPreloadBegin(id, t, metaOk);
      case Push(id, w) => ok := DoPreloadPush(id, w, allocOk);
      case End(id) => ok := DoPreloadEnd(id);
      case Reset => DoReset(); ok := true;
      case _ => ok := false;
    }

    /** `serve_client` on everything one client sends, with the player
      * asleep throughout. */
    method ServeClient(input: seq<Byte>, metaOk: bool, allocOk: bool)
      requires Valid()
      modifies this, list0.Repr, list1.Repr, loading, notifier, notifier.status, notifier.lastSent
      ensures Valid() && SameParts()
      ensures View() == Serve(old(View()), input, metaOk, allocOk) && sent == old(sent)
    {
      var rest := input;
      var stop := false;
      while !stop
        invariant Valid() && SameParts() && sent == old(sent)
        invariant !stop ==> Serve(old(View()), input, metaOk, allocOk) == Serve(View(), rest, metaOk, allocOk)
        invariant stop ==> View() == Serve(old(View()), input, metaOk, allocOk)
        decreases !stop, |rest|
      {
        stop, rest := ServeStep(rest, metaOk, allocOk);
      }
    }

    /** One pass of the `serve_client` loop: read a command off the front of
      * `rest` and handle it; `stop` says the client is dropped here. */
    method ServeStep(rest: seq<Byte>, metaOk: bool, allocOk: bool) returns (stop: bool, next: seq<Byte>)
      requires Valid()
      modifies this, list0.Repr, list1.Repr, loading, notifier, notifier.status, notifier.lastSent
      ensures Valid() && SameParts() && sent == old(sent)
      ensures stop ==> View() == Serve(old(View()), rest, metaOk, allocOk)
      ensures !stop ==> |next| < |rest| && Serve(old(View()), rest, metaOk, allocOk) == Serve(View(), next, metaOk, allocOk)
    {
      var parsed := ParseCommand(rest);
      next := rest;
      if !parsed.Parsed? {
        Drop();
        return true, next;
      }
      ParseShrinks(rest);
      var ok := Handle(parsed.cmd, metaOk, allocOk);
      if !ok {
        Drop();
        return true, next;
      }
      stop, next := false, parsed.rest;
    }

    /** The priming part of `start_queue_server` right after `init_lists`:
      * each list in turn loaded with the zero-gain frame and played, the
      * waits for IDLE included (they find the status IDLE already). */
    method PrimeLists(meta0: bool, grow0: bool, meta1: bool, grow1: bool)
      requires Valid() && View() == InitialRaw
      modifies this, list0.Repr, list1.Repr
      ensures Valid() && SameParts() && sent == old(sent)
      ensures View() == Prime(meta0, grow0, meta1, grow1)
    {
      PrimeOne(0, meta0, grow0);
      PrimeOne(1, meta1, grow1);
    }

    /** `load_zero_gain_list` on list `id` and, when it succeeds, playback
      * of that list from its first frame. */
    method PrimeOne(id: nat, metaOk: bool, growOk: bool)
      requires Valid() && id <= 1
      modifies this, list0.Repr, list1.Repr
      ensures Valid() && SameParts() && sent == old(sent)
      ensures View() == PrimeList(old(View()), id, FlushFrames, metaOk, growOk)
    {
      var ok := LoadZeroGainList(id, metaOk, growOk);
      if ok {
        Play(id, true);
      }
    }

    /** `load_zero_gain_list` on list `id`. */
    method LoadZeroGainList(id: nat, metaOk: bool, growOk: bool) returns (ok: bool)
      requires Valid() && id <= 1
      modifies list0.Repr, list1.Repr
      ensures Valid() && SameParts() && sent == old(sent)
      ensures ok == (metaOk && growOk)
      ensures View() == WithList(old(View()), id, if ok then ZeroGainLoaded(FlushFrames) else EmptyList)
    {
      if id == 0 {
        ok := list0.LoadZeroGain(FlushFrames, metaOk, growOk);
      } else {
        ok := list1.LoadZeroGain(FlushFrames, metaOk, growOk);
      }
    }
  }
}
