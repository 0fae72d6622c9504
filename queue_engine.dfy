/**
 * The state `G` of the top-level queue server (`awg_server_raw_queue.c`)
 * and its handlers, as a class over two `FrameList`s.  Every method is
 * proved to leave exactly the state the matching function of
 * `QueueEngineSpec` describes; `sent` collects the words handed to
 * `awg_send_words32`, in order.
 */
module QueueEngine {
  import opened Words
  import opened ControlWord
  import opened FrameStore
  import opened QueueProtocol
  import opened QueueEngineSpec

  class QueueServer {
    var list0: FrameList
    var list1: FrameList
    var playing: bool
    var curList: nat
    var nextList: nat
    var curFrame: nat
    var periodUs: nat
    var bytesRx: nat
    var framesPushed: nat
    var switches: nat
    var holds: nat
    var resets: nat
    var aborts: nat
    var sent: seq<Word>

    /** The two lists are separate objects, each well formed, and the list
      * ids in use are 0 and 1. */
    ghost predicate Valid()
      reads this, list0, list1, list0.Repr, list1.Repr
    {
      list0 != list1 && list0.Repr !! list1.Repr && this !in list0.Repr && this !in list1.Repr && list0.Valid() && list1.Valid() &&
      curList <= 1 && nextList == 1 - curList
    }

    /** The same two list objects, any new storage of theirs freshly allocated. */
    twostate predicate SameLists()
      reads this, list0, list1
    {
      list0 == old(list0) && list1 == old(list1) && list0.Renewed() && list1.Renewed()
    }

    function Counts(): Counters
      reads this
    {
      Counters(bytesRx, framesPushed, switches, holds, resets, aborts)
    }

    ghost function View(): EngineView
      reads this, list0, list1
    {
      EngineView(list0.View(), list1.View(), playing, curList, nextList, curFrame, periodUs, Counts())
    }

    /** `init_lists`. */
    constructor ()
      ensures Valid() && View() == InitialView && sent == []
    {
      list0 := new FrameList();
      list1 := new FrameList();
      playing, curList, nextList, curFrame, periodUs := false, 0, 1, 0, DefaultPeriodUs;
      bytesRx, framesPushed, switches, holds, resets, aborts := 0, 0, 0, 0, 0, 0;
      sent := [];
    }

    /** `clear_list_id` for a list id of 0 or 1: `free_list` on that list. */
    method ClearList(id: nat)
      requires Valid() && id <= 1
      modifies list0.Repr, list1.Repr
      ensures Valid() && SameLists()
      ensures View() == WithList(old(View()), id, EmptyList)
    {
      if id == 0 {
        list0.Clear();
      } else {
        list1.Clear();
      }
    }

    /** The player positioned at the start of list `cur`, running or not. */
    method Rewind(cur: nat, run: bool)
      requires Valid() && cur <= 1
      modifies this
      ensures Valid() && SameLists() && sent == old(sent)
      ensures View() == old(View()).(playing := run, cur := cur, next := 1 - cur, frame := 0)
    {
      playing, curList, nextList, curFrame := run, cur, 1 - cur, 0;
    }

    /** The switch branch of the player: the lists trade places, the new
      * current list plays from frame 0, and the finished one is cleared. */
    method SwitchToNext()
      requires Valid()
      modifies this, list0.Repr, list1.Repr
      ensures Valid() && SameLists()
      ensures View() == SwitchLists(old(View())) && sent == old(sent)
    {
      var prev := curList;
      switches := switches + 1;
      Rewind(nextList, playing);
      ClearList(prev);
    }

    /** The idle branch at the end of a list: stop, rewind, count a hold and
      * clear the finished list. */
    method StopAtListEnd()
      requires Valid()
      modifies this, list0.Repr, list1.Repr
      ensures Valid() && SameLists()
      ensures View() == StopAtEnd(old(View())) && sent == old(sent)
    {
      holds := holds + 1;
      Rewind(curList, false);
      ClearList(curList);
    }

    /** One wake-up of `player_thread`. */
    method PlayerTick()
      requires Valid()
      modifies this, list0.Repr, list1.Repr
      ensures Valid() && SameLists()
      ensures View() == TickStep(old(View())).s && sent == old(sent) + TickStep(old(View())).sent
    {
      if !playing {
        return;
      }
      var cl := if curList == 0 then list0 else list1;
      var nl := if nextList == 0 then list0 else list1;
      if curFrame < cl.loadedFrames {
        PlayFrame();
      } else if nl.ready && nl.loadedFrames > 0 {
        SwitchToNext();
      } else {
        holds := holds + 1;
      }
    }

    /** The player with a frame left: send it and move on; after the last
      * frame, switch to the other list if it is ready, or else stop. */
    method PlayFrame()
      requires Valid() && playing && curFrame < Loaded(ListOf(View(), curList))
      modifies this, list0.Repr, list1.Repr
      ensures Valid() && SameLists()
      ensures View() == TickStep(old(View())).s && sent == old(sent) + TickStep(old(View())).sent
    {
      SendFrame();
      var cl := if curList == 0 then list0 else list1;
      var nl := if nextList == 0 then list0 else list1;
      if curFrame >= cl.loadedFrames {
        if nl.ready && nl.loadedFrames > 0 {
          SwitchToNext();
        } else {
          StopAtListEnd();
        }
      }
    }

    /** `awg_send_words32` on the current frame, then `cur_frame++`. */
    method SendFrame()
      requires Valid() && curFrame < Loaded(ListOf(View(), curList))
      modifies this
      ensures Valid() && SameLists()
      ensures View() == old(View()).(frame := old(curFrame) + 1)
      ensures sent == old(sent) + ListOf(old(View()), old(curList)).frames[old(curFrame)]
    {
      var cl := if curList == 0 then list0 else list1;
      sent := sent + cl.Frame(curFrame);
      curFrame := curFrame + 1;
    }

    /** `do_reset`. */
    method DoReset()
      requires Valid()
      modifies this, list0.Repr, list1.Repr
      ensures Valid() && SameLists()
      ensures View() == Stopped(old(View())).(stats := old(Counts()).(resets := old(resets) + 1))
      ensures sent == old(sent)
    {
      resets := resets + 1;
      Rewind(0, false);
      ClearList(0);
      ClearList(1);
    }

    /** `do_abort`: as `do_reset`, then `send_zero_output`, which builds the
      * zero-output words and hands all 17 to `awg_send_words32`. */
    method DoAbort()
      requires Valid()
      modifies this, list0.Repr, list1.Repr
      ensures Valid() && SameLists()
      ensures View() == Stopped(old(View())).(stats := old(Counts()).(aborts := old(aborts) + 1))
      ensures sent == old(sent) + ZeroOutputWords()
    {
      aborts := aborts + 1;
      Rewind(0, false);
      ClearList(0);
      ClearList(1);
      var zero := BuildZeroOutput();
      sent := sent + zero[..];
    }

    /** `do_init_list`. */
    method DoInitList(id: Byte, maxFrames: Word) returns (ok: bool)
      requires Valid()
      modifies this, list0.Repr, list1.Repr
      ensures Valid() && SameLists()
      ensures ok == (id <= 1) && sent == old(sent)
      ensures View() == if ok then WithList(old(View()), id, EmptyList.(maxFrames := maxFrames)) else old(View())
    {
      if id > 1 {
        return false;
      }
      ClearList(id);
      if id == 0 {
        list0.SetMaxFrames(maxFrames);
      } else {
        list1.SetMaxFrames(maxFrames);
      }
      ok := true;
    }

    /** `do_preload_begin`; the frame table is always allocated. */
    method DoPreloadBegin(id: Byte, total: Word) returns (ok: bool)
      requires Valid()
      modifies this, list0.Repr, list1.Repr
      ensures Valid() && SameLists()
      ensures ok == (id <= 1 && total > 0) && sent == old(sent)
      ensures View() == if ok then WithList(old(View()), id, BegunKeepWords(ListOf(old(View()), id), total)) else old(View())
    {
      if id > 1 || total == 0 {
        return false;
      }
      if id == 0 {
        list0.BeginKeepWords(total);
      } else {
        list1.BeginKeepWords(total);
      }
      ok := true;
    }

    /** Mark list `id` ready and auto-start list 0 when idle. */
    method MarkListReady(id: nat)
      requires Valid() && id <= 1
      modifies this, list0.Repr, list1.Repr
      ensures Valid() && SameLists()
      ensures View() == MarkReady(old(View()), id) && sent == old(sent)
    {
      if !playing && id == 0 {
        Rewind(0, true);
      }
      if id == 0 {
        list0.SetReady();
      } else {
        list1.SetReady();
      }
    }

    /** `do_preload_push` once its frame has been read: the header check,
      * `push_frame`, and the auto-finalize of a complete list.  `allocOk` is
      * whether growing the word buffer succeeds when it must. */
    method DoPreloadPush(id: Byte, w: seq<Word>, allocOk: bool) returns (ok: bool)
      requires Valid()
      modifies this, list0.Repr, list1.Repr
      ensures Valid() && SameLists()
      ensures var r := PushCmd(old(View()), id, w, allocOk); ok == r.ok && View() == r.s
      ensures sent == old(sent)
    {
      if id > 1 || |w| == 0 || |w| > MaxWordsPerFrame {
        return false;
      }
      ok := PushInto(id, w, allocOk);
      var l := if id == 0 then list0 else list1;
      if ok && l.loadedFrames == l.totalFrames {
        MarkListReady(id);
      }
    }

    /** `push_frame` on list `id`. */
    method PushInto(id: nat, w: seq<Word>, allocOk: bool) returns (ok: bool)
      requires Valid() && id <= 1
      modifies list0.Repr, list1.Repr
      ensures Valid() && SameLists()
      ensures ok == PushAccepts(ListOf(old(View()), id), w, allocOk)
      ensures View() == if ok then WithList(old(View()), id, Pushed(ListOf(old(View()), id), w)) else old(View())
    {
      if id == 0 {
        ok := list0.PushFrame(w, allocOk);
      } else {
        ok := list1.PushFrame(w, allocOk);
      }
    }

    /** `do_preload_end`. */
    method DoPreloadEnd(id: Byte) returns (ok: bool)
      requires Valid()
      modifies this, list0.Repr, list1.Repr
      ensures Valid() && SameLists()
      ensures ok == (id <= 1 && Loaded(ListOf(old(View()), id)) > 0) && sent == old(sent)
      ensures View() == if ok then MarkReady(old(View()), id) else old(View())
    {
      if id > 1 {
        return false;
      }
      var l := if id == 0 then list0 else list1;
      if l.loadedFrames == 0 {
        return false;
      }
      MarkListReady(id);
      ok := true;
    }

    /** `do_set_period`. */
    method DoSetPeriod(p: Word)
      requires Valid()
      modifies this
      ensures Valid() && SameLists()
      ensures View() == old(View()).(periodUs := if p == 0 then 1 else p) && sent == old(sent)
    {
      periodUs := if p == 0 then 1 else p;
    }

    /** `do_query`: the 16-byte status reply. */
    method DoQuery() returns (out: seq<Byte>)
      requires Valid()
      ensures out == Apply(View(), Query, true).out
    {
      var free0 := if list0.totalFrames > list0.loadedFrames then list0.totalFrames - list0.loadedFrames else 0;
      var free1 := if list1.totalFrames > list1.loadedFrames then list1.totalFrames - list1.loadedFrames else 0;
      out := QueryReply(playing, curList, curFrame, free0, free1);
    }

    /** `do_stats_reply`: the 32-byte counter reply. */
    method DoStatsReply() returns (out: seq<Byte>)
      requires Valid()
      ensures out == Apply(View(), Stats, true).out
    {
      var buf := StatsReply(bytesRx, framesPushed, switches, holds);
      out := buf[..];
    }

    /** The `switch` of `serve_client` on a parsed command. */
    method Handle(c: Command, allocOk: bool) returns (ok: bool, out: seq<Byte>)
      requires Valid()
      modifies this, list0.Repr, list1.Repr
      ensures Valid() && SameLists()
      ensures var r := Apply(old(View()), c, allocOk);
        ok == r.ok && View() == r.s && sent == old(sent) + r.sent && out == r.out
    {
      out := [];
      ok := true;
      match c
      case Reset => DoReset();
      case Abort => DoAbort();
      case InitList(id, m) => ok := DoInitList(id, m);
      case Begin(id, t) => ok := DoPreloadBegin(id, t);
      case Push(id, w) => ok := DoPreloadPush(id, w, allocOk);
      case End(id) => ok := DoPreloadEnd(id);
      case SetPeriod(p) => DoSetPeriod(p);
      case Query => out := DoQuery();
      case Stats => out := DoStatsReply();
    }

    /** `serve_client` on everything one client sends, with the player
      * asleep throughout. */
    method ServeClient(input: seq<Byte>, allocOk: bool) returns (replies: seq<Byte>, dropped: bool)
      requires Valid()
      modifies this, list0.Repr, list1.Repr
      ensures Valid() && SameLists()
      ensures var t := Serve(old(View()), input, allocOk);
        View() == t.s && sent == old(sent) + t.sent && replies == t.replies && dropped == t.dropped
    {
      var rest := input;
      replies, dropped := [], false;
      ghost var sentHere: seq<Word> := [];
      ghost var whole := Serve(View(), input, allocOk);
      AfterNothingAtAll(whole);
      var stop := false;
      while !stop
        invariant Valid() && SameLists()
        invariant sent == old(sent) + sentHere
        invariant !stop ==> whole == After(sentHere, replies, Serve(View(), rest, allocOk))
        invariant stop ==> whole == Session(View(), sentHere, replies, dropped)
        decreases !stop, |rest|
      {
        stop, dropped, rest, replies, sentHere := ServeStep(rest, allocOk, replies, whole, old(sent), sentHere);
      }
    }

    /** One pass of the `serve_client` loop, with the loop's bookkeeping:
      * `whole` is the session the whole input makes, of which `sentHere`
      * and `replies` have already happened. */
    method ServeStep(rest: seq<Byte>, allocOk: bool, replies: seq<Byte>, ghost whole: Session, ghost sent0: seq<Word>, ghost sentHere: seq<Word>)
        returns (stop: bool, dropped: bool, next: seq<Byte>, replies': seq<Byte>, ghost sentHere': seq<Word>)
      requires Valid() && sent == sent0 + sentHere
      requires whole == After(sentHere, replies, Serve(View(), rest, allocOk))
      modifies this, list0.Repr, list1.Repr
      ensures Valid() && SameLists() && sent == sent0 + sentHere'
      ensures stop ==> whole == Session(View(), sentHere', replies', dropped)
      ensures !stop ==> |next| < |rest| && whole == After(sentHere', replies', Serve(View(), next, allocOk))
    {
      ghost var t := Serve(View(), rest, allocOk);
      var out; ghost var w;
      stop, dropped, next, out, w := ServeCommand(rest, allocOk);
      if stop {
        ServeStops(whole, sentHere, replies, t, View(), dropped);
        replies', sentHere' := replies, sentHere;
      } else {
        ServeGoesOn(whole, sentHere, replies, t, w, out, Serve(View(), next, allocOk));
        replies', sentHere' := replies + out, sentHere + w;
      }
    }

    /** One pass of the `serve_client` loop: parse a command off the front of
      * `rest` and handle it.  `stop` says the connection ends here (the
      * bytes run out, or a protocol error or refused command drops it). */
    method ServeCommand(rest: seq<Byte>, allocOk: bool)
        returns (stop: bool, dropped: bool, next: seq<Byte>, out: seq<Byte>, ghost w: seq<Word>)
      requires Valid()
      modifies this, list0.Repr, list1.Repr
      ensures Valid() && SameLists() && sent == old(sent) + w
      ensures stop ==> w == [] && Serve(old(View()), rest, allocOk) == Session(View(), [], [], dropped)
      ensures !stop ==> |next| < |rest| && Serve(old(View()), rest, allocOk) == After(w, out, Serve(View(), next, allocOk))
    {
      ghost var here := View();
      var parsed := ParseCommand(rest);
      w, out, next := [], [], rest;
      if !parsed.Parsed? {
        ServeEnds(here, rest, allocOk);
        return true, parsed != Incomplete || rest != [], next, out, w;
      }
      ParseShrinks(rest);
      var ok;
      ok, out := Handle(parsed.cmd, allocOk);
      if !ok {
        RefusedChangesNothing(here, parsed.cmd, allocOk);
        ServeEnds(here, rest, allocOk);
        return true, true, next, [], w;
      }
      ServeParsed(here, rest, allocOk);
      w := Apply(here, parsed.cmd, allocOk).sent;
      stop, dropped, next := false, false, parsed.rest;
    }
  }
}
